/**
 * The kanban board of a project (src/components/dashboard/TaskBoard.tsx):
 * three columns by task status, one-step moves between neighbouring
 * columns, deletion after confirmation and an add-task form, both for
 * administrators only. The board never changes tasks itself: it sends
 * mutations to the tasks router, recorded here in `sent`, and shows the
 * task whose mutation is in flight as busy.
 */
module TaskBoard {
  import opened Common
  import opened ProjectSchema
  import Store
  import Numeric
  import Text

  /** `COLUMNS`: the column keys, left to right. */
  const COLUMNS: seq<TaskStatus> := [TODO, IN_PROGRESS, DONE]

  /** The column to the right of a status (`nextStatus`), none from the last column. */
  function NextStatus(s: TaskStatus): (r: Option<TaskStatus>)
    ensures r.None? <==> s == COLUMNS[|COLUMNS| - 1]
    ensures forall i | 0 <= i < |COLUMNS| - 1 :: s == COLUMNS[i] ==> r == Some(COLUMNS[i + 1])
  {
    match s
    case TODO => Some(IN_PROGRESS)
    case IN_PROGRESS => Some(DONE)
    case DONE => None
  }

  /** The column to the left of a status (`prevStatus`), none from the first column. */
  function PrevStatus(s: TaskStatus): (r: Option<TaskStatus>)
    ensures r.None? <==> s == COLUMNS[0]
    ensures forall i | 1 <= i < |COLUMNS| :: s == COLUMNS[i] ==> r == Some(COLUMNS[i - 1])
  {
    match s
    case IN_PROGRESS => Some(TODO)
    case DONE => Some(IN_PROGRESS)
    case TODO => None
  }

  /** The two buttons undo each other. */
  lemma MovesAreInverse(s: TaskStatus, t: TaskStatus)
    ensures NextStatus(s) == Some(t) <==> PrevStatus(t) == Some(s)
  {
  }

  /** `byStatus(status)`: the tasks of one column, in board order. */
  function Column(tasks: seq<Store.Task>, s: TaskStatus): (col: seq<Store.Task>)
    ensures |col| <= |tasks|
    ensures forall t :: t in col <==> t in tasks && t.status == s
  {
    if tasks == [] then []
    else
      var rest := Column(tasks[1..], s);
      assert forall t | t in tasks :: t == tasks[0] || t in tasks[1..];
      if tasks[0].status == s then [tasks[0]] + rest else rest
  }

  /** A one-task board puts the task in its own column and nowhere else. */
  lemma ColumnSingleton(t: Store.Task, s: TaskStatus)
    ensures Column([t], s) == if t.status == s then [t] else []
  {
  }

  /**
   * Columns keep board order: the column of two boards laid end to end is
   * the first board's column followed by the second's. With
   * `ColumnSingleton` this fixes the column of every board, order and
   * repetitions included.
   */
  lemma {:induction false} ColumnAppend(xs: seq<Store.Task>, ys: seq<Store.Task>, s: TaskStatus)
    ensures Column(xs + ys, s) == Column(xs, s) + Column(ys, s)
  {
    if xs != [] {
      assert (xs + ys)[1..] == xs[1..] + ys;
      ColumnAppend(xs[1..], ys, s);
    } else {
      assert xs + ys == ys;
    }
  }

  /**
   * Every task sits in exactly one column: the three columns together hold
   * the board's tasks with their multiplicities, so the sizes add up.
   */
  lemma {:induction false} ColumnsPartition(tasks: seq<Store.Task>)
    ensures multiset(Column(tasks, TODO)) + multiset(Column(tasks, IN_PROGRESS)) + multiset(Column(tasks, DONE))
            == multiset(tasks)
    ensures |Column(tasks, TODO)| + |Column(tasks, IN_PROGRESS)| + |Column(tasks, DONE)| == |tasks|
  {
    if tasks != [] {
      ColumnsPartition(tasks[1..]);
      assert tasks == [tasks[0]] + tasks[1..];
      assert multiset(tasks) == multiset([tasks[0]]) + multiset(tasks[1..]);
    }
  }

  /** `pct`: the share of tasks in the last column. */
  function Progress(tasks: seq<Store.Task>): nat {
    Numeric.Percent(|Column(tasks, DONE)|, |tasks|)
  }

  lemma ProgressBounds(tasks: seq<Store.Task>)
    ensures Progress(tasks) <= 100
    ensures Column(tasks, DONE) == [] ==> Progress(tasks) == 0
    ensures tasks != [] && |Column(tasks, DONE)| == |tasks| ==> Progress(tasks) == 100
  {
    Numeric.PercentBounds(|Column(tasks, DONE)|, |tasks|);
  }

  /** The request the add form sends to `tasks.create`, in the router's raw input shape. */
  function NewTaskRequest(title: string, desc: string, projectId: Id, status: TaskStatus,
                          priority: Priority, dueDate: Option<int>): (r: Option<TaskRaw>)
    ensures r.None? <==> Text.Trim(title) == ""
    ensures r.Some? ==> r.value.title == Some(Text.Trim(title)) && r.value.projectId == Some(projectId)
    ensures r.Some? ==> r.value.status == Some(TaskStatusName(status)) && r.value.priority == Some(PriorityName(priority))
    ensures r.Some? ==> (r.value.description.None? <==> Text.Trim(desc) == "")
    ensures r.Some? && r.value.description.Some? ==> r.value.description.value == Text.Trim(desc)
    ensures r.Some? ==> r.value.dueDate == dueDate
  {
    if Text.Trim(title) == "" then None
    else
      var d := Text.Trim(desc);
      Some(TaskRaw(Some(Text.Trim(title)), if d == "" then None else Some(d), Some(projectId),
                   Some(TaskStatusName(status)), Some(PriorityName(priority)), dueDate))
  }

  /**
   * A form whose trimmed title has 3 to 300 characters, whose trimmed
   * description fits 2000 and whose project id is a cuid passes the
   * router's schema, and the task is created in the form's column with
   * the form's fields unchanged. Titles of one or two characters pass the
   * form but not the schema.
   */
  lemma FormPassesSchema(lib: Lib, title: string, desc: string, projectId: Id, status: TaskStatus,
                         priority: Priority, dueDate: Option<int>)
    requires 3 <= |Text.Trim(title)| <= 300 && |Text.Trim(desc)| <= 2000 && lib.isCuid(projectId)
    ensures NewTaskRequest(title, desc, projectId, status, priority, dueDate).Some?
    ensures ParseTaskCreate(lib, NewTaskRequest(title, desc, projectId, status, priority, dueDate).value)
            == Ok(TaskInput(Text.Trim(title), if Text.Trim(desc) == "" then None else Some(Text.Trim(desc)),
                            projectId, status, priority, dueDate))
  {
    var t, d := Text.Trim(title), Text.Trim(desc);
    var raw := NewTaskRequest(title, desc, projectId, status, priority, dueDate).value;
    Text.TrimIdempotent(title);
    Text.TrimIdempotent(desc);
    assert ParseTaskStatus(TaskStatusName(status)) == Some(status);
    assert ParsePriority(PriorityName(priority)) == Some(priority);
    assert TaskCreateIssues(lib, raw) == [] by {
      assert raw.title == Some(t) && LengthIn(t, 3, 300);
      assert OptionalMaxOk(raw.description, 2000) && CuidOk(lib, raw.projectId);
    }
    var r := ParseTaskCreate(lib, raw);
    assert r.value.title == t;
    assert r.value.description == if d == "" then None else Some(d);
    assert TaskStatusName(r.value.status) == TaskStatusName(status);
    assert PriorityName(r.value.priority) == PriorityName(priority);
  }

  /** A mutation the board sends to the tasks router. */
  datatype Mutation =
    | UpdateStatus(id: Id, status: TaskStatus)
    | DeleteTask(id: Id)
    | CreateTask(input: TaskRaw)

  /** The add form's fields (`dueDate` is the date picker's value, already read as a time). */
  datatype Form = Form(title: string, priority: Priority, dueDate: Option<int>, desc: string)

  /** A freshly opened form: everything empty, priority MEDIUM. */
  const EMPTY_FORM: Form := Form("", MEDIUM, None, "")

  /** The creation a submitted form sends, if any. */
  function Creations(req: Option<TaskRaw>): seq<Mutation> {
    if req.Some? then [CreateTask(req.value)] else []
  }

  class Board {
    const projectId: Id
    const isAdmin: bool
    var updatingId: Option<Id>
    var addingTo: Option<TaskStatus>
    var sent: seq<Mutation>

    /** Only administrators open the add form and send deletions or creations. */
    predicate Valid()
      reads this
    {
      && (addingTo.Some? ==> isAdmin)
      && (forall m | m in sent :: !m.UpdateStatus? ==> isAdmin)
    }

    constructor (projectId: Id, isAdmin: bool)
      ensures Valid()
      ensures this.projectId == projectId && this.isAdmin == isAdmin
      ensures updatingId.None? && addingTo.None? && sent == []
    {
      this.projectId := projectId;
      this.isAdmin := isAdmin;
      updatingId := None;
      addingTo := None;
      sent := [];
    }

    /** `isLoading`: the task whose mutation is in flight is dimmed and ignores clicks. */
    predicate Busy(id: Id)
      reads this
    {
      updatingId == Some(id)
    }

    /** `handleMove` followed by `onMutate`: send `{id, status}` and mark the task busy. */
    method Move(id: Id, status: TaskStatus)
      requires Valid()
      modifies this
      ensures Valid()
      ensures sent == old(sent) + [UpdateStatus(id, status)]
      ensures updatingId == Some(id) && addingTo == old(addingTo)
    {
      sent := sent + [UpdateStatus(id, status)];
      updatingId := Some(id);
    }

    /** The right-arrow button of a task that is not in the last column. */
    method MoveForward(task: Store.Task)
      requires Valid() && !Busy(task.id) && NextStatus(task.status).Some?
      modifies this
      ensures Valid()
      ensures sent == old(sent) + [UpdateStatus(task.id, NextStatus(task.status).value)]
      ensures PrevStatus(sent[|sent| - 1].status) == Some(task.status)
      ensures updatingId == Some(task.id) && addingTo == old(addingTo)
    {
      MovesAreInverse(task.status, NextStatus(task.status).value);
      Move(task.id, NextStatus(task.status).value);
    }

    /** The left-arrow button of a task that is not in the first column. */
    method MoveBack(task: Store.Task)
      requires Valid() && !Busy(task.id) && PrevStatus(task.status).Some?
      modifies this
      ensures Valid()
      ensures sent == old(sent) + [UpdateStatus(task.id, PrevStatus(task.status).value)]
      ensures NextStatus(sent[|sent| - 1].status) == Some(task.status)
      ensures updatingId == Some(task.id) && addingTo == old(addingTo)
    {
      MovesAreInverse(PrevStatus(task.status).value, task.status);
      Move(task.id, PrevStatus(task.status).value);
    }

    /** `handleDelete`: an administrator's click sends the deletion only once confirmed. */
    method Delete(id: Id, confirmed: bool)
      requires Valid() && isAdmin && !Busy(id)
      modifies this
      ensures Valid()
      ensures confirmed ==> sent == old(sent) + [DeleteTask(id)] && updatingId == Some(id)
      ensures !confirmed ==> sent == old(sent) && updatingId == old(updatingId)
      ensures addingTo == old(addingTo)
    {
      if confirmed {
        sent := sent + [DeleteTask(id)];
        updatingId := Some(id);
      }
    }

    /** `onSettled`: the mutation finished, with success or error. */
    method Settle()
      requires Valid()
      modifies this
      ensures Valid()
      ensures updatingId.None? && addingTo == old(addingTo) && sent == old(sent)
    {
      updatingId := None;
    }

    /** The "add a task" button under a column (administrators only). */
    method OpenAddForm(col: TaskStatus)
      requires Valid() && isAdmin
      modifies this
      ensures Valid()
      ensures addingTo == Some(col) && updatingId == old(updatingId) && sent == old(sent)
    {
      addingTo := Some(col);
    }

    /** `onDone` after a creation succeeded, or `onCancel`: the form closes. */
    method CloseAddForm()
      requires Valid()
      modifies this
      ensures Valid()
      ensures addingTo.None? && updatingId == old(updatingId) && sent == old(sent)
    {
      addingTo := None;
    }

    /**
     * `handleSubmit` of the open form: a blank title sends nothing
     * (`NewTaskRequest` is none exactly then); otherwise a task for the
     * form's column.
     */
    method SubmitAddForm(form: Form)
      requires Valid() && addingTo.Some?
      modifies this
      ensures Valid()
      ensures sent == old(sent) + Creations(NewTaskRequest(form.title, form.desc, projectId, old(addingTo).value, form.priority, form.dueDate))
      ensures addingTo == old(addingTo) && updatingId == old(updatingId)
    {
      var req := NewTaskRequest(form.title, form.desc, projectId, addingTo.value, form.priority, form.dueDate);
      sent := sent + Creations(req);
    }
  }
}
