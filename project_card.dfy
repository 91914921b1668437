/**
 * The project card of the client dashboard (src/components/dashboard/ProjectCard.tsx):
 * what the card derives from a project before rendering it — the status
 * style, the task progress, the most pressing open priority and the
 * days-remaining badge. Dates are milliseconds since the epoch; `now` is
 * the `Date.now()` of the render.
 */
module ProjectCard {
  import opened Common
  import opened ProjectSchema
  import Numeric

  /** A task as the card receives it: status and priority are plain strings. */
  datatype TaskMini = TaskMini(id: Id, status: string, priority: string)

  datatype CardData = CardData(
    id: Id, title: string, status: string, endDate: Option<int>, tasks: seq<TaskMini>)

  const DAY_MS: nat := 1000 * 60 * 60 * 24

  /** `daysLeft`: the whole days until the end date, rounded up; none without an end date. */
  function DaysLeft(endDate: Option<int>, now: int): (r: Option<int>)
    ensures r.None? <==> endDate.None?
    ensures r.Some? ==> DAY_MS * (r.value - 1) < endDate.value - now <= DAY_MS * r.value
  {
    if endDate.None? then None else Some(Numeric.CeilDiv(endDate.value - now, DAY_MS))
  }

  /** The count reaches zero exactly when the end date has been reached. */
  lemma DaysLeftSign(end: int, now: int)
    ensures DaysLeft(Some(end), now).value <= 0 <==> end <= now
    ensures DaysLeft(Some(end), now).value < 0 <==> end - now <= -(DAY_MS as int)
  {
    var r := DaysLeft(Some(end), now).value;
    if r <= 0 {
      assert DAY_MS * r <= 0;
    } else {
      assert DAY_MS * (r - 1) >= 0;
    }
    if r < 0 {
      assert DAY_MS * r <= -(DAY_MS as int);
    } else {
      assert DAY_MS * (r - 1) >= -(DAY_MS as int);
    }
  }

  /** The order in which `topPriority` looks for an open task. */
  const PRIORITY_ORDER: seq<Priority> := [URGENT, HIGH, MEDIUM, LOW]

  /** A task still counts as open unless its status is "DONE". */
  predicate Open(t: TaskMini) {
    t.status != "DONE"
  }

  /** `tasks.some(t => t.priority === p && t.status !== "DONE")`. */
  predicate HasOpen(tasks: seq<TaskMini>, p: Priority) {
    exists t | t in tasks :: Open(t) && t.priority == PriorityName(p)
  }

  /** The first priority of `order` that some open task carries. */
  function FirstOpen(order: seq<Priority>, tasks: seq<TaskMini>): (r: Option<Priority>)
    ensures r.None? <==> forall i | 0 <= i < |order| :: !HasOpen(tasks, order[i])
    ensures r.Some? ==> exists i | 0 <= i < |order| :: order[i] == r.value && HasOpen(tasks, r.value) &&
                          forall j | 0 <= j < i :: !HasOpen(tasks, order[j])
  {
    if order == [] then None
    else if HasOpen(tasks, order[0]) then Some(order[0])
    else
      var r := FirstOpen(order[1..], tasks);
      assert forall i | 1 <= i < |order| :: order[i] == order[1..][i - 1];
      if r.Some? then
        var k :| 0 <= k < |order| - 1 && order[1..][k] == r.value && HasOpen(tasks, r.value) &&
                 forall j | 0 <= j < k :: !HasOpen(tasks, order[1..][j]);
        assert order[k + 1] == r.value;
        r
      else r
  }

  /** The urgency rank of a priority: LOW 0 up to URGENT 3. */
  function Rank(p: Priority): nat {
    match p
    case LOW => 0
    case MEDIUM => 1
    case HIGH => 2
    case URGENT => 3
  }

  /** The search order lists every priority once, most urgent first. */
  lemma OrderRanks()
    ensures forall p: Priority :: PRIORITY_ORDER[3 - Rank(p)] == p
    ensures forall i | 0 <= i < |PRIORITY_ORDER| :: Rank(PRIORITY_ORDER[i]) == 3 - i
  {
  }

  /** Searching the whole order misses no open priority. */
  lemma OrderCovers(tasks: seq<TaskMini>)
    ensures FirstOpen(PRIORITY_ORDER, tasks).None? ==> forall p: Priority :: !HasOpen(tasks, p)
  {
    forall p: Priority | FirstOpen(PRIORITY_ORDER, tasks).None?
      ensures !HasOpen(tasks, p)
    {
      OrderRanks();
      assert PRIORITY_ORDER[3 - Rank(p)] == p;
    }
  }

  /**
   * `topPriority`: the most urgent priority among the open tasks, none when
   * no open task has a known priority.
   */
  function TopPriority(tasks: seq<TaskMini>): (r: Option<Priority>)
    ensures r.None? <==> forall p: Priority :: !HasOpen(tasks, p)
    ensures r.Some? ==> HasOpen(tasks, r.value)
    ensures r.Some? ==> forall p: Priority :: HasOpen(tasks, p) ==> Rank(p) <= Rank(r.value)
  {
    var r := FirstOpen(PRIORITY_ORDER, tasks);
    OrderRanks();
    OrderCovers(tasks);
    r
  }

  /** `topPriority` only looks at open tasks: two lists with the same open priorities agree. */
  lemma {:induction false} FirstOpenDependsOnOpenOnly(order: seq<Priority>, a: seq<TaskMini>, b: seq<TaskMini>)
    requires forall p: Priority :: HasOpen(a, p) == HasOpen(b, p)
    ensures FirstOpen(order, a) == FirstOpen(order, b)
    decreases |order|
  {
    if order != [] {
      FirstOpenDependsOnOpenOnly(order[1..], a, b);
    }
  }

  /** Adding a finished task never changes the priority badge. */
  lemma DoneTaskIgnored(tasks: seq<TaskMini>, done: TaskMini)
    requires done.status == "DONE"
    ensures TopPriority(tasks + [done]) == TopPriority(tasks)
  {
    forall p: Priority ensures HasOpen(tasks + [done], p) == HasOpen(tasks, p) {
      if HasOpen(tasks + [done], p) {
        var t :| t in tasks + [done] && Open(t) && t.priority == PriorityName(p);
        assert t in tasks;
      }
    }
    FirstOpenDependsOnOpenOnly(PRIORITY_ORDER, tasks + [done], tasks);
  }

  /** `project.tasks.filter(t => t.status === "DONE").length`. */
  function DoneCount(tasks: seq<TaskMini>): (n: nat)
    ensures n <= |tasks|
    ensures n == |tasks| <==> forall t | t in tasks :: t.status == "DONE"
    ensures n == 0 <==> forall t | t in tasks :: t.status != "DONE"
  {
    if tasks == [] then 0
    else
      assert forall t | t in tasks[1..] :: t in tasks;
      assert forall t | t in tasks :: t == tasks[0] || t in tasks[1..];
      (if tasks[0].status == "DONE" then 1 else 0) + DoneCount(tasks[1..])
  }

  /** `progressPct`. */
  function ProgressPct(tasks: seq<TaskMini>): nat {
    Numeric.Percent(DoneCount(tasks), |tasks|)
  }

  /** The bar is full when every task is done, empty when none is, and never beyond 100. */
  lemma ProgressBounds(tasks: seq<TaskMini>)
    ensures ProgressPct(tasks) <= 100
    ensures (forall t | t in tasks :: t.status != "DONE") ==> ProgressPct(tasks) == 0
    ensures tasks != [] && (forall t | t in tasks :: t.status == "DONE") ==> ProgressPct(tasks) == 100
  {
    Numeric.PercentBounds(DoneCount(tasks), |tasks|);
  }

  /** `STATUS_CONFIG[status] ?? STATUS_CONFIG.IN_PROGRESS`: an unknown status is styled as in progress. */
  function StatusStyle(status: string): (s: ProjectStatus)
    ensures ProjectStatusName(s) == status || (ParseProjectStatus(status).None? && s == P_IN_PROGRESS)
    ensures ParseProjectStatus(status).Some? ==> s == ParseProjectStatus(status).value
  {
    match ParseProjectStatus(status)
    case Some(s) => s
    case None => P_IN_PROGRESS
  }

  datatype Tone = Red | Amber | Grey

  /** The days-remaining badge: its colour and whether it reads "overdue". */
  datatype Badge = Badge(tone: Tone, days: nat, overdue: bool)

  /** The badge is shown for a dated project that is not completed; red when overdue, amber within a week. */
  function RemainingBadge(remaining: Option<int>, status: string): (b: Option<Badge>)
    ensures b.Some? <==> remaining.Some? && status != "COMPLETED"
    ensures b.Some? ==> b.value.overdue == (remaining.value < 0) && b.value.days as int == if remaining.value < 0 then -remaining.value else remaining.value
  {
    if remaining.None? || status == "COMPLETED" then None
    else
      var d := remaining.value;
      var tone := if d < 0 then Red else if d <= 7 then Amber else Grey;
      Some(Badge(tone, if d < 0 then -d else d, d < 0))
  }

  /**
   * In terms of the end date: red once a full day has passed since it,
   * amber from then until seven days before it, grey earlier.
   */
  lemma {:induction false} BadgeTone(end: int, now: int, status: string)
    requires status != "COMPLETED"
    ensures RemainingBadge(DaysLeft(Some(end), now), status).Some?
    ensures RemainingBadge(DaysLeft(Some(end), now), status).value.tone == Red <==> end - now <= -(DAY_MS as int)
    ensures RemainingBadge(DaysLeft(Some(end), now), status).value.tone == Amber <==> -(DAY_MS as int) < end - now <= 7 * DAY_MS
    ensures RemainingBadge(DaysLeft(Some(end), now), status).value.tone == Grey <==> 7 * DAY_MS < end - now
  {
    var r := DaysLeft(Some(end), now).value;
    DaysLeftSign(end, now);
    if r <= 7 {
      assert DAY_MS * r <= DAY_MS * 7;
    } else {
      assert DAY_MS * (r - 1) >= DAY_MS * 7;
    }
  }

  /** A completed project shows no countdown, whatever its end date. */
  lemma CompletedHasNoBadge(endDate: Option<int>, now: int)
    ensures RemainingBadge(DaysLeft(endDate, now), "COMPLETED").None?
  {
  }

  /** The plain end-date label: shown when there is no countdown but there is an end date. */
  predicate ShowsEndDate(remaining: Option<int>, endDate: Option<int>) {
    remaining.None? && endDate.Some?
  }

  /** That label never appears: the countdown is missing only when the end date is. */
  lemma EndDateLabelUnreachable(endDate: Option<int>, now: int)
    ensures !ShowsEndDate(DaysLeft(endDate, now), endDate)
  {
  }

  /** What the card displays, derived from the project. */
  datatype View = View(
    style: ProjectStatus, totalTasks: nat, doneTasks: nat, progressPct: nat,
    priority: Option<Priority>, badge: Option<Badge>, endDateLabel: bool)

  function Render(project: CardData, now: int): (v: View)
    ensures v.doneTasks == DoneCount(project.tasks) <= v.totalTasks == |project.tasks|
    ensures v.progressPct == ProgressPct(project.tasks) <= 100
    ensures v.priority == TopPriority(project.tasks) && v.style == StatusStyle(project.status)
    ensures v.badge == RemainingBadge(DaysLeft(project.endDate, now), project.status)
    ensures !v.endDateLabel
    ensures v.badge.Some? <==> project.endDate.Some? && project.status != "COMPLETED"
  {
    var remaining := DaysLeft(project.endDate, now);
    ProgressBounds(project.tasks);
    View(StatusStyle(project.status), |project.tasks|, DoneCount(project.tasks), ProgressPct(project.tasks),
         TopPriority(project.tasks), RemainingBadge(remaining, project.status),
         ShowsEndDate(remaining, project.endDate))
  }
}
