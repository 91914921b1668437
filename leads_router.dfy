/**
 * The leads router (src/server/api/routers/leads.ts): public lead capture
 * with a silent 24-hour de-duplication by email, and admin reads with
 * cursor pagination, lookup, deletion and counts.
 *
 * Pagination is modelled on the ordered list of matching leads: a page
 * starts at the cursor's position in that list. A cursor naming no lead
 * of the list yields an empty page.
 */
module LeadsRouter {
  import opened Common
  import opened Trpc
  import opened LeadSchema
  import opened Store
  import Listing

  const DAY_MS: int := 24 * 60 * 60 * 1000

  // ---- create -----------------------------------------------------------

  /** A lead with this email created at or after `now` minus 24 hours. */
  predicate HasRecentLead(leads: map<Id, Lead>, email: string, now: int) {
    exists k | k in leads :: leads[k].email == email && leads[k].createdAt >= now - DAY_MS
  }

  /** The columns `leads.create` selects for its public caller. */
  datatype Receipt = Receipt(id: Id, name: string, email: string, service: Option<string>, createdAt: int)

  function ReceiptOf(l: Lead): Receipt {
    Receipt(l.id, l.name, l.email, l.service, l.createdAt)
  }

  /** The answer of `leads.create`: `lead` is absent when the submission was absorbed. */
  datatype Created = Created(success: bool, lead: Option<Receipt>)

  function NewLead(id: Id, input: LeadInput, now: int): Lead {
    Lead(id, input.name, input.email, input.phone, input.company, input.message, input.service, input.source, now)
  }

  /**
   * `leads.create`: public. A second submission from the same email within
   * 24 hours succeeds in the caller's eyes but stores nothing.
   */
  method Create(db: Db, lib: Lib, raw: LeadRaw, newId: Id, now: int) returns (r: Result<Created>)
    requires db.Valid() && newId !in db.leads && newId != ""
    modifies db
    ensures db.Valid()
    ensures db.users == old(db.users) && db.projects == old(db.projects) && db.tasks == old(db.tasks)
    ensures r.Err? <==> ParseLead(lib, raw).Err?
    ensures r.Err? ==> r.error == ParseLead(lib, raw).error && db.leads == old(db.leads)
    ensures r.Ok? ==> r.value.success
    ensures r.Ok? && HasRecentLead(old(db.leads), ParseLead(lib, raw).value.email, now)
            ==> r.value.lead.None? && db.leads == old(db.leads)
    ensures r.Ok? && !HasRecentLead(old(db.leads), ParseLead(lib, raw).value.email, now)
            ==> r.value.lead == Some(ReceiptOf(NewLead(newId, ParseLead(lib, raw).value, now)))
                && db.leads == old(db.leads)[newId := NewLead(newId, ParseLead(lib, raw).value, now)]
  {
    var input := ParseLead(lib, raw);
    if input.Err? {
      return Err(input.error);
    }
    if HasRecentLead(db.leads, input.value.email, now) {
      return Ok(Created(true, None));
    }
    var lead := NewLead(newId, input.value, now);
    db.leads := db.leads[newId := lead];
    return Ok(Created(true, Some(ReceiptOf(lead))));
  }

  /** After a stored submission, the same email is absorbed for the next 24 hours. */
  lemma SecondSubmissionAbsorbed(leads: map<Id, Lead>, id: Id, input: LeadInput, now: int, later: int)
    requires now <= later <= now + DAY_MS
    ensures HasRecentLead(leads[id := NewLead(id, input, now)], input.email, later)
  {
    var m := leads[id := NewLead(id, input, now)];
    assert id in m && m[id].email == input.email && m[id].createdAt >= later - DAY_MS;
  }

  // ---- getAll -----------------------------------------------------------

  datatype ListQuery = ListQuery(limit: int, cursor: Option<Id>, service: Option<string>, source: Option<string>)

  function ListIssues(lib: Lib, limit: Option<int>, cursor: Option<string>): seq<string> {
    (if limit.Some? && !(1 <= limit.value <= 100) then ["limit"] else [])
    + (if cursor.Some? && !lib.isCuid(cursor.value) then ["cursor"] else [])
  }

  /** The `getAll` input schema: `limit` in 1..100 defaulting to 50, an optional cuid cursor, two free filters. */
  function ParseListQuery(lib: Lib, limit: Option<int>, cursor: Option<string>, service: Option<string>, source: Option<string>)
    : (r: Result<ListQuery>)
    ensures r.Ok? <==> ListIssues(lib, limit, cursor) == []
    ensures r.Err? ==> r == Invalid(ListIssues(lib, limit, cursor))
    ensures r.Ok? ==> 1 <= r.value.limit <= 100 && (limit.None? ==> r.value.limit == 50)
    ensures r.Ok? && limit.Some? ==> r.value.limit == limit.value
    ensures r.Ok? ==> r.value.cursor == cursor && r.value.service == service && r.value.source == source
  {
    var issues := ListIssues(lib, limit, cursor);
    if issues != [] then Invalid(issues)
    else Ok(ListQuery(if limit.Some? then limit.value else 50, cursor, service, source))
  }

  /** A string filter applies only when given and not empty. */
  predicate Given(s: Option<string>) {
    s.Some? && s.value != ""
  }

  /** The `where` clause: service and source equal the given filters. */
  predicate Keep(q: ListQuery, l: Lead) {
    && (Given(q.service) ==> l.service == q.service)
    && (Given(q.source) ==> SourceName(l.source) == q.source.value)
  }

  /** The leads have distinct, non-empty ids, as stored leads do. */
  predicate DistinctIds(L: seq<Lead>) {
    && (forall i, j | 0 <= i < j < |L| :: IdAt(L, i) != IdAt(L, j))
    && (forall i | 0 <= i < |L| :: L[i].id != "")
  }

  function IdAt(L: seq<Lead>, i: nat): Id
    requires i < |L|
  {
    L[i].id
  }

  /** `L` is the matching leads of the table, newest first, each once. */
  predicate IsLeadList(leads: map<Id, Lead>, q: ListQuery, L: seq<Lead>) {
    && DistinctIds(L)
    && (forall l | l in L :: l in leads.Values && Keep(q, l))
    && (forall l | l in leads.Values && Keep(q, l) :: l in L)
    && (forall i, j | 0 <= i < j < |L| :: L[i].createdAt >= L[j].createdAt)
  }

  predicate StrictlyNewestFirst(S: seq<Lead>) {
    forall i, j | 0 <= i < j < |S| :: S[i].createdAt > S[j].createdAt
  }

  /** In a strictly newest-first list the head is newer than every other lead, and the tail is the rest. */
  lemma {:induction false} HeadIsNewest(S: seq<Lead>)
    requires S != [] && StrictlyNewestFirst(S)
    ensures forall x | x in S :: x == S[0] || x.createdAt < S[0].createdAt
    ensures forall x :: x in S[1..] <==> x in S && x != S[0]
  {
    forall x | x in S ensures x == S[0] || x.createdAt < S[0].createdAt {
      var i :| 0 <= i < |S| && S[i] == x;
    }
    forall x ensures x in S[1..] <==> x in S && x != S[0] {
      if x in S[1..] {
        var i :| 0 <= i < |S| - 1 && S[1..][i] == x;
        assert S[i + 1] == x;
      }
      if x in S && x != S[0] {
        var i :| 0 <= i < |S| && S[i] == x;
        assert S[1..][i - 1] == x;
      }
    }
  }

  lemma TailNewestFirst(S: seq<Lead>)
    requires S != [] && StrictlyNewestFirst(S)
    ensures StrictlyNewestFirst(S[1..])
  {
    forall i, j | 0 <= i < j < |S| - 1 ensures S[1..][i].createdAt > S[1..][j].createdAt {
      assert S[1..][i] == S[i + 1] && S[1..][j] == S[j + 1];
    }
  }

  lemma EmptyTogether(A: seq<Lead>, B: seq<Lead>)
    requires forall x :: x in A <==> x in B
    ensures A == [] <==> B == []
  {
    if A != [] {
      assert A[0] in B;
    }
    if B != [] {
      assert B[0] in A;
    }
  }

  /** Two lists with the same leads, both strictly newest first, are the same list. */
  lemma {:induction false} StrictlySortedUnique(A: seq<Lead>, B: seq<Lead>)
    requires forall x :: x in A <==> x in B
    requires StrictlyNewestFirst(A) && StrictlyNewestFirst(B)
    ensures A == B
    decreases |A|
  {
    EmptyTogether(A, B);
    if A != [] {
      HeadIsNewest(A);
      HeadIsNewest(B);
      assert A[0] in B && B[0] in A;
      assert A[0] == B[0];
      TailNewestFirst(A);
      TailNewestFirst(B);
      StrictlySortedUnique(A[1..], B[1..]);
      assert A == [A[0]] + A[1..];
      assert B == [B[0]] + B[1..];
    }
  }

  /**
   * When no two leads of the table were created at the same instant, the
   * listing is determined: there is exactly one newest-first order. With
   * equal creation times the database may list them either way, and so
   * may the model.
   */
  lemma {:induction false} LeadListUnique(leads: map<Id, Lead>, q: ListQuery, A: seq<Lead>, B: seq<Lead>)
    requires forall a, b | a in leads.Values && b in leads.Values && a != b :: a.createdAt != b.createdAt
    requires IsLeadList(leads, q, A) && IsLeadList(leads, q, B)
    ensures A == B
  {
    StrictWhenDistinct(leads, q, A);
    StrictWhenDistinct(leads, q, B);
    StrictlySortedUnique(A, B);
  }

  /** Distinct leads with distinct creation times leave no tie in a listing. */
  lemma {:induction false} StrictWhenDistinct(leads: map<Id, Lead>, q: ListQuery, L: seq<Lead>)
    requires forall a, b | a in leads.Values && b in leads.Values && a != b :: a.createdAt != b.createdAt
    requires IsLeadList(leads, q, L)
    ensures StrictlyNewestFirst(L)
  {
    forall i, j | 0 <= i < j < |L| ensures L[i].createdAt > L[j].createdAt {
      assert IdAt(L, i) != IdAt(L, j);
      assert L[i] in L && L[j] in L;
    }
  }

  datatype PageResult = PageResult(leads: seq<Lead>, nextCursor: Option<Id>)

  function Min(a: int, b: int): int { if a <= b then a else b }

  /**
   * One page from position `start`: read `limit + 1` rows, and when the
   * extra row is there, drop it and hand out its id as the next cursor.
   */
  function PageAt(L: seq<Lead>, start: nat, limit: nat): (p: PageResult)
    requires 1 <= limit && start <= |L|
    ensures p.leads == L[start..Min(start + limit, |L|)]
    ensures p.nextCursor.Some? <==> |L| - start > limit
    ensures p.nextCursor.Some? ==> p.nextCursor.value == L[start + limit].id
  {
    var rows := L[start..Min(start + limit + 1, |L|)];
    if |rows| > limit then PageResult(rows[..limit], Some(rows[limit].id))
    else PageResult(rows, None)
  }

  /** The position of the first lead with this id. */
  function IndexOfId(L: seq<Lead>, id: Id): (r: Option<nat>)
    ensures r.Some? ==> r.value < |L| && L[r.value].id == id && forall i | 0 <= i < r.value :: IdAt(L, i) != id
    ensures r.None? ==> forall i | 0 <= i < |L| :: IdAt(L, i) != id
  {
    IndexFrom(L, id, 0)
  }

  /** The position of the first lead with this id at or after `k`. */
  function IndexFrom(L: seq<Lead>, id: Id, k: nat): (r: Option<nat>)
    requires k <= |L|
    ensures r.Some? ==> k <= r.value < |L| && L[r.value].id == id && forall i | k <= i < r.value :: IdAt(L, i) != id
    ensures r.None? ==> forall i | k <= i < |L| :: IdAt(L, i) != id
    decreases |L| - k
  {
    if k == |L| then None
    else if L[k].id == id then Some(k)
    else IndexFrom(L, id, k + 1)
  }

  /** `findMany({ take: limit + 1, cursor })` followed by the pop. */
  function Page(L: seq<Lead>, cursor: Option<Id>, limit: nat): (p: PageResult)
    requires 1 <= limit
    ensures |p.leads| <= limit
    ensures p.nextCursor.Some? ==> |p.leads| == limit
    ensures forall x | x in p.leads :: x in L
  {
    if !Given(cursor) then PageAt(L, 0, limit)
    else match IndexOfId(L, cursor.value)
      case None => PageResult([], None)
      case Some(i) => PageAt(L, i, limit)
  }

  lemma {:induction false} IndexOfDistinct(L: seq<Lead>, i: nat)
    requires DistinctIds(L) && i < |L|
    ensures IndexOfId(L, L[i].id) == Some(i)
  {
    assert IdAt(L, i) == L[i].id;
    var j := IndexOfId(L, L[i].id).value;
    assert IdAt(L, j) == IdAt(L, i);
  }

  /** The next cursor a page hands out brings the following page. */
  lemma {:induction false} CursorResumes(L: seq<Lead>, i: nat, limit: nat)
    requires 1 <= limit && i <= |L| && DistinctIds(L)
    requires PageAt(L, i, limit).nextCursor.Some?
    ensures Page(L, PageAt(L, i, limit).nextCursor, limit) == PageAt(L, i + limit, limit)
  {
    IndexOfDistinct(L, i + limit);
  }

  /** Where the page of a cursor starts; past the end for a cursor that is not in the list. */
  function StartOf(L: seq<Lead>, cursor: Option<Id>): nat {
    if !Given(cursor) then 0
    else match IndexOfId(L, cursor.value)
      case None => |L|
      case Some(i) => i
  }

  /** The leads a client gets by asking for the page of `cursor` and then following `nextCursor` to the end. */
  function Walk(L: seq<Lead>, cursor: Option<Id>, limit: nat): seq<Lead>
    requires 1 <= limit && DistinctIds(L)
    decreases |L| - StartOf(L, cursor)
  {
    var p := Page(L, cursor, limit);
    if p.nextCursor.None? then p.leads
    else
      NextStartsLater(L, cursor, limit);
      p.leads + Walk(L, p.nextCursor, limit)
  }

  /** A next cursor resumes `limit` positions further on, so a walk ends. */
  lemma {:induction false} NextStartsLater(L: seq<Lead>, cursor: Option<Id>, limit: nat)
    requires 1 <= limit && DistinctIds(L) && Page(L, cursor, limit).nextCursor.Some?
    ensures StartOf(L, cursor) < StartOf(L, Page(L, cursor, limit).nextCursor) <= |L|
  {
    var i := StartOf(L, cursor);
    assert i < |L| && Page(L, cursor, limit) == PageAt(L, i, limit);
    IndexOfDistinct(L, i + limit);
    assert StartOf(L, Page(L, cursor, limit).nextCursor) == i + limit;
  }

  /** The cursor a client sends to resume at position `i`: none for the first page. */
  function CursorAt(L: seq<Lead>, i: nat): Option<Id>
    requires i == 0 || i < |L|
  {
    if i == 0 then None else Some(L[i].id)
  }

  /** One step of the walk: the page at `i`, then the walk from its next cursor. */
  lemma {:induction false} WalkStep(L: seq<Lead>, i: nat, limit: nat)
    requires 1 <= limit && DistinctIds(L) && (i == 0 || i < |L|)
    ensures |L| - i <= limit ==> Walk(L, CursorAt(L, i), limit) == L[i..]
    ensures |L| - i > limit ==> Walk(L, CursorAt(L, i), limit) == L[i..i + limit] + Walk(L, CursorAt(L, i + limit), limit)
  {
    if i > 0 {
      IndexOfDistinct(L, i);
    }
    assert Page(L, CursorAt(L, i), limit) == PageAt(L, i, limit);
  }

  /** A slice followed by the rest of the sequence is the whole suffix. */
  lemma Rejoin<T>(w: seq<T>, rest: seq<T>, s: seq<T>, i: nat, j: nat)
    requires i <= j <= |s| && w == s[i..j] + rest && rest == s[j..]
    ensures w == s[i..]
  {
  }

  /** A walk that finishes from the next page finishes from this one. */
  lemma {:induction false} WalkCompose(L: seq<Lead>, i: nat, limit: nat)
    requires 1 <= limit && DistinctIds(L) && (i == 0 || i < |L|) && |L| - i > limit
    requires Walk(L, CursorAt(L, i + limit), limit) == L[i + limit..]
    ensures Walk(L, CursorAt(L, i), limit) == L[i..]
  {
    WalkStep(L, i, limit);
    Rejoin(Walk(L, CursorAt(L, i), limit), Walk(L, CursorAt(L, i + limit), limit), L, i, i + limit);
  }

  lemma {:induction false} WalkFrom(L: seq<Lead>, i: nat, limit: nat)
    requires 1 <= limit && DistinctIds(L) && (i == 0 || i < |L|)
    ensures Walk(L, CursorAt(L, i), limit) == L[i..]
    decreases |L| - i
  {
    if |L| - i > limit {
      WalkFrom(L, i + limit, limit);
      WalkCompose(L, i, limit);
    } else {
      WalkStep(L, i, limit);
    }
  }

  /** Paging from the first page and following every `nextCursor` returns the whole list, in order, each lead once. */
  lemma WalkReturnsAll(L: seq<Lead>, limit: nat)
    requires 1 <= limit && DistinctIds(L)
    ensures Walk(L, None, limit) == L
  {
    WalkFrom(L, 0, limit);
  }

  /** `leads.getAll`. */
  method GetAll(db: Db, lib: Lib, ctx: Ctx, limit: Option<int>, cursor: Option<string>, service: Option<string>, source: Option<string>)
    returns (r: Result<PageResult>)
    requires db.Valid()
    ensures !HasAdminRole(ctx) ==> r == Fail(FORBIDDEN)
    ensures HasAdminRole(ctx) && ListIssues(lib, limit, cursor) != [] ==> r == Invalid(ListIssues(lib, limit, cursor))
    ensures r.Ok? <==> HasAdminRole(ctx) && ListIssues(lib, limit, cursor) == []
    ensures r.Ok? ==> var q := ParseListQuery(lib, limit, cursor, service, source).value;
                      exists L :: IsLeadList(db.leads, q, L) && r.value == Page(L, q.cursor, q.limit)
  {
    var g := AdminGate(ctx);
    if g.Err? {
      return Err(g.error);
    }
    var input := ParseListQuery(lib, limit, cursor, service, source);
    if input.Err? {
      return Err(input.error);
    }
    var q := input.value;
    var L := Listing.SelectRows(db.leads, (l: Lead) => l.id, (l: Lead) => Keep(q, l), (l: Lead) => l.createdAt);
    forall i | 0 <= i < |L| ensures L[i].id in db.leads && db.leads[L[i].id] == L[i] {
      assert L[i] in db.leads.Values;
      var k :| k in db.leads && db.leads[k] == L[i];
    }
    assert IsLeadList(db.leads, q, L);
    return Ok(Page(L, q.cursor, q.limit));
  }

  // ---- getById, delete ------------------------------------------------

  /** `leads.getById`. */
  function GetById(leads: map<Id, Lead>, lib: Lib, ctx: Ctx, id: Option<string>): (r: Result<Lead>)
    ensures !HasAdminRole(ctx) ==> r == Fail(FORBIDDEN)
    ensures HasAdminRole(ctx) && !(id.Some? && lib.isCuid(id.value)) ==> r == Invalid(["id"])
    ensures r.Ok? <==> HasAdminRole(ctx) && id.Some? && lib.isCuid(id.value) && id.value in leads
    ensures r.Ok? ==> r.value == leads[id.value]
    ensures HasAdminRole(ctx) && id.Some? && lib.isCuid(id.value) && id.value !in leads ==> r == Fail(NOT_FOUND)
  {
    if !HasAdminRole(ctx) then Fail(FORBIDDEN)
    else if !(id.Some? && lib.isCuid(id.value)) then Invalid(["id"])
    else if id.value !in leads then Fail(NOT_FOUND)
    else Ok(leads[id.value])
  }

  /** `leads.delete`: no existence check, so an unknown id surfaces as the database's own error. */
  method Delete(db: Db, lib: Lib, ctx: Ctx, id: Option<string>) returns (r: Result<bool>)
    requires db.Valid()
    modifies db
    ensures db.Valid()
    ensures db.users == old(db.users) && db.projects == old(db.projects) && db.tasks == old(db.tasks)
    ensures !HasAdminRole(ctx) ==> r == Fail(FORBIDDEN)
    ensures HasAdminRole(ctx) && !(id.Some? && lib.isCuid(id.value)) ==> r == Invalid(["id"])
    ensures HasAdminRole(ctx) && id.Some? && lib.isCuid(id.value) && id.value !in old(db.leads) ==> r == DbError()
    ensures r.Ok? <==> HasAdminRole(ctx) && id.Some? && lib.isCuid(id.value) && id.value in old(db.leads)
    ensures r.Ok? ==> r.value && db.leads == old(db.leads) - {id.value}
    ensures r.Err? ==> db.leads == old(db.leads)
  {
    if !HasAdminRole(ctx) {
      return Fail(FORBIDDEN);
    }
    if !(id.Some? && lib.isCuid(id.value)) {
      return Invalid(["id"]);
    }
    if id.value !in db.leads {
      return DbError();
    }
    db.leads := db.leads - {id.value};
    return Ok(true);
  }

  // ---- getStats ---------------------------------------------------------

  datatype LeadStats = LeadStats(
    total: nat, byService: map<Option<string>, nat>, bySource: map<LeadSource, nat>, recentWeek: nat)

  function WithSource(leads: map<Id, Lead>, s: LeadSource): set<Id> {
    set k | k in leads && leads[k].source == s
  }

  /**
   * `groupBy(["service"])` with `_count: { service: true }`: one group per
   * service value present, counting the non-null services of the group, so
   * the group of leads without a service always reports 0.
   */
  function ServiceGroups(leads: map<Id, Lead>): (g: map<Option<string>, nat>)
    ensures forall s :: s in g <==> exists k | k in leads :: leads[k].service == s
    ensures None in g ==> g[None] == 0
    ensures forall s | s in g && s.Some? :: g[s] == |set k | k in leads && leads[k].service == s|
  {
    map s | s in (set k | k in leads :: leads[k].service) ::
      if s.None? then 0 else |set k | k in leads && leads[k].service == s|
  }

  /** `groupBy(["source"])` with `_count: { source: true }`: one group per source present. */
  function SourceGroups(leads: map<Id, Lead>): (g: map<LeadSource, nat>)
    ensures forall s :: s in g <==> exists k | k in leads :: leads[k].source == s
    ensures forall s | s in g :: g[s] == |WithSource(leads, s)| && g[s] > 0
  {
    assert forall s | s in (set k | k in leads :: leads[k].source) :: |WithSource(leads, s)| > 0 by {
      forall s | s in (set k | k in leads :: leads[k].source) ensures |WithSource(leads, s)| > 0 {
        var k :| k in leads && leads[k].source == s;
        assert k in WithSource(leads, s);
      }
    }
    map s | s in (set k | k in leads :: leads[k].source) :: |WithSource(leads, s)|
  }

  function CountOr0(g: map<LeadSource, nat>, s: LeadSource): nat {
    if s in g then g[s] else 0
  }

  /** A source without a group counts as no lead. */
  lemma {:induction false} GroupCount(leads: map<Id, Lead>, s: LeadSource)
    ensures CountOr0(SourceGroups(leads), s) == |WithSource(leads, s)|
  {
    if s !in SourceGroups(leads) {
      if k :| k in leads && leads[k].source == s {
        assert false;
      }
      assert WithSource(leads, s) == {};
    }
  }

  /** Every lead has one of the three sources, so the source groups add up to the total. */
  lemma {:induction false} SourceGroupsPartition(leads: map<Id, Lead>)
    ensures var g := SourceGroups(leads);
            CountOr0(g, Chatbot) + CountOr0(g, ContactForm) + CountOr0(g, Landing) == |leads|
  {
    var a, b, c := WithSource(leads, Chatbot), WithSource(leads, ContactForm), WithSource(leads, Landing);
    GroupCount(leads, Chatbot);
    GroupCount(leads, ContactForm);
    GroupCount(leads, Landing);
    forall k | k in leads.Keys ensures k in a + b + c {
      match leads[k].source
      case Chatbot => assert k in a;
      case ContactForm => assert k in b;
      case Landing => assert k in c;
    }
    assert leads.Keys == a + b + c;
    Listing.DisjointThree(a, b, c);
  }

  /** `leads.getStats`. */
  function GetStats(leads: map<Id, Lead>, ctx: Ctx, now: int): (r: Result<LeadStats>)
    ensures r.Err? <==> !HasAdminRole(ctx)
    ensures r.Err? ==> r == Fail(FORBIDDEN)
    ensures r.Ok? ==> r.value.total == |leads|
    ensures r.Ok? ==> r.value.byService == ServiceGroups(leads) && r.value.bySource == SourceGroups(leads)
    ensures r.Ok? ==> r.value.recentWeek == |set k | k in leads && leads[k].createdAt >= now - 7 * DAY_MS|
    ensures r.Ok? ==> r.value.recentWeek <= r.value.total
  {
    if !HasAdminRole(ctx) then Fail(FORBIDDEN)
    else
      var recent := set k | k in leads && leads[k].createdAt >= now - 7 * DAY_MS;
      Listing.SubsetCard(recent, leads.Keys);
      Ok(LeadStats(|leads|, ServiceGroups(leads), SourceGroups(leads), |recent|))
  }
}
