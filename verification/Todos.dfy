/** Release todos: acknowledge, resolve and reopen, their cascades, and the latest-per-source view. */
module Todos {
  import opened Common

  type TodoId = nat
  type RowId = nat

  datatype Status = Pending | Acknowledged | Resolved

  /** The CHECK constraint: a todo refers to a release or to a semantic release, never both. */
  datatype Ref = OfRelease(release: RowId) | OfSemantic(semantic: RowId)

  datatype Todo = Todo(ref: Ref, status: Status, createdAt: int, acknowledgedAt: Option<int>, resolvedAt: Option<int>)

  datatype Release = Release(source: string, releasedAt: Option<int>, createdAt: int)

  datatype Semantic = Semantic(project: string, createdAt: int)

  datatype Db = Db(todos: map<TodoId, Todo>, releases: map<RowId, Release>, semantics: map<RowId, Semantic>)

  predicate RefExists(db: Db, r: Ref) {
    match r case OfRelease(x) => x in db.releases case OfSemantic(x) => x in db.semantics
  }

  /** Foreign keys hold and, by the partial unique indexes, no two todos share a reference. */
  ghost predicate Valid(db: Db) {
    && (forall x :: x in db.todos ==> RefExists(db, db.todos[x].ref))
    && (forall x, y :: x in db.todos && y in db.todos && x != y ==> db.todos[x].ref != db.todos[y].ref)
  }

  datatype Group = SourceGroup(source: string) | ProjectGroup(project: string)

  function GroupOf(db: Db, x: TodoId): Group
    requires x in db.todos && RefExists(db, db.todos[x].ref)
  {
    match db.todos[x].ref
    case OfRelease(r) => SourceGroup(db.releases[r].source)
    case OfSemantic(r) => ProjectGroup(db.semantics[r].project)
  }

  /** The date the cascades compare. */
  function Date(db: Db, x: TodoId): int
    requires x in db.todos && RefExists(db, db.todos[x].ref)
  {
    match db.todos[x].ref
    case OfRelease(r) =>
      if db.releases[r].releasedAt.Some? then db.releases[r].releasedAt.value else db.releases[r].createdAt
    case OfSemantic(r) => db.semantics[r].createdAt
  }

  datatype Level = Ack | Resolve

  function Target(l: Level): Status { if l == Ack then Acknowledged else Resolved }

  predicate Eligible(l: Level, s: Status) { s == Pending || (l == Resolve && s == Acknowledged) }

  function Raise(t: Todo, l: Level, now: int): Todo {
    if l == Ack then t.(status := Acknowledged, acknowledgedAt := Some(now))
    else t.(status := Resolved, resolvedAt := Some(now))
  }

  /** x lies in the reach of a cascade from `target`: same source or project, dated no later. */
  predicate Reached(db: Db, target: TodoId, x: TodoId) {
    && target in db.todos && x in db.todos
    && RefExists(db, db.todos[target].ref) && RefExists(db, db.todos[x].ref)
    && GroupOf(db, x) == GroupOf(db, target) && Date(db, x) <= Date(db, target)
  }

  /** In the columns of the tables: two todos of releases with the same source_id, x with a date
      COALESCE(released_at, created_at) no later than the target's; or two todos of semantic releases with the
      same project_id, x with a created_at no later. */
  ghost predicate NoLater(db: Db, target: TodoId, x: TodoId)
    requires target in db.todos && x in db.todos
             && RefExists(db, db.todos[target].ref) && RefExists(db, db.todos[x].ref)
  {
    match db.todos[target].ref
    case OfRelease(a) =>
      db.todos[x].ref.OfRelease? &&
      var r1, r2 := db.releases[a], db.releases[db.todos[x].ref.release];
      && r2.source == r1.source
      && (if r2.releasedAt.Some? then r2.releasedAt.value else r2.createdAt)
         <= (if r1.releasedAt.Some? then r1.releasedAt.value else r1.createdAt)
    case OfSemantic(a) =>
      db.todos[x].ref.OfSemantic? &&
      var s1, s2 := db.semantics[a], db.semantics[db.todos[x].ref.semantic];
      s2.project == s1.project && s2.createdAt <= s1.createdAt
  }

  lemma ReachedIff(db: Db, target: TodoId, x: TodoId)
    requires target in db.todos && x in db.todos
             && RefExists(db, db.todos[target].ref) && RefExists(db, db.todos[x].ref)
    ensures Reached(db, target, x) <==> NoLater(db, target, x)
  {
  }

  /** The first statement: the target alone, whatever its status. */
  function SetOne(db: Db, id: TodoId, l: Level, now: int): Db
    requires id in db.todos
  {
    db.(todos := db.todos[id := Raise(db.todos[id], l, now)])
  }

  /** The second statement: the eligible todos of other releases in reach. */
  function Cascade(db: Db, id: TodoId, l: Level, now: int): Db
    requires id in db.todos
  {
    db.(todos := map x | x in db.todos ::
      if x != id && Eligible(l, db.todos[x].status) && Reached(db, id, x) && db.todos[x].ref != db.todos[id].ref
      then Raise(db.todos[x], l, now) else db.todos[x])
  }

  function Cascaded(db: Db, id: TodoId, l: Level, now: int, later: int): Db
    requires id in db.todos
  {
    Cascade(SetOne(db, id, l, now), id, l, later)
  }

  // ---- what a cascade does ---------------------------------------------------------------------

  /** No todo in reach of the target is left below the level. */
  ghost predicate OrderClosed(db: Db, id: TodoId, l: Level) {
    forall x :: Reached(db, id, x) ==> !Eligible(l, db.todos[x].status)
  }

  lemma ReachKept(db: Db, db': Db, id: TodoId)
    requires db'.releases == db.releases && db'.semantics == db.semantics && db'.todos.Keys == db.todos.Keys
    requires forall x :: x in db.todos ==> db'.todos[x].ref == db.todos[x].ref
    ensures forall x :: Reached(db', id, x) <==> Reached(db, id, x)
  {
  }

  /** The row of todo x after its status was raised. */
  ghost predicate RaisedRow(t: Todo, t': Todo, l: Level, now: int) {
    && t'.ref == t.ref && t'.createdAt == t.createdAt
    && (l == Ack ==> t'.status == Acknowledged && t'.acknowledgedAt == Some(now) && t'.resolvedAt == t.resolvedAt)
    && (l == Resolve ==> t'.status == Resolved && t'.resolvedAt == Some(now) && t'.acknowledgedAt == t.acknowledgedAt)
  }

  /** The rows other than the target: if the cascade ran, every todo that is pending (or acknowledged, when
      resolving) and no later than the target is raised; nothing else changes. */
  ghost predicate OthersRaised(db: Db, after: map<TodoId, Todo>, id: TodoId, l: Level, cascaded: bool, now: int)
    requires Valid(db) && id in db.todos
  {
    after.Keys == db.todos.Keys && forall x :: x in db.todos && x != id ==>
      var t := db.todos[x];
      if cascaded && (t.status == Pending || (l == Resolve && t.status == Acknowledged)) && NoLater(db, id, x)
      then RaisedRow(t, after[x], l, now) else after[x] == t
  }

  /** A whole cascade in columns. */
  lemma CascadeInColumns(db: Db, id: TodoId, l: Level, now: int, later: int)
    requires Valid(db) && id in db.todos
    ensures var after := Cascaded(db, id, l, now, later).todos;
      OthersRaised(db, after, id, l, true, later) && RaisedRow(db.todos[id], after[id], l, now)
  {
    CascadeRows(db, id, l, now, later);
    forall x | x in db.todos ensures Reached(db, id, x) <==> NoLater(db, id, x) { ReachedIff(db, id, x); }
  }

  lemma StatementsInColumns(db: Db, id: TodoId, l: Level, now: int)
    requires Valid(db) && id in db.todos
    ensures OthersRaised(db, Cascade(db, id, l, now).todos, id, l, true, now)
    ensures Cascade(db, id, l, now).todos[id] == db.todos[id]
    ensures OthersRaised(db, SetOne(db, id, l, now).todos, id, l, false, now)
    ensures RaisedRow(db.todos[id], SetOne(db, id, l, now).todos[id], l, now)
  {
    forall x | x in db.todos ensures Reached(db, id, x) <==> NoLater(db, id, x) { ReachedIff(db, id, x); }
  }

  /** A cascade is order-closed, and touches nothing but the target and the eligible todos in reach:
      newer todos, other sources and todos further advanced are exactly as they were. */
  lemma CascadeIsExact(db: Db, id: TodoId, l: Level, now: int, later: int)
    requires Valid(db) && id in db.todos
    ensures var db' := Cascaded(db, id, l, now, later);
      && Valid(db') && OrderClosed(db', id, l)
      && db'.releases == db.releases && db'.semantics == db.semantics && db'.todos.Keys == db.todos.Keys
      && db'.todos[id] == Raise(db.todos[id], l, now)
      && (forall x :: x in db.todos && x != id ==>
            db'.todos[x] == if Eligible(l, db.todos[x].status) && Reached(db, id, x) then Raise(db.todos[x], l, later)
                            else db.todos[x])
  {
    var db' := Cascaded(db, id, l, now, later);
    CascadeRows(db, id, l, now, later);
    ReachKept(db, db', id);
    forall x | Reached(db', id, x) ensures !Eligible(l, db'.todos[x].status) { assert Reached(db, id, x); }
    assert forall x :: x in db.todos ==> db'.todos[x].ref == db.todos[x].ref;
  }

  lemma CascadeRows(db: Db, id: TodoId, l: Level, now: int, later: int)
    requires Valid(db) && id in db.todos
    ensures var db' := Cascaded(db, id, l, now, later);
      && db'.releases == db.releases && db'.semantics == db.semantics && db'.todos.Keys == db.todos.Keys
      && db'.todos[id] == Raise(db.todos[id], l, now)
      && (forall x :: x in db.todos && x != id ==>
            db'.todos[x] == if Eligible(l, db.todos[x].status) && Reached(db, id, x) then Raise(db.todos[x], l, later)
                            else db.todos[x])
  {
    ReachKept(db, SetOne(db, id, l, now), id);
  }

  /** The error of the second statement is dropped. Without it the result is order-closed exactly when
      no other todo in reach was eligible. */
  lemma ClosedWithoutCascadeIff(db: Db, id: TodoId, l: Level, now: int)
    requires Valid(db) && id in db.todos
    ensures OrderClosed(SetOne(db, id, l, now), id, l)
            <==> forall x :: x != id && Reached(db, id, x) ==> !Eligible(l, db.todos[x].status)
  {
    var db1 := SetOne(db, id, l, now);
    ReachKept(db, db1, id);
    assert forall x :: x in db.todos && x != id ==> db1.todos[x] == db.todos[x];
  }

  ghost predicate SameStatuses(a: Db, b: Db) {
    a.todos.Keys == b.todos.Keys && forall x :: x in a.todos ==> a.todos[x].status == b.todos[x].status
  }

  /** The status of x after a cascade. */
  function StatusAfter(db: Db, id: TodoId, l: Level, x: TodoId): Status
    requires x in db.todos
  {
    if x == id || (Eligible(l, db.todos[x].status) && Reached(db, id, x)) then Target(l) else db.todos[x].status
  }

  lemma StatusesAfter(db: Db, id: TodoId, l: Level, now: int, later: int)
    requires Valid(db) && id in db.todos
    ensures var db' := Cascaded(db, id, l, now, later);
      && Valid(db') && db'.todos.Keys == db.todos.Keys
      && (forall x :: x in db.todos ==> db'.todos[x].status == StatusAfter(db, id, l, x))
      && (forall y, x :: Reached(db', y, x) <==> Reached(db, y, x))
  {
    CascadeIsExact(db, id, l, now, later);
    var db' := Cascaded(db, id, l, now, later);
    forall y, x ensures Reached(db', y, x) <==> Reached(db, y, x) { ReachKept(db, db', y); }
  }

  /** The status of x after a cascade from a and then one from b. */
  function StatusAfterBoth(db: Db, a: TodoId, la: Level, b: TodoId, lb: Level, x: TodoId): Status
    requires x in db.todos
  {
    var s := StatusAfter(db, a, la, x);
    if x == b || (Eligible(lb, s) && Reached(db, b, x)) then Target(lb) else s
  }

  lemma StatusesAfterBoth(db: Db, a: TodoId, la: Level, b: TodoId, lb: Level, t1: int, t2: int, t3: int, t4: int)
    requires Valid(db) && a in db.todos && b in db.todos
    ensures var db1 := Cascaded(db, a, la, t1, t2);
      && b in db1.todos && Cascaded(db1, b, lb, t3, t4).todos.Keys == db.todos.Keys
      && (forall x :: x in db.todos ==>
            Cascaded(db1, b, lb, t3, t4).todos[x].status == StatusAfterBoth(db, a, la, b, lb, x))
  {
    var db1 := Cascaded(db, a, la, t1, t2);
    StatusesAfter(db, a, la, t1, t2);
    StatusesAfter(db1, b, lb, t3, t4);
  }

  lemma MixedStatuses(db: Db, a: TodoId, b: TodoId, x: TodoId)
    requires x in db.todos && a in db.todos && b in db.todos && Reached(db, b, b)
    ensures !Reached(db, b, a) ==>
              StatusAfterBoth(db, a, Ack, b, Resolve, x) == StatusAfterBoth(db, b, Resolve, a, Ack, x)
    ensures Reached(db, b, a) ==> StatusAfterBoth(db, a, Ack, b, Resolve, a) == Resolved
                                  && StatusAfterBoth(db, b, Resolve, a, Ack, a) == Acknowledged
  {
  }

  /** `two` is where a cascade from b leads after a cascade from a. */
  ghost predicate Leads(db: Db, a: TodoId, la: Level, b: TodoId, lb: Level, two: Db) {
    && two.todos.Keys == db.todos.Keys
    && (forall x :: x in db.todos ==> two.todos[x].status == StatusAfterBoth(db, a, la, b, lb, x))
  }

  lemma LeadsTo(db: Db, a: TodoId, la: Level, b: TodoId, lb: Level, t1: int, t2: int, t3: int, t4: int)
    returns (two: Db)
    requires Valid(db) && a in db.todos && b in db.todos
    ensures b in Cascaded(db, a, la, t1, t2).todos && two == Cascaded(Cascaded(db, a, la, t1, t2), b, lb, t3, t4)
    ensures Leads(db, a, la, b, lb, two)
  {
    StatusesAfterBoth(db, a, la, b, lb, t1, t2, t3, t4);
    two := Cascaded(Cascaded(db, a, la, t1, t2), b, lb, t3, t4);
  }

  lemma MixedLeads(db: Db, a: TodoId, b: TodoId, ab: Db, ba: Db)
    requires Valid(db) && a in db.todos && b in db.todos
    requires Leads(db, a, Ack, b, Resolve, ab) && Leads(db, b, Resolve, a, Ack, ba)
    ensures SameStatuses(ab, ba) <==> !Reached(db, b, a)
  {
    assert Reached(db, b, b);
    MixedStatuses(db, a, b, a);
    if !Reached(db, b, a) {
      forall x | x in db.todos ensures ab.todos[x].status == ba.todos[x].status { MixedStatuses(db, a, b, x); }
    }
  }

  // ---- interleaved cascades of one level -------------------------------------------------------

  /** The two statements of a cascade: the target alone, and the eligible todos in its reach. */
  datatype Stmt = One(id: TodoId) | Older(id: TodoId)

  function Exec(db: Db, st: Stmt, l: Level, now: int): Db {
    if st.id !in db.todos then db
    else match st case One(x) => SetOne(db, x, l, now) case Older(x) => Cascade(db, x, l, now)
  }

  /** Statements one after the other, each at its own time. */
  function ExecAll(db: Db, sts: seq<Stmt>, times: seq<int>, l: Level): Db
    requires |sts| == |times|
  {
    if sts == [] then db
    else
      var n := |sts| - 1;
      Exec(ExecAll(db, sts[..n], times[..n], l), sts[n], l, times[n])
  }

  /** Some statement raises x. */
  ghost predicate Hit(db: Db, sts: seq<Stmt>, l: Level, x: TodoId)
    requires x in db.todos
  {
    One(x) in sts || (Eligible(l, db.todos[x].status) && exists y :: Older(y) in sts && y != x && Reached(db, y, x))
  }

  /** Nothing but statuses and timestamps changes. */
  ghost predicate SameShape(db: Db, db': Db) {
    && db'.releases == db.releases && db'.semantics == db.semantics && db'.todos.Keys == db.todos.Keys
    && (forall x :: x in db.todos ==> db'.todos[x].ref == db.todos[x].ref)
  }

  lemma ExecStep(db: Db, db1: Db, st: Stmt, l: Level, now: int, x: TodoId)
    requires Valid(db) && SameShape(db, db1) && x in db.todos
    ensures SameShape(db, Exec(db1, st, l, now))
    ensures var s, s' := db1.todos[x].status, Exec(db1, st, l, now).todos[x].status;
      s' == if st == One(x) || (st.Older? && st.id != x && Eligible(l, s) && Reached(db, st.id, x)) then Target(l)
            else s
  {
    ReachKept(db, db1, st.id);
  }

  lemma HitAppend(db: Db, sts: seq<Stmt>, st: Stmt, l: Level, x: TodoId)
    requires x in db.todos
    ensures Hit(db, sts + [st], l, x)
            <==> Hit(db, sts, l, x) || st == One(x)
                 || (st.Older? && st.id != x && Eligible(l, db.todos[x].status) && Reached(db, st.id, x))
  {
    assert forall y: Stmt :: y in sts + [st] <==> y in sts || y == st;
  }

  /** A todo ends raised exactly if some statement raises it, in whatever order they come. */
  lemma {:induction false} StatusAfterAll(db: Db, sts: seq<Stmt>, times: seq<int>, l: Level, x: TodoId)
    requires Valid(db) && |sts| == |times| && x in db.todos
    ensures var db' := ExecAll(db, sts, times, l);
      SameShape(db, db') && db'.todos[x].status == if Hit(db, sts, l, x) then Target(l) else db.todos[x].status
    decreases |sts|
  {
    if sts != [] {
      var n := |sts| - 1;
      StatusAfterAll(db, sts[..n], times[..n], l, x);
      ExecStep(db, ExecAll(db, sts[..n], times[..n], l), sts[n], l, times[n], x);
      assert sts == sts[..n] + [sts[n]];
      HitAppend(db, sts[..n], sts[n], l, x);
    }
  }

  /** Any number of cascading acknowledges, or of cascading resolves, with their statements interleaved in
      any way and at any times: the statuses depend on nothing but which statements there are. */
  lemma InterleavingsAgree(db: Db, l: Level, sts: seq<Stmt>, times: seq<int>, sts': seq<Stmt>, times': seq<int>)
    requires Valid(db) && |sts| == |times| && |sts'| == |times'| && forall st :: st in sts <==> st in sts'
    ensures SameStatuses(ExecAll(db, sts, times, l), ExecAll(db, sts', times', l))
  {
    var a, b := ExecAll(db, sts, times, l), ExecAll(db, sts', times', l);
    forall x | x in db.todos ensures SameShape(db, a) && SameShape(db, b) && a.todos[x].status == b.todos[x].status {
      StatusAfterAll(db, sts, times, l, x);
      StatusAfterAll(db, sts', times', l, x);
    }
    if db.todos == map[] {
      NoTodos(db, sts, times, l);
      NoTodos(db, sts', times', l);
    } else {
      var x :| x in db.todos;
      assert SameShape(db, a) && SameShape(db, b);
    }
  }

  lemma {:induction false} NoTodos(db: Db, sts: seq<Stmt>, times: seq<int>, l: Level)
    requires db.todos == map[] && |sts| == |times|
    ensures ExecAll(db, sts, times, l) == db
    decreases |sts|
  {
    if sts != [] { NoTodos(db, sts[..|sts| - 1], times[..|sts| - 1], l); }
  }

  /** A whole cascade is two statements. */
  lemma CascadeIsTwo(db: Db, sts: seq<Stmt>, times: seq<int>, id: TodoId, l: Level, t: int, t': int)
    requires |sts| == |times| && id in ExecAll(db, sts, times, l).todos
    ensures ExecAll(db, sts + [One(id), Older(id)], times + [t, t'], l)
            == Cascaded(ExecAll(db, sts, times, l), id, l, t, t')
  {
    ExecAppend(db, sts, times, One(id), l, t);
    ExecAppend(db, sts + [One(id)], times + [t], Older(id), l, t');
    assert sts + [One(id), Older(id)] == sts + [One(id)] + [Older(id)] && times + [t, t'] == times + [t] + [t'];
  }

  lemma TwoCascades(db: Db, a: TodoId, b: TodoId, l: Level, t1: int, t2: int, t3: int, t4: int)
    requires Valid(db) && a in db.todos && b in db.todos
    ensures b in Cascaded(db, a, l, t1, t2).todos
    ensures ExecAll(db, [One(a), Older(a)] + [One(b), Older(b)], [t1, t2] + [t3, t4], l)
            == Cascaded(Cascaded(db, a, l, t1, t2), b, l, t3, t4)
  {
    CascadeIsTwo(db, [], [], a, l, t1, t2);
    assert [] + [One(a), Older(a)] == [One(a), Older(a)] && [] + [t1, t2] == [t1, t2];
    CascadeIsTwo(db, [One(a), Older(a)], [t1, t2], b, l, t3, t4);
  }

  lemma ExecAppend(db: Db, sts: seq<Stmt>, times: seq<int>, st: Stmt, l: Level, t: int)
    requires |sts| == |times|
    ensures ExecAll(db, sts + [st], times + [t], l) == Exec(ExecAll(db, sts, times, l), st, l, t)
  {
    assert (sts + [st])[..|sts|] == sts && (times + [t])[..|times|] == times;
  }

  /** In particular, two cascading acknowledges, or two cascading resolves, give the same statuses in either
      order. */
  lemma SameLevelCommutes(db: Db, a: TodoId, b: TodoId, l: Level, t1: int, t2: int, t3: int, t4: int)
    requires Valid(db) && a in db.todos && b in db.todos
    ensures b in Cascaded(db, a, l, t1, t2).todos && a in Cascaded(db, b, l, t1, t2).todos
    ensures SameStatuses(Cascaded(Cascaded(db, a, l, t1, t2), b, l, t3, t4),
                         Cascaded(Cascaded(db, b, l, t1, t2), a, l, t3, t4))
  {
    TwoCascades(db, a, b, l, t1, t2, t3, t4);
    TwoCascades(db, b, a, l, t1, t2, t3, t4);
    InterleavingsAgree(db, l, [One(a), Older(a)] + [One(b), Older(b)], [t1, t2] + [t3, t4],
                       [One(b), Older(b)] + [One(a), Older(a)], [t1, t2] + [t3, t4]);
  }

  /** A cascading acknowledge of a and a cascading resolve of b commute exactly when the resolve does
      not reach a. */
  lemma MixedCommutesIff(db: Db, a: TodoId, b: TodoId, t1: int, t2: int, t3: int, t4: int)
    requires Valid(db) && a in db.todos && b in db.todos
    ensures b in Cascaded(db, a, Ack, t1, t2).todos && a in Cascaded(db, b, Resolve, t1, t2).todos
    ensures SameStatuses(Cascaded(Cascaded(db, a, Ack, t1, t2), b, Resolve, t3, t4),
                         Cascaded(Cascaded(db, b, Resolve, t1, t2), a, Ack, t3, t4))
            <==> !Reached(db, b, a)
  {
    var ab := LeadsTo(db, a, Ack, b, Resolve, t1, t2, t3, t4);
    var ba := LeadsTo(db, b, Resolve, a, Ack, t1, t2, t3, t4);
    MixedLeads(db, a, b, ab, ba);
  }

  // ---- the aggregated view ---------------------------------------------------------------------

  /** The list only ever shows todos of source releases. */
  predicate Shown(db: Db, x: TodoId) {
    x in db.todos && db.todos[x].status == Pending && db.todos[x].ref.OfRelease? && RefExists(db, db.todos[x].ref)
  }

  function SourceOf(db: Db, x: TodoId): string
    requires Shown(db, x)
  {
    db.releases[db.todos[x].ref.release].source
  }

  /** The date the view orders by. For a release without released_at it is the date of the todo itself. */
  function ViewDate(db: Db, x: TodoId): int
    requires Shown(db, x)
  {
    var r := db.releases[db.todos[x].ref.release];
    if r.releasedAt.Some? then r.releasedAt.value else db.todos[x].createdAt
  }

  ghost predicate EachLatest(db: Db, v: set<TodoId>) {
    && (forall x :: x in v ==> Shown(db, x))
    && (forall x, y :: x in v && Shown(db, y) && SourceOf(db, y) == SourceOf(db, x) ==>
        ViewDate(db, y) <= ViewDate(db, x))
  }

  ghost predicate OnePerSource(db: Db, v: set<TodoId>) {
    forall x, y :: x in v && y in v && x != y && Shown(db, x) && Shown(db, y) ==> SourceOf(db, x) != SourceOf(db, y)
  }

  /** Row number 1 of each source, ordered by date; ties may be broken either way. */
  ghost predicate IsView(db: Db, v: set<TodoId>) {
    && EachLatest(db, v) && OnePerSource(db, v)
    && (forall y {:trigger Covered(db, v, y)} :: Shown(db, y) ==> Covered(db, v, y))
  }

  /** Some row of v stands for the source of y. */
  ghost predicate Covered(db: Db, v: set<TodoId>, y: TodoId) {
    exists x :: x in v && Shown(db, x) && Shown(db, y) && SourceOf(db, x) == SourceOf(db, y)
  }

  /** A pending todo of a release, in the columns of the tables. */
  ghost predicate Listed(db: Db, x: TodoId) {
    && x in db.todos && db.todos[x].status == Pending
    && db.todos[x].ref.OfRelease? && db.todos[x].ref.release in db.releases
  }

  /** Two listed todos of one source_id, x with a date COALESCE(releases.released_at, todos.created_at) no
      earlier than y's. */
  ghost predicate Above(db: Db, x: TodoId, y: TodoId) {
    Listed(db, x) && Listed(db, y) &&
    var t, t' := db.todos[x], db.todos[y];
    var r, r' := db.releases[t.ref.release], db.releases[t'.ref.release];
    && r.source == r'.source
    && (if r'.releasedAt.Some? then r'.releasedAt.value else t'.createdAt)
       <= (if r.releasedAt.Some? then r.releasedAt.value else t.createdAt)
  }

  lemma AboveIff(db: Db, x: TodoId, y: TodoId)
    ensures Listed(db, x) <==> Shown(db, x)
    ensures Above(db, x, y) <==>
            Shown(db, x) && Shown(db, y) && SourceOf(db, x) == SourceOf(db, y) && ViewDate(db, y) <= ViewDate(db, x)
  {
  }

  /** v holds listed todos, one above every listed todo, and none above another. */
  ghost predicate OnTop(db: Db, v: set<TodoId>) {
    && (forall x :: x in v ==> Listed(db, x))
    && (forall y :: Listed(db, y) ==> exists x :: x in v && Above(db, x, y))
    && (forall x, y :: x in v && y in v && Above(db, x, y) ==> x == y)
  }

  /** The views in columns: the rows on top. */
  lemma ViewIff(db: Db, v: set<TodoId>)
    ensures IsView(db, v) <==> OnTop(db, v)
  {
    if IsView(db, v) { ViewIsOnTop(db, v); }
    if OnTop(db, v) { OnTopIsView(db, v); }
  }

  lemma ViewIsOnTop(db: Db, v: set<TodoId>)
    requires IsView(db, v)
    ensures OnTop(db, v)
  {
    forall y | Listed(db, y) ensures exists x :: x in v && Above(db, x, y) {
      AboveIff(db, y, y);
      assert Covered(db, v, y);
      var x :| x in v && Shown(db, x) && Shown(db, y) && SourceOf(db, x) == SourceOf(db, y);
      AboveIff(db, x, y);
    }
    forall x, y | x in v && y in v && Above(db, x, y) ensures x == y { AboveIff(db, x, y); }
    forall x | x in v ensures Listed(db, x) { AboveIff(db, x, x); }
  }

  lemma OnTopIsView(db: Db, v: set<TodoId>)
    requires OnTop(db, v)
    ensures IsView(db, v)
  {
    forall x | x in v ensures Shown(db, x) { AboveIff(db, x, x); }
    forall x, y | x in v && y in v && SourceOf(db, x) == SourceOf(db, y) ensures x == y {
      AboveIff(db, x, y);
      AboveIff(db, y, x);
    }
    forall y | Shown(db, y) ensures Covered(db, v, y) {
      AboveIff(db, y, y);
      var x :| x in v && Above(db, x, y);
      AboveIff(db, x, y);
    }
    forall x, y | x in v && Shown(db, y) && SourceOf(db, y) == SourceOf(db, x)
      ensures ViewDate(db, y) <= ViewDate(db, x)
    {
      AboveIff(db, y, y);
      var z :| z in v && Above(db, z, y);
      AboveIff(db, z, y);
      assert z == x;
    }
  }

  ghost function LatestOf(db: Db, ids: set<TodoId>): (best: TodoId)
    requires ids != {} && forall x :: x in ids ==> Shown(db, x)
    ensures best in ids && forall x :: x in ids ==> ViewDate(db, x) <= ViewDate(db, best)
  {
    var a :| a in ids;
    if ids == {a} then a
    else
      var b := LatestOf(db, ids - {a});
      assert forall x :: x in ids ==> x == a || x in ids - {a};
      if ViewDate(db, b) <= ViewDate(db, a) then a else b
  }

  ghost function PendingOf(db: Db, source: string): set<TodoId> {
    set x | x in db.todos && Shown(db, x) && SourceOf(db, x) == source
  }

  /** There is always a view: one row per source with a pending todo, its latest. */
  lemma ViewExists(db: Db)
    ensures exists v :: IsView(db, v)
  {
    var shown := set x | x in db.todos && Shown(db, x);
    forall x | x in shown ensures x in PendingOf(db, SourceOf(db, x)) {}
    var v := set x | x in shown && x == LatestOf(db, PendingOf(db, SourceOf(db, x)));
    forall y | Shown(db, y) ensures Covered(db, v, y) {
      var best := LatestOf(db, PendingOf(db, SourceOf(db, y)));
      assert SourceOf(db, best) == SourceOf(db, y) && best in v;
    }
    forall x, y | x in v && Shown(db, y) && SourceOf(db, y) == SourceOf(db, x)
      ensures ViewDate(db, y) <= ViewDate(db, x)
    {
      assert y in PendingOf(db, SourceOf(db, x));
    }
    assert IsView(db, v);
  }

  ghost predicate AllReleasesDated(db: Db) {
    forall r :: r in db.releases ==> db.releases[r].releasedAt.Some?
  }

  /** db' shows what db shows, without the source of `id`. */
  ghost predicate SourceDropped(db: Db, db': Db, id: TodoId) {
    && Shown(db, id)
    && (forall x :: Shown(db', x) <==> Shown(db, x) && SourceOf(db, x) != SourceOf(db, id))
    && (forall x :: Shown(db', x) ==> SourceOf(db', x) == SourceOf(db, x) && ViewDate(db', x) == ViewDate(db, x))
  }

  lemma RowCoversSource(db: Db, db': Db, id: TodoId, w: set<TodoId>, y: TodoId)
    requires SourceDropped(db, db', id) && IsView(db', w) && Shown(db, y)
    ensures Covered(db, w + {id}, y)
  {
    if SourceOf(db, y) == SourceOf(db, id) {
      assert id in w + {id};
    } else {
      assert Covered(db', w, y);
      var x :| x in w && Shown(db', x) && Shown(db', y) && SourceOf(db', x) == SourceOf(db', y);
      assert x in w + {id};
    }
  }

  lemma RowIsLatest(db: Db, db': Db, v: set<TodoId>, id: TodoId, w: set<TodoId>, x: TodoId, y: TodoId)
    requires SourceDropped(db, db', id) && IsView(db, v) && id in v && IsView(db', w)
    requires x == id || x in w
    requires Shown(db, y)
    ensures Shown(db, x) && (SourceOf(db, y) == SourceOf(db, x) ==> ViewDate(db, y) <= ViewDate(db, x))
  {
    if x != id {
      assert Shown(db', x);
      if SourceOf(db, y) == SourceOf(db, x) { assert Shown(db', y); }
    }
  }

  lemma RowIsOnlyOne(db: Db, db': Db, id: TodoId, w: set<TodoId>, x: TodoId, y: TodoId)
    requires SourceDropped(db, db', id) && IsView(db', w)
    requires (x == id || x in w) && (y == id || y in w) && x != y
    ensures Shown(db, x) && Shown(db, y) && SourceOf(db, x) != SourceOf(db, y)
  {
    assert x != id ==> Shown(db', x);
    assert y != id ==> Shown(db', y);
  }

  lemma LatestWithRow(db: Db, db': Db, v: set<TodoId>, id: TodoId, w: set<TodoId>)
    requires SourceDropped(db, db', id) && IsView(db, v) && id in v && IsView(db', w)
    ensures EachLatest(db, w + {id})
  {
    var u := w + {id};
    forall x | x in u ensures Shown(db, x) { RowIsLatest(db, db', v, id, w, x, id); }
    forall x, y | x in u && Shown(db, y) && SourceOf(db, y) == SourceOf(db, x)
      ensures ViewDate(db, y) <= ViewDate(db, x)
    {
      RowIsLatest(db, db', v, id, w, x, y);
    }
  }

  lemma OnlyWithRow(db: Db, db': Db, id: TodoId, w: set<TodoId>)
    requires SourceDropped(db, db', id) && IsView(db', w)
    ensures OnePerSource(db, w + {id})
  {
    var u := w + {id};
    forall x, y | x in u && y in u && x != y && Shown(db, x) && Shown(db, y)
      ensures SourceOf(db, x) != SourceOf(db, y)
    {
      RowIsOnlyOne(db, db', id, w, x, y);
    }
  }

  lemma ViewWithRow(db: Db, db': Db, v: set<TodoId>, id: TodoId, w: set<TodoId>)
    requires SourceDropped(db, db', id) && IsView(db, v) && id in v && IsView(db', w)
    ensures id !in w && IsView(db, w + {id})
  {
    LatestWithRow(db, db', v, id, w);
    OnlyWithRow(db, db', id, w);
    assert id in w ==> Shown(db', id);
    forall y | Shown(db, y) ensures Covered(db, w + {id}, y) {
      RowCoversSource(db, db', id, w, y);
    }
  }

  lemma ViewWithoutRow(db: Db, db': Db, id: TodoId, w: set<TodoId>)
    requires SourceDropped(db, db', id) && id !in w && IsView(db, w + {id})
    ensures IsView(db', w)
  {
    var u := w + {id};
    forall x | x in w ensures Shown(db', x) { assert x in u && id in u && x != id; }
    forall y | Shown(db', y) ensures Covered(db', w, y) {
      assert Covered(db, u, y);
      var x :| x in u && Shown(db, x) && Shown(db, y) && SourceOf(db, x) == SourceOf(db, y);
      assert x != id && x in w;
    }
    forall x, y | x in w && y in w && x != y ensures SourceOf(db', x) != SourceOf(db', y) {
      assert x in u && y in u;
    }
    forall x, y | x in w && Shown(db', y) && SourceOf(db', y) == SourceOf(db', x)
      ensures ViewDate(db', y) <= ViewDate(db', x)
    {
      assert x in u;
    }
  }

  /** Acknowledging, with cascade, a row of the view removes its source from the view and leaves every
      other row as it was: the views afterwards are exactly the views before without that row. */
  lemma AcknowledgeRemovesSource(db: Db, v: set<TodoId>, id: TodoId, now: int, later: int, w: set<TodoId>)
    requires Valid(db) && AllReleasesDated(db) && IsView(db, v) && id in v
    ensures IsView(Cascaded(db, id, Ack, now, later), w) <==> id !in w && IsView(db, w + {id})
  {
    var db' := Cascaded(db, id, Ack, now, later);
    ShownAfter(db, v, id, now, later);
    if IsView(db', w) { ViewWithRow(db, db', v, id, w); }
    if id !in w && IsView(db, w + {id}) { ViewWithoutRow(db, db', id, w); }
  }

  /** After the acknowledge the pending todos are those of the other sources, unchanged. */
  lemma ShownAfter(db: Db, v: set<TodoId>, id: TodoId, now: int, later: int)
    requires Valid(db) && AllReleasesDated(db) && IsView(db, v) && id in v
    ensures SourceDropped(db, Cascaded(db, id, Ack, now, later), id)
  {
    var db' := Cascaded(db, id, Ack, now, later);
    CascadeIsExact(db, id, Ack, now, later);
    forall x | Shown(db, x) ensures SourceOf(db, x) == SourceOf(db, id) <==> Reached(db, id, x) {
      if SourceOf(db, x) == SourceOf(db, id) { assert ViewDate(db, x) <= ViewDate(db, id); }
    }
    forall x ensures Shown(db', x) <==> Shown(db, x) && SourceOf(db, x) != SourceOf(db, id) {
      if x in db.todos && x != id {
        assert db'.todos[x] == db.todos[x] || db'.todos[x].status == Acknowledged;
      }
    }
  }

  /** Dated or not: the acknowledge removes the source from the view exactly when the cascade, too, dates
      no pending todo of the source after the row. */
  lemma AcknowledgeRemovesIff(db: Db, id: TodoId, now: int, later: int)
    requires Valid(db) && Shown(db, id)
    ensures (forall x :: Shown(Cascaded(db, id, Ack, now, later), x) ==>
              SourceOf(Cascaded(db, id, Ack, now, later), x) != SourceOf(db, id))
            <==> forall x :: Shown(db, x) && SourceOf(db, x) == SourceOf(db, id) ==> Date(db, x) <= Date(db, id)
  {
    var db' := Cascaded(db, id, Ack, now, later);
    CascadeIsExact(db, id, Ack, now, later);
    forall x ensures Shown(db', x) && SourceOf(db', x) == SourceOf(db, id)
                     <==> Shown(db, x) && SourceOf(db, x) == SourceOf(db, id) && Date(db, x) > Date(db, id) {
      if x in db.todos && x != id {
        assert db'.todos[x] == db.todos[x] || db'.todos[x].status == Acknowledged;
        assert db'.todos[x].ref == db.todos[x].ref;
      }
    }
  }

  /** Todos of semantic releases have no row, so a cascade from one of them changes no view. */
  lemma SemanticKeepsView(db: Db, id: TodoId, l: Level, now: int, later: int, w: set<TodoId>)
    requires Valid(db) && id in db.todos && db.todos[id].ref.OfSemantic?
    ensures IsView(Cascaded(db, id, l, now, later), w) <==> IsView(db, w)
  {
    var db' := Cascaded(db, id, l, now, later);
    CascadeIsExact(db, id, l, now, later);
    forall x | x in db.todos && db.todos[x].ref.OfRelease? ensures db'.todos[x] == db.todos[x] {
      assert !Reached(db, id, x);
    }
    forall x ensures Shown(db', x) <==> Shown(db, x) {
      if x in db.todos { assert db'.todos[x].ref == db.todos[x].ref; }
    }
    SameShown(db, db', w);
  }

  lemma SameShown(a: Db, b: Db, w: set<TodoId>)
    requires forall x :: Shown(a, x) <==> Shown(b, x)
    requires forall x :: Shown(a, x) ==> SourceOf(a, x) == SourceOf(b, x) && ViewDate(a, x) == ViewDate(b, x)
    ensures IsView(a, w) <==> IsView(b, w)
  {
    forall y ensures Covered(a, w, y) <==> Covered(b, w, y) {
    }
  }

  lemma SingleRowView(db: Db, a: TodoId)
    requires Shown(db, a)
    requires forall y :: Shown(db, y) ==> SourceOf(db, y) == SourceOf(db, a) && ViewDate(db, y) <= ViewDate(db, a)
    ensures IsView(db, {a})
  {
    var v := {a};
    assert a in v && forall x :: x in v ==> x == a;
    forall y | Shown(db, y) ensures Covered(db, v, y) { }
  }

  /** Without released_at the view dates a row by its todo and the cascade by its release. The latest
      row of the view can then be the oldest for the cascade, and its source stays in the view. */
  lemma UndatedReleasesDisagree()
    ensures var db := Db(map[1 := Todo(OfRelease(1), Pending, 20, None, None),
            2 := Todo(OfRelease(2), Pending, 15, None, None)],
                         map[1 := Release("s", None, 5), 2 := Release("s", None, 10)], map[]);
      Valid(db) && IsView(db, {1}) && Shown(Cascaded(db, 1, Ack, 30, 30), 2)
  {
    var db := Db(map[1 := Todo(OfRelease(1), Pending, 20, None, None),
        2 := Todo(OfRelease(2), Pending, 15, None, None)],
                 map[1 := Release("s", None, 5), 2 := Release("s", None, 10)], map[]);
    SingleRowView(db, 1);
    AcknowledgeRemovesIff(db, 1, 30, 30);
    assert Date(db, 1) == 5 && Date(db, 2) == 10 && !Reached(db, 1, 2);
  }

  // ---- timestamps, and reopening ---------------------------------------------------------------

  /** A pending todo carries no timestamps; a raised one carries the one of its status. */
  predicate Dated(t: Todo) {
    match t.status
    case Pending => t.acknowledgedAt == None && t.resolvedAt == None
    case Acknowledged => t.acknowledgedAt.Some?
    case Resolved => t.resolvedAt.Some?
  }

  ghost predicate AllDated(db: Db) { forall x :: x in db.todos ==> Dated(db.todos[x]) }

  function Reopened(t: Todo): Todo { t.(status := Pending, acknowledgedAt := None, resolvedAt := None) }

  /** Reopening undoes any number of acknowledges and resolves of a todo that was pending, completely,
      and restores a todo that was further advanced only as far as pending. */
  lemma ReopenUndoes(t: Todo, levels: seq<Level>, times: seq<int>)
    requires Dated(t) && |levels| == |times|
    ensures Dated(Raised(t, levels, times))
    ensures Reopened(Raised(t, levels, times)) == t <==> t.status == Pending
  {
    RaisedKeepsRef(t, levels, times);
  }

  function Raised(t: Todo, levels: seq<Level>, times: seq<int>): Todo
    requires |levels| == |times|
    decreases |levels|
  {
    if levels == [] then t else Raised(Raise(t, levels[0], times[0]), levels[1..], times[1..])
  }

  lemma {:induction false} RaisedKeepsRef(t: Todo, levels: seq<Level>, times: seq<int>)
    requires |levels| == |times| && Dated(t)
    ensures var r := Raised(t, levels, times); Dated(r) && r.ref == t.ref && r.createdAt == t.createdAt
    decreases |levels|
  {
    if levels != [] {
      RaisedKeepsRef(Raise(t, levels[0], times[0]), levels[1..], times[1..]);
    }
  }

  // ---- the code ----------------------------------------------------------------------------------

  ghost predicate HasTodo(db: Db, release: RowId) {
    exists x :: x in db.todos && db.todos[x].ref == OfRelease(release)
  }

  /** AcknowledgeTodo or ResolveTodo, by how its two statements end. */
  function RaisedTodo(db: Db, id: TodoId, l: Level, cascade: bool, first: Fault, second: Fault, now: int): Db {
    if id !in db.todos || first == NotApplied then db
    else if first == Ok && cascade && second != NotApplied then Cascaded(db, id, l, now, now)
    else SetOne(db, id, l, now)
  }

  lemma CascadeKeepsOk(db: Db, id: TodoId, l: Level, now: int)
    requires Valid(db) && AllDated(db) && id in db.todos
    ensures var db' := Cascade(db, id, l, now); Valid(db') && AllDated(db') && db'.todos.Keys == db.todos.Keys
  {
  }

  /** What AcknowledgeTodo and ResolveTodo leave behind, with and without their second statement. */
  lemma RaisedFacts(db: Db, id: TodoId, l: Level, cascaded: bool, now: int)
    requires Valid(db) && id in db.todos
    ensures var db' := if cascaded then Cascaded(db, id, l, now, now) else SetOne(db, id, l, now);
      && OthersRaised(db, db'.todos, id, l, cascaded, now) && RaisedRow(db.todos[id], db'.todos[id], l, now)
      && (OrderClosed(db', id, l) <==>
            cascaded || forall x :: x != id && Reached(db, id, x) ==> !Eligible(l, db.todos[x].status))
    ensures OthersRaised(db, SetOne(db, id, l, now).todos, id, l, false, now)
  {
    StatementsInColumns(db, id, l, now);
    if cascaded {
      CascadeInColumns(db, id, l, now, now);
      CascadeIsExact(db, id, l, now, now);
    } else {
      ClosedWithoutCascadeIff(db, id, l, now);
    }
  }

  class TodoStore {
    var clock: int
    var nextId: TodoId
    var todos: map<TodoId, Todo>
    const releases: map<RowId, Release>
    const semantics: map<RowId, Semantic>

    ghost function Contents(): Db reads this { Db(todos, releases, semantics) }

    ghost predicate Ok() reads this {
      Valid(Contents()) && AllDated(Contents()) && forall x :: x in todos ==> x < nextId
    }

    constructor (releases: map<RowId, Release>, semantics: map<RowId, Semantic>, now: int)
      ensures Ok() && Contents() == Db(map[], releases, semantics)
    {
      this.releases, this.semantics := releases, semantics;
      clock, nextId, todos := now, 0, map[];
    }

    /** UPDATE of one row by id. */
    method SetStatus(id: TodoId, l: Level, fault: Fault) returns (rowsAffected: nat, err: bool)
      requires Ok()
      modifies this`todos
      ensures Ok() && (err <==> fault != Fault.Ok)
      ensures Contents() == if fault != NotApplied && id in old(todos) then SetOne(old(Contents()), id, l, clock)
                            else old(Contents())
      ensures !err ==> rowsAffected == if id in old(todos) then 1 else 0
    {
      rowsAffected, err := 0, fault != Fault.Ok;
      if fault == NotApplied { return; }
      if id in todos {
        todos := todos[id := if l == Ack then todos[id].(status := Acknowledged, acknowledgedAt := Some(clock))
                             else todos[id].(status := Resolved, resolvedAt := Some(clock))];
        rowsAffected := 1;
      }
    }

    /** The cascading UPDATE; its error is dropped. */
    method SetOlder(id: TodoId, l: Level, fault: Fault)
      requires Ok() && id in todos
      modifies this`todos
      ensures Ok()
      ensures Contents() == if fault == NotApplied then old(Contents()) else Cascade(old(Contents()), id, l, clock)
      ensures OthersRaised(old(Contents()), todos, id, l, fault != NotApplied, clock)
      ensures todos[id] == old(todos)[id]
    {
      StatementsInColumns(Contents(), id, l, clock);
      CascadeKeepsOk(Contents(), id, l, clock);
      if fault == NotApplied { return; }
      var after := RaisedRows(id, l);
      todos := after;
    }

    /** The rows as the cascading UPDATE leaves them, row by row. */
    method RaisedRows(id: TodoId, l: Level) returns (after: map<TodoId, Todo>)
      requires id in todos
      ensures after == Cascade(Contents(), id, l, clock).todos
    {
      var db := Db(todos, releases, semantics);
      after := map[];
      var left := todos.Keys;
      while left != {}
        invariant left <= todos.Keys && after.Keys == todos.Keys - left
        invariant forall x :: x in after ==> after[x] == Cascade(db, id, l, clock).todos[x]
        decreases left
      {
        var x :| x in left;
        var t := todos[x];
        if x != id && (t.status == Pending || (l == Resolve && t.status == Acknowledged))
           && Reached(db, id, x) && t.ref != todos[id].ref {
          t := Raise(t, l, clock);
        }
        after := after[x := t];
        left := left - {x};
      }
    }

    /** AcknowledgeTodo and ResolveTodo: the row itself, then, if asked for, the older ones. After a
        success nothing eligible is left in reach if and only if the cascade ran or there was nothing
        else eligible to begin with. */
    method RaiseTodo(id: TodoId, l: Level, cascade: bool, first: Fault, second: Fault) returns (err: bool)
      requires Ok()
      modifies this`todos
      ensures Ok() && (err <==> first != Fault.Ok || id !in old(todos))
      ensures Contents() == RaisedTodo(old(Contents()), id, l, cascade, first, second, clock)
      ensures !err ==> (OrderClosed(Contents(), id, l) <==>
                (cascade && second != NotApplied)
                || forall x :: x != id && Reached(old(Contents()), id, x) ==> !Eligible(l, old(todos)[x].status))
      ensures !err ==> RaisedRow(old(todos)[id], todos[id], l, clock)
      ensures if id in old(todos)
              then OthersRaised(old(Contents()), todos, id, l, !err && cascade && second != NotApplied, clock)
              else todos == old(todos)
    {
      ghost var before := Contents();
      var rowsAffected, setErr := SetStatus(id, l, first);
      if id in before.todos { RaisedFacts(before, id, l, cascade && second != NotApplied, clock); }
      if setErr || rowsAffected == 0 { return true; }
      if cascade { SetOlder(id, l, second); }
      return false;
    }

    method ReopenTodo(id: TodoId, fault: Fault) returns (err: bool)
      requires Ok()
      modifies this`todos
      ensures Ok() && (err <==> fault != Fault.Ok || id !in old(todos))
      ensures todos == if fault == NotApplied || id !in old(todos) then old(todos)
              else old(todos)[id := Reopened(old(todos)[id])]
      ensures !err ==> todos[id] == old(todos)[id].(status := Pending, acknowledgedAt := None, resolvedAt := None)
    {
      if fault == NotApplied || id !in todos { return true; }
      todos := todos[id := todos[id].(status := Pending, acknowledgedAt := None, resolvedAt := None)];
      return fault != Fault.Ok;
    }

    /** INSERT .. ON CONFLICT: the todo of the release, created pending if it is not there; one that is
        there keeps its status. */
    method CreateReleaseTodo(release: RowId, fault: Fault) returns (id: TodoId, err: bool)
      requires Ok()
      modifies this`todos, this`nextId
      ensures Ok() && (err <==> fault != Fault.Ok || release !in releases)
      ensures !err ==> id in todos && todos[id].ref == OfRelease(release)
      ensures todos == if fault == NotApplied || release !in releases || HasTodo(old(Contents()), release)
              then old(todos)
                       else old(todos)[old(nextId) := Todo(OfRelease(release), Pending, clock, None, None)]
    {
      id, err := 0, true;
      if fault == NotApplied || release !in releases { return; }
      err := fault != Fault.Ok;
      if x :| x in todos && todos[x].ref == OfRelease(release) {
        id := x;
        return;
      }
      id := nextId;
      todos := todos[id := Todo(OfRelease(release), Pending, clock, None, None)];
      nextId := nextId + 1;
    }
  }
}
