/** The notify worker: filters, the todo, the sends and the hand-off to the agent rules, in that order. */
module NotifyWorkers {
  import opened Common
  import T = Todos
  import R = AgentRules

  type Id = string
  type RowId = T.RowId

  datatype Release = Release(version: string, prerelease: bool)
  datatype Source = Source(project: Id, incl: Option<string>, excl: Option<string>, excludePrereleases: bool)
  datatype Channel = Channel(kind: string)

  /** What the worker looks up; lookups may also fail. `regex(pattern, text)` is None for an invalid
      pattern; `gated` holds the projects with an enabled gate; `senders` the known channel types. */
  datatype Catalog = Catalog(releases: map<RowId, Release>, sources: map<Id, Source>, subscriptions: map<Id, seq<Id>>,
                             channels: map<Id, Channel>, senders: set<string>, gated: set<Id>,
                             rules: map<Id, R.Rules>, previous: map<Id, string>,
                             regex: (string, string) -> Option<bool>)

  /** Include must match and exclude must not; an invalid pattern of either kind fails the version. */
  predicate VersionPassesFilter(version: string, incl: Option<string>, excl: Option<string>,
                                regex: (string, string) -> Option<bool>) {
    && (incl.Some? && incl.value != "" ==> regex(incl.value, version) == Some(true))
    && (excl.Some? && excl.value != "" ==> regex(excl.value, version) == Some(false))
  }

  predicate Filtered(c: Catalog, release: RowId, source: Id) {
    release in c.releases && source in c.sources &&
    var r, s := c.releases[release], c.sources[source];
    !VersionPassesFilter(r.version, s.incl, s.excl, c.regex) || (s.excludePrereleases && r.prerelease)
  }

  /** Effects of the worker in the order in which they happen. An attempt is for a place of the list of
      subscriptions. */
  datatype Effect = TodoVerified(release: RowId) | Attempt(place: nat, channel: Id)
                  | AutoRun(project: Id, version: string)

  /** What the world decides in one execution: which reads fail, how the two writes end, and for which
      places of the subscription list the channel cannot be loaded. */
  datatype World = World(loadFails: bool, todo: Fault, listFails: bool, unloadable: set<nat>, rulesFail: bool,
      run: Fault)

  predicate Deliverable(c: Catalog, ch: Id) { ch in c.channels && c.channels[ch].kind in c.senders }

  /** One attempt per subscription whose channel loads and has a sender, in the order of the list. */
  function Attempts(c: Catalog, subs: seq<Id>, unloadable: set<nat>): seq<Effect> {
    if subs == [] then []
    else
      var n := |subs| - 1;
      Attempts(c, subs[..n], unloadable)
      + (if n !in unloadable && Deliverable(c, subs[n]) then [Attempt(n, subs[n])] else [])
  }

  predicate RulesFire(c: Catalog, release: RowId, source: Id) {
    release in c.releases && source in c.sources &&
    var p := c.sources[source].project;
    p !in c.gated && p in c.rules &&
    R.CheckAgentRules(Some(c.rules[p]), c.releases[release].version,
                      if source in c.previous then c.previous[source] else "",
                      (pattern, v) => c.regex(pattern, v) == Some(true))
  }

  function Runs(c: Catalog, release: RowId, source: Id, w: World): seq<Effect> {
    if RulesFire(c, release, source) && !w.rulesFail && w.run != NotApplied
    then [AutoRun(c.sources[source].project, c.releases[release].version)] else []
  }

  predicate Loads(c: Catalog, release: RowId, source: Id, w: World) {
    !w.loadFails && release in c.releases && source in c.sources
  }

  /** A source without subscriptions has an empty list. */
  function Subscriptions(c: Catalog, source: Id): seq<Id> {
    if source in c.subscriptions then c.subscriptions[source] else []
  }

  predicate TodoFails(w: World, hasRow: bool) { w.todo != Ok || !hasRow }

  /** The execution ends with an error, and is then repeated. `hasRow` says that the release still
      exists when its todo is inserted. */
  predicate Fails(c: Catalog, release: RowId, source: Id, hasRow: bool, w: World) {
    !Loads(c, release, source, w) ||
    (!Filtered(c, release, source) && (TodoFails(w, hasRow) || w.listFails))
  }

  /** Everything one execution does. */
  function Effects(c: Catalog, release: RowId, source: Id, hasRow: bool, w: World): seq<Effect> {
    if !Loads(c, release, source, w) || Filtered(c, release, source) || TodoFails(w, hasRow) then []
    else if w.listFails then [TodoVerified(release)]
    else [TodoVerified(release)] + Attempts(c, Subscriptions(c, source), w.unloadable) + Runs(c, release, source, w)
  }

  /** The attempt for subscription j, if its channel loads and has a sender, stands right behind the
      attempts for the subscriptions before it, of which there are at most j. */
  lemma {:induction false} AttemptAt(c: Catalog, subs: seq<Id>, unloadable: set<nat>, j: nat)
    requires j < |subs|
    ensures var before, all := Attempts(c, subs[..j], unloadable), Attempts(c, subs, unloadable);
      && |before| <= j && before <= all
      && (j !in unloadable && Deliverable(c, subs[j]) ==> |before| < |all| && all[|before|] == Attempt(j, subs[j]))
    decreases |subs|
  {
    var n := |subs| - 1;
    if j < n {
      assert subs[..n][..j] == subs[..j];
      AttemptAt(c, subs[..n], unloadable, j);
    } else {
      AttemptsAreDeliverable(c, subs[..n], unloadable);
    }
  }

  /** Nothing else is attempted, and no place twice. */
  lemma {:induction false} AttemptsAreDeliverable(c: Catalog, subs: seq<Id>, unloadable: set<nat>)
    ensures var all := Attempts(c, subs, unloadable); Distinct(all) && |all| <= |subs| && forall e :: e in all ==>
      e.Attempt? && e.place < |subs| && e.place !in unloadable && e.channel == subs[e.place]
          && Deliverable(c, e.channel)
    decreases |subs|
  {
    if subs != [] {
      var n := |subs| - 1;
      AttemptsAreDeliverable(c, subs[..n], unloadable);
      assert Attempt(n, subs[n]) !in Attempts(c, subs[..n], unloadable);
    }
  }

  /** An execution begins with its todo or does nothing, and does nothing twice; when it fails it has
      attempted nothing and started no run; a project with a gate gets no run. */
  lemma TodoThenNotify(c: Catalog, release: RowId, source: Id, hasRow: bool, w: World)
    ensures var done := Effects(c, release, source, hasRow, w);
      && Distinct(done) && (done != [] ==> done[0] == TodoVerified(release))
      && (forall i :: 0 < i < |done| ==> !done[i].TodoVerified?)
      && (Fails(c, release, source, hasRow, w) ==> |done| <= 1)
      && (source in c.sources && c.sources[source].project in c.gated ==> forall e :: e in done ==> !e.AutoRun?)
      && (forall i :: 0 <= i < |done| && done[i].AutoRun? ==> i == |done| - 1)
  {
    var attempts, runs := Attempts(c, Subscriptions(c, source), w.unloadable), Runs(c, release, source, w);
    AttemptsAreDeliverable(c, Subscriptions(c, source), w.unloadable);
    forall i | 0 <= i < |attempts| ensures attempts[i].Attempt? { assert attempts[i] in attempts; }
  }

  // ---- who is notified -------------------------------------------------------------------------

  /** The include pattern, if there is one, matches; the exclude pattern is valid and does not match; a
      pre-release passes unless the source excludes them. */
  ghost predicate LetThrough(c: Catalog, r: Release, s: Source) {
    && (s.incl.Some? && s.incl.value != "" ==> c.regex(s.incl.value, r.version) == Some(true))
    && (s.excl.Some? && s.excl.value != "" ==> c.regex(s.excl.value, r.version) == Some(false))
    && !(s.excludePrereleases && r.prerelease)
  }

  /** Each place of the subscription list whose channel loads and has a sender is attempted, in the order of
      the list, and nothing else is. */
  ghost predicate RightAttempts(c: Catalog, source: Id, w: World, done: seq<Effect>) {
    var subs := if source in c.subscriptions then c.subscriptions[source] else [];
    && (forall j: nat, ch :: Attempt(j, ch) in done <==>
          j < |subs| && ch == subs[j] && j !in w.unloadable && ch in c.channels && c.channels[ch].kind in c.senders)
    && (forall a, b :: 0 <= a < b < |done| && done[a].Attempt? && done[b].Attempt? ==> done[a].place < done[b].place)
  }

  /** A run is started if and only if the project has no enabled gate, its rules could be read, one of them
      fires, and the insertion took effect. */
  ghost predicate RightRun(c: Catalog, release: RowId, source: Id, w: World, done: seq<Effect>)
    requires release in c.releases && source in c.sources
  {
    forall p, v :: AutoRun(p, v) in done <==>
      && p == c.sources[source].project && v == c.releases[release].version && p !in c.gated && p in c.rules
      && !w.rulesFail && w.run != NotApplied
      && R.CheckAgentRules(Some(c.rules[p]), v, if source in c.previous then c.previous[source] else "",
                           (pattern, text) => c.regex(pattern, text) == Some(true))
  }

  /** The todo comes first, then the attempts and the run, each once. */
  ghost predicate Notified(c: Catalog, release: RowId, source: Id, w: World, done: seq<Effect>)
    requires release in c.releases && source in c.sources
  {
    && done != [] && done[0] == TodoVerified(release) && Distinct(done)
    && RightAttempts(c, source, w, done) && RightRun(c, release, source, w, done)
  }

  lemma FilteredIff(c: Catalog, release: RowId, source: Id)
    requires release in c.releases && source in c.sources
    ensures Filtered(c, release, source) <==> !LetThrough(c, c.releases[release], c.sources[source])
  {
  }

  lemma AttemptsIff(c: Catalog, subs: seq<Id>, unloadable: set<nat>, j: nat, ch: Id)
    ensures Attempt(j, ch) in Attempts(c, subs, unloadable) <==>
              j < |subs| && ch == subs[j] && j !in unloadable && ch in c.channels && c.channels[ch].kind in c.senders
  {
    AttemptsAreDeliverable(c, subs, unloadable);
    if j < |subs| { AttemptAt(c, subs, unloadable, j); }
  }

  lemma {:induction false} AttemptsInOrder(c: Catalog, subs: seq<Id>, unloadable: set<nat>, a: nat, b: nat)
    requires a < b < |Attempts(c, subs, unloadable)|
    ensures var all := Attempts(c, subs, unloadable);
            all[a].Attempt? && all[b].Attempt? && all[a].place < all[b].place
    decreases |subs|
  {
    var n := |subs| - 1;
    var front, all := Attempts(c, subs[..n], unloadable), Attempts(c, subs, unloadable);
    AttemptsAreDeliverable(c, subs[..n], unloadable);
    AttemptsAreDeliverable(c, subs, unloadable);
    assert front[a] in front && all[b] in all;
    if b < |front| { AttemptsInOrder(c, subs[..n], unloadable, a, b); }
  }

  /** An execution that returns without an error has notified, if the filters let the release through. */
  lemma EffectsNotify(c: Catalog, release: RowId, source: Id, hasRow: bool, w: World)
    requires !Fails(c, release, source, hasRow, w) && LetThrough(c, c.releases[release], c.sources[source])
    ensures Notified(c, release, source, w, Effects(c, release, source, hasRow, w))
  {
    FilteredIff(c, release, source);
    TodoThenNotify(c, release, source, hasRow, w);
    var attempts, runs := Attempts(c, Subscriptions(c, source), w.unloadable), Runs(c, release, source, w);
    assert Effects(c, release, source, hasRow, w) == [TodoVerified(release)] + attempts + runs;
    PartsAttempt(c, release, source, w);
    PartsRun(c, release, source, w);
  }

  lemma PartsAttempt(c: Catalog, release: RowId, source: Id, w: World)
    ensures RightAttempts(c, source, w, [TodoVerified(release)] + Attempts(c, Subscriptions(c, source), w.unloadable)
                                        + Runs(c, release, source, w))
  {
    var subs := Subscriptions(c, source);
    var attempts, runs := Attempts(c, subs, w.unloadable), Runs(c, release, source, w);
    forall j: nat, ch ensures Attempt(j, ch) in [TodoVerified(release)] + attempts + runs <==>
        j < |subs| && ch == subs[j] && j !in w.unloadable && ch in c.channels && c.channels[ch].kind in c.senders
    {
      AmongParts(release, attempts, runs, Attempt(j, ch));
      AttemptsIff(c, subs, w.unloadable, j, ch);
    }
    PartsInOrder(c, release, subs, w.unloadable, runs);
  }

  lemma PartsInOrder(c: Catalog, release: RowId, subs: seq<Id>, unloadable: set<nat>, runs: seq<Effect>)
    requires forall i :: 0 <= i < |runs| ==> runs[i].AutoRun?
    ensures var done := [TodoVerified(release)] + Attempts(c, subs, unloadable) + runs;
      forall a, b :: 0 <= a < b < |done| && done[a].Attempt? && done[b].Attempt? ==> done[a].place < done[b].place
  {
    var attempts := Attempts(c, subs, unloadable);
    var done := [TodoVerified(release)] + attempts + runs;
    forall a, b | 0 <= a < b < |done| && done[a].Attempt? && done[b].Attempt? ensures done[a].place < done[b].place {
      AttemptAmong(release, attempts, runs, a);
      AttemptAmong(release, attempts, runs, b);
      AttemptsInOrder(c, subs, unloadable, a - 1, b - 1);
    }
  }

  lemma AttemptAmong(release: RowId, attempts: seq<Effect>, runs: seq<Effect>, a: nat)
    requires forall i :: 0 <= i < |runs| ==> runs[i].AutoRun?
    requires var done := [TodoVerified(release)] + attempts + runs; a < |done| && done[a].Attempt?
    ensures 1 <= a <= |attempts| && ([TodoVerified(release)] + attempts + runs)[a] == attempts[a - 1]
  {
  }

  lemma PartsRun(c: Catalog, release: RowId, source: Id, w: World)
    requires release in c.releases && source in c.sources
    ensures RightRun(c, release, source, w, [TodoVerified(release)]
                     + Attempts(c, Subscriptions(c, source), w.unloadable) + Runs(c, release, source, w))
  {
    var attempts, runs := Attempts(c, Subscriptions(c, source), w.unloadable), Runs(c, release, source, w);
    AttemptsAreDeliverable(c, Subscriptions(c, source), w.unloadable);
    forall p, v ensures AutoRun(p, v) in [TodoVerified(release)] + attempts + runs <==> AutoRun(p, v) in runs {
      AmongParts(release, attempts, runs, AutoRun(p, v));
    }
  }

  lemma AmongParts(release: RowId, attempts: seq<Effect>, runs: seq<Effect>, e: Effect)
    requires !e.TodoVerified?
    ensures e in [TodoVerified(release)] + attempts + runs <==> e in attempts || e in runs
  {
  }

  // ---- executions that stop, and their retries ---------------------------------------------------

  /** One execution of a job. It may be cut short by a crash after any number of its effects. */
  datatype Execution = Execution(w: World, crash: Option<nat>)

  function Done(c: Catalog, release: RowId, source: Id, hasRow: bool, e: Execution): seq<Effect> {
    var all := Effects(c, release, source, hasRow, e.w);
    if e.crash.Some? && e.crash.value < |all| then all[..e.crash.value] else all
  }

  /** The job is queued again after a reported error or a crash. */
  predicate Repeated(c: Catalog, release: RowId, source: Id, hasRow: bool, e: Execution) {
    e.crash.Some? || Fails(c, release, source, hasRow, e.w)
  }

  function AllDone(c: Catalog, release: RowId, source: Id, hasRow: bool, es: seq<Execution>): seq<Effect> {
    if es == [] then []
    else AllDone(c, release, source, hasRow, es[..|es| - 1]) + Done(c, release, source, hasRow, es[|es| - 1])
  }

  lemma DoneIsPrefix(c: Catalog, release: RowId, source: Id, hasRow: bool, e: Execution)
    ensures var done := Done(c, release, source, hasRow, e);
      && done <= Effects(c, release, source, hasRow, e.w) && Distinct(done)
      && (done != [] ==> done[0] == TodoVerified(release))
      && (forall i :: 0 < i < |done| ==> !done[i].TodoVerified?)
  {
    TodoThenNotify(c, release, source, hasRow, e.w);
  }

  /** However executions fail or crash: whatever is attempted or started has a verified todo before it in
      its own execution. */
  lemma TodoComesFirst(c: Catalog, release: RowId, source: Id, hasRow: bool, e: Execution, i: nat)
    requires i < |Done(c, release, source, hasRow, e)| && !Done(c, release, source, hasRow, e)[i].TodoVerified?
    ensures i > 0 && Done(c, release, source, hasRow, e)[0] == TodoVerified(release)
  {
    DoneIsPrefix(c, release, source, hasRow, e);
  }

  lemma {:induction false} DistinctCount(s: seq<Effect>, x: Effect)
    requires Distinct(s)
    ensures multiset(s)[x] == if x in s then 1 else 0
  {
    if s != [] {
      var front, last := s[..|s| - 1], s[|s| - 1];
      assert s == front + [last];
      DistinctCount(front, x);
    }
  }

  /** Every execution so far did its todo at most. */
  ghost predicate OnlyTodos(c: Catalog, release: RowId, source: Id, hasRow: bool, es: seq<Execution>) {
    forall i :: 0 <= i < |es| ==> |Done(c, release, source, hasRow, es[i])| <= 1
  }

  /** No place of the list is attempted twice and no run started twice. */
  ghost predicate NothingTwice(effects: seq<Effect>) {
    forall x: Effect :: x.TodoVerified? || multiset(effects)[x] <= 1
  }

  lemma {:induction false} OnlyTodosDone(c: Catalog, release: RowId, source: Id, hasRow: bool, es: seq<Execution>,
      x: Effect)
    requires OnlyTodos(c, release, source, hasRow, es) && !x.TodoVerified?
    ensures x !in AllDone(c, release, source, hasRow, es)
    decreases |es|
  {
    if es != [] {
      var front, last := es[..|es| - 1], es[|es| - 1];
      forall i | 0 <= i < |front| ensures |Done(c, release, source, hasRow, front[i])| <= 1 {
        assert front[i] == es[i];
      }
      OnlyTodosDone(c, release, source, hasRow, front, x);
      DoneIsPrefix(c, release, source, hasRow, last);
      assert |Done(c, release, source, hasRow, last)| <= 1;
    }
  }

  /** What an execution did is among what all of them did. */
  lemma {:induction false} DoneIsAmong(c: Catalog, release: RowId, source: Id, hasRow: bool, es: seq<Execution>,
      i: nat, x: Effect)
    requires i < |es| && x in Done(c, release, source, hasRow, es[i])
    ensures x in AllDone(c, release, source, hasRow, es)
    decreases |es|
  {
    if i < |es| - 1 { DoneIsAmong(c, release, source, hasRow, es[..|es| - 1], i, x); }
  }

  lemma AllDoneAppend(c: Catalog, release: RowId, source: Id, hasRow: bool, es: seq<Execution>, e: Execution)
    ensures AllDone(c, release, source, hasRow, es + [e])
            == AllDone(c, release, source, hasRow, es) + Done(c, release, source, hasRow, e)
  {
    assert (es + [e])[..|es|] == es;
  }

  /** A job that has been repeated so far will attempt every place at most once, and start at most one run,
      however it goes on next, if and only if no execution so far got as far as an attempt or a run. */
  lemma NotifiesOnceIff(c: Catalog, release: RowId, source: Id, hasRow: bool, es: seq<Execution>)
    requires forall i :: 0 <= i < |es| ==> Repeated(c, release, source, hasRow, es[i])
    ensures (forall next :: NothingTwice(AllDone(c, release, source, hasRow, es + [next])))
            <==> OnlyTodos(c, release, source, hasRow, es)
  {
    if OnlyTodos(c, release, source, hasRow, es) {
      forall next ensures NothingTwice(AllDone(c, release, source, hasRow, es + [next])) {
        LastNotifies(c, release, source, hasRow, es, next);
      }
    }
    forall i | 0 <= i < |es| && |Done(c, release, source, hasRow, es[i])| > 1
      ensures !NothingTwice(AllDone(c, release, source, hasRow, es + [es[i].(crash := None)]))
    {
      CrashNotifiesTwice(c, release, source, hasRow, es, i);
    }
  }

  lemma LastNotifies(c: Catalog, release: RowId, source: Id, hasRow: bool, es: seq<Execution>, next: Execution)
    requires OnlyTodos(c, release, source, hasRow, es)
    ensures NothingTwice(AllDone(c, release, source, hasRow, es + [next]))
  {
    var before, done := AllDone(c, release, source, hasRow, es), Done(c, release, source, hasRow, next);
    AllDoneAppend(c, release, source, hasRow, es, next);
    DoneIsPrefix(c, release, source, hasRow, next);
    forall x: Effect | !x.TodoVerified? ensures multiset(before + done)[x] <= 1 {
      OnlyTodosDone(c, release, source, hasRow, es, x);
      DistinctCount(done, x);
      assert multiset(before + done)[x] == multiset(before)[x] + multiset(done)[x];
    }
  }

  /** An execution that crashed after an attempt or a run is followed, if nothing goes wrong, by one that
      repeats it. */
  lemma CrashNotifiesTwice(c: Catalog, release: RowId, source: Id, hasRow: bool, es: seq<Execution>, i: nat)
    requires i < |es| && |Done(c, release, source, hasRow, es[i])| > 1
    ensures !NothingTwice(AllDone(c, release, source, hasRow, es + [es[i].(crash := None)]))
  {
    var next := es[i].(crash := None);
    var before, first, done := AllDone(c, release, source, hasRow, es), Done(c, release, source, hasRow, es[i]),
        Done(c, release, source, hasRow, next);
    var x := first[1];
    AllDoneAppend(c, release, source, hasRow, es, next);
    DoneIsPrefix(c, release, source, hasRow, es[i]);
    assert x == done[1] && x in done && x in first;
    DoneIsAmong(c, release, source, hasRow, es, i, x);
    assert multiset(before + done)[x] == multiset(before)[x] + multiset(done)[x] >= 2;
  }

  /** So reported errors alone never repeat a notification or a run. */
  lemma ErrorsNotifyOnce(c: Catalog, release: RowId, source: Id, hasRow: bool, es: seq<Execution>, next: Execution)
    requires forall i :: 0 <= i < |es| ==> es[i].crash.None? && Fails(c, release, source, hasRow, es[i].w)
    ensures NothingTwice(AllDone(c, release, source, hasRow, es + [next]))
  {
    forall i | 0 <= i < |es| ensures |Done(c, release, source, hasRow, es[i])| <= 1 {
      TodoThenNotify(c, release, source, hasRow, es[i].w);
    }
    LastNotifies(c, release, source, hasRow, es, next);
  }

  // ---- the code --------------------------------------------------------------------------------

  class NotifyWorker {
    const catalog: Catalog
    const todos: T.TodoStore
    var effects: seq<Effect>

    constructor (catalog: Catalog, todos: T.TodoStore)
      ensures this.catalog == catalog && this.todos == todos && effects == []
    {
      this.catalog, this.todos, effects := catalog, todos, [];
    }

    /** Its effects are exactly those of Effects; the todo of the release is there whenever anything
        was attempted, and a filtered release leaves no trace. */
    method Work(release: RowId, source: Id, w: World) returns (err: bool)
      requires todos.Ok()
      modifies this`effects, todos
      ensures todos.Ok() && (err <==> Fails(catalog, release, source, release in todos.releases, w))
      ensures effects == old(effects) + Effects(catalog, release, source, release in todos.releases, w)
      ensures var known := release in catalog.releases && source in catalog.sources;
        var passes := known && LetThrough(catalog, catalog.releases[release], catalog.sources[source]);
        && (err <==> w.loadFails || !known || (passes && (w.todo != Ok || release !in todos.releases || w.listFails)))
        && (!err && passes ==> old(effects) <= effects
                               && Notified(catalog, release, source, w, effects[|old(effects)|..]))
        && (!err && !passes ==> effects == old(effects))
        && (err ==> effects == old(effects) || effects == old(effects) + [TodoVerified(release)])
      ensures Filtered(catalog, release, source) ==> todos.todos == old(todos.todos)
      ensures effects != old(effects) ==> T.HasTodo(todos.Contents(), release)
    {
      ghost var hasRow := release in todos.releases;
      if release in catalog.releases && source in catalog.sources { FilteredIff(catalog, release, source); }
      if w.loadFails { return true; }
      if release !in catalog.releases || source !in catalog.sources { return true; }
      var r, s := catalog.releases[release], catalog.sources[source];
      if !VersionPassesFilter(r.version, s.incl, s.excl, catalog.regex) { return false; }
      if s.excludePrereleases && r.prerelease { return false; }

      var todoId, todoErr := todos.CreateReleaseTodo(release, w.todo);
      if todoErr { return true; }
      effects := effects + [TodoVerified(release)];

      if w.listFails { return true; }
      var subs := Subscriptions(catalog, source);
      SendAll(subs, w.unloadable);
      CheckRules(release, source, w);
      EffectsNotify(catalog, release, source, hasRow, w);
      return false;
    }

    /** Whether a send succeeds is only logged. */
    method SendAll(subs: seq<Id>, unloadable: set<nat>)
      modifies this`effects
      ensures effects == old(effects) + Attempts(catalog, subs, unloadable)
    {
      var i := 0;
      while i < |subs|
        invariant 0 <= i <= |subs|
        invariant effects == old(effects) + Attempts(catalog, subs[..i], unloadable)
      {
        assert subs[..i + 1][..i] == subs[..i] && subs[..i + 1][i] == subs[i];
        if i !in unloadable { Deliver(i, subs[i]); }
        i := i + 1;
      }
      assert subs[..i] == subs;
    }

    /** The body of the loop for a channel that loads. */
    method Deliver(place: nat, channel: Id)
      modifies this`effects
      ensures effects == old(effects) + if Deliverable(catalog, channel) then [Attempt(place, channel)] else []
    {
      if channel in catalog.channels && catalog.channels[channel].kind in catalog.senders {
        effects := effects + [Attempt(place, channel)];
      }
    }

    /** A project with an enabled gate is left to the gate workers. Every error only skips the rules. */
    method CheckRules(release: RowId, source: Id, w: World)
      requires release in catalog.releases && source in catalog.sources
      modifies this`effects
      ensures effects == old(effects) + Runs(catalog, release, source, w)
    {
      if w.rulesFail { return; }
      var project, version := catalog.sources[source].project, catalog.releases[release].version;
      if project in catalog.gated { return; }
      if project !in catalog.rules { return; }
      var previous := if source in catalog.previous then catalog.previous[source] else "";
      if R.CheckAgentRules(Some(catalog.rules[project]), version, previous,
                           (pattern, v) => catalog.regex(pattern, v) == Some(true)) {
        if w.run != NotApplied { effects := effects + [AutoRun(project, version)]; }
      }
    }
  }
}
