/** The timeout sweep: which rows a page holds, and how many sweeps clear a backlog. */
module GateSweep {
  import opened Common
  import opened GateModel

  function ExpiredSet(rows: Rows, now: int): set<Key> {
    set k | k in rows && Expired(rows, k, now)
  }

  ghost predicate EarliestFirst(rows: Rows, keys: seq<Key>)
    requires forall x :: x in keys ==> x in rows
  {
    forall i, j :: 0 <= i < j < |keys| ==> rows[keys[i]].timeoutAt <= rows[keys[j]].timeoutAt
  }

  /** What the query of ListExpiredGates returns when `locked` rows are skipped: up to `limit` expired
      rows, earliest deadline first, and none left out that is due before one returned. */
  ghost predicate IsPage(rows: Rows, now: int, locked: set<Key>, limit: nat, keys: seq<Key>) {
    var due := ExpiredSet(rows, now) - locked;
    && Distinct(keys) && (forall k :: k in keys ==> k in due)
    && |keys| == (if |due| <= limit then |due| else limit)
    && EarliestFirst(rows, keys)
    && (forall a, k :: a in due && a !in keys && k in keys ==> rows[k].timeoutAt <= rows[a].timeoutAt)
  }

  /** ORDER BY timeout_at, LIMIT: repeatedly take a row with the earliest deadline. */
  method SelectPage(rows: Rows, now: int, locked: set<Key>, limit: nat) returns (keys: seq<Key>)
    ensures IsPage(rows, now, locked, limit, keys)
    ensures |keys| <= limit && forall k :: k in keys ==>
              k in rows && k !in locked && rows[k].status == Pending && rows[k].timeoutAt < now
    ensures |keys| < limit ==>
            forall k | k in rows && k !in locked && rows[k].status == Pending && rows[k].timeoutAt < now :: k in keys
  {
    var due := ExpiredSet(rows, now) - locked;
    var left := due;
    keys := [];
    while left != {} && |keys| < limit
      invariant left <= due && |keys| <= limit && |keys| + |left| == |due|
      invariant Distinct(keys) && forall k :: k in keys <==> k in due - left
      invariant EarliestFirst(rows, keys)
      invariant forall a, k :: a in left && k in keys ==> rows[k].timeoutAt <= rows[a].timeoutAt
    {
      var k := Earliest(rows, left);
      DistinctAppend(keys, k);
      keys := keys + [k];
      left := left - {k};
    }
    PageColumns(rows, now, locked, limit, keys);
  }

  /** A page in the columns of the table: pending rows past their deadline that are not locked; all of them,
      when the page is shorter than the limit. */
  lemma PageColumns(rows: Rows, now: int, locked: set<Key>, limit: nat, keys: seq<Key>)
    requires IsPage(rows, now, locked, limit, keys)
    ensures |keys| <= limit && forall k :: k in keys ==>
              k in rows && k !in locked && rows[k].status == Pending && rows[k].timeoutAt < now
    ensures |keys| < limit ==>
            forall k | k in rows && k !in locked && rows[k].status == Pending && rows[k].timeoutAt < now :: k in keys
  {
    var due, page := ExpiredSet(rows, now) - locked, set k | k in keys;
    if |keys| < limit {
      DistinctSize(keys);
      SubsetOfSameSize(page, due);
      assert forall k | k in rows && k !in locked && rows[k].status == Pending && rows[k].timeoutAt < now :: k in due;
    }
  }

  lemma {:induction false} SubsetOfSameSize(a: set<Key>, b: set<Key>)
    requires a <= b && |a| == |b|
    ensures a == b
  {
    if x :| x in b && x !in a { assert a <= b - {x} && |b - {x}| < |a|; SubsetSize(a, b - {x}); }
  }

  lemma {:induction false} SubsetSize(a: set<Key>, b: set<Key>)
    requires a <= b
    ensures |a| <= |b|
    decreases a
  {
    if a != {} {
      var x :| x in a;
      SubsetSize(a - {x}, b - {x});
    }
  }

  method Earliest(rows: Rows, keys: set<Key>) returns (best: Key)
    requires keys != {} && keys <= rows.Keys
    ensures best in keys && forall k :: k in keys ==> rows[best].timeoutAt <= rows[k].timeoutAt
  {
    best :| best in keys;
    var left := keys - {best};
    while left != {}
      invariant left <= keys && best in keys
      invariant forall k :: k in keys - left ==> rows[best].timeoutAt <= rows[k].timeoutAt
      decreases left
    {
      var k :| k in left;
      if rows[k].timeoutAt < rows[best].timeoutAt { best := k; }
      left := left - {k};
    }
  }

  /** The rows after a sweep that met no error and no competitor. */
  function Swept(rows: Rows, keys: seq<Key>, now: int): Rows
    requires forall k :: k in keys ==> k in rows
  {
    map k | k in rows :: if k in keys then OpenRow(rows[k], TimedOut, now).(triggered := true) else rows[k]
  }

  /** A sweep clears exactly its page. */
  lemma SweepClearsPage(rows: Rows, keys: seq<Key>, now: int, later: int)
    requires IsPage(rows, now, {}, SWEEP_LIMIT, keys)
    ensures ExpiredSet(Swept(rows, keys, now), later) == ExpiredSet(rows, later) - (set k | k in keys)
    ensures forall k :: k in keys ==> Swept(rows, keys, now)[k].status == TimedOut
  {
    assert forall k :: k in keys ==> Expired(rows, k, now);
  }

  /** Sweep i happens at times[i] and takes pages[i]; `rows` is the table it starts from. */
  ghost predicate Sweeps(rows: Rows, times: seq<int>, pages: seq<seq<Key>>, rows': Rows)
    decreases |pages|
  {
    |times| == |pages| &&
    if pages == [] then rows' == rows
    else
      && IsPage(rows, times[0], {}, SWEEP_LIMIT, pages[0])
      && Sweeps(Swept(rows, pages[0], times[0]), times[1..], pages[1..], rows')
  }

  /** No row expires during the sweeps that had not expired at `now`. */
  ghost predicate NoNewExpirations(rows: Rows, now: int, times: seq<int>) {
    forall i :: 0 <= i < |times| ==> ExpiredSet(rows, times[i]) == ExpiredSet(rows, now)
  }

  lemma NoNewAfterSweep(rows: Rows, now: int, times: seq<int>, keys: seq<Key>)
    requires times != [] && IsPage(rows, times[0], {}, SWEEP_LIMIT, keys) && NoNewExpirations(rows, now, times)
    ensures NoNewExpirations(Swept(rows, keys, times[0]), now, times[1..])
    ensures ExpiredSet(Swept(rows, keys, times[0]), now) == ExpiredSet(rows, now) - (set k | k in keys)
    ensures ExpiredSet(rows, times[0]) == ExpiredSet(rows, now)
  {
    var mid := Swept(rows, keys, times[0]);
    SweepClearsPage(rows, keys, times[0], now);
    forall i | 0 <= i < |times[1..]| ensures ExpiredSet(mid, times[1..][i]) == ExpiredSet(mid, now) {
      SweepClearsPage(rows, keys, times[0], times[1..][i]);
      assert times[1..][i] == times[i + 1];
    }
  }

  function Backlog(n: nat, sweeps: nat): nat {
    if n <= SWEEP_LIMIT * sweeps then 0 else n - SWEEP_LIMIT * sweeps
  }

  /** After m sweeps all but the first 100 m of the n expired rows are cleared. */
  lemma {:induction false} BacklogAfter(rows: Rows, now: int, times: seq<int>, pages: seq<seq<Key>>, rows': Rows)
    requires Sweeps(rows, times, pages, rows') && NoNewExpirations(rows, now, times)
    ensures |ExpiredSet(rows', now)| == Backlog(|ExpiredSet(rows, now)|, |pages|)
    decreases |pages|
  {
    if pages != [] {
      var mid := Swept(rows, pages[0], times[0]);
      var page := set k | k in pages[0];
      NoNewAfterSweep(rows, now, times, pages[0]);
      DistinctSize(pages[0]);
      assert page <= ExpiredSet(rows, now);
      assert |ExpiredSet(mid, now)| == |ExpiredSet(rows, now)| - |page|;
      BacklogAfter(mid, now, times[1..], pages[1..], rows');
    }
  }

  /** n expired rows are cleared by ceil(n / 100) sweeps and by no fewer. */
  lemma ClearedExactlyWhen(rows: Rows, now: int, times: seq<int>, pages: seq<seq<Key>>, rows': Rows)
    requires Sweeps(rows, times, pages, rows') && NoNewExpirations(rows, now, times)
    ensures ExpiredSet(rows', now) == {} <==> 100 * |pages| >= |ExpiredSet(rows, now)|
  {
    BacklogAfter(rows, now, times, pages, rows');
    assert |ExpiredSet(rows', now)| == 0 <==> ExpiredSet(rows', now) == {};
  }

  /** Whatever is cleared in the first sweep was due no later than whatever is cleared afterwards; by
      the recursion of Sweeps the same holds of every later sweep. */
  lemma {:induction false} EarliestDeadlinesFirst(rows: Rows, now: int, times: seq<int>, pages: seq<seq<Key>>,
      rows': Rows, i: nat, j: nat, a: Key, b: Key)
    requires Sweeps(rows, times, pages, rows') && NoNewExpirations(rows, now, times)
    requires i < j < |pages| && a in pages[i] && b in pages[j]
    ensures a in rows && b in rows && rows[a].timeoutAt <= rows[b].timeoutAt
    decreases |pages|
  {
    if i == 0 {
      FirstSweepIsEarliest(rows, now, times, pages, rows', j, a, b);
    } else {
      NoNewAfterSweep(rows, now, times, pages[0]);
      SweptKeepsDeadlines(rows, pages[0], times[0]);
      EarliestDeadlinesFirst(Swept(rows, pages[0], times[0]), now, times[1..], pages[1..], rows', i - 1, j - 1, a, b);
    }
  }

  lemma FirstSweepIsEarliest(rows: Rows, now: int, times: seq<int>, pages: seq<seq<Key>>, rows': Rows, j: nat, a: Key,
      b: Key)
    requires Sweeps(rows, times, pages, rows') && NoNewExpirations(rows, now, times)
    requires 0 < j < |pages| && a in pages[0] && b in pages[j]
    ensures a in rows && b in rows && rows[a].timeoutAt <= rows[b].timeoutAt
  {
    NoNewAfterSweep(rows, now, times, pages[0]);
    DueInPage(Swept(rows, pages[0], times[0]), now, times[1..], pages[1..], rows', j - 1, b);
    FirstPageIsEarliest(rows, times[0], pages[0], a, b);
  }

  lemma SweptKeepsDeadlines(rows: Rows, keys: seq<Key>, now: int)
    requires forall k :: k in keys ==> k in rows
    ensures Swept(rows, keys, now).Keys == rows.Keys
    ensures forall k :: k in rows ==> Swept(rows, keys, now)[k].timeoutAt == rows[k].timeoutAt
  {
  }

  lemma FirstPageIsEarliest(rows: Rows, now: int, page: seq<Key>, a: Key, b: Key)
    requires IsPage(rows, now, {}, SWEEP_LIMIT, page) && a in page && b in ExpiredSet(rows, now) - set k | k in page
    ensures a in rows && b in rows && rows[a].timeoutAt <= rows[b].timeoutAt
  {
    assert b in ExpiredSet(rows, now) - {} && a in ExpiredSet(rows, now) - {};
  }

  lemma {:induction false} DueInPage(rows: Rows, now: int, times: seq<int>, pages: seq<seq<Key>>, rows': Rows, j: nat,
      b: Key)
    requires Sweeps(rows, times, pages, rows') && NoNewExpirations(rows, now, times)
    requires j < |pages| && b in pages[j]
    ensures b in ExpiredSet(rows, now)
    decreases |pages|
  {
    if j > 0 {
      var mid := Swept(rows, pages[0], times[0]);
      NoNewAfterSweep(rows, now, times, pages[0]);
      DueInPage(mid, now, times[1..], pages[1..], rows', j - 1, b);
    }
  }

  // ---- the sweep job, alone and without errors ---------------------------------------------

  function TimeoutRuns(keys: seq<Key>): seq<AgentRun> {
    if keys == [] then []
    else [AgentRun(keys[0].project, keys[0].version, GateTimeout(keys[0].version))] + TimeoutRuns(keys[1..])
  }

  function Undisturbed(newId: JobId): Outcome { Outcome(Ok, false, [], newId) }

  /** One turn of the loop: open, enqueue, mark. */
  lemma OneRow(c: Config, s: Sys, id: JobId, k: Key, rest: seq<Key>, free: JobId) returns (acts: seq<Action>, s': Sys)
    requires id in s.jobs && free !in s.jobs && s.jobs[id] == Sweep(SwLooping([k] + rest)) && CanOpen(s, k)
    ensures Run(c, s, acts, s')
    ensures s'.jobs == s.jobs[id := Sweep(SwLooping(rest))] && s'.now == s.now
    ensures s'.rows == s.rows[k := OpenRow(s.rows[k], TimedOut, s.now).(triggered := true)]
    ensures s'.runs == s.runs + [AgentRun(k.project, k.version, GateTimeout(k.version))]
  {
    var a := Advance(id, Undisturbed(free));
    assert ([k] + rest)[1..] == rest;
    var s1 := Apply(c, s, a);
    var s2 := Apply(c, s1, a);
    s' := Apply(c, s2, a);
    acts := [a, a, a];
    assert Run(c, s2, [a], s') by { assert Run(c, s', [], s'); assert [a][1..] == []; }
    assert Run(c, s1, [a, a], s') by { assert [a, a][1..] == [a]; }
    assert acts[1..] == [a, a];
  }

  /** A sweep job that meets no error and no competitor turns the table into Swept, enqueues one run
      per row of its page, in order, and ends. */
  lemma {:induction false} SweepAlone(c: Config, s: Sys, id: JobId, todo: seq<Key>, free: JobId)
    returns (acts: seq<Action>, s': Sys)
    requires id in s.jobs && free !in s.jobs && s.jobs[id] == Sweep(SwLooping(todo))
    requires Distinct(todo) && forall k :: k in todo ==> k in s.rows && CanOpen(s, k)
    ensures Run(c, s, acts, s')
    ensures s'.rows == Swept(s.rows, todo, s.now)
    ensures s'.runs == s.runs + TimeoutRuns(todo) && s'.jobs == s.jobs[id := Sweep(SwDone)] && s'.now == s.now
    decreases |todo|
  {
    if todo == [] {
      var a := Advance(id, Undisturbed(free));
      s' := Apply(c, s, a);
      acts := [a];
      assert Run(c, s', [], s') && [a][1..] == [];
    } else {
      var k, rest := todo[0], todo[1..];
      assert todo == [k] + rest;
      var acts1, s1 := OneRow(c, s, id, k, rest, free);
      forall x | x in rest ensures x in s1.rows && CanOpen(s1, x) { assert x in todo && x != k; }
      var acts2, s2 := SweepAlone(c, s1, id, rest, free);
      RunConcat(c, s, acts1, s1, acts2, s2);
      acts, s' := acts1 + acts2, s2;
      SweptStep(s.rows, k, rest, s.now);
    }
  }

  lemma SweptStep(rows: Rows, k: Key, rest: seq<Key>, now: int)
    requires k in rows && k !in rest && forall x :: x in rest ==> x in rows
    ensures Swept(rows[k := OpenRow(rows[k], TimedOut, now).(triggered := true)], rest, now)
            == Swept(rows, [k] + rest, now)
  {
    assert forall x :: x in [k] + rest <==> x == k || x in rest;
  }

  // ---- a series of sweep jobs --------------------------------------------------------------

  /** A sweep job up to the end of its listing. */
  lemma SweepLists(c: Config, s: Sys, id: JobId, page: seq<Key>, free: JobId) returns (acts: seq<Action>, s': Sys)
    requires id !in s.jobs && free !in s.jobs && free != id && SweepListOk(s, page)
    ensures Run(c, s, acts, s') && s' == Put(s, id, Sweep(SwLooping(page)))
  {
    var submit, list := Submit(id, Sweep(SwQueued)), Advance(id, Outcome(Ok, false, page, free));
    var s1 := Apply(c, s, submit);
    s' := Apply(c, s1, list);
    acts := [submit, list];
    assert Run(c, s1, [list], s') by { assert Run(c, s', [], s'); assert [list][1..] == []; }
    assert acts[1..] == [list];
    assert s'.jobs == s.jobs[id := Sweep(SwLooping(page))];
  }

  lemma SweepCompletes(c: Config, s: Sys, id: JobId) returns (acts: seq<Action>, s': Sys)
    requires id in s.jobs && s.jobs[id] == Sweep(SwDone)
    ensures Run(c, s, acts, s') && s' == s.(jobs := s.jobs - {id})
  {
    s' := Apply(c, s, Complete(id));
    acts := [Complete(id)];
    assert Run(c, s', [], s') && acts[1..] == [];
  }

  lemma PageCanBeListed(s: Sys, page: seq<Key>)
    requires IsPage(s.rows, s.now, {}, SWEEP_LIMIT, page)
    ensures SweepListOk(s, page)
  {
    assert forall k :: k in page ==> k in ExpiredSet(s.rows, s.now);
  }

  /** The timer submits a sweep job at the given time; it runs alone and is forgotten. */
  lemma OneSweepJob(c: Config, s: Sys, id: JobId, free: JobId, time: int, page: seq<Key>)
    returns (acts: seq<Action>, s': Sys)
    requires id !in s.jobs && free !in s.jobs && free != id && s.now <= time && SweepListOk(s.(now := time), page)
    ensures Run(c, s, acts, s') && s'.jobs == s.jobs && s'.now == time
    ensures (forall k :: k in page ==> k in s.rows) && s'.rows == Swept(s.rows, page, time)
            && s'.runs == s.runs + TimeoutRuns(page)
  {
    var s1 := Apply(c, s, Tick(time));
    acts := [Tick(time)];
    assert Run(c, s1, [], s1) && acts[1..] == [];
    var acts2;
    acts2, s' := ListedSweep(c, s1, id, free, page);
    RunConcat(c, s, acts, s1, acts2, s');
    acts := acts + acts2;
  }

  lemma ListedSweep(c: Config, s: Sys, id: JobId, free: JobId, page: seq<Key>) returns (acts: seq<Action>, s': Sys)
    requires id !in s.jobs && free !in s.jobs && free != id && SweepListOk(s, page)
    ensures Run(c, s, acts, s') && s'.jobs == s.jobs && s'.now == s.now
    ensures (forall k :: k in page ==> k in s.rows) && s'.rows == Swept(s.rows, page, s.now)
            && s'.runs == s.runs + TimeoutRuns(page)
  {
    acts, s' := SweepLists(c, s, id, page, free);
    var acts2, s2 := SweepAlone(c, s', id, page, free);
    RunConcat(c, s, acts, s', acts2, s2);
    var acts3, s3 := SweepCompletes(c, s2, id);
    RunConcat(c, s, acts + acts2, s2, acts3, s3);
    acts, s' := acts + acts2 + acts3, s3;
    assert s'.jobs == s.jobs;
  }

  function AllTimeoutRuns(pages: seq<seq<Key>>): seq<AgentRun> {
    if pages == [] then [] else TimeoutRuns(pages[0]) + AllTimeoutRuns(pages[1..])
  }

  ghost predicate Later(now: int, times: seq<int>) {
    && (forall i :: 0 <= i < |times| ==> now <= times[i])
    && (forall i, j :: 0 <= i < j < |times| ==> times[i] <= times[j])
  }

  /** Sweep jobs submitted one after the other, at any times, do to the table what Sweeps says. */
  lemma {:induction false} SweepJobs(c: Config, s: Sys, id: JobId, free: JobId, times: seq<int>, pages: seq<seq<Key>>,
      rows': Rows)
    returns (acts: seq<Action>, s': Sys)
    requires id !in s.jobs && free !in s.jobs && free != id && Later(s.now, times)
             && Sweeps(s.rows, times, pages, rows')
    ensures Run(c, s, acts, s') && s'.rows == rows' && s'.jobs == s.jobs && s'.runs == s.runs + AllTimeoutRuns(pages)
    decreases |pages|
  {
    if pages == [] {
      acts, s' := [], s;
    } else {
      LaterTail(s.now, times);
      PageCanBeListed(s.(now := times[0]), pages[0]);
      var acts1, s1 := OneSweepJob(c, s, id, free, times[0], pages[0]);
      var acts2, s2 := SweepJobs(c, s1, id, free, times[1..], pages[1..], rows');
      RunConcat(c, s, acts1, s1, acts2, s2);
      acts, s' := acts1 + acts2, s2;
      MoreTimeoutRuns(s.runs, pages);
    }
  }

  lemma LaterTail(now: int, times: seq<int>)
    requires Later(now, times) && times != []
    ensures now <= times[0] && Later(times[0], times[1..])
  {
    forall i | 0 <= i < |times[1..]| ensures times[0] <= times[1..][i] { assert times[1..][i] == times[i + 1]; }
  }

  lemma MoreTimeoutRuns(runs: seq<AgentRun>, pages: seq<seq<Key>>)
    requires pages != []
    ensures runs + TimeoutRuns(pages[0]) + AllTimeoutRuns(pages[1..]) == runs + AllTimeoutRuns(pages)
  {
  }

  lemma {:induction false} TimeoutRunsCount(page: seq<Key>)
    ensures |TimeoutRuns(page)| == |page|
  {
    if page != [] { TimeoutRunsCount(page[1..]); }
  }

  /** Every sweep enqueues as many runs as it clears rows. */
  lemma {:induction false} RunsMatchBacklog(rows: Rows, now: int, times: seq<int>, pages: seq<seq<Key>>, rows': Rows)
    requires Sweeps(rows, times, pages, rows') && NoNewExpirations(rows, now, times)
    ensures |AllTimeoutRuns(pages)| == |ExpiredSet(rows, now)| - |ExpiredSet(rows', now)|
    decreases |pages|
  {
    if pages != [] {
      var mid, page := Swept(rows, pages[0], times[0]), set k | k in pages[0];
      NoNewAfterSweep(rows, now, times, pages[0]);
      DistinctSize(pages[0]);
      TimeoutRunsCount(pages[0]);
      assert page <= ExpiredSet(rows, now);
      assert |ExpiredSet(mid, now)| == |ExpiredSet(rows, now)| - |page|;
      RunsMatchBacklog(mid, now, times[1..], pages[1..], rows');
    }
  }

  /** In the run of m sweep jobs, n expired rows are cleared if and only if m is at least ceil(n / 100), and
      one run has been enqueued for every row that was. */
  lemma JobsClearExactlyWhen(c: Config, s: Sys, id: JobId, free: JobId, now: int, times: seq<int>,
      pages: seq<seq<Key>>, rows': Rows)
    returns (acts: seq<Action>, s': Sys)
    requires id !in s.jobs && free !in s.jobs && free != id && Later(s.now, times)
    requires Sweeps(s.rows, times, pages, rows') && NoNewExpirations(s.rows, now, times)
    ensures Run(c, s, acts, s') && s'.rows == rows'
    ensures ExpiredSet(s'.rows, now) == {} <==> 100 * |pages| >= |ExpiredSet(s.rows, now)|
    ensures |s'.runs| - |s.runs| == |ExpiredSet(s.rows, now)| - |ExpiredSet(s'.rows, now)|
  {
    acts, s' := SweepJobs(c, s, id, free, times, pages, rows');
    ClearedExactlyWhen(s.rows, now, times, pages, rows');
    RunsMatchBacklog(s.rows, now, times, pages, rows');
  }
}
