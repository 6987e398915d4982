/** No row is pending for good: sweeps after its deadline open it, whatever it still waits for. */
module GateTimeouts {
  import opened Common
  import opened GateModel
  import opened GateInvariant
  import opened GateTheorems
  import opened GateSweep

  /** The row as a sweep leaves it. */
  ghost predicate TimedOutAt(r: Row, r': Row, now: int) {
    r' == r.(status := TimedOut, openedAt := Some(now), triggered := true)
  }

  /** From every reachable state without jobs, at any clock behind the deadline of a pending row, one sweep
      opens it and enqueues its one run, whatever is missing and whatever answer was saved. */
  lemma PendingTimesOut(c: Config, t0: int, acts0: seq<Action>, s: Sys, k: Key, late: int)
    returns (acts: seq<Action>, s': Sys)
    requires Run(c, Initial(t0), acts0, s) && s.jobs == map[]
    requires k in s.rows && s.rows[k].status == Pending && s.rows[k].timeoutAt < late && s.now <= late
    ensures Run(c, s, acts, s') && s'.jobs == map[] && s'.now == late
    ensures s'.rows.Keys == s.rows.Keys && TimedOutAt(s.rows[k], s'.rows[k], late)
    ensures forall x :: x in s.rows && x != k ==> s'.rows[x] == s.rows[x]
    ensures s'.runs == s.runs + [AgentRun(k.project, k.version, GateTimeout(k.version))] && GateRuns(s'.runs, k) == 1
  {
    AtMostOneRun(c, t0, acts0, s, k);
    acts, s' := OneSweepJob(c, s, 0, 1, late, [k]);
    GateRunsAppend(s.runs, AgentRun(k.project, k.version, GateTimeout(k.version)), k);
    assert TimeoutRuns([k]) == [AgentRun(k.project, k.version, GateTimeout(k.version))];
  }

  // ---- whole backlogs --------------------------------------------------------------------------

  lemma {:induction false} PageFrom(rows: Rows, due: set<Key>, limit: nat) returns (keys: seq<Key>)
    requires due <= rows.Keys
    ensures Distinct(keys) && (forall k :: k in keys ==> k in due)
    ensures |keys| == (if |due| <= limit then |due| else limit) && EarliestFirst(rows, keys)
    ensures forall a, k :: a in due && a !in keys && k in keys ==> rows[k].timeoutAt <= rows[a].timeoutAt
    decreases limit
  {
    if limit == 0 || due == {} {
      keys := [];
    } else {
      var first := EarliestOf(rows, due);
      var rest := PageFrom(rows, due - {first}, limit - 1);
      keys := [first] + rest;
    }
  }

  lemma {:induction false} EarliestOf(rows: Rows, due: set<Key>) returns (best: Key)
    requires due <= rows.Keys && due != {}
    ensures best in due && forall k :: k in due ==> rows[best].timeoutAt <= rows[k].timeoutAt
    decreases due
  {
    var a :| a in due;
    best := a;
    if due != {a} {
      var b := EarliestOf(rows, due - {a});
      if rows[b].timeoutAt < rows[a].timeoutAt { best := b; }
      forall k | k in due ensures rows[best].timeoutAt <= rows[k].timeoutAt { assert k == a || k in due - {a}; }
    }
  }

  /** m sweeps at one time, each with the page the query returns. */
  lemma {:induction false} SweepsExist(rows: Rows, late: int, m: nat)
    returns (times: seq<int>, pages: seq<seq<Key>>, rows': Rows)
    ensures Sweeps(rows, times, pages, rows') && |pages| == m && forall i :: 0 <= i < |times| ==> times[i] == late
    decreases m
  {
    if m == 0 {
      times, pages, rows' := [], [], rows;
    } else {
      var page := PageFrom(rows, ExpiredSet(rows, late), SWEEP_LIMIT);
      assert ExpiredSet(rows, late) - {} == ExpiredSet(rows, late);
      var ts, ps;
      ts, ps, rows' := SweepsExist(Swept(rows, page, late), late, m - 1);
      times, pages := [late] + ts, [page] + ps;
      assert times[1..] == ts && pages[1..] == ps;
    }
  }

  /** Sweeps leave every row as it was, or opened as timed out by one of them. */
  lemma {:induction false} SweepsTimeOut(rows: Rows, late: int, times: seq<int>, pages: seq<seq<Key>>, rows': Rows,
      k: Key)
    requires Sweeps(rows, times, pages, rows') && k in rows && forall i :: 0 <= i < |times| ==> times[i] == late
    ensures k in rows' && (rows'[k] == rows[k] || (rows[k].status == Pending && rows[k].timeoutAt < late
                                                   && TimedOutAt(rows[k], rows'[k], late)))
    decreases |pages|
  {
    if pages != [] {
      var mid := Swept(rows, pages[0], times[0]);
      PageColumns(rows, late, {}, SWEEP_LIMIT, pages[0]);
      forall i | 0 <= i < |times[1..]| ensures times[1..][i] == late { assert times[1..][i] == times[i + 1]; }
      SweepsTimeOut(mid, late, times[1..], pages[1..], rows', k);
    }
  }

  /** From every reachable state without jobs, at any clock: the undisturbed sweeps for a backlog, as many as
      there are pages of 100, open every pending row behind its deadline, each with one run, and touch no
      other row. */
  lemma AllTimeOut(c: Config, t0: int, acts0: seq<Action>, s: Sys, late: int, m: nat)
    returns (acts: seq<Action>, s': Sys)
    requires Run(c, Initial(t0), acts0, s) && s.jobs == map[] && s.now <= late
    requires 100 * m >= |set k | k in s.rows && s.rows[k].status == Pending && s.rows[k].timeoutAt < late|
    ensures Run(c, s, acts, s') && s'.jobs == map[] && s'.rows.Keys == s.rows.Keys
    ensures forall k :: k in s.rows ==>
      if s.rows[k].status == Pending && s.rows[k].timeoutAt < late
      then TimedOutAt(s.rows[k], s'.rows[k], late) && GateRuns(s'.runs, k) == 1
      else s'.rows[k] == s.rows[k]
  {
    var times, pages, rows' := SweepsExist(s.rows, late, m);
    acts, s' := SweepJobs(c, s, 0, 1, times, pages, rows');
    RunConcat(c, Initial(t0), acts0, s, acts, s');
    NothingLeft(s.rows, late, times, pages, rows');
    forall k | k in s.rows
      ensures if s.rows[k].status == Pending && s.rows[k].timeoutAt < late
              then TimedOutAt(s.rows[k], s'.rows[k], late) && GateRuns(s'.runs, k) == 1
              else s'.rows[k] == s.rows[k]
    {
      SweepsTimeOut(s.rows, late, times, pages, rows', k);
      assert k !in ExpiredSet(rows', late);
      AtMostOneRun(c, t0, acts0 + acts, s', k);
    }
  }

  lemma NothingLeft(rows: Rows, late: int, times: seq<int>, pages: seq<seq<Key>>, rows': Rows)
    requires Sweeps(rows, times, pages, rows') && forall i :: 0 <= i < |times| ==> times[i] == late
    requires 100 * |pages| >= |set k | k in rows && rows[k].status == Pending && rows[k].timeoutAt < late|
    ensures rows'.Keys == rows.Keys && ExpiredSet(rows', late) == {}
  {
    assert (set k | k in rows && rows[k].status == Pending && rows[k].timeoutAt < late) == ExpiredSet(rows, late);
    BacklogAfter(rows, late, times, pages, rows');
    SweepsKeepKeys(rows, times, pages, rows');
  }

  lemma {:induction false} SweepsKeepKeys(rows: Rows, times: seq<int>, pages: seq<seq<Key>>, rows': Rows)
    requires Sweeps(rows, times, pages, rows')
    ensures rows'.Keys == rows.Keys
    decreases |pages|
  {
    if pages != [] { SweepsKeepKeys(Swept(rows, pages[0], times[0]), times[1..], pages[1..], rows'); }
  }
}
