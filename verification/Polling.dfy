/** The polling schedule: which sources a pass of the orchestrator polls, and how far apart. Times are
    nanoseconds on one clock that never goes back. */
module Polling {
  import opened Common

  type SourceId = string

  const NANOS: int := 1_000_000_000

  /** int64 multiplication. */
  function Wrap64(x: int): int { (x + 0x8000_0000_0000_0000) % 0x1_0000_0000_0000_0000 - 0x8000_0000_0000_0000 }

  /** time.Duration(seconds) * time.Second. */
  function Interval(seconds: int): int { Wrap64(seconds * NANOS) }

  /** The product never overflows for a 32-bit column, and first does at 9223372037 seconds. */
  lemma IntervalIsExactIff(seconds: int)
    ensures Interval(seconds) == seconds * NANOS <==> -9_223_372_036 <= seconds <= 9_223_372_036
    ensures -0x8000_0000 <= seconds < 0x8000_0000 ==> Interval(seconds) == seconds * NANOS
  {
    var x := seconds * NANOS;
    assert Wrap64(x) == x <==> -0x8000_0000_0000_0000 <= x < 0x8000_0000_0000_0000;
  }

  // ---- the passes of one source ------------------------------------------------------------------

  /** `stamp` is when the status update wrote last_polled_at; None when the update failed. */
  datatype Poll = Poll(start: int, stamp: Option<int>)

  /** One pass: the clock read at its beginning, and the poll of this source if it was due. */
  datatype Pass = Pass(now: int, poll: Option<Poll>)

  predicate Due(last: Option<int>, interval: int, now: int) {
    last == None || !(now < last.value + interval)
  }

  /** last_polled_at after these passes, no other poll intervening. */
  function LastPolled(first: Option<int>, passes: seq<Pass>): Option<int> {
    if passes == [] then first
    else
      var p := passes[|passes| - 1];
      if p.poll.Some? && p.poll.value.stamp.Some? then p.poll.value.stamp else LastPolled(first, passes[..|passes| - 1])
  }

  /** When the pass is over for this source. */
  function EndOf(p: Pass): int {
    match p.poll
    case None => p.now
    case Some(q) => if q.stamp.Some? then q.stamp.value else q.start
  }

  /** Pass i polls the source exactly when it is due, after reading the clock, and stamps it after
      polling it; passes follow one another. */
  ghost predicate PassOk(first: Option<int>, interval: int, passes: seq<Pass>, i: nat)
    requires i < |passes|
  {
    var p := passes[i];
    && (p.poll.Some? <==> Due(LastPolled(first, passes[..i]), interval, p.now))
    && (p.poll.Some? ==> p.now <= p.poll.value.start)
    && (p.poll.Some? && p.poll.value.stamp.Some? ==> p.poll.value.start <= p.poll.value.stamp.value)
    && (i > 0 ==> EndOf(passes[i - 1]) <= p.now)
  }

  ghost predicate Schedule(first: Option<int>, interval: int, passes: seq<Pass>) {
    forall i :: 0 <= i < |passes| ==> PassOk(first, interval, passes, i)
  }

  /** Pass i polled the source and its status update succeeded. */
  predicate Stamped(passes: seq<Pass>, i: nat) {
    i < |passes| && passes[i].poll.Some? && passes[i].poll.value.stamp.Some?
  }

  ghost predicate NoPollBetween(passes: seq<Pass>, i: nat, j: nat) {
    forall n :: i < n < j && n < |passes| ==> passes[n].poll == None
  }

  lemma {:induction false} LastIsStamp(first: Option<int>, passes: seq<Pass>, i: nat, j: nat)
    requires i < j <= |passes| && Stamped(passes, i) && NoPollBetween(passes, i, j)
    ensures LastPolled(first, passes[..j]) == passes[i].poll.value.stamp
    decreases j
  {
    assert passes[..j][..j - 1] == passes[..j - 1];
    if j > i + 1 {
      assert passes[j - 1].poll == None;
      LastIsStamp(first, passes, i, j - 1);
    }
  }

  /** Consecutive polls of a source start at least its interval apart, if the status update of the
      first one succeeded. */
  lemma PollsAreSpaced(first: Option<int>, interval: int, passes: seq<Pass>, i: nat, j: nat)
    requires Schedule(first, interval, passes)
    requires i < j < |passes| && Stamped(passes, i) && passes[j].poll.Some? && NoPollBetween(passes, i, j)
    ensures passes[j].poll.value.start - passes[i].poll.value.stamp.value >= interval
    ensures passes[j].poll.value.start - passes[i].poll.value.start >= interval
  {
    LastIsStamp(first, passes, i, j);
    assert PassOk(first, interval, passes, i) && PassOk(first, interval, passes, j);
  }

  /** A failed status update leaves the source due: the very next pass polls it again. */
  lemma UnstampedIsPolledAgain(first: Option<int>, interval: int, passes: seq<Pass>, i: nat)
    requires Schedule(first, interval, passes) && i + 1 < |passes|
    requires passes[i].poll.Some? && passes[i].poll.value.stamp == None
    ensures passes[i + 1].poll.Some?
  {
    var k := i + 1;
    assert PassOk(first, interval, passes, i) && PassOk(first, interval, passes, k);
    assert passes[..k][..i] == passes[..i];
    assert LastPolled(first, passes[..k]) == LastPolled(first, passes[..i]);
    assert EndOf(passes[i]) <= passes[k].now;
  }

  ghost predicate AtMostApart(passes: seq<Pass>, d: int) {
    forall i :: 0 < i < |passes| ==> passes[i].now - passes[i - 1].now <= d
  }

  /** If passes start at most d apart, the pass that polls the source next starts less than
      interval + d after last_polled_at. The interval has to be positive. */
  lemma NextPassIsPrompt(first: Option<int>, interval: int, d: int, passes: seq<Pass>, i: nat, j: nat)
    requires Schedule(first, interval, passes) && AtMostApart(passes, d) && interval > 0
    requires i < j < |passes| && Stamped(passes, i) && passes[j].poll.Some? && NoPollBetween(passes, i, j)
    ensures passes[j].now < passes[i].poll.value.stamp.value + interval + d
  {
    if j > i + 1 {
      LastIsStamp(first, passes, i, j - 1);
      assert PassOk(first, interval, passes, j - 1) && passes[j - 1].poll == None;
    } else {
      assert PassOk(first, interval, passes, i) && passes[i].now <= passes[i].poll.value.start;
    }
  }

  /** Once a pass starts an interval or more after last_polled_at it does poll the source. */
  lemma DuePassPolls(first: Option<int>, interval: int, passes: seq<Pass>, i: nat, j: nat)
    requires Schedule(first, interval, passes)
    requires i < j < |passes| && Stamped(passes, i) && NoPollBetween(passes, i, j)
    ensures passes[j].poll.Some? <==> passes[j].now >= passes[i].poll.value.stamp.value + interval
  {
    LastIsStamp(first, passes, i, j);
    assert PassOk(first, interval, passes, j);
  }

  /** The poll itself waits for the sources before it in the pass, but its pass ends before the next one
      starts: it starts less than interval + 2d after last_polled_at. */
  lemma NextPollIsPrompt(first: Option<int>, interval: int, d: int, passes: seq<Pass>, i: nat, j: nat)
    requires Schedule(first, interval, passes) && AtMostApart(passes, d) && interval > 0
    requires i < j && j + 1 < |passes| && Stamped(passes, i) && passes[j].poll.Some? && NoPollBetween(passes, i, j)
    ensures passes[j].poll.value.start < passes[i].poll.value.stamp.value + interval + 2 * d
  {
    NextPassIsPrompt(first, interval, d, passes, i, j);
    assert PassOk(first, interval, passes, j) && PassOk(first, interval, passes, j + 1);
    assert passes[j + 1].now - passes[j].now <= d;
  }

  // ---- the bounds are exact ----------------------------------------------------------------------

  /** One more pass, by what has to be checked about it. */
  ghost predicate CanFollow(first: Option<int>, interval: int, before: seq<Pass>, p: Pass) {
    && (p.poll.Some? <==> Due(LastPolled(first, before), interval, p.now))
    && (p.poll.Some? ==> p.now <= p.poll.value.start)
    && (p.poll.Some? && p.poll.value.stamp.Some? ==> p.poll.value.start <= p.poll.value.stamp.value)
    && (before != [] ==> EndOf(before[|before| - 1]) <= p.now)
  }

  lemma ExtendSchedule(first: Option<int>, interval: int, before: seq<Pass>, p: Pass)
    requires Schedule(first, interval, before) && CanFollow(first, interval, before, p)
    ensures Schedule(first, interval, before + [p])
  {
    var all := before + [p];
    forall i | 0 <= i < |all| ensures PassOk(first, interval, all, i) {
      assert all[..i] == before[..i];
      if i < |before| { assert PassOk(first, interval, before, i); } else { assert before[..i] == before; }
    }
  }

  lemma LastPolledAfter(first: Option<int>, before: seq<Pass>, p: Pass)
    ensures LastPolled(first, before + [p])
            == if p.poll.Some? && p.poll.value.stamp.Some? then p.poll.value.stamp else LastPolled(first, before)
  {
    assert (before + [p])[..|before|] == before;
  }

  /** The source is polled at 0 and not again up to time t, where a pass starts that does not poll it. */
  ghost predicate IdleUpTo(interval: int, d: int, passes: seq<Pass>, t: int) {
    && Schedule(None, interval, passes) && AtMostApart(passes, d)
    && passes != [] && passes[0] == Pass(0, Some(Poll(0, Some(0)))) && NoPollBetween(passes, 0, |passes|)
    && passes[|passes| - 1].now == t && LastPolled(None, passes) == Some(0)
  }

  lemma FirstPass(interval: int, d: int)
    ensures IdleUpTo(interval, d, [Pass(0, Some(Poll(0, Some(0))))], 0)
  {
    var p := Pass(0, Some(Poll(0, Some(0))));
    ExtendSchedule(None, interval, [], p);
    LastPolledAfter(None, [], p);
    assert [] + [p] == [p];
  }

  /** One more pass that does not poll. */
  lemma IdlePass(interval: int, d: int, passes: seq<Pass>, t: int, later: int)
    requires IdleUpTo(interval, d, passes, t) && 0 <= t <= later <= t + d && later < interval
    ensures IdleUpTo(interval, d, passes + [Pass(later, None)], later)
  {
    var p := Pass(later, None);
    assert EndOf(passes[|passes| - 1]) == t;
    ExtendSchedule(None, interval, passes, p);
    LastPolledAfter(None, passes, p);
  }

  lemma {:induction false} IdlesUpTo(interval: int, d: int, t: int) returns (passes: seq<Pass>)
    requires d > 0 && 0 <= t < interval
    ensures IdleUpTo(interval, d, passes, t)
    decreases t
  {
    if t == 0 {
      passes := [Pass(0, Some(Poll(0, Some(0))))];
      FirstPass(interval, d);
    } else {
      var before := if t > d then t - d else 0;
      passes := IdlesUpTo(interval, d, before);
      IdlePass(interval, d, passes, before, t);
      passes := passes + [Pass(t, None)];
    }
  }

  /** An idle schedule, then a pass that polls late, then a pass when that is over. */
  lemma LatePoll(interval: int, d: int, idle: seq<Pass>, t: int, now: int, start: int)
    requires IdleUpTo(interval, d, idle, t) && 0 <= t <= now <= t + d && now >= interval && now <= start <= now + d
    ensures var last := if interval > 0 then None else Some(Poll(start, None));
      var passes := idle + [Pass(now, Some(Poll(start, Some(start))))] + [Pass(start, last)];
      Schedule(None, interval, passes) && AtMostApart(passes, d) && NoPollBetween(passes, 0, |idle|)
          && Stamped(passes, 0)
      && passes[0] == Pass(0, Some(Poll(0, Some(0))))
  {
    var poll, next := Pass(now, Some(Poll(start, Some(start)))),
        Pass(start, if interval > 0 then None else Some(Poll(start, None)));
    assert EndOf(idle[|idle| - 1]) == t;
    ExtendSchedule(None, interval, idle, poll);
    LastPolledAfter(None, idle, poll);
    ExtendSchedule(None, interval, idle + [poll], next);
  }

  /** In this schedule pass j is the next to poll after pass i, which stamped its poll. */
  ghost predicate PollsNext(first: Option<int>, interval: int, d: int, passes: seq<Pass>, i: nat, j: nat) {
    && Schedule(first, interval, passes) && AtMostApart(passes, d)
    && i < j < |passes| && Stamped(passes, i) && passes[j].poll.Some? && NoPollBetween(passes, i, j)
  }

  /** In every schedule, the pass that polls next starts less than b after the stamp. */
  ghost predicate PassesWithin(interval: int, d: int, b: int) {
    forall first: Option<int>, passes: seq<Pass>, i: nat, j: nat :: PollsNext(first, interval, d, passes, i, j) ==>
      passes[j].now < passes[i].poll.value.stamp.value + b
  }

  /** In every schedule, the next poll, if a pass follows it, starts less than b after the stamp. */
  ghost predicate PollsWithin(interval: int, d: int, b: int) {
    forall first: Option<int>, passes: seq<Pass>, i: nat, j: nat ::
      PollsNext(first, interval, d, passes, i, j) && j + 1 < |passes| ==>
      passes[j].poll.value.start < passes[i].poll.value.stamp.value + b
  }

  /** The interval, at least 1. */
  function Positive(interval: int): int { if interval > 0 then interval else 1 }

  /** Without a positive interval every pass polls. */
  lemma NextAtOnce(first: Option<int>, interval: int, d: int, passes: seq<Pass>, i: nat, j: nat)
    requires PollsNext(first, interval, d, passes, i, j) && interval <= 0
    ensures j == i + 1 && passes[j].now <= passes[i].poll.value.stamp.value + d
  {
    assert PassOk(first, interval, passes, i) && PassOk(first, interval, passes, i + 1);
    DuePassPolls(first, interval, passes, i, i + 1);
  }

  lemma PassUpperBound(first: Option<int>, interval: int, d: int, passes: seq<Pass>, i: nat, j: nat)
    requires PollsNext(first, interval, d, passes, i, j)
    ensures passes[j].now < passes[i].poll.value.stamp.value + Positive(interval) + d
  {
    if interval > 0 {
      NextPassIsPrompt(first, interval, d, passes, i, j);
    } else {
      NextAtOnce(first, interval, d, passes, i, j);
    }
  }

  lemma PollUpperBound(first: Option<int>, interval: int, d: int, passes: seq<Pass>, i: nat, j: nat)
    requires PollsNext(first, interval, d, passes, i, j) && j + 1 < |passes|
    ensures passes[j].poll.value.start < passes[i].poll.value.stamp.value + Positive(interval) + 2 * d
  {
    PassUpperBound(first, interval, d, passes, i, j);
    assert PassOk(first, interval, passes, j) && PassOk(first, interval, passes, j + 1);
    assert passes[j + 1].now - passes[j].now <= d;
  }

  /** A schedule that attains both bounds. */
  lemma LatestPoll(interval: int, d: int) returns (passes: seq<Pass>, j: nat)
    requires d > 0
    ensures PollsNext(None, interval, d, passes, 0, j) && j + 1 < |passes|
            && passes[0] == Pass(0, Some(Poll(0, Some(0))))
    ensures passes[j].now == Positive(interval) + d - 1
    ensures passes[j].poll.value.start == Positive(interval) + 2 * d - 1
  {
    var t := Positive(interval) - 1;
    var idle;
    if interval > 0 {
      idle := IdlesUpTo(interval, d, t);
    } else {
      idle := [Pass(0, Some(Poll(0, Some(0))))];
      FirstPass(interval, d);
    }
    LatePoll(interval, d, idle, t, t + d, t + d + d);
    j := |idle|;
    var poll := Pass(t + d, Some(Poll(t + d + d, Some(t + d + d))));
    passes := idle + [poll] + [Pass(t + d + d, if interval > 0 then None else Some(Poll(t + d + d, None)))];
    assert passes[j] == poll;
  }

  /** The pass that polls next keeps a bound b exactly when b is at least interval + d, where an interval
      that is not positive counts as 1. */
  lemma PassBoundIff(interval: int, d: int, b: int)
    requires d > 0
    ensures PassesWithin(interval, d, b) <==> b >= Positive(interval) + d
  {
    if b >= Positive(interval) + d {
      forall first: Option<int>, passes: seq<Pass>, i: nat, j: nat | PollsNext(first, interval, d, passes, i, j)
        ensures passes[j].now < passes[i].poll.value.stamp.value + b
      {
        PassUpperBound(first, interval, d, passes, i, j);
      }
    } else {
      var passes, j := LatestPoll(interval, d);
      assert PollsNext(None, interval, d, passes, 0, j);
    }
  }

  /** The poll itself keeps a bound b exactly when b is at least interval + 2d, with the same exception. */
  lemma PollBoundIff(interval: int, d: int, b: int)
    requires d > 0
    ensures PollsWithin(interval, d, b) <==> b >= Positive(interval) + 2 * d
  {
    if b >= Positive(interval) + 2 * d {
      forall first: Option<int>, passes: seq<Pass>, i: nat, j: nat
        | PollsNext(first, interval, d, passes, i, j) && j + 1 < |passes|
        ensures passes[j].poll.value.start < passes[i].poll.value.stamp.value + b
      {
        PollUpperBound(first, interval, d, passes, i, j);
      }
    } else {
      var passes, j := LatestPoll(interval, d);
      assert PollsNext(None, interval, d, passes, 0, j);
    }
  }

  /** Hence a poll less than interval + d after the stamp: for passes exactly when the interval is
      positive, for the polls themselves never. */
  lemma PromptIff(interval: int, d: int)
    requires d > 0
    ensures PassesWithin(interval, d, interval + d) <==> interval > 0
    ensures !PollsWithin(interval, d, interval + d)
  {
    PassBoundIff(interval, d, interval + d);
    PollBoundIff(interval, d, interval + d);
  }

  /** The same when all passes start at one time: no source with a positive interval is then polled twice. */
  lemma PromptAtOneTimeIff(interval: int)
    ensures PassesWithin(interval, 0, interval) <==> interval > 0
    ensures PollsWithin(interval, 0, interval) <==> interval > 0
  {
    if interval > 0 {
      forall first: Option<int>, passes: seq<Pass>, i: nat, j: nat | PollsNext(first, interval, 0, passes, i, j)
        ensures false
      {
        NextPassIsPrompt(first, interval, 0, passes, i, j);
        DuePassPolls(first, interval, passes, i, j);
      }
    } else {
      var p := Pass(0, Some(Poll(0, Some(0))));
      FirstPass(interval, 0);
      ExtendSchedule(None, interval, [p], p);
      LastPolledAfter(None, [p], p);
      ExtendSchedule(None, interval, [p] + [p], p);
      assert PollsNext(None, interval, 0, [p] + [p] + [p], 0, 1);
    }
  }

  // ---- the code ----------------------------------------------------------------------------------

  /** A row of ListEnabledSources. */
  datatype Enabled = Enabled(id: SourceId, seconds: int, lastPolledAt: Option<int>)

  class Orchestrator {
    var clock: int
    /** The sources table: interval and last_polled_at of every enabled source. */
    const seconds: map<SourceId, int>
    var lastPolledAt: map<SourceId, Option<int>>
    ghost var passes: map<SourceId, seq<Pass>>

    /** The history of source s follows the schedule, ends in what the table holds, and is past. */
    ghost predicate SourceOk(s: SourceId) reads this {
      && s in seconds && s in lastPolledAt && s in passes
      && Schedule(None, Interval(seconds[s]), passes[s])
      && lastPolledAt[s] == LastPolled(None, passes[s])
      && (passes[s] != [] ==> EndOf(passes[s][|passes[s]| - 1]) <= clock)
    }

    ghost predicate Valid() reads this { forall s :: s in seconds ==> SourceOk(s) }

    constructor (seconds: map<SourceId, int>, now: int)
      ensures Valid() && this.seconds == seconds && clock == now
    {
      this.seconds, clock := seconds, now;
      lastPolledAt := map s | s in seconds :: None;
      passes := map s | s in seconds :: [];
    }

    /** Fetching takes any time and may fail; the status is updated either way, unless that update
        fails; then the results, if there are any, are processed. */
    method PollSource(id: SourceId, updateFails: bool) returns (ghost poll: Poll)
      requires id in lastPolledAt
      modifies this`clock, this`lastPolledAt
      ensures poll.start == old(clock) <= clock && (poll.stamp.None? <==> updateFails)
      ensures poll.stamp.Some? ==> poll.start <= poll.stamp.value <= clock
      ensures lastPolledAt == if updateFails then old(lastPolledAt) else old(lastPolledAt)[id := poll.stamp]
    {
      poll := Poll(clock, None);
      Elapse();
      if !updateFails {
        lastPolledAt := lastPolledAt[id := Some(clock)];
        poll := poll.(stamp := Some(clock));
      }
      Elapse();
    }

    method Elapse()
      modifies this`clock
      ensures clock >= old(clock)
    {
      var n: nat :| true;
      clock := clock + n;
    }

    /** What one pass appends to the history of source s. Together with Valid it says whether the source
        was polled; the poll is stamped unless the update failed. */
    ghost predicate Extended(s: SourceId, before: seq<Pass>, now: int, updateFails: bool)
      reads this
    {
      && s in passes && |passes[s]| == |before| + 1 && passes[s][..|before|] == before && passes[s][|before|].now == now
      && (passes[s][|before|].poll.Some? ==> (passes[s][|before|].poll.value.stamp.None? <==> updateFails))
    }

    /** One pass over the sources as they were listed at its beginning; `failing` are those whose status
        update fails. */
    method PollAll(scheduled: seq<Enabled>, failing: set<SourceId>)
      requires Valid()
      requires forall i, j :: 0 <= i < j < |scheduled| ==> scheduled[i].id != scheduled[j].id
      requires forall s :: s in seconds <==> exists i :: 0 <= i < |scheduled| && scheduled[i].id == s
      requires forall i :: 0 <= i < |scheduled| ==> Current(scheduled[i])
      modifies `clock, `lastPolledAt, `passes
      ensures Valid() && clock >= old(clock)
      ensures forall s :: s in seconds ==> Extended(s, old(passes)[s], old(clock), s in failing)
    {
      var now := clock;
      var i := 0;
      while i < |scheduled|
        invariant 0 <= i <= |scheduled| && now == old(clock) <= clock && Valid()
        invariant forall n :: i <= n < |scheduled| ==>
          Current(scheduled[n]) && passes[scheduled[n].id] == old(passes)[scheduled[n].id]
        invariant forall n :: 0 <= n < i ==>
          Extended(scheduled[n].id, old(passes)[scheduled[n].id], now, scheduled[n].id in failing)
      {
        assert SourceOk(scheduled[i].id);
        Visit(scheduled[i], now, scheduled[i].id in failing);
        i := i + 1;
      }
      forall s | s in seconds ensures Extended(s, old(passes)[s], now, s in failing) {
        var n :| 0 <= n < |scheduled| && scheduled[n].id == s;
      }
    }

    /** The listed row is what the table holds. */
    ghost predicate Current(e: Enabled)
      reads this
    {
      e.id in seconds && e.id in lastPolledAt && e.seconds == seconds[e.id] && e.lastPolledAt == lastPolledAt[e.id]
    }

    /** The body of the loop. */
    method Visit(ss: Enabled, now: int, updateFails: bool)
      requires Valid() && Current(ss) && now <= clock
      requires ss.id in passes && (passes[ss.id] != [] ==> EndOf(passes[ss.id][|passes[ss.id]| - 1]) <= now)
      modifies `clock, `lastPolledAt, `passes
      ensures Valid() && clock >= old(clock) && Extended(ss.id, old(passes)[ss.id], now, updateFails)
      ensures forall s :: s in seconds && s != ss.id ==>
        s in passes && passes[s] == old(passes)[s] && s in lastPolledAt && lastPolledAt[s] == old(lastPolledAt)[s]
    {
      assert SourceOk(ss.id);
      var skip := false;
      if ss.lastPolledAt.Some? {
        var interval := Interval(ss.seconds);
        skip := now < ss.lastPolledAt.value + interval;
      }
      ghost var pass := Pass(now, None);
      if !skip {
        ghost var poll := PollSource(ss.id, updateFails);
        pass := Pass(now, Some(poll));
      }
      ExtendSchedule(None, Interval(ss.seconds), passes[ss.id], pass);
      LastPolledAfter(None, passes[ss.id], pass);
      passes := passes[ss.id := passes[ss.id] + [pass]];
      forall s | s in seconds && s != ss.id ensures SourceOk(s) {
        assert old(SourceOk(s));
      }
      assert SourceOk(ss.id);
    }
  }
}
