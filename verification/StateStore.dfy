/** OAuth state parameters: an in-memory store with a time to live and a size limit. */
module StateStores {
  import opened Common

  /** The specification: an unbounded set of states, each valid from its creation until its expiry or
      its first consumption. */
  datatype TtlSet = TtlSet(expiry: map<string, int>, consumed: set<string>)

  predicate Usable(t: TtlSet, s: string, now: int) {
    s in t.expiry && s !in t.consumed && now < t.expiry[s]
  }

  /** Neither consumed nor past expiry. */
  function Live(t: TtlSet, now: int): set<string> {
    set s | s in t.expiry && s !in t.consumed && now <= t.expiry[s]
  }

  function Created(t: TtlSet, s: string, until: int): TtlSet { t.(expiry := t.expiry[s := until]) }

  function Consumed(t: TtlSet, s: string): TtlSet {
    if s in t.expiry then t.(consumed := t.consumed + {s}) else t
  }

  // ---- the set as a history ----------------------------------------------------------------------

  /** A successful creation at some time, or an attempt to consume. */
  datatype Op = Creates(state: string, at: int) | Consumes(state: string)

  function After(t: TtlSet, op: Op, ttl: int): TtlSet {
    match op case Creates(s, at) => Created(t, s, at + ttl) case Consumes(s) => Consumed(t, s)
  }

  function Replay(log: seq<Op>, ttl: int): TtlSet {
    if log == [] then TtlSet(map[], {})
    else After(Replay(log[..|log| - 1], ttl), log[|log| - 1], ttl)
  }

  /** Random states do not repeat. */
  ghost predicate NoReuse(log: seq<Op>) {
    forall i, j :: 0 <= i < j < |log| && log[i].Creates? && log[j].Creates? ==> log[i].state != log[j].state
  }

  /** s was created at i, has not expired, and nothing has consumed it since. */
  predicate OpenSince(log: seq<Op>, ttl: int, s: string, now: int, i: nat) {
    i < |log| && log[i].Creates? && log[i].state == s && now < log[i].at + ttl && Consumes(s) !in log[i..]
  }

  lemma {:induction false} WasCreated(log: seq<Op>, ttl: int, s: string)
    ensures s in Replay(log, ttl).expiry <==> exists i :: 0 <= i < |log| && log[i].Creates? && log[i].state == s
    decreases |log|
  {
    if log != [] {
      var front := log[..|log| - 1];
      WasCreated(front, ttl, s);
      assert forall i :: 0 <= i < |front| ==> front[i] == log[i];
      if s in Replay(log, ttl).expiry && s in Replay(front, ttl).expiry {
        var i :| 0 <= i < |front| && front[i].Creates? && front[i].state == s;
        assert log[i].Creates? && log[i].state == s;
      }
    }
  }

  lemma OpenSinceStep(log: seq<Op>, op: Op, ttl: int, s: string, now: int, i: nat)
    ensures OpenSince(log + [op], ttl, s, now, i) <==>
              if i == |log| then op.Creates? && op.state == s && now < op.at + ttl
              else OpenSince(log, ttl, s, now, i) && op != Consumes(s)
  {
    if i < |log| { assert (log + [op])[i..] == log[i..] + [op]; }
    if i == |log| { assert (log + [op])[i..] == [op]; }
  }

  /** A state can be consumed with success exactly when it was created, has not been consumed since, and
      its time has not run out. */
  lemma {:induction false} UsableIff(log: seq<Op>, ttl: int, s: string, now: int)
    requires NoReuse(log)
    ensures Usable(Replay(log, ttl), s, now) <==> exists i: nat :: OpenSince(log, ttl, s, now, i)
    ensures s in Replay(log, ttl).consumed ==> s in Replay(log, ttl).expiry
    decreases |log|
  {
    if log != [] {
      var front, op := log[..|log| - 1], log[|log| - 1];
      assert log == front + [op];
      UsableIff(front, ttl, s, now);
      UsableStep(front, op, ttl, s, now);
    }
  }

  /** The states that count towards the limit: created, not consumed since, and not past their expiry. */
  lemma LiveIff(log: seq<Op>, ttl: int, s: string, before: int)
    requires NoReuse(log)
    ensures s in Live(Replay(log, ttl), before + 1) <==> exists i: nat :: OpenSince(log, ttl, s, before, i)
  {
    UsableIff(log, ttl, s, before);
  }

  lemma UsableStep(log: seq<Op>, op: Op, ttl: int, s: string, now: int)
    requires NoReuse(log + [op]) && (s in Replay(log, ttl).consumed ==> s in Replay(log, ttl).expiry)
    requires Usable(Replay(log, ttl), s, now) <==> exists i: nat :: OpenSince(log, ttl, s, now, i)
    ensures Usable(After(Replay(log, ttl), op, ttl), s, now) <==> exists i: nat :: OpenSince(log + [op], ttl, s, now, i)
  {
    forall i: nat ensures OpenSince(log + [op], ttl, s, now, i) <==>
            if i == |log| then op.Creates? && op.state == s && now < op.at + ttl
            else OpenSince(log, ttl, s, now, i) && op != Consumes(s)
    {
      OpenSinceStep(log, op, ttl, s, now, i);
    }
    if op.Creates? && op.state == s {
      NotCreatedBefore(log, op, ttl);
      assert now < op.at + ttl ==> OpenSince(log + [op], ttl, s, now, |log|);
    } else if exists i: nat :: OpenSince(log, ttl, s, now, i) {
      var i: nat :| OpenSince(log, ttl, s, now, i);
      assert op != Consumes(s) ==> OpenSince(log + [op], ttl, s, now, i);
    }
  }

  lemma NotCreatedBefore(front: seq<Op>, op: Op, ttl: int)
    requires NoReuse(front + [op]) && op.Creates?
    ensures op.state !in Replay(front, ttl).expiry
  {
    WasCreated(front, ttl, op.state);
    forall i | 0 <= i < |front| && front[i].Creates? ensures front[i].state != op.state {
      assert (front + [op])[i] == front[i] && (front + [op])[|front|] == op;
    }
  }

  /** Once a created state has been consumed, whether in time or not, it never can be again. */
  lemma ConsumedForGood(log: seq<Op>, more: seq<Op>, ttl: int, s: string, now: int)
    requires NoReuse(log + [Consumes(s)] + more) && s in Replay(log, ttl).expiry
    ensures !Usable(Replay(log + [Consumes(s)] + more, ttl), s, now)
  {
    var all := log + [Consumes(s)] + more;
    WasCreated(log, ttl, s);
    UsableIff(all, ttl, s, now);
    var c :| 0 <= c < |log| && log[c].Creates? && log[c].state == s;
    assert all[c] == log[c];
    assert Consumes(s) in all[c..] by { assert all[c..][|log| - c] == Consumes(s); }
    assert forall i: nat :: OpenSince(all, ttl, s, now, i) ==> i == c;
  }

  // ---- the bounded store refines it --------------------------------------------------------------

  /** The store keeps no more than the set needs and, up to entries past expiry, no less. */
  ghost predicate Refines(entries: map<string, int>, t: TtlSet, now: int) {
    && (forall s :: s in entries ==> s in t.expiry && s !in t.consumed && entries[s] == t.expiry[s])
    && (forall s :: s in t.expiry && s !in t.consumed && s !in entries ==> t.expiry[s] < now)
  }

  /** Expired entries may be forgotten without changing what is usable from now on. */
  lemma ForgettingIsSafe(entries: map<string, int>, t: TtlSet, now: int, later: int, s: string)
    requires Refines(entries, t, now) && now <= later
    ensures Usable(t, s, later) <==> s in entries && later < entries[s]
  {
  }

  /** After a sweep the entries are exactly the live states. */
  lemma SweptIsLive(entries: map<string, int>, t: TtlSet, now: int)
    requires Refines(entries, t, now)
    ensures (set s | s in entries && now <= entries[s]) == Live(t, now)
  {
    forall s | s in Live(t, now) ensures s in entries {
    }
  }

  class StateStore {
    var entries: map<string, int>
    const maxSize: int
    const ttl: int
    /** The history of this store, and the latest clock reading it has acted on. */
    ghost var log: seq<Op>
    ghost var last: int

    /** The set this store stands for. */
    ghost function Model(): TtlSet reads this { Replay(log, ttl) }

    ghost predicate Valid() reads this {
      && Refines(entries, Model(), last) && NoReuse(log)
      && |entries| <= (if maxSize > 0 then maxSize else 0)
    }

    constructor (maxSize: int, ttl: int, ghost now: int)
      ensures Valid() && log == [] && this.maxSize == maxSize && this.ttl == ttl && last == now
    {
      this.maxSize, this.ttl := maxSize, ttl;
      entries, log, last := map[], [], now;
    }

    /** Drops every entry past its expiry. */
    method Sweep(now: int)
      requires Valid() && last <= now
      modifies this`entries
      ensures entries.Keys == Live(Model(), now) && |entries| <= |old(entries)|
      ensures forall s :: s in entries ==> entries[s] == Model().expiry[s]
    {
      var left := entries.Keys;
      ghost var before := entries;
      while left != {}
        invariant left <= before.Keys && entries.Keys <= before.Keys
        invariant forall s :: s in before ==> (s in entries <==> s in left || now <= before[s])
        invariant forall s :: s in entries ==> entries[s] == before[s]
        decreases left
      {
        var k :| k in left;
        if now > entries[k] { entries := entries - {k}; }
        left := left - {k};
      }
      SweptIsLive(before, Model(), now);
      Fewer(entries.Keys, before.Keys);
    }

    /** `random` is the hex form of 16 random bytes, or None when the generator fails; it never repeats. */
    method Create(now: int, random: Option<string>) returns (state: string)
      requires Valid() && last <= now
      requires random.Some? ==> |random.value| == 32 && random.value !in Model().expiry
      modifies this
      ensures Valid() && last == now
      ensures state == "" <==> random.None? || |Live(old(Model()), now)| >= maxSize
      ensures log == if state == "" then old(log) else old(log) + [Creates(state, now)]
      ensures state != "" ==> Some(state) == random
    {
      Sweep(now);
      last := now;
      if |entries| >= maxSize { return ""; }
      if random.None? { return ""; }
      state := random.value;
      entries := entries[state := now + ttl];
      UsableIff(log, ttl, state, now);
      Append(log, Creates(state, now), ttl);
      log := log + [Creates(state, now)];
    }

    static lemma Append(log: seq<Op>, op: Op, ttl: int)
      requires NoReuse(log) && (op.Creates? ==> op.state !in Replay(log, ttl).expiry)
      ensures NoReuse(log + [op])
      ensures Replay(log + [op], ttl) == After(Replay(log, ttl), op, ttl)
    {
      assert (log + [op])[..|log|] == log;
      if op.Creates? { WasCreated(log, ttl, op.state); }
    }

    static lemma {:induction false} Fewer(a: set<string>, b: set<string>)
      requires a <= b
      ensures |a| <= |b|
      decreases a
    {
      if a != {} {
        var x :| x in a;
        Fewer(a - {x}, b - {x});
      }
    }

    /** True exactly when the state was created, has not been consumed since, and its time has not run out. */
    method Consume(state: string, now: int) returns (ok: bool)
      requires Valid() && last <= now
      modifies this
      ensures Valid() && last == now && log == old(log) + [Consumes(state)]
      ensures ok <==> exists i: nat :: OpenSince(old(log), ttl, state, now, i)
    {
      ForgettingIsSafe(entries, Model(), last, now, state);
      UsableIff(log, ttl, state, now);
      Append(log, Consumes(state), ttl);
      last := now;
      log := log + [Consumes(state)];
      if state !in entries { return false; }
      var expiresAt := entries[state];
      assert |entries - {state}| < |entries| by {
        assert (entries - {state}).Keys == entries.Keys - {state};
      }
      entries := entries - {state};
      return now < expiresAt;
    }
  }
}
