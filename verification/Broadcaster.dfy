/** Server-sent events: bounded per-client buffers, and a sender that drops rather than waits. */
module Broadcasting {
  import opened Common

  datatype Event = Event(event: string, data: string)

  const BUFFER: nat := 64

  // ---- one client's history ------------------------------------------------------------------

  /** What happens to one client's channel: an event is sent to it, or the client takes one. */
  datatype Op = Sent(e: Event) | Taken

  datatype View = View(received: seq<Event>, buffer: seq<Event>, dropped: seq<Event>)

  /** The non-blocking send. */
  function Offer(v: View, e: Event): View {
    if |v.buffer| < BUFFER then v.(buffer := v.buffer + [e]) else v.(dropped := v.dropped + [e])
  }

  /** Receiving from an empty buffer takes nothing. */
  function Take(v: View): View {
    if v.buffer == [] then v else v.(received := v.received + [v.buffer[0]], buffer := v.buffer[1..])
  }

  function Replay(log: seq<Op>): View {
    if log == [] then View([], [], [])
    else
      var v := Replay(log[..|log| - 1]);
      match log[|log| - 1] case Sent(e) => Offer(v, e) case Taken => Take(v)
  }

  function SentIn(log: seq<Op>): seq<Event> {
    if log == [] then []
    else SentIn(log[..|log| - 1]) + (if log[|log| - 1].Sent? then [log[|log| - 1].e] else [])
  }

  /** a is b with some elements left out, in order. */
  predicate Subsequence(a: seq<Event>, b: seq<Event>)
    decreases |b|
  {
    a == [] || (b != [] &&
      ((a[|a| - 1] == b[|b| - 1] && Subsequence(a[..|a| - 1], b[..|b| - 1])) || Subsequence(a, b[..|b| - 1])))
  }

  lemma SubsequenceGrows(a: seq<Event>, b: seq<Event>, x: Event)
    requires Subsequence(a, b)
    ensures Subsequence(a, b + [x]) && Subsequence(a + [x], b + [x])
  {
    assert (b + [x])[..|b|] == b && (a + [x])[..|a|] == a;
  }

  lemma {:induction false} FullSubsequence(a: seq<Event>, b: seq<Event>)
    requires Subsequence(a, b)
    ensures |a| <= |b| && (|a| == |b| ==> a == b)
    decreases |b|
  {
    if a != [] {
      if a[|a| - 1] == b[|b| - 1] && Subsequence(a[..|a| - 1], b[..|b| - 1]) {
        FullSubsequence(a[..|a| - 1], b[..|b| - 1]);
        assert a == a[..|a| - 1] + [a[|a| - 1]] && b == b[..|b| - 1] + [b[|b| - 1]];
      } else {
        FullSubsequence(a, b[..|b| - 1]);
      }
    }
  }

  /** Received then buffered is an in-order subsequence of what was sent; every event sent is received,
      buffered or dropped; the buffer is within its capacity. */
  ghost predicate Faithful(v: View, sent: seq<Event>) {
    && Subsequence(v.received + v.buffer, sent)
    && multiset(sent) == multiset(v.received) + multiset(v.buffer) + multiset(v.dropped)
    && |sent| == |v.received| + |v.buffer| + |v.dropped|
    && |v.buffer| <= 64
  }

  lemma OfferKeeps(v: View, sent: seq<Event>, e: Event)
    requires Faithful(v, sent)
    ensures Faithful(Offer(v, e), sent + [e])
  {
    OfferInOrder(v, sent, e);
    OfferAccounts(v, sent, e);
  }

  lemma OfferInOrder(v: View, sent: seq<Event>, e: Event)
    requires Subsequence(v.received + v.buffer, sent)
    ensures Subsequence(Offer(v, e).received + Offer(v, e).buffer, sent + [e])
  {
    SubsequenceGrows(v.received + v.buffer, sent, e);
    assert v.received + (v.buffer + [e]) == v.received + v.buffer + [e];
  }

  lemma OfferAccounts(v: View, sent: seq<Event>, e: Event)
    requires multiset(sent) == multiset(v.received) + multiset(v.buffer) + multiset(v.dropped)
    ensures var w := Offer(v, e);
            multiset(sent + [e]) == multiset(w.received) + multiset(w.buffer) + multiset(w.dropped)
  {
  }

  lemma TakeKeeps(v: View, sent: seq<Event>)
    requires Faithful(v, sent)
    ensures Faithful(Take(v), sent)
  {
    if v.buffer != [] {
      assert v.buffer == [v.buffer[0]] + v.buffer[1..];
      assert v.received + [v.buffer[0]] + v.buffer[1..] == v.received + v.buffer;
    }
  }

  /** For every history of a client, however sends and receives interleave. */
  lemma {:induction false} InOrderAndAccounted(log: seq<Op>)
    ensures Faithful(Replay(log), SentIn(log))
  {
    if log != [] {
      var front := log[..|log| - 1];
      InOrderAndAccounted(front);
      match log[|log| - 1] {
        case Sent(e) => OfferKeeps(Replay(front), SentIn(front), e);
        case Taken => TakeKeeps(Replay(front), SentIn(front)); assert SentIn(front) + [] == SentIn(front);
      }
    }
  }

  /** The op is a send that finds the buffer full. */
  predicate Overflows(log: seq<Op>, i: nat)
    requires i < |log|
  {
    log[i].Sent? && |Replay(log[..i]).buffer| == 64
  }

  lemma OverflowsAppend(front: seq<Op>, op: Op)
    ensures (forall i :: 0 <= i < |front + [op]| ==> !Overflows(front + [op], i))
            <==> (forall i :: 0 <= i < |front| ==> !Overflows(front, i))
                 && !(op.Sent? && |Replay(front).buffer| == 64)
  {
    var log, n := front + [op], |front|;
    assert log[..n] == front && log[n] == op;
    forall i | 0 <= i < n ensures Overflows(front, i) <==> Overflows(log, i) {
      assert front[i] == log[i] && front[..i] == log[..i];
    }
    if forall i :: 0 <= i < |log| ==> !Overflows(log, i) {
      assert !Overflows(log, n);
      forall i | 0 <= i < n ensures !Overflows(front, i) { assert !Overflows(log, i); }
    }
  }

  lemma {:induction false} DropsIff(log: seq<Op>)
    ensures Replay(log).dropped == [] <==> forall i :: 0 <= i < |log| ==> !Overflows(log, i)
  {
    if log != [] {
      var front, op := log[..|log| - 1], log[|log| - 1];
      DropsIff(front);
      InOrderAndAccounted(front);
      assert log == front + [op];
      OverflowsAppend(front, op);
    }
  }

  /** A client gets exactly what was sent if and only if no send found its buffer full. */
  lemma LosslessIff(log: seq<Op>)
    ensures Replay(log).received + Replay(log).buffer == SentIn(log)
            <==> forall i :: 0 <= i < |log| ==> !Overflows(log, i)
  {
    DropsIff(log);
    InOrderAndAccounted(log);
    FullSubsequence(Replay(log).received + Replay(log).buffer, SentIn(log));
  }

  // ---- the channels and the broadcaster --------------------------------------------------------

  class Channel {
    var buffer: seq<Event>
    var closed: bool
    ghost var log: seq<Op>

    ghost predicate Valid() reads this { buffer == Replay(log).buffer }

    constructor ()
      ensures Valid() && !closed && log == []
    {
      buffer, closed, log := [], false, [];
    }

    /** select with a default: sends to a full channel are dropped. Sending to a closed channel would
        panic, so that is the precondition. */
    method TrySend(e: Event)
      requires Valid() && !closed
      modifies this
      ensures Valid() && !closed && log == old(log) + [Sent(e)]
      ensures buffer == if |old(buffer)| < 64 then old(buffer) + [e] else old(buffer)
    {
      if |buffer| < BUFFER { buffer := buffer + [e]; }
      log := log + [Sent(e)];
      assert log[..|log| - 1] == old(log);
    }

    /** A receive by the client; it also drains a closed channel. */
    method Receive() returns (e: Option<Event>)
      requires Valid()
      modifies this
      ensures Valid() && closed == old(closed) && log == old(log) + [Taken]
      ensures e == if old(buffer) == [] then None else Some(old(buffer)[0])
      ensures e.Some? ==> Replay(log).received == Replay(old(log)).received + [e.value]
    {
      e := None;
      if buffer != [] {
        e := Some(buffer[0]);
        buffer := buffer[1..];
      }
      log := log + [Taken];
      assert log[..|log| - 1] == old(log);
    }

    /** close; closing twice would panic. */
    method Close()
      requires Valid() && !closed
      modifies this
      ensures Valid() && closed && log == old(log) && buffer == old(buffer)
    {
      closed := true;
    }
  }

  class Broadcaster {
    var clients: set<Channel>
    /** Every event ever sent, and how many had been when each client subscribed. */
    ghost var sent: seq<Event>
    ghost var since: map<Channel, nat>

    /** The registered channels are open. */
    ghost predicate Open() reads this, clients {
      forall c :: c in clients ==> c.Valid() && !c.closed
    }

    /** And the history of each holds exactly what has been sent since its client subscribed. */
    ghost predicate Valid() reads this, clients {
      Open() && since.Keys == clients &&
      forall c :: c in clients ==> since[c] <= |sent| && SentIn(c.log) == sent[since[c]..]
    }

    constructor ()
      ensures Valid() && clients == {} && sent == []
    {
      clients, sent, since := {}, [], map[];
    }

    method Subscribe() returns (ch: Channel)
      requires Valid()
      modifies this
      ensures Valid() && fresh(ch) && clients == old(clients) + {ch} && ch.log == [] && ch.buffer == []
      ensures sent == old(sent) && since == old(since)[ch := |sent|]
    {
      ch := new Channel();
      clients, since := clients + {ch}, since[ch := |sent|];
    }

    /** Only a channel still registered is closed, so none is closed twice. What it had been sent is what
        was sent while its client was subscribed. */
    method Unsubscribe(ch: Channel)
      requires Valid()
      modifies this, ch
      ensures Valid() && clients == old(clients) - {ch} && sent == old(sent)
      ensures if ch in old(clients) then ch.closed else ch.closed == old(ch.closed)
      ensures ch.log == old(ch.log) && ch.buffer == old(ch.buffer)
      ensures ch in old(clients) ==> SentIn(ch.log) == sent[old(since)[ch]..]
      ensures forall c :: c in clients ==> c.log == old(c.log) && c.buffer == old(c.buffer) && since[c] == old(since)[c]
    {
      if ch in clients {
        clients, since := clients - {ch}, since - {ch};
        ch.Close();
      }
    }

    /** Clients may receive at any time, without the lock of the broadcaster. */
    method LetClientsReceive()
      requires Open()
      modifies clients
      ensures Open()
      ensures forall c :: c in clients ==> old(c.log) <= c.log && SentIn(c.log) == SentIn(old(c.log))
    {
    }

    /** Every client's history gains exactly this event, wherever receives fall in between. */
    method Send(evt: Event)
      requires Valid()
      modifies this`sent, clients
      ensures Valid() && sent == old(sent) + [evt]
      ensures forall c :: c in clients ==> old(c.log) <= c.log && SentIn(c.log) == SentIn(old(c.log)) + [evt]
    {
      FanOut(evt);
      sent := sent + [evt];
      forall c | c in clients ensures SentIn(c.log) == sent[since[c]..] {
        assert sent[since[c]..] == old(sent)[since[c]..] + [evt];
      }
    }

    /** The loop. */
    method FanOut(evt: Event)
      requires Open()
      modifies clients
      ensures Open()
      ensures forall c :: c in clients ==> old(c.log) <= c.log && SentIn(c.log) == SentIn(old(c.log)) + [evt]
    {
      var left := clients;
      while left != {}
        invariant Open() && left <= clients
        invariant forall c :: c in clients ==> old(c.log) <= c.log
        invariant forall c :: c in clients && c !in left ==> SentIn(c.log) == SentIn(old(c.log)) + [evt]
        invariant forall c :: c in left ==> SentIn(c.log) == SentIn(old(c.log))
        decreases left
      {
        var ch :| ch in left;
        Deliver(ch, evt);
        left := left - {ch};
      }
    }

    /** The body of the loop. */
    method Deliver(ch: Channel, evt: Event)
      requires Open() && ch in clients
      modifies clients
      ensures Open()
      ensures forall c :: c in clients ==> old(c.log) <= c.log
      ensures forall c :: c in clients ==> SentIn(c.log) == SentIn(old(c.log)) + if c == ch then [evt] else []
    {
      LetClientsReceive();
      ghost var before := ch.log;
      ch.TrySend(evt);
      assert ch.log[..|ch.log| - 1] == before;
    }
  }

  /** Over every history of a broadcaster: what a client has received and has buffered is an in-order
      subsequence of what was sent since it subscribed, everything sent since is received, buffered or
      dropped, and nothing was dropped if and only if no send found 64 events buffered. */
  lemma ClientHistory(b: Broadcaster, c: Channel)
    requires b.Valid() && c in b.clients
    ensures var v, due := Replay(c.log), b.sent[b.since[c]..];
      && c.buffer == v.buffer && Faithful(v, due)
      && (v.received + v.buffer == due <==> forall i :: 0 <= i < |c.log| ==> !Overflows(c.log, i))
  {
    InOrderAndAccounted(c.log);
    LosslessIff(c.log);
  }
}
