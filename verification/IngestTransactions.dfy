/** Ingest transactions that interleave: each reads the committed rows, then writes under the lock of
    its row or of its unique key, then commits or aborts. */
module IngestTransactions {
  import opened Common
  import opened Ingestion

  type TxId = nat

  /** A transaction after BEGIN, after its SELECT, and after its INSERT or UPDATE and job inserts. */
  datatype Tx = Begun(k: Slot, r: Result)
              | Selected(k: Slot, r: Result, found: bool, old_: Option<Text>)
              | Written(k: Slot, r: Result, found: bool, old_: Option<Text>)

  datatype State = State(db: Db, txs: map<TxId, Tx>)

  /** Abort is any error, rollback or crash before the commit takes effect. */
  datatype Action = Begin(id: TxId, k: Slot, r: Result) | Select(id: TxId, scanFails: bool)
                  | Write(id: TxId) | Commit(id: TxId) | Abort(id: TxId)

  /** Another transaction holds the row, or has inserted the key and not yet ended. */
  ghost predicate Blocked(s: State, id: TxId, k: Slot) {
    exists x :: x in s.txs && x != id && s.txs[x].Written? && s.txs[x].k == k
  }

  ghost predicate Enabled(s: State, a: Action) {
    match a
    case Begin(id, _, _) => id !in s.txs
    case Select(id, _) => id in s.txs && s.txs[id].Begun?
    case Write(id) => id in s.txs && s.txs[id].Selected? && !Blocked(s, id, s.txs[id].k)
    case Commit(id) => id in s.txs && s.txs[id].Written?
    case Abort(id) => id in s.txs
  }

  function Apply(s: State, a: Action): State {
    match a
    case Begin(id, k, r) => s.(txs := s.txs[id := Begun(k, r)])
    case Select(id, scanFails) =>
      if id in s.txs && s.txs[id].Begun? then
        var k, r := s.txs[id].k, s.txs[id].r;
        // The error of the SELECT is dropped: a failed scan reads like a missing row.
        var found := k in s.db.releases && !scanFails;
        s.(txs := s.txs[id := Selected(k, r, found, if found then StoredChangelog(s.db.releases[k].data) else None)])
      else s
    case Write(id) =>
      if id in s.txs && s.txs[id].Selected? then
        var Selected(k, r, found, old_) := s.txs[id];
        // An INSERT of a committed key violates the unique constraint and ends the transaction.
        if !found && k in s.db.releases then s.(txs := s.txs - {id})
        else s.(txs := s.txs[id := Written(k, r, found, old_)])
      else s
    case Commit(id) =>
      if id in s.txs && s.txs[id].Written? then
        var Written(k, r, found, old_) := s.txs[id];
        State(Db(s.db.releases[k := RowOf(r)], s.db.ledger + JobsFor(k, r, found, old_)), s.txs - {id})
      else s
    case Abort(id) => s.(txs := s.txs - {id})
  }

  ghost predicate Run(s: State, acts: seq<Action>, s': State)
    decreases |acts|
  {
    if acts == [] then s' == s else Enabled(s, acts[0]) && Run(Apply(s, acts[0]), acts[1..], s')
  }

  ghost predicate TxOk(db: Db, t: Tx) {
    match t
    case Begun(_, _) => true
    case Selected(k, _, found, _) => found ==> k in db.releases
    case Written(k, _, found, _) => found <==> k in db.releases
  }

  ghost predicate Ledger(db: Db, k: Slot) {
    var n := if k in db.releases then 1 else 0;
    CountGateChecks(db.ledger, k) == n && CountFirstNotifies(db.ledger, k) == n
  }

  ghost predicate Inv(s: State) {
    && (forall id :: id in s.txs ==> TxOk(s.db, s.txs[id]))
    && (forall x, y :: x in s.txs && y in s.txs && x != y && s.txs[x].Written? && s.txs[y].Written? ==>
        s.txs[x].k != s.txs[y].k)
    && (forall k :: Ledger(s.db, k))
  }

  lemma StepKeeps(s: State, a: Action)
    requires Inv(s) && Enabled(s, a)
    ensures Inv(Apply(s, a)) && s.db.ledger <= Apply(s, a).db.ledger
  {
    var s' := Apply(s, a);
    if a.Commit? {
      CommitKeeps(s, a.id);
    } else {
      assert s'.db == s.db;
      forall x, y | x in s'.txs && y in s'.txs && x != y && s'.txs[x].Written? && s'.txs[y].Written?
        ensures s'.txs[x].k != s'.txs[y].k
      {
        if a.Write? && (x == a.id || y == a.id) {
          var z := if x == a.id then y else x;
          assert s.txs[z].Written?;
        }
      }
    }
  }

  lemma CommitKeeps(s: State, id: TxId)
    requires Inv(s) && id in s.txs && s.txs[id].Written?
    ensures Inv(Apply(s, Commit(id))) && s.db.ledger <= Apply(s, Commit(id)).db.ledger
  {
    var s' := Apply(s, Commit(id));
    var Written(k, r, found, old_) := s.txs[id];
    assert TxOk(s.db, s.txs[id]);
    forall x ensures Ledger(s'.db, x) {
      assert Ledger(s.db, x);
      CountsOfIngest(s.db.ledger, k, r, found, old_, x);
    }
    forall x | x in s'.txs ensures TxOk(s'.db, s'.txs[x]) {
      assert TxOk(s.db, s.txs[x]);
    }
  }

  lemma {:induction false} RunKeeps(s: State, acts: seq<Action>, s': State)
    requires Inv(s) && Run(s, acts, s')
    ensures Inv(s') && s.db.ledger <= s'.db.ledger
    decreases |acts|
  {
    if acts != [] {
      StepKeeps(s, acts[0]);
      RunKeeps(Apply(s, acts[0]), acts[1..], s');
    }
  }

  const EMPTY: State := State(Db(map[], []), map[])

  /** Over every interleaving of ingest transactions, committed or aborted, a (source, version) has had
      exactly one gate-check job enqueued if its release exists and none otherwise, and the same is
      true of the notify job for its insertion. From there on no job is ever withdrawn. */
  lemma OneGateCheckPerRelease(acts: seq<Action>, s: State, more: seq<Action>, s': State, k: Slot)
    requires Run(EMPTY, acts, s) && Run(s, more, s')
    ensures CountGateChecks(s.db.ledger, k) == if k in s.db.releases then 1 else 0
    ensures CountFirstNotifies(s.db.ledger, k) == if k in s.db.releases then 1 else 0
    ensures s.db.ledger <= s'.db.ledger
  {
    RunKeeps(EMPTY, acts, s);
    RunKeeps(s, more, s');
    assert Ledger(s.db, k);
  }

  lemma Then(s: State, xs: seq<Action>, mid: State, a: Action)
    requires Run(s, xs, mid) && Enabled(mid, a)
    ensures Run(s, xs + [a], Apply(mid, a))
  {
    assert Run(mid, [a], Apply(mid, a)) by { assert [a][1..] == []; }
    Concat(s, xs, mid, [a], Apply(mid, a));
  }

  lemma BothSelect(db: Db, k: Slot, r: Result) returns (acts: seq<Action>, s: State)
    requires k in db.releases
    ensures Run(State(db, map[]), acts, s)
    ensures var t := Selected(k, r, true, StoredChangelog(db.releases[k].data)); s == State(db, map[0 := t, 1 := t])
  {
    acts, s := [], State(db, map[]);
    var s0 := s;
    Then(s0, acts, s, Begin(0, k, r));
    acts, s := acts + [Begin(0, k, r)], Apply(s, Begin(0, k, r));
    Then(s0, acts, s, Begin(1, k, r));
    acts, s := acts + [Begin(1, k, r)], Apply(s, Begin(1, k, r));
    Then(s0, acts, s, Select(0, false));
    acts, s := acts + [Select(0, false)], Apply(s, Select(0, false));
    Then(s0, acts, s, Select(1, false));
    acts, s := acts + [Select(1, false)], Apply(s, Select(1, false));
  }

  /** A selected update, not blocked, writes and commits. */
  lemma Finishes(s0: State, acts0: seq<Action>, s1: State, id: TxId) returns (acts: seq<Action>, s: State)
    requires Run(s0, acts0, s1) && id in s1.txs && s1.txs[id].Selected? && s1.txs[id].found
    requires forall x :: x in s1.txs ==> !s1.txs[x].Written?
    ensures Run(s0, acts, s)
    ensures var t := s1.txs[id];
      s == State(Db(s1.db.releases[t.k := RowOf(t.r)], s1.db.ledger + JobsFor(t.k, t.r, true, t.old_)), s1.txs - {id})
  {
    Then(s0, acts0, s1, Write(id));
    var s2 := Apply(s1, Write(id));
    Then(s0, acts0 + [Write(id)], s2, Commit(id));
    acts, s := acts0 + [Write(id)] + [Commit(id)], Apply(s2, Commit(id));
    assert s2.txs - {id} == s1.txs - {id};
  }

  /** A transaction that runs alone does what Ingest says. */
  lemma AloneIsIngest(db: Db, source: string, r: Result) returns (acts: seq<Action>)
    ensures Run(State(db, map[]), acts, State(Ingest(db, source, r), map[]))
  {
    var k, s0 := Slot(source, r.version), State(db, map[]);
    var begin, select := Begin(0, k, r), Select(0, false);
    var s1 := Apply(s0, begin);
    var s2 := Apply(s1, select);
    Then(s0, [], s0, begin);
    Then(s0, [] + [begin], s1, select);
    var s3 := Apply(s2, Write(0));
    Then(s0, [] + [begin] + [select], s2, Write(0));
    Then(s0, [] + [begin] + [select] + [Write(0)], s3, Commit(0));
    acts := [] + [begin] + [select] + [Write(0)] + [Commit(0)];
    assert Apply(s3, Commit(0)) == State(Ingest(db, source, r), map[]);
  }

  /** Two overlapping updates that both read the old changelog both notify, although the second stores
      what the first had stored; one after the other, only the first would. So the count of serial runs
      does need the transactions serial. */
  lemma OverlappingUpdatesNotifyTwice(db: Db, k: Slot, r: Result) returns (acts: seq<Action>, s: State)
    requires k in db.releases && k.version == r.version && r.changelog != [] && Utf8(r.changelog)
    requires StoredChangelog(db.releases[k].data) != Some(r.changelog)
    ensures Run(State(db, map[]), acts, s) && s.txs == map[]
    ensures CountNotifies(s.db.ledger, k) == CountNotifies(db.ledger, k) + 2
    ensures CountNotifies(Ingest(Ingest(db, k.source, r), k.source, r).ledger, k) == CountNotifies(db.ledger, k) + 1
  {
    var old_ := StoredChangelog(db.releases[k].data);
    var s0 := State(db, map[]);
    acts, s := BothSelect(db, k, r);
    acts, s := Finishes(s0, acts, s, 0);
    assert s.txs == map[1 := Selected(k, r, true, old_)];
    acts, s := Finishes(s0, acts, s, 1);
    assert s.txs == map[];
    CountsOfIngest(db.ledger, k, r, true, old_, k);
    CountsOfIngest(db.ledger + JobsFor(k, r, true, old_), k, r, true, old_, k);
    SerialUpdatesNotifyOnce(db, k, r);
  }

  lemma SerialUpdatesNotifyOnce(db: Db, k: Slot, r: Result)
    requires k in db.releases && k.version == r.version && r.changelog != [] && Utf8(r.changelog)
    requires StoredChangelog(db.releases[k].data) != Some(r.changelog)
    ensures CountNotifies(Ingest(Ingest(db, k.source, r), k.source, r).ledger, k) == CountNotifies(db.ledger, k) + 1
  {
    CountsOfIngest(db.ledger, k, r, true, StoredChangelog(db.releases[k].data), k);
    MarshalledIff(r.changelog);
    var db1 := Ingest(db, k.source, r);
    assert StoredChangelog(db1.releases[k].data) == Some(r.changelog);
    CountsOfIngest(db1.ledger, k, r, true, Some(r.changelog), k);
  }

  lemma {:induction false} Concat(s: State, xs: seq<Action>, mid: State, ys: seq<Action>, s': State)
    requires Run(s, xs, mid) && Run(mid, ys, s')
    ensures Run(s, xs + ys, s')
    decreases |xs|
  {
    if xs == [] {
      assert xs + ys == ys;
    } else {
      Concat(Apply(s, xs[0]), xs[1..], mid, ys, s');
      assert (xs + ys)[1..] == xs[1..] + ys;
    }
  }
}
