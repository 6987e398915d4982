/** Ingestion of releases: the release row and its downstream jobs are written in one transaction. */
module Ingestion {
  import opened Common

  // ---- data ----------------------------------------------------------------------------------

  /** A Go string as it is decoded: code points, and bytes that are not valid UTF-8. */
  datatype Rune = Valid(c: char) | Bad(byte: nat)
  type Text = seq<Rune>

  /** json.Marshal writes U+FFFD for every invalid byte, so this is what the database gets to see. */
  function Marshalled(t: Text): (r: Text)
    ensures |r| == |t|
  {
    seq(|t|, i requires 0 <= i < |t| => if t[i].Valid? then t[i] else Valid('\U{FFFD}'))
  }

  predicate Utf8(t: Text) { forall i :: 0 <= i < |t| ==> t[i].Valid? }

  lemma MarshalledIff(t: Text)
    ensures Marshalled(t) == t <==> Utf8(t)
  {
    if Marshalled(t) == t {
      forall i | 0 <= i < |t| ensures t[i].Valid? { assert Marshalled(t)[i] == t[i]; }
    }
  }

  datatype Result = Result(version: string, changelog: Text, metadata: map<string, Text>, timestamp: int)

  /** The unique key (source, version) of a release. */
  datatype Slot = Slot(source: string, version: string)

  datatype Release = Release(data: map<string, Text>, releasedAt: int)

  datatype Job = Notify(slot: Slot, isUpdate: bool) | GateCheck(slot': Slot)

  datatype Db = Db(releases: map<Slot, Release>, ledger: seq<Job>)

  datatype IngestResult = IngestNew | IngestUpdated | IngestSkipped

  /** Metadata plus, when there is one, the changelog under its own key. */
  function RawData(r: Result): map<string, Text> {
    var raw := map k | k in r.metadata :: Marshalled(r.metadata[k]);
    if r.changelog != [] then raw["changelog" := Marshalled(r.changelog)] else raw
  }

  function StoredChangelog(data: map<string, Text>): Option<Text> {
    if "changelog" in data then Some(data["changelog"]) else None
  }

  function RowOf(r: Result): Release { Release(RawData(r), r.timestamp) }

  predicate ChangelogAdded(r: Result, old_: Option<Text>) {
    r.changelog != [] && (old_ == None || old_ == Some([]) || old_ != Some(r.changelog))
  }

  /** The jobs of an ingest, given what its SELECT found. */
  function JobsFor(k: Slot, r: Result, exists_: bool, old_: Option<Text>): seq<Job> {
    if !exists_ then [Notify(k, false), GateCheck(k)]
    else if ChangelogAdded(r, old_) then [Notify(k, true)]
    else []
  }

  // ---- transactions one after the other ------------------------------------------------------

  function Jobs(db: Db, k: Slot, r: Result): seq<Job> {
    JobsFor(k, r, k in db.releases, if k in db.releases then StoredChangelog(db.releases[k].data) else None)
  }

  function Ingest(db: Db, source: string, r: Result): Db {
    var k := Slot(source, r.version);
    Db(db.releases[k := RowOf(r)], db.ledger + Jobs(db, k, r))
  }

  function IngestAll(db: Db, source: string, rs: seq<Result>): Db
    decreases |rs|
  {
    if rs == [] then db else IngestAll(Ingest(db, source, rs[0]), source, rs[1..])
  }

  /** A serial run: each ingest commits or leaves nothing behind. */
  datatype Op = Op(source: string, result: Result, committed: bool)

  function Serial(ops: seq<Op>): Db {
    if ops == [] then Db(map[], [])
    else
      var before, op := Serial(ops[..|ops| - 1]), ops[|ops| - 1];
      if op.committed then Ingest(before, op.source, op.result) else before
  }

  /** The committed results for one slot, oldest first. */
  function History(ops: seq<Op>, k: Slot): seq<Result> {
    if ops == [] then []
    else
      var op := ops[|ops| - 1];
      History(ops[..|ops| - 1], k)
      + (if op.committed && Slot(op.source, op.result.version) == k then [op.result] else [])
  }

  function CountNotifies(ledger: seq<Job>, k: Slot): nat {
    if ledger == [] then 0
    else
      var j := ledger[|ledger| - 1];
      CountNotifies(ledger[..|ledger| - 1], k) + (if j.Notify? && j.slot == k then 1 else 0)
  }

  function CountFirstNotifies(ledger: seq<Job>, k: Slot): nat {
    if ledger == [] then 0
    else CountFirstNotifies(ledger[..|ledger| - 1], k) + (if ledger[|ledger| - 1] == Notify(k, false) then 1 else 0)
  }

  function CountGateChecks(ledger: seq<Job>, k: Slot): nat {
    if ledger == [] then 0
    else CountGateChecks(ledger[..|ledger| - 1], k) + (if ledger[|ledger| - 1] == GateCheck(k) then 1 else 0)
  }

  /** How often a result carries a changelog other than the one its predecessor left stored. */
  function Changes(h: seq<Result>): nat {
    if |h| <= 1 then 0
    else
      var last, prev := h[|h| - 1], h[|h| - 2];
      Changes(h[..|h| - 1])
      + (if last.changelog != [] && StoredChangelog(RawData(prev)) != Some(last.changelog) then 1 else 0)
  }

  lemma CountsOfOne(ledger: seq<Job>, j: Job, k: Slot)
    ensures CountNotifies(ledger + [j], k) == CountNotifies(ledger, k) + (if j.Notify? && j.slot == k then 1 else 0)
    ensures CountFirstNotifies(ledger + [j], k)
            == CountFirstNotifies(ledger, k) + (if j == Notify(k, false) then 1 else 0)
    ensures CountGateChecks(ledger + [j], k) == CountGateChecks(ledger, k) + (if j == GateCheck(k) then 1 else 0)
  {
    assert (ledger + [j])[..|ledger|] == ledger;
  }

  /** What one ingest adds to the three counts of every slot. */
  lemma CountsOfIngest(ledger: seq<Job>, k: Slot, r: Result, exists_: bool, old_: Option<Text>, x: Slot)
    ensures var l := ledger + JobsFor(k, r, exists_, old_);
      && CountNotifies(l, x)
         == CountNotifies(ledger, x) + (if k == x && (!exists_ || ChangelogAdded(r, old_)) then 1 else 0)
      && CountFirstNotifies(l, x) == CountFirstNotifies(ledger, x) + (if k == x && !exists_ then 1 else 0)
      && CountGateChecks(l, x) == CountGateChecks(ledger, x) + (if k == x && !exists_ then 1 else 0)
  {
    if !exists_ {
      CountsOfOne(ledger, Notify(k, false), x);
      CountsOfOne(ledger + [Notify(k, false)], GateCheck(k), x);
      assert ledger + [Notify(k, false)] + [GateCheck(k)] == ledger + JobsFor(k, r, exists_, old_);
    } else if ChangelogAdded(r, old_) {
      CountsOfOne(ledger, Notify(k, true), x);
    } else {
      assert ledger + [] == ledger;
    }
  }

  lemma ChangesStep(h: seq<Result>, r: Result)
    ensures Changes(h + [r]) == if h == [] then 0
              else Changes(h) + (if ChangelogAdded(r, StoredChangelog(RawData(h[|h| - 1]))) then 1 else 0)
  {
    assert (h + [r])[..|h|] == h;
    if h != [] { assert (h + [r])[|h| - 1] == h[|h| - 1]; }
  }

  /** The row and the job counts of slot k are those its history of committed results calls for. */
  ghost predicate Accounts(db: Db, h: seq<Result>, k: Slot) {
    && (k in db.releases <==> h != [])
    && (h != [] ==> db.releases[k] == RowOf(h[|h| - 1]))
    && CountNotifies(db.ledger, k) == (if h == [] then 0 else 1 + Changes(h))
    && CountGateChecks(db.ledger, k) == (if h == [] then 0 else 1)
  }

  lemma IngestAccounts(db: Db, h: seq<Result>, k: Slot, source: string, r: Result)
    requires Accounts(db, h, k)
    ensures Accounts(Ingest(db, source, r), if Slot(source, r.version) == k then h + [r] else h, k)
  {
    if Slot(source, r.version) == k {
      IngestAccountsHere(db, h, source, r);
    } else {
      var k' := Slot(source, r.version);
      CountsOfIngest(db.ledger, k', r, k' in db.releases,
                     if k' in db.releases then StoredChangelog(db.releases[k'].data) else None, k);
    }
  }

  lemma IngestAccountsHere(db: Db, h: seq<Result>, source: string, r: Result)
    requires Accounts(db, h, Slot(source, r.version))
    ensures Accounts(Ingest(db, source, r), h + [r], Slot(source, r.version))
  {
    var k := Slot(source, r.version);
    if h == [] {
      CountsOfIngest(db.ledger, k, r, false, None, k);
      assert Changes([r]) == 0 && h + [r] == [r];
    } else {
      var old_ := StoredChangelog(RawData(h[|h| - 1]));
      CountsOfIngest(db.ledger, k, r, true, old_, k);
      ChangesStep(h, r);
      assert Jobs(db, k, r) == JobsFor(k, r, true, old_);
    }
  }

  /** When transactions are serial, the notify jobs of a release number one, for its insertion, plus the
      committed updates whose non-empty changelog differed from the stored one. */
  lemma {:induction false} SerialNotifies(ops: seq<Op>, k: Slot)
    ensures Accounts(Serial(ops), History(ops, k), k)
  {
    if ops != [] {
      var before, op := ops[..|ops| - 1], ops[|ops| - 1];
      SerialNotifies(before, k);
      IngestAccounts(Serial(before), History(before, k), k, op.source, op.result);
      assert History(before, k) + [] == History(before, k);
    }
  }

  // ---- rerunning a batch ---------------------------------------------------------------------

  ghost predicate DistinctVersions(rs: seq<Result>) {
    forall i, j :: 0 <= i < j < |rs| ==> rs[i].version != rs[j].version
  }

  predicate Clean(r: Result) { r.changelog == [] || Utf8(r.changelog) }

  /** The jobs a second pass over rs adds when every row already is as rs left it. */
  function Renotified(source: string, rs: seq<Result>): seq<Job> {
    if rs == [] then []
    else (if Clean(rs[0]) then [] else [Notify(Slot(source, rs[0].version), true)]) + Renotified(source, rs[1..])
  }

  ghost predicate Settled(db: Db, source: string, rs: seq<Result>) {
    forall i :: 0 <= i < |rs| ==>
      Slot(source, rs[i].version) in db.releases && db.releases[Slot(source, rs[i].version)] == RowOf(rs[i])
  }

  lemma {:induction false} IngestAllAppend(db: Db, source: string, xs: seq<Result>, ys: seq<Result>)
    ensures IngestAll(db, source, xs + ys) == IngestAll(IngestAll(db, source, xs), source, ys)
    decreases |xs|
  {
    if xs == [] {
      assert xs + ys == ys;
    } else {
      IngestAllAppend(Ingest(db, source, xs[0]), source, xs[1..], ys);
      assert (xs + ys)[1..] == xs[1..] + ys;
    }
  }

  lemma IngestNext(db: Db, source: string, rs: seq<Result>, i: nat)
    requires i < |rs|
    ensures IngestAll(db, source, rs[..i + 1]) == Ingest(IngestAll(db, source, rs[..i]), source, rs[i])
  {
    assert rs[..i + 1] == rs[..i] + [rs[i]];
    IngestAllAppend(db, source, rs[..i], [rs[i]]);
    var mid := IngestAll(db, source, rs[..i]);
    assert IngestAll(Ingest(mid, source, rs[i]), source, [rs[i]][1..]) == Ingest(mid, source, rs[i]);
  }

  lemma SettledStep(db: Db, source: string, rs: seq<Result>)
    requires DistinctVersions(rs) && rs != [] && Settled(db, source, rs[..|rs| - 1])
    ensures Settled(Ingest(db, source, rs[|rs| - 1]), source, rs)
  {
    forall i | 0 <= i < |rs| - 1
      ensures Slot(source, rs[i].version) in db.releases
              && db.releases[Slot(source, rs[i].version)] == RowOf(rs[i])
    {
      assert rs[..|rs| - 1][i] == rs[i];
    }
  }

  /** After a batch with distinct versions every row is as its result left it. */
  lemma {:induction false} Settles(db: Db, source: string, rs: seq<Result>)
    requires DistinctVersions(rs)
    ensures Settled(IngestAll(db, source, rs), source, rs)
    decreases |rs|
  {
    if rs != [] {
      var front, n := rs[..|rs| - 1], |rs| - 1;
      Settles(db, source, front);
      IngestNext(db, source, rs, n);
      assert rs[..n + 1] == rs;
      SettledStep(IngestAll(db, source, front), source, rs);
    }
  }

  /** Ingesting a settled batch again changes no row. For arbitrary Go strings it adds a notify job for
      each changelog that is not valid UTF-8, because what is stored then never equals what was given;
      a fetched changelog always is valid (Fetching). */
  lemma {:induction false} SecondPass(db: Db, source: string, rs: seq<Result>)
    requires Settled(db, source, rs)
    ensures IngestAll(db, source, rs) == Db(db.releases, db.ledger + Renotified(source, rs))
    decreases |rs|
  {
    if rs == [] {
      assert db.ledger + [] == db.ledger;
    } else {
      var r, k := rs[0], Slot(source, rs[0].version);
      MarshalledIff(r.changelog);
      var jobs := Jobs(db, k, r);
      assert jobs == if Clean(r) then [] else [Notify(k, true)];
      var db1 := Ingest(db, source, r);
      assert db1.releases == db.releases;
      SecondPass(db1, source, rs[1..]);
      assert db.ledger + jobs + Renotified(source, rs[1..]) == db.ledger + (jobs + Renotified(source, rs[1..]));
    }
  }

  /** The jobs a batch adds depend on the rows, not on the ledger it starts from. */
  lemma {:induction false} LedgerIsAppendOnly(db: Db, extra: seq<Job>, source: string, rs: seq<Result>)
    returns (added: seq<Job>)
    ensures IngestAll(db, source, rs).ledger == db.ledger + added
    ensures IngestAll(Db(db.releases, db.ledger + extra), source, rs)
            == Db(IngestAll(db, source, rs).releases, db.ledger + extra + added)
    decreases |rs|
  {
    if rs == [] {
      added := [];
    } else {
      var db1, jobs := Ingest(db, source, rs[0]), Jobs(db, Slot(source, rs[0].version), rs[0]);
      var e1 := extra + jobs;
      var rest := LedgerIsAppendOnly(Db(db1.releases, db.ledger), jobs, source, rs[1..]);
      var rest' := LedgerIsAppendOnly(Db(db1.releases, db.ledger), e1, source, rs[1..]);
      assert db.ledger + rest == db.ledger + rest';
      assert rest == (db.ledger + rest)[|db.ledger|..] == rest';
      added := jobs + rest;
      assert db.ledger + jobs + rest == db.ledger + added;
      assert db.ledger + e1 == db.ledger + extra + jobs;
      assert db.ledger + e1 + rest == db.ledger + extra + added;
    }
  }

  lemma {:induction false} NothingRenotifiedIff(source: string, rs: seq<Result>)
    ensures Renotified(source, rs) == [] <==> forall i :: 0 <= i < |rs| ==> Clean(rs[i])
  {
    if rs != [] {
      NothingRenotifiedIff(source, rs[1..]);
      assert forall i :: 0 <= i < |rs[1..]| ==> rs[1..][i] == rs[i + 1];
      if forall i :: 0 <= i < |rs[1..]| ==> Clean(rs[1..][i]) {
        if Clean(rs[0]) {
          forall i | 0 <= i < |rs| ensures Clean(rs[i]) { if i > 0 { assert rs[i] == rs[1..][i - 1]; } }
        }
      }
    }
  }

  /** When the first n results are ingested and then all of them, the rows are the same as without the first
      n, and the ledger is the same if and only if none of the n changelogs holds invalid UTF-8. */
  lemma PrefixAgain(db: Db, source: string, rs: seq<Result>, n: nat)
    requires DistinctVersions(rs) && n <= |rs|
    ensures var once, again := IngestAll(db, source, rs), IngestAll(IngestAll(db, source, rs[..n]), source, rs);
      && again.releases == once.releases
      && (again.ledger == once.ledger <==> forall i :: 0 <= i < n ==> Clean(rs[i]))
  {
    var head, tail := rs[..n], rs[n..];
    assert rs == head + tail;
    var db1 := IngestAll(db, source, head);
    Settles(db, source, head);
    SecondPass(db1, source, head);
    IngestAllAppend(db, source, head, tail);
    IngestAllAppend(db1, source, head, tail);
    var extra := Renotified(source, head);
    var added := LedgerIsAppendOnly(db1, extra, source, tail);
    NothingRenotifiedIff(source, head);
    assert forall i :: 0 <= i < n ==> head[i] == rs[i];
    if extra == [] {
      assert db1.ledger + extra == db1.ledger;
    } else {
      assert |db1.ledger + extra + added| != |db1.ledger + added|;
    }
  }

  // ---- passes over a batch ---------------------------------------------------------------------

  const VERSION_LIMIT := 100

  /** What the table takes: version is a VARCHAR(100), and neither text nor jsonb can hold a NUL. */
  predicate Holds(version: string, raw: map<string, Text>) {
    && |version| <= VERSION_LIMIT && '\0' !in version
    && forall k :: k in raw ==> '\0' !in k && Valid('\0') !in raw[k]
  }

  predicate Storable(r: Result) { Holds(r.version, RawData(r)) }

  /** t' is t with U+FFFD for every byte that is not valid UTF-8. */
  ghost predicate WrittenAs(t: Text, t': Text) {
    |t'| == |t| && forall i :: 0 <= i < |t| ==> t'[i] == if t[i].Valid? then t[i] else Valid('\U{FFFD}')
  }

  /** The row holds the result: every metadata entry and, when there is one, the changelog; released_at is the
      timestamp. */
  ghost predicate StoredAs(r: Result, row: Release) {
    && row.releasedAt == r.timestamp
    && (forall key :: key in row.data <==> key in r.metadata || (key == "changelog" && r.changelog != []))
    && (forall key :: key in r.metadata && !(key == "changelog" && r.changelog != []) ==>
          WrittenAs(r.metadata[key], row.data[key]))
    && (r.changelog != [] ==> WrittenAs(r.changelog, row.data["changelog"]))
  }

  /** At most 100 characters of version, and no NUL in anything that is stored. */
  ghost predicate Acceptable(r: Result) {
    && |r.version| <= 100 && '\0' !in r.version && Valid('\0') !in r.changelog
    && (forall key :: key in r.metadata ==> '\0' !in key)
    && (forall key :: key in r.metadata && !(key == "changelog" && r.changelog != []) ==>
          Valid('\0') !in r.metadata[key])
  }

  lemma MarshalledHasNul(t: Text)
    ensures Valid('\0') in Marshalled(t) <==> Valid('\0') in t
  {
    if Valid('\0') in t {
      var i :| 0 <= i < |t| && t[i] == Valid('\0');
      assert Marshalled(t)[i] == Valid('\0');
    }
    if Valid('\0') in Marshalled(t) {
      var i :| 0 <= i < |t| && Marshalled(t)[i] == Valid('\0');
      assert t[i] == Valid('\0');
    }
  }

  lemma StorableIff(r: Result)
    ensures Storable(r) <==> Acceptable(r)
  {
    var raw := RawData(r);
    MarshalledHasNul(r.changelog);
    forall key | key in r.metadata
      ensures Valid('\0') in Marshalled(r.metadata[key]) <==> Valid('\0') in r.metadata[key]
    {
      MarshalledHasNul(r.metadata[key]);
    }
    assert forall key :: key in raw <==> key in r.metadata || (key == "changelog" && r.changelog != []);
    if r.changelog != [] {
      assert raw["changelog"] == Marshalled(r.changelog);
    } else {
      assert Valid('\0') !in r.changelog;
    }
  }

  lemma RowIsStored(r: Result)
    ensures StoredAs(r, RowOf(r))
  {
  }

  /** What one ingest does to the tables: the row of the release, and its jobs: two for a new release, one for
      a changelog that was added or changed, else none. */
  ghost predicate Ingested(db: Db, db': Db, source: string, r: Result) {
    var k := Slot(source, r.version);
    && db'.releases.Keys == db.releases.Keys + {k} && StoredAs(r, db'.releases[k])
    && (forall x :: x in db.releases && x != k ==> db'.releases[x] == db.releases[x])
    && db'.ledger == db.ledger +
         if k !in db.releases then [Notify(k, false), GateCheck(k)]
         else if r.changelog != [] && ("changelog" in db.releases[k].data ==>
                                         db.releases[k].data["changelog"] != r.changelog)
         then [Notify(k, true)] else []
  }

  lemma IngestInColumns(db: Db, source: string, r: Result)
    ensures Ingested(db, Ingest(db, source, r), source, r)
  {
    RowIsStored(r);
  }

  /** How the transaction of r ends: when the table cannot hold r it fails in any case. */
  function Ending(r: Result, fault: Fault): Fault { if Storable(r) then fault else NotApplied }

  /** How many results of a batch reach the store when its transactions meet these faults: those before the
      first error, and that one too if it was applied. */
  function Applied(rs: seq<Result>, faults: seq<Fault>): (n: nat)
    requires |faults| == |rs|
    ensures n <= |rs|
    decreases |rs|
  {
    if rs == [] || Ending(rs[0], faults[0]) == NotApplied then 0
    else if Ending(rs[0], faults[0]) == AppliedThenError then 1
    else 1 + Applied(rs[1..], faults[1..])
  }

  lemma AppliedFrom(rs: seq<Result>, faults: seq<Fault>, i: nat)
    requires |faults| == |rs| && i < |rs|
    ensures Applied(rs[i..], faults[i..])
            == match Ending(rs[i], faults[i])
               case NotApplied => 0
               case AppliedThenError => 1
               case Ok => 1 + Applied(rs[i + 1..], faults[i + 1..])
  {
    assert rs[i..][1..] == rs[i + 1..] && faults[i..][1..] == faults[i + 1..];
  }

  function Undisturbed(rs: seq<Result>): seq<Fault> { seq(|rs|, _ => Ok) }

  /** What ProcessResults leaves behind. */
  function Pass(db: Db, source: string, rs: seq<Result>, faults: seq<Fault>): Db
    requires |faults| == |rs|
  {
    IngestAll(db, source, rs[..Applied(rs, faults)])
  }

  /** The results before the first one the table cannot hold. */
  function Reach(rs: seq<Result>): (n: nat)
    ensures n <= |rs|
  {
    if rs == [] || !Storable(rs[0]) then 0 else 1 + Reach(rs[1..])
  }

  lemma {:induction false} ReachIff(rs: seq<Result>, i: nat)
    requires i < |rs|
    ensures i < Reach(rs) <==> forall j :: 0 <= j <= i ==> Acceptable(rs[j])
    decreases |rs|
  {
    StorableIff(rs[0]);
    if Storable(rs[0]) && i > 0 {
      ReachIff(rs[1..], i - 1);
      assert forall j :: 0 <= j < i ==> rs[1..][j] == rs[j + 1];
      if forall j :: 0 <= j <= i - 1 ==> Acceptable(rs[1..][j]) {
        forall j | 0 <= j <= i ensures Acceptable(rs[j]) { if j > 0 { assert rs[j] == rs[1..][j - 1]; } }
      } else {
        var j :| 0 <= j <= i - 1 && !Acceptable(rs[1..][j]);
        assert !Acceptable(rs[j + 1]);
      }
    }
  }

  /** No pass gets beyond the reach of the batch, and an undisturbed pass gets that far. */
  lemma {:induction false} AppliedWithinReach(rs: seq<Result>, faults: seq<Fault>)
    requires |faults| == |rs|
    ensures Applied(rs, faults) <= Reach(rs) && Applied(rs, Undisturbed(rs)) == Reach(rs)
    decreases |rs|
  {
    if rs != [] {
      AppliedWithinReach(rs[1..], faults[1..]);
      assert Undisturbed(rs)[1..] == Undisturbed(rs[1..]);
    }
  }

  lemma {:induction false} SlotsAfter(db: Db, source: string, rs: seq<Result>, k: Slot)
    ensures k in IngestAll(db, source, rs).releases <==>
            k in db.releases || exists i :: 0 <= i < |rs| && Slot(source, rs[i].version) == k
    decreases |rs|
  {
    if rs != [] {
      SlotsAfter(Ingest(db, source, rs[0]), source, rs[1..], k);
      assert forall i :: 0 <= i < |rs[1..]| ==> rs[1..][i] == rs[i + 1];
      assert (exists i :: 0 <= i < |rs| && Slot(source, rs[i].version) == k) ==>
          Slot(source, rs[0].version) == k
          || exists i :: 0 <= i < |rs[1..]| && Slot(source, rs[1..][i].version) == k by {
        if i :| 0 <= i < |rs| && Slot(source, rs[i].version) == k {
          if i > 0 { assert rs[1..][i - 1] == rs[i]; }
        }
      }
    }
  }

  /** A pass without faults stores exactly the results before the first one the table cannot hold: that one
      keeps everything behind it out. */
  lemma StoredIff(db: Db, source: string, rs: seq<Result>, i: nat)
    requires DistinctVersions(rs) && i < |rs|
    ensures Slot(source, rs[i].version) in Pass(db, source, rs, Undisturbed(rs)).releases
            <==> Slot(source, rs[i].version) in db.releases || forall j :: 0 <= j <= i ==> Acceptable(rs[j])
  {
    ReachIff(rs, i);
    AppliedWithinReach(rs, Undisturbed(rs));
    var head := rs[..Reach(rs)];
    SlotsAfter(db, source, head, Slot(source, rs[i].version));
    if i < Reach(rs) { assert head[i] == rs[i]; }
  }

  /** A batch that meets any faults and is run again without leaves the same rows as one undisturbed pass,
      and, for arbitrary Go strings, the same ledger if and only if no changelog the first pass stored holds
      invalid UTF-8. For fetched batches see Fetching.FetchedRerun. */
  lemma RerunIff(db: Db, source: string, rs: seq<Result>, faults: seq<Fault>)
    requires DistinctVersions(rs) && |faults| == |rs|
    ensures var once := Pass(db, source, rs, Undisturbed(rs));
      var again := Pass(Pass(db, source, rs, faults), source, rs, Undisturbed(rs));
      && again.releases == once.releases
      && (again.ledger == once.ledger <==> forall i :: 0 <= i < Applied(rs, faults) ==> Clean(rs[i]))
  {
    AppliedWithinReach(rs, faults);
    var n, head := Applied(rs, faults), rs[..Reach(rs)];
    assert head[..n] == rs[..n];
    PrefixAgain(db, source, head, n);
    assert forall i :: 0 <= i < n ==> head[i] == rs[i];
  }

  // ---- the code ------------------------------------------------------------------------------

  class PgStore {
    var releases: map<Slot, Release>
    var ledger: seq<Job>

    function Contents(): Db reads this { Db(releases, ledger) }

    constructor ()
      ensures Contents() == Db(map[], [])
    {
      releases, ledger := map[], [];
    }

    /** The metadata and the changelog, marshalled. */
    static method BuildRaw(r: Result) returns (raw: map<string, Text>)
      ensures raw == RawData(r)
    {
      raw := map[];
      var left := r.metadata.Keys;
      while left != {}
        invariant left <= r.metadata.Keys
        invariant raw == map k | k in r.metadata && k !in left :: Marshalled(r.metadata[k])
        decreases left
      {
        var k :| k in left;
        raw := raw[k := Marshalled(r.metadata[k])];
        left := left - {k};
      }
      assert raw == map k | k in r.metadata :: Marshalled(r.metadata[k]);
      if r.changelog != [] { raw := raw["changelog" := Marshalled(r.changelog)]; }
    }

    /** One transaction: it commits and says so, fails and leaves nothing, or commits although the
        caller is told that it failed. It always fails for a result the table cannot hold. */
    method IngestRelease(source: string, r: Result, fault: Fault) returns (res: IngestResult, err: bool)
      modifies this
      ensures err <==> fault != Ok || !Acceptable(r)
      ensures if fault != NotApplied && Acceptable(r) then Ingested(old(Contents()), Contents(), source, r)
              else Contents() == old(Contents())
      ensures err <==> Ending(r, fault) != Ok
      ensures Contents() == if Ending(r, fault) == NotApplied then old(Contents())
                            else Ingest(old(Contents()), source, r)
      ensures !err ==> res == (if Slot(source, r.version) !in old(releases) then IngestNew
                               else if Jobs(old(Contents()), Slot(source, r.version), r) != [] then IngestUpdated
                               else IngestSkipped)
    {
      res, err := IngestSkipped, true;
      StorableIff(r);
      IngestInColumns(Contents(), source, r);
      var raw := BuildRaw(r);
      var k := Slot(source, r.version);
      var isNew := k !in releases;
      var oldChangelog := if isNew then None else StoredChangelog(releases[k].data);
      var changelogAdded := !isNew && r.changelog != [] &&
        (oldChangelog.None? || oldChangelog.value == [] || oldChangelog.value != r.changelog);
      var jobs: seq<Job> := [];
      if isNew || changelogAdded { jobs := jobs + [Notify(k, changelogAdded)]; }
      if isNew { jobs := jobs + [GateCheck(k)]; }
      if !Holds(r.version, raw) || fault == NotApplied { return; }
      releases, ledger := releases[k := Release(raw, r.timestamp)], ledger + jobs;
      if fault == AppliedThenError { return; }
      return if isNew then IngestNew else if changelogAdded then IngestUpdated else IngestSkipped, false;
    }
  }

  /** One turn of the loop of ProcessResults. */
  lemma NextResult(db: Db, source: string, rs: seq<Result>, faults: seq<Fault>, i: nat)
    requires |faults| == |rs| && i < |rs| && Applied(rs, faults) == i + Applied(rs[i..], faults[i..])
    ensures Ending(rs[i], faults[i]) == if Acceptable(rs[i]) then faults[i] else NotApplied
    ensures IngestAll(db, source, rs[..i + 1]) == Ingest(IngestAll(db, source, rs[..i]), source, rs[i])
    ensures Applied(rs, faults) == i + match Ending(rs[i], faults[i])
                                       case NotApplied => 0
                                       case AppliedThenError => 1
                                       case Ok => 1 + Applied(rs[i + 1..], faults[i + 1..])
  {
    IngestNext(db, source, rs, i);
    AppliedFrom(rs, faults, i);
    StorableIff(rs[i]);
  }

  class Service {
    const store: PgStore

    constructor (store: PgStore)
      ensures this.store == store
    {
      this.store := store;
    }

    /** Stops at the first error, with a prefix of the batch in the store. */
    method ProcessResults(source: string, results: seq<Result>, faults: seq<Fault>) returns (err: bool)
      requires |faults| == |results|
      modifies store
      ensures err <==> exists i :: 0 <= i < |results| && (faults[i] != Ok || !Acceptable(results[i]))
      ensures !err ==> store.Contents() == IngestAll(old(store.Contents()), source, results)
      ensures store.Contents() == Pass(old(store.Contents()), source, results, faults)
    {
      var i := 0;
      assert results[0..] == results && faults[0..] == faults;
      while i < |results|
        invariant 0 <= i <= |results| && Applied(results, faults) == i + Applied(results[i..], faults[i..])
        invariant forall n :: 0 <= n < i ==> faults[n] == Ok && Acceptable(results[n])
        invariant store.Contents() == IngestAll(old(store.Contents()), source, results[..i])
      {
        var res, ingestErr := store.IngestRelease(source, results[i], faults[i]);
        NextResult(old(store.Contents()), source, results, faults, i);
        if ingestErr { return true; }
        i := i + 1;
      }
      assert results[..i] == results;
      return false;
    }
  }
}
