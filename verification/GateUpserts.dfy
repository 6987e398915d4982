/** What a series of upserts makes of one row of version_readiness. */
module GateUpserts {
  import opened Common
  import opened GateModel
  import opened GateInvariant

  /** One upsert: the source that reports and the clock of the statement. */
  datatype Report = Report(source: SourceId, at: int)

  function Reported(row: Option<Row>, reports: seq<Report>, required: seq<SourceId>, hours: int): Option<Row>
    decreases |reports|
  {
    if reports == [] then row
    else
      var first := match row
                   case None => NewRow(reports[0].source, required, hours, reports[0].at)
                   case Some(r) => MergeRow(r, reports[0].source, required);
      Reported(Some(first), reports[1..], required, hours)
  }

  ghost predicate Reports(reports: seq<Report>, x: SourceId) {
    exists i :: 0 <= i < |reports| && reports[i].source == x
  }

  lemma ReportsSplit(reports: seq<Report>, x: SourceId)
    requires reports != []
    ensures Reports(reports, x) <==> reports[0].source == x || Reports(reports[1..], x)
  {
    if Reports(reports, x) {
      var i :| 0 <= i < |reports| && reports[i].source == x;
      if i > 0 { assert reports[1..][i - 1].source == x; }
    }
    if Reports(reports[1..], x) {
      var i :| 0 <= i < |reports[1..]| && reports[1..][i].source == x;
      assert reports[i + 1].source == x;
    }
  }

  /** A pending row after any series of upserts: met holds, without duplicates, what it held and every
      source that reported; missing is required minus met; status, deadline and creation are as before. */
  lemma {:induction false} PendingAfter(r: Row, reports: seq<Report>, required: seq<SourceId>, hours: int)
    requires r.status == Pending && Distinct(r.met) && r.missing == Minus(required, r.met)
    ensures var end := Reported(Some(r), reports, required, hours);
      && end.Some? && end.value == r.(met := end.value.met, missing := end.value.missing)
      && Distinct(end.value.met) && r.met <= end.value.met
      && (forall x :: x in end.value.met <==> x in r.met || Reports(reports, x))
      && end.value.missing == Minus(required, end.value.met)
    decreases |reports|
  {
    if reports != [] {
      var src := reports[0].source;
      var r1 := MergeRow(r, src, required);
      MergeEvolves(r, src, required);
      PendingAfter(r1, reports[1..], required, hours);
      forall x ensures Reports(reports, x) <==> src == x || Reports(reports[1..], x) { ReportsSplit(reports, x); }
      assert forall x :: x in r1.met <==> x in r.met || x == src;
    }
  }

  /** A row built by a non-empty series of upserts from nothing. */
  lemma BuiltBy(reports: seq<Report>, required: seq<SourceId>, hours: int)
    requires reports != []
    ensures var end := Reported(None, reports, required, hours);
      && end.Some? && end.value.status == Pending && Distinct(end.value.met)
      && (forall x :: x in end.value.met <==> Reports(reports, x))
      && end.value.missing == Minus(required, end.value.met)
      && end.value.createdAt == reports[0].at
      && end.value.timeoutAt == reports[0].at + SECONDS_PER_HOUR * hours
      && end.value.nlPassed == None && !end.value.triggered
  {
    var r := NewRow(reports[0].source, required, hours, reports[0].at);
    PendingAfter(r, reports[1..], required, hours);
    forall x ensures Reports(reports, x) <==> reports[0].source == x || Reports(reports[1..], x) {
      ReportsSplit(reports, x);
    }
  }

  lemma {:induction false} MinusSameSet(req: seq<SourceId>, xs: seq<SourceId>, ys: seq<SourceId>)
    requires forall x :: x in xs <==> x in ys
    ensures Minus(req, xs) == Minus(req, ys)
  {
    if req != [] {
      MinusSameSet(req[1..], xs, ys);
    }
  }

  /** The order of the upserts, duplicates and retries do not matter: two series in which the same
      sources report end with the same missing list, and met lists that are permutations of each other. */
  lemma OrderDoesNotMatter(a: seq<Report>, b: seq<Report>, required: seq<SourceId>, hours: int)
    requires a != [] && b != [] && forall x :: Reports(a, x) <==> Reports(b, x)
    ensures var ra, rb := Reported(None, a, required, hours), Reported(None, b, required, hours);
      && ra.Some? && rb.Some? && ra.value.missing == rb.value.missing
      && multiset(ra.value.met) == multiset(rb.value.met)
  {
    BuiltBy(a, required, hours);
    BuiltBy(b, required, hours);
    var ra, rb := Reported(None, a, required, hours).value, Reported(None, b, required, hours).value;
    MinusSameSet(required, ra.met, rb.met);
    SamePermutation(ra.met, rb.met);
  }

  lemma {:induction false} DistinctCount(s: seq<SourceId>, x: SourceId)
    requires Distinct(s)
    ensures multiset(s)[x] == if x in s then 1 else 0
  {
    if s != [] {
      var front, last := s[..|s| - 1], s[|s| - 1];
      assert s == front + [last];
      DistinctCount(front, x);
    }
  }

  lemma SamePermutation(a: seq<SourceId>, b: seq<SourceId>)
    requires Distinct(a) && Distinct(b) && forall x :: x in a <==> x in b
    ensures multiset(a) == multiset(b)
  {
    forall x ensures multiset(a)[x] == multiset(b)[x] {
      DistinctCount(a, x);
      DistinctCount(b, x);
    }
  }

  /** The gate is complete exactly when every required source has reported. */
  lemma AllMetIff(reports: seq<Report>, required: seq<SourceId>, hours: int)
    requires reports != []
    ensures var end := Reported(None, reports, required, hours);
      end.Some? && (end.value.missing == [] <==> forall x :: x in required ==> Reports(reports, x))
  {
    BuiltBy(reports, required, hours);
    var end := Reported(None, reports, required, hours).value;
    if end.missing != [] {
      assert end.missing[0] in end.missing;
      assert end.missing[0] in required && !Reports(reports, end.missing[0]);
    } else {
      forall x | x in required ensures Reports(reports, x) { assert x !in Minus(required, end.met); }
    }
  }

  /** Once a row is no longer pending, upserts do not change it. */
  lemma {:induction false} FrozenOnceOpen(r: Row, reports: seq<Report>, required: seq<SourceId>, hours: int)
    requires r.status != Pending
    ensures Reported(Some(r), reports, required, hours) == Some(r)
    decreases |reports|
  {
    if reports != [] {
      FrozenOnceOpen(r, reports[1..], required, hours);
    }
  }
}
