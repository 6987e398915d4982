/** Which rows can be completed at all, and the run that completes one. */
module GateCompletion {
  import opened Common
  import opened GateModel
  import opened GateInvariant
  import opened GateTheorems
  import opened GateUpserts

  /** Some version of source x makes it report to row k. */
  ghost predicate CanReport(c: Config, k: Key, x: SourceId) {
    Gated(c, x) && exists raw :: KeyOf(c, x, raw) == k
  }

  /** Row k can come into being and be completed. */
  ghost predicate Completable(c: Config, k: Key) {
    (exists x :: CanReport(c, k, x)) && forall x :: x in Required(c, k.project) ==> CanReport(c, k, x)
  }

  // ---- who is in the met list ----------------------------------------------------------------

  ghost predicate MetOk(c: Config, s: Sys) {
    forall k :: k in s.rows ==> RowMetOk(c, k, s.rows[k])
  }

  ghost predicate RowMetOk(c: Config, k: Key, r: Row) {
    r.met != [] && forall x :: x in r.met ==> CanReport(c, k, x)
  }

  ghost predicate SameMet(s: Sys, s': Sys) {
    s'.rows.Keys == s.rows.Keys && forall k :: k in s.rows ==> s'.rows[k].met == s.rows[k].met
  }

  lemma NlSameMet(c: Config, s: Sys, id: JobId, k: Key, pc: NlPc, o: Outcome)
    ensures SameMet(s, StepNl(c, s, id, k, pc, o))
  {
  }

  lemma SweepSameMet(s: Sys, id: JobId, pc: SweepPc, o: Outcome)
    ensures SameMet(s, StepSweep(s, id, pc, o))
  {
  }

  lemma CheckMet(c: Config, s: Sys, id: JobId, src: SourceId, raw: string, pc: CheckPc, o: Outcome)
    requires MetOk(c, s)
    ensures MetOk(c, StepCheck(c, s, id, src, raw, pc, o))
  {
    if pc == CkLoaded && Gated(c, src) {
      UpsertMet(c, s, src, raw);
    } else {
      CheckSameMet(c, s, id, src, raw, pc, o);
    }
  }

  lemma CheckSameMet(c: Config, s: Sys, id: JobId, src: SourceId, raw: string, pc: CheckPc, o: Outcome)
    requires pc != CkLoaded || !Gated(c, src)
    ensures SameMet(s, StepCheck(c, s, id, src, raw, pc, o))
  {
    if pc.CkMerged? && Gated(c, src) {
      OpenSameMet(s, id, KeyOf(c, src, raw), o.fault,
                  Check(src, raw, CkOpened), Check(src, raw, CkDone), Check(src, raw, CkQueued));
    }
  }

  lemma OpenSameMet(s: Sys, id: JobId, k: Key, fault: Fault, won: Job, beaten: Job, failed: Job)
    ensures SameMet(s, OpenStep(s, id, k, Ready, fault, won, beaten, failed))
  {
    assert SameMet(s, DoOpen(s, k, Ready, InFlight(id))) && SameMet(s, DoOpen(s, k, Ready, Lost));
  }

  lemma UpsertMet(c: Config, s: Sys, src: SourceId, raw: string)
    requires MetOk(c, s) && Gated(c, src)
    ensures MetOk(c, DoUpsert(c, s, KeyOf(c, src, raw), src))
  {
    var k := KeyOf(c, src, raw);
    assert CanReport(c, k, src);
    assert k in s.rows ==> RowMetOk(c, k, s.rows[k]);
  }

  lemma StepMet(c: Config, s: Sys, a: Action)
    requires MetOk(c, s) && Enabled(c, s, a)
    ensures MetOk(c, Apply(c, s, a))
  {
    if a.Advance? {
      match s.jobs[a.id] {
        case Check(src, raw, pc) => CheckMet(c, s, a.id, src, raw, pc, a.o);
        case NlEval(k, pc) => NlSameMet(c, s, a.id, k, pc, a.o);
        case Sweep(pc) => SweepSameMet(s, a.id, pc, a.o);
        case Notify(_, _, _) =>
      }
    }
  }

  /** Every source in a met list has reported a version of its own to that row. */
  lemma {:induction false} MetHaveReported(c: Config, s: Sys, acts: seq<Action>, s': Sys)
    requires MetOk(c, s) && Run(c, s, acts, s')
    ensures MetOk(c, s')
    decreases |acts|
  {
    if acts != [] {
      StepMet(c, s, acts[0]);
      MetHaveReported(c, Apply(c, s, acts[0]), acts[1..], s');
    }
  }

  /** In every run, a row with nothing missing is one that can be completed. */
  lemma CompleteIsCompletable(c: Config, t0: int, acts: seq<Action>, s: Sys, k: Key)
    requires Run(c, Initial(t0), acts, s) && k in s.rows && s.rows[k].missing == []
    ensures Completable(c, k)
  {
    InitialOk(c, t0);
    RunKeeps(c, Initial(t0), acts, s);
    MetHaveReported(c, Initial(t0), acts, s);
    assert RowOk(c, s, k) && RowMetOk(c, k, s.rows[k]);
    assert CanReport(c, k, s.rows[k].met[0]);
    forall x | x in Required(c, k.project) ensures CanReport(c, k, x) {
      assert x !in Minus(Required(c, k.project), s.rows[k].met);
    }
  }

  // ---- building runs -------------------------------------------------------------------------

  function Fine(flag: bool, newId: JobId): Outcome { Outcome(Ok, flag, [], newId) }

  /** No job is left, and row k, if there is one, is pending without an answer. */
  ghost predicate Quiet(s: Sys, k: Key) {
    && s.jobs == map[] && s.fate.Keys == s.rows.Keys
    && (k in s.rows ==> s.rows[k].status == Pending && s.rows[k].nlPassed == None)
  }

  function RowAt(s: Sys, k: Key): Option<Row> { if k in s.rows then Some(s.rows[k]) else None }

  function Upserted(c: Config, s: Sys, k: Key, src: SourceId): Rows {
    s.rows[k := UpsertedRow(s.rows, k, src, Required(c, k.project), Hours(c, k.project), s.now)]
  }

  lemma {:induction false} HappenedAppend(c: Config, s: Sys, acts: seq<Action>, mid: Sys, a: Action, e: Event)
    requires Run(c, s, acts, mid)
    ensures Happened(c, s, acts + [a], e) <==> Happened(c, s, acts, e) || Occurs(c, mid, a, e)
    decreases |acts|
  {
    if acts == [] {
      assert !Happened(c, Apply(c, s, a), [], e) && (acts + [a])[1..] == [];
    } else {
      HappenedAppend(c, Apply(c, s, acts[0]), acts[1..], mid, a, e);
      assert (acts + [a])[1..] == acts[1..] + [a];
    }
  }

  /** A run from s0 to s in which the evaluator has turned no row down. */
  ghost predicate Unrejected(c: Config, s0: Sys, acts: seq<Action>, s: Sys, k: Key) {
    Run(c, s0, acts, s) && !Happened(c, s0, acts, RuleRejected(k))
  }

  /** One more step, not of an evaluation. */
  lemma ThenUnrejected(c: Config, s0: Sys, acts0: seq<Action>, s1: Sys, a: Action, k: Key)
    returns (acts: seq<Action>, s: Sys)
    requires Unrejected(c, s0, acts0, s1, k) && Enabled(c, s1, a)
    requires a.Advance? ==> !s1.jobs[a.id].NlEval?
    ensures Unrejected(c, s0, acts, s, k) && s == Apply(c, s1, a)
  {
    HappenedAppend(c, s0, acts0, s1, a, RuleRejected(k));
    RunAppend(c, s0, acts0, s1, a);
    acts, s := acts0 + [a], Apply(c, s1, a);
  }

  lemma ReportMerges(c: Config, s0: Sys, acts0: seq<Action>, s1: Sys, src: SourceId, raw: string)
    returns (acts: seq<Action>, s: Sys)
    requires s1.jobs == map[] && Gated(c, src) && Unrejected(c, s0, acts0, s1, KeyOf(c, src, raw))
    ensures var k := KeyOf(c, src, raw);
      && Unrejected(c, s0, acts, s, k) && s.now == s1.now && s.rows == Upserted(c, s1, k, src)
      && s.fate.Keys == s1.fate.Keys + {k} && s.runs == s1.runs
      && s.jobs == map[0 := Check(src, raw, CkMerged(s.rows[k].missing == [], s.rows[k].nlPassed))]
  {
    acts, s := ReportLoads(c, s0, acts0, s1, src, raw);
    acts, s := ThenUnrejected(c, s0, acts, s, Advance(0, Fine(false, 9)), KeyOf(c, src, raw));
  }

  lemma ReportLoads(c: Config, s0: Sys, acts0: seq<Action>, s1: Sys, src: SourceId, raw: string)
    returns (acts: seq<Action>, s: Sys)
    requires s1.jobs == map[] && Gated(c, src) && Unrejected(c, s0, acts0, s1, KeyOf(c, src, raw))
    ensures Unrejected(c, s0, acts, s, KeyOf(c, src, raw)) && s == s1.(jobs := map[0 := Check(src, raw, CkLoaded)])
  {
    var k := KeyOf(c, src, raw);
    acts, s := ThenUnrejected(c, s0, acts0, s1, Submit(0, Check(src, raw, CkQueued)), k);
    assert s == s1.(jobs := map[0 := Check(src, raw, CkQueued)]);
    acts, s := ThenUnrejected(c, s0, acts, s, Advance(0, Fine(false, 9)), k);
    assert s.jobs == map[0 := Check(src, raw, CkLoaded)];
  }

  /** The check job of a source that does not complete the row ends. */
  lemma ReportEnds(c: Config, s0: Sys, acts0: seq<Action>, s1: Sys, src: SourceId, raw: string)
    returns (acts: seq<Action>, s: Sys)
    requires Gated(c, src) && Unrejected(c, s0, acts0, s1, KeyOf(c, src, raw))
    requires s1.jobs == map[0 := Check(src, raw, CkMerged(false, None))]
    ensures Unrejected(c, s0, acts, s, KeyOf(c, src, raw)) && s == s1.(jobs := map[])
  {
    var k := KeyOf(c, src, raw);
    acts, s := ThenUnrejected(c, s0, acts0, s1, Advance(0, Fine(false, 9)), k);
    assert s == s1.(jobs := map[0 := Check(src, raw, CkDone)]);
    acts, s := ThenUnrejected(c, s0, acts, s, Complete(0), k);
    assert s.jobs == map[];
  }

  /** The row has just been completed: the check job that did it is about to decide, nothing else is there. */
  ghost predicate JustCompleted(c: Config, s: Sys, k: Key, src: SourceId, raw: string) {
    && Gated(c, src) && KeyOf(c, src, raw) == k && s.jobs == map[0 := Check(src, raw, CkMerged(true, None))]
    && s.runs == [] && s.fate.Keys == s.rows.Keys && k in s.rows
    && s.rows[k].status == Pending && s.rows[k].missing == [] && s.rows[k].nlPassed == None && src in s.rows[k].met
  }

  lemma {:induction false} ReportedAppend(row: Option<Row>, rs: seq<Report>, r: Report, required: seq<SourceId>,
      hours: int)
    ensures Reported(row, rs + [r], required, hours)
            == Reported(Reported(row, rs, required, hours), [r], required, hours)
    decreases |rs|
  {
    if rs == [] {
      assert rs + [r] == [r];
    } else {
      var first := match row
                   case None => NewRow(rs[0].source, required, hours, rs[0].at)
                   case Some(q) => MergeRow(q, rs[0].source, required);
      ReportedAppend(Some(first), rs[1..], r, required, hours);
      assert (rs + [r])[1..] == rs[1..] + [r];
    }
  }

  lemma ReportsAppend(rs: seq<Report>, r: Report, x: SourceId)
    ensures Reports(rs + [r], x) <==> Reports(rs, x) || r.source == x
  {
    if Reports(rs, x) {
      var i :| 0 <= i < |rs| && rs[i].source == x;
      assert (rs + [r])[i].source == x;
    }
    if r.source == x { assert (rs + [r])[|rs|].source == x; }
  }

  /** What the row is before the sources xs report: not complete, and built by the reports so far. */
  ghost predicate Building(c: Config, s: Sys, k: Key, past: seq<Report>, xs: seq<SourceId>) {
    && Quiet(s, k) && s.runs == [] && RowAt(s, k) == Reported(None, past, Required(c, k.project), Hours(c, k.project))
    && (forall x :: x in Required(c, k.project) ==> Reports(past, x) || x in xs)
    && (forall x :: x in xs ==> CanReport(c, k, x))
  }

  /** A merge extends the reports by one; the last one completes the row. */
  lemma MergeBuilds(c: Config, s: Sys, k: Key, past: seq<Report>, xs: seq<SourceId>, rows: Rows)
    requires Building(c, s, k, past, xs) && xs != [] && rows == Upserted(c, s, k, xs[0])
    ensures var past' := past + [Report(xs[0], s.now)];
      && Some(rows[k]) == Reported(None, past', Required(c, k.project), Hours(c, k.project))
      && (forall x :: x in Required(c, k.project) ==> Reports(past', x) || x in xs[1..])
    ensures rows[k].status == Pending && rows[k].nlPassed == None && xs[0] in rows[k].met
    ensures |xs| == 1 ==> rows[k].missing == []
  {
    var r, required, hours := Report(xs[0], s.now), Required(c, k.project), Hours(c, k.project);
    ReportedAppend(None, past, r, required, hours);
    assert Reported(Some(rows[k]), [], required, hours) == Some(rows[k]) && [r][1..] == [];
    forall x ensures Reports(past + [r], x) <==> Reports(past, x) || r.source == x { ReportsAppend(past, r, x); }
    AllMetIff(past + [r], required, hours);
  }

  lemma {:induction false} CompletesFrom(c: Config, k: Key, s0: Sys, acts0: seq<Action>, s1: Sys, past: seq<Report>,
      xs: seq<SourceId>)
    returns (acts: seq<Action>, s: Sys, src: SourceId, raw: string)
    requires Unrejected(c, s0, acts0, s1, k) && Building(c, s1, k, past, xs) && xs != []
    ensures Unrejected(c, s0, acts, s, k) && JustCompleted(c, s, k, src, raw)
    decreases |xs|
  {
    src := xs[0];
    assert CanReport(c, k, src);
    raw :| KeyOf(c, src, raw) == k;
    acts, s := ReportMerges(c, s0, acts0, s1, src, raw);
    MergeBuilds(c, s1, k, past, xs, s.rows);
    if s.rows[k].missing != [] {
      acts, s := ReportEnds(c, s0, acts, s, src, raw);
      acts, s, src, raw := CompletesFrom(c, k, s0, acts, s, past + [Report(xs[0], s1.now)], xs[1..]);
    }
  }

  /** Sources report one after the other until the row is complete. */
  lemma Completes(c: Config, t0: int, k: Key) returns (acts: seq<Action>, s: Sys, src: SourceId, raw: string)
    requires Completable(c, k)
    ensures Unrejected(c, Initial(t0), acts, s, k) && JustCompleted(c, s, k, src, raw)
  {
    var first :| CanReport(c, k, first);
    var xs := [first] + Required(c, k.project);
    assert Building(c, Initial(t0), k, [], xs);
    acts, s, src, raw := CompletesFrom(c, k, Initial(t0), [], Initial(t0), [], xs);
  }
}
