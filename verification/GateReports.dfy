/** No report of a source is lost: a check job ends only when its source is in the row, or the row is opened. */
module GateReports {
  import opened Common
  import opened VersionTemplate
  import opened GateModel
  import opened GateInvariant
  import opened GateTheorems
  import opened GateMarks

  ghost predicate Arrived(s: Sys, k: Key, src: SourceId) {
    k in s.rows && (src in s.rows[k].met || s.rows[k].status != Pending)
  }

  /** A check job that is past its upsert has reported. */
  ghost predicate ReportOk(c: Config, s: Sys, j: Job) {
    j.Check? && Gated(c, j.source) && j.ck != CkQueued && j.ck != CkLoaded ==>
      Arrived(s, KeyOf(c, j.source, j.raw), j.source)
  }

  ghost predicate ReportsOk(c: Config, s: Sys) { forall id :: id in s.jobs ==> ReportOk(c, s, s.jobs[id]) }

  lemma StaysArrived(s: Sys, s': Sys, k: Key, src: SourceId)
    requires Evolves(s, s') && Arrived(s, k, src)
    ensures Arrived(s', k, src)
  {
    assert RowEvolves(s.rows[k], s'.rows[k]);
  }

  lemma CheckReports(c: Config, s: Sys, id: JobId, src: SourceId, raw: string, pc: CheckPc, o: Outcome)
    requires ReportOk(c, s, Check(src, raw, pc)) && id in s.jobs && s.jobs[id] == Check(src, raw, pc)
    ensures var s' := StepCheck(c, s, id, src, raw, pc, o);
      id in s'.jobs && s'.jobs[id].Check? && s'.jobs[id].source == src && s'.jobs[id].raw == raw
    ensures var s' := StepCheck(c, s, id, src, raw, pc, o);
      Gated(c, src) && s'.jobs[id].ck != CkQueued && s'.jobs[id].ck != CkLoaded ==>
        Arrived(s, KeyOf(c, src, raw), src) || Arrived(s', KeyOf(c, src, raw), src)
  {
    if pc.CkMerged? && Gated(c, src) {
      OpenLands(s, id, KeyOf(c, src, raw), Ready, o.fault, Check(src, raw, CkOpened), Check(src, raw, CkDone),
                Check(src, raw, CkQueued));
    }
  }

  lemma AdvanceReports(c: Config, s: Sys, id: JobId, o: Outcome)
    requires id in s.jobs && o.newId !in s.jobs && ReportsOk(c, s) && Evolves(s, StepJob(c, s, id, o))
    ensures ReportsOk(c, StepJob(c, s, id, o))
  {
    var s' := StepJob(c, s, id, o);
    forall x | x in s'.jobs ensures ReportOk(c, s', s'.jobs[x]) {
      if x == id {
        OwnReport(c, s, id, o);
      } else if x in s.jobs {
        OtherJobsStay(c, s, id, o, x);
        StillReported(c, s, s', s.jobs[x]);
      } else {
        NewJobsAreEvaluations(c, s, id, o, x);
      }
    }
  }

  lemma StillReported(c: Config, s: Sys, s': Sys, j: Job)
    requires Evolves(s, s') && ReportOk(c, s, j)
    ensures ReportOk(c, s', j)
  {
    if j.Check? && Gated(c, j.source) && j.ck != CkQueued && j.ck != CkLoaded {
      StaysArrived(s, s', KeyOf(c, j.source, j.raw), j.source);
    }
  }

  lemma OwnReport(c: Config, s: Sys, id: JobId, o: Outcome)
    requires id in s.jobs && ReportOk(c, s, s.jobs[id]) && Evolves(s, StepJob(c, s, id, o))
    ensures var s' := StepJob(c, s, id, o); id in s'.jobs ==> ReportOk(c, s', s'.jobs[id])
  {
    var s' := StepJob(c, s, id, o);
    match s.jobs[id] {
      case Check(src, raw, pc) =>
        CheckReports(c, s, id, src, raw, pc, o);
        if Gated(c, src) && Arrived(s, KeyOf(c, src, raw), src) { StaysArrived(s, s', KeyOf(c, src, raw), src); }
      case NlEval(k, pc) => NotACheck(c, s, id, o);
      case Sweep(pc) => NotACheck(c, s, id, o);
      case Notify(_, _, _) => NotACheck(c, s, id, o);
    }
  }

  lemma NotACheck(c: Config, s: Sys, id: JobId, o: Outcome)
    requires id in s.jobs && !s.jobs[id].Check?
    ensures var s' := StepJob(c, s, id, o); id in s'.jobs ==> !s'.jobs[id].Check?
  {
    match s.jobs[id] {
      case NlEval(k, pc) =>
        if pc == NlSaved {
          OpenLands(s, id, k, Ready, o.fault, NlEval(k, NlOpened), NlEval(k, NlDone), NlEval(k, NlQueued));
        }
      case Sweep(pc) => SweepStaysSweep(s, id, pc, o);
      case Notify(_, _, _) =>
    }
  }

  lemma SweepStaysSweep(s: Sys, id: JobId, pc: SweepPc, o: Outcome)
    requires id in s.jobs && s.jobs[id] == Sweep(pc)
    ensures var s' := StepSweep(s, id, pc, o); id in s'.jobs && s'.jobs[id].Sweep?
  {
    if pc.SwLooping? && pc.todo != [] {
      var on := Sweep(SwLooping(pc.todo[1..]));
      OpenLands(s, id, pc.todo[0], TimedOut, o.fault, Sweep(SwOpened(pc.todo[0], pc.todo[1..])), on, on);
    }
  }

  lemma StepReports(c: Config, s: Sys, a: Action)
    requires Inv(c, s) && Enabled(c, s, a) && ReportsOk(c, s)
    ensures ReportsOk(c, Apply(c, s, a))
  {
    StepKeeps(c, s, a);
    if a.Advance? {
      AdvanceReports(c, s, a.id, a.o);
    } else {
      OthersReport(c, s, a);
    }
  }

  lemma OthersReport(c: Config, s: Sys, a: Action)
    requires Enabled(c, s, a) && !a.Advance? && ReportsOk(c, s) && Evolves(s, Apply(c, s, a))
    ensures ReportsOk(c, Apply(c, s, a))
  {
    var s' := Apply(c, s, a);
    forall x | x in s'.jobs ensures ReportOk(c, s', s'.jobs[x]) {
      if x in s.jobs && s'.jobs[x] == s.jobs[x] { StillReported(c, s, s', s.jobs[x]); }
    }
  }

  lemma {:induction false} RunReports(c: Config, s: Sys, acts: seq<Action>, s': Sys)
    requires Inv(c, s) && Run(c, s, acts, s') && ReportsOk(c, s)
    ensures ReportsOk(c, s')
    decreases |acts|
  {
    if acts != [] {
      StepKeeps(c, s, acts[0]);
      StepReports(c, s, acts[0]);
      RunReports(c, Apply(c, s, acts[0]), acts[1..], s');
    }
  }

  /** Over every run, a check job that has ended has brought its source into the row of its version, unless
      the row was opened without it. */
  lemma NoReportLost(c: Config, t0: int, acts: seq<Action>, s: Sys, id: JobId, src: SourceId, raw: string)
    requires Run(c, Initial(t0), acts, s) && id in s.jobs && s.jobs[id] == Check(src, raw, CkDone)
    requires src in c.owner && c.owner[src] in c.gates && c.gates[c.owner[src]].enabled
    ensures var k := Key(c.owner[src], NormalizeVersionForSource(raw, src, c.gates[c.owner[src]].mappings, c.regex));
      k in s.rows && (src in s.rows[k].met || s.rows[k].status != Pending)
  {
    InitialOk(c, t0);
    RunReports(c, Initial(t0), acts, s);
    assert ReportOk(c, s, s.jobs[id]);
  }
}
