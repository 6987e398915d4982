/** When a row is left pending with nothing missing and no job to open it. GateTimeouts says for how long. */
module GateStuck {
  import opened Common
  import opened GateModel
  import opened GateInvariant
  import opened GateTheorems
  import opened GateCompletion

  /** No check job and no evaluation is queued or in flight. */
  ghost predicate NobodyLeft(s: Sys) {
    forall id :: id in s.jobs && (s.jobs[id].Check? || s.jobs[id].NlEval?) ==> IsDone(s.jobs[id])
  }

  /** Some run leaves row k stuck with nobody left, although the evaluator never turned it down. */
  ghost predicate CanGetStuck(c: Config, k: Key) {
    exists t0, acts, s :: Run(c, Initial(t0), acts, s) && NobodyLeft(s) && Stuck(s, k)
                          && !Happened(c, Initial(t0), acts, RuleRejected(k))
  }

  // ---- why a row is stuck --------------------------------------------------------------------

  ghost predicate Evaluating(j: Job, k: Key) {
    j.NlEval? && j.key == k && (j.nl == NlQueued || j.nl == NlLoaded || j.nl.NlEvaluated? || j.nl == NlSaved)
  }

  /** The job will still try to open row k, or ask whether it may be opened. */
  ghost predicate Cares(c: Config, j: Job, k: Key) { Closing(c, j, k) || Evaluating(j, k) }

  ghost predicate Served(c: Config, s: Sys, k: Key) {
    Stuck(s, k) ==> exists id :: id in s.jobs && Cares(c, s.jobs[id], k)
  }

  /** The two ways to abandon a row. */
  predicate Abandons(c: Config, s: Sys, a: Action, k: Key) {
    Occurs(c, s, a, EvalDropped(k)) || Occurs(c, s, a, RuleRejected(k))
  }

  /** Some job that matters for the open question of row k is there after a step of a check job. */
  lemma CheckServes(c: Config, s: Sys, id: JobId, src: SourceId, raw: string, pc: CheckPc, o: Outcome, k: Key)
    requires id in s.jobs && s.jobs[id] == Check(src, raw, pc) && o.newId !in s.jobs && Rule(c, k.project) != ""
    requires Closing(c, s.jobs[id], k) || (Gated(c, src) && KeyOf(c, src, raw) == k && pc == CkLoaded)
    requires !Abandons(c, s, Advance(id, o), k)
    ensures Served(c, StepCheck(c, s, id, src, raw, pc, o), k)
  {
    var s' := StepCheck(c, s, id, src, raw, pc, o);
    if Stuck(s', k) {
      if pc.CkMerged? && Rule(c, KeyOf(c, src, raw).project) != "" && pc.nl != Some(true) {
        assert s'.jobs[o.newId] == NlEval(k, NlQueued);
      } else {
        CheckStays(c, s, id, src, raw, pc, o, k);
      }
    }
  }

  lemma CheckStays(c: Config, s: Sys, id: JobId, src: SourceId, raw: string, pc: CheckPc, o: Outcome, k: Key)
    requires Gated(c, src) && KeyOf(c, src, raw) == k && Rule(c, k.project) != ""
    requires pc == CkQueued || pc == CkLoaded || (pc.CkMerged? && pc.allMet && pc.nl == Some(true))
    requires Stuck(StepCheck(c, s, id, src, raw, pc, o), k)
    ensures var s' := StepCheck(c, s, id, src, raw, pc, o); id in s'.jobs && Closing(c, s'.jobs[id], k)
  {
  }

  lemma NlServes(c: Config, s: Sys, id: JobId, k: Key, pc: NlPc, o: Outcome)
    requires id in s.jobs && s.jobs[id] == NlEval(k, pc) && Evaluating(s.jobs[id], k)
    requires !Abandons(c, s, Advance(id, o), k)
    ensures Served(c, StepNl(c, s, id, k, pc, o), k)
  {
    var s' := StepNl(c, s, id, k, pc, o);
    assert Stuck(s', k) ==> id in s'.jobs && Evaluating(s'.jobs[id], k);
  }

  /** A row gets into the state only by an upsert. */
  lemma NewlyStuck(c: Config, s: Sys, id: JobId, o: Outcome, k: Key)
    requires id in s.jobs && !Stuck(s, k) && Stuck(StepJob(c, s, id, o), k)
    ensures s.jobs[id].Check? && s.jobs[id].ck == CkLoaded && Gated(c, s.jobs[id].source)
            && KeyOf(c, s.jobs[id].source, s.jobs[id].raw) == k
  {
    match s.jobs[id] {
      case Check(src, raw, pc) =>
        if pc.CkMerged? && Gated(c, src) { OpenSticksNone(s, id, KeyOf(c, src, raw), Ready, o.fault, k); }
      case NlEval(k', pc) => if pc == NlSaved { OpenSticksNone(s, id, k', Ready, o.fault, k); }
      case Sweep(pc) => if pc.SwLooping? && pc.todo != [] { OpenSticksNone(s, id, pc.todo[0], TimedOut, o.fault, k); }
      case Notify(_, _, _) =>
    }
  }

  /** Opening a row makes no row stuck. */
  lemma OpenSticksNone(s: Sys, id: JobId, k': Key, status: Status, fault: Fault, k: Key)
    requires status != Pending && !Stuck(s, k)
    ensures forall won, beaten, failed :: !Stuck(OpenStep(s, id, k', status, fault, won, beaten, failed), k)
  {
  }

  lemma AdvanceServes(c: Config, s: Sys, id: JobId, o: Outcome, k: Key)
    requires id in s.jobs && o.newId !in s.jobs && Rule(c, k.project) != "" && Served(c, s, k)
    requires !Abandons(c, s, Advance(id, o), k)
    ensures Served(c, StepJob(c, s, id, o), k)
  {
    var s' := StepJob(c, s, id, o);
    if Stuck(s', k) {
      if Stuck(s, k) {
        var w :| w in s.jobs && Cares(c, s.jobs[w], k);
        if w != id {
          OtherJobsStay(c, s, id, o, w);
        } else if s.jobs[id].Check? {
          CheckServes(c, s, id, s.jobs[id].source, s.jobs[id].raw, s.jobs[id].ck, o, k);
        } else {
          NlServes(c, s, id, k, s.jobs[id].nl, o);
        }
      } else {
        NewlyStuck(c, s, id, o, k);
        CheckServes(c, s, id, s.jobs[id].source, s.jobs[id].raw, CkLoaded, o, k);
      }
    }
  }

  lemma StepServes(c: Config, s: Sys, a: Action, k: Key)
    requires Enabled(c, s, a) && Rule(c, k.project) != "" && Served(c, s, k) && !Abandons(c, s, a, k)
    ensures Served(c, Apply(c, s, a), k)
  {
    var s' := Apply(c, s, a);
    if a.Advance? {
      AdvanceServes(c, s, a.id, a.o, k);
    } else if Stuck(s', k) {
      assert Stuck(s, k);
      var w :| w in s.jobs && Cares(c, s.jobs[w], k);
      assert w in s'.jobs && Cares(c, s'.jobs[w], k);
    }
  }

  lemma {:induction false} RunServes(c: Config, s: Sys, acts: seq<Action>, s': Sys, k: Key)
    requires Run(c, s, acts, s') && Rule(c, k.project) != "" && Served(c, s, k)
    requires !Happened(c, s, acts, EvalDropped(k)) && !Happened(c, s, acts, RuleRejected(k))
    ensures Served(c, s', k)
    decreases |acts|
  {
    if acts != [] {
      StepServes(c, s, acts[0], k);
      RunServes(c, Apply(c, s, acts[0]), acts[1..], s', k);
    }
  }

  lemma NobodyServes(c: Config, s: Sys, k: Key)
    requires NobodyLeft(s) && Stuck(s, k)
    ensures !Served(c, s, k)
  {
    forall id | id in s.jobs ensures !Cares(c, s.jobs[id], k) {
    }
  }

  /** When neither a check job nor an evaluation is queued or in flight, a row is pending with nothing
      missing only if its gate has a rule, and some step of the run failed to insert its evaluation or ended
      one on a false answer. */
  lemma StuckOnlyIf(c: Config, t0: int, acts: seq<Action>, s: Sys, k: Key)
    requires Run(c, Initial(t0), acts, s) && NobodyLeft(s) && Stuck(s, k)
    ensures Rule(c, k.project) != ""
    ensures Happened(c, Initial(t0), acts, EvalDropped(k)) || Happened(c, Initial(t0), acts, RuleRejected(k))
  {
    NobodyServes(c, s, k);
    if Rule(c, k.project) == "" {
      NoStuckGate(c, t0, acts, s, k);
    } else if !Happened(c, Initial(t0), acts, EvalDropped(k)) && !Happened(c, Initial(t0), acts, RuleRejected(k)) {
      RunServes(c, Initial(t0), acts, s, k);
    }
  }

  // ---- a run that gets stuck -----------------------------------------------------------------

  /** All sources report and the evaluation job cannot be inserted, which is only logged. */
  lemma CompletableGetsStuck(c: Config, t0: int, k: Key) returns (acts: seq<Action>, s: Sys)
    requires Rule(c, k.project) != "" && Completable(c, k)
    ensures Unrejected(c, Initial(t0), acts, s, k) && s.jobs == map[] && Stuck(s, k)
  {
    var src, raw;
    var s0 := Initial(t0);
    acts, s, src, raw := Completes(c, t0, k);
    var s1 := s;
    acts, s := ThenUnrejected(c, s0, acts, s, Advance(0, Outcome(NotApplied, false, [], 9)), k);
    assert s == s1.(jobs := map[0 := Check(src, raw, CkDone)]);
    acts, s := ThenUnrejected(c, s0, acts, s, Complete(0), k);
    assert s.jobs == map[];
  }

  /** A row that the evaluator never turned down can be left pending with nothing missing and nobody to
      open it, in some run, if and only if its gate has a rule and the row can be completed at all. By
      StuckOnlyIf what leaves it so is a dropped insertion. */
  lemma CanGetStuckIff(c: Config, k: Key)
    ensures CanGetStuck(c, k) <==> Rule(c, k.project) != "" && Completable(c, k)
  {
    if CanGetStuck(c, k) {
      var t0, acts, s :| Run(c, Initial(t0), acts, s) && NobodyLeft(s) && Stuck(s, k)
                         && !Happened(c, Initial(t0), acts, RuleRejected(k));
      CompleteIsCompletable(c, t0, acts, s, k);
      StuckOnlyIf(c, t0, acts, s, k);
    }
    if Rule(c, k.project) != "" && Completable(c, k) {
      var acts, s := CompletableGetsStuck(c, 0, k);
      assert NobodyLeft(s);
    }
  }
}
