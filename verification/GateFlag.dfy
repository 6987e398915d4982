/** When the flag nl_rule_passed of a ready row can be relied on. */
module GateFlag {
  import opened Common
  import opened GateModel
  import opened GateInvariant
  import opened GateTheorems

  predicate EvalOf(j: Job, k: Key) { j.NlEval? && j.key == k }

  /** The number of evaluation jobs ever inserted for row k. */
  function Inserted(s: Sys, k: Key): nat { multiset(s.evals)[k] }

  /** What the flag is while the only evaluation of the row is at pc. */
  predicate FlagAt(pc: NlPc, flag: Option<bool>) {
    match pc
    case NlDone => true
    case NlSaved => flag == Some(true)
    case NlOpened => flag == Some(true)
    case NlEnqueued => flag == Some(true)
    case _ => flag == None
  }

  /** There is at most one evaluation of row k, and the flag is where it should be. */
  ghost predicate EvalOk(s: Sys, k: Key) {
    && (forall x, y :: x in s.jobs && y in s.jobs && EvalOf(s.jobs[x], k) && EvalOf(s.jobs[y], k) ==> x == y)
    && (forall x :: x in s.jobs && EvalOf(s.jobs[x], k) ==> k in s.evals && FlagAt(s.jobs[x].nl, Flag(s, k)))
    && (k !in s.evals ==> Flag(s, k) == None)
  }

  /** The job has read that the flag of row k is true. */
  ghost predicate SawTrue(c: Config, j: Job, k: Key) {
    j.Check? && j.ck.CkMerged? && j.ck.nl == Some(true) && Gated(c, j.source) && KeyOf(c, j.source, j.raw) == k
  }

  ghost predicate TrueOk(c: Config, s: Sys, k: Key) {
    && (forall x :: x in s.jobs && SawTrue(c, s.jobs[x], k) ==> Flag(s, k) == Some(true))
    && (k in s.rows && s.rows[k].status == Ready ==> Flag(s, k) == Some(true))
  }

  ghost predicate FlagOk(c: Config, s: Sys, k: Key) { EvalOk(s, k) && TrueOk(c, s, k) }

  /** Neither the evaluations, nor the flag, nor the status of row k, unless to a state that is not ready. */
  ghost predicate Untouched(s: Sys, s': Sys, k: Key) {
    && s'.evals == s.evals && Flag(s', k) == Flag(s, k)
    && (k in s'.rows && s'.rows[k].status == Ready ==> k in s.rows && s.rows[k].status == Ready)
  }

  /** Job `id` may go on as j as far as the flag of row k is concerned. */
  ghost predicate Fits(c: Config, s: Sys, id: JobId, j: Job, k: Key) {
    && (SawTrue(c, j, k) ==> Flag(s, k) == Some(true))
    && (EvalOf(j, k) ==> id in s.jobs && EvalOf(s.jobs[id], k) && FlagAt(j.nl, Flag(s, k)))
  }

  /** No job but `id` has changed. */
  ghost predicate OnlyMoved(s: Sys, s': Sys, id: JobId) {
    forall x :: x in s'.jobs && x != id ==> x in s.jobs && s'.jobs[x] == s.jobs[x]
  }

  /** Steps of job `id` that leave evaluations and flag of row k alone. */
  lemma MovedKeeps(c: Config, s: Sys, s': Sys, id: JobId, k: Key)
    requires FlagOk(c, s, k) && OnlyMoved(s, s', id) && (id in s'.jobs ==> Fits(c, s, id, s'.jobs[id], k))
    requires s'.evals == s.evals && Flag(s', k) == Flag(s, k)
    requires k in s'.rows && s'.rows[k].status == Ready ==> Flag(s, k) == Some(true)
    ensures FlagOk(c, s', k)
  {
    forall x | x in s'.jobs && EvalOf(s'.jobs[x], k) ensures x in s.jobs && EvalOf(s.jobs[x], k) {
    }
  }

  /** The same for steps that make no row ready. */
  lemma UntouchedKeeps(c: Config, s: Sys, s': Sys, id: JobId, k: Key)
    requires FlagOk(c, s, k) && Untouched(s, s', k)
    requires OnlyMoved(s, s', id) && (id in s'.jobs ==> Fits(c, s, id, s'.jobs[id], k))
    ensures FlagOk(c, s', k)
  {
    MovedKeeps(c, s, s', id, k);
  }

  // ---- steps of check jobs -------------------------------------------------------------------

  lemma CheckFlag(c: Config, s: Sys, id: JobId, src: SourceId, raw: string, pc: CheckPc, o: Outcome, k: Key)
    requires id in s.jobs && s.jobs[id] == Check(src, raw, pc) && o.newId !in s.jobs && JobOk(c, s, id, s.jobs[id])
    requires FlagOk(c, s, k) && Rule(c, k.project) != ""
    requires Inserted(StepCheck(c, s, id, src, raw, pc, o), k) <= 1
    ensures FlagOk(c, StepCheck(c, s, id, src, raw, pc, o), k)
  {
    var s' := StepCheck(c, s, id, src, raw, pc, o);
    match pc {
      case CkLoaded => CheckFlagLoaded(c, s, id, src, raw, o, k);
      case CkMerged(allMet, nl) =>
        if Gated(c, src) && allMet && Rule(c, KeyOf(c, src, raw).project) != "" && nl != Some(true) {
          CheckFlagInserts(c, s, id, src, raw, nl, o, k);
        } else {
          CheckFlagOpens(c, s, id, src, raw, pc, o, k);
        }
      case _ =>
        CheckFlagRest(c, s, id, src, raw, pc, o, k);
    }
  }

  lemma CheckFlagRest(c: Config, s: Sys, id: JobId, src: SourceId, raw: string, pc: CheckPc, o: Outcome, k: Key)
    requires id in s.jobs && s.jobs[id] == Check(src, raw, pc) && !pc.CkLoaded? && !pc.CkMerged? && FlagOk(c, s, k)
    ensures FlagOk(c, StepCheck(c, s, id, src, raw, pc, o), k)
  {
    RestTouches(c, s, id, src, raw, pc, o, k);
    UntouchedKeeps(c, s, StepCheck(c, s, id, src, raw, pc, o), id, k);
  }

  lemma RestTouches(c: Config, s: Sys, id: JobId, src: SourceId, raw: string, pc: CheckPc, o: Outcome, k: Key)
    requires id in s.jobs && s.jobs[id] == Check(src, raw, pc) && !pc.CkLoaded? && !pc.CkMerged?
    ensures var s' := StepCheck(c, s, id, src, raw, pc, o);
      Untouched(s, s', k) && OnlyMoved(s, s', id) && id in s'.jobs && Fits(c, s, id, s'.jobs[id], k)
  {
    if Gated(c, src) {
      var k', done := KeyOf(c, src, raw), Check(src, raw, CkDone);
      if pc == CkOpened { TailUntouched(s, id, k', GateReady(k'), o.fault, Check(src, raw, CkEnqueued), done, k); }
      if pc == CkEnqueued { MarkUntouched(s, id, k', o.fault, done, k); }
    }
  }

  lemma CheckFlagLoaded(c: Config, s: Sys, id: JobId, src: SourceId, raw: string, o: Outcome, k: Key)
    requires id in s.jobs && s.jobs[id] == Check(src, raw, CkLoaded) && Gated(c, src) && FlagOk(c, s, k)
    ensures FlagOk(c, StepCheck(c, s, id, src, raw, CkLoaded, o), k)
  {
    var s' := StepCheck(c, s, id, src, raw, CkLoaded, o);
    LoadedTouches(c, s, id, src, raw, o, k);
    UntouchedKeeps(c, s, s', id, k);
  }

  lemma LoadedTouches(c: Config, s: Sys, id: JobId, src: SourceId, raw: string, o: Outcome, k: Key)
    requires id in s.jobs && Gated(c, src)
    ensures var s' := StepCheck(c, s, id, src, raw, CkLoaded, o);
      Untouched(s, s', k) && OnlyMoved(s, s', id) && id in s'.jobs && Fits(c, s, id, s'.jobs[id], k)
  {
  }

  lemma CheckFlagInserts(c: Config, s: Sys, id: JobId, src: SourceId, raw: string, nl: Option<bool>, o: Outcome, k: Key)
    requires id in s.jobs && s.jobs[id] == Check(src, raw, CkMerged(true, nl)) && o.newId !in s.jobs && FlagOk(c, s, k)
    requires Gated(c, src) && Rule(c, KeyOf(c, src, raw).project) != "" && nl != Some(true)
    requires Inserted(StepCheck(c, s, id, src, raw, CkMerged(true, nl), o), k) <= 1
    ensures FlagOk(c, StepCheck(c, s, id, src, raw, CkMerged(true, nl), o), k)
  {
    var k', s1 := KeyOf(c, src, raw), Put(s, id, Check(src, raw, CkDone));
    UntouchedKeeps(c, s, s1, id, k);
    if o.fault != NotApplied {
      QueuesAfter(c, s, id, src, raw, nl, o);
      InsertKeeps(c, s1, o.newId, k', k);
    }
  }

  /** An evaluation is inserted; if it is one of row k, it is the first. */
  lemma InsertKeeps(c: Config, s: Sys, newId: JobId, k': Key, k: Key)
    requires FlagOk(c, s, k) && newId !in s.jobs
    requires var s' := Put(s.(evals := s.evals + [k']), newId, NlEval(k', NlQueued)); Inserted(s', k) <= 1
    ensures FlagOk(c, Put(s.(evals := s.evals + [k']), newId, NlEval(k', NlQueued)), k)
  {
    var s' := Put(s.(evals := s.evals + [k']), newId, NlEval(k', NlQueued));
    assert multiset(s'.evals) == multiset(s.evals) + multiset{k'};
    assert k in s.evals <==> multiset(s.evals)[k] > 0;
    assert k in s'.evals <==> k in s.evals || k == k';
    assert k' == k ==> k !in s.evals;
    assert Flag(s', k) == Flag(s, k);
    forall x | x in s'.jobs && EvalOf(s'.jobs[x], k) ensures k in s'.evals && FlagAt(s'.jobs[x].nl, Flag(s', k)) {
      if x != newId { assert s'.jobs[x] == s.jobs[x]; }
    }
  }

  lemma CheckFlagOpens(c: Config, s: Sys, id: JobId, src: SourceId, raw: string, pc: CheckPc, o: Outcome, k: Key)
    requires id in s.jobs && s.jobs[id] == Check(src, raw, pc) && pc.CkMerged? && Gated(c, src) && FlagOk(c, s, k)
    requires !pc.allMet || Rule(c, KeyOf(c, src, raw).project) == "" || pc.nl == Some(true)
    requires Rule(c, k.project) != ""
    ensures FlagOk(c, StepCheck(c, s, id, src, raw, pc, o), k)
  {
    var k', done := KeyOf(c, src, raw), Check(src, raw, CkDone);
    if !pc.allMet {
      UntouchedKeeps(c, s, Put(s, id, done), id, k);
    } else {
      assert k' == k ==> SawTrue(c, s.jobs[id], k);
      OpenKeepsFlag(c, s, id, k', Ready, o.fault, Check(src, raw, CkOpened), done, Check(src, raw, CkQueued), k);
    }
  }

  /** OpenGate on a row other than k, or on row k when its flag is true, or to a status other than ready. */
  lemma OpenKeepsFlag(c: Config, s: Sys, id: JobId, k': Key, status: Status, fault: Fault, won: Job, beaten: Job,
      failed: Job, k: Key)
    requires FlagOk(c, s, k) && id in s.jobs && status != Pending
    requires k' == k && status == Ready ==> Flag(s, k) == Some(true)
    requires Fits(c, s, id, won, k) && Fits(c, s, id, beaten, k) && Fits(c, s, id, failed, k)
    ensures FlagOk(c, OpenStep(s, id, k', status, fault, won, beaten, failed), k)
  {
    var s' := OpenStep(s, id, k', status, fault, won, beaten, failed);
    OpenTouches(s, id, k', status, fault, won, beaten, failed, k);
    OpenMovesOne(s, id, k', status, fault, won, beaten, failed);
    MovedKeeps(c, s, s', id, k);
  }

  /** OpenGate leaves evaluations and flag alone, and makes ready at most its own row. */
  lemma OpenTouches(s: Sys, id: JobId, k': Key, status: Status, fault: Fault, won: Job, beaten: Job, failed: Job,
      k: Key)
    requires status != Pending
    ensures var s' := OpenStep(s, id, k', status, fault, won, beaten, failed);
      && s'.evals == s.evals && Flag(s', k) == Flag(s, k)
      && (k in s'.rows && s'.rows[k].status == Ready ==>
            (k in s.rows && s.rows[k].status == Ready) || (k' == k && status == Ready))
  {
  }

  lemma OpenMovesOne(s: Sys, id: JobId, k: Key, status: Status, fault: Fault, won: Job, beaten: Job, failed: Job)
    ensures var s' := OpenStep(s, id, k, status, fault, won, beaten, failed);
      && s'.jobs.Keys == s.jobs.Keys + {id} && (s'.jobs[id] == won || s'.jobs[id] == beaten || s'.jobs[id] == failed)
      && (forall x :: x in s.jobs && x != id ==> s'.jobs[x] == s.jobs[x])
  {
  }

  // ---- steps of evaluations ------------------------------------------------------------------

  lemma NlFlag(c: Config, s: Sys, id: JobId, k': Key, pc: NlPc, o: Outcome, k: Key)
    requires id in s.jobs && s.jobs[id] == NlEval(k', pc) && k' in s.rows && FlagOk(c, s, k)
    requires k' == k ==> !ReturnsToQueue(pc, o.fault)
    ensures FlagOk(c, StepNl(c, s, id, k', pc, o), k)
  {
    var at := (p: NlPc) => NlEval(k', p);
    match pc {
      case NlSaved =>
        // For row k itself the statement does not fail.
        OpenKeepsFlag(c, s, id, k', Ready, o.fault, at(NlOpened), at(NlDone),
                      if k' == k then at(NlDone) else at(NlQueued), k);
      case NlEvaluated(passed) => NlFlagSaves(c, s, id, k', passed, o, k);
      case _ => NlFlagRest(c, s, id, k', pc, o, k);
    }
  }

  lemma NlFlagSaves(c: Config, s: Sys, id: JobId, k': Key, passed: bool, o: Outcome, k: Key)
    requires id in s.jobs && s.jobs[id] == NlEval(k', NlEvaluated(passed)) && k' in s.rows && FlagOk(c, s, k)
    requires k' == k ==> o.fault == Ok
    ensures FlagOk(c, StepNl(c, s, id, k', NlEvaluated(passed), o), k)
  {
    var s' := StepNl(c, s, id, k', NlEvaluated(passed), o);
    assert OnlyMoved(s, s', id);
    if k' != k {
      UntouchedKeeps(c, s, s', id, k);
    } else {
      assert FlagAt(NlEvaluated(passed), Flag(s, k)) && Flag(s', k) == Some(passed);
    }
  }

  lemma NlFlagRest(c: Config, s: Sys, id: JobId, k': Key, pc: NlPc, o: Outcome, k: Key)
    requires id in s.jobs && s.jobs[id] == NlEval(k', pc) && pc != NlSaved && !pc.NlEvaluated? && FlagOk(c, s, k)
    requires k' == k ==> !ReturnsToQueue(pc, o.fault)
    ensures FlagOk(c, StepNl(c, s, id, k', pc, o), k)
  {
    NlTouches(c, s, id, k', pc, o, k);
    UntouchedKeeps(c, s, StepNl(c, s, id, k', pc, o), id, k);
  }

  lemma NlTouches(c: Config, s: Sys, id: JobId, k': Key, pc: NlPc, o: Outcome, k: Key)
    requires id in s.jobs && s.jobs[id] == NlEval(k', pc) && pc != NlSaved && !pc.NlEvaluated?
    requires k' == k ==> !ReturnsToQueue(pc, o.fault) && FlagAt(pc, Flag(s, k))
    ensures var s' := StepNl(c, s, id, k', pc, o);
      Untouched(s, s', k) && OnlyMoved(s, s', id) && id in s'.jobs && Fits(c, s, id, s'.jobs[id], k)
  {
    match pc {
      case NlOpened => TailUntouched(s, id, k', GateReady(k'), o.fault, NlEval(k', NlEnqueued), NlEval(k', NlDone), k);
      case NlEnqueued => MarkUntouched(s, id, k', o.fault, NlEval(k', NlDone), k);
      case NlDone =>
      case _ => EarlyUntouched(c, s, id, k', pc, o, k);
    }
  }

  lemma EarlyUntouched(c: Config, s: Sys, id: JobId, k': Key, pc: NlPc, o: Outcome, k: Key)
    requires id in s.jobs && s.jobs[id] == NlEval(k', pc) && (pc == NlQueued || pc == NlLoaded)
    requires k' == k ==> !ReturnsToQueue(pc, o.fault) && FlagAt(pc, Flag(s, k))
    ensures var s' := StepNl(c, s, id, k', pc, o);
      Untouched(s, s', k) && OnlyMoved(s, s', id) && id in s'.jobs && Fits(c, s, id, s'.jobs[id], k)
  {
    EarlyMoves(c, s, id, k', pc, o);
    var j := StepNl(c, s, id, k', pc, o).jobs[id];
    assert Flag(StepNl(c, s, id, k', pc, o), k) == Flag(s, k);
    assert FlagAt(pc, Flag(s, k)) ==> Flag(s, k) == None;
  }

  lemma EarlyMoves(c: Config, s: Sys, id: JobId, k: Key, pc: NlPc, o: Outcome)
    requires pc == NlQueued || pc == NlLoaded
    ensures var s' := StepNl(c, s, id, k, pc, o);
      s'.rows == s.rows && s'.evals == s.evals && id in s'.jobs && s'.jobs == s.jobs[id := s'.jobs[id]]
      && EvalOf(s'.jobs[id], k) && (pc == NlQueued ==> FlagAt(s'.jobs[id].nl, None) || s'.jobs[id].nl == NlDone)
      && (pc == NlLoaded ==> ReturnsToQueue(pc, o.fault) || s'.jobs[id].nl.NlEvaluated?)
  {
  }

  // ---- steps of the other jobs, and of the environment ---------------------------------------

  lemma SweepFlag(c: Config, s: Sys, id: JobId, pc: SweepPc, o: Outcome, k: Key)
    requires id in s.jobs && s.jobs[id] == Sweep(pc) && FlagOk(c, s, k)
    ensures FlagOk(c, StepSweep(s, id, pc, o), k)
  {
    var s' := StepSweep(s, id, pc, o);
    if pc.SwLooping? && pc.todo != [] {
      var on := Sweep(SwLooping(pc.todo[1..]));
      OpenKeepsFlag(c, s, id, pc.todo[0], TimedOut, o.fault, Sweep(SwOpened(pc.todo[0], pc.todo[1..])), on, on, k);
    } else {
      SweepUntouched(c, s, id, pc, o, k);
      UntouchedKeeps(c, s, s', id, k);
    }
  }

  lemma SweepUntouched(c: Config, s: Sys, id: JobId, pc: SweepPc, o: Outcome, k: Key)
    requires id in s.jobs && s.jobs[id] == Sweep(pc) && (pc.SwLooping? ==> pc.todo == [])
    ensures var s' := StepSweep(s, id, pc, o);
      Untouched(s, s', k) && OnlyMoved(s, s', id) && id in s'.jobs && Fits(c, s, id, s'.jobs[id], k)
  {
    match pc {
      case SwOpened(k', rest) => TailUntouched(s, id, k', GateTimeout(k'.version), o.fault,
          Sweep(SwEnqueued(k', rest)), Sweep(SwLooping(rest)), k);
      case SwEnqueued(k', rest) => MarkUntouched(s, id, k', o.fault, Sweep(SwLooping(rest)), k);
      case _ =>
    }
  }

  lemma TailUntouched(s: Sys, id: JobId, k': Key, t: Trigger, fault: Fault, next: Job, failed: Job, k: Key)
    ensures var s' := EnqueueStep(s, id, k', t, fault, next, failed);
      Untouched(s, s', k) && OnlyMoved(s, s', id) && id in s'.jobs && (s'.jobs[id] == next || s'.jobs[id] == failed)
  {
  }

  lemma MarkUntouched(s: Sys, id: JobId, k': Key, fault: Fault, next: Job, k: Key)
    ensures var s' := MarkStep(s, id, k', fault, next);
      Untouched(s, s', k) && OnlyMoved(s, s', id) && id in s'.jobs && s'.jobs[id] == next
  {
  }

  lemma NotifyFlag(c: Config, s: Sys, id: JobId, src: SourceId, raw: string, pc: NotifyPc, o: Outcome, k: Key)
    requires id in s.jobs && s.jobs[id] == Notify(src, raw, pc) && FlagOk(c, s, k)
    ensures FlagOk(c, StepNotify(c, s, id, src, raw, pc, o), k)
  {
    var s' := StepNotify(c, s, id, src, raw, pc, o);
    assert s'.rows == s.rows && s'.evals == s.evals && OnlyMoved(s, s', id);
    UntouchedKeeps(c, s, s', id, k);
  }

  lemma AdvanceFlag(c: Config, s: Sys, id: JobId, o: Outcome, k: Key)
    requires id in s.jobs && o.newId !in s.jobs && JobOk(c, s, id, s.jobs[id]) && FlagOk(c, s, k)
             && Rule(c, k.project) != ""
    requires Inserted(StepJob(c, s, id, o), k) <= 1 && !Occurs(c, s, Advance(id, o), EvalReturned(k))
    ensures FlagOk(c, StepJob(c, s, id, o), k)
  {
    match s.jobs[id] {
      case Check(src, raw, pc) => CheckFlag(c, s, id, src, raw, pc, o, k);
      case NlEval(k', pc) => NlFlag(c, s, id, k', pc, o, k);
      case Sweep(pc) => SweepFlag(c, s, id, pc, o, k);
      case Notify(src, raw, pc) => NotifyFlag(c, s, id, src, raw, pc, o, k);
    }
  }

  lemma CrashFlag(c: Config, s: Sys, id: JobId, k: Key)
    requires id in s.jobs && FlagOk(c, s, k) && !Occurs(c, s, Crash(id), EvalReturned(k))
    ensures FlagOk(c, CrashJob(c, s, id), k)
  {
    var s' := CrashJob(c, s, id);
    assert s'.rows == s.rows && s'.evals == s.evals && s'.jobs == s.jobs[id := Requeued(s.jobs[id])];
    UntouchedKeeps(c, s, s', id, k);
  }

  lemma StepFlag(c: Config, s: Sys, a: Action, k: Key)
    requires Inv(c, s) && Enabled(c, s, a) && FlagOk(c, s, k) && Rule(c, k.project) != ""
    requires Inserted(Apply(c, s, a), k) <= 1 && !Occurs(c, s, a, EvalReturned(k))
    ensures FlagOk(c, Apply(c, s, a), k)
  {
    match a {
      case Tick(_) =>
      case Submit(id, j) => UntouchedKeeps(c, s, Put(s, id, j), id, k);
      case Crash(id) => CrashFlag(c, s, id, k);
      case Complete(id) => UntouchedKeeps(c, s, s.(jobs := s.jobs - {id}), id, k);
      case Advance(id, o) =>
        assert JobOk(c, s, id, s.jobs[id]);
        AdvanceFlag(c, s, id, o, k);
    }
  }

  lemma InsertedGrows(c: Config, s: Sys, a: Action, k: Key)
    requires Enabled(c, s, a)
    ensures s.evals <= Apply(c, s, a).evals && Inserted(s, k) <= Inserted(Apply(c, s, a), k)
  {
    var s' := Apply(c, s, a);
    EvalsGrow(c, s, a);
    assert s'.evals == s.evals + s'.evals[|s.evals|..];
  }

  lemma EvalsGrow(c: Config, s: Sys, a: Action)
    requires Enabled(c, s, a)
    ensures s.evals <= Apply(c, s, a).evals
  {
    if a.Advance? {
      match s.jobs[a.id] {
        case Check(src, raw, pc) => EvalsGrowInCheck(c, s, a.id, src, raw, pc, a.o);
        case _ =>
      }
    }
  }

  lemma EvalsGrowInCheck(c: Config, s: Sys, id: JobId, src: SourceId, raw: string, pc: CheckPc, o: Outcome)
    ensures s.evals <= StepCheck(c, s, id, src, raw, pc, o).evals
  {
    if pc.CkMerged? && Gated(c, src) {
      OpenKeepsEvals(s, id, KeyOf(c, src, raw), Ready, o.fault, Check(src, raw, CkOpened), Check(src, raw, CkDone),
                     Check(src, raw, CkQueued));
    }
  }

  lemma OpenKeepsEvals(s: Sys, id: JobId, k: Key, status: Status, fault: Fault, won: Job, beaten: Job, failed: Job)
    ensures OpenStep(s, id, k, status, fault, won, beaten, failed).evals == s.evals
  {
  }

  lemma {:induction false} RunFlag(c: Config, s: Sys, acts: seq<Action>, s': Sys, k: Key)
    requires Inv(c, s) && Run(c, s, acts, s') && Rule(c, k.project) != ""
    requires Inserted(s, k) <= 1 ==> FlagOk(c, s, k)
    requires !Happened(c, s, acts, EvalReturned(k))
    ensures Inserted(s', k) <= 1 ==> FlagOk(c, s', k)
    decreases |acts|
  {
    if acts != [] {
      var s1 := Apply(c, s, acts[0]);
      StepKeeps(c, s, acts[0]);
      InsertedGrows(c, s, acts[0], k);
      if Inserted(s1, k) <= 1 { StepFlag(c, s, acts[0], k); }
      RunFlag(c, s1, acts[1..], s', k);
    }
  }

  /** If at most one evaluation of the row was ever inserted and, once it had loaded the row, it was never
      queued again, a ready row of a gate with a rule has the flag true. */
  lemma OneEvaluationKeepsFlag(c: Config, t0: int, acts: seq<Action>, s: Sys, k: Key)
    requires Run(c, Initial(t0), acts, s) && k in s.rows && s.rows[k].status == Ready && Rule(c, k.project) != ""
    requires Inserted(s, k) <= 1 && !Happened(c, Initial(t0), acts, EvalReturned(k))
    ensures s.rows[k].nlPassed == Some(true)
  {
    InitialOk(c, t0);
    RunFlag(c, Initial(t0), acts, s, k);
  }
}
