/** When agent_triggered is set: for every run that was enqueued, unless the mark behind it was missed. */
module GateMarks {
  import opened Common
  import opened GateModel
  import opened GateInvariant
  import opened GateTheorems

  ghost predicate Marks(c: Config, s: Sys, id: JobId, k: Key) { id in s.jobs && Marker(c, s.jobs[id]) == Some(k) }

  ghost predicate Triggered(s: Sys, k: Key) { k in s.rows && s.rows[k].triggered }

  /** A row for which a run was enqueued is marked, or some job is about to mark it, or its mark was missed:
      exactly one of these. */
  ghost predicate MarksOk(c: Config, s: Sys, k: Key, missed: bool) {
    && (forall x, y :: Marks(c, s, x, k) && Marks(c, s, y, k) ==> x == y)
    && (forall x :: Marks(c, s, x, k) ==> !Triggered(s, k) && !missed)
    && (Triggered(s, k) ==> !missed)
    && (missed ==> Ran?(s, k))
    && (Ran?(s, k) && !missed && !Triggered(s, k) ==> exists x :: Marks(c, s, x, k))
  }

  // ---- what one step does to run, mark and marker -----------------------------------------------

  /** What a step of a job that was at j and is now at j' does to row k. */
  ghost predicate StepMarks(c: Config, s: Sys, s': Sys, j: Job, j': Job, fault: Fault, k: Key) {
    && (Marker(c, j') == Some(k) <==> Opener(c, j) == Some(k) && fault == Ok)
    && (Ran?(s', k) <==> Ran?(s, k) || (Opener(c, j) == Some(k) && fault != NotApplied))
    && (Triggered(s', k) <==> Triggered(s, k) || (Marker(c, j) == Some(k) && fault != NotApplied))
  }

  /** What JobMarks needs to know of the state. */
  ghost predicate Known(c: Config, s: Sys, id: JobId, j: Job, k: Key) {
    && id in s.jobs && s.jobs[id] == j && JobOk(c, s, id, j) && s.fate.Keys == s.rows.Keys
    && (k in s.rows ==> RowOk(c, s, k))
  }

  lemma CheckEarlyMarks(c: Config, s: Sys, id: JobId, src: SourceId, raw: string, pc: CheckPc, o: Outcome, k: Key)
    requires Known(c, s, id, Check(src, raw, pc), k) && !pc.CkMerged? && !pc.CkOpened? && !pc.CkEnqueued?
    ensures var s' := StepCheck(c, s, id, src, raw, pc, o);
      id in s'.jobs && StepMarks(c, s, s', Check(src, raw, pc), s'.jobs[id], o.fault, k)
  {
  }

  /** Neither run nor mark of row k changes. */
  ghost predicate SameMarks(s: Sys, s': Sys, k: Key) {
    (Ran?(s', k) <==> Ran?(s, k)) && (Triggered(s', k) <==> Triggered(s, k))
  }

  lemma DoOpenMarks(s: Sys, k': Key, status: Status, f: Fate, k: Key)
    requires s.fate.Keys == s.rows.Keys && (CanOpen(s, k) ==> s.fate[k] == Waiting) && f != Ran
    ensures SameMarks(s, DoOpen(s, k', status, f), k)
  {
  }

  lemma OpenMarks(s: Sys, id: JobId, k': Key, status: Status, fault: Fault, won: Job, beaten: Job, failed: Job, k: Key)
    requires s.fate.Keys == s.rows.Keys && (CanOpen(s, k) ==> s.fate[k] == Waiting)
    ensures SameMarks(s, OpenStep(s, id, k', status, fault, won, beaten, failed), k)
  {
    DoOpenMarks(s, k', status, InFlight(id), k);
    DoOpenMarks(s, k', status, Lost, k);
    PutMarks(s, DoOpen(s, k', status, InFlight(id)), id, won, k);
    PutMarks(s, DoOpen(s, k', status, Lost), id, failed, k);
  }

  lemma PutMarks(s: Sys, s1: Sys, id: JobId, j: Job, k: Key)
    requires SameMarks(s, s1, k)
    ensures SameMarks(s, Put(s1, id, j), k)
  {
  }

  lemma OpenLands(s: Sys, id: JobId, k: Key, status: Status, fault: Fault, won: Job, beaten: Job, failed: Job)
    ensures var s' := OpenStep(s, id, k, status, fault, won, beaten, failed);
      id in s'.jobs && (s'.jobs[id] == won || s'.jobs[id] == beaten || s'.jobs[id] == failed)
  {
  }

  lemma CheckMergedMarks(c: Config, s: Sys, id: JobId, src: SourceId, raw: string, pc: CheckPc, o: Outcome, k: Key)
    requires Known(c, s, id, Check(src, raw, pc), k) && pc.CkMerged? && o.newId !in s.jobs && Gated(c, src)
    ensures var s' := StepCheck(c, s, id, src, raw, pc, o);
      id in s'.jobs && StepMarks(c, s, s', Check(src, raw, pc), s'.jobs[id], o.fault, k)
  {
    var won, done, queued := Check(src, raw, CkOpened), Check(src, raw, CkDone), Check(src, raw, CkQueued);
    OpenMarks(s, id, KeyOf(c, src, raw), Ready, o.fault, won, done, queued, k);
    OpenLands(s, id, KeyOf(c, src, raw), Ready, o.fault, won, done, queued);
  }

  lemma CheckTailMarks(c: Config, s: Sys, id: JobId, src: SourceId, raw: string, pc: CheckPc, o: Outcome, k: Key)
    requires Known(c, s, id, Check(src, raw, pc), k) && (pc.CkOpened? || pc.CkEnqueued?)
    ensures var s' := StepCheck(c, s, id, src, raw, pc, o);
      id in s'.jobs && StepMarks(c, s, s', Check(src, raw, pc), s'.jobs[id], o.fault, k)
  {
  }

  lemma NlMarks(c: Config, s: Sys, id: JobId, k': Key, pc: NlPc, o: Outcome, k: Key)
    requires Known(c, s, id, NlEval(k', pc), k)
    ensures var s' := StepNl(c, s, id, k', pc, o);
      id in s'.jobs && StepMarks(c, s, s', NlEval(k', pc), s'.jobs[id], o.fault, k)
  {
    if pc == NlSaved { NlSavedMarks(c, s, id, k', o, k); }
  }

  lemma NlSavedMarks(c: Config, s: Sys, id: JobId, k': Key, o: Outcome, k: Key)
    requires Known(c, s, id, NlEval(k', NlSaved), k)
    ensures var s' := StepNl(c, s, id, k', NlSaved, o);
      id in s'.jobs && StepMarks(c, s, s', NlEval(k', NlSaved), s'.jobs[id], o.fault, k)
  {
    OpenMarks(s, id, k', Ready, o.fault, NlEval(k', NlOpened), NlEval(k', NlDone), NlEval(k', NlQueued), k);
    OpenLands(s, id, k', Ready, o.fault, NlEval(k', NlOpened), NlEval(k', NlDone), NlEval(k', NlQueued));
  }

  lemma SweepMarks(c: Config, s: Sys, id: JobId, pc: SweepPc, o: Outcome, k: Key)
    requires Known(c, s, id, Sweep(pc), k)
    ensures var s' := StepSweep(s, id, pc, o);
      id in s'.jobs && StepMarks(c, s, s', Sweep(pc), s'.jobs[id], o.fault, k)
  {
    if pc.SwLooping? && pc.todo != [] {
      var on := Sweep(SwLooping(pc.todo[1..]));
      OpenMarks(s, id, pc.todo[0], TimedOut, o.fault, Sweep(SwOpened(pc.todo[0], pc.todo[1..])), on, on, k);
      OpenLands(s, id, pc.todo[0], TimedOut, o.fault, Sweep(SwOpened(pc.todo[0], pc.todo[1..])), on, on);
    }
  }

  lemma JobMarks(c: Config, s: Sys, id: JobId, o: Outcome, k: Key)
    requires id in s.jobs && Known(c, s, id, s.jobs[id], k) && o.newId !in s.jobs
    ensures var s' := StepJob(c, s, id, o);
      id in s'.jobs && StepMarks(c, s, s', s.jobs[id], s'.jobs[id], o.fault, k)
  {
    match s.jobs[id] {
      case Check(src, raw, pc) =>
        if pc.CkMerged? { CheckMergedMarks(c, s, id, src, raw, pc, o, k); }
        else if pc.CkOpened? || pc.CkEnqueued? { CheckTailMarks(c, s, id, src, raw, pc, o, k); }
        else { CheckEarlyMarks(c, s, id, src, raw, pc, o, k); }
      case NlEval(k', pc) => NlMarks(c, s, id, k', pc, o, k);
      case Sweep(pc) => SweepMarks(c, s, id, pc, o, k);
      case Notify(_, _, _) =>
    }
  }

  /** A job that appears in a step is a new evaluation. */
  lemma NewJobsAreEvaluations(c: Config, s: Sys, id: JobId, o: Outcome, x: JobId)
    requires id in s.jobs && x in StepJob(c, s, id, o).jobs && x !in s.jobs
    ensures var j := StepJob(c, s, id, o).jobs[x]; j.NlEval? && j.nl == NlQueued
  {
    match s.jobs[id] {
      case Check(src, raw, pc) => NewInCheck(c, s, id, src, raw, pc, o, x);
      case NlEval(k, pc) => NoneNewInNl(c, s, id, k, pc, o);
      case Sweep(pc) => NoneNewInSweep(s, id, pc, o);
      case Notify(_, _, _) =>
    }
  }

  lemma NoneNewInNl(c: Config, s: Sys, id: JobId, k: Key, pc: NlPc, o: Outcome)
    requires id in s.jobs
    ensures StepNl(c, s, id, k, pc, o).jobs.Keys == s.jobs.Keys
  {
    if pc == NlSaved {
      NoneNewInOpen(s, id, k, Ready, o.fault, NlEval(k, NlOpened), NlEval(k, NlDone), NlEval(k, NlQueued));
    }
  }

  lemma NoneNewInSweep(s: Sys, id: JobId, pc: SweepPc, o: Outcome)
    requires id in s.jobs
    ensures StepSweep(s, id, pc, o).jobs.Keys == s.jobs.Keys
  {
    if pc.SwLooping? && pc.todo != [] {
      var on := Sweep(SwLooping(pc.todo[1..]));
      NoneNewInOpen(s, id, pc.todo[0], TimedOut, o.fault, Sweep(SwOpened(pc.todo[0], pc.todo[1..])), on, on);
    }
  }

  lemma NewInCheck(c: Config, s: Sys, id: JobId, src: SourceId, raw: string, pc: CheckPc, o: Outcome, x: JobId)
    requires id in s.jobs && x in StepCheck(c, s, id, src, raw, pc, o).jobs && x !in s.jobs
    ensures var j := StepCheck(c, s, id, src, raw, pc, o).jobs[x]; j.NlEval? && j.nl == NlQueued
  {
    if pc.CkMerged? && Gated(c, src) {
      NoneNewInOpen(s, id, KeyOf(c, src, raw), Ready, o.fault, Check(src, raw, CkOpened), Check(src, raw, CkDone),
                    Check(src, raw, CkQueued));
    }
  }

  lemma NoneNewInOpen(s: Sys, id: JobId, k: Key, status: Status, fault: Fault, won: Job, beaten: Job, failed: Job)
    requires id in s.jobs
    ensures OpenStep(s, id, k, status, fault, won, beaten, failed).jobs.Keys == s.jobs.Keys
  {
  }

  /** Of the jobs other than id, the same ones mark row k as before. */
  lemma OthersMarkAsBefore(c: Config, s: Sys, id: JobId, o: Outcome, x: JobId, k: Key)
    requires id in s.jobs && o.newId !in s.jobs && x != id
    ensures Marks(c, StepJob(c, s, id, o), x, k) <==> Marks(c, s, x, k)
  {
    if x in s.jobs {
      OtherJobsStay(c, s, id, o, x);
    } else if x in StepJob(c, s, id, o).jobs {
      NewJobsAreEvaluations(c, s, id, o, x);
    }
  }

  // ---- over a run ------------------------------------------------------------------------------

  /** The same from the pieces: run, mark and markers before and after. */
  lemma MarksStep(c: Config, s: Sys, s': Sys, id: JobId, fault: Fault, k: Key, missed: bool)
    requires MarksOk(c, s, k, missed) && id in s.jobs && id in s'.jobs
    requires StepMarks(c, s, s', s.jobs[id], s'.jobs[id], fault, k)
    requires forall x :: x != id ==> (Marks(c, s', x, k) <==> Marks(c, s, x, k))
    requires Opener(c, s.jobs[id]) == Some(k) ==> !Ran?(s, k) && !Triggered(s, k)
    requires forall x :: Marks(c, s, x, k) ==> Ran?(s, k)
    ensures MarksOk(c, s', k, missed || (fault == NotApplied && Marker(c, s.jobs[id]) == Some(k))
                              || (fault == AppliedThenError && Opener(c, s.jobs[id]) == Some(k)))
  {
    var opens, marks := Opener(c, s.jobs[id]) == Some(k), Marker(c, s.jobs[id]) == Some(k);
    assert marks <==> Marks(c, s, id, k);
    assert Marks(c, s', id, k) <==> opens && fault == Ok;
    if !opens && !marks {
      assert forall x :: Marks(c, s', x, k) <==> Marks(c, s, x, k);
    }
  }

  lemma AdvanceMarks(c: Config, s: Sys, id: JobId, o: Outcome, k: Key, missed: bool)
    requires Inv(c, s) && id in s.jobs && o.newId !in s.jobs && MarksOk(c, s, k, missed)
    ensures MarksOk(c, StepJob(c, s, id, o), k, missed || Occurs(c, s, Advance(id, o), MarkMissed(k)))
  {
    var s' := StepJob(c, s, id, o);
    KnownFromInv(c, s, id, k);
    JobMarks(c, s, id, o, k);
    forall x | x != id ensures Marks(c, s', x, k) <==> Marks(c, s, x, k) { OthersMarkAsBefore(c, s, id, o, x, k); }
    MarksStep(c, s, s', id, o.fault, k, missed);
  }

  lemma KnownFromInv(c: Config, s: Sys, id: JobId, k: Key)
    requires Inv(c, s) && id in s.jobs
    ensures Known(c, s, id, s.jobs[id], k) && forall x :: Marks(c, s, x, k) ==> Ran?(s, k)
    ensures Opener(c, s.jobs[id]) == Some(k) ==> Flying(s, k, id) && !Ran?(s, k) && !Triggered(s, k)
  {
    assert k in s.rows ==> RowOk(c, s, k);
    JobKnows(c, s, id, k);
    forall x | Marks(c, s, x, k) ensures Ran?(s, k) { JobKnows(c, s, x, k); }
  }

  lemma JobKnows(c: Config, s: Sys, id: JobId, k: Key)
    requires id in s.jobs && forall x :: x in s.jobs ==> JobOk(c, s, x, s.jobs[x])
    ensures JobOk(c, s, id, s.jobs[id])
    ensures Opener(c, s.jobs[id]) == Some(k) ==> Flying(s, k, id)
    ensures Marker(c, s.jobs[id]) == Some(k) ==> Ran?(s, k)
  {
    if Opener(c, s.jobs[id]) == Some(k) { OpenerFlies(c, s, id, s.jobs[id], k); }
    if Marker(c, s.jobs[id]) == Some(k) { MarkerRan(c, s, id, s.jobs[id], k); }
  }

  lemma OpenerFlies(c: Config, s: Sys, id: JobId, j: Job, k: Key)
    requires JobOk(c, s, id, j) && Opener(c, j) == Some(k)
    ensures Flying(s, k, id)
  {
    match j {
      case Check(_, _, pc) => assert pc == CkOpened;
      case NlEval(_, pc) => assert pc == NlOpened;
      case Sweep(pc) => assert pc.SwOpened?;
    }
  }

  lemma MarkerRan(c: Config, s: Sys, id: JobId, j: Job, k: Key)
    requires JobOk(c, s, id, j) && Marker(c, j) == Some(k)
    ensures Ran?(s, k)
  {
    match j {
      case Check(_, _, pc) => assert pc == CkEnqueued;
      case NlEval(_, pc) => assert pc == NlEnqueued;
      case Sweep(pc) => assert pc.SwEnqueued?;
    }
  }

  lemma CrashMarks(c: Config, s: Sys, id: JobId, k: Key, missed: bool)
    requires Inv(c, s) && id in s.jobs && MarksOk(c, s, k, missed)
    ensures MarksOk(c, CrashJob(c, s, id), k, missed || Occurs(c, s, Crash(id), MarkMissed(k)))
  {
    KnownFromInv(c, s, id, k);
    CrashSteps(c, s, id, k);
    CrashedMarks(c, s, CrashJob(c, s, id), id, k, missed);
  }

  lemma CrashedMarks(c: Config, s: Sys, s': Sys, id: JobId, k: Key, missed: bool)
    requires MarksOk(c, s, k, missed) && (Marks(c, s, id, k) ==> Ran?(s, k)) && SameMarks(s, s', k)
    requires id in s.jobs && s'.jobs == s.jobs[id := Requeued(s.jobs[id])] && Marker(c, s'.jobs[id]) == None
    ensures MarksOk(c, s', k, missed || Marker(c, s.jobs[id]) == Some(k))
  {
    assert Marks(c, s, id, k) <==> Marker(c, s.jobs[id]) == Some(k);
    forall x ensures Marks(c, s', x, k) <==> x != id && Marks(c, s, x, k) {
      if x in s.jobs && x != id { assert s'.jobs[x] == s.jobs[x]; }
    }
    if Ran?(s, k) && !missed && !Triggered(s, k) && Marker(c, s.jobs[id]) != Some(k) {
      var x :| Marks(c, s, x, k);
      assert x != id && Marks(c, s', x, k);
    }
  }

  lemma CrashSteps(c: Config, s: Sys, id: JobId, k: Key)
    requires id in s.jobs && (Opener(c, s.jobs[id]) == Some(k) ==> Flying(s, k, id))
    ensures var s' := CrashJob(c, s, id);
      SameMarks(s, s', k) && s'.jobs == s.jobs[id := Requeued(s.jobs[id])] && Marker(c, s'.jobs[id]) == None
  {
  }

  lemma StepMarksOk(c: Config, s: Sys, a: Action, k: Key, missed: bool)
    requires Inv(c, s) && Enabled(c, s, a) && MarksOk(c, s, k, missed)
    ensures MarksOk(c, Apply(c, s, a), k, missed || Occurs(c, s, a, MarkMissed(k)))
  {
    match a {
      case Advance(id, o) => AdvanceMarks(c, s, id, o, k, missed);
      case Crash(id) => CrashMarks(c, s, id, k, missed);
      case Tick(_) => SameMarkers(c, s, Apply(c, s, a), k, missed);
      case Submit(_, _) => SameMarkers(c, s, Apply(c, s, a), k, missed);
      case Complete(_) => SameMarkers(c, s, Apply(c, s, a), k, missed);
    }
  }

  lemma SameMarkers(c: Config, s: Sys, s': Sys, k: Key, missed: bool)
    requires MarksOk(c, s, k, missed) && s'.rows == s.rows && s'.fate == s.fate
    requires forall x :: Marks(c, s', x, k) <==> Marks(c, s, x, k)
    ensures MarksOk(c, s', k, missed)
  {
  }

  lemma {:induction false} RunMarksOk(c: Config, s: Sys, acts: seq<Action>, s': Sys, k: Key, missed: bool)
    requires Inv(c, s) && Run(c, s, acts, s') && MarksOk(c, s, k, missed)
    ensures MarksOk(c, s', k, missed || Happened(c, s, acts, MarkMissed(k)))
    decreases |acts|
  {
    if acts != [] {
      StepKeeps(c, s, acts[0]);
      StepMarksOk(c, s, acts[0], k, missed);
      RunMarksOk(c, Apply(c, s, acts[0]), acts[1..], s', k, missed || Occurs(c, s, acts[0], MarkMissed(k)));
    }
  }

  /** Over every run, a row that no job is about to mark is marked if and only if exactly one run was
      enqueued for it and its mark was not missed. */
  lemma MarkedIff(c: Config, t0: int, acts: seq<Action>, s: Sys, k: Key)
    requires Run(c, Initial(t0), acts, s) && k in s.rows
    requires forall id :: id in s.jobs ==> Marker(c, s.jobs[id]) != Some(k)
    ensures s.rows[k].triggered <==> GateRuns(s.runs, k) == 1 && !Happened(c, Initial(t0), acts, MarkMissed(k))
  {
    InitialOk(c, t0);
    RunKeeps(c, Initial(t0), acts, s);
    RunMarksOk(c, Initial(t0), acts, s, k, false);
    assert RowOk(c, s, k) && LedgerOk(s, k);
  }
}
