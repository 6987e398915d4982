/** What holds of the release gate over every run: every interleaving of check, evaluation, sweep and
    notify jobs, with statements failing and jobs crashing at any step. */
module GateTheorems {
  import opened Common
  import opened GateModel
  import opened GateInvariant

  // ---- at most one run -------------------------------------------------------------------

  /** At most one agent run is ever enqueued for a row; agent_triggered says the row has left pending
      and exactly one run was enqueued for it; a row still pending has none. */
  lemma AtMostOneRun(c: Config, t0: int, acts: seq<Action>, s: Sys, k: Key)
    requires Run(c, Initial(t0), acts, s)
    ensures GateRuns(s.runs, k) <= 1
    ensures k !in s.rows || s.rows[k].status == Pending ==> GateRuns(s.runs, k) == 0
    ensures k in s.rows && s.rows[k].triggered ==> s.rows[k].status != Pending && GateRuns(s.runs, k) == 1
  {
    InitialOk(c, t0);
    RunKeeps(c, Initial(t0), acts, s);
    assert LedgerOk(s, k);
    if k in s.rows { assert RowOk(c, s, k); }
  }

  // ---- exactly one run, and exactly when ---------------------------------------------------

  /** The job's next statement is OpenGate on row k. */
  predicate OpensNext(c: Config, j: Job, k: Key) {
    match j
    case Check(src, raw, CkMerged(true, nl)) =>
      Gated(c, src) && KeyOf(c, src, raw) == k && (Rule(c, k.project) == "" || nl == Some(true))
    case NlEval(k', NlSaved) => k' == k
    case Sweep(SwLooping(todo)) => todo != [] && todo[0] == k
    case _ => false
  }

  /** The row for which the job's next statement is MarkAgentTriggered. */
  function Marker(c: Config, j: Job): Option<Key> {
    match j
    case Check(src, raw, CkEnqueued) => if Gated(c, src) then Some(KeyOf(c, src, raw)) else None
    case NlEval(k, NlEnqueued) => Some(k)
    case Sweep(SwEnqueued(k, _)) => Some(k)
    case _ => None
  }

  datatype Event = RunLost(k: Key) | RuleApproved(k: Key) | RuleRejected(k: Key)
                 | EvalDropped(k: Key) | EvalReturned(k: Key) | MarkMissed(k: Key)

  /** RunLost: the worker that opened row k crashes before its run is enqueued, or its enqueue fails,
      or it opens the row without getting to know. RuleApproved: the evaluator answers true for k.
      RuleRejected: an evaluation ends because the answer saved for k was false. EvalDropped: a check job
      could not insert its evaluation of k. EvalReturned: an evaluation of k that had loaded its row is
      queued again. MarkMissed: a run was enqueued for k, but the worker crashes before it marks the row, or
      the mark fails, or the worker is told that the enqueue failed. */
  predicate Occurs(c: Config, s: Sys, a: Action, e: Event) {
    match e
    case RunLost(k) =>
      (match a
       case Crash(id) => id in s.jobs && Opener(c, s.jobs[id]) == Some(k)
       case Advance(id, o) => id in s.jobs &&
         ((o.fault == NotApplied && Opener(c, s.jobs[id]) == Some(k)) ||
          (o.fault == AppliedThenError && CanOpen(s, k) && OpensNext(c, s.jobs[id], k)))
       case _ => false)
    case RuleApproved(k) =>
      a.Advance? && a.id in s.jobs && s.jobs[a.id] == NlEval(k, NlLoaded) && a.o.fault == Ok && a.o.flag
    case RuleRejected(k) =>
      a.Advance? && a.id in s.jobs && s.jobs[a.id] == NlEval(k, NlEvaluated(false)) && a.o.fault == Ok
    case EvalDropped(k) => a.Advance? && a.id in s.jobs && a.o.fault == NotApplied && InsertsNext(c, s.jobs[a.id], k)
    case EvalReturned(k) =>
      (a.Crash? || a.Advance?) && a.id in s.jobs && s.jobs[a.id].NlEval? && s.jobs[a.id].key == k
      && s.jobs[a.id].nl != NlQueued
      && (a.Advance? ==> ReturnsToQueue(s.jobs[a.id].nl, a.o.fault))
    case MarkMissed(k) =>
      (match a
       case Crash(id) => id in s.jobs && Marker(c, s.jobs[id]) == Some(k)
       case Advance(id, o) => id in s.jobs &&
         ((o.fault == NotApplied && Marker(c, s.jobs[id]) == Some(k)) ||
          (o.fault == AppliedThenError && Opener(c, s.jobs[id]) == Some(k)))
       case _ => false)
  }

  /** The job's next statement inserts an evaluation of row k. */
  predicate InsertsNext(c: Config, j: Job, k: Key) {
    match j
    case Check(src, raw, CkMerged(true, nl)) =>
      Gated(c, src) && KeyOf(c, src, raw) == k && Rule(c, k.project) != "" && nl != Some(true)
    case _ => false
  }

  /** An evaluation that is past its first step ends this step with an error. */
  predicate ReturnsToQueue(pc: NlPc, fault: Fault) {
    fault != Ok && (pc == NlLoaded || pc.NlEvaluated? || pc == NlSaved)
  }

  /** A step of one job leaves the other jobs alone. */
  lemma OtherJobsStay(c: Config, s: Sys, id: JobId, o: Outcome, x: JobId)
    requires id in s.jobs && o.newId !in s.jobs && x in s.jobs && x != id
    ensures x in StepJob(c, s, id, o).jobs && StepJob(c, s, id, o).jobs[x] == s.jobs[x]
  {
    match s.jobs[id] {
      case Check(src, raw, pc) => OthersStayInCheck(c, s, id, src, raw, pc, o, x);
      case NlEval(_, _) =>
      case Sweep(_) =>
      case Notify(_, _, _) =>
    }
  }

  lemma OthersStayInCheck(c: Config, s: Sys, id: JobId, src: SourceId, raw: string, pc: CheckPc, o: Outcome, x: JobId)
    requires o.newId !in s.jobs && x in s.jobs && x != id
    ensures var s' := StepCheck(c, s, id, src, raw, pc, o); x in s'.jobs && s'.jobs[x] == s.jobs[x]
  {
    if pc.CkMerged? && Gated(c, src) {
      OthersStayInOpen(s, id, KeyOf(c, src, raw), o.fault, Check(src, raw, CkOpened), Check(src, raw, CkDone),
                       Check(src, raw, CkQueued), x);
    }
  }

  lemma OthersStayInOpen(s: Sys, id: JobId, k: Key, fault: Fault, won: Job, beaten: Job, failed: Job, x: JobId)
    requires x in s.jobs && x != id
    ensures var s' := OpenStep(s, id, k, Ready, fault, won, beaten, failed); x in s'.jobs && s'.jobs[x] == s.jobs[x]
  {
  }

  /** The event occurs at some step of the run. */
  predicate Happened(c: Config, s: Sys, acts: seq<Action>, e: Event)
    decreases |acts|
  {
    acts != [] && (Occurs(c, s, acts[0], e) || Happened(c, Apply(c, s, acts[0]), acts[1..], e))
  }

  ghost predicate IsLost(s: Sys, k: Key) { k in s.fate && s.fate[k] == Lost }

  lemma LostByStep(c: Config, s: Sys, a: Action, k: Key)
    requires Inv(c, s) && Enabled(c, s, a)
    ensures IsLost(Apply(c, s, a), k) <==> IsLost(s, k) || Occurs(c, s, a, RunLost(k))
  {
    if a.Crash? || a.Advance? {
      assert JobOk(c, s, a.id, s.jobs[a.id]);
      FlyingIsOpener(c, s, a.id);
      if k in s.rows { assert RowOk(c, s, k); }
      if a.Advance? { LostByJob(c, s, a.id, a.o, k); }
    }
  }

  lemma LostByJob(c: Config, s: Sys, id: JobId, o: Outcome, k: Key)
    requires id in s.jobs && JobOk(c, s, id, s.jobs[id]) && s.fate.Keys == s.rows.Keys
    requires k in s.rows ==> RowOk(c, s, k)
    ensures IsLost(StepJob(c, s, id, o), k) <==> IsLost(s, k) || Occurs(c, s, Advance(id, o), RunLost(k))
  {
    match s.jobs[id] {
      case Check(src, raw, pc) => LostByCheck(c, s, id, src, raw, pc, o, k);
      case NlEval(k', pc) => LostByNl(c, s, id, k', pc, o, k);
      case Sweep(pc) => LostBySweep(c, s, id, pc, o, k);
      case Notify(_, _, _) =>
    }
  }

  lemma LostByCheck(c: Config, s: Sys, id: JobId, src: SourceId, raw: string, pc: CheckPc, o: Outcome, k: Key)
    requires id in s.jobs && s.jobs[id] == Check(src, raw, pc) && JobOk(c, s, id, s.jobs[id])
             && s.fate.Keys == s.rows.Keys
    requires k in s.rows ==> RowOk(c, s, k)
    ensures IsLost(StepCheck(c, s, id, src, raw, pc, o), k)
            <==> IsLost(s, k) || Occurs(c, s, Advance(id, o), RunLost(k))
  {
    if pc.CkMerged? { LostByOpening(c, s, id, src, raw, pc, o, k); }
  }

  lemma LostByOpening(c: Config, s: Sys, id: JobId, src: SourceId, raw: string, pc: CheckPc, o: Outcome, k: Key)
    requires id in s.jobs && s.jobs[id] == Check(src, raw, pc) && pc.CkMerged? && JobOk(c, s, id, s.jobs[id])
    requires s.fate.Keys == s.rows.Keys && (k in s.rows ==> RowOk(c, s, k))
    ensures IsLost(StepCheck(c, s, id, src, raw, pc, o), k)
            <==> IsLost(s, k) || Occurs(c, s, Advance(id, o), RunLost(k))
  {
  }

  lemma LostByNl(c: Config, s: Sys, id: JobId, k': Key, pc: NlPc, o: Outcome, k: Key)
    requires id in s.jobs && s.jobs[id] == NlEval(k', pc) && JobOk(c, s, id, s.jobs[id]) && s.fate.Keys == s.rows.Keys
    requires k in s.rows ==> RowOk(c, s, k)
    ensures IsLost(StepNl(c, s, id, k', pc, o), k) <==> IsLost(s, k) || Occurs(c, s, Advance(id, o), RunLost(k))
  {
    if pc == NlQueued || pc == NlLoaded || pc.NlEvaluated? { NlKeepsFate(c, s, id, k', pc, o); }
  }

  lemma NlKeepsFate(c: Config, s: Sys, id: JobId, k: Key, pc: NlPc, o: Outcome)
    requires pc == NlQueued || pc == NlLoaded || pc.NlEvaluated?
    ensures StepNl(c, s, id, k, pc, o).fate == s.fate
  {
  }

  lemma LostBySweep(c: Config, s: Sys, id: JobId, pc: SweepPc, o: Outcome, k: Key)
    requires id in s.jobs && s.jobs[id] == Sweep(pc) && JobOk(c, s, id, s.jobs[id]) && s.fate.Keys == s.rows.Keys
    requires k in s.rows ==> RowOk(c, s, k)
    ensures IsLost(StepSweep(s, id, pc, o), k) <==> IsLost(s, k) || Occurs(c, s, Advance(id, o), RunLost(k))
  {
  }

  lemma ApprovedByStep(c: Config, s: Sys, a: Action, k: Key)
    requires Enabled(c, s, a)
    ensures k in Apply(c, s, a).approved <==> k in s.approved || Occurs(c, s, a, RuleApproved(k))
  {
    if a.Advance? {
      match s.jobs[a.id] {
        case Check(src, raw, pc) => CheckTouches(c, s, a.id, src, raw, pc, a.o);
        case NlEval(k', pc) => ApprovedByNl(c, s, a.id, k', pc, a.o, k);
        case Sweep(pc) => SweepTouches(s, a.id, pc, a.o);
        case Notify(_, _, _) =>
      }
    }
  }

  lemma ApprovedByNl(c: Config, s: Sys, id: JobId, k': Key, pc: NlPc, o: Outcome, k: Key)
    ensures k in StepNl(c, s, id, k', pc, o).approved <==>
              k in s.approved || (k' == k && pc == NlLoaded && o.fault == Ok && o.flag)
  {
  }

  // ---- what the steps of check and sweep jobs leave alone ------------------------------------

  /** No answer of the evaluator is recorded or saved; no row disappears; a new row has no answer. */
  ghost predicate AnswersKept(s: Sys, s': Sys) {
    && s'.approved == s.approved && s.rows.Keys <= s'.rows.Keys
    && (forall x :: x in s'.rows ==> s'.rows[x].nlPassed == if x in s.rows then s.rows[x].nlPassed else None)
  }

  lemma OpenKeepsAnswers(s: Sys, id: JobId, k: Key, status: Status, fault: Fault, won: Job, beaten: Job, failed: Job)
    ensures AnswersKept(s, OpenStep(s, id, k, status, fault, won, beaten, failed))
  {
    match fault {
      case Ok => if CanOpen(s, k) { DoOpenKeepsAnswers(s, k, status, InFlight(id)); }
      case NotApplied =>
      case AppliedThenError => DoOpenKeepsAnswers(s, k, status, Lost);
    }
  }

  lemma DoOpenKeepsAnswers(s: Sys, k: Key, status: Status, f: Fate)
    ensures AnswersKept(s, DoOpen(s, k, status, f))
  {
  }

  lemma TailKeepsAnswers(s: Sys, id: JobId, k: Key, t: Trigger, fault: Fault, next: Job, failed: Job)
    ensures AnswersKept(s, EnqueueStep(s, id, k, t, fault, next, failed))
            && AnswersKept(s, MarkStep(s, id, k, fault, next))
  {
  }

  lemma CheckTouches(c: Config, s: Sys, id: JobId, src: SourceId, raw: string, pc: CheckPc, o: Outcome)
    ensures AnswersKept(s, StepCheck(c, s, id, src, raw, pc, o))
  {
    if pc != CkQueued && Gated(c, src) {
      var k, done := KeyOf(c, src, raw), Check(src, raw, CkDone);
      match pc {
        case CkLoaded => UpsertKeepsAnswers(c, s, k, src);
        case CkMerged(_, _) =>
          OpenKeepsAnswers(s, id, k, Ready, o.fault, Check(src, raw, CkOpened), done, Check(src, raw, CkQueued));
        case CkOpened => TailKeepsAnswers(s, id, k, GateReady(k), o.fault, Check(src, raw, CkEnqueued), done);
        case CkEnqueued => TailKeepsAnswers(s, id, k, GateReady(k), o.fault, done, done);
        case _ =>
      }
    }
  }

  lemma UpsertKeepsAnswers(c: Config, s: Sys, k: Key, src: SourceId)
    ensures AnswersKept(s, DoUpsert(c, s, k, src))
  {
  }

  lemma SweepTouches(s: Sys, id: JobId, pc: SweepPc, o: Outcome)
    ensures AnswersKept(s, StepSweep(s, id, pc, o))
  {
  }

  lemma {:induction false} HistoryIsTrue(c: Config, s: Sys, acts: seq<Action>, s': Sys, k: Key)
    requires Inv(c, s) && Run(c, s, acts, s')
    ensures IsLost(s', k) <==> IsLost(s, k) || Happened(c, s, acts, RunLost(k))
    ensures k in s'.approved <==> k in s.approved || Happened(c, s, acts, RuleApproved(k))
    decreases |acts|
  {
    if acts != [] {
      StepKeeps(c, s, acts[0]);
      LostByStep(c, s, acts[0], k);
      ApprovedByStep(c, s, acts[0], k);
      HistoryIsTrue(c, Apply(c, s, acts[0]), acts[1..], s', k);
    }
  }

  /** Exactly-once does not hold in general. For a row that has been opened and whose opener is no
      longer at work, exactly one run was enqueued if and only if no step of the run lost it. */
  lemma ExactlyOnceIff(c: Config, t0: int, acts: seq<Action>, s: Sys, k: Key)
    requires Run(c, Initial(t0), acts, s)
    requires k in s.rows && s.rows[k].status != Pending
    requires forall id :: id in s.jobs ==> Opener(c, s.jobs[id]) != Some(k)
    ensures GateRuns(s.runs, k) == 1 <==> !Happened(c, Initial(t0), acts, RunLost(k))
  {
    InitialOk(c, t0);
    RunKeeps(c, Initial(t0), acts, s);
    HistoryIsTrue(c, Initial(t0), acts, s, k);
    assert RowOk(c, s, k) && LedgerOk(s, k);
  }

  // ---- the flag nl_rule_passed ---------------------------------------------------------------

  function Flag(s: Sys, k: Key): Option<bool> { if k in s.rows then s.rows[k].nlPassed else None }

  /** The answer this step writes to row k. */
  function Saves(s: Sys, a: Action, k: Key): Option<bool> {
    if a.Advance? && a.id in s.jobs && a.o.fault != NotApplied && k in s.rows then
      match s.jobs[a.id] case NlEval(k', NlEvaluated(passed)) => if k' == k then Some(passed) else None case _ => None
    else None
  }

  function LastSaved(c: Config, s: Sys, acts: seq<Action>, k: Key): Option<bool>
    decreases |acts|
  {
    if acts == [] then None
    else
      var later := LastSaved(c, Apply(c, s, acts[0]), acts[1..], k);
      if later.Some? then later else Saves(s, acts[0], k)
  }

  lemma FlagByNl(c: Config, s: Sys, id: JobId, k': Key, pc: NlPc, o: Outcome, k: Key)
    requires id in s.jobs && s.jobs[id] == NlEval(k', pc)
    ensures var saved := Saves(s, Advance(id, o), k);
            Flag(StepNl(c, s, id, k', pc, o), k) == if saved.Some? then saved else Flag(s, k)
  {
    match pc {
      case NlSaved => OpenKeepsAnswers(s, id, k', Ready, o.fault, NlEval(k', NlOpened), NlEval(k', NlDone),
          NlEval(k', NlQueued));
      case NlOpened => TailKeepsAnswers(s, id, k', GateReady(k'), o.fault, NlEval(k', NlEnqueued), NlEval(k', NlDone));
      case NlEnqueued => TailKeepsAnswers(s, id, k', GateReady(k'), o.fault, NlEval(k', NlDone), NlEval(k', NlDone));
      case _ =>
    }
  }

  lemma FlagByStep(c: Config, s: Sys, a: Action, k: Key)
    requires Enabled(c, s, a)
    ensures var saved := Saves(s, a, k); Flag(Apply(c, s, a), k) == if saved.Some? then saved else Flag(s, k)
  {
    if a.Advance? {
      match s.jobs[a.id] {
        case Check(src, raw, pc) => CheckTouches(c, s, a.id, src, raw, pc, a.o);
        case NlEval(k', pc) => FlagByNl(c, s, a.id, k', pc, a.o, k);
        case Sweep(pc) => SweepTouches(s, a.id, pc, a.o);
        case Notify(_, _, _) =>
      }
    }
  }

  lemma {:induction false} FlagHistory(c: Config, s: Sys, acts: seq<Action>, s': Sys, k: Key)
    requires Run(c, s, acts, s')
    ensures var saved := LastSaved(c, s, acts, k); Flag(s', k) == if saved.Some? then saved else Flag(s, k)
    decreases |acts|
  {
    if acts != [] {
      FlagByStep(c, s, acts[0], k);
      FlagHistory(c, Apply(c, s, acts[0]), acts[1..], s', k);
    }
  }

  /** The flag of a row is the answer saved last, not whether some answer was true: a ready row of a gate
      with a rule has the flag true exactly when the last answer saved for it was. */
  lemma FlagIsLastSaved(c: Config, t0: int, acts: seq<Action>, s: Sys, k: Key)
    requires Run(c, Initial(t0), acts, s) && k in s.rows
    ensures s.rows[k].nlPassed == LastSaved(c, Initial(t0), acts, k)
  {
    FlagHistory(c, Initial(t0), acts, s, k);
  }

  // ---- no early opening ------------------------------------------------------------------

  /** A ready row has every required source in its met list, whoever opened it; and when the gate has
      a rule, the evaluator answered true for this row at some earlier step. */
  lemma NoEarlyOpening(c: Config, t0: int, acts: seq<Action>, s: Sys, k: Key)
    requires Run(c, Initial(t0), acts, s)
    requires k in s.rows && s.rows[k].status == Ready
    ensures forall x :: x in Required(c, k.project) ==> x in s.rows[k].met
    ensures Rule(c, k.project) != "" ==> Happened(c, Initial(t0), acts, RuleApproved(k))
  {
    InitialOk(c, t0);
    RunKeeps(c, Initial(t0), acts, s);
    HistoryIsTrue(c, Initial(t0), acts, s, k);
    assert RowOk(c, s, k);
    forall x | x in Required(c, k.project) ensures x in s.rows[k].met {
      assert x !in Minus(Required(c, k.project), s.rows[k].met);
    }
  }

  /** A row becomes timed_out only after its deadline, which is its creation time plus the timeout of
      the gate. */
  lemma NoEarlyTimeout(c: Config, t0: int, acts: seq<Action>, s: Sys, k: Key)
    requires Run(c, Initial(t0), acts, s)
    requires k in s.rows && s.rows[k].status == TimedOut
    ensures s.rows[k].timeoutAt == s.rows[k].createdAt + SECONDS_PER_HOUR * Hours(c, k.project)
    ensures s.rows[k].openedAt.Some? && s.rows[k].timeoutAt < s.rows[k].openedAt.value
  {
    InitialOk(c, t0);
    RunKeeps(c, Initial(t0), acts, s);
    assert RowOk(c, s, k);
  }

  /** From any reachable state on: a row is never lost, its deadline never moves, its met list only
      grows and its missing list only shrinks, runs are never withdrawn; and once the row is opened
      its status, met, missing and opening time are frozen. */
  lemma PastIsKept(c: Config, t0: int, before: seq<Action>, s: Sys, after: seq<Action>, s': Sys, k: Key)
    requires Run(c, Initial(t0), before, s) && Run(c, s, after, s')
    requires k in s.rows
    ensures s.runs <= s'.runs && k in s'.rows
    ensures var r, r' := s.rows[k], s'.rows[k];
      && r'.createdAt == r.createdAt && r'.timeoutAt == r.timeoutAt
      && (forall x :: x in r.met ==> x in r'.met) && (forall x :: x in r'.missing ==> x in r.missing)
      && (r.triggered ==> r'.triggered)
      && (r.status != Pending ==>
            r'.status == r.status && r'.met == r.met && r'.missing == r.missing && r'.openedAt == r.openedAt)
  {
    InitialOk(c, t0);
    RunKeeps(c, Initial(t0), before, s);
    RunKeeps(c, s, after, s');
  }

  // ---- no stuck gate -----------------------------------------------------------------------

  ghost predicate NoCheckJobLeft(s: Sys) {
    forall id :: id in s.jobs && s.jobs[id].Check? ==> IsDone(s.jobs[id])
  }

  ghost predicate Stuck(s: Sys, k: Key) {
    k in s.rows && s.rows[k].status == Pending && s.rows[k].missing == []
  }

  /** With no rule, when no check job is queued or in flight no row is pending with nothing missing. */
  lemma NoStuckGate(c: Config, t0: int, acts: seq<Action>, s: Sys, k: Key)
    requires Run(c, Initial(t0), acts, s) && NoCheckJobLeft(s)
    requires Rule(c, k.project) == ""
    ensures !Stuck(s, k)
  {
    InitialOk(c, t0);
    RunKeeps(c, Initial(t0), acts, s);
    assert k in s.rows ==> NotStuck(c, s, k);
  }

  // ---- the two trigger paths -----------------------------------------------------------------

  /** Runs of either kind for a project and version. */
  function AllRuns(runs: seq<AgentRun>, p: ProjectId, v: string): nat {
    if runs == [] then 0
    else
      var r := runs[|runs| - 1];
      AllRuns(runs[..|runs| - 1], p, v) + (if r.project == p && r.version == v then 1 else 0)
  }

  lemma {:induction false} AllAreGateRuns(runs: seq<AgentRun>, p: ProjectId, v: string)
    requires forall i :: 0 <= i < |runs| && runs[i].project == p ==> !runs[i].trigger.AutoVersion?
    ensures AllRuns(runs, p, v) == GateRuns(runs, Key(p, v))
  {
    if runs != [] {
      AllAreGateRuns(runs[..|runs| - 1], p, v);
    }
  }

  /** An enabled gate: only gate workers enqueue runs for the project, at most one per version.
      An absent or disabled gate: gate workers create no row and enqueue nothing. */
  lemma TriggerPathsExclusive(c: Config, t0: int, acts: seq<Action>, s: Sys, p: ProjectId)
    requires Run(c, Initial(t0), acts, s)
    ensures GateOn(c, p) ==> forall v :: AllRuns(s.runs, p, v) <= 1
    ensures GateOn(c, p) ==> forall i :: 0 <= i < |s.runs| && s.runs[i].project == p ==>
              !s.runs[i].trigger.AutoVersion? && Key(p, s.runs[i].version) in s.rows
    ensures !GateOn(c, p) ==> forall k :: k in s.rows ==> k.project != p
    ensures !GateOn(c, p) ==> forall i :: 0 <= i < |s.runs| && s.runs[i].project == p ==> s.runs[i].trigger.AutoVersion?
  {
    InitialOk(c, t0);
    RunKeeps(c, Initial(t0), acts, s);
    forall i | 0 <= i < |s.runs| && s.runs[i].project == p
      ensures if GateOn(c, p) then !s.runs[i].trigger.AutoVersion? && Key(p, s.runs[i].version) in s.rows
              else s.runs[i].trigger.AutoVersion?
    {
      assert RunOk(c, s, s.runs[i]);
      if Key(p, s.runs[i].version) in s.rows { assert RowOk(c, s, Key(p, s.runs[i].version)); }
    }
    forall k | k in s.rows ensures GateOn(c, k.project) { assert RowOk(c, s, k); }
    if GateOn(c, p) {
      forall v ensures AllRuns(s.runs, p, v) <= 1 {
        AllAreGateRuns(s.runs, p, v);
        assert LedgerOk(s, Key(p, v));
      }
    }
  }
}
