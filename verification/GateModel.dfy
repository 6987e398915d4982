/** The release gate: configuration, the version_readiness table, and the gate, sweep and notify jobs
    as program counters over it. Every statement of a worker is one atomic step; between any two
    steps of a job any other job may step, and a job may crash and be queued again. */
module GateModel {
  import opened Common
  import opened VersionTemplate

  type ProjectId = string
  type SourceId = string
  type JobId = nat

  // ---- configuration, fixed during a run ---------------------------------------------------

  datatype Gate = Gate(enabled: bool, required: seq<SourceId>, nlRule: string, timeoutHours: int,
                       mappings: map<SourceId, VersionMapping>)

  /** `sources[p]` lists the sources of project p, newest first. */
  datatype Config = Config(owner: map<SourceId, ProjectId>, gates: map<ProjectId, Gate>,
                           sources: map<ProjectId, seq<SourceId>>, regex: Regex)

  const SOURCE_PAGE: nat := 1000
  const SWEEP_LIMIT: nat := 100
  const SECONDS_PER_HOUR: int := 3600

  predicate GateOn(c: Config, p: ProjectId) { p in c.gates && c.gates[p].enabled }

  predicate Gated(c: Config, source: SourceId) { source in c.owner && GateOn(c, c.owner[source]) }

  function Rule(c: Config, p: ProjectId): string { if p in c.gates then c.gates[p].nlRule else "" }

  function Hours(c: Config, p: ProjectId): int { if p in c.gates then c.gates[p].timeoutHours else 0 }

  /** The explicit list of the gate, or else the first page of the project's sources. */
  function Required(c: Config, p: ProjectId): seq<SourceId> {
    if p in c.gates && c.gates[p].required != [] then c.gates[p].required
    else if p in c.sources then
      if |c.sources[p]| <= SOURCE_PAGE then c.sources[p] else c.sources[p][..SOURCE_PAGE]
    else []
  }

  // ---- the database ------------------------------------------------------------------------

  /** The unique key of version_readiness; it identifies the row. */
  datatype Key = Key(project: ProjectId, version: string)

  datatype Status = Pending | Ready | TimedOut

  datatype Row = Row(status: Status, met: seq<SourceId>, missing: seq<SourceId>, nlPassed: Option<bool>,
                     createdAt: int, timeoutAt: int, openedAt: Option<int>, triggered: bool)

  type Rows = map<Key, Row>

  datatype Trigger = GateReady(key: Key) | GateTimeout(version: string) | AutoVersion(version: string)

  datatype AgentRun = AgentRun(project: ProjectId, version: string, trigger: Trigger)

  function KeyOf(c: Config, source: SourceId, raw: string): Key
    requires Gated(c, source)
  {
    var p := c.owner[source];
    Key(p, NormalizeVersionForSource(raw, source, c.gates[p].mappings, c.regex))
  }

  /** The elements of xs that are not in ys, in the order of xs. */
  function Minus(xs: seq<SourceId>, ys: seq<SourceId>): (r: seq<SourceId>)
    ensures forall x :: x in r <==> x in xs && x !in ys
  {
    if xs == [] then []
    else if xs[0] in ys then Minus(xs[1..], ys) else [xs[0]] + Minus(xs[1..], ys)
  }

  /** The DO UPDATE branch: only a pending row that has not seen this source changes. */
  function MergeRow(r: Row, source: SourceId, required: seq<SourceId>): Row {
    if r.status == Pending && source !in r.met
    then r.(met := r.met + [source], missing := Minus(required, r.met + [source]))
    else r
  }

  function NewRow(source: SourceId, required: seq<SourceId>, hours: int, now: int): Row {
    Row(Pending, [source], Minus(required, [source]), None, now, now + SECONDS_PER_HOUR * hours, None, false)
  }

  function UpsertedRow(rows: Rows, k: Key, source: SourceId, required: seq<SourceId>, hours: int, now: int): Row {
    if k in rows then MergeRow(rows[k], source, required) else NewRow(source, required, hours, now)
  }

  function OpenRow(r: Row, status: Status, now: int): Row {
    if r.status == Pending then r.(status := status, openedAt := Some(now)) else r
  }

  predicate Expired(rows: Rows, k: Key, now: int) {
    k in rows && rows[k].status == Pending && rows[k].timeoutAt < now
  }

  // ---- jobs --------------------------------------------------------------------------------

  datatype CheckPc = CkQueued | CkLoaded | CkMerged(allMet: bool, nl: Option<bool>) | CkOpened | CkEnqueued | CkDone
  datatype NlPc = NlQueued | NlLoaded | NlEvaluated(passed: bool) | NlSaved | NlOpened | NlEnqueued | NlDone
  datatype SweepPc = SwQueued | SwLooping(todo: seq<Key>) | SwOpened(k: Key, rest: seq<Key>)
                   | SwEnqueued(k': Key, rest': seq<Key>) | SwDone
  datatype NotifyPc = NfQueued | NfRules | NfNoGate | NfDone

  datatype Job = Check(source: SourceId, raw: string, ck: CheckPc)
               | NlEval(key: Key, nl: NlPc)
               | Sweep(sw: SweepPc)
               | Notify(nsource: SourceId, nraw: string, nf: NotifyPc)

  function Requeued(j: Job): Job {
    match j
    case Check(src, raw, _) => Check(src, raw, CkQueued)
    case NlEval(k, _) => NlEval(k, NlQueued)
    case Sweep(_) => Sweep(SwQueued)
    case Notify(src, raw, _) => Notify(src, raw, NfQueued)
  }

  predicate IsDone(j: Job) {
    match j
    case Check(_, _, pc) => pc == CkDone
    case NlEval(_, pc) => pc == NlDone
    case Sweep(pc) => pc == SwDone
    case Notify(_, _, pc) => pc == NfDone
  }

  /** The row a job has just opened and not yet enqueued a run for. */
  function Opener(c: Config, j: Job): Option<Key> {
    match j
    case Check(src, raw, CkOpened) => if Gated(c, src) then Some(KeyOf(c, src, raw)) else None
    case NlEval(k, NlOpened) => Some(k)
    case Sweep(SwOpened(k, _)) => Some(k)
    case _ => None
  }

  // ---- the whole system --------------------------------------------------------------------

  /** What became of the one run a row may trigger. A history of the run, not a column. */
  datatype Fate = Waiting | InFlight(job: JobId) | Ran | Lost

  /** `evals` logs the evaluation jobs inserted; `fate` and `approved` (the rows for which some
      evaluation answered true) are history. */
  datatype Sys = Sys(now: int, rows: Rows, runs: seq<AgentRun>, evals: seq<Key>, jobs: map<JobId, Job>,
                     fate: map<Key, Fate>, approved: set<Key>)

  function Initial(now: int): Sys { Sys(now, map[], [], [], map[], map[], {}) }

  function Put(s: Sys, id: JobId, j: Job): Sys { s.(jobs := s.jobs[id := j]) }

  function DoUpsert(c: Config, s: Sys, k: Key, source: SourceId): Sys {
    s.(rows := s.rows[k := UpsertedRow(s.rows, k, source, Required(c, k.project), Hours(c, k.project), s.now)],
       fate := if k in s.fate then s.fate else s.fate[k := Waiting])
  }

  predicate CanOpen(s: Sys, k: Key) { k in s.rows && s.rows[k].status == Pending }

  function DoOpen(s: Sys, k: Key, status: Status, f: Fate): Sys {
    if CanOpen(s, k)
    then s.(rows := s.rows[k := OpenRow(s.rows[k], status, s.now)], fate := s.fate[k := f])
    else s
  }

  function DoEnqueue(s: Sys, k: Key, t: Trigger): Sys {
    s.(runs := s.runs + [AgentRun(k.project, k.version, t)], fate := s.fate[k := Ran])
  }

  function DoLose(s: Sys, k: Key): Sys { s.(fate := s.fate[k := Lost]) }

  function DoMark(s: Sys, k: Key): Sys {
    if k in s.rows then s.(rows := s.rows[k := s.rows[k].(triggered := true)]) else s
  }

  function DoSaveNl(s: Sys, k: Key, passed: bool): Sys {
    if k in s.rows then s.(rows := s.rows[k := s.rows[k].(nlPassed := Some(passed))]) else s
  }

  /** OpenGate issued by job `id`: it wins, it finds the row already open, or the statement fails. */
  function OpenStep(s: Sys, id: JobId, k: Key, status: Status, fault: Fault, won: Job, beaten: Job, failed: Job): Sys {
    match fault
    case Ok => if CanOpen(s, k) then Put(DoOpen(s, k, status, InFlight(id)), id, won) else Put(s, id, beaten)
    case NotApplied => Put(s, id, failed)
    case AppliedThenError => Put(DoOpen(s, k, status, Lost), id, failed)
  }

  /** EnqueueAgentRun: one transaction inserting the run and its job. */
  function EnqueueStep(s: Sys, id: JobId, k: Key, t: Trigger, fault: Fault, next: Job, failed: Job): Sys {
    match fault
    case Ok => Put(DoEnqueue(s, k, t), id, next)
    case NotApplied => Put(DoLose(s, k), id, failed)
    case AppliedThenError => Put(DoEnqueue(s, k, t), id, failed)
  }

  function MarkStep(s: Sys, id: JobId, k: Key, fault: Fault, next: Job): Sys {
    if fault == NotApplied then Put(s, id, next) else Put(DoMark(s, k), id, next)
  }

  /** What the environment decides in a step: how the statement ends, the answer of an oracle (the
      evaluator, a filter, a version rule), the rows ListExpiredGates returns, a fresh job id. */
  datatype Outcome = Outcome(fault: Fault, flag: bool, keys: seq<Key>, newId: JobId)

  function StepCheck(c: Config, s: Sys, id: JobId, src: SourceId, raw: string, pc: CheckPc, o: Outcome): Sys
  {
    var at := (p: CheckPc) => Check(src, raw, p);
    if pc == CkQueued then
      if o.fault != Ok then Put(s, id, at(CkQueued))
      else if !Gated(c, src) then Put(s, id, at(CkDone))
      else Put(s, id, at(CkLoaded))
    else if !Gated(c, src) then s
    else
      var k := KeyOf(c, src, raw);
      match pc
      case CkLoaded =>
        if o.fault == NotApplied then Put(s, id, at(CkQueued))
        else
          var s' := DoUpsert(c, s, k, src);
          if o.fault == AppliedThenError then Put(s', id, at(CkQueued))
          else Put(s', id, at(CkMerged(s'.rows[k].missing == [], s'.rows[k].nlPassed)))
      case CkMerged(allMet, nl) =>
        if !allMet then Put(s, id, at(CkDone))
        else if Rule(c, k.project) != "" && nl != Some(true) then
          if o.fault == NotApplied then Put(s, id, at(CkDone))
          else Put(Put(s.(evals := s.evals + [k]), o.newId, NlEval(k, NlQueued)), id, at(CkDone))
        else OpenStep(s, id, k, Ready, o.fault, at(CkOpened), at(CkDone), at(CkQueued))
      case CkOpened => EnqueueStep(s, id, k, GateReady(k), o.fault, at(CkEnqueued), at(CkDone))
      case CkEnqueued => MarkStep(s, id, k, o.fault, at(CkDone))
      case _ => s
  }

  function StepNl(c: Config, s: Sys, id: JobId, k: Key, pc: NlPc, o: Outcome): Sys {
    var at := (p: NlPc) => NlEval(k, p);
    match pc
    case NlQueued =>
      if o.fault != Ok then Put(s, id, at(NlQueued))
      else if !CanOpen(s, k) then Put(s, id, at(NlDone))
      else if k.project !in c.gates then Put(s, id, at(NlQueued))
      else Put(s, id, at(NlLoaded))
    case NlLoaded =>
      if o.fault != Ok then Put(s, id, at(NlQueued))
      else Put(if o.flag then s.(approved := s.approved + {k}) else s, id, at(NlEvaluated(o.flag)))
    case NlEvaluated(passed) =>
      var s' := if o.fault == NotApplied then s else DoSaveNl(s, k, passed);
      if o.fault != Ok then Put(s', id, at(NlQueued))
      else Put(s', id, at(if passed then NlSaved else NlDone))
    case NlSaved => OpenStep(s, id, k, Ready, o.fault, at(NlOpened), at(NlDone), at(NlQueued))
    case NlOpened => EnqueueStep(s, id, k, GateReady(k), o.fault, at(NlEnqueued), at(NlDone))
    case NlEnqueued => MarkStep(s, id, k, o.fault, at(NlDone))
    case NlDone => s
  }

  function StepSweep(s: Sys, id: JobId, pc: SweepPc, o: Outcome): Sys {
    match pc
    case SwQueued => Put(s, id, Sweep(if o.fault != Ok then SwQueued else SwLooping(o.keys)))
    case SwLooping(todo) =>
      if todo == [] then Put(s, id, Sweep(SwDone))
      else
        var on := Sweep(SwLooping(todo[1..]));
        OpenStep(s, id, todo[0], TimedOut, o.fault, Sweep(SwOpened(todo[0], todo[1..])), on, on)
    case SwOpened(k, rest) =>
      EnqueueStep(s, id, k, GateTimeout(k.version), o.fault, Sweep(SwEnqueued(k, rest)), Sweep(SwLooping(rest)))
    case SwEnqueued(k, rest) => MarkStep(s, id, k, o.fault, Sweep(SwLooping(rest)))
    case SwDone => s
  }

  /** The notify job up to the agent rules. Filters and sends are the oracle flag of its first step;
      the outcome of CheckAgentRules is the flag of its last. */
  function StepNotify(c: Config, s: Sys, id: JobId, src: SourceId, raw: string, pc: NotifyPc, o: Outcome): Sys
  {
    var at := (p: NotifyPc) => Notify(src, raw, p);
    match pc
    case NfQueued =>
      if o.fault != Ok || src !in c.owner then Put(s, id, at(NfQueued))
      else Put(s, id, at(if o.flag then NfRules else NfDone))
    case NfRules =>
      if o.fault != Ok || src !in c.owner || GateOn(c, c.owner[src]) then Put(s, id, at(NfDone))
      else Put(s, id, at(NfNoGate))
    case NfNoGate =>
      if !o.flag || o.fault == NotApplied || src !in c.owner then Put(s, id, at(NfDone))
      else Put(s.(runs := s.runs + [AgentRun(c.owner[src], raw, AutoVersion(raw))]), id, at(NfDone))
    case NfDone => s
  }

  function StepJob(c: Config, s: Sys, id: JobId, o: Outcome): Sys
    requires id in s.jobs
  {
    match s.jobs[id]
    case Check(src, raw, pc) => StepCheck(c, s, id, src, raw, pc, o)
    case NlEval(k, pc) => StepNl(c, s, id, k, pc, o)
    case Sweep(pc) => StepSweep(s, id, pc, o)
    case Notify(src, raw, pc) => StepNotify(c, s, id, src, raw, pc, o)
  }

  function CrashJob(c: Config, s: Sys, id: JobId): Sys
    requires id in s.jobs
  {
    var s' := match Opener(c, s.jobs[id]) case Some(k) => DoLose(s, k) case None => s;
    Put(s', id, Requeued(s.jobs[id]))
  }

  /** Submit is ingestion or the periodic timer inserting a job; Crash also covers a job that
      finished but was delivered again; Complete is the queue forgetting a finished job. */
  datatype Action = Tick(to: int) | Submit(id: JobId, job: Job) | Crash(id: JobId)
                  | Complete(id: JobId) | Advance(id: JobId, o: Outcome)

  /** What ListExpiredGates may return: expired rows, each once, at most a page of them. Rows locked
      by another transaction are skipped, so not every expired row need be there. */
  ghost predicate SweepListOk(s: Sys, keys: seq<Key>) {
    |keys| <= SWEEP_LIMIT && Distinct(keys) && forall k :: k in keys ==> Expired(s.rows, k, s.now)
  }

  ghost predicate Enabled(c: Config, s: Sys, a: Action) {
    match a
    case Tick(t) => s.now <= t
    case Submit(id, j) => id !in s.jobs && j == Requeued(j) && !j.NlEval?
    case Crash(id) => id in s.jobs
    case Complete(id) => id in s.jobs && IsDone(s.jobs[id])
    case Advance(id, o) =>
      && id in s.jobs && o.newId !in s.jobs
      && (s.jobs[id] == Sweep(SwQueued) ==> SweepListOk(s, o.keys))
  }

  function Apply(c: Config, s: Sys, a: Action): Sys {
    match a
    case Tick(t) => s.(now := t)
    case Submit(id, j) => Put(s, id, j)
    case Crash(id) => if id in s.jobs then CrashJob(c, s, id) else s
    case Complete(id) => s.(jobs := s.jobs - {id})
    case Advance(id, o) => if id in s.jobs then StepJob(c, s, id, o) else s
  }

  /** `acts` is a run from s to s'. */
  ghost predicate Run(c: Config, s: Sys, acts: seq<Action>, s': Sys)
    decreases |acts|
  {
    if acts == [] then s' == s
    else Enabled(c, s, acts[0]) && Run(c, Apply(c, s, acts[0]), acts[1..], s')
  }

  lemma {:induction false} RunAppend(c: Config, s: Sys, acts: seq<Action>, mid: Sys, a: Action)
    requires Run(c, s, acts, mid) && Enabled(c, mid, a)
    ensures Run(c, s, acts + [a], Apply(c, mid, a))
    decreases |acts|
  {
    if acts == [] {
      assert (acts + [a])[1..] == [];
    } else {
      RunAppend(c, Apply(c, s, acts[0]), acts[1..], mid, a);
      assert (acts + [a])[1..] == acts[1..] + [a];
    }
  }

  lemma {:induction false} RunConcat(c: Config, s: Sys, xs: seq<Action>, mid: Sys, ys: seq<Action>, s': Sys)
    requires Run(c, s, xs, mid) && Run(c, mid, ys, s')
    ensures Run(c, s, xs + ys, s')
    decreases |xs|
  {
    if xs == [] {
      assert xs + ys == ys;
    } else {
      RunConcat(c, Apply(c, s, xs[0]), xs[1..], mid, ys, s');
      assert (xs + ys)[1..] == xs[1..] + ys;
    }
  }

  /** Number of gate-triggered runs for a row's project and version. */
  function GateRuns(runs: seq<AgentRun>, k: Key): nat {
    if runs == [] then 0
    else
      var r := runs[|runs| - 1];
      GateRuns(runs[..|runs| - 1], k)
      + (if r.project == k.project && r.version == k.version && !r.trigger.AutoVersion? then 1 else 0)
  }

  lemma GateRunsAppend(runs: seq<AgentRun>, r: AgentRun, k: Key)
    ensures GateRuns(runs + [r], k) == GateRuns(runs, k)
            + (if r.project == k.project && r.version == k.version && !r.trigger.AutoVersion? then 1 else 0)
  {
    assert (runs + [r])[..|runs|] == runs;
  }
}
