/** The inductive invariant of the release gate: table, ledger of runs and program counters together. */
module GateInvariant {
  import opened Common
  import opened GateModel

  ghost predicate RowOk(c: Config, s: Sys, k: Key)
    requires k in s.rows
  {
    var r := s.rows[k];
    && k in s.fate
    && GateOn(c, k.project)
    && (r.status == Pending <==> s.fate[k] == Waiting)
    && (r.triggered ==> s.fate[k] == Ran)
    && Distinct(r.met)
    && r.missing == Minus(Required(c, k.project), r.met)
    && r.timeoutAt == r.createdAt + SECONDS_PER_HOUR * Hours(c, k.project)
    && r.createdAt <= s.now
    && (r.nlPassed == Some(true) ==> k in s.approved)
    && (r.status == Ready ==> r.missing == [] && (Rule(c, k.project) != "" ==> k in s.approved))
    && (r.status == TimedOut ==> r.openedAt.Some? && r.timeoutAt < r.openedAt.value <= s.now)
    && (s.fate[k].InFlight? ==>
          s.fate[k].job in s.jobs && Opener(c, s.jobs[s.fate[k].job]) == Some(k))
  }

  ghost predicate AllMet(s: Sys, k: Key) { k in s.rows && s.rows[k].missing == [] }

  ghost predicate Ran?(s: Sys, k: Key) { k in s.rows && k in s.fate && s.fate[k] == Ran }

  ghost predicate Flying(s: Sys, k: Key, id: JobId) { k in s.rows && k in s.fate && s.fate[k] == InFlight(id) }

  ghost predicate PastDeadline(s: Sys, k: Key) { k in s.rows && s.rows[k].timeoutAt < s.now }

  ghost predicate CheckOk(c: Config, s: Sys, id: JobId, k: Key, pc: CheckPc) {
    match pc
    case CkMerged(all, nl) => k in s.rows && (all ==> AllMet(s, k)) && (nl == Some(true) ==> k in s.approved)
    case CkOpened => Flying(s, k, id)
    case CkEnqueued => Ran?(s, k)
    case _ => true
  }

  ghost predicate NlOk(c: Config, s: Sys, id: JobId, k: Key, pc: NlPc) {
    && AllMet(s, k)
    && Rule(c, k.project) != ""
    && (pc == NlEvaluated(true) || pc == NlSaved ==> k in s.approved)
    && (pc == NlOpened ==> Flying(s, k, id))
    && (pc == NlEnqueued ==> Ran?(s, k))
  }

  ghost predicate SweepOk(s: Sys, id: JobId, pc: SweepPc) {
    match pc
    case SwLooping(todo) => forall k :: k in todo ==> PastDeadline(s, k)
    case SwOpened(k, rest) => Flying(s, k, id) && forall x :: x in rest ==> PastDeadline(s, x)
    case SwEnqueued(k, rest) => Ran?(s, k) && forall x :: x in rest ==> PastDeadline(s, x)
    case _ => true
  }

  ghost predicate JobOk(c: Config, s: Sys, id: JobId, j: Job) {
    match j
    case Check(src, raw, pc) =>
      pc == CkQueued || pc == CkDone || (Gated(c, src) && CheckOk(c, s, id, KeyOf(c, src, raw), pc))
    case NlEval(k, pc) => NlOk(c, s, id, k, pc)
    case Sweep(pc) => SweepOk(s, id, pc)
    case Notify(src, _, pc) => pc == NfNoGate ==> src in c.owner && !GateOn(c, c.owner[src])
  }

  ghost predicate RunOk(c: Config, s: Sys, r: AgentRun) {
    if r.trigger.AutoVersion? then !GateOn(c, r.project) else Key(r.project, r.version) in s.rows
  }

  ghost predicate LedgerOk(s: Sys, k: Key) {
    GateRuns(s.runs, k) == (if k in s.fate && s.fate[k] == Ran then 1 else 0)
  }

  /** A check job that will still try to open row k. */
  ghost predicate Closing(c: Config, j: Job, k: Key) {
    && j.Check? && Gated(c, j.source) && KeyOf(c, j.source, j.raw) == k
    && (j.ck == CkQueued || j.ck == CkLoaded || (j.ck.CkMerged? && j.ck.allMet))
  }

  ghost predicate Closable(c: Config, s: Sys, k: Key) {
    k in s.rows && s.rows[k].status == Pending && s.rows[k].missing == [] && Rule(c, k.project) == ""
  }

  ghost predicate NotStuck(c: Config, s: Sys, k: Key) {
    Closable(c, s, k) ==> exists id :: id in s.jobs && Closing(c, s.jobs[id], k)
  }

  ghost predicate Inv(c: Config, s: Sys) {
    && s.fate.Keys == s.rows.Keys
    && (forall k :: k in s.rows ==> RowOk(c, s, k))
    && (forall id :: id in s.jobs ==> JobOk(c, s, id, s.jobs[id]))
    && (forall i :: 0 <= i < |s.runs| ==> RunOk(c, s, s.runs[i]))
    && (forall k :: LedgerOk(s, k))
    && (forall k :: k in s.rows ==> NotStuck(c, s, k))
  }

  // ---- what every step keeps about the past ------------------------------------------------

  /** An opened row keeps its sources, an empty missing list stays empty, the deadline never moves. */
  ghost predicate RowEvolves(r: Row, r': Row) {
    && r'.createdAt == r.createdAt && r'.timeoutAt == r.timeoutAt
    && (forall x :: x in r.met ==> x in r'.met)
    && (forall x :: x in r'.missing ==> x in r.missing)
    && (r.missing == [] ==> r'.missing == [])
    && (r.status != Pending ==>
          r'.status == r.status && r'.met == r.met && r'.missing == r.missing && r'.openedAt == r.openedAt)
    && (r.triggered ==> r'.triggered)
  }

  ghost predicate Evolves(s: Sys, s': Sys) {
    && s.now <= s'.now
    && s.approved <= s'.approved
    && s.runs <= s'.runs
    && (forall k :: k in s.rows ==> k in s'.rows && RowEvolves(s.rows[k], s'.rows[k]))
    && (forall k :: k in s.fate && s.fate[k] == Ran ==> k in s'.fate && s'.fate[k] == Ran)
  }

  lemma EvolvesTransitive(a: Sys, b: Sys, d: Sys)
    requires Evolves(a, b) && Evolves(b, d)
    ensures Evolves(a, d)
  {
  }

  /** A job not taking part in a step stays well-formed. */
  lemma OtherJobOk(c: Config, s: Sys, s': Sys, id: JobId, j: Job)
    requires Evolves(s, s') && JobOk(c, s, id, j)
    requires forall k :: Flying(s, k, id) ==> Flying(s', k, id)
    ensures JobOk(c, s', id, j)
  {
    assert forall k :: AllMet(s, k) ==> AllMet(s', k);
  }

  lemma SameLedger(c: Config, s: Sys, s': Sys)
    requires Inv(c, s) && s'.runs == s.runs && s'.fate == s.fate && s'.rows.Keys == s.rows.Keys
    ensures forall x :: LedgerOk(s', x)
    ensures forall i :: 0 <= i < |s'.runs| ==> RunOk(c, s', s'.runs[i])
  {
    forall x ensures LedgerOk(s', x) { assert LedgerOk(s, x); }
    forall i | 0 <= i < |s'.runs| ensures RunOk(c, s', s'.runs[i]) { assert RunOk(c, s, s.runs[i]); }
  }

  /** A step of job `me` that ends with the job at j, touches no row but k, and adds at most one run,
      the gate run of row k. */
  ghost predicate StepOn(s: Sys, s': Sys, me: JobId, j: Job, k: Key, added: Option<AgentRun>) {
    && me in s.jobs
    && s'.now == s.now
    && s'.jobs == s.jobs[me := j]
    && s.approved <= s'.approved
    && s'.rows.Keys == s.rows.Keys + {k} && s'.fate.Keys == s.fate.Keys + {k}
    && (forall x :: x != k && x in s.rows ==> s'.rows[x] == s.rows[x])
    && (forall x :: x != k && x in s.fate ==> s'.fate[x] == s.fate[x])
    && (k in s.rows ==> RowEvolves(s.rows[k], s'.rows[k]))
    && (k in s.fate && s.fate[k] == Ran ==> s'.fate[k] == Ran)
    && (k in s.fate && s.fate[k].InFlight? && s.fate[k].job != me ==> s'.fate[k] == s.fate[k])
    && (match added
        case None => s'.runs == s.runs
        case Some(r) => s'.runs == s.runs + [r] && !r.trigger.AutoVersion? && Key(r.project, r.version) == k)
  }

  lemma StepRows(c: Config, s: Sys, s': Sys, me: JobId, j: Job, k: Key, added: Option<AgentRun>)
    requires (forall x :: x in s.rows ==> RowOk(c, s, x)) && StepOn(s, s', me, j, k, added)
    requires s.fate.Keys == s.rows.Keys && RowOk(c, s', k)
    requires forall x :: x != k && Flying(s, x, me) ==> Opener(c, j) == Some(x)
    ensures forall x :: x in s'.rows ==> RowOk(c, s', x)
  {
    forall x | x in s'.rows && x != k ensures RowOk(c, s', x) {
      assert RowOk(c, s, x);
      if s.fate[x].InFlight? && s.fate[x].job == me { assert Flying(s, x, me); }
    }
  }

  lemma StepJobs(c: Config, s: Sys, s': Sys, me: JobId, j: Job, k: Key, added: Option<AgentRun>)
    requires StepOn(s, s', me, j, k, added) && s.fate.Keys == s.rows.Keys && JobOk(c, s', me, j)
    requires forall id :: id in s.jobs ==> JobOk(c, s, id, s.jobs[id])
    ensures Evolves(s, s')
    ensures forall id :: id in s'.jobs ==> JobOk(c, s', id, s'.jobs[id])
  {
    forall id | id in s'.jobs && id != me ensures JobOk(c, s', id, s'.jobs[id]) {
      OtherJobOk(c, s, s', id, s.jobs[id]);
    }
  }

  lemma StepLedger(s: Sys, s': Sys, me: JobId, j: Job, k: Key, added: Option<AgentRun>)
    requires (forall x :: LedgerOk(s, x)) && StepOn(s, s', me, j, k, added) && LedgerOk(s', k)
    ensures forall x :: LedgerOk(s', x)
  {
    forall x ensures LedgerOk(s', x) {
      assert LedgerOk(s, x);
      if added.Some? { GateRunsAppend(s.runs, added.value, x); }
    }
  }

  lemma StepRuns(c: Config, s: Sys, s': Sys, me: JobId, j: Job, k: Key, added: Option<AgentRun>)
    requires (forall i :: 0 <= i < |s.runs| ==> RunOk(c, s, s.runs[i])) && StepOn(s, s', me, j, k, added)
    ensures forall i :: 0 <= i < |s'.runs| ==> RunOk(c, s', s'.runs[i])
  {
    forall i | 0 <= i < |s'.runs| ensures RunOk(c, s', s'.runs[i]) {
      if i < |s.runs| { assert RunOk(c, s, s.runs[i]); }
    }
  }

  /** A row that can be closed after the step could already be closed before it, and not by `me`
      alone, or `me` will close it. */
  ghost predicate ClosersKept(c: Config, s: Sys, s': Sys, me: JobId, j: Job, x: Key) {
    Closable(c, s', x) ==>
      Closing(c, j, x) || (Closable(c, s, x) && !(me in s.jobs && Closing(c, s.jobs[me], x)))
  }

  /** It is enough to look at row k. */
  lemma ClosersOf(c: Config, s: Sys, s': Sys, me: JobId, j: Job, k: Key)
    requires me in s.jobs && s'.rows.Keys == s.rows.Keys + {k} && (
             forall x :: x != k && x in s.rows ==> s'.rows[x] == s.rows[x])
    requires Closable(c, s', k) ==> Closing(c, j, k)
    requires forall x :: Closing(c, s.jobs[me], x) ==> x == k
    ensures forall x :: ClosersKept(c, s, s', me, j, x)
  {
  }

  lemma StepClosers(c: Config, s: Sys, s': Sys, me: JobId, j: Job)
    requires (forall x :: x in s.rows ==> NotStuck(c, s, x)) && s'.jobs == s.jobs[me := j]
    requires forall x :: ClosersKept(c, s, s', me, j, x)
    ensures forall x :: x in s'.rows ==> NotStuck(c, s', x)
  {
    forall x | x in s'.rows && Closable(c, s', x) ensures NotStuck(c, s', x) {
      assert ClosersKept(c, s, s', me, j, x);
      if Closing(c, j, x) {
        assert s'.jobs[me] == j;
      } else {
        assert NotStuck(c, s, x);
        var id :| id in s.jobs && Closing(c, s.jobs[id], x);
        assert s'.jobs[id] == s.jobs[id];
      }
    }
  }

  /** The invariant after a step, from what has to be checked about the row and the job it touches. */
  lemma Assemble(c: Config, s: Sys, s': Sys, me: JobId, j: Job, k: Key, added: Option<AgentRun>)
    requires Inv(c, s) && StepOn(s, s', me, j, k, added)
    requires RowOk(c, s', k) && JobOk(c, s', me, j) && LedgerOk(s', k)
    requires forall x :: x != k && Flying(s, x, me) ==> Opener(c, j) == Some(x)
    requires Closable(c, s', k) ==> Closing(c, j, k)
    requires forall x :: Closing(c, s.jobs[me], x) ==> x == k
    ensures Inv(c, s') && Evolves(s, s')
  {
    StepRows(c, s, s', me, j, k, added);
    StepJobs(c, s, s', me, j, k, added);
    StepLedger(s, s', me, j, k, added);
    StepRuns(c, s, s', me, j, k, added);
    ClosersOf(c, s, s', me, j, k);
    StepClosers(c, s, s', me, j);
  }

  // ---- the steps that touch a row ----------------------------------------------------------

  /** What the invariant says about one row and its ledger. */
  ghost predicate At(c: Config, s: Sys, k: Key) {
    s.fate.Keys == s.rows.Keys && k in s.rows && RowOk(c, s, k) && LedgerOk(s, k)
  }

  lemma DoOpenOk(c: Config, s: Sys, me: JobId, k: Key, status: Status, f: Fate, j: Job)
    requires At(c, s, k) && me in s.jobs && status != Pending
    requires f == Lost || (f == InFlight(me) && Opener(c, j) == Some(k))
    requires status == Ready ==> AllMet(s, k) && (Rule(c, k.project) != "" ==> k in s.approved)
    requires status == TimedOut ==> PastDeadline(s, k)
    requires !Flying(s, k, me)
    ensures var s' := Put(DoOpen(s, k, status, f), me, j);
            StepOn(s, s', me, j, k, None) && RowOk(c, s', k) && LedgerOk(s', k) && !Closable(c, s', k)
  {
  }

  lemma IdleRows(c: Config, s: Sys, me: JobId, j: Job)
    requires (forall x :: x in s.rows ==> RowOk(c, s, x)) && forall x :: !Flying(s, x, me)
    ensures forall x :: x in s.rows ==> RowOk(c, Put(s, me, j), x)
  {
    forall x | x in s.rows ensures RowOk(c, Put(s, me, j), x) { assert RowOk(c, s, x) && !Flying(s, x, me); }
  }

  lemma IdleJobs(c: Config, s: Sys, me: JobId, j: Job)
    requires (forall id :: id in s.jobs ==> JobOk(c, s, id, s.jobs[id])) && JobOk(c, Put(s, me, j), me, j)
    ensures Evolves(s, Put(s, me, j)) && forall id :: id in Put(s, me, j).jobs ==>
            JobOk(c, Put(s, me, j), id, Put(s, me, j).jobs[id])
  {
    var s' := Put(s, me, j);
    forall id | id in s'.jobs && id != me ensures JobOk(c, s', id, s'.jobs[id]) {
      OtherJobOk(c, s, s', id, s.jobs[id]);
    }
  }

  /** A step that only moves job `me`, which had no row in flight. */
  lemma IdleKeeps(c: Config, s: Sys, me: JobId, j: Job)
    requires Inv(c, s) && me in s.jobs
    requires forall x :: !Flying(s, x, me)
    requires JobOk(c, Put(s, me, j), me, j)
    requires forall x :: ClosersKept(c, s, Put(s, me, j), me, j, x)
    ensures Inv(c, Put(s, me, j)) && Evolves(s, Put(s, me, j))
  {
    IdleRows(c, s, me, j);
    IdleJobs(c, s, me, j);
    SameLedger(c, s, Put(s, me, j));
    StepClosers(c, s, Put(s, me, j), me, j);
  }

  /** The same for a job that has no part in closing rows. */
  lemma QuietKeeps(c: Config, s: Sys, me: JobId, j: Job)
    requires Inv(c, s) && me in s.jobs && !s.jobs[me].Check?
    requires forall x :: !Flying(s, x, me)
    requires JobOk(c, Put(s, me, j), me, j)
    ensures Inv(c, Put(s, me, j)) && Evolves(s, Put(s, me, j))
  {
    QuietClosers(c, s, me, j);
    IdleKeeps(c, s, me, j);
  }

  lemma QuietClosers(c: Config, s: Sys, me: JobId, j: Job)
    requires me in s.jobs && !s.jobs[me].Check?
    ensures forall x :: ClosersKept(c, s, Put(s, me, j), me, j, x)
  {
  }

  /** Opening a pending row; f says whether the worker got to know that it won. */
  lemma OpenedKeeps(c: Config, s: Sys, me: JobId, k: Key, status: Status, f: Fate, j: Job)
    requires Inv(c, s) && me in s.jobs && status != Pending && CanOpen(s, k)
    requires f == Lost || (f == InFlight(me) && Opener(c, j) == Some(k))
    requires status == Ready ==> AllMet(s, k) && (Rule(c, k.project) != "" ==> k in s.approved)
    requires status == TimedOut ==> PastDeadline(s, k)
    requires forall x :: !Flying(s, x, me)
    requires JobOk(c, Put(DoOpen(s, k, status, f), me, j), me, j)
    requires forall x :: Closing(c, s.jobs[me], x) ==> x == k
    ensures var s' := Put(DoOpen(s, k, status, f), me, j); Inv(c, s') && Evolves(s, s')
  {
    assert At(c, s, k);
    DoOpenOk(c, s, me, k, status, f, j);
    Assemble(c, s, Put(DoOpen(s, k, status, f), me, j), me, j, k, None);
  }

  lemma EnqueueOk(c: Config, s: Sys, me: JobId, k: Key, t: Trigger, j: Job)
    requires At(c, s, k) && me in s.jobs && Flying(s, k, me) && !t.AutoVersion?
    ensures var r, s' := AgentRun(k.project, k.version, t), Put(DoEnqueue(s, k, t), me, j);
            StepOn(s, s', me, j, k, Some(r)) && RowOk(c, s', k) && LedgerOk(s', k) && !Closable(c, s', k)
  {
    GateRunsAppend(s.runs, AgentRun(k.project, k.version, t), k);
  }

  lemma EnqueuedKeeps(c: Config, s: Sys, me: JobId, k: Key, t: Trigger, j: Job)
    requires Inv(c, s) && me in s.jobs && Flying(s, k, me) && !t.AutoVersion?
    requires forall x :: Flying(s, x, me) ==> x == k
    requires JobOk(c, Put(DoEnqueue(s, k, t), me, j), me, j)
    requires forall x :: !Closing(c, s.jobs[me], x)
    ensures var s' := Put(DoEnqueue(s, k, t), me, j); Inv(c, s') && Evolves(s, s')
  {
    assert At(c, s, k);
    EnqueueOk(c, s, me, k, t, j);
    Assemble(c, s, Put(DoEnqueue(s, k, t), me, j), me, j, k, Some(AgentRun(k.project, k.version, t)));
  }

  lemma LoseOk(c: Config, s: Sys, me: JobId, k: Key, j: Job)
    requires At(c, s, k) && me in s.jobs && Flying(s, k, me)
    ensures var s' := Put(DoLose(s, k), me, j);
            StepOn(s, s', me, j, k, None) && RowOk(c, s', k) && LedgerOk(s', k) && !Closable(c, s', k)
  {
  }

  lemma LostKeeps(c: Config, s: Sys, me: JobId, k: Key, j: Job)
    requires Inv(c, s) && me in s.jobs && Flying(s, k, me)
    requires forall x :: Flying(s, x, me) ==> x == k
    requires JobOk(c, Put(DoLose(s, k), me, j), me, j)
    requires forall x :: !Closing(c, s.jobs[me], x)
    ensures var s' := Put(DoLose(s, k), me, j); Inv(c, s') && Evolves(s, s')
  {
    assert At(c, s, k);
    LoseOk(c, s, me, k, j);
    Assemble(c, s, Put(DoLose(s, k), me, j), me, j, k, None);
  }

  lemma MarkOk(c: Config, s: Sys, me: JobId, k: Key, j: Job)
    requires At(c, s, k) && me in s.jobs && Ran?(s, k)
    ensures var s' := Put(DoMark(s, k), me, j);
            StepOn(s, s', me, j, k, None) && RowOk(c, s', k) && LedgerOk(s', k) && !Closable(c, s', k)
  {
  }

  lemma MarkedKeeps(c: Config, s: Sys, me: JobId, k: Key, j: Job)
    requires Inv(c, s) && me in s.jobs && Ran?(s, k)
    requires forall x :: !Flying(s, x, me)
    requires JobOk(c, Put(DoMark(s, k), me, j), me, j)
    requires forall x :: !Closing(c, s.jobs[me], x)
    ensures var s' := Put(DoMark(s, k), me, j); Inv(c, s') && Evolves(s, s')
  {
    assert At(c, s, k);
    MarkOk(c, s, me, k, j);
    Assemble(c, s, Put(DoMark(s, k), me, j), me, j, k, None);
  }

  lemma {:induction false} MinusShrinks(req: seq<SourceId>, met: seq<SourceId>, x: SourceId)
    requires Minus(req, met) == []
    ensures Minus(req, met + [x]) == []
  {
    if req != [] {
      assert req[0] in met;
      MinusShrinks(req[1..], met, x);
    }
  }

  lemma MergeEvolves(r: Row, source: SourceId, required: seq<SourceId>)
    requires Distinct(r.met) && r.missing == Minus(required, r.met)
    ensures var r' := MergeRow(r, source, required);
            RowEvolves(r, r') && Distinct(r'.met) && r'.missing == Minus(required, r'.met)
  {
    if r.status == Pending && source !in r.met {
      DistinctAppend(r.met, source);
      if r.missing == [] { MinusShrinks(required, r.met, source); }
    }
  }

  lemma UpsertOk(c: Config, s: Sys, me: JobId, k: Key, source: SourceId, j: Job)
    requires s.fate.Keys == s.rows.Keys && LedgerOk(s, k) && GateOn(c, k.project) && me in s.jobs
    requires k in s.rows ==> RowOk(c, s, k)
    requires !Flying(s, k, me)
    ensures var s' := Put(DoUpsert(c, s, k, source), me, j);
            StepOn(s, s', me, j, k, None) && RowOk(c, s', k) && LedgerOk(s', k)
  {
    if k in s.rows {
      MergeEvolves(s.rows[k], source, Required(c, k.project));
    }
  }

  lemma UpsertKeeps(c: Config, s: Sys, me: JobId, k: Key, source: SourceId, j: Job)
    requires Inv(c, s) && me in s.jobs && GateOn(c, k.project)
    requires forall x :: !Flying(s, x, me)
    requires var s' := Put(DoUpsert(c, s, k, source), me, j);
             JobOk(c, s', me, j) && (Closable(c, s', k) ==> Closing(c, j, k))
    requires forall x :: Closing(c, s.jobs[me], x) ==> x == k
    ensures var s' := Put(DoUpsert(c, s, k, source), me, j); Inv(c, s') && Evolves(s, s')
  {
    assert LedgerOk(s, k) && (k in s.rows ==> RowOk(c, s, k));
    UpsertOk(c, s, me, k, source, j);
    Assemble(c, s, Put(DoUpsert(c, s, k, source), me, j), me, j, k, None);
  }

  lemma SaveNlOk(c: Config, s: Sys, me: JobId, k: Key, passed: bool, j: Job)
    requires At(c, s, k) && me in s.jobs && (passed ==> k in s.approved) && !Flying(s, k, me)
    ensures var s' := Put(DoSaveNl(s, k, passed), me, j);
            StepOn(s, s', me, j, k, None) && RowOk(c, s', k) && LedgerOk(s', k)
  {
  }

  lemma SavedNlKeeps(c: Config, s: Sys, me: JobId, k: Key, passed: bool, j: Job)
    requires Inv(c, s) && me in s.jobs && k in s.rows && (passed ==> k in s.approved)
    requires Rule(c, k.project) != ""
    requires forall x :: !Flying(s, x, me)
    requires JobOk(c, Put(DoSaveNl(s, k, passed), me, j), me, j)
    requires forall x :: !Closing(c, s.jobs[me], x)
    ensures var s' := Put(DoSaveNl(s, k, passed), me, j); Inv(c, s') && Evolves(s, s')
  {
    assert At(c, s, k);
    SaveNlOk(c, s, me, k, passed, j);
    Assemble(c, s, Put(DoSaveNl(s, k, passed), me, j), me, j, k, None);
  }

  lemma ApproveOk(c: Config, s: Sys, me: JobId, k: Key, j: Job)
    requires At(c, s, k) && me in s.jobs && !Flying(s, k, me)
    ensures var s' := Put(s.(approved := s.approved + {k}), me, j);
            StepOn(s, s', me, j, k, None) && RowOk(c, s', k) && LedgerOk(s', k)
  {
  }

  lemma ApprovedKeeps(c: Config, s: Sys, me: JobId, k: Key, j: Job)
    requires Inv(c, s) && me in s.jobs && k in s.rows && Rule(c, k.project) != ""
    requires forall x :: !Flying(s, x, me)
    requires JobOk(c, Put(s.(approved := s.approved + {k}), me, j), me, j)
    requires forall x :: !Closing(c, s.jobs[me], x)
    ensures var s' := Put(s.(approved := s.approved + {k}), me, j); Inv(c, s') && Evolves(s, s')
  {
    assert At(c, s, k);
    ApproveOk(c, s, me, k, j);
    Assemble(c, s, Put(s.(approved := s.approved + {k}), me, j), me, j, k, None);
  }

  // ---- steps of the environment ------------------------------------------------------------

  /** Nothing that is there changes: time may pass, jobs and runs may be added. */
  ghost predicate Grows(s: Sys, s': Sys) {
    && s.now <= s'.now && s'.rows == s.rows && s'.fate == s.fate && s'.approved == s.approved && s.runs <= s'.runs
    && (forall id :: id in s.jobs ==> id in s'.jobs && s'.jobs[id] == s.jobs[id])
  }

  lemma GrowsRows(c: Config, s: Sys, s': Sys)
    requires Grows(s, s') && forall x :: x in s.rows ==> RowOk(c, s, x)
    ensures forall x :: x in s'.rows ==> RowOk(c, s', x)
  {
    forall x | x in s'.rows ensures RowOk(c, s', x) { assert RowOk(c, s, x); }
  }

  lemma GrowsJobs(c: Config, s: Sys, s': Sys)
    requires Grows(s, s') && forall id :: id in s.jobs ==> JobOk(c, s, id, s.jobs[id])
    ensures Evolves(s, s') && forall id :: id in s.jobs ==> JobOk(c, s', id, s.jobs[id])
  {
    forall id | id in s.jobs ensures JobOk(c, s', id, s.jobs[id]) { OtherJobOk(c, s, s', id, s.jobs[id]); }
  }

  lemma GrowsClosers(c: Config, s: Sys, s': Sys)
    requires Grows(s, s') && forall x :: x in s.rows ==> NotStuck(c, s, x)
    ensures forall x :: x in s'.rows ==> NotStuck(c, s', x)
  {
    forall x | x in s'.rows && Closable(c, s', x) ensures NotStuck(c, s', x) {
      assert NotStuck(c, s, x);
      var w :| w in s.jobs && Closing(c, s.jobs[w], x);
      assert s'.jobs[w] == s.jobs[w];
    }
  }

  lemma GrowsKeeps(c: Config, s: Sys, s': Sys)
    requires Inv(c, s) && Grows(s, s')
    requires forall id :: id in s'.jobs && id !in s.jobs ==> JobOk(c, s', id, s'.jobs[id])
    requires (forall x :: LedgerOk(s', x)) && forall i :: 0 <= i < |s'.runs| ==> RunOk(c, s', s'.runs[i])
    ensures Inv(c, s') && Evolves(s, s')
  {
    GrowsRows(c, s, s');
    GrowsJobs(c, s, s');
    GrowsClosers(c, s, s');
  }

  lemma AddJobKeeps(c: Config, s: Sys, id: JobId, j: Job)
    requires Inv(c, s) && id !in s.jobs && JobOk(c, Put(s, id, j), id, j)
    ensures Inv(c, Put(s, id, j)) && Evolves(s, Put(s, id, j))
  {
    SameLedger(c, s, Put(s, id, j));
    GrowsKeeps(c, s, Put(s, id, j));
  }

  /** The log of evaluation jobs plays no part in the invariant. */
  lemma LogKeeps(c: Config, s: Sys, evals: seq<Key>)
    requires Inv(c, s)
    ensures Inv(c, s.(evals := evals)) && Evolves(s, s.(evals := evals))
  {
    SameLedger(c, s, s.(evals := evals));
    GrowsKeeps(c, s, s.(evals := evals));
  }

  lemma DropRows(c: Config, s: Sys, id: JobId)
    requires Inv(c, s) && id in s.jobs && Opener(c, s.jobs[id]) == None
    ensures var s' := s.(jobs := s.jobs - {id}); forall x :: x in s'.rows ==> RowOk(c, s', x)
  {
    var s' := s.(jobs := s.jobs - {id});
    forall x | x in s'.rows ensures RowOk(c, s', x) {
      assert RowOk(c, s, x);
    }
  }

  lemma DropClosers(c: Config, s: Sys, id: JobId)
    requires Inv(c, s) && id in s.jobs && forall x :: !Closing(c, s.jobs[id], x)
    ensures var s' := s.(jobs := s.jobs - {id}); forall x :: x in s'.rows ==> NotStuck(c, s', x)
  {
    var s' := s.(jobs := s.jobs - {id});
    forall x | x in s'.rows && Closable(c, s', x) ensures NotStuck(c, s', x) {
      assert NotStuck(c, s, x);
      var w :| w in s.jobs && Closing(c, s.jobs[w], x);
      assert w in s'.jobs && s'.jobs[w] == s.jobs[w];
    }
  }

  lemma CompleteKeeps(c: Config, s: Sys, id: JobId)
    requires Inv(c, s) && id in s.jobs && IsDone(s.jobs[id])
    ensures var s' := s.(jobs := s.jobs - {id}); Inv(c, s') && Evolves(s, s')
  {
    var s' := s.(jobs := s.jobs - {id});
    DropRows(c, s, id);
    DropClosers(c, s, id);
    forall x | x in s'.jobs ensures JobOk(c, s', x, s'.jobs[x]) {
      OtherJobOk(c, s, s', x, s.jobs[x]);
    }
    SameLedger(c, s, s');
  }

  lemma TickKeeps(c: Config, s: Sys, t: int)
    requires Inv(c, s) && s.now <= t
    ensures Inv(c, s.(now := t)) && Evolves(s, s.(now := t))
  {
    SameLedger(c, s, s.(now := t));
    GrowsKeeps(c, s, s.(now := t));
  }

  /** The only row a job can have in flight is the one its program counter names. */
  lemma FlyingIsOpener(c: Config, s: Sys, id: JobId)
    requires Inv(c, s) && id in s.jobs
    ensures forall x :: Flying(s, x, id) ==> Opener(c, s.jobs[id]) == Some(x)
  {
    forall x | Flying(s, x, id) ensures Opener(c, s.jobs[id]) == Some(x) {
      assert RowOk(c, s, x);
    }
  }

  lemma CrashKeeps(c: Config, s: Sys, id: JobId)
    requires Inv(c, s) && id in s.jobs
    ensures Inv(c, CrashJob(c, s, id)) && Evolves(s, CrashJob(c, s, id))
  {
    FlyingIsOpener(c, s, id);
    var j := s.jobs[id];
    assert JobOk(c, s, id, j);
    match Opener(c, j) {
      case Some(k) => LostKeeps(c, s, id, k, Requeued(j));
      case None => IdleKeeps(c, s, id, Requeued(j));
    }
  }

  // ---- the steps of the jobs ---------------------------------------------------------------

  lemma CheckLoadedKeeps(c: Config, s: Sys, id: JobId, src: SourceId, raw: string, o: Outcome)
    requires Inv(c, s) && id in s.jobs && s.jobs[id] == Check(src, raw, CkLoaded) && Gated(c, src)
    requires forall x :: !Flying(s, x, id)
    ensures var s' := StepCheck(c, s, id, src, raw, CkLoaded, o); Inv(c, s') && Evolves(s, s')
  {
    var s' := StepCheck(c, s, id, src, raw, CkLoaded, o);
    var k := KeyOf(c, src, raw);
    if o.fault == NotApplied {
      IdleKeeps(c, s, id, s'.jobs[id]);
    } else {
      assert k in s.rows ==> RowOk(c, s, k);
      UpsertKeeps(c, s, id, k, src, s'.jobs[id]);
    }
  }

  /** The check job stops, leaving the row to others. */
  lemma CheckDoneKeeps(c: Config, s: Sys, id: JobId, src: SourceId, raw: string, allMet: bool, nl: Option<bool>)
    requires Inv(c, s) && id in s.jobs && s.jobs[id] == Check(src, raw, CkMerged(allMet, nl)) && Gated(c, src)
    requires !allMet || Rule(c, KeyOf(c, src, raw).project) != ""
    requires forall x :: !Flying(s, x, id)
    ensures var s' := Put(s, id, Check(src, raw, CkDone)); Inv(c, s') && Evolves(s, s')
  {
    var done := Check(src, raw, CkDone);
    forall x ensures ClosersKept(c, s, Put(s, id, done), id, done, x) {
    }
    IdleKeeps(c, s, id, done);
  }

  lemma QueuesEvalKeeps(c: Config, s: Sys, k: Key, newId: JobId)
    requires Inv(c, s) && newId !in s.jobs && AllMet(s, k) && Rule(c, k.project) != ""
    ensures var s' := Put(s.(evals := s.evals + [k]), newId, NlEval(k, NlQueued)); Inv(c, s') && Evolves(s, s')
  {
    var s1 := s.(evals := s.evals + [k]);
    LogKeeps(c, s, s.evals + [k]);
    AddJobKeeps(c, s1, newId, NlEval(k, NlQueued));
    EvolvesTransitive(s, s1, Put(s1, newId, NlEval(k, NlQueued)));
  }

  lemma CheckStopKeeps(c: Config, s: Sys, id: JobId, src: SourceId, raw: string, allMet: bool, nl: Option<bool>,
      o: Outcome)
    requires Inv(c, s) && id in s.jobs && s.jobs[id] == Check(src, raw, CkMerged(allMet, nl)) && o.newId !in s.jobs
    requires Gated(c, src) && (allMet ==> AllMet(s, KeyOf(c, src, raw)))
    requires !allMet || (Rule(c, KeyOf(c, src, raw).project) != "" && nl != Some(true))
    requires forall x :: !Flying(s, x, id)
    ensures var s' := StepCheck(c, s, id, src, raw, CkMerged(allMet, nl), o); Inv(c, s') && Evolves(s, s')
  {
    var k, s1 := KeyOf(c, src, raw), Put(s, id, Check(src, raw, CkDone));
    CheckDoneKeeps(c, s, id, src, raw, allMet, nl);
    if allMet && o.fault != NotApplied {
      var s2 := Put(s1.(evals := s1.evals + [k]), o.newId, NlEval(k, NlQueued));
      QueuesEvalKeeps(c, s1, k, o.newId);
      EvolvesTransitive(s, s1, s2);
      QueuesAfter(c, s, id, src, raw, nl, o);
    }
  }

  /** Queueing the evaluation and ending the job can be taken in either order. */
  lemma QueuesAfter(c: Config, s: Sys, id: JobId, src: SourceId, raw: string, nl: Option<bool>, o: Outcome)
    requires id in s.jobs && o.newId !in s.jobs && Gated(c, src) && o.fault != NotApplied
    requires Rule(c, KeyOf(c, src, raw).project) != "" && nl != Some(true)
    ensures var k, s1 := KeyOf(c, src, raw), Put(s, id, Check(src, raw, CkDone));
      StepCheck(c, s, id, src, raw, CkMerged(true, nl), o)
      == Put(s1.(evals := s1.evals + [k]), o.newId, NlEval(k, NlQueued))
  {
    var k := KeyOf(c, src, raw);
    assert s.jobs[o.newId := NlEval(k, NlQueued)][id := Check(src, raw, CkDone)]
        == s.jobs[id := Check(src, raw, CkDone)][o.newId := NlEval(k, NlQueued)];
  }

  lemma CheckOpenKeeps(c: Config, s: Sys, id: JobId, src: SourceId, raw: string, nl: Option<bool>, o: Outcome)
    requires Inv(c, s) && id in s.jobs && s.jobs[id] == Check(src, raw, CkMerged(true, nl))
    requires Gated(c, src) && AllMet(s, KeyOf(c, src, raw))
    requires nl == Some(true) ==> KeyOf(c, src, raw) in s.approved
    requires Rule(c, KeyOf(c, src, raw).project) == "" || nl == Some(true)
    requires forall x :: !Flying(s, x, id)
    ensures var s' := StepCheck(c, s, id, src, raw, CkMerged(true, nl), o); Inv(c, s') && Evolves(s, s')
  {
    var k := KeyOf(c, src, raw);
    if o.fault == NotApplied || (o.fault == AppliedThenError && !CanOpen(s, k)) {
      CheckRequeuedKeeps(c, s, id, src, raw);
    } else if !CanOpen(s, k) {
      CheckBeatenKeeps(c, s, id, src, raw);
    } else {
      CheckWinsKeeps(c, s, id, src, raw, o.fault);
    }
  }

  lemma CheckWinsKeeps(c: Config, s: Sys, id: JobId, src: SourceId, raw: string, fault: Fault)
    requires Inv(c, s) && id in s.jobs && s.jobs[id].Check? && s.jobs[id].source == src && s.jobs[id].raw == raw
    requires Gated(c, src) && AllMet(s, KeyOf(c, src, raw)) && CanOpen(s, KeyOf(c, src, raw)) && fault != NotApplied
    requires Rule(c, KeyOf(c, src, raw).project) != "" ==> KeyOf(c, src, raw) in s.approved
    requires forall x :: !Flying(s, x, id)
    ensures var k := KeyOf(c, src, raw);
            var s' := OpenStep(s, id, k, Ready, fault, Check(src, raw, CkOpened), Check(src, raw, CkDone),
                               Check(src, raw, CkQueued));
            Inv(c, s') && Evolves(s, s')
  {
    if fault == Ok {
      OpenedKeeps(c, s, id, KeyOf(c, src, raw), Ready, InFlight(id), Check(src, raw, CkOpened));
    } else {
      OpenedKeeps(c, s, id, KeyOf(c, src, raw), Ready, Lost, Check(src, raw, CkQueued));
    }
  }

  lemma CheckRequeuedKeeps(c: Config, s: Sys, id: JobId, src: SourceId, raw: string)
    requires Inv(c, s) && id in s.jobs && s.jobs[id].Check? && s.jobs[id].source == src && s.jobs[id].raw == raw
    requires forall x :: !Flying(s, x, id)
    ensures var s' := Put(s, id, Check(src, raw, CkQueued)); Inv(c, s') && Evolves(s, s')
  {
    RequeuedClosers(c, s, id, src, raw);
    IdleKeeps(c, s, id, Check(src, raw, CkQueued));
  }

  lemma CheckBeatenKeeps(c: Config, s: Sys, id: JobId, src: SourceId, raw: string)
    requires Inv(c, s) && id in s.jobs && s.jobs[id].Check? && s.jobs[id].source == src && s.jobs[id].raw == raw
    requires Gated(c, src) && !CanOpen(s, KeyOf(c, src, raw)) && forall x :: !Flying(s, x, id)
    ensures var s' := Put(s, id, Check(src, raw, CkDone)); Inv(c, s') && Evolves(s, s')
  {
    BeatenClosers(c, s, id, src, raw);
    IdleKeeps(c, s, id, Check(src, raw, CkDone));
  }

  lemma RequeuedClosers(c: Config, s: Sys, id: JobId, src: SourceId, raw: string)
    requires id in s.jobs && s.jobs[id].Check? && s.jobs[id].source == src && s.jobs[id].raw == raw
    ensures forall x :: ClosersKept(c, s, Put(s, id, Check(src, raw, CkQueued)), id, Check(src, raw, CkQueued), x)
  {
  }

  lemma BeatenClosers(c: Config, s: Sys, id: JobId, src: SourceId, raw: string)
    requires id in s.jobs && s.jobs[id].Check? && s.jobs[id].source == src && s.jobs[id].raw == raw
    requires Gated(c, src) && !CanOpen(s, KeyOf(c, src, raw))
    ensures forall x :: ClosersKept(c, s, Put(s, id, Check(src, raw, CkDone)), id, Check(src, raw, CkDone), x)
  {
  }

  lemma CheckMergedKeeps(c: Config, s: Sys, id: JobId, src: SourceId, raw: string, allMet: bool, nl: Option<bool>,
      o: Outcome)
    requires Inv(c, s) && id in s.jobs && s.jobs[id] == Check(src, raw, CkMerged(allMet, nl)) && o.newId !in s.jobs
    requires Gated(c, src) && CheckOk(c, s, id, KeyOf(c, src, raw), CkMerged(allMet, nl))
    requires forall x :: !Flying(s, x, id)
    ensures var s' := StepCheck(c, s, id, src, raw, CkMerged(allMet, nl), o); Inv(c, s') && Evolves(s, s')
  {
    if !allMet || (Rule(c, KeyOf(c, src, raw).project) != "" && nl != Some(true)) {
      CheckStopKeeps(c, s, id, src, raw, allMet, nl, o);
    } else {
      CheckOpenKeeps(c, s, id, src, raw, nl, o);
    }
  }

  lemma CheckOpenedKeeps(c: Config, s: Sys, id: JobId, src: SourceId, raw: string, o: Outcome)
    requires Inv(c, s) && id in s.jobs && s.jobs[id] == Check(src, raw, CkOpened)
    requires Gated(c, src) && CheckOk(c, s, id, KeyOf(c, src, raw), CkOpened)
    requires forall x :: Flying(s, x, id) ==> Opener(c, s.jobs[id]) == Some(x)
    ensures var s' := StepCheck(c, s, id, src, raw, CkOpened, o); Inv(c, s') && Evolves(s, s')
  {
    var k := KeyOf(c, src, raw);
    TailKeeps(c, s, id, k, GateReady(k), o.fault, Check(src, raw, CkEnqueued), Check(src, raw, CkDone));
  }

  lemma CheckEnqueuedKeeps(c: Config, s: Sys, id: JobId, src: SourceId, raw: string, o: Outcome)
    requires Inv(c, s) && id in s.jobs && s.jobs[id] == Check(src, raw, CkEnqueued)
    requires Gated(c, src) && CheckOk(c, s, id, KeyOf(c, src, raw), CkEnqueued)
    requires forall x :: !Flying(s, x, id)
    ensures var s' := StepCheck(c, s, id, src, raw, CkEnqueued, o); Inv(c, s') && Evolves(s, s')
  {
    EndKeeps(c, s, id, KeyOf(c, src, raw), o.fault, Check(src, raw, CkDone));
  }

  lemma CheckQueuedKeeps(c: Config, s: Sys, id: JobId, src: SourceId, raw: string, o: Outcome)
    requires Inv(c, s) && id in s.jobs && s.jobs[id] == Check(src, raw, CkQueued) && forall x :: !Flying(s, x, id)
    ensures var s' := StepCheck(c, s, id, src, raw, CkQueued, o); Inv(c, s') && Evolves(s, s')
  {
    var j := StepCheck(c, s, id, src, raw, CkQueued, o).jobs[id];
    QueuedClosers(c, s, id, src, raw, j);
    IdleKeeps(c, s, id, j);
  }

  lemma QueuedClosers(c: Config, s: Sys, id: JobId, src: SourceId, raw: string, j: Job)
    requires id in s.jobs && s.jobs[id] == Check(src, raw, CkQueued) && j.Check? && j.source == src && j.raw == raw
    requires j.ck == CkQueued || j.ck == CkLoaded || !Gated(c, src)
    ensures forall x :: ClosersKept(c, s, Put(s, id, j), id, j, x)
  {
  }

  lemma CheckKeeps(c: Config, s: Sys, id: JobId, src: SourceId, raw: string, pc: CheckPc, o: Outcome)
    requires Inv(c, s) && id in s.jobs && s.jobs[id] == Check(src, raw, pc) && o.newId !in s.jobs
    ensures var s' := StepCheck(c, s, id, src, raw, pc, o); Inv(c, s') && Evolves(s, s')
  {
    FlyingIsOpener(c, s, id);
    assert JobOk(c, s, id, s.jobs[id]);
    match pc {
      case CkQueued => CheckQueuedKeeps(c, s, id, src, raw, o);
      case CkLoaded => CheckLoadedKeeps(c, s, id, src, raw, o);
      case CkMerged(allMet, nl) => CheckMergedKeeps(c, s, id, src, raw, allMet, nl, o);
      case CkOpened => CheckOpenedKeeps(c, s, id, src, raw, o);
      case CkEnqueued => CheckEnqueuedKeeps(c, s, id, src, raw, o);
      case CkDone =>
    }
  }

  /** The enqueue step of any worker. */
  lemma TailKeeps(c: Config, s: Sys, id: JobId, k: Key, t: Trigger, fault: Fault, next: Job, failed: Job)
    requires Inv(c, s) && id in s.jobs && Flying(s, k, id) && !t.AutoVersion?
    requires forall x :: Flying(s, x, id) ==> x == k
    requires forall x :: !Closing(c, s.jobs[id], x)
    requires JobOk(c, Put(DoEnqueue(s, k, t), id, next), id, next)
    requires JobOk(c, Put(DoEnqueue(s, k, t), id, failed), id, failed)
    requires JobOk(c, Put(DoLose(s, k), id, failed), id, failed)
    ensures var s' := EnqueueStep(s, id, k, t, fault, next, failed); Inv(c, s') && Evolves(s, s')
  {
    match fault {
      case Ok => EnqueuedKeeps(c, s, id, k, t, next);
      case NotApplied => LostKeeps(c, s, id, k, failed);
      case AppliedThenError => EnqueuedKeeps(c, s, id, k, t, failed);
    }
  }

  /** The mark step of any worker. */
  lemma EndKeeps(c: Config, s: Sys, id: JobId, k: Key, fault: Fault, next: Job)
    requires Inv(c, s) && id in s.jobs && Ran?(s, k)
    requires forall x :: !Flying(s, x, id)
    requires forall x :: !Closing(c, s.jobs[id], x)
    requires JobOk(c, Put(s, id, next), id, next) && JobOk(c, Put(DoMark(s, k), id, next), id, next)
    ensures var s' := MarkStep(s, id, k, fault, next); Inv(c, s') && Evolves(s, s')
  {
    if fault == NotApplied { IdleKeeps(c, s, id, next); } else { MarkedKeeps(c, s, id, k, next); }
  }

  lemma NlOpenKeeps(c: Config, s: Sys, id: JobId, k: Key, o: Outcome)
    requires Inv(c, s) && id in s.jobs && s.jobs[id] == NlEval(k, NlSaved) && NlOk(c, s, id, k, NlSaved)
    requires forall x :: !Flying(s, x, id)
    ensures var s' := StepNl(c, s, id, k, NlSaved, o); Inv(c, s') && Evolves(s, s')
  {
    var s' := StepNl(c, s, id, k, NlSaved, o);
    if o.fault == NotApplied || !CanOpen(s, k) { QuietKeeps(c, s, id, s'.jobs[id]); }
    else { OpenedKeeps(c, s, id, k, Ready, if o.fault == Ok then InFlight(id) else Lost, s'.jobs[id]); }
  }

  lemma NlEvalKeeps(c: Config, s: Sys, id: JobId, k: Key, pc: NlPc, o: Outcome)
    requires pc.NlLoaded? || pc.NlEvaluated?
    requires Inv(c, s) && id in s.jobs && s.jobs[id] == NlEval(k, pc) && NlOk(c, s, id, k, pc)
    requires forall x :: !Flying(s, x, id)
    ensures var s' := StepNl(c, s, id, k, pc, o); Inv(c, s') && Evolves(s, s')
  {
    var j := StepNl(c, s, id, k, pc, o).jobs[id];
    match pc {
      case NlLoaded =>
        if o.fault == Ok && o.flag { ApprovedKeeps(c, s, id, k, j); } else { QuietKeeps(c, s, id, j); }
      case NlEvaluated(passed) =>
        if o.fault == NotApplied { QuietKeeps(c, s, id, j); } else { SavedNlKeeps(c, s, id, k, passed, j); }
    }
  }

  lemma NlKeeps(c: Config, s: Sys, id: JobId, k: Key, pc: NlPc, o: Outcome)
    requires Inv(c, s) && id in s.jobs && s.jobs[id] == NlEval(k, pc)
    ensures var s' := StepNl(c, s, id, k, pc, o); Inv(c, s') && Evolves(s, s')
  {
    FlyingIsOpener(c, s, id);
    assert JobOk(c, s, id, s.jobs[id]);
    match pc {
      case NlQueued => QuietKeeps(c, s, id, StepNl(c, s, id, k, pc, o).jobs[id]);
      case NlLoaded => NlEvalKeeps(c, s, id, k, pc, o);
      case NlEvaluated(_) => NlEvalKeeps(c, s, id, k, pc, o);
      case NlSaved => NlOpenKeeps(c, s, id, k, o);
      case NlDone =>
      case _ => NlTailKeeps(c, s, id, k, pc, o);
    }
  }

  lemma NlTailKeeps(c: Config, s: Sys, id: JobId, k: Key, pc: NlPc, o: Outcome)
    requires pc == NlOpened || pc == NlEnqueued
    requires Inv(c, s) && id in s.jobs && s.jobs[id] == NlEval(k, pc) && NlOk(c, s, id, k, pc)
    requires forall x :: Flying(s, x, id) ==> Opener(c, s.jobs[id]) == Some(x)
    ensures var s' := StepNl(c, s, id, k, pc, o); Inv(c, s') && Evolves(s, s')
  {
    if pc == NlOpened {
      TailKeeps(c, s, id, k, GateReady(k), o.fault, NlEval(k, NlEnqueued), NlEval(k, NlDone));
    } else {
      EndKeeps(c, s, id, k, o.fault, NlEval(k, NlDone));
    }
  }

  lemma SweepOpenKeeps(c: Config, s: Sys, id: JobId, k: Key, rest: seq<Key>, fault: Fault)
    requires Inv(c, s) && id in s.jobs && s.jobs[id].Sweep?
    requires PastDeadline(s, k) && forall x :: x in rest ==> PastDeadline(s, x)
    requires forall x :: !Flying(s, x, id)
    ensures var on := Sweep(SwLooping(rest));
            var s' := OpenStep(s, id, k, TimedOut, fault, Sweep(SwOpened(k, rest)), on, on);
            Inv(c, s') && Evolves(s, s')
  {
    if fault == NotApplied || !CanOpen(s, k) { QuietKeeps(c, s, id, Sweep(SwLooping(rest))); }
    else if fault == Ok { OpenedKeeps(c, s, id, k, TimedOut, InFlight(id), Sweep(SwOpened(k, rest))); }
    else { OpenedKeeps(c, s, id, k, TimedOut, Lost, Sweep(SwLooping(rest))); }
  }

  lemma SweepLoopKeeps(c: Config, s: Sys, id: JobId, todo: seq<Key>, o: Outcome)
    requires Inv(c, s) && id in s.jobs && s.jobs[id] == Sweep(SwLooping(todo))
    requires (forall x :: x in todo ==> PastDeadline(s, x)) && forall x :: !Flying(s, x, id)
    ensures var s' := StepSweep(s, id, SwLooping(todo), o); Inv(c, s') && Evolves(s, s')
  {
    if todo == [] {
      QuietKeeps(c, s, id, Sweep(SwDone));
    } else {
      assert todo[0] in todo && forall x :: x in todo[1..] ==> x in todo;
      SweepOpenKeeps(c, s, id, todo[0], todo[1..], o.fault);
    }
  }

  lemma SweepKeeps(c: Config, s: Sys, id: JobId, pc: SweepPc, o: Outcome)
    requires Inv(c, s) && id in s.jobs && s.jobs[id] == Sweep(pc) && (pc == SwQueued ==> SweepListOk(s, o.keys))
    ensures var s' := StepSweep(s, id, pc, o); Inv(c, s') && Evolves(s, s')
  {
    FlyingIsOpener(c, s, id);
    assert JobOk(c, s, id, s.jobs[id]);
    match pc {
      case SwQueued => QuietKeeps(c, s, id, StepSweep(s, id, pc, o).jobs[id]);
      case SwLooping(todo) => SweepLoopKeeps(c, s, id, todo, o);
      case SwDone =>
      case _ => SweepTailKeeps(c, s, id, pc, o);
    }
  }

  lemma SweepTailKeeps(c: Config, s: Sys, id: JobId, pc: SweepPc, o: Outcome)
    requires pc.SwOpened? || pc.SwEnqueued?
    requires Inv(c, s) && id in s.jobs && s.jobs[id] == Sweep(pc) && SweepOk(s, id, pc)
    requires forall x :: Flying(s, x, id) ==> Opener(c, s.jobs[id]) == Some(x)
    ensures var s' := StepSweep(s, id, pc, o); Inv(c, s') && Evolves(s, s')
  {
    match pc {
      case SwOpened(k, rest) => SweepEnqueueKeeps(c, s, id, k, rest, o.fault);
      case SwEnqueued(k, rest) => EndKeeps(c, s, id, k, o.fault, Sweep(SwLooping(rest)));
    }
  }

  lemma SweepEnqueueKeeps(c: Config, s: Sys, id: JobId, k: Key, rest: seq<Key>, fault: Fault)
    requires Inv(c, s) && id in s.jobs && s.jobs[id].Sweep? && SweepOk(s, id, SwOpened(k, rest))
    requires forall x :: Flying(s, x, id) ==> x == k
    ensures var s' := EnqueueStep(s, id, k, GateTimeout(k.version), fault, Sweep(SwEnqueued(k, rest)),
                                  Sweep(SwLooping(rest)));
            Inv(c, s') && Evolves(s, s')
  {
    TailKeeps(c, s, id, k, GateTimeout(k.version), fault, Sweep(SwEnqueued(k, rest)), Sweep(SwLooping(rest)));
  }

  lemma AutoRunLedger(c: Config, s: Sys, r: AgentRun)
    requires Inv(c, s) && r.trigger.AutoVersion? && !GateOn(c, r.project)
    ensures var s' := s.(runs := s.runs + [r]);
            (forall x :: LedgerOk(s', x)) && forall i :: 0 <= i < |s'.runs| ==> RunOk(c, s', s'.runs[i])
  {
    var s' := s.(runs := s.runs + [r]);
    forall x ensures LedgerOk(s', x) { assert LedgerOk(s, x); GateRunsAppend(s.runs, r, x); }
    forall i | 0 <= i < |s'.runs| ensures RunOk(c, s', s'.runs[i]) {
      if i < |s.runs| { assert RunOk(c, s, s.runs[i]); }
    }
  }

  lemma AutoRunKeeps(c: Config, s: Sys, r: AgentRun)
    requires Inv(c, s) && r.trigger.AutoVersion? && !GateOn(c, r.project)
    ensures var s' := s.(runs := s.runs + [r]); Inv(c, s') && Evolves(s, s')
  {
    AutoRunLedger(c, s, r);
    GrowsKeeps(c, s, s.(runs := s.runs + [r]));
  }

  lemma NotifyRunKeeps(c: Config, s: Sys, id: JobId, src: SourceId, raw: string, o: Outcome)
    requires Inv(c, s) && id in s.jobs && s.jobs[id] == Notify(src, raw, NfNoGate)
    requires src in c.owner && !GateOn(c, c.owner[src]) && forall x :: !Flying(s, x, id)
    ensures var s' := StepNotify(c, s, id, src, raw, NfNoGate, o); Inv(c, s') && Evolves(s, s')
  {
    var s1 := Put(s, id, Notify(src, raw, NfDone));
    QuietKeeps(c, s, id, Notify(src, raw, NfDone));
    if o.flag && o.fault != NotApplied {
      var r := AgentRun(c.owner[src], raw, AutoVersion(raw));
      AutoRunKeeps(c, s1, r);
      EvolvesTransitive(s, s1, s1.(runs := s1.runs + [r]));
    }
  }

  lemma NotifyKeeps(c: Config, s: Sys, id: JobId, src: SourceId, raw: string, pc: NotifyPc, o: Outcome)
    requires Inv(c, s) && id in s.jobs && s.jobs[id] == Notify(src, raw, pc)
    ensures var s' := StepNotify(c, s, id, src, raw, pc, o); Inv(c, s') && Evolves(s, s')
  {
    FlyingIsOpener(c, s, id);
    assert JobOk(c, s, id, s.jobs[id]);
    match pc {
      case NfNoGate => NotifyRunKeeps(c, s, id, src, raw, o);
      case NfDone =>
      case _ => NotifyEarlyKeeps(c, s, id, src, raw, pc, o);
    }
  }

  lemma NotifyEarlyKeeps(c: Config, s: Sys, id: JobId, src: SourceId, raw: string, pc: NotifyPc, o: Outcome)
    requires pc == NfQueued || pc == NfRules
    requires Inv(c, s) && id in s.jobs && s.jobs[id] == Notify(src, raw, pc) && forall x :: !Flying(s, x, id)
    ensures var s' := StepNotify(c, s, id, src, raw, pc, o); Inv(c, s') && Evolves(s, s')
  {
    NotifyMoves(c, s, id, src, raw, pc, o);
    QuietKeeps(c, s, id, StepNotify(c, s, id, src, raw, pc, o).jobs[id]);
  }

  lemma NotifyMoves(c: Config, s: Sys, id: JobId, src: SourceId, raw: string, pc: NotifyPc, o: Outcome)
    requires pc == NfQueued || pc == NfRules
    ensures var s' := StepNotify(c, s, id, src, raw, pc, o);
      id in s'.jobs && s' == Put(s, id, s'.jobs[id]) && JobOk(c, s', id, s'.jobs[id])
  {
  }

  /** Every action of the system keeps the invariant and only adds to the past. */
  lemma StepKeeps(c: Config, s: Sys, a: Action)
    requires Inv(c, s) && Enabled(c, s, a)
    ensures Inv(c, Apply(c, s, a)) && Evolves(s, Apply(c, s, a))
  {
    match a {
      case Tick(t) => TickKeeps(c, s, t);
      case Submit(id, j) => AddJobKeeps(c, s, id, j);
      case Crash(id) => CrashKeeps(c, s, id);
      case Complete(id) => CompleteKeeps(c, s, id);
      case Advance(id, o) =>
        match s.jobs[id] {
          case Check(src, raw, pc) => CheckKeeps(c, s, id, src, raw, pc, o);
          case NlEval(k, pc) => NlKeeps(c, s, id, k, pc, o);
          case Sweep(pc) => SweepKeeps(c, s, id, pc, o);
          case Notify(src, raw, pc) => NotifyKeeps(c, s, id, src, raw, pc, o);
        }
    }
  }

  lemma InitialOk(c: Config, now: int)
    ensures Inv(c, Initial(now))
  {
  }

  lemma {:induction false} RunKeeps(c: Config, s: Sys, acts: seq<Action>, s': Sys)
    requires Inv(c, s) && Run(c, s, acts, s')
    ensures Inv(c, s') && Evolves(s, s')
    decreases |acts|
  {
    if acts != [] {
      StepKeeps(c, s, acts[0]);
      RunKeeps(c, Apply(c, s, acts[0]), acts[1..], s');
      EvolvesTransitive(s, Apply(c, s, acts[0]), s');
    }
  }
}
