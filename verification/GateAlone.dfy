/** What one job does when nothing fails and no other job steps, column by column. */
module GateAlone {
  import opened Common
  import opened VersionTemplate
  import opened GateModel
  import opened GateCompletion

  /** A step of job id that does not fail, its submission or its completion. */
  predicate Own(a: Action, id: JobId) {
    match a
    case Submit(x, _) => x == id
    case Complete(x) => x == id
    case Advance(x, o) => x == id && o.fault == Ok
    case _ => false
  }

  /** A run of job id alone, without failures. */
  ghost predicate RunsAlone(c: Config, s: Sys, acts: seq<Action>, s': Sys, id: JobId) {
    Run(c, s, acts, s') && forall i :: 0 <= i < |acts| ==> Own(acts[i], id)
  }

  lemma Goes(c: Config, s0: Sys, acts0: seq<Action>, s1: Sys, a: Action, id: JobId)
    returns (acts: seq<Action>, s: Sys)
    requires RunsAlone(c, s0, acts0, s1, id) && Own(a, id) && Enabled(c, s1, a)
    ensures RunsAlone(c, s0, acts, s, id) && s == Apply(c, s1, a)
  {
    RunAppend(c, s0, acts0, s1, a);
    acts, s := acts0 + [a], Apply(c, s1, a);
  }

  /** The other rows stay as they are. */
  ghost predicate OnlyRow(s: Sys, s': Sys, k: Key) {
    s'.rows.Keys == s.rows.Keys + {k} && forall x :: x in s.rows && x != k ==> s'.rows[x] == s.rows[x]
  }

  // ---- a check job -----------------------------------------------------------------------------

  /** Row r is what becomes of old_ when the source reports: met, missing, the deadline and the answer. */
  ghost predicate SourceMerged(old_: Option<Row>, r: Row, source: SourceId, required: seq<SourceId>, hours: int,
      now: int)
  {
    match old_
    case None =>
      && r.met == [source] && (forall x :: x in r.missing <==> x in required && x != source)
      && r.createdAt == now && r.timeoutAt == now + 3600 * hours && r.nlPassed == None
    case Some(q) =>
      && r.createdAt == q.createdAt && r.timeoutAt == q.timeoutAt && r.nlPassed == q.nlPassed
      && (if q.status == Pending && source !in q.met
          then r.met == q.met + [source] && forall x :: x in r.missing <==> x in required && x !in r.met
          else r.met == q.met && r.missing == q.missing)
  }

  /** Status, opening time and agent_triggered: set if this job opens the row, and otherwise as they were. */
  ghost predicate OpenedIf(opens: bool, old_: Option<Row>, r: Row, now: int) {
    if opens then r.status == Ready && r.openedAt == Some(now) && r.triggered
    else match old_
         case None => r.status == Pending && r.openedAt == None && !r.triggered
         case Some(q) => r.status == q.status && r.openedAt == q.openedAt && r.triggered == q.triggered
  }

  /** The sources a gate waits for: its own list, or else the first 1000 of the project. */
  ghost predicate WaitsFor(c: Config, p: ProjectId, required: seq<SourceId>) {
    && (p in c.gates && c.gates[p].required != [] ==> required == c.gates[p].required)
    && (p in c.gates && c.gates[p].required == [] ==>
          if p !in c.sources then required == []
          else required <= c.sources[p] && |required| == (if |c.sources[p]| < 1000 then |c.sources[p]| else 1000))
  }

  /** A job is submitted and makes its first step. */
  lemma Starts(c: Config, s: Sys, id: JobId, j: Job, o: Outcome) returns (acts: seq<Action>, s': Sys)
    requires id !in s.jobs && o.newId !in s.jobs && o.newId != id && o.fault == Ok
    requires j == Requeued(j) && !j.NlEval? && !j.Sweep?
    ensures RunsAlone(c, s, acts, s', id) && s' == StepJob(c, Put(s, id, j), id, o)
  {
    acts, s' := Goes(c, s, [], s, Submit(id, j), id);
    acts, s' := Goes(c, s, acts, s', Advance(id, o), id);
  }

  lemma CheckMerges(c: Config, s: Sys, id: JobId, newId: JobId, src: SourceId, raw: string)
    returns (acts: seq<Action>, s': Sys)
    requires Gated(c, src) && id !in s.jobs && newId !in s.jobs && newId != id
    ensures var k := KeyOf(c, src, raw);
      var s1 := DoUpsert(c, s, k, src);
      && RunsAlone(c, s, acts, s', id)
      && s' == Put(s1, id, Check(src, raw, CkMerged(s1.rows[k].missing == [], s1.rows[k].nlPassed)))
  {
    var fine := Advance(id, Fine(false, newId));
    acts, s' := Starts(c, s, id, Check(src, raw, CkQueued), Fine(false, newId));
    assert s' == Put(s, id, Check(src, raw, CkLoaded));
    acts, s' := Goes(c, s, acts, s', fine, id);
  }

  lemma MergedColumns(c: Config, s: Sys, k: Key, src: SourceId, required: seq<SourceId>)
    requires GateOn(c, k.project) && WaitsFor(c, k.project, required)
    ensures var r, old_ := DoUpsert(c, s, k, src).rows[k], RowAt(s, k);
      && SourceMerged(old_, r, src, required, c.gates[k.project].timeoutHours, s.now) && OpenedIf(false, old_, r, s.now)
  {
    assert required == Required(c, k.project);
  }

  /** Something is missing, or an evaluation has to come first. */
  lemma CheckStops(c: Config, s0: Sys, acts0: seq<Action>, s1: Sys, id: JobId, newId: JobId, src: SourceId, raw: string,
      nl: Option<bool>)
    returns (acts: seq<Action>, s: Sys)
    requires Gated(c, src) && RunsAlone(c, s0, acts0, s1, id) && id in s1.jobs && newId !in s1.jobs
    requires s1.jobs[id] == Check(src, raw, CkMerged(false, nl))
    ensures RunsAlone(c, s0, acts, s, id) && s == s1.(jobs := s1.jobs - {id})
  {
    acts, s := Goes(c, s0, acts0, s1, Advance(id, Fine(false, newId)), id);
    assert s == Put(s1, id, Check(src, raw, CkDone));
    acts, s := Goes(c, s0, acts, s, Complete(id), id);
    assert s.jobs == s1.jobs - {id};
  }

  lemma CheckAsks(c: Config, s0: Sys, acts0: seq<Action>, s1: Sys, id: JobId, newId: JobId, src: SourceId, raw: string,
      nl: Option<bool>)
    returns (acts: seq<Action>, s: Sys)
    requires Gated(c, src) && RunsAlone(c, s0, acts0, s1, id) && id in s1.jobs && newId !in s1.jobs
    requires s1.jobs[id] == Check(src, raw, CkMerged(true, nl)) && nl != Some(true)
    requires c.gates[c.owner[src]].nlRule != ""
    ensures var k := KeyOf(c, src, raw);
      && RunsAlone(c, s0, acts, s, id)
      && s == s1.(evals := s1.evals + [k], jobs := (s1.jobs - {id})[newId := NlEval(k, NlQueued)])
  {
    var k := KeyOf(c, src, raw);
    acts, s := Goes(c, s0, acts0, s1, Advance(id, Fine(false, newId)), id);
    assert s == s1.(evals := s1.evals + [k],
                    jobs := s1.jobs[newId := NlEval(k, NlQueued)][id := Check(src, raw, CkDone)]);
    acts, s := Goes(c, s0, acts, s, Complete(id), id);
    assert s.jobs == (s1.jobs - {id})[newId := NlEval(k, NlQueued)];
  }

  /** What the job that opens row k leaves of the tables. */
  ghost predicate OpenedTables(s1: Sys, s: Sys, k: Key)
    requires k in s1.rows
  {
    && s.rows == s1.rows[k := s1.rows[k].(status := Ready, openedAt := Some(s1.now), triggered := true)]
    && s.runs == s1.runs + [AgentRun(k.project, k.version, GateReady(k))]
    && s.evals == s1.evals && s.now == s1.now
  }

  lemma CheckOpens(c: Config, s0: Sys, acts0: seq<Action>, s1: Sys, id: JobId, newId: JobId, src: SourceId, raw: string,
      nl: Option<bool>)
    returns (acts: seq<Action>, s: Sys)
    requires Gated(c, src) && RunsAlone(c, s0, acts0, s1, id) && id in s1.jobs && newId !in s1.jobs
    requires s1.jobs[id] == Check(src, raw, CkMerged(true, nl)) && CanOpen(s1, KeyOf(c, src, raw))
    requires c.gates[c.owner[src]].nlRule == "" || nl == Some(true)
    ensures RunsAlone(c, s0, acts, s, id) && s.jobs == s1.jobs - {id} && OpenedTables(s1, s, KeyOf(c, src, raw))
  {
    var fine := Advance(id, Fine(false, newId));
    acts, s := Goes(c, s0, acts0, s1, fine, id);
    assert s == Put(DoOpen(s1, KeyOf(c, src, raw), Ready, InFlight(id)), id, Check(src, raw, CkOpened));
    acts, s := CheckTriggers(c, s0, acts, s, id, newId, src, raw);
  }

  lemma CheckTriggers(c: Config, s0: Sys, acts0: seq<Action>, s1: Sys, id: JobId, newId: JobId, src: SourceId,
      raw: string)
    returns (acts: seq<Action>, s: Sys)
    requires Gated(c, src) && RunsAlone(c, s0, acts0, s1, id) && id in s1.jobs && newId !in s1.jobs
    requires s1.jobs[id] == Check(src, raw, CkOpened) && KeyOf(c, src, raw) in s1.rows
    ensures var k := KeyOf(c, src, raw);
      && RunsAlone(c, s0, acts, s, id) && s.jobs == s1.jobs - {id} && s.now == s1.now && s.evals == s1.evals
      && s.rows == s1.rows[k := s1.rows[k].(triggered := true)]
      && s.runs == s1.runs + [AgentRun(k.project, k.version, GateReady(k))]
  {
    var k, fine := KeyOf(c, src, raw), Advance(id, Fine(false, newId));
    acts, s := Goes(c, s0, acts0, s1, fine, id);
    assert s == Put(DoEnqueue(s1, k, GateReady(k)), id, Check(src, raw, CkEnqueued));
    acts, s := Goes(c, s0, acts, s, fine, id);
    acts, s := Goes(c, s0, acts, s, Complete(id), id);
    assert s.jobs == s1.jobs - {id};
  }

  /** The row was opened by another job. */
  lemma CheckLoses(c: Config, s0: Sys, acts0: seq<Action>, s1: Sys, id: JobId, newId: JobId, src: SourceId, raw: string,
      nl: Option<bool>)
    returns (acts: seq<Action>, s: Sys)
    requires Gated(c, src) && RunsAlone(c, s0, acts0, s1, id) && id in s1.jobs && newId !in s1.jobs
    requires s1.jobs[id] == Check(src, raw, CkMerged(true, nl)) && !CanOpen(s1, KeyOf(c, src, raw))
    requires c.gates[c.owner[src]].nlRule == "" || nl == Some(true)
    ensures RunsAlone(c, s0, acts, s, id) && s == s1.(jobs := s1.jobs - {id})
  {
    acts, s := Goes(c, s0, acts0, s1, Advance(id, Fine(false, newId)), id);
    assert s == Put(s1, id, Check(src, raw, CkDone));
    acts, s := Goes(c, s0, acts, s, Complete(id), id);
    assert s.jobs == s1.jobs - {id};
  }

  /** The job has left the tables of s as those of s': it has merged the source into row k, and opened the row
      if nothing is missing and the rule, if there is one, has been approved. */
  ghost predicate Checked(c: Config, s: Sys, s': Sys, src: SourceId, k: Key, newId: JobId, required: seq<SourceId>)
    requires k.project in c.gates
  {
    && OnlyRow(s, s', k) && s'.now == s.now &&
    var g, old_, r := c.gates[k.project], RowAt(s, k), s'.rows[k];
    var complete := r.missing == [] && (g.nlRule == "" || r.nlPassed == Some(true));
    var opens := complete && (old_.Some? ==> old_.value.status == Pending);
    var asks := r.missing == [] && !complete;
    && SourceMerged(old_, r, src, required, g.timeoutHours, s.now) && OpenedIf(opens, old_, r, s.now)
    && s'.runs == s.runs + (if opens then [AgentRun(k.project, k.version, GateReady(k))] else [])
    && s'.evals == s.evals + (if asks then [k] else [])
    && s'.jobs == (if asks then s.jobs[newId := NlEval(k, NlQueued)] else s.jobs)
  }

  /** A check job of a source whose project has an enabled gate, from any state. */
  lemma CheckAlone(c: Config, s: Sys, id: JobId, newId: JobId, src: SourceId, raw: string, required: seq<SourceId>)
    returns (acts: seq<Action>, s': Sys)
    requires src in c.owner && c.owner[src] in c.gates && c.gates[c.owner[src]].enabled
    requires id !in s.jobs && newId !in s.jobs && newId != id && WaitsFor(c, c.owner[src], required)
    ensures var p := c.owner[src];
      var k := Key(p, NormalizeVersionForSource(raw, src, c.gates[p].mappings, c.regex));
      RunsAlone(c, s, acts, s', id) && Checked(c, s, s', src, k, newId, required)
  {
    var k := KeyOf(c, src, raw);
    var s1;
    acts, s1 := CheckMerges(c, s, id, newId, src, raw);
    MergedColumns(c, s, k, src, required);
    var r := s1.rows[k];
    assert s1.jobs - {id} == s.jobs;
    if r.missing != [] {
      acts, s' := CheckStops(c, s, acts, s1, id, newId, src, raw, r.nlPassed);
    } else if c.gates[k.project].nlRule != "" && r.nlPassed != Some(true) {
      acts, s' := CheckAsks(c, s, acts, s1, id, newId, src, raw, r.nlPassed);
    } else if CanOpen(s1, k) {
      acts, s' := CheckOpens(c, s, acts, s1, id, newId, src, raw, r.nlPassed);
    } else {
      acts, s' := CheckLoses(c, s, acts, s1, id, newId, src, raw, r.nlPassed);
    }
  }

  /** Without an enabled gate a check job changes nothing. */
  lemma UngatedCheckAlone(c: Config, s: Sys, id: JobId, newId: JobId, src: SourceId, raw: string)
    returns (acts: seq<Action>, s': Sys)
    requires src in c.owner && c.owner[src] in c.gates ==> !c.gates[c.owner[src]].enabled
    requires id !in s.jobs && newId !in s.jobs && newId != id
    ensures RunsAlone(c, s, acts, s', id) && s' == s
  {
    acts, s' := Starts(c, s, id, Check(src, raw, CkQueued), Fine(false, newId));
    assert s' == Put(s, id, Check(src, raw, CkDone));
    acts, s' := Goes(c, s, acts, s', Complete(id), id);
    assert s'.jobs == s.jobs;
  }

  // ---- an evaluation job -----------------------------------------------------------------------

  lemma EvalAnswers(c: Config, s: Sys, id: JobId, newId: JobId, k: Key, answer: bool)
    returns (acts: seq<Action>, s': Sys)
    requires id in s.jobs && s.jobs[id] == NlEval(k, NlQueued) && newId !in s.jobs
    requires k.project in c.gates && CanOpen(s, k)
    ensures RunsAlone(c, s, acts, s', id)
    ensures s'.rows == s.rows[k := s.rows[k].(nlPassed := Some(answer))]
    ensures s'.runs == s.runs && s'.evals == s.evals && s'.now == s.now
    ensures s'.jobs == s.jobs[id := NlEval(k, if answer then NlSaved else NlDone)]
  {
    acts, s' := Goes(c, s, [], s, Advance(id, Fine(false, newId)), id);
    assert s' == Put(s, id, NlEval(k, NlLoaded));
    acts, s' := Goes(c, s, acts, s', Advance(id, Fine(answer, newId)), id);
    assert s'.rows == s.rows && s'.jobs == s.jobs[id := NlEval(k, NlEvaluated(answer))];
    acts, s' := Goes(c, s, acts, s', Advance(id, Fine(false, newId)), id);
  }

  lemma EvalOpens(c: Config, s0: Sys, acts0: seq<Action>, s1: Sys, id: JobId, newId: JobId, k: Key)
    returns (acts: seq<Action>, s: Sys)
    requires RunsAlone(c, s0, acts0, s1, id) && id in s1.jobs && newId !in s1.jobs && s1.jobs[id] == NlEval(k, NlSaved)
    requires CanOpen(s1, k)
    ensures RunsAlone(c, s0, acts, s, id) && s.jobs == s1.jobs - {id} && OpenedTables(s1, s, k)
  {
    var fine := Advance(id, Fine(false, newId));
    acts, s := Goes(c, s0, acts0, s1, fine, id);
    assert s == Put(DoOpen(s1, k, Ready, InFlight(id)), id, NlEval(k, NlOpened));
    acts, s := EvalTriggers(c, s0, acts, s, id, newId, k);
  }

  lemma EvalTriggers(c: Config, s0: Sys, acts0: seq<Action>, s1: Sys, id: JobId, newId: JobId, k: Key)
    returns (acts: seq<Action>, s: Sys)
    requires RunsAlone(c, s0, acts0, s1, id) && id in s1.jobs && newId !in s1.jobs
    requires s1.jobs[id] == NlEval(k, NlOpened) && k in s1.rows
    ensures RunsAlone(c, s0, acts, s, id) && s.jobs == s1.jobs - {id} && s.now == s1.now && s.evals == s1.evals
    ensures s.rows == s1.rows[k := s1.rows[k].(triggered := true)]
    ensures s.runs == s1.runs + [AgentRun(k.project, k.version, GateReady(k))]
  {
    var fine := Advance(id, Fine(false, newId));
    acts, s := Goes(c, s0, acts0, s1, fine, id);
    assert s == Put(DoEnqueue(s1, k, GateReady(k)), id, NlEval(k, NlEnqueued));
    acts, s := Goes(c, s0, acts, s, fine, id);
    acts, s := Goes(c, s0, acts, s, Complete(id), id);
    assert s.jobs == s1.jobs - {id};
  }

  /** An evaluation job of a pending row, from any state: the answer is saved, and true opens the row. */
  lemma EvalAlone(c: Config, s: Sys, id: JobId, newId: JobId, k: Key, answer: bool)
    returns (acts: seq<Action>, s': Sys)
    requires id in s.jobs && s.jobs[id] == NlEval(k, NlQueued) && newId !in s.jobs
    requires k.project in c.gates && k in s.rows && s.rows[k].status == Pending
    ensures RunsAlone(c, s, acts, s', id) && s'.jobs == s.jobs - {id} && s'.evals == s.evals && s'.now == s.now
    ensures s'.rows == s.rows[k := if answer
                                   then s.rows[k].(nlPassed := Some(true), status := Ready, openedAt := Some(s.now),
                                                   triggered := true)
                                   else s.rows[k].(nlPassed := Some(false))]
    ensures s'.runs == s.runs + if answer then [AgentRun(k.project, k.version, GateReady(k))] else []
  {
    acts, s' := EvalAnswers(c, s, id, newId, k, answer);
    if answer {
      acts, s' := EvalOpens(c, s, acts, s', id, newId, k);
    } else {
      var s1 := s';
      acts, s' := Goes(c, s, acts, s1, Complete(id), id);
      assert s'.jobs == s1.jobs - {id};
    }
    assert s'.jobs == s.jobs - {id};
  }

  /** An evaluation of a row that is not there, or no longer pending, changes nothing. */
  lemma LateEvalAlone(c: Config, s: Sys, id: JobId, newId: JobId, k: Key) returns (acts: seq<Action>, s': Sys)
    requires id in s.jobs && s.jobs[id] == NlEval(k, NlQueued) && newId !in s.jobs
    requires k in s.rows ==> s.rows[k].status != Pending
    ensures RunsAlone(c, s, acts, s', id) && s' == s.(jobs := s.jobs - {id})
  {
    acts, s' := Goes(c, s, [], s, Advance(id, Fine(false, newId)), id);
    assert s' == Put(s, id, NlEval(k, NlDone));
    acts, s' := Goes(c, s, acts, s', Complete(id), id);
    assert s'.jobs == s.jobs - {id};
  }

  // ---- a notify job ----------------------------------------------------------------------------

  /** A notify job that passes its filters starts a run exactly when a rule fires and the project has no
      enabled gate. */
  lemma NotifyAlone(c: Config, s: Sys, id: JobId, newId: JobId, src: SourceId, raw: string, fires: bool)
    returns (acts: seq<Action>, s': Sys)
    requires src in c.owner && id !in s.jobs && newId !in s.jobs && newId != id
    ensures RunsAlone(c, s, acts, s', id)
    ensures var p := c.owner[src]; var gated := p in c.gates && c.gates[p].enabled;
      s' == s.(runs := s.runs + if fires && !gated then [AgentRun(p, raw, AutoVersion(raw))] else [])
  {
    acts, s' := Starts(c, s, id, Notify(src, raw, NfQueued), Fine(true, newId));
    assert s' == Put(s, id, Notify(src, raw, NfRules));
    acts, s' := NotifyDecides(c, s, acts, s', id, newId, src, raw, fires);
    var s1 := s';
    acts, s' := Goes(c, s, acts, s1, Complete(id), id);
    assert s'.jobs == s.jobs;
  }

  lemma NotifyDecides(c: Config, s0: Sys, acts0: seq<Action>, s1: Sys, id: JobId, newId: JobId, src: SourceId,
      raw: string, fires: bool)
    returns (acts: seq<Action>, s: Sys)
    requires RunsAlone(c, s0, acts0, s1, id) && id in s1.jobs && s1.jobs[id] == Notify(src, raw, NfRules)
    requires src in c.owner && newId !in s1.jobs
    ensures RunsAlone(c, s0, acts, s, id)
    ensures var p := c.owner[src]; var gated := p in c.gates && c.gates[p].enabled;
      s == s1.(runs := s1.runs + (if fires && !gated then [AgentRun(p, raw, AutoVersion(raw))] else []),
               jobs := s1.jobs[id := Notify(src, raw, NfDone)])
  {
    acts, s := Goes(c, s0, acts0, s1, Advance(id, Fine(true, newId)), id);
    if !GateOn(c, c.owner[src]) {
      assert s == Put(s1, id, Notify(src, raw, NfNoGate));
      acts, s := Goes(c, s0, acts, s, Advance(id, Fine(fires, newId)), id);
      assert s.jobs == s1.jobs[id := Notify(src, raw, NfDone)];
    }
  }

  // ---- every completable row -----------------------------------------------------------------

  /** The row is ready and marked, its run is the only one, no job is left. */
  ghost predicate RanOnce(s: Sys, k: Key) {
    && s.jobs == map[] && k in s.rows && s.rows[k].status == Ready && s.rows[k].triggered
    && s.runs == [AgentRun(k.project, k.version, GateReady(k))]
  }

  lemma RunsOn(c: Config, s0: Sys, acts0: seq<Action>, s1: Sys, acts1: seq<Action>, s2: Sys, id: JobId)
    returns (acts: seq<Action>)
    requires Run(c, s0, acts0, s1) && RunsAlone(c, s1, acts1, s2, id)
    ensures Run(c, s0, acts, s2)
  {
    RunConcat(c, s0, acts0, s1, acts1, s2);
    acts := acts0 + acts1;
  }

  /** Without a rule: the check job of the last source opens the row, enqueues its run and marks it. */
  lemma CheckMarks(c: Config, t0: int, k: Key) returns (acts: seq<Action>, s: Sys)
    requires Completable(c, k) && Rule(c, k.project) == ""
    ensures Run(c, Initial(t0), acts, s) && RanOnce(s, k)
  {
    var src, raw;
    acts, s, src, raw := Completes(c, t0, k);
    var acts1, s1 := CheckOpens(c, s, [], s, 0, 9, src, raw, None);
    acts := RunsOn(c, Initial(t0), acts, s, acts1, s1, 0);
    s := s1;
  }

  /** The check job of the last source queues an evaluation and is forgotten. */
  lemma AsksFirst(c: Config, t0: int, k: Key) returns (acts: seq<Action>, s: Sys, src: SourceId, raw: string)
    requires Completable(c, k) && Rule(c, k.project) != ""
    ensures Run(c, Initial(t0), acts, s) && s.jobs == map[1 := NlEval(k, NlQueued)] && s.runs == []
    ensures CanOpen(s, k) && k.project in c.gates && s.rows[k].missing == [] && src in s.rows[k].met
    ensures Gated(c, src) && KeyOf(c, src, raw) == k
  {
    acts, s, src, raw := Completes(c, t0, k);
    var acts1, s1 := CheckAsks(c, s, [], s, 0, 1, src, raw, None);
    acts := RunsOn(c, Initial(t0), acts, s, acts1, s1, 0);
    s := s1;
  }

  /** With a rule: the evaluation does it when its answer is true. */
  lemma EvaluationMarks(c: Config, t0: int, k: Key) returns (acts: seq<Action>, s: Sys)
    requires Completable(c, k) && Rule(c, k.project) != ""
    ensures Run(c, Initial(t0), acts, s) && RanOnce(s, k)
  {
    var src, raw;
    acts, s, src, raw := AsksFirst(c, t0, k);
    var acts1, s1 := EvalAlone(c, s, 1, 9, k, true);
    acts := RunsOn(c, Initial(t0), acts, s, acts1, s1, 1);
    s := s1;
  }

  /** With a rule, but the evaluation crashes after saving true: a later check job finds the answer, and opens
      and marks the row itself. The evaluation then finds nothing to do. */
  lemma ApprovedCheckMarks(c: Config, t0: int, k: Key) returns (acts: seq<Action>, s: Sys)
    requires Completable(c, k) && Rule(c, k.project) != ""
    ensures Run(c, Initial(t0), acts, s) && RanOnce(s, k)
  {
    var s0, src, raw := Initial(t0), "", "";
    acts, s, src, raw := AsksFirst(c, t0, k);
    var acts1, s1 := EvalAnswers(c, s, 1, 9, k, true);
    acts := RunsOn(c, s0, acts, s, acts1, s1, 1);
    RunAppend(c, s0, acts, s1, Crash(1));
    acts, s := acts + [Crash(1)], Apply(c, s1, Crash(1));
    assert s.jobs == map[1 := NlEval(k, NlQueued)];
    acts1, s1 := CheckAlone(c, s, 0, 9, src, raw, Required(c, k.project));
    acts := RunsOn(c, s0, acts, s, acts1, s1, 0);
    acts1, s := LateEvalAlone(c, s1, 1, 9, k);
    acts := RunsOn(c, s0, acts, s1, acts1, s, 1);
  }
}
