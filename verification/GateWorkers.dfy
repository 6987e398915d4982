/** The gate workers as they are written: methods over a store that other jobs change between any two
    statements. Each method is shown to be a run of the system of GateModel, so every theorem about
    those runs holds of the store at every point of every execution. */
module GateWorkers {
  import opened Common
  import opened VersionTemplate
  import opened GateModel
  import opened GateInvariant
  import opened GateSweep
  import R = GateReports
  import T = GateTheorems

  /** The run never touches job `id`. */
  predicate NotBy(acts: seq<Action>, id: JobId) {
    forall i :: 0 <= i < |acts| ==>
      match acts[i]
      case Tick(_) => true
      case Submit(x, _) => x != id
      case Crash(x) => x != id
      case Complete(x) => x != id
      case Advance(x, o) => x != id && o.newId != id
  }

  /** What the world decides about statement n of a worker: how it ends, which rows other transactions
      hold locked meanwhile, and what the evaluator answers. */
  datatype Environment = Environment(faults: nat -> Fault, locks: nat -> set<Key>, answers: nat -> bool)

  class GateStore {
    const config: Config
    const env: Environment
    ghost const start: int
    var clock: int
    /** The number of statements the worker has issued, and how the last of them ended, if no step has
        been recorded since. */
    var issued: nat
    ghost var ended: Fault
    var rows: Rows
    var runs: seq<AgentRun>
    /** The evaluation jobs inserted into the queue so far. */
    var evals: seq<Key>
    /** The run of the whole system that led here, and its state. */
    ghost var sys: Sys
    ghost var trace: seq<Action>

    ghost predicate Valid() reads this {
      && Run(config, Initial(start), trace, sys)
      && Tables(sys) && ended == Ok
    }

    /** The store is valid and job `id` is at j. */
    ghost predicate At(id: JobId, j: Job) reads this { Valid() && id in sys.jobs && sys.jobs[id] == j }

    /** The source is in the row of this version, or the row was opened without it. */
    ghost predicate Reported(project: ProjectId, version: string, source: SourceId) reads this {
      var k := Key(project, version);
      k in rows && (source in rows[k].met || rows[k].status != Pending)
    }

    /** The run has grown since `before`, and its last step is one of job `id`. */
    ghost predicate SteppedLast(id: JobId, before: seq<Action>) reads this {
      before < trace && trace[|trace| - 1].Advance? && trace[|trace| - 1].id == id
    }

    constructor (config: Config, env: Environment, now: int)
      ensures Valid() && this.config == config && this.env == env
      ensures trace == [] && rows == map[] && runs == [] && evals == []
    {
      this.config, this.env := config, env;
      start := now;
      clock, rows, runs, evals := now, map[], [], [];
      issued, ended := 0, Ok;
      sys, trace := Initial(now), [];
    }

    /** Other jobs may step here, any number of times and in any way. */
    method Interfere(ghost id: JobId)
      requires Valid() && id in sys.jobs
      modifies this
      ensures At(id, old(sys.jobs[id])) && old(trace) <= trace && issued == old(issued)
      ensures exists acts :: Run(config, old(sys), acts, sys) && NotBy(acts, id)
    {
      assert Run(config, sys, [], sys) && NotBy([], id);
    }

    /** Accounts for the statements issued since the last recorded step: job `id` steps to `next`. The
        outcome recorded is the one that happened. */
    ghost method Record(id: JobId, o: Outcome, next: Job)
      requires Run(config, Initial(start), trace, sys) && Enabled(config, sys, Advance(id, o)) && o.fault == ended
      requires var s' := StepJob(config, sys, id, o); Tables(s') && id in s'.jobs && s'.jobs[id] == next
      modifies this`sys, this`trace, this`ended
      ensures At(id, next) && trace == old(trace) + [Advance(id, o)]
    {
      RunAppend(config, Initial(start), trace, sys, Advance(id, o));
      trace := trace + [Advance(id, o)];
      sys := Apply(config, sys, Advance(id, o));
      ended := Ok;
    }

    /** The same, by the kind of job. */
    ghost method RecordCheck(id: JobId, src: SourceId, raw: string, pc: CheckPc, next: CheckPc)
      requires Run(config, Initial(start), trace, sys) && id in sys.jobs && sys.jobs[id] == Check(src, raw, pc)
      requires var s' := StepCheck(config, sys, id, src, raw, pc, Outcome(ended, false, [], Unused()));
               Tables(s') && id in s'.jobs && s'.jobs[id] == Check(src, raw, next)
      modifies this`sys, this`trace, this`ended
      ensures At(id, Check(src, raw, next)) && SteppedLast(id, old(trace))
    {
      Record(id, Outcome(ended, false, [], Unused()), Check(src, raw, next));
    }

    ghost method RecordEval(id: JobId, k: Key, pc: NlPc, answer: bool, next: NlPc)
      requires Run(config, Initial(start), trace, sys) && id in sys.jobs && sys.jobs[id] == NlEval(k, pc)
      requires var s' := StepNl(config, sys, id, k, pc, Outcome(ended, answer, [], Unused()));
               Tables(s') && id in s'.jobs && s'.jobs[id] == NlEval(k, next)
      modifies this`sys, this`trace, this`ended
      ensures At(id, NlEval(k, next)) && SteppedLast(id, old(trace))
    {
      Record(id, Outcome(ended, answer, [], Unused()), NlEval(k, next));
    }

    ghost method RecordSweep(id: JobId, pc: SweepPc, keys: seq<Key>, next: SweepPc)
      requires Run(config, Initial(start), trace, sys) && id in sys.jobs && sys.jobs[id] == Sweep(pc)
      requires pc == SwQueued ==> SweepListOk(sys, keys)
      requires var s' := StepSweep(sys, id, pc, Outcome(ended, false, keys, Unused()));
               Tables(s') && id in s'.jobs && s'.jobs[id] == Sweep(next)
      modifies this`sys, this`trace, this`ended
      ensures At(id, Sweep(next)) && SteppedLast(id, old(trace))
    {
      Record(id, Outcome(ended, false, keys, Unused()), Sweep(next));
    }

    /** The tables are those of this state of the machine. */
    ghost predicate Tables(s: Sys) reads this {
      s.now == clock && s.rows == rows && s.runs == runs && s.evals == evals
    }

    /** Some job id that is not in use. */
    ghost function Unused(): (n: JobId)
      reads this
      ensures n !in sys.jobs
    {
      Above(sys.jobs.Keys)
    }

    static ghost function Above(ids: set<JobId>): (m: JobId)
      ensures forall x :: x in ids ==> x < m
      decreases ids
    {
      if ids == {} then 0
      else
        var a :| a in ids;
        var m := Above(ids - {a});
        assert forall x :: x in ids ==> x == a || x in ids - {a};
        if a < m then m else a + 1
    }

    // ---- statements ------------------------------------------------------------------------

    /** Every statement begins here. */
    method Issue() returns (fault: Fault)
      modifies this`issued, this`ended
      ensures fault == ended == env.faults(old(issued)) && issued == old(issued) + 1
    {
      fault := env.faults(issued);
      issued, ended := issued + 1, fault;
    }

    /** Without a queue client the insertion of an evaluation job is not even attempted, which counts as
        one that did not happen. */
    ghost method NotAttempted(id: JobId, client: bool)
      requires !client && id in sys.jobs && sys.jobs[id].Check? && sys.jobs[id].ck.CkMerged?
      modifies this`ended
      ensures ended == NotApplied
    {
      ended := NotApplied;
    }

    method GetReleaseGateBySource(source: SourceId) returns (gate: Option<(ProjectId, Gate)>, err: bool)
      modifies this`issued, this`ended
      ensures ended == env.faults(old(issued)) && issued == old(issued) + 1 && (err <==> ended != Ok)
      ensures !err ==> (gate.Some? <==> source in config.owner && config.owner[source] in config.gates)
      ensures !err && gate.Some? ==> gate.value == (config.owner[source], config.gates[config.owner[source]])
    {
      gate, err := None, false;
      var fault := Issue();
      if fault != Ok { err := true; return; }
      if source in config.owner && config.owner[source] in config.gates {
        gate := Some((config.owner[source], config.gates[config.owner[source]]));
      }
    }

    method GetReleaseGate(project: ProjectId) returns (gate: Option<Gate>, err: bool)
      modifies this`issued, this`ended
      ensures ended == env.faults(old(issued)) && issued == old(issued) + 1 && (err <==> ended != Ok)
      ensures !err ==> gate == if project in config.gates then Some(config.gates[project]) else None
    {
      gate, err := None, false;
      var fault := Issue();
      if fault != Ok { err := true; return; }
      if project in config.gates { gate := Some(config.gates[project]); }
    }

    method ListSourcesByProject(project: ProjectId, perPage: nat) returns (sources: seq<SourceId>, err: bool)
      modifies this`issued, this`ended
      ensures ended == env.faults(old(issued)) && issued == old(issued) + 1 && (err <==> ended != Ok)
      ensures !err ==> sources == (if project !in config.sources then []
                                   else if |config.sources[project]| <= perPage then config.sources[project]
                                   else config.sources[project][..perPage])
    {
      sources, err := [], false;
      var fault := Issue();
      if fault != Ok { err := true; return; }
      if project in config.sources {
        sources := config.sources[project];
        if |sources| > perPage { sources := sources[..perPage]; }
      }
    }

    static lemma MinusStep(before: seq<SourceId>, x: SourceId, rest: seq<SourceId>, source: SourceId)
      ensures before + Minus([x] + rest, [source])
              == (if x != source then before + [x] else before) + Minus(rest, [source])
    {
      assert ([x] + rest)[1..] == rest;
      assert x != source ==> before + ([x] + Minus(rest, [source])) == before + [x] + Minus(rest, [source]);
    }

    /** The missing list of a new row is computed up front. */
    static method InitialMissing(source: SourceId, required: seq<SourceId>) returns (missing: seq<SourceId>)
      ensures missing == Minus(required, [source])
    {
      missing := [];
      var i := 0;
      while i < |required|
        invariant 0 <= i <= |required| && missing + Minus(required[i..], [source]) == Minus(required, [source])
      {
        assert required[i..] == [required[i]] + required[i + 1..];
        MinusStep(missing, required[i], required[i + 1..], source);
        if required[i] != source { missing := missing + [required[i]]; }
        i := i + 1;
      }
      assert required[i..] == [];
    }

    /** INSERT .. ON CONFLICT DO UPDATE. */
    method UpsertVersionReadiness(project: ProjectId, version: string, source: SourceId, required: seq<SourceId>,
        hours: int)
      returns (row: Row, allMet: bool, err: bool)
      modifies this`rows, this`issued, this`ended
      ensures ended == env.faults(old(issued)) && issued == old(issued) + 1 && (err <==> ended != Ok)
      ensures rows == (if ended == NotApplied then old(rows)
                       else old(rows)[Key(project, version) :=
                         UpsertedRow(old(rows), Key(project, version), source, required, hours, clock)])
      ensures !err ==> row == rows[Key(project, version)] && (allMet <==> row.missing == [])
    {
      var k := Key(project, version);
      var missing := InitialMissing(source, required);
      row, allMet := Row(Pending, [source], missing, None, clock, clock + SECONDS_PER_HOUR * hours, None, false), false;
      var fault := Issue();
      err := fault != Ok;
      if fault == NotApplied { return; }
      if k in rows {
        row := rows[k];
        if row.status == Pending && source !in row.met {
          row := row.(met := row.met + [source], missing := Minus(required, row.met + [source]));
        }
      }
      rows := rows[k := row];
      allMet := |row.missing| == 0;
    }

    /** UPDATE .. WHERE status = 'pending'. */
    method OpenGate(k: Key, status: Status) returns (won: bool, err: bool)
      modifies this`rows, this`issued, this`ended
      ensures ended == env.faults(old(issued)) && issued == old(issued) + 1 && (err <==> ended != Ok)
      ensures rows == (if ended != NotApplied && k in old(rows) && old(rows)[k].status == Pending
                       then old(rows)[k := OpenRow(old(rows)[k], status, clock)] else old(rows))
      ensures !err ==> (won <==> k in old(rows) && old(rows)[k].status == Pending)
    {
      var fault := Issue();
      won, err := false, fault != Ok;
      if fault == NotApplied { return; }
      if k in rows && rows[k].status == Pending {
        rows := rows[k := rows[k].(status := status, openedAt := Some(clock))];
        won := true;
      }
    }

    method MarkAgentTriggered(k: Key) returns (err: bool)
      modifies this`rows, this`issued, this`ended
      ensures ended == env.faults(old(issued)) && issued == old(issued) + 1 && (err <==> ended != Ok)
      ensures rows == if ended != NotApplied && k in old(rows)
                      then old(rows)[k := old(rows)[k].(triggered := true)] else old(rows)
    {
      var fault := Issue();
      err := fault != Ok;
      if fault != NotApplied && k in rows { rows := rows[k := rows[k].(triggered := true)]; }
    }

    method UpdateNLRulePassed(k: Key, passed: bool) returns (err: bool)
      modifies this`rows, this`issued, this`ended
      ensures ended == env.faults(old(issued)) && issued == old(issued) + 1 && (err <==> ended != Ok)
      ensures rows == if ended != NotApplied && k in old(rows)
                      then old(rows)[k := old(rows)[k].(nlPassed := Some(passed))] else old(rows)
    {
      var fault := Issue();
      err := fault != Ok;
      if fault != NotApplied && k in rows { rows := rows[k := rows[k].(nlPassed := Some(passed))]; }
    }

    method GetVersionReadiness(k: Key) returns (row: Option<Row>, err: bool)
      modifies this`issued, this`ended
      ensures ended == env.faults(old(issued)) && issued == old(issued) + 1 && (err <==> ended != Ok)
      ensures !err ==> row == if k in rows then Some(rows[k]) else None
    {
      row, err := None, false;
      var fault := Issue();
      if fault != Ok { err := true; return; }
      if k in rows { row := Some(rows[k]); }
    }

    method EnqueueAgentRun(project: ProjectId, trigger: Trigger, version: string) returns (err: bool)
      modifies this`runs, this`issued, this`ended
      ensures ended == env.faults(old(issued)) && issued == old(issued) + 1 && (err <==> ended != Ok)
      ensures runs == if ended == NotApplied then old(runs) else old(runs) + [AgentRun(project, version, trigger)]
    {
      var fault := Issue();
      err := fault != Ok;
      if fault != NotApplied { runs := runs + [AgentRun(project, version, trigger)]; }
    }

    /** riverClient.Insert of a gate_nl_eval job. */
    method InsertEvalJob(k: Key) returns (err: bool)
      modifies this`evals, this`issued, this`ended
      ensures ended == env.faults(old(issued)) && issued == old(issued) + 1 && (err <==> ended != Ok)
      ensures evals == if ended == NotApplied then old(evals) else old(evals) + [k]
    {
      var fault := Issue();
      err := fault != Ok;
      if fault != NotApplied { evals := evals + [k]; }
    }

    /** The first `limit` expired rows by deadline, skipping rows locked by other transactions. */
    method ListExpiredGates(limit: nat) returns (keys: seq<Key>, err: bool)
      modifies this`issued, this`ended
      ensures ended == env.faults(old(issued)) && issued == old(issued) + 1 && (err <==> ended != Ok)
      ensures !err ==> IsPage(rows, clock, env.locks(old(issued)), limit, keys)
      ensures !err && |keys| < limit ==>
              forall k | k in rows && k !in env.locks(old(issued)) && rows[k].status == Pending
                         && rows[k].timeoutAt < clock :: k in keys
    {
      keys, err := [], false;
      var locked := env.locks(issued);
      var fault := Issue();
      if fault != Ok { err := true; return; }
      keys := SelectPage(rows, clock, locked, limit);
    }
  }

  // ---- the check worker ----------------------------------------------------------------------

  class GateCheckWorker {
    const store: GateStore
    /** Set once the queue client exists; without it no evaluation can be queued. */
    var riverClient: bool

    constructor (store: GateStore)
      ensures this.store == store && !riverClient
    {
      this.store := store;
      riverClient := false;
    }

    method SetRiverClient()
      modifies this
      ensures riverClient
    {
      riverClient := true;
    }

    method Work(ghost id: JobId, source: SourceId, raw: string) returns (err: bool)
      requires store.At(id, Check(source, raw, CkQueued))
      modifies store
      ensures store.At(id, Check(source, raw, if err then CkQueued else CkDone))
              && store.SteppedLast(id, old(store.trace))
    {
      var gateRow, gateErr := store.GetReleaseGateBySource(source);
      if gateErr {
        store.RecordCheck(id, source, raw, CkQueued, CkQueued);
        return true;
      }
      if gateRow.None? || !gateRow.value.1.enabled {
        store.RecordCheck(id, source, raw, CkQueued, CkDone);
        return false;
      }
      err := CheckSource(id, source, raw, gateRow.value.0, gateRow.value.1);
    }

    /** Steps 2 and 3: the version of the row, and the sources it waits for. When all is done the source is in
        the row of the version that its mapping, or the default form, makes of the raw one. */
    method CheckSource(ghost id: JobId, source: SourceId, raw: string, project: ProjectId, gate: Gate)
      returns (err: bool)
      requires store.At(id, Check(source, raw, CkQueued)) && Gated(store.config, source)
      requires project == store.config.owner[source] && gate == store.config.gates[project]
      modifies store
      ensures store.At(id, Check(source, raw, if err then CkQueued else CkDone))
              && store.SteppedLast(id, old(store.trace))
      ensures !err ==> exists v :: NormalFormIs(raw, source, gate.mappings, store.config.regex, v)
                                   && store.Reported(project, v, source)
    {
      var version := NormalizeVersionForSource(raw, source, gate.mappings, store.config.regex);
      var required, listErr := RequiredSources(id, source, raw, project, gate);
      if listErr { return true; }
      store.Interfere(id);
      err := MergeAndDecide(id, source, raw, Key(project, version), required, gate);
      if !err {
        R.NoReportLost(store.config, store.start, store.trace, store.sys, id, source, raw);
        NormalFormIff(raw, source, gate.mappings, store.config.regex, version);
      }
    }

    /** The explicit list of the gate, or else the first page of the project's sources. */
    method RequiredSources(ghost id: JobId, source: SourceId, raw: string, project: ProjectId, gate: Gate)
      returns (required: seq<SourceId>, err: bool)
      requires store.At(id, Check(source, raw, CkQueued)) && Gated(store.config, source)
      requires project == store.config.owner[source] && gate == store.config.gates[project]
      modifies store
      ensures store.At(id, Check(source, raw, if err then CkQueued else CkLoaded))
              && store.SteppedLast(id, old(store.trace))
      ensures !err ==> required == Required(store.config, project)
      ensures !err ==> required == (if gate.required != [] then gate.required
                                    else if project !in store.config.sources then []
                                    else if |store.config.sources[project]| <= 1000 then store.config.sources[project]
                                    else store.config.sources[project][..1000])
    {
      required, err := gate.required, false;
      if |required| == 0 {
        store.Interfere(id);
        required, err := store.ListSourcesByProject(project, SOURCE_PAGE);
      }
      store.RecordCheck(id, source, raw, CkQueued, if err then CkQueued else CkLoaded);
    }

    /** Step 4: the upsert. */
    method MergeAndDecide(ghost id: JobId, source: SourceId, raw: string, k: Key, required: seq<SourceId>, gate: Gate)
      returns (err: bool)
      requires store.At(id, Check(source, raw, CkLoaded))
      requires Gated(store.config, source) && KeyOf(store.config, source, raw) == k
      requires gate == store.config.gates[k.project] && required == Required(store.config, k.project)
      modifies store
      ensures store.At(id, Check(source, raw, if err then CkQueued else CkDone))
              && store.SteppedLast(id, old(store.trace))
    {
      var vr, allMet, upsertErr := store.UpsertVersionReadiness(k.project, k.version, source, required,
          gate.timeoutHours);
      store.RecordCheck(id, source, raw, CkLoaded, if upsertErr then CkQueued else CkMerged(allMet, vr.nlPassed));
      if upsertErr { return true; }
      store.Interfere(id);
      err := Decide(id, source, raw, k, gate, allMet, vr.nlPassed);
    }

    /** Whether the gate can be opened, going by the row the upsert returned. */
    method Decide(ghost id: JobId, source: SourceId, raw: string, k: Key, gate: Gate, allMet: bool, nl: Option<bool>)
      returns (err: bool)
      requires store.At(id, Check(source, raw, CkMerged(allMet, nl)))
      requires Gated(store.config, source) && KeyOf(store.config, source, raw) == k
               && gate == store.config.gates[k.project]
      modifies store
      ensures store.At(id, Check(source, raw, if err then CkQueued else CkDone))
              && store.SteppedLast(id, old(store.trace))
    {
      if !allMet {
        store.RecordCheck(id, source, raw, CkMerged(allMet, nl), CkDone);
        return false;
      }
      if gate.nlRule != "" && nl != Some(true) {
        if riverClient {
          var insertErr := store.InsertEvalJob(k);
        } else {
          store.NotAttempted(id, riverClient);
        }
        store.RecordCheck(id, source, raw, CkMerged(allMet, nl), CkDone);
        return false;
      }
      err := OpenAndTrigger(id, source, raw, k, nl);
    }

    /** Steps 6 to 8: open the gate, and trigger the agent only if this call opened it. */
    method OpenAndTrigger(ghost id: JobId, source: SourceId, raw: string, k: Key, ghost nl: Option<bool>)
      returns (err: bool)
      requires store.At(id, Check(source, raw, CkMerged(true, nl)))
      requires Gated(store.config, source) && KeyOf(store.config, source, raw) == k
      requires Rule(store.config, k.project) == "" || nl == Some(true)
      modifies store
      ensures store.At(id, Check(source, raw, if err then CkQueued else CkDone))
              && store.SteppedLast(id, old(store.trace))
    {
      var won, openErr := store.OpenGate(k, Ready);
      store.RecordCheck(id, source, raw, CkMerged(true, nl),
                        if openErr then CkQueued else if won then CkOpened else CkDone);
      if openErr { return true; }
      if !won { return false; }
      store.Interfere(id);
      TriggerAgent(id, source, raw, k);
      return false;
    }

    method TriggerAgent(ghost id: JobId, source: SourceId, raw: string, k: Key)
      requires store.At(id, Check(source, raw, CkOpened))
      requires Gated(store.config, source) && KeyOf(store.config, source, raw) == k
      modifies store
      ensures store.At(id, Check(source, raw, CkDone)) && store.SteppedLast(id, old(store.trace))
    {
      var runErr := store.EnqueueAgentRun(k.project, GateReady(k), k.version);
      store.RecordCheck(id, source, raw, CkOpened, if runErr then CkDone else CkEnqueued);
      if runErr { return; }
      store.Interfere(id);
      MarkTriggered(id, source, raw, k);
    }

    method MarkTriggered(ghost id: JobId, source: SourceId, raw: string, k: Key)
      requires store.At(id, Check(source, raw, CkEnqueued))
      requires Gated(store.config, source) && KeyOf(store.config, source, raw) == k
      modifies store
      ensures store.At(id, Check(source, raw, CkDone)) && store.SteppedLast(id, old(store.trace))
    {
      var markErr := store.MarkAgentTriggered(k);
      store.RecordCheck(id, source, raw, CkEnqueued, CkDone);
    }
  }

  // ---- the evaluation worker -----------------------------------------------------------------

  class GateNLEvalWorker {
    const store: GateStore

    constructor (store: GateStore)
      ensures this.store == store
    {
      this.store := store;
    }

    /** The evaluator: any answer, or an error. */
    method Evaluate(rule: string, row: Row) returns (passed: bool, err: bool)
      modifies store`issued, store`ended
      ensures store.ended == store.env.faults(old(store.issued)) && store.issued == old(store.issued) + 1
      ensures passed == store.env.answers(old(store.issued)) && (err <==> store.ended != Ok)
    {
      passed := store.env.answers(store.issued);
      var fault := store.Issue();
      err := fault != Ok;
    }

    method Work(ghost id: JobId, k: Key) returns (err: bool)
      requires store.At(id, NlEval(k, NlQueued))
      modifies store
      ensures store.At(id, NlEval(k, if err then NlQueued else NlDone)) && store.SteppedLast(id, old(store.trace))
    {
      var vr, rowErr := store.GetVersionReadiness(k);
      if rowErr {
        store.RecordEval(id, k, NlQueued, false, NlQueued);
        return true;
      }
      if vr.None? || vr.value.status != Pending {
        store.RecordEval(id, k, NlQueued, false, NlDone);
        return false;
      }
      err := LoadGate(id, k, vr.value);
    }

    /** Step 2: the gate. */
    method LoadGate(ghost id: JobId, k: Key, vr: Row) returns (err: bool)
      requires store.At(id, NlEval(k, NlQueued)) && CanOpen(store.sys, k)
      modifies store
      ensures store.At(id, NlEval(k, if err then NlQueued else NlDone)) && store.SteppedLast(id, old(store.trace))
    {
      var gate, gateErr := store.GetReleaseGate(k.project);
      var missing := gateErr || gate.None?;
      store.RecordEval(id, k, NlQueued, false, if missing then NlQueued else NlLoaded);
      if missing { return true; }
      store.Interfere(id);
      err := EvaluateRule(id, k, gate.value, vr);
    }

    /** Step 4: the evaluation. */
    method EvaluateRule(ghost id: JobId, k: Key, gate: Gate, vr: Row) returns (err: bool)
      requires store.At(id, NlEval(k, NlLoaded))
      modifies store
      ensures store.At(id, NlEval(k, if err then NlQueued else NlDone)) && store.SteppedLast(id, old(store.trace))
    {
      var passed, evalErr := Evaluate(gate.nlRule, vr);
      store.RecordEval(id, k, NlLoaded, passed, if evalErr then NlQueued else NlEvaluated(passed));
      if evalErr { return true; }
      store.Interfere(id);
      err := Save(id, k, passed);
    }

    /** Steps 5 to 7: the answer is saved whatever it is; only true goes on. */
    method Save(ghost id: JobId, k: Key, passed: bool) returns (err: bool)
      requires store.At(id, NlEval(k, NlEvaluated(passed)))
      modifies store
      ensures store.At(id, NlEval(k, if err then NlQueued else NlDone)) && store.SteppedLast(id, old(store.trace))
    {
      var saveErr := store.UpdateNLRulePassed(k, passed);
      store.RecordEval(id, k, NlEvaluated(passed), false,
                       if saveErr then NlQueued else if passed then NlSaved else NlDone);
      if saveErr { return true; }
      if !passed { return false; }
      store.Interfere(id);
      err := OpenAndTrigger(id, k);
    }

    method OpenAndTrigger(ghost id: JobId, k: Key) returns (err: bool)
      requires store.At(id, NlEval(k, NlSaved))
      modifies store
      ensures store.At(id, NlEval(k, if err then NlQueued else NlDone)) && store.SteppedLast(id, old(store.trace))
    {
      var won, openErr := store.OpenGate(k, Ready);
      store.RecordEval(id, k, NlSaved, false, if openErr then NlQueued else if won then NlOpened else NlDone);
      if openErr { return true; }
      if !won { return false; }
      store.Interfere(id);
      TriggerAgent(id, k);
      return false;
    }

    method TriggerAgent(ghost id: JobId, k: Key)
      requires store.At(id, NlEval(k, NlOpened))
      modifies store
      ensures store.At(id, NlEval(k, NlDone)) && store.SteppedLast(id, old(store.trace))
    {
      var runErr := store.EnqueueAgentRun(k.project, GateReady(k), k.version);
      store.RecordEval(id, k, NlOpened, false, if runErr then NlDone else NlEnqueued);
      if runErr { return; }
      store.Interfere(id);
      MarkTriggered(id, k);
    }

    method MarkTriggered(ghost id: JobId, k: Key)
      requires store.At(id, NlEval(k, NlEnqueued))
      modifies store
      ensures store.At(id, NlEval(k, NlDone)) && store.SteppedLast(id, old(store.trace))
    {
      var markErr := store.MarkAgentTriggered(k);
      store.RecordEval(id, k, NlEnqueued, false, NlDone);
    }
  }

  // ---- the timeout worker --------------------------------------------------------------------

  class GateTimeoutWorker {
    const store: GateStore

    constructor (store: GateStore)
      ensures this.store == store
    {
      this.store := store;
    }

    method Work(ghost id: JobId) returns (err: bool)
      requires store.At(id, Sweep(SwQueued))
      modifies store
      ensures store.At(id, Sweep(if err then SwQueued else SwDone)) && store.SteppedLast(id, old(store.trace))
      ensures err <==> store.env.faults(old(store.issued)) != Ok
    {
      var expired, listErr := store.ListExpiredGates(SWEEP_LIMIT);
      if listErr {
        store.RecordSweep(id, SwQueued, [], SwQueued);
        return true;
      }
      store.RecordSweep(id, SwQueued, expired, SwLooping(expired));
      ForceOpenAll(id, expired);
      return false;
    }

    method ForceOpenAll(ghost id: JobId, expired: seq<Key>)
      requires store.At(id, Sweep(SwLooping(expired)))
      modifies store
      ensures store.At(id, Sweep(SwDone)) && store.SteppedLast(id, old(store.trace))
    {
      var i := 0;
      assert expired[i..] == expired;
      while i < |expired|
        invariant 0 <= i <= |expired|
        invariant store.At(id, Sweep(SwLooping(expired[i..]))) && old(store.trace) <= store.trace
      {
        assert expired[i..] == [expired[i]] + expired[i + 1..];
        store.Interfere(id);
        ForceOpen(id, expired[i], expired[i + 1..]);
        i := i + 1;
      }
      assert expired[i..] == [];
      store.RecordSweep(id, SwLooping(expired[i..]), [], SwDone);
    }

    /** The body of the loop; every error moves on to the next row. */
    method ForceOpen(ghost id: JobId, k: Key, ghost rest: seq<Key>)
      requires store.At(id, Sweep(SwLooping([k] + rest)))
      modifies store
      ensures store.At(id, Sweep(SwLooping(rest))) && store.SteppedLast(id, old(store.trace))
    {
      assert ([k] + rest)[1..] == rest;
      var won, openErr := store.OpenGate(k, TimedOut);
      store.RecordSweep(id, SwLooping([k] + rest), [], if !openErr && won then SwOpened(k, rest) else SwLooping(rest));
      if openErr || !won { return; }
      store.Interfere(id);
      TriggerAgent(id, k, rest);
    }

    method TriggerAgent(ghost id: JobId, k: Key, ghost rest: seq<Key>)
      requires store.At(id, Sweep(SwOpened(k, rest)))
      modifies store
      ensures store.At(id, Sweep(SwLooping(rest))) && store.SteppedLast(id, old(store.trace))
    {
      var runErr := Enqueue(id, k, rest);
      if runErr { return; }
      store.Interfere(id);
      MarkTriggered(id, k, rest);
    }

    method Enqueue(ghost id: JobId, k: Key, ghost rest: seq<Key>) returns (runErr: bool)
      requires store.At(id, Sweep(SwOpened(k, rest)))
      modifies store
      ensures store.At(id, Sweep(if runErr then SwLooping(rest) else SwEnqueued(k, rest)))
      ensures store.SteppedLast(id, old(store.trace))
    {
      runErr := store.EnqueueAgentRun(k.project, GateTimeout(k.version), k.version);
      store.RecordSweep(id, SwOpened(k, rest), [], if runErr then SwLooping(rest) else SwEnqueued(k, rest));
    }

    method MarkTriggered(ghost id: JobId, k: Key, ghost rest: seq<Key>)
      requires store.At(id, Sweep(SwEnqueued(k, rest)))
      modifies store
      ensures store.At(id, Sweep(SwLooping(rest))) && store.SteppedLast(id, old(store.trace))
    {
      var markErr := store.MarkAgentTriggered(k);
      store.RecordSweep(id, SwEnqueued(k, rest), [], SwLooping(rest));
    }
  }

  /** What the workers therefore guarantee of the store they share, at every point of every execution. */
  lemma StoreIsSafe(store: GateStore, k: Key)
    requires store.Valid()
    ensures GateRuns(store.runs, k) <= 1
    ensures k in store.rows && store.rows[k].triggered ==>
              store.rows[k].status != Pending && GateRuns(store.runs, k) == 1
    ensures k in store.rows && store.rows[k].status == Ready ==>
              forall x :: x in Required(store.config, k.project) ==> x in store.rows[k].met
    ensures k in store.rows && store.rows[k].status == TimedOut ==>
              store.rows[k].openedAt.Some? && store.rows[k].timeoutAt < store.rows[k].openedAt.value
  {
    T.AtMostOneRun(store.config, store.start, store.trace, store.sys, k);
    if k in store.rows && store.rows[k].status == Ready {
      T.NoEarlyOpening(store.config, store.start, store.trace, store.sys, k);
    }
    if k in store.rows && store.rows[k].status == TimedOut {
      T.NoEarlyTimeout(store.config, store.start, store.trace, store.sys, k);
    }
  }
}
