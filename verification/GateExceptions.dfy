/** Rows that lose their run, and ready rows whose flag is false: which rows it can happen to. */
module GateExceptions {
  import opened Common
  import opened GateModel
  import opened GateInvariant
  import opened GateTheorems
  import opened GateCompletion

  lemma Then(c: Config, s0: Sys, acts: seq<Action>, s: Sys, a: Action) returns (acts': seq<Action>, s': Sys)
    requires Run(c, s0, acts, s) && Enabled(c, s, a)
    ensures Run(c, s0, acts', s') && s' == Apply(c, s, a)
  {
    RunAppend(c, s0, acts, s, a);
    acts', s' := acts + [a], Apply(c, s, a);
  }

  /** A check job whose upsert changes nothing gets from the queue to the end of the upsert. */
  lemma MergesAgain(c: Config, s0: Sys, acts0: seq<Action>, s1: Sys, id: JobId, src: SourceId, raw: string)
    returns (acts: seq<Action>, s: Sys)
    requires Run(c, s0, acts0, s1) && id in s1.jobs && s1.jobs[id] == Check(src, raw, CkQueued) && Gated(c, src)
             && 9 !in s1.jobs
    requires var k := KeyOf(c, src, raw);
      k in s1.rows && k in s1.fate && MergeRow(s1.rows[k], src, Required(c, k.project)) == s1.rows[k]
    ensures Run(c, s0, acts, s)
    ensures var r := s1.rows[KeyOf(c, src, raw)];
            s == Put(s1, id, Check(src, raw, CkMerged(r.missing == [], r.nlPassed)))
  {
    acts, s := Then(c, s0, acts0, s1, Advance(id, Fine(false, 9)));
    assert s == Put(s1, id, Check(src, raw, CkLoaded));
    acts, s := Then(c, s0, acts, s, Advance(id, Fine(false, 9)));
    assert s.rows == s1.rows;
  }

  lemma FindsItOpen(c: Config, s0: Sys, acts0: seq<Action>, s1: Sys, src: SourceId, raw: string)
    returns (acts: seq<Action>, s: Sys)
    requires Run(c, s0, acts0, s1) && Gated(c, src) && Rule(c, c.owner[src]) == "" && !CanOpen(s1, KeyOf(c, src, raw))
    requires exists nl :: s1.jobs == map[0 := Check(src, raw, CkMerged(true, nl))]
    ensures Run(c, s0, acts, s) && s.jobs == map[] && s.rows == s1.rows && s.runs == s1.runs
  {
    acts, s := Then(c, s0, acts0, s1, Advance(0, Fine(false, 9)));
    assert s == Put(s1, 0, Check(src, raw, CkDone));
    acts, s := Then(c, s0, acts, s, Complete(0));
    assert s.jobs == map[];
  }

  /** A retried check job that finds its row opened ends without touching the row or the runs. */
  lemma RetryFindsItOpen(c: Config, s0: Sys, acts0: seq<Action>, s1: Sys, src: SourceId, raw: string)
    returns (acts: seq<Action>, s: Sys)
    requires Run(c, s0, acts0, s1) && s1.jobs == map[0 := Check(src, raw, CkQueued)] && Gated(c, src)
    requires var k := KeyOf(c, src, raw);
      k in s1.rows && k in s1.fate && s1.rows[k].status == Ready && s1.rows[k].missing == [] && Rule(c, k.project) == ""
    ensures Run(c, s0, acts, s) && s.jobs == map[] && s.rows == s1.rows && s.runs == s1.runs
  {
    acts, s := MergesAgain(c, s0, acts0, s1, 0, src, raw);
    acts, s := FindsItOpen(c, s0, acts, s, src, raw);
  }

  /** An evaluation job that finds its row pending gets from the queue to the evaluator's answer. */
  lemma Evaluates(c: Config, s0: Sys, acts0: seq<Action>, s1: Sys, id: JobId, k: Key, answer: bool)
    returns (acts: seq<Action>, s: Sys)
    requires Run(c, s0, acts0, s1) && id in s1.jobs && s1.jobs[id] == NlEval(k, NlQueued) && 9 !in s1.jobs
    requires CanOpen(s1, k) && k.project in c.gates
    ensures Run(c, s0, acts, s)
    ensures s.jobs == s1.jobs[id := NlEval(k, NlEvaluated(answer))] && s.rows == s1.rows && s.runs == s1.runs
  {
    acts, s := Then(c, s0, acts0, s1, Advance(id, Fine(false, 9)));
    assert s == Put(s1, id, NlEval(k, NlLoaded));
    acts, s := Then(c, s0, acts, s, Advance(id, Fine(answer, 9)));
  }

  lemma QueuesEvaluation(c: Config, s0: Sys, acts0: seq<Action>, s1: Sys, id: JobId, src: SourceId, raw: string,
      newId: JobId)
    returns (acts: seq<Action>, s: Sys)
    requires Run(c, s0, acts0, s1) && id in s1.jobs && s1.jobs[id] == Check(src, raw, CkMerged(true, None))
             && newId !in s1.jobs
    requires Gated(c, src) && Rule(c, c.owner[src]) != ""
    ensures Run(c, s0, acts, s)
    ensures s == s1.(evals := s1.evals + [KeyOf(c, src, raw)],
                     jobs := s1.jobs[newId := NlEval(KeyOf(c, src, raw), NlQueued)][id := Check(src, raw, CkDone)])
  {
    acts, s := Then(c, s0, acts0, s1, Advance(id, Fine(false, newId)));
  }

  lemma DeliveredAgain(c: Config, s0: Sys, acts0: seq<Action>, s1: Sys, id: JobId, src: SourceId, raw: string)
    returns (acts: seq<Action>, s: Sys)
    requires Run(c, s0, acts0, s1) && id in s1.jobs && s1.jobs[id] == Check(src, raw, CkDone)
    ensures Run(c, s0, acts, s) && s == Put(s1, id, Check(src, raw, CkQueued))
  {
    acts, s := Then(c, s0, acts0, s1, Crash(id));
  }

  lemma SavesAndOpens(c: Config, s0: Sys, acts0: seq<Action>, s1: Sys, id: JobId, k: Key)
    returns (acts: seq<Action>, s: Sys)
    requires Run(c, s0, acts0, s1) && id in s1.jobs && s1.jobs[id] == NlEval(k, NlEvaluated(true)) && 9 !in s1.jobs
    requires CanOpen(s1, k)
    ensures Run(c, s0, acts, s)
    ensures s.jobs == s1.jobs[id := NlEval(k, NlOpened)] && s.runs == s1.runs
    ensures k in s.rows && s.rows[k].status == Ready
  {
    acts, s := Then(c, s0, acts0, s1, Advance(id, Fine(false, 9)));
    assert s.jobs == s1.jobs[id := NlEval(k, NlSaved)];
    acts, s := Then(c, s0, acts, s, Advance(id, Fine(false, 9)));
  }

  // ---- losing the run ------------------------------------------------------------------------

  /** Some run ends with row k ready, no job left, and no agent run. */
  ghost predicate CanLoseRun(c: Config, k: Key) {
    exists t0, acts, s :: Run(c, Initial(t0), acts, s) && s.jobs == map[]
      && k in s.rows && s.rows[k].status == Ready && GateRuns(s.runs, k) == 0
  }

  /** Without a rule: the check job that opened the row crashes before it enqueues the run; its retry finds
      the row open and stops. */
  lemma CheckLosesRun(c: Config, t0: int, k: Key) returns (acts: seq<Action>, s: Sys)
    requires Completable(c, k) && Rule(c, k.project) == ""
    ensures Run(c, Initial(t0), acts, s) && s.jobs == map[] && s.runs == []
    ensures k in s.rows && s.rows[k].status == Ready
  {
    var s0, src, raw := Initial(t0), "", "";
    acts, s, src, raw := Completes(c, t0, k);
    acts, s := Then(c, s0, acts, s, Advance(0, Fine(false, 9)));
    assert s.jobs == map[0 := Check(src, raw, CkOpened)];
    acts, s := Then(c, s0, acts, s, Crash(0));
    assert s.jobs == map[0 := Check(src, raw, CkQueued)];
    acts, s := RetryFindsItOpen(c, s0, acts, s, src, raw);
  }

  /** The check job queues an evaluation and is forgotten. */
  lemma OneEvaluation(c: Config, s0: Sys, acts0: seq<Action>, s1: Sys, k: Key, src: SourceId, raw: string)
    returns (acts: seq<Action>, s: Sys)
    requires Run(c, s0, acts0, s1) && JustCompleted(c, s1, k, src, raw) && Rule(c, k.project) != ""
    ensures Run(c, s0, acts, s) && s.jobs.Keys == {1} && s.jobs[1] == NlEval(k, NlQueued)
    ensures s.rows == s1.rows && s.runs == []
  {
    acts, s := QueuesEvaluation(c, s0, acts0, s1, 0, src, raw, 1);
    assert s.jobs.Keys == {0, 1};
    acts, s := Then(c, s0, acts, s, Complete(0));
  }

  /** With a rule, up to the end of the only evaluation's opening of the row. */
  lemma EvaluationOpens(c: Config, t0: int, k: Key) returns (acts: seq<Action>, s: Sys)
    requires Completable(c, k) && Rule(c, k.project) != ""
    ensures Run(c, Initial(t0), acts, s) && s.jobs.Keys == {1} && s.jobs[1] == NlEval(k, NlOpened) && s.runs == []
    ensures k in s.rows && s.rows[k].status == Ready
  {
    var s0, src, raw := Initial(t0), "", "";
    acts, s, src, raw := Completes(c, t0, k);
    acts, s := OneEvaluation(c, s0, acts, s, k, src, raw);
    acts, s := Evaluates(c, s0, acts, s, 1, k, true);
    acts, s := SavesAndOpens(c, s0, acts, s, 1, k);
  }

  /** The evaluation job that opened the row crashes; its retry finds the row open and stops. */
  lemma EvaluationLosesRun(c: Config, t0: int, k: Key) returns (acts: seq<Action>, s: Sys)
    requires Completable(c, k) && Rule(c, k.project) != ""
    ensures Run(c, Initial(t0), acts, s) && s.jobs == map[] && s.runs == []
    ensures k in s.rows && s.rows[k].status == Ready
  {
    var s0 := Initial(t0);
    acts, s := EvaluationOpens(c, t0, k);
    acts, s := Then(c, s0, acts, s, Crash(1));
    acts, s := Then(c, s0, acts, s, Advance(1, Fine(false, 9)));
    acts, s := Then(c, s0, acts, s, Complete(1));
    assert s.jobs.Keys == {};
  }

  /** Every row that can become ready at all can lose its run. */
  lemma CanLoseRunIff(c: Config, k: Key)
    ensures CanLoseRun(c, k) <==> Completable(c, k)
  {
    if CanLoseRun(c, k) {
      var t0, acts, s :| Run(c, Initial(t0), acts, s) && s.jobs == map[]
        && k in s.rows && s.rows[k].status == Ready && GateRuns(s.runs, k) == 0;
      ReadyIsCompletable(c, t0, acts, s, k);
    }
    if Completable(c, k) {
      var acts, s;
      if Rule(c, k.project) == "" {
        acts, s := CheckLosesRun(c, 0, k);
      } else {
        acts, s := EvaluationLosesRun(c, 0, k);
      }
      assert GateRuns(s.runs, k) == 0;
    }
  }

  lemma ReadyIsCompletable(c: Config, t0: int, acts: seq<Action>, s: Sys, k: Key)
    requires Run(c, Initial(t0), acts, s) && k in s.rows && s.rows[k].status == Ready
    ensures Completable(c, k)
  {
    InitialOk(c, t0);
    RunKeeps(c, Initial(t0), acts, s);
    assert RowOk(c, s, k);
    CompleteIsCompletable(c, t0, acts, s, k);
  }

  // ---- a false flag --------------------------------------------------------------------------

  /** Some run ends with row k ready, although its gate has a rule and its flag is not true. */
  ghost predicate CanEndFalse(c: Config, k: Key) {
    exists t0, acts, s :: Run(c, Initial(t0), acts, s) && Rule(c, k.project) != ""
      && k in s.rows && s.rows[k].status == Ready && s.rows[k].nlPassed != Some(true)
  }

  /** A check job queues an evaluation, is delivered again and queues a second one. */
  lemma TwoEvaluations(c: Config, t0: int, k: Key) returns (acts: seq<Action>, s: Sys)
    requires Completable(c, k) && Rule(c, k.project) != ""
    ensures Run(c, Initial(t0), acts, s) && CanOpen(s, k) && k.project in c.gates
    ensures s.jobs.Keys == {0, 1, 2} && s.jobs[1] == s.jobs[2] == NlEval(k, NlQueued)
  {
    var s0, src, raw := Initial(t0), "", "";
    acts, s, src, raw := Completes(c, t0, k);
    acts, s := QueuesEvaluation(c, s0, acts, s, 0, src, raw, 1);
    acts, s := SecondEvaluation(c, s0, acts, s, k, src, raw);
  }

  lemma SecondEvaluation(c: Config, s0: Sys, acts0: seq<Action>, s1: Sys, k: Key, src: SourceId, raw: string)
    returns (acts: seq<Action>, s: Sys)
    requires Run(c, s0, acts0, s1) && Gated(c, src) && KeyOf(c, src, raw) == k && Rule(c, c.owner[src]) != ""
    requires s1.jobs.Keys == {0, 1} && s1.jobs[0] == Check(src, raw, CkDone)
    requires k in s1.rows && k in s1.fate && s1.rows[k].status == Pending && src in s1.rows[k].met
    requires s1.rows[k].missing == [] && s1.rows[k].nlPassed == None
    ensures Run(c, s0, acts, s) && s.rows == s1.rows
    ensures s.jobs.Keys == {0, 1, 2} && s.jobs[1] == s1.jobs[1] && s.jobs[2] == NlEval(k, NlQueued)
  {
    acts, s := DeliveredAgain(c, s0, acts0, s1, 0, src, raw);
    acts, s := MergesAgain(c, s0, acts, s, 0, src, raw);
    acts, s := QueuesEvaluation(c, s0, acts, s, 0, src, raw, 2);
  }

  /** Two evaluations of one row, both loaded while it was pending: one answers true, saves that and
      opens the row; the other answers false and saves that afterwards. */
  lemma ReadyWithFlagFalse(c: Config, t0: int, k: Key) returns (acts: seq<Action>, s: Sys)
    requires Completable(c, k) && Rule(c, k.project) != ""
    ensures Run(c, Initial(t0), acts, s)
    ensures k in s.rows && s.rows[k].status == Ready && s.rows[k].nlPassed == Some(false)
  {
    var s0 := Initial(t0);
    acts, s := TwoEvaluations(c, t0, k);
    acts, s := Evaluates(c, s0, acts, s, 2, k, false);
    acts, s := Evaluates(c, s0, acts, s, 1, k, true);
    acts, s := SavesAndOpens(c, s0, acts, s, 1, k);
    acts, s := Then(c, s0, acts, s, Advance(2, Fine(false, 9)));
  }

  /** Every row of a gate with a rule that can become ready at all can end with the flag false. */
  lemma CanEndFalseIff(c: Config, k: Key)
    ensures CanEndFalse(c, k) <==> Rule(c, k.project) != "" && Completable(c, k)
  {
    if CanEndFalse(c, k) {
      var t0, acts, s :| Run(c, Initial(t0), acts, s) && Rule(c, k.project) != ""
        && k in s.rows && s.rows[k].status == Ready && s.rows[k].nlPassed != Some(true);
      ReadyIsCompletable(c, t0, acts, s, k);
    }
    if Rule(c, k.project) != "" && Completable(c, k) {
      var acts, s := ReadyWithFlagFalse(c, 0, k);
    }
  }
}
