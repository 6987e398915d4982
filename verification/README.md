# Changelogue: release gates, ingestion, todos and the components around them

Changelogue watches registries for new releases, stores them in PostgreSQL, and lets queue workers act on
them. This project models the parts of it in which several workers share rows, and states what holds of
them over every interleaving, every failing statement and every crash.

## What is modelled

**The release gate** (`GateModel`, `GateInvariant`, `GateTheorems`, `GateMarks`, `GateReports`, `GateAlone`,
`GateCompletion`, `GateExceptions`, `GateStuck`, `GateTimeouts`, `GateFlag`, `GateUpserts`, `GateSweep`,
`GateWorkers`). A row of `version_readiness` collects the sources of a
project that have published a version. Check jobs merge a source into the row and open it when nothing is missing;
evaluation jobs ask an evaluator about a rule in natural language and open the row if it agrees; sweep jobs force
rows open whose deadline has passed. Whoever opens a row enqueues one agent run for it.

- `GateModel` is the system as a state machine: the table, the runs, the log of queued evaluations, and
  every job with a program counter. One statement or transaction is one step. Between any two steps of a job
  any other job may step. A statement can succeed, fail without effect, or take effect although the worker is
  told that it failed. A job can crash at any point and is queued again; a finished job can be delivered
  again. Notify jobs take part because they enqueue runs for projects without a gate.
- `GateInvariant` is an inductive invariant over table, runs and program counters, kept by every action.
- `GateAlone` says, column by column, what each job does when nothing fails and nobody interferes.
- `GateTheorems`, `GateMarks`, `GateReports`, `GateStuck`, `GateTimeouts` and `GateFlag` say what follows for all
  runs from an empty table; `GateCompletion` and `GateExceptions` say to which rows the exceptions can happen. For
  this the state carries a history: what became of the run a row may trigger (`fate`) and for which rows the
  evaluator has ever answered true (`approved`). `HistoryIsTrue` ties both to the steps that were taken.
- `GateWorkers` is the code of the three workers over a store whose statements change the tables. Between
  two statements the store may change in any way the machine allows (`Interfere`). Each worker is shown to be
  a run of the machine: whenever it has used a statement, it has to account for what that statement did to
  the tables by a step of its job, with the outcome the statement really had (`Record`). So the theorems
  about the machine hold of the store at every such point (`StoreIsSafe`). How statements end, which rows are
  locked and what the evaluator answers is a parameter of the store (`Environment`).

**Ingestion** (`Fetching`, `Ingestion`, `IngestTransactions`, `Polling`). Release rows and their jobs are written
in one transaction. `Fetching` has the JSON strings results are decoded from, the fetch of a GitHub source, and
what any number of failing passes over a fetched batch leaves. `Ingestion` has the code, what serial transactions
leave behind, and which results the table can hold; `IngestTransactions` lets transactions interleave under the
locks of PostgreSQL; `Polling` has the passes of the orchestrator.

**Todos** (`Todos`), **notify worker** (`NotifyWorkers`), **SSE broadcaster** (`Broadcasting`), **OAuth state
store** (`StateStores`), **versions** (`Templates`, `VersionTemplate`, `AgentRules`).

## What turned out false, and the exact condition

- *Exactly one run per opened row.* A crash, or a failing insert, between opening the row and enqueueing the
  run loses the run; the retry finds the row open and stops. Exactly one run was enqueued if and only if no such
  step was taken (`ExactlyOnceIff`), and it can happen to every row that can become ready at all
  (`CanLoseRunIff`). The comment on `EnqueueAgentRun` promises no loss; that is true of its own transaction only.
- *No gate gets stuck.* True without a rule (`NoStuckGate`). With a rule, a row is left pending with nothing
  missing and nobody at work on it only if an evaluation job could not be inserted, which is only logged, or an
  evaluation ended on a false answer (`StuckOnlyIf`). The first alone can do this to every row of such a gate
  that can be completed at all, and to no other row (`CanGetStuckIff`). No row is pending for good: sweeps after
  its deadline open it and enqueue its run, whatever it still waits for (`PendingTimesOut`, `AllTimeOut`).
- *`agent_triggered` is set for every run that was enqueued.* Exactly unless the worker crashed before it marked the
  row, the mark failed, or the worker was told that the enqueue failed although it took effect (`MarkedIff`).
- *A ready row of a gate with a rule has `nl_rule_passed` true.* Some evaluation did answer true
  (`NoEarlyOpening`), but the flag is the answer saved last (`FlagIsLastSaved`), and a second evaluation can
  overwrite it after the row was opened (`ReadyWithFlagFalse`). This can happen to every row of such a gate that
  can become ready at all (`CanEndFalseIff`). With a single evaluation job that is not queued again once it has
  loaded the row, the flag is true (`OneEvaluationKeepsFlag`).
- *A batch that failed is stored when it is run again.* A result the table cannot hold, with a version of more than
  100 characters or a NUL in its text, fails in every pass. An undisturbed pass stores exactly the results before
  the first of these (`StoredIff`). Up to there, failing passes over a fetched batch leave no trace
  (`FetchedPasses`, `FetchedRerun`).
- *A notification is sent, and a run started, at most once.* Reported errors never cause a repetition
  (`ErrorsNotifyOnce`), because they all come before the first send. A crash can: a job that has been repeated
  will attempt every subscription at most once, and start at most one run, however it goes on, if and only if no
  execution so far got as far as an attempt or a run (`NotifiesOnceIff`).
- *The next poll starts less than interval + d after `last_polled_at`.* For the pass that polls this holds exactly
  when the interval is positive; for the poll itself, which waits for the sources before it, never
  (`PromptIff`). The best bounds are interval + d and interval + 2d, where an interval that is not positive
  counts as 1 (`PassBoundIff`, `PollBoundIff`).
- *A cascading acknowledge and a cascading resolve commute.* Exactly when the resolve does not reach the
  acknowledged todo (`MixedCommutesIff`). Of one kind, any number of cascades end with the same statuses however
  their statements interleave (`InterleavingsAgree`).
- *A cascade leaves nothing eligible behind.* The error of the cascading statement is dropped; without it the
  promise holds only if there was nothing else eligible (`ClosedWithoutCascadeIff`).
- *The template loop is one simultaneous substitution.* For all captures without a dollar, exactly when the template
  has no two dollars before the digit of a group other than the last, and no placeholder of two or more digits that
  names a group (`AgreesIff`); for all captures, exactly when the template uses no group but the last, and with ten
  groups or more none (`AlwaysAgreesIff`). From ten groups on the loop knows one-digit placeholders only
  (`LoopReadsOneDigit`).
- *The default normalization is idempotent.* Exactly on the versions named by `Restrippable`; it agrees with the
  SQL form exactly on versions that do not start with two v/V letters.
- *The minor rule fires when (major, minor) increases.* Exactly unless the major number falls while the minor
  number rises, where a number above the range of int64 counts as the largest int64 (`MinorRuleExactIff`).

## Assumptions

One clock that never goes back. Random OAuth states never repeat. Gate configuration, subscriptions, filters and
polling intervals do not change during a run, and rows are not deleted. Version text is ASCII where it is lowered.
A provider lists no tag twice among its published releases. No version is longer than 100 characters only by spaces at
its end, which PostgreSQL would cut instead of rejecting it.

## Model

| member | source | states |
|---|---|---|
| GateTheorems.AtMostOneRun | internal/gate/worker.go:105-143 | Over every run of check, evaluation, sweep and notify jobs with faults and crashes at any step: at most one gate run per row; none while the row is pending; agent_triggered implies the row left pending and exactly one run was enqueued |
| GateTheorems.ExactlyOnceIff | internal/gate/worker.go:120-133 | An opened row whose opener is done has exactly one run if and only if no step of the run lost it (a crash or failed enqueue after the opening, or an opening reported as failed) |
| GateTheorems.HistoryIsTrue | internal/gate/nl_worker.go:58-110 | The history kept in the state is that of the steps taken: a run counts as lost, and a row as approved, exactly when some step of the run lost it or some evaluation answered true |
| GateTheorems.NoEarlyOpening | internal/gate/worker.go:78-113 | Every reachable ready row has all required sources in its met list, whoever opened it, and with a rule the evaluator answered true for it at an earlier step |
| GateTheorems.FlagIsLastSaved | internal/api/pgstore.go:2180-2187 | nl_rule_passed is the answer saved last in the whole run, whatever happened in between |
| GateExceptions.ReadyWithFlagFalse | internal/gate/nl_worker.go:57-93 | For every row of a gate with a rule that can be completed, a run that ends with it ready and nl_rule_passed false |
| GateExceptions.CanEndFalseIff | internal/gate/nl_worker.go:57-93 | Some run ends with the row ready, its gate having a rule and nl_rule_passed not true, if and only if the gate has a rule and every required source has some version that reports to the row |
| GateFlag.OneEvaluationKeepsFlag | internal/gate/nl_worker.go:35-88 | If at most one evaluation of the row was ever inserted and it was never queued again after loading the row, a ready row of a gate with a rule has nl_rule_passed true |
| GateTheorems.NoEarlyTimeout | internal/gate/timeout_worker.go:22-60 | A timed-out row was opened after its deadline, which is its creation time plus the timeout of the gate |
| GateTheorems.PastIsKept | internal/api/pgstore.go:2048-2112 | From any reachable state on: deadlines never move, met grows, missing shrinks, runs and rows stay; an opened row keeps status, met, missing and opening time |
| GateTheorems.NoStuckGate | internal/gate/worker.go:40-123 | Without a rule, when no check job is queued or in flight no row is pending with nothing missing |
| GateStuck.StuckOnlyIf | internal/gate/worker.go:84-101 | With no check job and no evaluation queued or in flight, a row is pending with nothing missing only if its gate has a rule and some step of the run failed to insert its evaluation or ended one on a false answer |
| GateStuck.CanGetStuckIff | internal/gate/worker.go:88-100 | Without any false answer, a row can be left pending with nothing missing and no job to open it if and only if its gate has a rule and every required source has some version that reports to it |
| GateTimeouts.PendingTimesOut | internal/gate/timeout_worker.go:28-53 | From every reachable state without jobs, at any clock behind the deadline of a pending row, one sweep opens it as timed out with one run, whatever is missing and whatever answer was saved, and touches no other row |
| GateTimeouts.AllTimeOut | internal/api/pgstore.go:2125-2133 | From every such state, m undisturbed sweeps with 100 m at least the number of pending rows with timeout_at before the clock open exactly those rows, each with one run |
| GateMarks.MarkedIff | internal/gate/worker.go:128-137 | Over every run, a row that no job is about to mark has agent_triggered set if and only if exactly one run was enqueued for it and no step of the run missed its mark |
| GateReports.NoReportLost | internal/gate/worker.go:40-75 | Over every run, a check job that has ended has its source in the row of its version, or that row was opened without it |
| GateAlone.CheckAlone | internal/gate/worker.go:40-143 | From any state, a check job of a gated source that meets no failure and no other job: what becomes of every column of the row, when it opens it, and the run or the evaluation it enqueues |
| GateAlone.UngatedCheckAlone | internal/gate/worker.go:46-48 | Without an enabled gate the job changes nothing |
| GateAlone.EvalAlone | internal/gate/nl_worker.go:30-119 | From any state, an evaluation of a pending row alone: the answer is saved, and true makes the row ready, marked, with one run |
| GateAlone.LateEvalAlone | internal/gate/nl_worker.go:40-42 | An evaluation of a missing row or one beyond pending changes nothing |
| GateAlone.NotifyAlone | internal/routing/worker.go:270-310 | A notify job that passes its filters enqueues a run exactly when a rule fires and the project has no enabled gate |
| GateAlone.CheckMarks | internal/gate/worker.go:105-137 | Every completable row without a rule has a run in which a check job opens it, enqueues its one run and marks it |
| GateAlone.EvaluationMarks | internal/gate/nl_worker.go:85-110 | Every completable row of a gate with a rule has a run in which an evaluation does so |
| GateAlone.ApprovedCheckMarks | internal/gate/worker.go:84-137 | And one in which a later check job does so, having found the saved answer true |
| GateCompletion.MetHaveReported | internal/gate/worker.go:66-70 | Over every run, a met list is never empty and holds only sources one of whose versions normalizes to that row |
| GateStuck.CompletableGetsStuck | internal/gate/worker.go:88-100 | The run that gets stuck, for any gate with a rule whose row can be completed: all sources report, every insertion of an evaluation job fails, no job is left and no answer was false |
| GateTheorems.TriggerPathsExclusive | internal/routing/worker.go:270-280 | Enabled gate: only gate workers enqueue runs for the project, at most one per version over all jobs; absent or disabled gate: gate workers create no row and enqueue nothing |
| GateExceptions.CanLoseRunIff | internal/gate/worker.go:105-123 | Some run ends with the row ready, no job left and no gate run for it, if and only if the row can be completed at all, with or without a rule |
| GateExceptions.CheckLosesRun | internal/gate/worker.go:105-123 | Without a rule: the run in which the check job that opened the row crashes and its retry finds it open |
| GateExceptions.EvaluationLosesRun | internal/gate/nl_worker.go:85-110 | With a rule: the same of the evaluation job that opened the row |
| GateCompletion.CompleteIsCompletable | internal/gate/worker.go:50-81 | In every run, a row with nothing missing is one for which every required source has some version that reports to it |
| GateCompletion.Completes | internal/gate/worker.go:50-81 | Conversely every such row has a run of reports that completes it, with no answer of the evaluator yet |
| GateInvariant.StepKeeps | internal/gate/worker.go:40-143 | The inductive invariant over table, runs and program counters is kept by every action, and every action only adds to the past |
| GateInvariant.RunKeeps | internal/gate/nl_worker.go:30-119 | The same over every run |
| GateUpserts.PendingAfter | internal/api/pgstore.go:2048-2088 | After any upserts a pending row has a duplicate-free met list of what it had and who reported, in order of arrival, missing is required minus met, and nothing else changed |
| GateUpserts.BuiltBy | internal/api/pgstore.go:2032-2088 | A row built by upserts from nothing: met is the set of reporting sources, missing the rest of required, deadline fixed by the first report |
| GateUpserts.OrderDoesNotMatter | internal/api/pgstore.go:2051-2072 | Two series in which the same sources report end with the same missing list and the same met list up to order |
| GateUpserts.AllMetIff | internal/api/pgstore.go:2086-2087 | The row is complete exactly when every required source has reported |
| GateUpserts.FrozenOnceOpen | internal/api/pgstore.go:2052-2072 | Upserts do not change a row that is no longer pending |
| GateSweep.SelectPage | internal/api/pgstore.go:2125-2154 | The page: pending rows with timeout_at before the clock that are not locked, each once, up to the limit, earliest deadline first, none left out that is due before one returned, and none at all if the page is short |
| GateSweep.BacklogAfter | internal/gate/timeout_worker.go:22-60 | After m sweeps, all but the first 100 m of n expired rows are cleared |
| GateSweep.ClearedExactlyWhen | internal/gate/timeout_worker.go:22-60 | The backlog is empty after ceil(n/100) sweeps and not before |
| GateSweep.EarliestDeadlinesFirst | internal/api/pgstore.go:2130-2133 | A row cleared by an earlier sweep was due no later than one cleared by a later sweep |
| GateSweep.SweepAlone | internal/gate/timeout_worker.go:28-57 | A sweep job without errors or competitors times out and triggers exactly its page and enqueues one run per row, in order |
| GateSweep.JobsClearExactlyWhen | internal/gate/timeout_worker.go:22-60 | In the run of m submitted sweep jobs, n expired rows are cleared if and only if m is at least ceil(n/100), with one run enqueued for every row cleared |
| GateWorkers.StoreIsSafe | internal/gate/worker.go:105-143 | At every point of every execution of the workers the store has at most one run per row, no early opening and no early timeout |
| GateWorkers.GateCheckWorker.Work | internal/gate/worker.go:40-64 | The check worker, under any interference between its statements, is a run of the machine that ends with the job done, or queued again when it reports an error |
| GateWorkers.GateCheckWorker.CheckSource | internal/gate/worker.go:50-70 | After a success the source is in the row of the version that its own mapping, or the default form, makes of the raw one, unless that row was opened without it |
| GateWorkers.GateCheckWorker.RequiredSources | internal/gate/worker.go:53-64 | The explicit list or the first 1000 sources of the project; a failed listing queues the job again |
| GateWorkers.GateCheckWorker.MergeAndDecide | internal/gate/worker.go:66-81 | The upsert, and going on from the row it returned |
| GateWorkers.GateCheckWorker.Decide | internal/gate/worker.go:78-103 | Stop, queue an evaluation, or open the gate, by the row the upsert returned |
| GateWorkers.GateCheckWorker.OpenAndTrigger | internal/gate/worker.go:105-123 | Only the call that opened the row triggers the agent |
| GateWorkers.GateCheckWorker.TriggerAgent | internal/gate/worker.go:128-143 | Enqueue, then mark; a failed enqueue ends the job without marking |
| GateWorkers.GateNLEvalWorker.Work | internal/gate/nl_worker.go:30-42 | The evaluation worker is a run of the machine; it stops on rows beyond pending |
| GateWorkers.GateNLEvalWorker.LoadGate | internal/gate/nl_worker.go:44-51 | A missing gate or a failed read queues the job again |
| GateWorkers.GateNLEvalWorker.EvaluateRule | internal/gate/nl_worker.go:58-62 | One evaluation, whose answer is the one recorded |
| GateWorkers.GateNLEvalWorker.Save | internal/gate/nl_worker.go:64-83 | The answer is saved whatever it is; only true goes on |
| GateWorkers.GateNLEvalWorker.OpenAndTrigger | internal/gate/nl_worker.go:85-119 | Only the call that opened the row triggers the agent; sources are not checked again |
| GateWorkers.GateTimeoutWorker.Work | internal/gate/timeout_worker.go:22-60 | The sweep worker is a run of the machine over one page of expired rows; it fails exactly when the listing fails |
| GateWorkers.GateTimeoutWorker.ForceOpenAll | internal/gate/timeout_worker.go:28-57 | The loop handles every row of the page in order, whatever happens to the rows before it |
| GateWorkers.GateTimeoutWorker.ForceOpen | internal/gate/timeout_worker.go:29-53 | One row: an error or a lost race moves on to the next row |
| GateWorkers.GateStore.UpsertVersionReadiness | internal/api/pgstore.go:2032-2088 | The conditional merge of met and missing as one statement, and the row and completeness it returns |
| GateWorkers.GateStore.InitialMissing | internal/api/pgstore.go:2036-2042 | The loop that computes required minus the reporting source |
| GateWorkers.GateStore.OpenGate | internal/api/pgstore.go:2093-2103 | Compare-and-set from pending; says whether this call won |
| GateWorkers.GateStore.MarkAgentTriggered | internal/api/pgstore.go:2106-2112 | Sets agent_triggered and nothing else |
| GateWorkers.GateStore.UpdateNLRulePassed | internal/api/pgstore.go:2181-2187 | Overwrites nl_rule_passed and nothing else, in any status |
| GateWorkers.GateStore.EnqueueAgentRun | internal/api/pgstore.go:1300-1329 | Adds exactly one run, or none if the transaction does not commit |
| GateWorkers.GateStore.ListExpiredGates | internal/api/pgstore.go:2125-2154 | Returns a page of expired rows as SelectPage describes it |
| Ingestion.SerialNotifies | internal/ingestion/pgstore.go:37-121 | Serial ingests, committed or not: the row is that of the last commit; notify jobs number one plus the committed updates whose non-empty changelog differed from the stored one; one gate check |
| Ingestion.IngestAccounts | internal/ingestion/pgstore.go:57-109 | One ingest extends the account of every release by exactly its own result |
| Ingestion.IngestInColumns | internal/ingestion/pgstore.go:44-109 | One ingest, field by field: raw_data holds the metadata and the changelog with invalid bytes replaced, released_at the timestamp; two jobs for a new release, one for an added or changed changelog, else none |
| Ingestion.StorableIff | internal/db/migrations.go:55-56 | The table can hold a result exactly if its version has at most 100 characters and nothing stored contains a NUL |
| Ingestion.Settles | internal/ingestion/service.go:20-36 | After a batch with distinct versions every row is as its result left it |
| Fetching.DecodedIsUtf8 | internal/ingestion/github.go:119-120 | What the JSON decoder yields is valid UTF-8, whatever bytes and escapes the response holds |
| Fetching.UnquoteInvertsEscapes | internal/ingestion/github.go:119-120 | Any text comes back from its UTF-16 escapes, surrogate pairs included |
| Fetching.UnquoteInvertsQuote | internal/ingestion/pgstore.go:52 | Reading back a marshalled string gives it with invalid bytes replaced, and gives the string itself exactly when it was valid UTF-8 |
| Fetching.FetchedPasses | internal/ingestion/service.go:20-36 | Any series of passes over a fetched batch with distinct versions, each with its own faults, leaves the rows and jobs of a single pass up to where the furthest of them got |
| Fetching.FetchedRerun | internal/ingestion/service.go:20-36 | Such a series followed by an undisturbed pass leaves the same rows and the same jobs as one undisturbed pass alone |
| Fetching.FetchedAgain | internal/ingestion/pgstore.go:85-109 | After an undisturbed pass, further passes over the same batch change no row and add no job, wherever they fail |
| Fetching.GitHubSource.FetchReleases | internal/ingestion/github.go:124-153 | Exactly the published releases with a tag, in order, field by field, and the set of their versions |
| Fetching.GitHubSource.FetchNewReleases | internal/ingestion/github.go:72-102 | Those results, then in order one for every tag name no published release covers, field by field; versions are distinct and changelogs decoded, as FetchedRerun needs |
| Ingestion.SecondPass | internal/ingestion/pgstore.go:85-98 | For arbitrary Go strings: a second pass over a settled batch changes no row and adds a notify job exactly for each changelog with invalid UTF-8 |
| Ingestion.RerunIff | internal/ingestion/service.go:20-36 | For arbitrary Go strings: a batch that meets any faults and is run again without leaves the rows of one undisturbed pass, and its ledger if and only if the changelogs the first pass stored are valid UTF-8 |
| Ingestion.StoredIff | internal/db/migrations.go:55-56 | An undisturbed pass over a batch stores exactly the results before the first one the table cannot hold (version over 100 characters, or a NUL) |
| Ingestion.AppliedWithinReach | internal/ingestion/service.go:20-25 | No pass, whatever its faults, gets beyond the first result the table cannot hold, and an undisturbed one gets that far |
| Ingestion.PgStore.IngestRelease | internal/ingestion/pgstore.go:37-121 | One transaction: row, jobs and result for new, updated and unchanged releases, or nothing at all; always nothing for a result the table cannot hold |
| Ingestion.Service.ProcessResults | internal/ingestion/service.go:20-36 | Stops at the first error with exactly the prefix before it in the store, and that result too if its commit took effect |
| IngestTransactions.OneGateCheckPerRelease | internal/ingestion/pgstore.go:65-109 | From the empty database, over every interleaving of transactions, committed or aborted: exactly one gate check and one first notify job if the release exists, none otherwise, and no job is ever withdrawn |
| IngestTransactions.StepKeeps | internal/db/migrations.go:59 | The unique constraint keeps the ledger: each action preserves the invariant over rows, jobs and open transactions |
| IngestTransactions.AloneIsIngest | internal/ingestion/pgstore.go:37-121 | A transaction that runs alone has the effect of the serial ingest |
| IngestTransactions.OverlappingUpdatesNotifyTwice | internal/ingestion/pgstore.go:57-98 | Two overlapping updates with the same changelog both notify, where one after the other only the first would |
| Polling.IntervalIsExactIff | internal/ingestion/orchestrator.go:67 | The product of seconds and a second fits int64 exactly up to 9223372036 seconds, hence for every 32-bit interval |
| Polling.PollsAreSpaced | internal/ingestion/orchestrator.go:64-72 | Consecutive polls of a source start at least its interval after the stamp of the one before |
| Polling.UnstampedIsPolledAgain | internal/ingestion/orchestrator.go:101-108 | A failed status update makes the very next pass poll the source again |
| Polling.DuePassPolls | internal/ingestion/orchestrator.go:66-70 | A later pass polls the source exactly when an interval has gone by since the stamp |
| Polling.NextPassIsPrompt | internal/ingestion/orchestrator.go:52-75 | With passes at most d apart and a positive interval, the polling pass starts less than interval + d after the stamp |
| Polling.NextPollIsPrompt | internal/ingestion/orchestrator.go:52-75 | The poll itself starts less than interval + 2d after the stamp |
| Polling.PassBoundIff | internal/ingestion/orchestrator.go:64-72 | For every interval, d > 0 and b: all schedules poll in a pass that starts less than b after the stamp if and only if b is at least interval + d (an interval that is not positive counting as 1) |
| Polling.PollBoundIff | internal/ingestion/orchestrator.go:64-73 | The same for the start of the poll itself and interval + 2d |
| Polling.PromptIff | internal/ingestion/orchestrator.go:64-73 | Less than interval + d after the stamp: for passes in all schedules if and only if the interval is positive; for polls never in all schedules |
| Polling.PromptAtOneTimeIff | internal/ingestion/orchestrator.go:64-73 | The same when all passes start at one time |
| Polling.LatestPoll | internal/ingestion/orchestrator.go:64-73 | For every interval and d > 0, a schedule that attains both bounds |
| Polling.Orchestrator.PollAll | internal/ingestion/orchestrator.go:52-75 | One pass extends the schedule of every listed source by one entry at the clock read at its start, polled exactly when due |
| Polling.Orchestrator.Visit | internal/ingestion/orchestrator.go:65-73 | One source: skipped or polled, the other sources untouched |
| Polling.Orchestrator.PollSource | internal/ingestion/orchestrator.go:85-108 | Stamps last_polled_at after the fetch and before the results are processed, unless the update fails |
| Todos.CascadeIsExact | internal/api/pgstore.go:1730-1798 | A cascade leaves no eligible todo in reach and changes nothing but the target and the eligible todos in reach |
| Todos.CascadeInColumns | internal/api/pgstore.go:1730-1798 | In table columns, for both kinds of todo: the target is raised, and another todo is if and only if it is pending (or acknowledged, when resolving), of the same source_id or project_id, and dated no later; nothing else changes |
| Todos.ReachedIff | internal/api/pgstore.go:1746-1758 | The reach of a cascade in the joins and date columns of the two subqueries |
| Todos.ClosedWithoutCascadeIff | internal/api/pgstore.go:1740-1760 | With the cascade lost, the result is closed exactly when nothing else in reach was eligible |
| Todos.InterleavingsAgree | internal/api/pgstore.go:1730-1798 | Any number of cascading acknowledges, or of resolves, whose statements interleave in any order and at any times: the statuses depend only on which statements there are |
| Todos.SameLevelCommutes | internal/api/pgstore.go:1765-1798 | Two cascading acknowledges, or two cascading resolves, give the same statuses in either order |
| Todos.MixedCommutesIff | internal/api/pgstore.go:1730-1798 | A cascading acknowledge and a cascading resolve commute exactly when the resolve does not reach the acknowledged todo |
| Todos.ViewIff | internal/api/pgstore.go:1556-1651 | In table columns: a view is a set of pending todos of releases with, for every such todo, one of the same source_id dated no earlier, and none above another |
| Todos.ViewExists | internal/api/pgstore.go:1630-1651 | The aggregated pending list exists: one row per source with a pending todo of a release, its latest |
| Todos.SemanticKeepsView | internal/api/pgstore.go:1556-1557 | The list filters out todos of semantic releases, and a cascade from one of them changes no row |
| Todos.AcknowledgeRemovesSource | internal/api/pgstore.go:1730-1760 | With every release dated, a cascading acknowledge of a row of the view gives exactly the views without that row |
| Todos.AcknowledgeRemovesIff | internal/api/pgstore.go:1746-1758 | With or without dates, the acknowledge removes the source from the view exactly when the cascade dates no pending todo of the source after the row |
| Todos.UndatedReleasesDisagree | internal/api/pgstore.go:1628 | Without released_at the view and the cascade use different dates and the source can stay in the view |
| Todos.ReopenUndoes | internal/api/pgstore.go:1800-1810 | Reopening undoes any series of acknowledges and resolves of a todo exactly when it was pending before them |
| Todos.TodoStore.RaiseTodo | internal/api/pgstore.go:1730-1798 | Result and every row, in table columns, for every way the two statements can end; after a success, exactly when nothing eligible is left in reach |
| Todos.TodoStore.SetOlder | internal/api/pgstore.go:1742-1759 | The cascading statement raises exactly the eligible todos of other releases in reach |
| Todos.TodoStore.ReopenTodo | internal/api/pgstore.go:1800-1810 | Back to pending without timestamps, that todo alone |
| Todos.TodoStore.CreateReleaseTodo | internal/api/pgstore.go:1814-1824 | At most one todo per release; one that is there keeps its status |
| NotifyWorkers.NotifyWorker.Work | internal/routing/worker.go:84-242 | When it fails; nothing for a release the filters hold back; otherwise the todo, exactly the subscriptions whose channel loads and has a sender, in order, and a run exactly if the project has no enabled gate, a rule fires and the insertion takes effect |
| NotifyWorkers.EffectsNotify | internal/routing/worker.go:156-242 | The same of every execution that returns without an error, stated without the function that lists its effects |
| NotifyWorkers.NotifyWorker.SendAll | internal/routing/worker.go:156-228 | One attempt per subscription whose channel loads and has a sender, in order |
| NotifyWorkers.NotifyWorker.CheckRules | internal/routing/worker.go:263-314 | At most one run, only without an enabled gate and only if a rule fires |
| NotifyWorkers.AttemptAt | internal/routing/worker.go:156-180 | Where the attempt for each subscription stands among the effects |
| NotifyWorkers.AttemptsAreDeliverable | internal/routing/worker.go:156-180 | Nothing else is attempted, and no place of the list twice |
| NotifyWorkers.TodoThenNotify | internal/routing/worker.go:127-149 | The todo comes first and the run last, nothing happens twice in one execution; an execution that fails did its todo at most; a gated project gets no run |
| NotifyWorkers.TodoComesFirst | internal/routing/worker.go:127-138 | Wherever an execution crashes, whatever it attempted or started has a verified todo before it |
| NotifyWorkers.NotifiesOnceIff | internal/routing/worker.go:84-242 | A job repeated after errors or crashes will attempt every place of the list at most once and start at most one run, whatever its next execution does, if and only if no execution so far got beyond its todo |
| NotifyWorkers.CrashNotifiesTwice | internal/routing/worker.go:207-231 | After a crash behind an attempt or a run, an undisturbed next execution repeats it |
| NotifyWorkers.ErrorsNotifyOnce | internal/routing/worker.go:91-149 | Reported errors, however many, never lead to a second attempt of a place or a second run |
| Broadcasting.InOrderAndAccounted | internal/api/events.go:53-63 | For every history of a client: received plus buffered is an in-order subsequence of what was sent; sent is received plus buffered plus dropped; at most 64 buffered |
| Broadcasting.DropsIff | internal/api/events.go:56-62 | Something is dropped exactly when some send finds 64 events buffered |
| Broadcasting.LosslessIff | internal/api/events.go:51-63 | A client gets exactly what was sent if and only if no send finds its buffer full |
| Broadcasting.ClientHistory | internal/api/events.go:19-63 | Over every history of a broadcaster: what a client received and has buffered is an in-order subsequence of the events sent since it subscribed, all of which are received, buffered or dropped; none is dropped if and only if no send finds its buffer full |
| Broadcasting.Broadcaster.Send | internal/api/events.go:53-63 | The history of every subscribed client gains exactly this event, wherever receives fall in between |
| Broadcasting.Broadcaster.Subscribe | internal/api/events.go:33-39 | A fresh open channel with an empty history joins the clients |
| Broadcasting.Broadcaster.Unsubscribe | internal/api/events.go:42-49 | Closes a registered channel once; a second call does nothing; buffered events stay |
| Broadcasting.Channel.TrySend | internal/api/events.go:57-61 | The non-blocking send to an open channel |
| StateStores.StateStore.Create | internal/auth/state.go:32-55 | Refuses exactly when maxSize states are live or randomness fails; otherwise adds the state with its expiry to the set |
| StateStores.StateStore.Consume | internal/auth/state.go:58-68 | True exactly when the state was created, not consumed and not expired |
| StateStores.StateStore.Sweep | internal/auth/state.go:36-42 | After the sweep the entries are exactly the live states of the unbounded set |
| StateStores.UsableIff | internal/auth/state.go:31-68 | For every history of creations and attempts to consume: a state can be consumed exactly when it was created, nothing has consumed it since, and its time has not run out |
| StateStores.LiveIff | internal/auth/state.go:36-46 | The states that count towards the limit are those created, not consumed since, and not past their expiry |
| StateStores.ConsumedForGood | internal/auth/state.go:66 | Once consumed, in time or not, a state never can be again |
| StateStores.ForgettingIsSafe | internal/auth/state.go:38-42 | Sweeping lazily never changes what can be consumed from then on |
| StateStores.SweptIsLive | internal/auth/state.go:36-46 | What a sweep keeps is what the unbounded set still holds live |
| Templates.AgreesIff | internal/gate/version.go:19-28 | For every template and any number of groups: the loop of ReplaceAll is one simultaneous substitution for all dollar-free captures if and only if the template is unambiguous |
| Templates.AlwaysAgreesIff | internal/gate/version.go:19-28 | The same for all captures whatsoever, if and only if the template uses no group before the last, and none at all from ten groups on |
| Templates.LoopIsSimultaneous | internal/gate/version.go:19-28 | Over an unambiguous template and dollar-free captures, the loop is one simultaneous substitution |
| Templates.LoopReadsOneDigit | internal/gate/version.go:22-25 | With ten groups or more and no two dollars before a digit other than 0, the loop substitutes one-digit placeholders and nothing else |
| Templates.DollarsMatter | internal/gate/version.go:22-25 | Instances: templates and captures for which the loop is, or is not, the simultaneous substitution |
| Templates.ApplyTemplate | internal/gate/version.go:19-25 | The loop itself, and what it means over an unambiguous template |
| VersionTemplate.NormalFormIff | internal/gate/version.go:14-44 | The normalized version is: the filled template, if this source has a mapping whose pattern matches with a group and something is left; else the default form, given character by character. The template is filled simultaneously if it is unambiguous and the captures hold no dollar |
| VersionTemplate.OnlyOwnMapping | internal/gate/version.go:39-44 | Mappings of other sources do not matter |
| VersionTemplate.GoMatchesSqlIff | internal/db/migrations.go:357-358 | The Go form and the SQL form agree exactly on versions that do not start with two v/V letters |
| VersionTemplate.IdempotentIff | internal/gate/version.go:32-35 | The default form is idempotent exactly on versions that are not restrippable |
| VersionTemplate.LinkedIff | internal/agent/orchestrator.go:436-442 | A listed release that normalizes to a row's version is linked to its semantic release, exactly when the version is not restrippable |
| AgentRules.ParseInvertsPrint | internal/routing/rules.go:40-55 | parseVersion returns the numbers that were printed, each as the nearest int64, with or without v, for every suffix that is empty or starts with a dash |
| AgentRules.ParseIsExact | internal/routing/rules.go:40-55 | Below 2^63 the numbers come back exactly |
| AgentRules.RulesIff | internal/routing/rules.go:13-37 | When the rules fire for one printed version after another: by major, by minor, by a security word in any mixture of cases, by the pattern |
| AgentRules.FirstRulesIff | internal/routing/rules.go:13-37 | The same for the first version of a source |
| AgentRules.HugeNumbersSaturate | internal/routing/rules.go:43-45 | Every number above int64 reads as the largest int64 |
| AgentRules.MinorRuleExactIff | internal/routing/rules.go:21-26 | For all numbers, each as the nearest int64: the minor rule fires exactly on an increase of (major, minor), if and only if it is not a fall of major with a rise of minor |

## Left out

- The gate_events audit log: its writes change nothing else and their errors are only logged.
- Row identity: a version_readiness row is identified with its unique (project, version), a release with its unique (source, version); generated ids are not modelled.
- River: attempts, snoozing, back-off and the unique-job options; a failed or crashed job is simply queued again.
- PostgreSQL locking beyond row locks and unique keys; rows skipped by SKIP LOCKED are an arbitrary set.
- The mutexes of the broadcaster and the state store: their methods are atomic, and clients receive between the sends to two clients.
- Regular expressions, the evaluator and the senders: oracles. Of the fetches, only the decoding of strings and the results of a GitHub source are modelled.
- Text outside ASCII in lower-casing, and pattern compilation.
- GateSweep.SelectPage: ties between equal deadlines may be broken either way, as in SQL.
- Todos.ViewExists: the optional filters of the list (project, provider, urgency, dates), statuses other than pending, and its pages are not modelled.
- Ingestion.StoredIff: size limits of PostgreSQL other than the length of a version, and of the database itself, are not modelled.
- Manual agent runs, gate and project CRUD, handlers, registry clients, onboarding, message formatting, the user interface.
- The SQLite store for stealth mode, and the static source list of the orchestrator.
- Configuration edits and row deletion during a run.
