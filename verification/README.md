# Verified model of the workflow engine

This project models the hard parts of a workflow system and proves what they promise: the
engine's transactions over its tables, the step interpreter that runs inside them, the workers
that lease jobs, the Kafka runner, the two definition validators, the modeller's graph
algorithms, and the semantics of transformations, decision tables and the expression cache.

## How the parts fit together

| files | subject |
|---|---|
| `Values`, `Definitions`, `Database` | variables, decoded definitions, the tables and their row operations |
| `Transformations`, `DecisionTables`, `TableLaws` | what the two data steps compute; tables by the text of their codes and cells |
| `Interpreter`, `Transactions` | the specification: `Dispatch` is one dispatch inside a transaction, `Next` one whole transaction, `IsRun` any interleaving of them from the empty database |
| `Service` | the engine in its own form: methods that update the instance and the rows in place, proved to do what `Interpreter` and `Transactions` say, to keep the table invariant and to undo nothing, and to give callers what `TransactionEffects` and `HandlerEffects` describe |
| `Effects`, `TransactionEffects`, `HandlerEffects` | what a dispatch, a transaction and a handler leave behind, by names and values and without the interpreter's own functions |
| `Plans` | one transaction as a first stage and at most one dispatch; one handler as a first stage and the steps it hands over to |
| `Invariants`, `Preservation`, `Evolution`, `EventProofs`, `EngineTheorems` | the table invariant, that every transaction keeps it and undoes nothing, and what follows for whole runs |
| `Termination`, `Divergence`, `Resolution`, `Housekeeping`, `Joins`, `JoinOnce`, `Timeline`, `Acceptance` | properties of dispatches and runs |
| `DeliveryAttempts`, `LeaseLoop`, `Leases` | the lease protocol between workers and engine |
| `Kafka` | the Kafka runner and its protocol |
| `Graphs`, `Modeller`, `CycleSearch`, `Renaming` | definitions in the modeller and their graphs |
| `EngineValidator`, `ModellerValidator`, `ValidatorAgreement` | the two validators and how they compare |
| `ProgramCache` | the cache of compiled expressions |

`dafny verify dfyconfig.toml` checks everything.

## What the model assumes

- Each `RunInTx` body is atomic: it commits a new database state or leaves the old one. Runs
  interleave any number of transactions of any number of replicas; every transaction may also
  abort. The row operations follow the contracts in the store interfaces and the SQL behind
  them.
- Ids are fresh numbers, the clock is the database clock in milliseconds, numbers are exact.
- The expression language is a deterministic function of text and variables; the ISO-8601
  duration parser, schema validation, the text of `now()` and Go's map iteration orders are
  parameters, so every statement holds for all of them.
- The recursion of `dispatchStep` is unbounded in the engine. The specification counts depth;
  `Termination.DepthIrrelevant` shows that every depth at which a dispatch ends gives the same
  outcome, so the count adds no outcome of its own.
- Handlers promise data and rows for a state in which their step was just entered and the stored row
  matches memory. Dispatching a step enters it first, and each transaction stores what it changes in
  memory, so the transactions promise the same without that condition.
- Four columns are history that no operation reads: the newest attempt of an execution, how
  often a job was enqueued, how often an output was merged, and which join executions went on.
- Lease protocol: one shared clock; a worker reports on a job it polled only after its handler
  returned; the operator's unconditional job retry is excluded. Kafka: fetching resumes at the
  committed offset, a partition is handed on only after the revoke callback returned, and a
  callback returns no error only after the engine confirmed it.

## Where the code does not give what one might expect

Each of these is a lemma. Where the property is about the inputs of one operation the exact
condition is proved, in both directions; where a run is involved the text says what is.

- The order of map iteration decides the result of a TRANSFORMATION whose entries read each
  other's targets, and of a rule with both a failing and a false cell. Exact:
  `Transformations.OrderIndependentIff`, `DecisionTables.MatchOrderIndependentIff`.
- The A hit policy can depend on the order of the matched rules. Exact: it does not when all
  their rows are equal or none agrees with all the others, and otherwise it does
  (`DecisionTables.AnyOrderFreeIff`).
- The engine's validator accepts definitions with a cycle of immediate steps, and then a
  dispatch may never end (`Acceptance.AcceptedMayNotTerminate` is a small one). Exact when the
  immediate steps are decisions and gateways: an evaluator that makes the dispatch endless
  exists exactly when some set of true expressions selects branches that lead to a cycle
  (`Divergence.EndlessIff`, `Acceptance.AcceptedEndlessIff`). With transformations, tables and
  joins one direction is proved: no cycle, no endless dispatch
  (`Termination.DispatchTerminates`). The converse is false there: transformations and tables
  change the variables the next decision reads, and a join may wait, so a cycle through them
  need not be walked for ever.
- The engine's validator does not resolve `conditionalNextSteps` outside DECISION steps although
  the interpreter follows them on any finished step (`Acceptance.AcceptedMayDangle` is a run).
  Exact for finishing a step, from every state: some evaluator makes it dispatch an undeclared
  step exactly when a branch that can be taken names one (`Acceptance.FinishingDanglesIff`). For
  whole runs one direction is proved: if stray branches resolve, no run dispatches an undeclared
  step (`Acceptance.AcceptedRunsResolve`); the converse would also need a run that reaches the
  step, which its definition need not have.
- It accepts a gateway that lists an entry twice; the join counts distinct entries against the
  length of the list, so that join never goes on (`Acceptance.RepeatedAccepted`,
  `Acceptance.RepeatedEntryNeverJoins`; exact: `Joins.JoinTest`).
- The modeller passes SERVICE_TASKs without a jobType, which the engine refuses. Among the
  documents the modeller passes without errors and without unknown fields, nothing else makes
  the engine refuse one (`ValidatorAgreement.Agreement`). The engine in turn accepts documents
  the modeller refuses, such as nested gateways.
- Renaming to an id that is free but already mentioned cannot be undone by renaming back. Exact:
  `Renaming.RenameBack`.
- Cache keys of the two coercion settings can collide (`ProgramCache.KeysCollide`); the flush on
  every switch keeps hits correct.

## Model

| member | source | states |
|---|---|---|
| Service.Engine.DispatchStep | workflow-engine/internal/instance/lifecycle.go:320-356 | enters the step, updates the current steps and routes, for every step type and error; when it returns normally the execution under the next free id is the one of that step, variables nobody on the way writes are unchanged in the row and in new jobs, and the other current steps stay |
| Service.Engine.RouteStep | workflow-engine/internal/instance/lifecycle.go:359-382 | one handler per step type, an error for any other type |
| Service.Engine.AdvancePastStep | workflow-engine/internal/instance/lifecycle.go:387-423 | leaves the finished step, recomputes the status, then goes on with the first true branch or the next step, fails the instance when no branch is true, or stops |
| Service.Engine.HandleServiceTask | workflow-engine/internal/instance/handlers.go:18-40 | exactly one job more, UNLOCKED under a fresh id with the step's whole retry budget and the instance's variables, seen once by the dispatcher; no other job, task, execution or instance changes |
| Service.Engine.HandleUserTask | workflow-engine/internal/instance/handlers.go:42-52 | exactly one open task more; of all instances only this one becomes WAITING, in memory too; no job or execution changes |
| Service.Engine.HandleDecision | workflow-engine/internal/instance/handlers.go:54-81 | the execution is COMPLETED and the target of the first true branch entered; when no branch is true after false ones only, execution and instance fail and nothing is entered |
| Service.Engine.HandleTransformation | workflow-engine/internal/instance/handlers.go:83-125 | the values of the entries in the given order are merged in memory and row alike, the execution is COMPLETED and the next step entered; or execution and instance fail |
| Service.Engine.HandleWait | workflow-engine/internal/instance/handlers.go:127-133 | of all instances only this one becomes WAITING, in memory too; nothing else but its timers changes |
| Service.Engine.HandleParallelGateway | workflow-engine/internal/instance/handlers.go:135-146 | the gateway is COMPLETED and every branch has an execution, in the order of the list |
| Service.Engine.HandleJoinGateway | workflow-engine/internal/instance/handlers.go:148-173 | goes on with the next step exactly when the entries of the gateway are distinct and all COMPLETED; otherwise only its own execution is closed |
| Service.Engine.HandleEnd | workflow-engine/internal/instance/handlers.go:175-193 | exactly this instance is COMPLETED and no longer at the step, its execution closed; a chaining definition has a request with its target, the variables and the business key; earlier requests and all jobs, tasks and timers stay |
| Service.Engine.HandleDecisionTable | workflow-engine/internal/instance/decision_table.go:27-137 | merges exactly what the cells, the outputs and the text of the hit-policy code give (`TableLaws.TableByCode`) and enters the next step, or fails execution and instance |
| Service.Engine.FailInstance | workflow-engine/internal/instance/handlers.go:195-204 | exactly the RUNNING executions of the step fail, exactly this instance becomes FAILED, in memory too, and nothing else changes |
| Service.Engine.ScheduleBoundaryEvents | workflow-engine/internal/instance/handlers.go:208-224 | one new row per TIMER event, in order, due one parsed duration from now, with that event's target and interrupting flag; raises exactly when some duration does not parse; nothing else changes |
| Service.RecomputeStatus | workflow-engine/internal/instance/step_helpers.go:63-75 | WAITING exactly when a current step is a USER_TASK or a WAIT, otherwise ACTIVE |
| Definitions.RemoveStep | workflow-engine/internal/instance/step_helpers.go:51-61 | drops every occurrence, keeps the others |
| Definitions.WithoutStepConcat | workflow-engine/internal/instance/step_helpers.go:51-61 | removal works part by part, so the ids that stay keep their order |
| Service.Engine.StartInstance | workflow-engine/internal/instance/lifecycle.go:55-124 | refused exactly for no steps, non-conforming input or a key in use; else the new instance has the definition, the normalised key, no origin and the caller's variables, its first step is entered, and the first job carries the variables; the invariant is kept |
| TransactionEffects.StartLaunches | workflow-engine/internal/instance/lifecycle.go:55-124 | exactly when a start is refused, and what a committed one stored and entered, by names and values |
| Service.Engine.CompleteJobAndAdvance | workflow-engine/internal/instance/lifecycle.go:130-232 | a report that may be made closes attempt and execution, and the instance goes on with every name of the output and otherwise its old values; a schema violation cancels the attempt and fails execution and instance; any other report changes nothing |
| TransactionEffects.CompleteReports | workflow-engine/internal/instance/lifecycle.go:159-224 | a committed report, accepted or not, by the rows: fence, closed attempt, merged output, where the instance goes on |
| TransactionEffects.LaunchedExactly | workflow-engine/internal/instance/handlers.go:18-52 | when the transaction goes on with a parked step or an END, the row, every new job and every new request hold exactly the variables it went on with |
| Service.Engine.FireBoundaryEvent | workflow-engine/internal/instance/lifecycle.go:236-288 | before its time, or a second time, nothing changes; a due timer is consumed and its target entered, an interrupting one having failed its execution and cancelled exactly its live jobs and open tasks |
| TransactionEffects.FireStrikes | workflow-engine/internal/instance/lifecycle.go:236-288 | what a committed firing did: nothing before the time, else the timer consumed, the parent struck or not, the target entered |
| Service.Engine.CompleteUserTaskAndAdvance | workflow-engine/internal/instance/complete_user_task.go:16-79 | refused exactly without an open task of a USER_TASK of an instance in flight; else exactly the open tasks and RUNNING executions of the step are closed and the instance goes on with the variables merged |
| Service.Engine.SignalWaitAndAdvance | workflow-engine/internal/instance/signal_wait.go:23-88 | refused exactly unless the WAIT is current and running in an instance in flight; else its RUNNING executions are closed and the instance goes on with the variables merged |
| Service.Engine.RetryFailedStep | workflow-engine/internal/instance/retry_step.go:38-115 | refused exactly unless the instance is FAILED, the newest execution of the step failed and the key is free; else ACTIVE again with the patch merged and the step entered once more |
| Service.Engine.StartChainedWorkflow | workflow-engine/internal/instance/chain.go:60-86 | a claimed request is left alone; else refused exactly when target or input do not fit; else the child has the request's variables and key and the source as origin, and the request names it |
| Service.Engine.ProcessPendingChains | workflow-engine/internal/instance/chain.go:43-58 | every request is tried in turn whatever happened before; the first failure is returned, and without one every request has its child |
| Service.Engine.CompleteWithoutAdvancing | workflow-engine/internal/job/complete.go:18-43 | an accepted callback closes attempt and execution, leaves every instance alone, and no later report on the job is accepted from anyone; a stale one changes nothing |
| Service.Engine.Fail | workflow-engine/internal/job/complete.go:48-79 | an accepted failure retires the job for good and leaves either exactly one successor with one retry less or a failed execution and instance; a stale one changes nothing; the invariant is kept and nothing undone |
| Service.Engine.ReplaceAttempt | workflow-engine/internal/job/retry.go:21-45 | exactly a LOCKED attempt of a running execution is cancelled, for the sweeper only after its lease lapsed, and the same work with the same retries enqueued once under the next id |
| Service.Engine.EnqueueReplacement | workflow-engine/internal/job/retry.go:49-59 | the same work once more under a fresh id, UNLOCKED, seen once by the dispatcher and newest of its execution; all other rows unchanged |
| Service.Engine.ExtendLease | workflow-engine/internal/job/heartbeat.go:19-48 | exactly the owner of an unexpired lease extends it; stored and returned is the later of the old expiry and now plus the seconds asked for, 30 for 0 |
| TransactionEffects.PollLeases | workflow-engine/internal/storage/postgres/job_store.go:164-189 | a poll locks exactly the claimed UNLOCKED jobs for the worker, until now plus the seconds asked for; other requests than 0 or 5 to 3600 seconds are refused |
| Service.Engine.CancelInstance | workflow-engine/internal/storage/postgres/instance_store.go:157-173 | exactly an instance in flight becomes CANCELLED and nothing else changes |
| Service.Engine.GetExpiredLeases | workflow-engine/internal/storage/postgres/job_store.go:147-162 | lists exactly the LOCKED jobs whose lease ended before now |
| Service.Engine.SweepExpiredLeases | workflow-engine/internal/job/lease_sweeper.go:40-66 | with the lock, no active execution is left behind a lapsed lease, and the count is the number of replacements; without it nothing changes |
| Service.SweepComplete | workflow-engine/internal/job/lease_sweeper.go:40-66 | once every expired id was swept, no active execution is behind a lapsed lease |
| Service.EndedKeeps | workflow-engine/internal/instance/lifecycle.go:159-224 | however a transaction ends, the invariant holds, nothing settled is undone, and it is one step of the engine's runs |
| EventProofs.NextKept | workflow-engine/internal/instance/store.go:1-194 | every transaction keeps the table invariant and undoes nothing |
| Preservation.DispatchGood | workflow-engine/internal/instance/lifecycle.go:320-382 | one dispatch keeps the table invariant, only inserts rows, and rewrites only its own instance's row |
| Effects.DispatchEffects | workflow-engine/internal/instance/lifecycle.go:320-382 | one dispatch from any state enters its step under the next free id, keeps closed executions and all older jobs, tasks and timers, sets new timers for events of new executions one duration from now, and apart from entered steps keeps the current ones |
| Effects.DispatchCarries | workflow-engine/internal/instance/handlers.go:18-125 | from any state: a variable that no step the dispatch can run through writes has the same value in memory, in the row, in the payload of new jobs and in new chain requests |
| HandlerEffects.RouteHandles | workflow-engine/internal/instance/handlers.go:54-173 | what each immediate handler does to its execution, to the data and to what is entered next |
| EngineTheorems.RunInv | workflow-engine/internal/instance/lifecycle.go:55-424 | the table invariant holds in every state of every run |
| EngineTheorems.OneLiveAttempt | workflow-engine/internal/job/retry.go:14-59 | at most one UNLOCKED or LOCKED job per execution, exactly one for a RUNNING SERVICE_TASK, every job row enqueued exactly once |
| EngineTheorems.SpentForever | workflow-engine/internal/instance/job_execution.go:13-27 | after a job is retired or its lease lapsed, no complete, fail or heartbeat for it changes anything in any continuation |
| EngineTheorems.OutputMergedOnce | workflow-engine/internal/instance/lifecycle.go:159-224 | an execution's output is merged at most once in a run |
| EngineTheorems.LeavesRunningOnce | workflow-engine/internal/boundary/store.go:22-31 | an execution that left RUNNING never changes again |
| Timeline.NoEarlyTimer | workflow-engine/internal/instance/handlers.go:208-224 | in every run each timer was set for a TIMER event of its step to come due one duration after its insertion, and a consumed one has come due |
| Timeline.AttemptsNumbered | workflow-engine/internal/instance/lifecycle.go:320-356 | in every run the executions of a step are numbered 1, 2, 3 and so on in the order of entering |
| EngineTheorems.SettledForever | workflow-engine/internal/instance/lifecycle.go:295-298 | COMPLETED and CANCELLED instances keep their status |
| EngineTheorems.OnlyParkedRunning | workflow-engine/internal/instance/handlers.go:54-193 | between transactions only SERVICE_TASK, USER_TASK and WAIT executions are RUNNING |
| EngineTheorems.CurrentStepsDeclared | workflow-engine/internal/instance/step_helpers.go:37-61 | current_step_ids never holds a duplicate or an undeclared step |
| EngineTheorems.BusinessKeysDistinct | workflow-engine/internal/instance/lifecycle.go:111-119 | in-flight instances of one definition never share a business key |
| EngineTheorems.RetryBudget | workflow-engine/internal/job/complete.go:62-77 | retries left plus FAILED attempts equal the step's retryCount while an attempt is live; FAILED attempts never exceed retryCount + 1 |
| EngineTheorems.ChainedExactlyOnce | workflow-engine/internal/instance/chain.go:43-86 | a request is acknowledged exactly when its child exists, names that child, has at most one, and every COMPLETED instance of a chaining definition has a request |
| EngineTheorems.ChildKept | workflow-engine/internal/instance/chain.go:71-85 | an acknowledged request keeps its child through every continuation |
| Plans.ChosenBranch | workflow-engine/internal/instance/handlers.go:54-81 | the branch taken is the first whose expression is true, after false ones only |
| Plans.NextPerforms | workflow-engine/internal/instance/lifecycle.go:159-288 | every transaction is its own first stage followed by at most one dispatch |
| Termination.DispatchTerminates | workflow-engine/internal/instance/lifecycle.go:320-382 | with no cycle of immediate steps a dispatch of any step from any state ends, within as many nested calls as there are ids |
| Termination.DepthIrrelevant | workflow-engine/internal/instance/lifecycle.go:320-382 | two depths at which a dispatch ends give the same outcome |
| Divergence.EndlessIff | workflow-engine/internal/instance/handlers.go:54-81 | with decisions and gateways as immediate steps, from every state some evaluator makes a dispatch endless exactly when some set of true expressions selects a cycle it leads to |
| Resolution.EveryTransactionEnds | workflow-engine/internal/instance/handlers.go:54-193 | in runs over such definitions every transaction comes to an end |
| Resolution.NoUndeclaredDispatch | workflow-engine/internal/instance/lifecycle.go:320-342 | when all started definitions resolve the references their handlers follow, no transaction of any run dispatches an undeclared step |
| Housekeeping.WithoutHousekeeper | workflow-engine/internal/boundary/store.go:22-31 | every run with the housekeeper has a counterpart without it that agrees on everything but dead timer rows |
| Housekeeping.WithHousekeeper | workflow-engine/internal/boundary/store.go:22-31 | wherever housekeeping is added to a run there is a run that agrees with it |
| Joins.JoinTest | workflow-engine/internal/instance/step_helpers.go:16-29 | the join's count succeeds exactly when the entries are distinct and each has a COMPLETED execution |
| Joins.JoinSeesAllBranches | workflow-engine/internal/instance/handlers.go:148-173 | in every run, a join execution that went on has a COMPLETED execution of every entry, and distinct entries |
| JoinOnce.JoinPassesOnce | workflow-engine/internal/instance/handlers.go:135-173 | for a gateway entered once with distinct single-step branches of its own, at most one execution of its join goes on, failures and manual retries included |
| Acceptance.ForkedIsWellShaped | workflow-engine/internal/instance/handlers.go:135-173 | the smallest fork and join with two branches has the shape `JoinOnce.JoinPassesOnce` asks for |
| Acceptance.AcceptedResolves | workflow-engine/internal/definition/validator.go:82-186 | an accepted definition resolves all references exactly when stray branch targets on parked steps are declared |
| Acceptance.OnlyDecisionsResolve | workflow-engine/internal/definition/validator.go:104-112 | in particular when only DECISION steps branch |
| Acceptance.AcceptedRunsResolve | workflow-engine/internal/definition/validator.go:82-186 | runs over accepted definitions whose stray branches resolve never dispatch an undeclared step |
| Acceptance.FinishingDanglesIff | workflow-engine/internal/instance/lifecycle.go:387-423 | from every state, some evaluator makes finishing a parked step of an accepted definition dispatch an undeclared step exactly when a branch that can be taken names one |
| Acceptance.AcceptedMayDangle | workflow-engine/internal/instance/lifecycle.go:397-416 | an accepted definition that dispatches an undeclared step after one start and one completed job |
| Acceptance.AcceptedEndlessIff | workflow-engine/internal/definition/validator.go:82-186 | the exact condition of an endless dispatch for accepted definitions of decisions and gateways |
| Acceptance.RepeatedAccepted | workflow-engine/internal/definition/validator.go:131-142 | a gateway that repeats an entry is accepted |
| Acceptance.RepeatedEntryNeverJoins | workflow-engine/internal/instance/handlers.go:148-173 | its join goes on in no run |
| DeliveryAttempts.NextLeases | workflow-engine/internal/job/retry.go:21-59 | no transaction unlocks a job, moves it to another worker or shortens its lease; a leased job is replaced only after lapse, own failure or operator retry |
| LeaseLoop.Maintainer.OnNext | workflow-sdk-go/runner/heartbeat.go:114-127 | a renewal starts exactly when the lease is unexpired, with a deadline five seconds away or at the end of the lease; otherwise the attempt ends |
| LeaseLoop.Maintainer.OnResult | workflow-sdk-go/runner/heartbeat.go:128-171 | ends the attempt exactly when the lease has ended, the answer is lost or rejected, or the new expiry is past or earlier, and a waiting handler is then never let in; otherwise the expiry, the handler's start and the next renewal or retry time are exact |
| Leases.NoOverlap | workflow-sdk-go/runner/heartbeat.go:71-173 | in every run of workers and engine two handlers never work at once under locally unexpired leases for one step execution |
| Leases.KnownExpiry | workflow-sdk-go/runner/heartbeat.go:74-173 | a worker's expiry is never later than the engine's, at most one renewal is in flight, and a heartbeat handler works only after an accepted renewal |
| Leases.ExpiryGrows | workflow-sdk-go/runner/heartbeat.go:135-147 | the known expiry of an attempt never decreases |
| Leases.RefusalEnds | workflow-sdk-go/runner/heartbeat.go:128-171 | in every run, once such an answer is processed the loop of the attempt has ended for good and its handler never starts |
| Kafka.Ownership.Assigned | workflow-sdk-go/kafkarunner/ownership.go:32-45 | held partitions keep their assignment, the others get tokens never used before |
| Kafka.Ownership.Revoked | workflow-sdk-go/kafkarunner/ownership.go:47-59 | exactly the listed partitions are given up and exactly their tokens cancelled |
| Kafka.Ownership.Guard | workflow-sdk-go/kafkarunner/ownership.go:67-76 | a commit goes on exactly for the current assignment, never for a cancelled one |
| Kafka.DedupCache.SeenRecently | workflow-sdk-go/kafkarunner/kafkarunner.go:300-305 | true exactly for ids confirmed within the window |
| Kafka.DedupCache.Sweep | workflow-sdk-go/kafkarunner/kafkarunner.go:308-330 | removes exactly the entries older than the window, and changes no answer then or later |
| Kafka.DedupCache.DispatchRecord | workflow-sdk-go/kafkarunner/kafkarunner.go:220-296 | a record counts as done exactly when it has a job id and was confirmed now or by its deduplication id within the window; only a confirmation enters the cache |
| Kafka.CommittedIsConfirmed | workflow-sdk-go/kafkarunner/kafkarunner.go:179-218 | in every run, each record below a committed offset, or one with its deduplication id, was confirmed by the engine |
| Kafka.CommitMovesOne | workflow-sdk-go/kafkarunner/kafkarunner.go:179-218 | in every run a commit under the record's assignment moves the offset from the record to the next; under a lost one nothing |
| Kafka.CommittedNeverDecreases | workflow-sdk-go/kafkarunner/kafkarunner.go:179-218 | a committed offset never decreases, whatever is revoked and handed back |
| EngineValidator.Validate | workflow-engine/internal/definition/validator.go:22-217 | no error exactly for accepted definitions; unreachable steps are reported exactly |
| EngineValidator.CheckStep | workflow-engine/internal/definition/validator.go:82-186 | no error exactly when the step obeys the rules of its type, schema and timers |
| EngineValidator.CheckTable | workflow-engine/internal/definition/validator.go:257-322 | no error exactly for a well-formed decision table step |
| EngineValidator.CheckSchema | workflow-engine/internal/definition/validator.go:228-245 | no error exactly for a schema of supported types whose required names are declared |
| EngineValidator.Walker.Walk | workflow-engine/internal/definition/validator.go:325-354 | marks nodes reachable from the start and everything they lead to |
| EngineValidator.Reachable | workflow-engine/internal/definition/validator.go:189-191 | the walk marks exactly the reachable ids |
| EngineValidator.SuccessorsAre | workflow-engine/internal/definition/validator.go:325-354 | the walk follows exactly next step, branches, parallel entries, join and timers |
| ModellerValidator.Validate | workflow-modeller/src/domain/validate.ts:21-47 | errors exactly when a rule is broken or the linter finds one, and each warning exactly for what it warns of: a cycle, an unknown field, a rule behind a catch-all |
| ModellerValidator.CheckRules | workflow-modeller/src/domain/validate.ts:21-43 | no error exactly when all rules but those about expressions hold |
| ModellerValidator.CheckExpressions | workflow-modeller/src/domain/validate.ts:435-496 | an error exactly when the linter reports one for some step |
| ModellerValidator.ShadowedRules | workflow-modeller/src/domain/validate.ts:253-268 | exactly the rules behind a rule without cells |
| ModellerValidator.CheckReachability | workflow-modeller/src/domain/validate.ts:579-626 | no error exactly when all steps and some END are reachable from the entry |
| ModellerValidator.CheckNested | workflow-modeller/src/domain/validate.ts:628-657 | an error exactly when a gateway is reachable from a branch before the join |
| ModellerValidator.Explore | workflow-modeller/src/domain/validate.ts:588-599 | the stack walk visits exactly what is reachable without a blocked node |
| ModellerValidator.CheckShape | workflow-modeller/src/domain/validate.ts:150-338 | no error exactly when the fields the step's type needs are given |
| ModellerValidator.CheckRefs | workflow-modeller/src/domain/validate.ts:340-379 | no error exactly when the references of the step's type resolve |
| ModellerValidator.CheckBoundary | workflow-modeller/src/domain/validate.ts:381-433 | no error exactly when timers stand on steps that support them, with a duration and a declared target |
| ModellerValidator.CheckUnknownFields | workflow-modeller/src/domain/validate.ts:701-724 | a warning exactly when some key is not known for its object |
| ValidatorAgreement.Agreement | workflow-engine/internal/definition/validator.go:22-217 | what the modeller passes without errors and unknown fields, the engine accepts exactly when all SERVICE_TASKs carry a jobType |
| ValidatorAgreement.BothValidate | workflow-modeller/src/domain/validate.ts:21-47 | the same for the two validators run on one document |
| CycleSearch.CheckGraphCycle | workflow-modeller/src/domain/validate.ts:659-699 | a cycle is reported exactly when there is one, timers included, and the named step lies on one |
| CycleSearch.Search.Dfs | workflow-modeller/src/domain/validate.ts:668-683 | until a cycle is found the gray nodes are the open calls and finished nodes lead only to finished ones; the first node recorded lies on a cycle |
| Modeller.IndexSteps | workflow-modeller/src/domain/graph.ts:99-105 | every declared id maps to its last step |
| Renaming.ToEdges | workflow-modeller/src/domain/graph.ts:23-92 | the edges of all steps in order; drawn from an id to a named target exactly when a step of that id leads there |
| Renaming.DrawnAreSuccessors | workflow-modeller/src/domain/graph.ts:23-92 | for an id of one step, the drawn edges to named targets are exactly the successors in the graph the checks walk |
| Renaming.RenamedEdges | workflow-modeller/src/domain/rename.ts:10-77 | the edges after a rename are the old edges with the id replaced |
| Renaming.RenameIsomorphism | workflow-modeller/src/domain/rename.ts:10-77 | a rename to an unmentioned id exchanges two names in the step graph and changes nothing else |
| Renaming.RenameKeepsVerdicts | workflow-modeller/src/domain/rename.ts:10-25 | exactly the renamed steps are marked reachable, the reachability check passes as before, and exactly the renamed steps lie on cycles |
| Renaming.RenameBack | workflow-modeller/src/domain/rename.ts:10-25 | renaming back restores the definition exactly when the new id was not mentioned |
| ProgramCache.RecentIsByLastUse | workflow-engine/internal/expression/evaluator.go:41-68 | the recency list holds each used key once, strictly by last use |
| ProgramCache.UseBounded | workflow-engine/internal/expression/evaluator.go:52-68 | the bounded list after a use is the front of the full recency list |
| ProgramCache.Cache.CompileExpr | workflow-engine/internal/expression/evaluator.go:314-334 | hit or miss, the result is what a fresh compile under the current setting gives |
| ProgramCache.Cache.Get | workflow-engine/internal/expression/evaluator.go:41-50 | a hit moves the key to the front, a miss changes nothing |
| ProgramCache.Cache.Set | workflow-engine/internal/expression/evaluator.go:52-68 | the key is used and the least recently used one leaves when there is no room |
| ProgramCache.Cache.SetCoercion | workflow-engine/internal/expression/evaluator.go:88-91 | the switch empties the cache |
| Transformations.Transform | workflow-engine/internal/instance/handlers.go:83-125 | the loop computes the outcome of evaluating the entries in the given order |
| Transformations.StoredEqualsInMemory | workflow-engine/internal/instance/variables.go:10-24 | the stored variables equal the in-memory ones, for every order |
| Transformations.RunStores | workflow-engine/internal/instance/handlers.go:83-125 | a literal is stored as it is, the clock as its text, an expression as its value over variables from before or from this step |
| Transformations.OrderIndependentIff | workflow-engine/internal/instance/handlers.go:83-125 | all orders agree, and equal simultaneous evaluation, for every evaluator exactly when no entry reads what another writes |
| DecisionTables.RuleMatches | workflow-engine/internal/instance/decision_table.go:143-161 | the verdict of the cells in iteration order |
| DecisionTables.MatchOrderIndependentIff | workflow-engine/internal/instance/decision_table.go:143-161 | the verdict is the same for all orders exactly when no rule has both a failing and a false cell |
| DecisionTables.AggregateColumn | workflow-engine/internal/instance/decision_table.go:190-231 | sum, count, maximum or minimum of the numeric values, or an error |
| DecisionTables.Collapse | workflow-engine/internal/instance/decision_table.go:76-117 | the outputs each hit policy allows |
| DecisionTables.Decide | workflow-engine/internal/instance/decision_table.go:36-117 | the outcome of the whole table, failures included |
| DecisionTables.DecidesUnique | workflow-engine/internal/instance/decision_table.go:36-117 | that outcome is unique |
| TableLaws.TableByCode | workflow-engine/internal/instance/decision_table.go:27-137 | what a table step merges, stated on the cells, the outputs and the text of its code: greatest, least, sum, count, lists, first, agreement, uniqueness; exactly that when no cell fails |
| DecisionTables.SingleMatchLists | workflow-engine/internal/instance/decision_table.go:167-183 | with one matching rule R and C give singleton lists |
| DecisionTables.SingleMatchNumbers | workflow-engine/internal/instance/decision_table.go:190-231 | with one matching rule the aggregates give its numbers |
| DecisionTables.AggregatesIgnoreRuleOrder | workflow-engine/internal/instance/decision_table.go:190-231 | aggregates do not depend on rule order |
| DecisionTables.AnyOrderFreeIff | workflow-engine/internal/instance/decision_table.go:76-98 | A gives one outcome for all orders of the matched rules exactly when their rows are equal or none agrees with all others |
| DecisionTables.AnyIgnoresRuleOrder | workflow-engine/internal/instance/decision_table.go:76-98 | in particular when the matched rules declare the same columns |

## Left out

- REST and gRPC servers and clients, configuration, logging, metrics: plumbing around the modelled operations.
- SQL text, migrations, advisory locks, connection pools: represented by atomic transactions and row contracts.
- Parsing and compiling expressions, JSON text, floating-point rounding, id generation: parsed values, exact numbers and fresh ids instead.
- Service.Engine.DispatchStep: takes a recursion bound that the engine does not have; `Termination` says when it is never reached.
- TransactionEffects.PollLeases: polling is one SQL statement in the source; which jobs it picks is a parameter.
- ModellerValidator.Validate: the expression linter is a parameter; of it only the codes it reports are assumed.
- Service.Engine.GetExpiredLeases: a failing query is not modelled.
- ModellerValidator.CheckRoot: the id length is counted in characters, which equals bytes for the ids the pattern allows.
- EngineValidator.CheckTable: foreign fields are reported in two groups instead of one message each; malformed JSON in rule outputs cannot occur in parsed values.
- Kafka.DedupCache.DispatchRecord: running the handler and the retried callback are one answer; handler results are not modelled.
- Renaming.RenamedEdges: for non-empty ids; an empty reference is no edge on SERVICE_TASK and USER_TASK. Edge ids and handles for the canvas are not modelled.
- Renaming.RenameBack: a step of unknown type is kept as it is, where the source's switch has no case for it.
- LeaseLoop.Maintainer.OnResult: the random back-off is a parameter; forwarding fatal errors to the runner is not modelled.
- Runner slots, shutdown draining and the handler registry in the worker SDK.
- The Kafka broker and client library: represented by the protocol's assumptions.
- ProgramCache.Cache.CompileExpr: sequential; a toggle between reading the switch and inserting the program is not modelled.
- Canvas layout, user interface, drafts, monitor, and the SDKs in other languages.
