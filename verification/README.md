# Trip planner: verified model

A Dafny model of the parts of the trip-planning service whose correctness depends on many
steps fitting together, with proofs over all inputs, all tool answers and all interleavings.

**The planning session** (`TripTypes`, `Session`, `Actions`, `Acceptance`, `Invariant`,
`Preservation`, `Bystanders`, `Runs`, `Completeness`, `Decision`, `Effects`, `Improvement`,
`Staleness`, `StaleExample`, `Convergence`, `Progress`, `Journal`, `Batches`, `AgentState`). A session is a large mutable
state. A pure decision function picks an action; the action runs against tools that may
answer anything; local actions are then absorbed into the same physical step. Five
optimisers (route order, day schedule, constraint conflicts, remote stops, missing stops)
each save a baseline, install a candidate, have it measured, and accept or revert it.
`AgentState` is the session object with the action bodies and the run loop; every method is
proved equal to a function of `Actions`, and the theorems about those functions hold for
every run of the object, over any number of interruptions and resumes.

**The task queue** (`TaskQueue`, `Leases`, `TaskStore`, `Creation`, `Replay`). Transactions on
a table of tasks and an event log, by any number of workers and users; concurrent creation
under two named locks; event replay to a browser that loses its connection.

**The circuit breaker** (`Breaker`), **itinerary repair and pool merging** (`OpeningHours`,
`OpeningHoursRepair`, `CandidateSearch`, `PoolMerge`), **the ranking metric** (`Ranking`) and
**index maintenance against a store that others change between any two calls** (`Maintenance`,
`Healing`, `Scan`).

`Basics` holds shared vocabulary. `dafny verify dfyconfig.toml` checks everything.

## How the system is represented

- Evaluators, optimisers, validators and the content rebuilder are arbitrary total functions,
  fields of `Env`. The schedule evaluator computes its figures from stops, visit durations and
  routes; from the meals it takes the name of each day's lunch, which reaches nothing but the
  label in the timeline (`app/scheduling/timeline.py:155-425`). The fingerprint stored beside
  its report binds the stops only. A content rebuild changes texts and meals, not stops and
  durations (`app/plan_content/rebuilder.py:146-195`).
- Fingerprints are injective, so each is the tuple it is computed from.
- Tools answer with a success, a retryable or final failure, or data of the wrong shape; the
  deadline, the breaker's permission and the retry decision are part of the same nondeterministic
  answer (`Wire`). Clocks, lock waits, crashes, embeddings and calls that raise are parameters.
- A dictionary of counts is a multiset; money, scores and times are reals or integers; share
  ids and stop identities are only compared.
- Index maintenance keeps a ghost log of every call with the store and index it met and left.
  `Maintainer.Valid` says that the log is true: it chains from the first world to the present
  one with a step of the others before each call, every answer is what the call met, every
  effect what the call does. Contracts say which calls were made; `Healing` proves from true
  logs alone what that guarantees.

## What the proofs found

- **The convergence guard never fires.** On a session started afresh, every successful action
  changes the business state, and no action is decided again on the input of the last success.
  So `no_progress_streak` stays 0 and no run ends as `convergence_stopped`, for any limits the
  budget accepts (`Progress`, `Journal`).
- **A delivered plan can carry a schedule report that names other lunches.** Rebuilding the
  content changes meals without changing stops, so the schedule report stays trusted. On every
  run its figures (cost, overtime, infeasible days, fallback legs, recommendation, times) are
  still those of the present plan, and the whole report is exactly if its lunch labels are the
  present plan's lunch names (`TrustedReportsAreFresh`, `RebuildKeepsScheduleIff`).
  `ScheduleFreshBeforeRebuild` covers every earlier state; `DeliveredThoughStale` is a whole run
  to delivery.
- **A trusted constraint report can be stale after a supplement search**
  (`app/agent_runtime/orchestrator.py:3298-3300` drops the input fingerprint, and lines 145-147
  then compare the plan alone), in one respect only: on every run it is the evaluator's answer
  on the present plan, schedule report and weather and some pool the session had before
  (`TrustedConstraintsAreDated`). It stays right for every evaluator exactly if the merge left
  the pool as it was (`SupplementKeepsConstraintsIff`, `ConstraintsTrustedThoughStale`).
- The final `VALIDATE_PLAN` of the decision function (line 1094) is decided, with a result at
  hand, exactly when the plan failed, cannot be delivered as it is and cannot be repaired
  (`SecondVerdictIff`); no run gets there unless a failed session is resumed
  (`NoSecondVerdict`). `EVALUATE_SCHEDULE` is never decided.
- The breaker's counter is not the number of tracked failures since the last close: one that
  ends a probe is not counted (`CounterIs`, `CountsAllIff`, `FailedProbeIsNotCounted`).
- No transaction of the MySQL store ever assigns the status `retrying`.
- **Two days of one number break the opening-hours repair.** The evaluator numbers its issues by
  `day_index` (`app/constraints/evaluator.py:128`), the optimiser looks for the first such day.
  Deleting what was found is exact if and only if every day found is the first of its number
  (`DeletesFoundIff`, and for a whole plan `ReliableIff`); otherwise another stop goes, or a pop
  fails (`TwoDaysOneNumberFails`).
- The first pass moves the stop each issue was raised for exactly if no stop in front of it, and
  not moved before, has its id or its name (`FirstPassRightIff`); with two stops of one name it
  can move the wrong one (`SameNameMovesTheFirst`).
- A write to the index stays behind unconfirmed, without any cleanup, exactly when the last look
  raised, when the write raised but was carried out, or when its deletion raised and was not
  (`LeftBehind`).
- Deleting a misplaced copy of an active row is always counted as a failure, even with nobody
  else about, because the row is found active afterwards and handed to the indexer
  (`AloneDeletion`, `MisplacedNeverClean`). Malformed and duplicate points are never deleted.
- A rating of zero counts as no rating when pools are merged.

## Model

| member | source | states |
|---|---|---|
| Runs.AlwaysInv | app/agent_runtime/orchestrator.py:536-601 | the invariant holds in every state of every run, whatever tools answer and however often it is resumed |
| Runs.CandidatesNeverNest | app/agent_runtime/orchestrator.py:765-1094 | at most one optimiser has a candidate installed; its whole baseline is stored exactly while it is pending; the shared supplement query is set exactly when one, and only one, of its two users asked |
| Runs.NoMissingData | app/agent_runtime/orchestrator.py:1476-3084 | the missing-baseline, missing-report and fingerprint-mismatch errors are unreachable; only a rebuild that moves a stop can raise; EVALUATE_SCHEDULE is never decided |
| Runs.BaselineStays | app/agent_runtime/orchestrator.py:1380-1450 | nothing that runs between installation and judgement touches the stored baseline |
| Runs.RevertIsExact | app/agent_runtime/orchestrator.py:1494-1541 | every installed candidate gets exactly one verdict; a reverted one leaves plan, routes and every saved report as just before its installation, whatever ran in between, and routes are not queried again |
| Improvement.AcceptedIffBetter | app/agent_runtime/orchestrator.py:1494-1560 | on every run a judged candidate is accepted if and only if it beats the plan it replaced, on the reports measured for both, and reverted otherwise: cheaper by at least the required percentage of the old cost (or, for a remote stop, with fewer and shorter excessive legs and that stop out of them; for a refill, with the stops required) and no worse in the hard metrics |
| Improvement.AcceptanceImproves | app/routing/quality.py:177-205 | the same of the reports kept with an accepted candidate |
| Runs.TrustedReportsAreFresh | app/agent_runtime/orchestrator.py:134-147 | whenever the decision function trusts the route or commute report it is the evaluator's answer on the present plan and routes; so are all figures of a trusted schedule report, and the whole of it exactly if the plan it was computed on names the lunches placed as the present plan does |
| Runs.SameStopsSameFigures | app/scheduling/timeline.py:155-425 | on the same stops and durations the evaluator gives the same figures, and the same report exactly if the lunches it places have the same names |
| Staleness.ScheduleFreshBeforeRebuild | app/agent_runtime/orchestrator.py:2128-2155 | until the first content rebuild a trusted schedule report is the answer on the very plan |
| Staleness.RebuildKeepsScheduleIff | app/agent_runtime/orchestrator.py:3045-3084 | a rebuild leaves the schedule report trusted and its figures fresh, and the whole report fresh exactly if the rebuilt plan names every lunch placed as the report does |
| Staleness.TrustedConstraintsAreDated | app/agent_runtime/orchestrator.py:134-147 | on every run a trusted constraint report is the evaluator's answer on the present plan, schedule report and weather and a pool the session had in some earlier state; before the first supplement search, on the present pool |
| Staleness.SupplementKeepsConstraintsIff | app/agent_runtime/orchestrator.py:3284-3352 | a merged supplement leaves the constraint report trusted, and right for every evaluator exactly if the merge does not change the pool |
| StaleExample.DeliveredThoughStale | app/agent_runtime/orchestrator.py:3045-3084 | a complete run that delivers a plan whose trusted schedule report names another lunch |
| StaleExample.ConstraintsTrustedThoughStale | app/agent_runtime/orchestrator.py:3298-3300 | the same run after its supplement search: a trusted constraint report the evaluator would no longer give |
| Runs.FinishIsJustified | app/agent_runtime/orchestrator.py:1058-1141 | a finished session holds the validator's answer on its present inputs, and that answer is valid or every condition for delivering an imperfect plan holds on the present reports; the completion mode says which |
| Acceptance.AcceptedIff | app/agent_runtime/acceptance.py:82-243 | a plan is accepted exactly when it validates or meets every threshold of partial delivery, and partial exactly when it is delivered without validating |
| Acceptance.ScoreIs | app/agent_runtime/acceptance.py:159-181 | the score: a fifth of each component score, 0 for a missing report; 20 points for the validation, less 12/5 for an error and 2/5 for a warning while any are left; 20 points for the share of days with enough stops |
| Acceptance.LevelIs | app/agent_runtime/acceptance.py:188-243 | excellent: valid, 90 points, no warning; acceptable: any other plan delivered; degraded: refused with city, dates and number of days right; else unusable |
| Acceptance.CodesAre | app/agent_runtime/acceptance.py:183-183 | every unresolved code once, in order of first occurrence |
| Acceptance.ScoreInRange | app/agent_runtime/acceptance.py:159-181 | the rounded quality score of every report lies between 0 and 100 when its components do |
| Runs.SecondVerdictIff | app/agent_runtime/orchestrator.py:1058-1094 | in every reachable state a validation is decided with a result at hand exactly when the plan failed it, is not accepted and cannot be repaired |
| Runs.NoSecondVerdict | app/agent_runtime/orchestrator.py:1058-1094 | unless a failed session is resumed, a running session validates only when it holds no validation result: the fall-through at the end of the decision function is dead |
| Runs.InstallsAreRecorded | app/agent_runtime/orchestrator.py:1607-1635 | the candidates ever installed on a run are those the histories judged and the pending one |
| Runs.LifetimeBudgets | app/agent_runtime/execution_policy.py:178-222 | over a session's whole life, tool calls, LLM calls, repairs, searches and installed candidates stay within their budgets; schedule candidates within the budget for each plan the model wrote |
| Preservation.NextKeeps | app/agent_runtime/orchestrator.py:1096-1295 | one decided action, with any tool answer, keeps the invariant |
| Preservation.Guards | app/agent_runtime/orchestrator.py:765-1094 | what is there whenever an action is decided: the reports it needs, a pending candidate to judge or none while one is proposed |
| Decision.DecidesPlainly | app/agent_runtime/orchestrator.py:765-1094 | on every reachable state of an unfinished session the decision is a plain list of priorities: survey, routes, the open search, the pending candidate, then between candidates the optimisers in turn, refill, restaurants, content, constraints and validation |
| Completeness.FinishedSkippedNothing | app/agent_runtime/orchestrator.py:765-1094 | a finished session skipped nothing: reports are the evaluators' on the present plan, restaurants and content belong to it, no candidate or search is open, no optimiser is untried that its report recommends (for routes, with attempts left), and with fewer stops than the minimum of the configured number and the days the refill was tried to its end |
| Completeness.ProposesWithReason | app/agent_runtime/orchestrator.py:1542-1635 | on every run an optimiser without a candidate acts only when its report, or the lack of stops, calls for it, and then installs the proposal there is, asks for the query there is while searches remain, or gives up |
| Completeness.ConcludesAsGraded | app/agent_runtime/orchestrator.py:1058-1094 | with a validation result at hand: finish exactly if it is valid or deliverable, repair exactly if neither but repairable within the budget |
| Effects.CallLeaves | app/agent_runtime/orchestrator.py:1167-1286 | what one tool call leaves on any run: out of time or budget, it ends the run uncharged; refused by the breaker, it is given up uncharged; else it is charged once and its answer saved field by field, or it is retried, degraded or fatal |
| Effects.EvaluationLeaves | app/agent_runtime/orchestrator.py:1637-1782 | a commute or constraint evaluation stores the evaluator's answer beside its plan; an optimiser not started is skipped if nothing is called for, and the one for remote stops starts again on a new plan that calls for it |
| Effects.RebuildLeaves | app/agent_runtime/orchestrator.py:3045-3084 | a content rebuild changes texts and lunches, nothing the route and schedule figures depend on, and reopens the validation |
| Effects.RebuildRefusedIff | app/agent_runtime/orchestrator.py:3045-3084 | a rebuild raises exactly if the transportation texts it writes would change a day's mode |
| Effects.ValidationLeaves | app/agent_runtime/orchestrator.py:3086-3173 | a validation stores the validator's answer on the present inputs and its grading, and fails the session exactly if the plan is neither valid nor deliverable nor repairable within the budget |
| Effects.FinishLeaves | app/agent_runtime/orchestrator.py:1115-1141 | finishing marks the session finished and succeeded and changes neither plan, reports nor counters |
| Effects.VerdictLeaves | app/agent_runtime/orchestrator.py:1784-1960 | after a verdict the optimiser is done, or tries again while attempts remain, as its kind, the verdict and the present commute say; its baseline is gone and a reverted candidate's identities are ruled out |
| Bystanders.NextTraced | app/agent_runtime/orchestrator.py:1096-1295 | only an optimiser's own action installs or judges its candidate, saving or restoring exactly what it must |
| Progress.EverySuccessIsProgress | app/agent_runtime/convergence.py:135-207 | every successful action changes the business state |
| Progress.NeverRepeats | app/agent_runtime/convergence.py:210-276 | no action is decided again on the input of the last success, failures in between included |
| Journal.NeverStopped | app/agent_runtime/orchestrator.py:603-617 | no run from a new session is stopped by the convergence guard |
| Journal.NeverUnconverged | app/agent_runtime/orchestrator.py:755-763 | no session ever has the status convergence_stopped |
| Journal.LedgerIsLastSuccess | app/agent_runtime/orchestrator.py:719-752 | the dictionary of successes never holds more than the last one |
| Convergence.RecordedBalanced | app/agent_runtime/orchestrator.py:712-748 | recording a success keeps the counters equal to what the evidence says: counts since the last progress, trailing streak, total, no count above its limit |
| Convergence.SuccessesAddUp | app/agent_runtime/orchestrator.py:719-752 | the counts sum to the streak, plus one once anything made progress |
| Convergence.TrailingIsARun | app/agent_runtime/orchestrator.py:739-748 | the streak is the length of the run of successes without progress at the end of the evidence |
| Batches.MemberJoins | app/agent_runtime/orchestrator.py:670-683 | absorbing a record keeps the history a sequence of numbered batches |
| Batches.HistoryBounded | app/agent_runtime/orchestrator.py:654-683 | history length is batches plus compressed records, and at most steps times one plus the batch limit |
| Batches.CountsCompressed | app/agent_runtime/orchestrator.py:670-683 | the counter is the number of compressed records |
| Agents.AgentState.RunState | app/agent_runtime/orchestrator.py:536-601 | one run or resume terminates by the remaining steps and continues the run so far; it keeps ledger, history and run in agreement; it returns normally only with a delivered plan, is interrupted only by a cancellation, and else ends with a closing status |
| Agents.AgentState.DrainLocalActions | app/agent_runtime/orchestrator.py:636-698 | absorbs local actions into the running step, in the one batch, and returns normally only when the session is finished, the next action is not local, the last one failed or the batch is full |
| Agents.AgentState.Resume | app/agent_runtime/orchestrator.py:527-534 | a finished session is returned untouched; any other continues the run told so far |
| Agents.AgentState.PrepareConvergenceAction | app/agent_runtime/orchestrator.py:603-617 | lets an action through only below its repetition limit |
| Agents.AgentState.RecordConvergenceResult | app/agent_runtime/orchestrator.py:700-752 | appends the evidence and updates the counters in place so that they stay balanced; goes on only below the no-progress limit |
| Agents.AgentState.ExecuteAction | app/agent_runtime/orchestrator.py:1096-1295 | the session becomes what the specification says and exactly one record is appended, none after a ValueError |
| Agents.AgentState.CallTool | app/agent_runtime/orchestrator.py:1167-1286 | a tool call is refused uncharged, or charged once and then applied, retried, degraded or fatal |
| Agents.AgentState.OptimizeRoutes | app/agent_runtime/orchestrator.py:1476-1635 | route order: judges the pending candidate or proposes one: field by field, the effect and the ValueErrors of the step function all session theorems are about |
| Agents.AgentState.ReplaceRemoteAttraction | app/agent_runtime/orchestrator.py:1784-2126 | remote stops: judges the pending candidate, proposes one, or asks for a supplement: field by field, the effect and the ValueErrors of the step function all session theorems are about |
| Agents.AgentState.OptimizeSchedule | app/agent_runtime/orchestrator.py:2207-2419 | day schedule: judges the pending candidate or proposes one: field by field, the effect and the ValueErrors of the step function all session theorems are about |
| Agents.AgentState.OptimizeConstraints | app/agent_runtime/orchestrator.py:2508-2733 | constraint conflicts: judges the pending candidate or proposes one: field by field, the effect and the ValueErrors of the step function all session theorems are about |
| Agents.AgentState.RefillAttractions | app/agent_runtime/orchestrator.py:2763-3043 | missing stops: judges the pending candidate, proposes one, asks for a supplement, or is done: field by field, the effect and the ValueErrors of the step function all session theorems are about |
| Agents.AgentState.RebuildPlanContent | app/agent_runtime/orchestrator.py:3045-3084 | content rebuild: field by field, the effect and the ValueErrors of the step function all session theorems are about; a refused rebuild changes nothing |
| Agents.AgentState.ValidatePlan | app/agent_runtime/orchestrator.py:3086-3173 | validation and grading: field by field, the effect and the ValueErrors of the step function all session theorems are about |
| Agents.AgentState.ApplyToolResult | app/agent_runtime/orchestrator.py:3272-3455 | tool answers of every kind: field by field, the effect and the ValueErrors of the step function all session theorems are about; a malformed answer changes nothing |
| Agents.AgentState.ClearRouteAnalysis | app/agent_runtime/orchestrator.py:1380-1427 | clearing what a new plan invalidates: field by field, the effect and the ValueErrors of the step function all session theorems are about |
| Agents.AgentState.SynchronizeEvaluationFingerprints | app/agent_runtime/orchestrator.py:1331-1377 | re-binding the reports of a restored plan: field by field, the effect and the ValueErrors of the step function all session theorems are about |
| Agents.AgentState.SessionHolds | app/agent_runtime/state.py:325-460 | after any runs and resumes the object satisfies the invariant, and a finished one may be delivered |
| Agents.AgentState.GuardNeverFires | app/agent_runtime/state.py:440-450 | the object's counters are exact and never reach a limit |
| Agents.AgentState.HistoryHolds | app/agent_runtime/state.py:450-456 | the object's history is as long as its batches and bounded by its steps |
| TaskQueue.StepKeeps | app/persistence/mysql_trip_task_store.py:306-548 | any transaction keeps columns, document and event log of every task in agreement |
| Leases.LogDetermines | app/persistence/mysql_trip_task_store.py:100-147 | in every history, folding a task's events yields its status, cancel flag, attempt and recovery count; attempt is recovery plus one once claimed; 100 percent exactly if succeeded |
| Leases.OneConclusion | app/persistence/mysql_trip_task_store.py:505-548 | a task is over exactly if its log has a concluding event, which is the only one and the last |
| Leases.NothingIsUndone | app/persistence/mysql_trip_task_store.py:332-341 | progress, steps and attempts never decrease and a cancel request is never withdrawn |
| Leases.OverIsOver | app/persistence/mysql_trip_task_store.py:520-548 | a finished task's row never changes again |
| Leases.Fencing | app/persistence/mysql_trip_task_store.py:291-298 | whatever a worker changes, it changes as the latest claimant and strictly before the end of its lease, heartbeats included |
| Leases.TakeoverAfterLease | app/persistence/mysql_trip_task_store.py:343-395 | a task is claimed again only after the earlier lease ended: ownership intervals are disjoint |
| Leases.LeaseLasts | app/persistence/mysql_trip_task_store.py:343-413 | after a claim or heartbeat the lease is that worker's alone, for the seconds asked for, at least one, from the time read before the transaction |
| Leases.HolderIsHeard | app/persistence/mysql_trip_task_store.py:291-413 | in every history: until that time the worker, and nobody else, is heard, by heartbeat, progress or conclusion; after it, and not before, the task can be claimed unless cancelled |
| Leases.ClaimableIff | app/persistence/mysql_trip_task_store.py:351-364 | in every history the WHERE clause picks queued tasks and running ones whose lease, as renewed last, is over, unless cancelled |
| Leases.OneOwnerAtATime | app/persistence/mysql_trip_task_store.py:397-413 | between two claims all changes are made by one worker |
| Leases.NoClaimAfterCancel | app/persistence/mysql_trip_task_store.py:426-459 | no claim follows a cancel request |
| TaskStore.TripTaskStore.ClaimNext | app/persistence/mysql_trip_task_store.py:343-395 | claims the earliest waiting task no other transaction has locked, or reports that there is none: the whole new row, lease end included, and its event |
| TaskStore.TripTaskStore.RecordProgress | app/persistence/mysql_trip_task_store.py:306-341 | under a lease still held: progress, capped at 99 percent, and steps never go back, and the event is written; else the exception for a lost lease or missing task and no change |
| TaskStore.TripTaskStore.Beat | app/persistence/mysql_trip_task_store.py:397-413 | extends the lease, by the seconds asked for, at least one, exactly if it is still held |
| TaskStore.TripTaskStore.RequestCancel | app/persistence/mysql_trip_task_store.py:426-459 | cancels a waiting task, flags a running one, leaves a finished one, each with its row and event |
| TaskStore.TripTaskStore.MarkTerminal | app/persistence/mysql_trip_task_store.py:505-548 | concludes a task held under a valid lease, once: the whole new row and its event |
| TaskStore.TripTaskStore.InsertTask | app/persistence/mysql_trip_task_store.py:211-237 | the row and its first event |
| Creation.NoDuplicates | app/persistence/mysql_trip_task_store.py:64-98 | any interleaving of creators and workers leaves one task per user and idempotency key, and one unfinished task per user and request |
| Creation.AnswerIsOwn | app/persistence/mysql_trip_task_store.py:149-188 | a task returned, new or reused, belongs to the caller and has the caller's request |
| Creation.InsertNeverConflicts | app/persistence/mysql_trip_task_store.py:200-250 | no insertion meets a row of its key or an active one of its request, so the IntegrityError branch is a last resort never taken |
| Creation.NoCyclicWait | app/persistence/mysql_trip_task_store.py:68-84 | creators never wait for each other in a circle |
| Creation.SomeoneCanGo | app/persistence/mysql_trip_task_store.py:74-98 | while a creator is unfinished, some unfinished creator waits for nobody |
| Replay.SendPage | main.py:658-676 | one poll delivers exactly the next 200 events, or all there are |
| Replay.EventGenerator | main.py:658-692 | one connection queries until the client is gone or a query finds the task finished, and has then delivered, without gap or repetition, the next 200 events of every query or all there were |
| Replay.CatchesUp | main.py:658-676 | after enough queries everything logged at the first of them has been delivered |
| Replay.FollowTask | main.py:643-692 | over any number of reconnects and lost frames, the events received are a gap-free, duplicate-free prefix of the log beyond the initial cursor, of exactly the length the queries made and the frames lost allow |
| Replay.QueueLogsGrow | app/persistence/mysql_trip_task_store.py:266-289 | in every history of the queue a task's log only grows, in id order |
| Breaker.CircuitBreaker.BeforeCall | app/agent_runtime/execution_policy.py:66-89 | the specified transition and permit for one tool; other tools untouched |
| Breaker.CircuitBreaker.RecordResult | app/agent_runtime/execution_policy.py:91-114 | the specified transition for one tool; other tools untouched |
| Breaker.CircuitBreaker.Reset | app/agent_runtime/execution_policy.py:120-125 | forgets one tool, or all |
| Breaker.AlwaysSound | app/agent_runtime/execution_policy.py:66-137 | over any interleaving: closed exactly below the threshold, half-open exactly while a probe is in flight |
| Breaker.AdmittedIff | app/agent_runtime/execution_policy.py:66-89 | a call is admitted exactly if the breaker is closed, or open and the recovery time has passed since it was last opened |
| Breaker.WaitIs | app/agent_runtime/execution_policy.py:66-89 | what a caller is told: no wait when admitted, the rest of the recovery time since the last opening while open, the whole of it while a probe is in flight |
| Breaker.OneProbeAtATime | app/agent_runtime/execution_policy.py:82-89 | while not closed, no second call is admitted before a result is recorded |
| Breaker.CounterIs | app/agent_runtime/execution_policy.py:91-114 | the counter is the number of tracked failures since the last close that did not end a probe |
| Breaker.CountsAllIff | app/agent_runtime/execution_policy.py:101-114 | it counts all tracked failures since the last close exactly if no probe failed since |
| Breaker.FailedProbeIsNotCounted | app/agent_runtime/execution_policy.py:101-106 | a trace in which it does not |
| OpeningHours.ReorderedIs | app/constraints/optimizer.py:289-304 | on a day of distinct stops: the others in their order, then the flagged ones in issue order |
| OpeningHours.FindsItselfIff | app/constraints/optimizer.py:391-404 | the search for a stop finds that stop exactly if no earlier one has its id or its name |
| OpeningHours.FirstPassRightIff | app/constraints/optimizer.py:289-304 | with each stop flagged once, every flag moves the stop it was raised for exactly if no stop in front, and not flagged before, is taken for it; then the others stay in order and the flagged follow in issue order |
| OpeningHours.SameNameMovesTheFirst | app/constraints/optimizer.py:391-404 | a day on which that fails: of two stops of one name the first is moved for the second |
| OpeningHours.DeletesExactlyIff | app/constraints/optimizer.py:336-361 | descending deletion removes exactly the flagged positions if and only if none is listed twice |
| OpeningHoursRepair.ReorderConflicts | app/constraints/optimizer.py:289-304 | the in-place pass moves every target in turn to the end of its day and loses no stop |
| OpeningHoursRepair.FirstPassIs | app/constraints/optimizer.py:265-304 | what the first pass makes of a day of distinct stops, from the issues themselves |
| OpeningHoursRepair.FirstPassRightOnDay | app/constraints/optimizer.py:265-304 | the exact condition of the first pass on any day of a plan, from the issues themselves |
| OpeningHoursRepair.DeleteConflicts | app/constraints/optimizer.py:357-361 | the in-place pops, place after place, with the names taken down before, or the IndexError they run into |
| OpeningHoursRepair.DeletesFoundIff | app/constraints/optimizer.py:336-361 | the second pass deletes exactly the stops the evaluator found if and only if each is on the first day of its number |
| OpeningHoursRepair.ReliableIff | app/constraints/optimizer.py:336-361 | it does so for a plan whatever is found exactly if every day with a stop is the first of its number |
| OpeningHoursRepair.TwoDaysOneNumberFails | app/constraints/optimizer.py:336-361 | two days numbered 0 on which the second deletion raises |
| OpeningHoursRepair.RepairOpeningHours | app/constraints/optimizer.py:249-389 | in place, the attempt specified: which of the two candidates is proposed, when none is, and when the deletion fails |
| OpeningHoursRepair.AttemptTold | app/constraints/optimizer.py:249-389 | when something is proposed: with an issue that leads to a stop, the reordered plan exactly if nothing in it is found closed and it is cheaper by more than 0.01; else the shortened one exactly if it settles every opening-hours issue and is cheaper by more than 0.01 |
| OpeningHoursRepair.DayPositionIs | app/constraints/optimizer.py:444-449 | the day looked for is the first with that number, or without a number and in that place |
| OpeningHoursRepair.ProposalSettles | app/constraints/optimizer.py:306-389 | whatever is proposed is cheaper by more than 0.01 and has no stop the evaluator places outside its hours |
| OpeningHoursRepair.ProposalAccounts | app/constraints/optimizer.py:336-389 | on a plan with distinct day numbers no deletion fails, and a proposal keeps every stop or names it as removed |
| CandidateSearch.MovesOfIs | app/constraints/optimizer.py:88-135 | the enumeration lists exactly the moves of a stop: every other place of its day, every place of every other day |
| CandidateSearch.MovesInOrder | app/constraints/optimizer.py:88-135 | within the stop's own day first, then on the later days, then on the earlier ones, from the first place to the last |
| CandidateSearch.MovedIs | app/constraints/optimizer.py:92-116 | a move takes the one stop out and puts it in the place asked for; every other stop keeps its day and its order |
| CandidateSearch.PrecedesIs | app/constraints/optimizer.py:155-162 | candidates compare by cost, then day taken from, day moved to and place |
| CandidateSearch.CheaperIs | app/constraints/optimizer.py:192-221 | removals compare by cost, then day, then place |
| CandidateSearch.MovingConservesAll | app/constraints/optimizer.py:92-94 | popping and inserting loses and gains no stop |
| CandidateSearch.Enumerate | app/constraints/optimizer.py:76-135 | the first moves that give different plans, up to the allowed number; short of that number, every move of every flagged stop |
| CandidateSearch.ChooseBest | app/constraints/optimizer.py:137-162 | the first in the order of the tuples among the candidates cheaper than the baseline by more than 0.01, or none if there is none |
| CandidateSearch.ChooseRemoval | app/constraints/optimizer.py:165-209 | the cheapest improving one of the first removals the limit allows, or none if none of those improves |
| CandidateSearch.RemovalsAre | app/constraints/optimizer.py:170-176 | the removals tried are the stops of the flagged days, each day once |
| CandidateSearch.Search | app/constraints/optimizer.py:76-247 | the best improving move of the enumeration; if none improves, the best of the removals tried; nothing only if none of those improves either; no stop is lost but the one removed |
| PoolMerge.MergePools | app/commute/supplement.py:177-232 | every identity once, in order of first occurrence, by its earliest best-rated candidate; duplicates and distinct add up; cropping keeps a prefix |
| PoolMerge.MergedOnce | app/commute/supplement.py:191-204 | that description leaves one pool only |
| PoolMerge.ExistingSurvive | app/commute/supplement.py:206-206 | an attraction of the old pool survives whenever the old pool fits |
| PoolMerge.ZeroCountsAsUnrated | app/commute/supplement.py:200-200 | a candidate rated zero does not replace an unrated one |
| Ranking.TwoSortsAreOne | scripts/run_rag_retrieval_evaluation.py:133-134 | two stable sorts equal one sort by falling score, then id |
| Ranking.Retrieve | scripts/run_rag_retrieval_evaluation.py:118-135 | retrieves, by falling score and rising id, public and ready documents of the city that reach the least score, at most k; one it passes over comes after all k retrieved |
| Ranking.NdcgInRange | scripts/run_rag_retrieval_evaluation.py:63-73 | for distinct ids and every cut-off, DCG lies between 0 and its ideal and nDCG between 0 and 1 |
| Ranking.PerfectIff | scripts/run_rag_retrieval_evaluation.py:71-73 | nDCG is 1 exactly if the top ranks, as many as could be relevant, all are |
| Maintenance.Maintainer.RepairOne | scripts/reconcile_shared_guide_index.py:540-585 | makes exactly the calls of the protocol, each on a world the others just changed: confirm, embed, confirm, write, confirm, and take the write back if that look does not confirm it; the outcome is that of the calls |
| Maintenance.Maintainer.CleanupStaleUpsert | scripts/reindex_shared_guides.py:313-343 | makes exactly the calls that delete the version written and hand over the row then seen active under its own identity |
| Maintenance.Maintainer.RepairAll | scripts/reindex_shared_guides.py:475-556 | the log is that of one repair after the other, and each outcome, that of its record's calls, is counted once |
| Maintenance.Maintainer.DeleteOne | scripts/reconcile_shared_guide_index.py:593-680 | makes exactly the calls of the protocol: compare with the scroll, ask the store, delete under the filter, look again, and hand over a row found active |
| Maintenance.Maintainer.DeleteMatching | scripts/reconcile_shared_guide_index.py:148-208 | after one step of the others, removes the one point exactly if its fields still match, or raises, carried out or not |
| Maintenance.Maintainer.DeleteAll | scripts/reconcile_shared_guide_index.py:586-680 | the log is that of one deletion after the other, and the four counters are those of the outcomes |
| Healing.LookIs | scripts/reindex_shared_guides.py:277-301 | a look confirms exactly the published, ready and indexed row of that share, version, hash and timestamps |
| Healing.SeeIs | scripts/reindex_shared_guides.py:304-343 | the row read again after a cleanup leads on exactly if it is published, ready and indexed |
| Healing.WriteIs | scripts/reindex_shared_guides.py:346-359 | a write puts the row's share, version and hash, public, in the row's place |
| Healing.ClearIs | scripts/reindex_shared_guides.py:313-328 | a version-filtered delete takes the points of that share and version and no other |
| Healing.HandOverIs | app/sharing/mysql_store.py:1159-1230 | a hand-over takes exactly a row that still is that version and hash, published, ready and indexed by a finished job, hides it and touches no other |
| Healing.GuardIs | scripts/reconcile_shared_guide_index.py:376-396 | the guard lets go exactly of a point without a row, one matching a withdrawn row, and one matching an active row in whose place it is not |
| Healing.CompareIs | scripts/reconcile_shared_guide_index.py:399-416 | a comparison confirms exactly that the point is still there as scrolled |
| Healing.RemoveIs | scripts/reconcile_shared_guide_index.py:167-194 | a filtered delete takes the point exactly if its fields are those scrolled |
| Healing.RereadIs | scripts/reconcile_shared_guide_index.py:195-208 | reading the place again confirms exactly that nothing is there |
| Healing.RepairTold | scripts/reconcile_shared_guide_index.py:540-585 | each outcome of a repair tells its last call and how that was answered |
| Healing.DeletionTold | scripts/reconcile_shared_guide_index.py:593-680 | each outcome of a deletion tells its last call, how that was answered and what was found |
| Healing.RepairedMeans | scripts/reconcile_shared_guide_index.py:540-585 | in every interleaving: nothing is written that the store did not confirm before and after the embedding; a record counts as repaired exactly if a last look confirms it, and is then active, and indexed unless the others touched its point before that look |
| Healing.TakenBack | scripts/reindex_shared_guides.py:313-343 | a superseded write has all points of its version deleted before the cleanup goes on, and leaves no active row of the share behind unless a read, a hand-over or the job check failed |
| Healing.LeftBehind | scripts/reindex_shared_guides.py:511-543 | if nobody else touches the index, the outcome determines the index exactly; a write stays unconfirmed in it exactly in three cases of calls that raised |
| Healing.DeletionGuarded | scripts/reconcile_shared_guide_index.py:593-680 | a deletion takes at most the one point, only if it was as scrolled, the store released it, and it still has the share, version and hash scrolled (and the visibility, where there was one); such a point an unraised delete does take |
| Healing.ActivePointStays | scripts/reconcile_shared_guide_index.py:376-396 | the point by which an active record is found is not taken, if its row is left alone between guard and deletion |
| Healing.GoneMeans | scripts/reconcile_shared_guide_index.py:419-443 | a point counts as gone only if a look found nothing in its place, and its share has no active row then unless the row could not be read or handed over |
| Healing.AloneRepair | scripts/reconcile_shared_guide_index.py:540-585 | with nobody else about, a repair indexes the record if it is the active one and does nothing otherwise |
| Healing.AloneDeletion | scripts/reconcile_shared_guide_index.py:593-680 | with nobody else about, the point goes exactly if it is as scrolled, complete and released; its row, if active, is handed over and the deletion counted failed |
| Healing.MisplacedNeverClean | scripts/reconcile_shared_guide_index.py:419-443 | so every deletion of a misplaced copy of an active row counts as a failure |
| Healing.GuardProtects | scripts/reconcile_shared_guide_index.py:376-396 | the guard never releases a row in transition, nor the point an active record is found by |
| Healing.MalformedIsKept | scripts/reconcile_shared_guide_index.py:148-166 | a malformed or duplicate point is never deleted |
| Healing.EveryRepaired | scripts/reconcile_shared_guide_index.py:540-585 | every record the loop counts as repaired was confirmed after its write |
| Healing.EveryRemoval | scripts/reconcile_shared_guide_index.py:586-680 | every point the loop removes was released by the store and had the share, version and hash scrolled, and the visibility where there was one |
| Scan.IterActivePublic | scripts/reindex_shared_guides.py:251-274 | under concurrent publishing no row comes twice, and one there all the time is not missed |
| Scan.ReadPoints | scripts/reconcile_shared_guide_index.py:331-373 | the first usable point of a share represents it, misplaced or not; all others are set aside in the order scrolled |
| Scan.RejectsIs | scripts/reconcile_shared_guide_index.py:346-366 | a point set aside was scrolled unusable, or usable after another one of its share and is marked so |

## Left out

- FollowTask: a prefix only; the terminal check may end the stream before the last events, and the code promises no more.
- ProposalAccounts: assumes that day numbers differ and that the evaluator finds each stop once; `DeletesFoundIff` says what happens otherwise. An opening-hours issue without a stop index would neither be repaired nor stop the first pass; the evaluator reports none.
- IterActivePublic: share ids lie below some bound, as UUIDs do, which is why paging ends.
- Search: issues come in the order of urgency, each with the stop it is charged to; the sorting by severity and penalty and the fallback to the last stop of a day are not modelled.
- The back-off times of the retry decision: the loop is proved for any retry answer.
- Attempt numbers, batch counter, messages, error lists and durations in the audit records, and checkpoint writes that fail.
- Legacy checkpoints without stored fingerprints.
- The versioned branch of reindexing, which goes through the publishing store's own jobs.
- Named-lock timeouts other than giving up, and SQL isolation below whole transactions.
- Completion of a cancelled running task whose worker died: nobody may claim it any more.
- Text, geography, floating-point rounding, HTTP routes, authentication, caches and external clients.
