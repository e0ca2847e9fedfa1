# Agent resilience runtime: a verified model

This project models the durable execution core of the agent resilience runtime: the workflow state
machine of `runtime.py`, driven by the leased retry queue of `store.py` and `worker.py`, with its
version-checked checkpoints, its write-once ledger of tool results, its approval table, its loop guard
and the state-changing endpoints of `api.py`. It proves what these pieces guarantee together, for any
answers of the decision engine and the tool backend.

`dafny verify dfyconfig.toml` checks the whole project.

## How the model is built

* `Models.dfy`, `Policy.dfy`, `Tools.dfy`, `LoopDetector.dfy` hold the data, the permission boundary,
  argument validation and the loop guard.
* `Tables.dfy` has the five tables as one value and each store call as one atomic update of it. Times are
  real numbers; a queue row's id is its position.
* `Checkpoints.dfy` names everything that happens to a workflow between two saves as a `Move`, and says
  when the code makes that move (`Follows`). A `ValidLog` is a chain of checkpoints in which every one
  follows from the one before.
* `Machine.dfy` is one delivery, or one API request, as a program counter: each step is one store call,
  one call of the engine or one of the backend. `System.dfy` interleaves any number of them with crashes
  at any point, heartbeats, new incidents and replays. `log` and `seen` in `Sys` are bookkeeping of the
  model: the checkpoints each workflow committed, and counts of backend returns, settlements, lost
  results and lost events.
* `Store.dfy`, `Gateway.dfy`, `Runtime.dfy`, `Worker.dfy` and `Api.dfy` are the source's classes as
  classes, with the source's methods updating the store in place. Each is proved to do exactly the steps
  of the machine, in order, and so to keep the store among the states that `System.dfy` reaches
  (`Solo.dfy`). What the engine and the backend answer, the clock and the new task id are parameters.
* `Deliveries.dfy` is a second account of one delivery that nobody disturbs, written straight from the Python without
  the machine: the tables and the result as functions of the tables before, the answers and the clock. The methods
  compute exactly these functions, and `Endings.dfy` says what they come to, field by field, for every way in which a
  delivery can end. `Requests.dfy` says what a decision's request is turned into, in every run.
* The other files prove the properties. `ReachedBy(cfg, steps, s)` says that `s` is the state after some run,
  `PlayedBy(cfg, turns, s)` that it is one after a run under the hypotheses below. `FaithfullyReached` and
  `FaithfullyPlayed` say the same of runs in which engine and backend, when they answer, answer by the
  reference policy and the scenario (`fx`).
* `Paths.dfy` has what a worker does alone, call by call; `FaithfulPlay.dfy` makes its path a continuation of
  a run. `Claims.dfy`, `Rounds.dfy`, `Recovery.dfy` and `Continuing.dfy` build from such paths the continuation
  that decides a workflow, `Earnings.dfy`, `Feasibility.dfy` and `Necessity.dfy` show why there is none
  otherwise, and `Witnesses.dfy` has the runs from empty tables in which something goes wrong.
* Runs in general may read the clock as they like. Every run whose existence is claimed keeps it from going back:
  `InOrder` and `Timely` say so of turns and of steps, `Paced` of a continuation that begins at a given time, and
  the continuations exist for every such time.

The store calls of `Store.dfy` that only hand on one row or one verdict (acknowledgment, ledger and approval
lookups and inserts) are links from the class to `Tables.dfy`; they have contracts, but no rows below.

## Hypotheses

Some results need hypotheses on how the system is operated, because the code needs them. `Discipline.dfy`
states them as the steps it permits; every run it permits is a run of the unrestricted system.

* (H1) A live worker keeps its lease: no claim is made at a time when the lease of a live worker has run out.
  Heartbeats at most half a lease late ensure that, for leases from 0.2 s on (`Promptness.PromptClaimsArePermitted`).
* (H2) Settling a delivery is one step, and so is an approval or a rejection. Workers still crash after
  every other store call.
* (H3) No approval or rejection is accepted while a live worker has the workflow loaded. Requests that the code
  refuses may come at any time.

For each of them `Witnesses.dfy` has a run from empty tables that breaks it, for every deployment whose
limits let the few calls happen: a claim from a slow but live worker ends in two live rows, a crash between
acknowledgment and enqueue leaves a queued workflow without a row, a crash of an approval between its verdict and
its save leaves an approved workflow that waits for ever, and an approval between the waiting checkpoint and its
acknowledgment again a queued workflow without a row. `Hypotheses.dfy` and `Stranded.dfy` have the last steps of
these runs, for every state in which they can be taken.

Live rows, the termination bound, stranded approvals and the reachability of the decision use H1 to H3. The
ledger counts need no more than that no two processes execute one key at a time; spacing and fairness of the
queue no more than that no claim finds a lease run out. Everything else holds in all runs: the refinement of
checkpoints, the approval gate, the bounds on progress, bookkeeping, the audit trail, leases and the track of
the reference workflow. An exception that is neither retryable nor permanent ends its process like a crash.

## What the code does and its documentation does not say

* The repository's README.md:15 says that recorded results prevent duplicate infrastructure calls after
  crashes. A crash after the backend returned and before the ledger row is written makes the next
  delivery call the backend again (`Witnesses.ExecutesTwice`). Such crashes are the only reason, as long as no
  two processes execute a key at a time: `Effects.ReturnsAreCounted` counts the returns, and by
  `Effects.AtMostOnceIff` a key is executed at most once exactly if no result of it was lost in this way, or
  one was and nothing has come back since.
* The waiting checkpoint is saved before its approval row. A crash between the two, or a second request
  of an action that was already decided, leaves a workflow that waits for ever; both happen
  (`Witnesses.CrashStrands`, `Witnesses.SecondRequestStrands`). A waiting workflow can be approved or rejected
  exactly while its approval row is undecided (`Api.Endpoints.ApproveAction`, `Stranded.LostForever`).
* The attempt that the backend is told is the number of requests in the history, and resuming an approved
  action adds none. A restart that the scenario fails at that number is retried, dead-lettered and replayed
  with the same number, and never finishes (`FailingRestarts.FailingRestartsNeverFinish`,
  `EndToEnd.FailingRestartsAreReached`); `EndToEnd.RestartDecidesIff` has the exact condition. Only a worker that
  crashes between an accepted request and its waiting checkpoint raises the number before anything is pending.
* A replay does not look at the workflow's status. Under H1 to H3 only dead-lettered workflows have dead
  rows; without them a replay can leave any status (`Refinement.OnlyReplayLeavesTerminal`).
* The termination bound proved here, (2 * max_tool_calls - 1 + R) * max_queue_attempts, counts settled
  deliveries. Deliveries cut off by a crash are not settled, and attempts can pass their maximum by them; the
  claims exceed the bound by no more than those (`Termination.ClaimsAreBounded`).

## Model

| member | source | states |
|---|---|---|
| LoopDetector.FindRepeatedSuffix | agent_resilience/loop_detector.py:22-28 | the search loop answers true exactly if some block, repeated threshold times, ends the sequence |
| LoopDetector.RepeatedSuffixExact | agent_resilience/loop_detector.py:22-28 | that is: exactly if the sequence is a prefix followed by a non-empty block written threshold times |
| LoopDetector.RepeatedSuffixIsPeriod | agent_resilience/loop_detector.py:22-28 | and exactly if some suffix of threshold times n values has period n |
| LoopDetector.FindLoopReason | agent_resilience/loop_detector.py:13-20 | the budget is the reason exactly if it is used up, repetition exactly if it is not and a non-empty block written threshold times ends the tools, missing progress exactly if neither holds and the last threshold fingerprints are equal; otherwise there is none |
| LoopDetector.PowerFreeExtends | agent_resilience/loop_detector.py:22-28 | checking the suffix at every new value keeps the whole sequence free of repeated blocks anywhere |
| Requests.StopsAreExplained | agent_resilience/runtime.py:94-106 | a checkpoint is loop-stopped exactly if the guard stopped it, `last_error` is the reason that its own histories have, and the histories of an accepted request have none |
| Requests.StoppedWorkflowsAreExplained | agent_resilience/runtime.py:97-100 | the same of every workflow stored as loop-stopped, in every run |
| Policy.PolicyIsExact | agent_resilience/policy.py:20-28 | risk, permission, approval and reason for every tool and any arguments: the deletion, the restarts of production in any spelling or by default, the other restarts, and the rest |
| Tools.ValidationIsExact | agent_resilience/tools.py:15-32 | the arguments that the schemas accept, character by character, and what validation keeps and fills in |
| Tools.ValidateIdempotent | agent_resilience/tools.py:76-82 | validating validated arguments changes nothing, so the approved id is the ledger key |
| Tools.GateIsExact | agent_resilience/policy.py:20-28 | among validated calls exactly the production restarts need approval, a missing environment means production, and exactly the deletion is refused |
| Tools.ActionIdIsExact | agent_resilience/tools.py:84-86 | an action id is the task, the tool and the first sixteen characters of the hash |
| Requests.RequestIsExact | agent_resilience/runtime.py:91-93 | the decisions whose arguments are valid, and that validation hands on exactly what they ask for, production where they name no environment |
| Requests.RequestsAreGated | agent_resilience/runtime.py:106-131 | after the checkpoint of an accepted request comes a waiting one only if the decision restarts production, with the action it asks for; an execution or a denial only if it does not |
| Requests.PendingWasRequested | agent_resilience/runtime.py:112-118 | every pending action, however long it is pending, is the production restart that an earlier accepted request asked for, with its arguments, id, rationale and high risk |
| Requests.CallsAreAsRequested | agent_resilience/runtime.py:108-141 | in every run each backend call has the arguments that the decision of a committed request asks for: of the checkpoint it works from, or, exactly if it restarts production, of an earlier one that was parked and approved |
| Requests.AnswersReachTheCheckpoint | agent_resilience/runtime.py:143-160 | under any interleaving a permanent error of the backend is checkpointed as failed, with its text and no retry, a retryable one or a refused output as queued with one retry more, and nothing else is |
| Requests.EngineErrorsReachTheCheckpoint | agent_resilience/runtime.py:49-63 | under any interleaving a retryable error of the engine is checkpointed with one retry more; a permanent one is not, but acknowledges the delivery and goes to the handler with its text |
| Store.SQLiteStore.CreateWorkflow | agent_resilience/store.py:109-122 | workflow, first queue row and event together, or nothing when the task id exists |
| Store.SQLiteStore.SaveWorkflow | agent_resilience/store.py:139-151 | the checkpoint is replaced and stamped exactly if the version column is the expected one; otherwise an error and no change |
| Store.SQLiteStore.Enqueue | agent_resilience/store.py:153-167 | one pending row more, unless the task has a live row |
| Store.SQLiteStore.Claim | agent_resilience/store.py:169-195 | expired leases return to pending, then the lowest available pending row is leased with one attempt more |
| Store.SQLiteStore.ExtendLease | agent_resilience/store.py:204-209 | only a processing row gets a new lease |
| Store.SQLiteStore.RetryOrDeadLetter | agent_resilience/store.py:211-222 | dead or pending with the capped exponential delay, decided by the delivery's attempts |
| Store.SQLiteStore.ResolveApproval | agent_resilience/store.py:273-280 | a verdict is written exactly if the row exists and is undecided |
| Store.SQLiteStore.ReplayDeadLetter | agent_resilience/store.py:307-341 | row and workflow return to the queue together, exactly if the row is dead and both exist |
| Gateway.ToolGateway.Execute | agent_resilience/tools.py:88-101 | tables and outcome for invalid and denied calls, recorded keys with the same and with another hash, and each answer of the backend; ledger rows are never changed, and a hit changes nothing |
| Runtime.WorkflowRuntime.FailWorkflow | agent_resilience/runtime.py:178-186 | saves the failed state and its event, then returns the workflow, or reports a stale checkpoint |
| Runtime.WorkflowRuntime.ExecuteTool | agent_resilience/runtime.py:143-176 | when the backend is asked and the version matches: a permanent error returns the failed workflow with its text and no retry, a retryable one raises it again over a queued workflow with one retry more, a result is evidence; in all cases tables and outcome are those of one gateway call and its save |
| Runtime.WorkflowRuntime.FinishToolCall | agent_resilience/runtime.py:162-176 | counters, evidence, steps, histories and status of a finished call are saved together and then reported |
| Runtime.WorkflowRuntime.ResumeApprovedAction | agent_resilience/runtime.py:133-141 | an approved action is executed, any other is parked unsaved |
| Runtime.WorkflowRuntime.PassGate | agent_resilience/runtime.py:108-131 | denial, waiting for approval or execution of an accepted request |
| Runtime.WorkflowRuntime.ParkForApproval | agent_resilience/runtime.py:112-121 | waiting checkpoint, approval row and event, in this order |
| Runtime.WorkflowRuntime.RequestTool | agent_resilience/runtime.py:91-106 | validation, histories, loop guard, checkpoint and gate of a tool request, for any decision |
| Runtime.WorkflowRuntime.Act | agent_resilience/runtime.py:69-106 | what follows each kind of decision |
| Runtime.WorkflowRuntime.AskEngine | agent_resilience/runtime.py:48-67 | each answer of the engine, and what is saved or raised for it |
| Runtime.WorkflowRuntime.DecideNext | agent_resilience/runtime.py:43-67 | when the version matches: a permanent error of the engine is raised over the running checkpoint, with no retry and no event of one; a retryable one is kept, counted and raised; otherwise the decision is acted on |
| Runtime.WorkflowRuntime.Process | agent_resilience/runtime.py:36-131 | tables and outcome for every stored workflow and all answers: unknown, ended or waiting, with a pending action, or asking the engine; and they are those of one process that takes its steps alone |
| Worker.DurableWorker.Conclude | agent_resilience/worker.py:46-62 | the handlers save dead-lettered or failed, unless the workflow has ended |
| Worker.DurableWorker.Settle | agent_resilience/worker.py:36-62 | row, queue and workflow after each outcome, down to the end of the process |
| Worker.DurableWorker.RunOnce | agent_resilience/worker.py:29-70 | one claim and the delivery it starts, for all answers; a permanent error, of engine or backend, ends with a done row and the workflow failed with its text, a retryable one with a delayed row and a queued workflow, or a dead row and a dead-lettered one, and one retry more; reachable tables stay reachable |
| Worker.DurableWorker.Heartbeat | agent_resilience/worker.py:72-81 | the loop, for any number of beats: a processing row has the lease of the last beat, no other row changes, and every beat leaves an event |
| Worker.DurableWorker.Serve | agent_resilience/worker.py:83-90 | the loop, for any number of rounds: one after the other until an exception escapes; reachable tables stay reachable |
| Endings.NothingToDo | agent_resilience/runtime.py:37-41 | a delivery of an ended or waiting workflow, or of one whose action is not approved, changes its row to done and nothing else |
| Endings.UnknownWorkflowIsDropped | agent_resilience/worker.py:55-61 | a delivery without a workflow changes its row to done and nothing else |
| Endings.EngineErrorsEnd | agent_resilience/worker.py:36-62 | row, workflow and events after a permanent error, a retryable error and a crash of the engine |
| Endings.DecisionsEnd | agent_resilience/runtime.py:69-89 | row, workflow and events after a completion and a failure: answer or rationale, tokens, diagnosis and remediation |
| Endings.RefusedRequestsEnd | agent_resilience/runtime.py:91-110 | row, workflow and events after a request that is invalid, that the guard stops, or that is denied |
| Endings.ProductionRestartsWait | agent_resilience/runtime.py:111-121 | all tables after a request to restart production: the parked action, the approval row, a done row and nothing queued |
| Endings.RequestsAreCarriedOut | agent_resilience/runtime.py:106-131 | any other request that passes is executed with the arguments it asks for, over a checkpoint with the request in its histories |
| Endings.BackendAnswersEnd | agent_resilience/runtime.py:143-176 | row, workflow, ledger and events after each answer of the backend, whether the call was requested or approved |
| Endings.RecordedResultsEnd | agent_resilience/tools.py:93-95 | a recorded result becomes evidence whatever the backend would answer; another hash under its key changes nothing and ends the worker |
| Api.Endpoints.CreateIncident | agent_resilience/api.py:108-114 | a fresh workflow, field by field, with its first queue row and event, or an error and no change when the id exists |
| Api.Endpoints.ApproveAction | agent_resilience/api.py:211-222 | accepted exactly if the workflow waits on an undecided action; then the tables are as before but for the verdict, the queued workflow, the event and, unless the task has a live row, a new one; otherwise nothing changes |
| Api.Endpoints.RejectAction | agent_resilience/api.py:225-237 | accepted under the same condition; then the verdict, the ended workflow with the given reason or the default one, and the event are the only changes |
| Api.Endpoints.ReplayDeadLetter | agent_resilience/api.py:170-180 | accepted exactly if the row is dead and both exist; then row and workflow are queued again without error and attempts, and the event is added |
| Api.ReachableIsConsistent | agent_resilience/store.py:139-151 | reachable tables, which the class methods ask for, keep every state under its own task id and its version in the version column |
| Solo.DeliveryStaysReachable | agent_resilience/worker.py:29-46 | a delivery worked on without interference leads from reachable tables to reachable tables |
| Refinement.CommittedCheckpointsAreLegal | agent_resilience/store.py:139-151 | under every interleaving the committed checkpoints have versions 0, 1, 2, ..., each is one legal transition from its predecessor, and the stored version equals the version column |
| Refinement.StaleSaveOk | agent_resilience/store.py:145-150 | a save with an old version changes no table; it is retried by the runtime, and ends the handlers and the endpoints |
| Refinement.OnlyReplayLeavesTerminal | agent_resilience/models.py:75-82 | no transition but a replay leaves a terminal status |
| CheckpointFacts.LogWellFormed | agent_resilience/runtime.py:111-118 | every checkpoint's pending action is validated, allowed, needs approval and carries its own ledger key; a waiting workflow has one, a running one has none |
| ApprovalGate.BackendCallsAreApproved | agent_resilience/runtime.py:108-141 | every backend call is validated and not blocked, and a call that needs approval has exactly its own key approved |
| ApprovalGate.VerdictsArePermanent | agent_resilience/store.py:266-280 | verdicts and ledger rows never change or vanish |
| ApprovalGate.RejectedActionsNeverRun | agent_resilience/api.py:225-237 | after a rejection no backend call at all has that action id, whatever tool and arguments it has, if the sixteen characters kept of the hash tell its arguments from the rejected ones |
| ApprovalGate.NoRejectedGatedCall | agent_resilience/api.py:225-237 | and no call that needs approval has it, with no condition on the hash |
| ApprovalGate.ApprovalsComeFromWaitingCheckpoints | agent_resilience/runtime.py:112-121 | approval rows exist only for actions that a committed checkpoint shows as waiting |
| Histories.LogBookkept | agent_resilience/runtime.py:94-106 | in every checkpoint fingerprints = requests + tool calls, tool calls plus an outstanding one <= requests <= model calls, and completed steps are duplicate-free and equal the evidence keys |
| Histories.LogGrown | agent_resilience/runtime.py:162-171 | between checkpoints histories grow by suffix and counters never shrink |
| Histories.NoProgressBound | agent_resilience/loop_detector.py:18-19 | while the evidence stays the same at most threshold - 1 requests pass the guard, threshold - 2 once there is evidence |
| Histories.AcceptedHistoriesArePowerFree | agent_resilience/runtime.py:94-106 | unless stopped, a workflow has fewer requests than the budget and no block repeated threshold times anywhere, if no stopped workflow is replayed |
| Discipline.DisciplinedRunsAreRuns | agent_resilience/worker.py:29-70 | every run under the hypotheses is a run of the unrestricted system, at times that are in order if the turns' are |
| Witnesses.StaleRetryRevives | agent_resilience/store.py:174-222 | a run from empty tables, its clock never going back, in which a claim takes the row of a slow live worker, and two live rows of one task are the end |
| Witnesses.CrashOrphans | agent_resilience/worker.py:37-41 | a run from empty tables with a crash between acknowledgment and enqueue that leaves a queued workflow without a live row |
| Witnesses.CutApprovalStrands | agent_resilience/api.py:215-217 | a run from empty tables in which an approval crashes between verdict and save: the action is approved, and the workflow waits for ever |
| Witnesses.EarlyApprovalOrphansTask | agent_resilience/store.py:156-161 | a run from empty tables with an approval before the acknowledgment that does the same |
| Witnesses.CrashStrands | agent_resilience/runtime.py:117-119 | a run from empty tables, under the hypotheses, after which a workflow waits for ever |
| Witnesses.SecondRequestStrands | agent_resilience/store.py:266-271 | another one, by a second request of a decided action, for a threshold of at least four |
| Witnesses.ExecutesTwice | agent_resilience/tools.py:96-101 | a run from empty tables, under the hypotheses, in which the backend returns two results for one key |
| LiveRuns.RowsAndWorkflowsAgree | agent_resilience/worker.py:29-62 | one live row at most, and one while queued or running; a dead row exactly if dead-lettered; pending actions of queued or running workflows are approved |
| LiveRuns.WorkersAreNeverStale | agent_resilience/store.py:139-151 | under the hypotheses no save of a worker is stale |
| LiveRuns.HistoriesStayPowerFree | agent_resilience/runtime.py:94-106 | under the hypotheses the loop guard has the last word, with no condition on replays |
| Termination.ApprovalsArePaidFor | agent_resilience/api.py:211-222 | approvals never exceed the tool calls by more than the one action still to be resumed |
| Termination.CreditsAreBounded | agent_resilience/loop_detector.py:13-15 | creation, finished tools, approvals and replays together are at most twice the tool budget less one, plus the replays |
| Termination.DeliveriesAreBounded | agent_resilience/worker.py:29-62 | a workflow replayed R times settles at most (2 * budget - 1 + R) * attempts deliveries, for any engine and backend |
| Termination.ClaimsAreCounted | agent_resilience/worker.py:29-62 | the claims of a task are exactly the deliveries it settled, those cut off before that, and the one at work |
| Termination.ClaimsAreBounded | agent_resilience/worker.py:29-62 | so they exceed that bound at most by the deliveries that were cut off |
| Effects.RecordedResultsAreReused | agent_resilience/tools.py:93-95 | once a key is recorded, a lookup returns exactly that record and never leads to the backend |
| Effects.ReturnsAreCounted | agent_resilience/tools.py:92-101 | in every run in which no two processes execute a key at a time, the backend has returned for it as often as crashes lost the result, and once more if it is recorded or still unrecorded in a process |
| Effects.AtMostOnceIff | agent_resilience/tools.py:92-101 | so it has returned at most once exactly if no result was lost, or one was and none has come back since |
| Effects.RecordedKeysAreNotExecuted | agent_resilience/tools.py:92-97 | in every such run nobody is between lookup and ledger write for a recorded key |
| Effects.EvidenceIsRecorded | agent_resilience/runtime.py:162-171 | in every run in which no two processes execute a key of the task at a time, every committed piece of evidence is a ledger record |
| Effects.DisciplinedRunsNeverOverlap | agent_resilience/worker.py:29-46 | under the hypotheses no two processes ever execute one key at a time |
| Effects.ReturnsAreExcused | agent_resilience/tools.py:96-101 | the count under the hypotheses: at most once, plus once for every crash between the return and the ledger write |
| Effects.RecordedKeysAreNotCalled | agent_resilience/tools.py:92-97 | under the hypotheses nobody is about to call the backend for a recorded key |
| Effects.EvidenceComesFromTheLedger | agent_resilience/runtime.py:162-171 | under the hypotheses every committed piece of evidence is a ledger record of that task and tool |
| Audit.EventsMatchCounters | agent_resilience/runtime.py:148-176 | events written, about to be written and lost in crashes add up to tool calls and to retries, in every run |
| Audit.LossesAreCrashes | agent_resilience/store.py:224-232 | every lost event is a crash |
| Audit.AuditShortfall | agent_resilience/runtime.py:52-60 | counted events never exceed the counters, and when nothing is about to be written they fall short by at most the number of crashes, by nothing without crashes |
| Leases.IntervalFitsLease | agent_resilience/worker.py:73 | heartbeats come at least twice per lease for every configured interval, exactly if the lease is 0.2 s or more |
| Leases.IntervalIsExact | agent_resilience/worker.py:73 | the interval is a tenth of a second, or the longest that exceeds neither the configured one nor half the lease |
| Leases.LeaseIsExclusive | agent_resilience/store.py:169-209 | a leased row that nobody settles is not claimed again before its last extended lease has passed |
| Leases.ClaimNeedsExpiry | agent_resilience/store.py:174-195 | a claim takes a pending row or one whose lease has run out |
| Leases.PromptWorkersAreNotOvertaken | agent_resilience/worker.py:72-76 | a worker whose heartbeats are at most half a lease late keeps its row |
| Promptness.PromptClaimsArePermitted | agent_resilience/worker.py:72-76 | if every live worker was claimed for, or beat, at most the interval and half a lease ago, a claim finds no lease of a live worker run out |
| Queueing.DelaysDouble | agent_resilience/store.py:215 | the base comes first, and each later delay doubles the one before it, up to a minute |
| Queueing.DelaysGrow | agent_resilience/store.py:215 | delays are capped at a minute, and never shrink exactly if the base is not negative |
| Queueing.BackoffClosedForm | agent_resilience/store.py:215 | before the cap the delays add up to base * (2^(n-1) - 1) |
| Queueing.DeliveriesAreSpaced | agent_resilience/store.py:178-222 | in every run in which no claim finds the row's lease run out, its n-th delivery comes no earlier than the first n - 1 delays after its first |
| Queueing.OvertakingIsBounded | agent_resilience/store.py:179-183 | in every run in which no claim finds a lease run out, while a row is available at most as many claims go to others as the live rows before it have attempts left |
| Queueing.NoRowWaitsForever | agent_resilience/store.py:169-222 | so no available row waits for ever, crashes, replays and requests at any point included |
| Timestamps.TextOrderIsTimeOrder | agent_resilience/store.py:170-183 | the stored texts compare like the instants they denote, though a zero fraction is left out |
| Timestamps.TextShowsTheInstant | agent_resilience/store.py:170-172 | every field of the instant can be read off its place in the text |
| Reference.ScenarioIsExact | agent_resilience/tools.py:45-67 | the scenario backend tool by tool: unknown scenario, failures counted over the requests, the entry of the scenario, and the verification before and after a restart |
| Reference.ReferenceIsExact | agent_resilience/decision.py:37-70 | the reference policy step by step: the first missing evidence, the restart, its verification, always for the checkout service in production, and then the verdict |
| Reference.VerdictIsExact | agent_resilience/decision.py:56-59 | the verdict on the JSON itself: recovered exactly if an error rate below one is shown, as number, readable text or False, in the metrics or in the evidence itself; not recovered exactly if none is, or one that is not below one; anything else raises |
| Reference.PolicyFollowsOrder | agent_resilience/decision.py:37-70 | on the fault-free track the policy asks for the next of the six tools, and after them completes exactly if the scenario shows an error rate below one and fails exactly if it shows none or another |
| ReferenceRuns.ScenarioIsExpected | agent_resilience/tools.py:45-67 | for the tool that is due the scenario backend fails transiently or returns the fault-free result |
| ReferenceChains.ReferenceStaysOnTrack | agent_resilience/runtime.py:143-176 | every checkpoint of a reference workflow has a prefix of the six steps and exactly the fault-free evidence |
| ReferenceChains.GuardIsExact | agent_resilience/loop_detector.py:13-28 | the next request is stopped exactly if the budget is used up or the tool was tried threshold - 1 times in vain, threshold - 2 if it is not the first |
| ReferenceChains.TolerableChainsAreNotStopped | agent_resilience/runtime.py:97-106 | within these limits no reference workflow is stopped |
| ReferenceRuns.CrashesLeaveNoTrace | agent_resilience/decision.py:37-70 | under all crashes, transient failures, redeliveries and interleavings the workflow is on the fault-free track; completed means approved restart and an error rate below one in its evidence, failed means none or another |
| EndToEnd.ToleranceIsExact | agent_resilience/runtime.py:91-106 | over every such run a request passes exactly while the tool failed at most threshold - 2 times, threshold - 3 if it is not the first |
| EndToEnd.TolerableRunsDecide | agent_resilience/decision.py:54-70 | within the tolerance a workflow with nothing queued, not waiting, rejected or dead-lettered, is completed exactly if its evidence shows an error rate below one, and failed exactly if it shows none or another |
| Claims.Reclaims | agent_resilience/store.py:169-195 | from every state of a disciplined run and every time, the live row of a task can be claimed again at a later time, its own worker crashing if there is one, while the workers of other tasks keep theirs |
| Recovery.NotAskedYet | agent_resilience/runtime.py:112-121 | a reference workflow about to request its restart has no approval row for it, so the row it writes is undecided |
| Earnings.ResultsAreEarned | agent_resilience/tools.py:45-51 | in every faithful run, under any interleaving, each tool with a recorded result, and each finished one, had been requested more often than the scenario fails it |
| Feasibility.DecidedWasFeasible | agent_resilience/loop_detector.py:13-20 | every checkpoint of a chain that came through all six tools had guard and budget left for the failures still to come, unless a worker was just carrying out its request |
| EndToEnd.DecisionIsReachable | agent_resilience/worker.py:29-70 | from every state of a faithful disciplined run, whatever crashed and whatever the time, an unfinished workflow for which guard and budget are enough can be brought to the right decision, the clock never going back; without crashes and replays, if nobody is on it and the row's attempts suffice |
| EndToEnd.DecidableIff | agent_resilience/runtime.py:91-106 | and exactly then, for every workflow: a decision can be reached if and only if the right one is made already, or the workflow is unfinished with guard and budget enough, or a worker is carrying out a request after which they are, or is about to write the approval row of such an action |
| EndToEnd.DecidableIffFeasible | agent_resilience/loop_detector.py:13-20 | for an unfinished workflow that no worker runs, the checkpoint alone decides: guard and budget are enough or no continuation decides it |
| EndToEnd.NewIncidentsAreDecided | agent_resilience/decision.py:37-70 | from empty tables, an incident can be decided if and only if its scenario is tolerable; without crashes and replays, if the restart does not fail and the attempts suffice |
| EndToEnd.DefaultTolerance | agent_resilience/loop_detector.py:7-28 | for the default threshold a scenario is tolerable exactly if it fails the first tool at most twice, each other one at most once, and the budget holds all requests |
| FailingRestarts.FailingRestartsNeverFinish | agent_resilience/tools.py:96-97 | in every faithful run, under any interleaving, a pending restart that the scenario fails at its count stays at the restart with that count, unless it is rejected |
| EndToEnd.FailingRestartsAreReached | agent_resilience/tools.py:45-51 | every scenario that fails the restart, and can be worked off up to it, has runs that come to this |
| EndToEnd.RestartDecidesIff | agent_resilience/runtime.py:133-141 | a workflow whose restart is pending can be decided exactly if its requests outnumber the scenario's failures |
| Stranded.LostForever | agent_resilience/runtime.py:117-119 | in every disciplined run, a waiting workflow whose approval row is decided, or missing with nobody about to write it, never makes another checkpoint |
| Stranded.CrashBeforeTheRowStrands | agent_resilience/runtime.py:118-119 | every crash between the waiting checkpoint and the approval row causes that |
| Stranded.DecidedActionStrands | agent_resilience/store.py:266-271 | and so does every second request of an action that was decided before |
| Stranded.CutVerdictStrands | agent_resilience/api.py:215-217 | a crash of an approval between verdict and save does it too: approved, no other verdict accepted, and no further checkpoint in any disciplined continuation |

## Left out

- The AWS store, queue and tools, whose guarantees lie in DynamoDB, SQS, CloudWatch and ECS.
- The OpenAI decision engine: any decision, retryable error, permanent error or crash stands for it.
- HTTP routing, bearer tokens, dashboard, event streaming and listings: only the state changes of the endpoints.
- Metrics, tracing and the chaos pause, which do not touch workflow state.
- SQL text, transactions and threads: every store call is one atomic update of the tables.
- Hashes and JSON text: argument hash and evidence fingerprint are arbitrary functions of the configuration, tool names are a datatype, JSON numbers are exact.
- Event payloads, actors, timestamps kept for display, queue payloads and the error text of queue rows.
- Texts the code composes from parts (loop reasons, validation errors, stale checkpoint) are constructors of one datatype; the sentences of the reference policy are shortened.
- Decisions are only constrained by the validator of `AgentDecision`; the length and pattern limits of its fields are not modelled, so more decisions are allowed than the engine can construct.
- Worker.DurableWorker.Serve: any finite number of rounds stands for the endless loop, which a stop event ends, and so it is for Worker.DurableWorker.Heartbeat and its cancellation; the waits between rounds are not modelled.
- LiveRuns.RowsAndWorkflowsAgree: holds under H1 to H3.
- Histories.AcceptedHistoriesArePowerFree: for tool budgets of at least 1; the constructor of the loop guard accepts smaller ones, with which no request ever passes.
- EndToEnd.DecisionIsReachable: says that turns to the decision exist; that workers keep claiming, and humans approving, is not modelled. It asks for a lease that is not negative, as do the other results on decisions that can be reached. Its condition for doing without crashes and replays is sufficient only.
- ApprovalGate.RejectedActionsNeverRun: leaves out two argument maps with the same sixteen characters of hash, for which the code itself cannot tell the actions apart.
