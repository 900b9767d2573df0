# floww, modelled and proved in Dafny

floww is a durable workflow engine on Postgres. A workflow handler is ordinary code that asks its context for
activities and signals. It is run from the top again and again, on the events recorded so far, until it returns.
Two polling workers claim rows of four tables, call handlers and settle the claims.

`dafny verify dfyconfig.toml` checks the project.

## How the model is built

* **Tables** (`Schema`, `Transactions`): workflows, tasks, activities and signals as maps by id. Each committed
  transaction is a function on them; `None` means that it failed and rolled back whole.
* **Storage** (`Postgres`): the storage object with its four tables as fields that the methods change statement by
  statement, with rollback. Each method is proved to commit what its function in `Transactions` says or to change nothing;
  an infrastructure fault may strike at any statement or at the commit. The claim statement is built on `ClaimQuery`.
* **Replay** (`Replay`): a handler is a function from the answers consumed so far to its next request: start an activity,
  get a future, receive a signal, return, suspend, or raise an error. A start may be answered with the error of a refused
  insert. Decoding belongs to the handler. `Laws` compares replays on growing events for any handler; `Handlers` has the
  documented handlers, and everything that is made of `ExecuteActivity` and `ReceiveSignal` alone, with the hypotheses
  they meet.
* **The machine** (`Engine`): one label for every committed statement or transaction and every action of a worker in
  between: enqueue, signal, claims, the two separate loads, each request of a handler, settlements, crashes, cleanup and
  the clock. Any number of claims on any rows can be open at once, stale ones included. History variables record
  invocations, claims and rescheduling; no step depends on them.
* **Workers** (`Handling`, `Worker`): what a worker does with one claim, as imperative code over the storage object, proved
  to be a run of the machine; and the polling loop with its semaphore, wait group and stop channel, as a state machine of
  its own and as imperative code that refines it while handlers finish at any moment. `Batches` shows that a claim of a
  whole batch does what single claims one after another do, so the machine claims one row at a time.
* **Theorems**: `Wakeup` (no lost wake-up), `Growth`, `Durable` and `Completion` (replay and direct execution),
  `Conservation`, `Retry` and `Attempts`, `Outcomes`, `Schedule` (leases, backoff, wake-up times), `Prompt`, `Ranking` and
  `Drain` (draining). `Limits` and `Witnesses` show where they stop, the latter with runs from the empty store.
  `Integrity`, `Frames`, `RunInvariants`, `Lease` and `Sets` hold the invariants and frames they share.

Hypotheses are written where they are used. They are:

* *Own keys* (`OwnKeys`): activity keys lie in the namespace of the workflow that starts them, as default keys do.
  Version 5 ids are injective in namespace and tag; version 7 ids come from a counter and are never used twice.
* *Await style* (`Awaits`): a handler returns every error of its context as soon as it sees it: a suspension
  (`Propagates`, which also says that it invents none) and the error of a refused insert (`RaisesRefused`).
  `Wakeup.LostOnlyByRefusal` says what is left without the second half, and `Witnesses.RefusalStrands` that it is needed.
* `FuturesStarted`: a future comes from an earlier start; Go's types leave no other way. `Collects`: what a handler starts
  on a replay that ends, it also gets there. `Bounded`: no path is longer than n. The last two only where needed.
  All but Collects speak of paths, that is, of answers that fit the requests; `Handlers.ProgramsQualify` and
  `Handlers.FanOutQualifies` say which documented handlers meet them.
* *Lease discipline* (`Leased`): an activity claim is settled only while it is the latest on its row. The code does not
  enforce this. It is not assumed for no lost wake-up, the retry bounds, signals, failure causes, provenance, integrity,
  idempotent enqueues, leases, backoff, cleanup and late workers.
* *Prompt workers* (`Timely`): nothing is claimed past its lease and no claim is lost. Used only for draining; it implies
  lease discipline.
* One claim statement is atomic.

## Where the code differs from its documentation

The model follows the code.

* floww's `README.md:56` says that duplicate signals are silently ignored. The insert has no conflict clause, so the
  call fails and rolls back (`Outcomes.SignalAcceptedIff`).
* floww's `README.md:344` calls the workflow's maximum attempts a maximum of task executions. Only rescheduling counts
  (`Attempts.AttemptsAreReschedulings`), and with k claims open at a time the counter can reach max_attempts - 1 + k and
  no more (`Attempts.WorkflowRetriesBounded`, `Witnesses.AttemptBoundIsReached`). `Attempts.ExceedsIff` says which step
  takes it past the limit.
* The handler at floww's `README.md:245-264` looks at a second signal after it saw that the first is missing. When the
  second arrives first and the first arrives in between, a later replay does not start the activity an earlier one has
  started (`Limits.RaceAbandonsIff`). A handler that propagates suspension abandons nothing
  (`Laws.PropagatingKeepsLaws`).
* Completed and failed are not final for a workflow: updates are by id only (`Outcomes.StatusChangesIff`,
  `Witnesses.StatusFlips`). Neither is completed for an activity once a lost lease settles late
  (`Growth.SettlementKeepsHistoryIff`, `Witnesses.RecordedIsTakenBack`).

## Model

| member | source | states |
|---|---|---|
| `Wakeup.NoLostWakeup` | storage/postgres/activities.go:271-286 | In every reachable state, crashes, torn loads, refused inserts and stale claims included, a running await-style workflow has an open task, or its replay waits for an activity that is pending or running or for a signal with no row. |
| `Wakeup.LostOnlyByRefusal` | workflow_context.go:76-80 | For handlers that propagate suspension but may go on after a refused insert, the one other case is a replay suspended on an activity that has no row because all its inserts were refused. |
| `Wakeup.ShrunkParks` | storage/postgres/activities.go:271-286 | A run that suspended having seen at least the current events leaves the workflow parked on the current tables. |
| `Wakeup.NoneLostStep` | storage/postgres/signals.go:27-43 | Every step keeps: the task of the latest event is open or the workflow is parked, and a claim on it has seen every event. |
| `Drain.ComesToRest` | activity_worker.go:261-325 | In every infinite execution with prompt workers that do not neglect it, a workflow with a bounded await-style handler that gets no more signals is, from some point on, completed, failed, or waiting for a signal that was never sent. |
| `Drain.RowsAtMost` | workflow_context.go:64-84 | Lease discipline and await style: a handler with at most n requests never has more than n activity rows. |
| `Drain.ConcernLowers` | workflow_worker.go:282-345 | Prompt workers and a bounded handler: every step on a workflow adds an activity row or lowers the potential of its attempts, open tasks, claims and unanswered requests. |
| `Drain.Drains` | activity_worker.go:261-325 | In every infinite execution with prompt workers, a workflow with a bounded await-style handler that gets no more signals is worked on only finitely often. |
| `Drain.BusyMeansWork` | workflow_worker.go:282-345 | While anything of a workflow is unsettled or pending there is, after some time, a step to take on it. |
| `Drain.IdleIsEnd` | workflow.go:143-156 | With prompt workers, an await-style workflow with nothing unsettled or pending is completed, failed, or waits for a signal that was never sent. |
| `Prompt.OrderlyStep` | workflow_worker.go:282-345 | With prompt workers, open claims and running rows match one to one, and lease discipline holds by itself. |
| `Completion.RowsAreThePath` | workflow_context.go:64-84 | Lease discipline and await style: when a replay has returned, the workflow's activity rows are exactly the activities on its path, one per key, each with name, input, priority, attempts limit and stuck timeout of its first request, and with its schedule as long as it has never been claimed. |
| `Completion.ReturnedRunIsDirect` | workflow.go:140-152 | Lease discipline and await style: a replay that returned saw exactly what one uninterrupted execution with the recorded values sees, and there is no other such execution. |
| `Completion.FinishedForGood` | workflow.go:152-154 | Lease discipline, await style, a handler that collects what it starts: once it has run to its end every activity row is completed, and after any further run the rows are the same. |
| `Completion.FailedNeverReturns` | storage/postgres/activities.go:371-395 | Lease discipline, await style, a handler that collects what it starts: a workflow with a failed activity never gets to CompleteWorkflow, on any later replay. |
| `Durable.LaterReplayExtends` | workflow_context.go:64-84 | Lease discipline and await style: a run claimed later never contradicts the settled answers of this one, and contains them as a prefix once it has ended without a refused insert. |
| `Replay.TracesAgree` | workflow_context.go:64-84 | Two replays on the same events agree as far as both go. |
| `Replay.ReplayIsDirectExecution` | workflow_context.go:131-142 | A replay is the direct execution if and only if every value asked for has been recorded. |
| `Replay.ReturnedReplayIsDirect` | workflow.go:140-152 | Await style: a replay that returned has exactly the answers of the one uninterrupted execution. |
| `Replay.ReplayExtends` | workflow_context.go:64-84 | Where suspension propagates, the settled answers of a replay are a prefix of every finished replay on more events. |
| `Replay.AttemptExtends` | workflow_context.go:73-84 | The same for await style when inserts may have been refused on either replay. |
| `Replay.ShrunkStillSuspends` | future.go:22-34 | Where suspension propagates, a replay that suspends also suspends on fewer events, at the latest where it did before. |
| `Replay.CollectsIff` | future.go:22-34 | A handler can end with a started activity unrecorded if and only if it can end without having got it. |
| `Laws.PrefixLawIff` | future.go:22-34 | The answers of replays, missing ones included, never contradict earlier ones exactly for handlers that make no request after a missing answer. |
| `Laws.StartsLawIff` | workflow_context.go:50-85 | For handlers without endless paths: growing events never make an ended replay drop an activity that an earlier one started if and only if no single new event does. |
| `Laws.PropagatingKeepsLaws` | workflow_context.go:91-105 | Handlers that propagate suspension keep both laws. |
| `Handlers.ProgramsQualify` | workflow_context.go:91-167 | Every handler made of ExecuteActivity and ReceiveSignal alone is await style, gets only what it started, collects what it starts, and makes at most two requests a call. |
| `Handlers.OrderQualifies` | example/order.go:128-174 | So is the example order handler, with at most six requests. |
| `Handlers.FanOutQualifies` | README.md:160-180 | The documented fan-out handler meets all hypotheses, Collects included. |
| `Handlers.FireAndForgetDoesNotCollect` | workflow_context.go:73-84 | A handler that starts an activity and returns meets every hypothesis but Collects. |
| `Handlers.HeedlessIsNotAwaitStyle` | workflow_context.go:76-80 | A handler that ignores the error of a start and gets the future meets every hypothesis but RaisesRefused. |
| `Conservation.WakeupsConserved` | storage/postgres/workflow_tasks.go:30-49 | Under lease discipline every existing workflow has 1 + its signals + its completed activities task rows. |
| `Retry.ActivityRetriesBounded` | activity_worker.go:307-323 | Over all interleavings attempts are at most max(1, max_attempts) plus the row's stuck re-claims. |
| `Attempts.WorkflowRetriesBounded` | workflow_worker.go:327-341 | With at most k claims open at once attempts are at least 1, at most max_attempts - 1 + k, and exactly 1 when max_attempts is 0 or 1. |
| `Attempts.AttemptsAreReschedulings` | storage/postgres/workflow_tasks.go:426-431 | Attempts are 1 plus the number of reschedulings in the run; claims, stuck re-claims and wake-ups cost none. |
| `Attempts.ExceedsIff` | workflow_worker.go:327-341 | A step takes a workflow past its limit if and only if it reschedules on a claim from before the last attempt after that attempt has been used up. |
| `Growth.SignalsOnlyGrow` | storage/postgres/signals.go:114-157 | Over any run delivered signals stay, unchanged, while the workflow exists. |
| `Growth.HistoryOnlyGrows` | storage/postgres/workflows.go:145-183 | Under lease discipline recorded outputs stay, unchanged, while the workflow exists. |
| `Growth.SettlementKeepsHistoryIff` | storage/postgres/activities.go:343-367 | Without the discipline a settlement keeps all histories if and only if its row is not completed or it completes it again with the same output. |
| `Outcomes.TablesStayConsistent` | migrations/init_floww.up.sql:125-128 | In every reachable state keys are unique and every task, activity and signal has its workflow. |
| `Outcomes.FailureHasCause` | storage/postgres/workflows.go:216-240 | A workflow that became failed in a run did so in a step that gave up a claim for an unrecoverable error or exhausted attempts and failed that claim's row with it. |
| `Outcomes.StatusChangesIff` | storage/postgres/workflows.go:187-228 | In a step the status changes if and only if a run of the workflow returns while it is not completed or a claim of it is given up while it is not failed. |
| `Outcomes.RunningNeverReentered` | storage/postgres/workflows.go:222-228 | Over any run a workflow that has left running never gets back. |
| `Outcomes.RaisedIsSettledIff` | workflow_worker.go:327-341 | Over any run after a handler raised an error: while its claim is open it can be failed exactly when the error is unrecoverable or the attempts are used up, rescheduled exactly otherwise, and never completed. |
| `Outcomes.HistoryHasProvenance` | activity_worker.go:278-285 | Every output in a history was returned by a successful invocation on the row's stored input. |
| `Outcomes.EnqueueIdempotent` | workflow.go:231-255 | Enqueues with one key, any steps in between, return one id and insert one task; while it exists the row keeps name, input, options and the time of creation of the first call. |
| `Outcomes.SignalAcceptedIff` | storage/postgres/signals.go:58-97 | A signal is accepted exactly for an unused key and an existing workflow, and then adds just this row and this event. |
| `Outcomes.StartedRowIsOwnIff` | storage/postgres/activities.go:37-51 | After an insert the workflow has a row for the key exactly when no other workflow holds it. |
| `Outcomes.CleanupIsSelective` | storage/postgres/workflows.go:254-286 | Every workflow that cleanup removes had exactly the status asked for, never running, and was created before the cutoff; it removes at most limit of them, exactly limit if any such workflow is left, each with all its rows, and nothing else. |
| `Outcomes.YoungIsKept` | storage/postgres/workflows.go:268-276 | Over any run, a workflow survives every cleanup whose cutoff is not later than the time of its enqueue. |
| `Outcomes.LateWorkersChangeNothing` | storage/postgres/activities.go:334-336 | Whatever a worker does for a workflow that is gone changes no table. |
| `Schedule.TaskClaimsApart` | storage/postgres/workflow_tasks.go:92-98 | Over any run, two claims of a task with no settlement of it in between lie at least its stuck timeout apart. |
| `Schedule.ActivityClaimsApart` | storage/postgres/activities.go:101-107 | And so do two claims of an activity. |
| `Schedule.TaskBackoffIff` | workflow_worker.go:337-341 | A rescheduled task is ready again exactly from the end of its backoff on. |
| `Schedule.ActivityBackoffIff` | activity_worker.go:317-321 | And so is an activity. |
| `Schedule.EventWakesAtOnce` | storage/postgres/activities.go:277-283 | With every signal and completed activity comes a new task of the workflow that is ready at once. |
| `Schedule.EnqueuedReadyIff` | storage/postgres/workflows.go:46-51 | The first task of a workflow is ready exactly from its schedule on. |
| `Schedule.TasksFollowTheirWorkflow` | storage/postgres/workflow_tasks.go:30-49 | In every reachable state every task has the name, priority and stuck timeout of its workflow. |
| `Schedule.EndsAreStamped` | storage/postgres/workflows.go:187-240 | In every reachable state whatever has ended says when, not in the future and not before its workflow was created; a failed activity has an error and a completed one none. |
| `Witnesses.AttemptBoundIsReached` | storage/postgres/workflow_tasks.go:420-431 | For every limit and every k there is a run from the empty store, never with more than k claims open, that reaches the bound. |
| `Witnesses.LimitIsPassed` | storage/postgres/workflow_tasks.go:420-431 | For every limit of 2 or more there is a run that takes attempts past it. |
| `Witnesses.RefusalStrands` | workflow_context.go:76-84 | Without RaisesRefused a reachable running workflow has no open task, waits for nothing that is coming, and no worker can ever take a step on it. |
| `Witnesses.RecordedIsTakenBack` | storage/postgres/activities.go:349-355 | A reachable late settlement by a lapsed claim takes a recorded output out of history. |
| `Witnesses.EndsBeforeItsActivity` | workflow.go:152-154 | A reachable workflow is completed while an activity it started and never got is pending. |
| `Witnesses.StatusFlips` | storage/postgres/workflows.go:187-228 | When one claim is about to give up and another about to return, either order leads through one end status to the other. |
| `Witnesses.AtOddsIsReachable` | storage/postgres/workflows.go:187-228 | Such a state is reached from the empty store with one signal and one error. |
| `Limits.JoinedNamesShareARow` | activity.go:30-32 | Name and discriminator are joined without a separator, so two activities can share a key, and the second is never inserted. |
| `Limits.RaceAbandonsIff` | README.md:245-264 | The documented two-signal handler drops the reject activity it had started if and only if the rejection was there first, the approval was not, and the approval came in between. |
| `Limits.RaceBreaksStartsLaw` | README.md:245-264 | So it breaks the law on starts. |
| `Limits.RaceBreaksPrefixLaw` | README.md:245-264 | And the law on answers. |
| `Limits.LawsDiffer` | README.md:245-264 | A handler that looks at two signals before it decides, and starts nothing, keeps the law on starts and breaks the one on answers. |
| `Worker.BoundedConcurrency` | workflow_worker.go:210-260 | Always: len(sem) is the handlers at work plus a slot just taken, at most Concurrency; the loop never blocks on a slot and every handler can release its own. |
| `Worker.GracefulStop` | workflow_worker.go:143-161 | When Stop returns nil the loop has exited, no handler is in flight, every claim received was dispatched exactly once and has finished, and nothing follows. |
| `Worker.PollsAgainIff` | workflow_worker.go:188-203 | The loop polls without a tick only after a batch of which it received all it had asked for, not none, and only if not stopped; after any other it waits; it exits only if stopped. |
| `Worker.Poller.ProcessTasks` | activity_worker.go:189-240 | One batch of the imperative loop is a run of the polling machine whatever handlers do meanwhile. It asks for the slots free when they were read, within the batch size; it says not drained exactly when it received as many as it asked for, and not none; it never blocks on a slot and leaves every received claim dispatched once, in order. |
| `ClaimQuery.BestOfBests` | storage/postgres/workflow_tasks.go:65-91 | The best K of the best K due rows and the best K stuck rows are a best K of all ready rows: min(K, ready) of them, and no row left out is strictly ahead of one picked. |
| `ClaimQuery.OrderByLimit` | storage/postgres/activities.go:74-82 | Selecting row by row yields distinct rows that are a best K: none left out has a higher priority than one picked, or the same and an earlier schedule, and they come in that order. |
| `ClaimQuery.ClaimCandidates` | storage/postgres/activities.go:73-99 | The two-stage query, run on due and stuck rows, picks a best K of their union: no row left out has a higher priority than one picked, or the same and an earlier schedule. |
| `Batches.TaskBatchIsSteps` | storage/postgres/workflow_tasks.go:92-109 | Claiming distinct ready tasks one by one is a run of the machine that updates the same rows as the batch and hands out the claims the batch returns. |
| `Batches.ActivityBatchIsSteps` | storage/postgres/activities.go:101-127 | The same for activities. |
| `Handling.WorkflowContext.ExecuteActivityAsync` | workflow_context.go:50-85 | A recorded key resolves at once and inserts nothing; any other inserts under its key and is unresolved. |
| `Handling.WorkflowContext.ReceiveSignalAsync` | workflow_context.go:118-143 | The future resolves to the loaded signal, or suspends. |
| `Handling.WorkflowWorker.HandleWorkflowTaskError` | workflow_worker.go:321-360 | Fails task and workflow exactly for an unrecoverable error or exhausted attempts; else the task is pending until the backoff has passed and the workflow has one attempt more. A fault loses the claim and changes nothing. |
| `Handling.ActivityWorker.HandleActivity` | activity_worker.go:261-286 | One handler call on the stored input, then one settlement: an output completes the activity with it; an error, or an unregistered handler, fails it or has it wait for its backoff. |
| `Handling.WorkflowWorker.Invoke` | workflow.go:140-142 | The first n requests of the handler on the loaded events, for any n, are the steps of the machine for its claim with the machine's answers; a refused insert is handed to the handler. |
| `Handling.WorkflowWorker.RunWorkflow` | workflow.go:100-157 | Loading, replaying and completing is a run of the machine on this claim only. Short of a fault, which strikes a load or the completion, its outcome is what the handler's last request says: the error raised, recoverable or not, a suspension, or the workflow completed. Or it is still going after n requests. |
| `Handling.WorkflowWorker.HandleWorkflowTask` | workflow_worker.go:282-318 | A whole claim is a run of the machine on this claim only that ends by settling it or by losing it to a fault, unless the handler is still going after n requests. Once settled: a handler that raised an error has task and workflow failed exactly when the error is unrecoverable or attempts are used up, else the task is pending until the backoff has passed with one attempt more; one that suspended or returned has its task completed and no error, and the workflow is completed if it returned. |
| `Handling.WorkflowWorker.CleanColdWorkflows` | workflow_worker.go:362-399 | Removes nothing without a retention, else only completed workflows older than it, all of them unless it reached its limit. |
| `Handling.WorkflowWorker.CleanDeadWorkflows` | workflow_worker.go:401-438 | The same for failed workflows. |
| `Handling.ActivityWorker.CompleteActivity` | activity_worker.go:289-298 | Completes the activity with its output and no error and inserts a task of the workflow that is ready at once, or loses the claim to a fault. |
| `Handling.ActivityWorker.HandleActivityError` | activity_worker.go:301-340 | Fails activity and workflow exactly for an unrecoverable error or exhausted attempts, else the activity is pending until the backoff has passed; or loses the claim to a fault. |
| `Postgres.CandidateTasks` | storage/postgres/workflow_tasks.go:139-167 | The candidates are distinct task rows and a best K of the ready ones whose name passes the filter (an empty one passes all): no ready row left out has a higher priority, or the same and an earlier schedule. |
| `Postgres.CandidateActivities` | storage/postgres/activities.go:129-157 | The same for activities. |
| `Postgres.ScanRows` | storage/postgres/workflows.go:162-182 | The row loop builds exactly the map of the rows it is given, no more and no less. |
| `Postgres.SelectHistory` | storage/postgres/workflows.go:148-154 | The history query returns just the (key, output) pairs of the workflow's completed activities. |
| `Postgres.SelectSignals` | storage/postgres/signals.go:124-129 | The signal query returns just the (key, input) pairs delivered to the workflow. |
| `Postgres.Storage.AddTask` | storage/postgres/workflow_tasks.go:23-63 | A task copied from its workflow; nothing for a missing workflow or a known task id. |
| `Postgres.Storage.UpsertWorkflow` | storage/postgres/workflows.go:69-128 | A taken key leaves the table alone and yields the id of its row; otherwise the row is new. |
| `Postgres.Storage.InsertWorkflow` | storage/postgres/workflows.go:16-60 | Both inserts commit or neither; the task goes to the fresh id, so a duplicate inserts none. |
| `Postgres.Storage.CompleteWorkflow` | storage/postgres/workflows.go:187-206 | The workflow is completed whatever its status was, or is missing and nothing changes. |
| `Postgres.Storage.DeleteWorkflows` | storage/postgres/workflows.go:262-286 | Only workflows of exactly the status asked for, created before the cutoff, go, with all their rows; min(limit, qualifying) of them, and if fewer than limit go none is left. Their number is returned. |
| `Postgres.Storage.DeleteColdWorkflows` | storage/postgres/workflows.go:242-246 | Removes completed workflows only. |
| `Postgres.Storage.DeleteDeadWorkflows` | storage/postgres/workflows.go:248-252 | Removes failed workflows only. |
| `Postgres.Storage.ListHistoryEventsForWorkflow` | storage/postgres/workflows.go:147-183 | Returns exactly the completed outputs of the workflow by key. |
| `Postgres.Storage.ListWorkflowSignals` | storage/postgres/signals.go:123-158 | Returns exactly the signals delivered to the workflow by key. |
| `Postgres.Storage.ListActiveWorkflowTasks` | storage/postgres/workflow_tasks.go:215-294 | Claims a best K of the ready tasks, by priority and then schedule, changes no other row, and returns each claimed task once with its workflow. A claimed row is ready again exactly from its stuck timeout on. |
| `Postgres.Storage.ListActiveActivities` | storage/postgres/activities.go:187-261 | Claims a best K of the ready activities, by priority and then schedule, counting the attempt, changes no other row, and returns each once. A claimed row is ready again exactly from its stuck timeout on. |
| `Postgres.Storage.CompleteWorkflowTask` | storage/postgres/workflow_tasks.go:298-321 | Task completed and workflow error cleared together, or nothing; fails only when a row is missing or the database does. |
| `Postgres.Storage.ReScheduleWorkflowTask` | storage/postgres/workflow_tasks.go:366-391 | Task pending and workflow attempt counted together, or nothing. |
| `Postgres.Storage.FailWorkflowTask` | storage/postgres/workflow_tasks.go:447-471 | Task and workflow failed together, or nothing. |
| `Postgres.Storage.InsertActivity` | storage/postgres/activities.go:17-71 | A used key changes nothing; otherwise one pending row, if the workflow exists. |
| `Postgres.Storage.CompleteActivity` | storage/postgres/activities.go:265-292 | Activity completed and wake-up task inserted together, or nothing. |
| `Postgres.Storage.ReScheduleActivity` | storage/postgres/activities.go:343-367 | The row goes back to pending, whatever its status was. |
| `Postgres.Storage.FailActivity` | storage/postgres/activities.go:371-395 | Activity and workflow failed together, or nothing. |
| `Postgres.Storage.InsertSignal` | storage/postgres/signals.go:18-49 | Signal and wake-up task inserted together, or nothing. |
| `Integrity.ValidStep` | migrations/init_floww.up.sql:20-35 | Every step keeps keys unique, foreign keys, ids below the counter and claims that match their rows. |
| `RunInvariants.RunsSoundStep` | workflow.go:112-156 | Every step keeps: a run's answers are a replay, with refused inserts, on the snapshots it loaded, all it inserted has rows, and a run that returned has ended its workflow. |

## Left out

- Go contexts, timeouts, the connection pool and logging: what is left of them is an infrastructure fault at any statement.
- JSON and custom encoders: values are opaque, and decoding is part of a handler.
- SHA-1 and the layout of ids: keys are pairs of namespace and tag, fresh ids come from a counter.
- Row locks and isolation levels: each statement or transaction is atomic, and so is a claim statement.
- 32-bit counters and 64-bit durations are unbounded integers; priorities, timeouts and schedules carry no range.
- Several workers sharing one storage object in memory: `Handling` runs a claim alone; interleavings are the machine's.
- A handler that reads the clock for an activity's schedule, as the example does, is modelled with that schedule fixed; its row keeps the schedule of the first request, whatever later replays ask for.
- The endless outer loop of the poller and its ticker: `Worker` has them as steps of its machine; its imperative code covers one batch.
- Claims committed whose result never reaches the worker: in the machine, a claim followed by a crash; the polling loop counts only claims it received.
- Callers that put an enqueue or a signal into a larger transaction of their own: here each is its own transaction.
- The aborted status and the workflow output column are never written by the code.
- Created and updated timestamps other than the one cleanup reads; option builders; backoff formulas, which are any nonnegative delay; the example program.
