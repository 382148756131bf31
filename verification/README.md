# RunMesh in Dafny

A model of RunMesh's durable core, a workflow engine that keeps all of its state in PostgreSQL, and proofs of
what it promises over whole executions. `dafny verify dfyconfig.toml` checks everything.

| file | module | subject |
|---|---|---|
| `Dag.dfy` | `Dag` | `ValidateDAG`: local rules and the depth-first cycle search |
| `TaskStates.dfy` | `TaskStates` | task statuses, the transitions table, retry backoff |
| `Lifecycle.dfy`, `Executions.dfy` | same names | the tables as a value, every transaction as a function, executions and how to join them |
| `Rows.dfy`, `Steps.dfy`, `Causes.dfy` | same names | the moves a row can make, the moves each transaction makes, what must have caused a change |
| `Invariants.dfy` | `Invariants` | one invariant over all tables, kept by every step |
| `Progress.dfy`, `Completion.dfy`, `Rescue.dfy` | same names | deadlock freedom, what RetryRun recovers, wedged runs, when a run can still succeed |
| `Budget.dfy`, `Bounds.dfy` | same names | attempt budget, bounded work |
| `Witnesses.dfy` | `Witnesses` | executions from empty tables that wedge a run, overdraw the budget and give a lost lease back |
| `Fencing.dfy` | `Fencing` | how leases end and last, cancellation, permanence of success, idempotent submission |
| `Effects.dfy`, `Dependencies.dfy` | same names | what each transaction does to every row, run and event; the dependencies of a submitted graph over executions |
| `Recovery.dfy` | `Recovery` | death and replay, readiness, completion, attempt history, conservation of events |
| `Store.dfy` | `Stores` | the transactions as methods of a class that records its calls; its tables are always those of a legal execution |
| `Outbox.dfy`, `OutboxInserts.dfy`, `OutboxTiming.dfy` | same names | the publishing protocol, when an insert is safe, strict order and its exact condition |
| `OutboxLoop.dfy`, `OutboxDrain.dfy` | same names | the publishing loop among other publishers, and what it drains when left alone |
| `TokenBucket.dfy` | `TokenBucket` | the rate limiter script |

**Lifecycle.** A `State` holds the runs, the task rows with their dependencies and attempts, the outbox and the
clock. A `Step` is one transaction: a submission, a worker call, a scheduler batch or an operator command.
`After(s, xs)` is the state after a sequence of timed steps in any interleaving, over any number of runs,
tasks and workers. `Next(s, x, r)` says of two states what a step can have done; the theorems about executions
are inductions over it.

**Outbox.** A `World` holds the event rows, the broker's log, copies in flight and the batches of any number of
publishers. Publishers can stall, crash, time out with the append in doubt, lose or release their claims; copies
land late, more than once or never.

## Assumptions

- Each transaction is one atomic step, and all clock readings (PostgreSQL `now()`, Go `time.Now()`) come from one
  clock that does not go back. Times are integers in nanoseconds.
- `FailTask` and `recoverExpired` lock the task but not the run, so the run status they act on may be stale. It is
  an arbitrary parameter `seen` of those steps, and most theorems hold for every value of it. Where more is needed
  it is said: `Honest` means that CANCELLED is read only of a cancelled run, `StaleAlong` that it is read only of a
  run cancelled now or earlier, `Fresh` that a cancelled run is read as CANCELLED.
- Generated ids are new. Graphs need no assumption: the store holds only what `CreateWorkflow` validated.
- One tenant: ids are unique, and idempotency keys are compared within the tenant.
- Outbox order is (`created_at`, `id`). The theorems about it assume that a new event sorts after those of its
  key that are logged, on the wire, or in the hands of a publisher that may still send them (`InOrder`). `now()`
  and a random uuid do not guarantee this. The assumption is exactly what the order needs: without it some legal
  continuation logs the key out of order (`InsertIsSafeExactly`), for good (`LateInsertBreaksOrder`).
- The token bucket computes over reals.

## What differs from the documentation or goes beyond it

- **A publish timeout below the claim TTL does not keep the order.** `docs/delivery-semantics.md` (line 15) and ADR
  0005 ask for a timeout shorter than the TTL, and the configuration checks that. What strict order needs is that
  every copy lands while the claim of its batch is live (`StrictOrder`), and no configuration guarantees that: the
  claim is not read again before a publish and nothing bounds the time between publishes, so a publisher that
  stalls after its claim logs an event after its successor under every setting (`StallBreaksOrder`). Only for
  publishers whose k-th call is over within k timeouts of the claim is there a bound, and it is
  `batchSize * publishTimeout < claimTTL` (`StrictOrderIffBatchFits`), not `publishTimeout < claimTTL`
  (`TimeoutBelowTtlIsNotEnough`). The order in which events *first* appear needs no timing at all
  (`OrderAndNoLoss`).
- **RetryRun does not bring back cancelled siblings.** `FailTask` cancels the waiting siblings of a dead task;
  `ReplayDead` rebuilds them, `RetryRun` does not. It recovers a run exactly when no task of the run is CANCELLED
  before the call (`RetryRecoversExactlyWhenClean`, `RetrySufficesExactlyWhenClean`), and a RUNNING run can still
  succeed without `ReplayDead` exactly as long as none is (`CompletableExactlyWhenClean`). Otherwise the run can end
  up RUNNING with nothing that any command but `CancelRun` can change (`WedgeHappens`, `WedgedForever`). With every
  command at hand, `ReplayDead` included, an unfinished run can succeed exactly while one of its tasks is not
  SUCCEEDED, CANCELLED or BLOCKED (`RecoverableExactlyWhenMovable`).
- **The attempt budget can be overdrawn.** `LeaseTask` does not look at `maximum_attempts`. Every state of an
  execution is within budget exactly when no `ReplayDead` happens in a run with a task that cancellation stopped at
  its last attempt (`AttemptBudget`); `OverdrawHappens` is an execution that exceeds a maximum.
- The transitions table covers every change that workers, the scheduler and `CancelRun` make, and none that
  `RetryRun` and `ReplayDead` make (`TableCoversAllButRevival`).
- A lease is fenced by worker id, not by attempt (ADR 0006 names the worker id among the conditions). An ended lease comes back
  exactly by a `LeaseTask` that is granted to that worker for a positive time (`LeaseComesBackExactlyByGrant`); then
  the worker may complete the task although an earlier lease of its own had run out (`LeaseIsRegained`).

## Model

| member | source | states |
|---|---|---|
| `Dag.CheckTask` | internal/workflow/dag.go:22-47 | a task passes the local checks if and only if its key, handler, bounds and dependencies are in order, and the fault reported for it is true of the graph |
| `Dag.ValidateDAG` | internal/workflow/dag.go:13-76 | accepts exactly the graphs that are locally in order, within the size limits and have a rank falling along every dependency; a rejection names a fault the graph has, for a cycle a task on one |
| `Dag.Search.Visit` | internal/workflow/dag.go:54-69 | the colouring search: grey tasks are a path, black tasks have ranks above their dependencies, and meeting a grey task yields a real cycle |
| `Dag.Search.VisitDependencies` | internal/workflow/dag.go:62-66 | after the loop every dependency is black, and what was black stays so |
| `Dag.CycleExcludesRank` | internal/workflow/dag.go:52-75 | a path from a task to itself and a rank along dependencies exclude each other |
| `Dag.DefaultsAreInsertable` | internal/workflow/dag.go:78-86 | defaults bring an accepted task within the CHECK constraints, are idempotent, put 3 attempts and 300 seconds where there is 0 and change nothing else |
| `TaskStates.DelayDoublesToCap` | internal/workflow/state.go:19-25 | the delay starts at 2 s, doubles to the cap of one hour, and is at the cap exactly from attempt 12 |
| `Stores.Store.LeaseTask` | internal/storage/worker.go:22-51 | a valid store stays valid; exactly a DISPATCHING task is leased: LEASED by this worker until now plus the lease, one attempt more, started now, one task.leased event, every other row as before; otherwise ErrLeaseLost and no change |
| `Stores.Store.StartTask` | internal/storage/worker.go:53-82 | a valid store stays valid; exactly under an unexpired lease of this worker on a LEASED task in a RUNNING run the task is RUNNING and its current attempt marked as executing, nothing else changes |
| `Stores.Store.HeartbeatTask` | internal/storage/worker.go:84-92 | a valid store stays valid; exactly for the holder of an unexpired lease the expiry becomes now plus the lease and nothing else changes; reports whether the run is CANCELLED |
| `Stores.Store.CompleteTask` | internal/storage/worker.go:94-167 | a valid store stays valid; exactly for the holder of a RUNNING task in a RUNNING run: the task is SUCCEEDED with its attempt ended now, each BLOCKED task that waited for it alone is READY now, the run is SUCCEEDED with completed_at now if and only if all its other tasks had succeeded, and the outbox has one task.succeeded and one task.ready for each promoted task more; else ErrLeaseLost and no change |
| `Stores.Store.NotifyChildren` | internal/storage/worker.go:146-151 | one task.ready event for each child just unblocked |
| `Stores.Store.FailTask` | internal/storage/worker.go:169-222 | a valid store stays valid; exactly for the holder: the row is nobody's, its attempt ended now, CANCELLED if and only if the run was read as CANCELLED, else in RETRY_WAIT for exactly the backoff if and only if the failure is retryable and an attempt is left, else DEAD; one event of that kind; a death fails a RUNNING run now and cancels its waiting tasks, every other row is as before |
| `Stores.Store.WakeRetries` | internal/scheduler/scheduler.go:88-90 | a valid store stays valid; no elapsed retry wait is left and nothing else has changed |
| `Stores.Store.RecoverExpired` | internal/scheduler/scheduler.go:186-243 | a valid store stays valid; no selected task is left under an expired lease: each is let go in the status its attempts and the run status read for it call for, with its backoff, its attempt ended now and one event; a RUNNING run with a task that died is FAILED with completed_at now; every other row, siblings included, and every other run is as before |
| `Stores.Store.RecoverTask` | internal/scheduler/scheduler.go:210-241 | the same of one selected task; a row no longer expired is left alone |
| `Stores.Store.Dispatch` | internal/scheduler/scheduler.go:94-128 | a valid store stays valid; each selected task that is READY and due is DISPATCHING with one task.dispatch event, none of them is left READY and due, and nothing else changes |
| `Stores.Store.CancelRun` | internal/storage/postgres.go:300-328 | a valid store stays valid; the run is CANCELLED, none of its tasks waits, held and finished ones and all other runs are as before; ErrConflict and ErrNotFound leave everything alone |
| `Stores.Store.RetryRun` | internal/storage/postgres.go:330-358 | a valid store stays valid; the run is RUNNING, each DEAD task of it READY with an attempt left, every other row as before; ErrConflict when nothing is DEAD |
| `Stores.Store.ReplayDead` | internal/storage/worker.go:303-336 | a valid store stays valid; the task is READY with an attempt left, no task of the run is CANCELLED, each that was is BLOCKED exactly while something upstream is unfinished and otherwise waits for its backoff or is READY, a FAILED run is RUNNING |
| `Stores.Store.CreateWorkflow` | internal/storage/postgres.go:37-62 | stores exactly the graphs the validator accepts, under a name not used yet; a rejection names a fault the graph has |
| `Stores.Store.CreateRun` | internal/storage/postgres.go:128-221 | a valid store stays valid; key, artifact, definition, used key and bound artifact are checked in that order, an error changes nothing, a used key returns its run; otherwise the run is RUNNING and each task of the graph has a row with exactly the rows of its dependencies upstream, BLOCKED if it has any and READY if not, no attempt, available now, the given maximum or 3; all other rows are as before, one run.created event more, and the artifact is bound to the run; a bound artifact stays with its run |
| `Stores.Store.InsertTasks` | internal/storage/postgres.go:189-199 | the first loop inserts each task with the columns just named, and nothing upstream |
| `Stores.Store.InsertDependencies` | internal/storage/postgres.go:200-207 | the second loop gives each row exactly the rows of its dependencies, and changes nothing else |
| `Stores.Store.ValidIsReachable` | internal/storage/worker.go:22-336 | the tables of a valid store are those after the recorded calls, a legal execution from empty tables, and satisfy the invariant |
| `Stores.Store.Perform` | internal/storage/worker.go:22-336 | every step of an execution is carried out by its method |
| `Effects.CompleteDoes` | internal/storage/worker.go:94-167 | the transaction does to rows, runs and events what its method states, column by column and counting every event, exactly under the guard stated there |
| `Effects.FailDoes` | internal/storage/worker.go:169-222 | likewise, with the exit by run status read, retryability and attempts left, and the sweep of siblings after a death |
| `Effects.RecoverDoes` | internal/scheduler/scheduler.go:186-243 | a whole batch, a task selected twice included, takes back each expired lease once, by the first status read for it, and leaves none |
| `Effects.DispatchDoes` | internal/scheduler/scheduler.go:94-128 | a whole batch sends each due task once and leaves none due |
| `Effects.CreateDoes` | internal/storage/postgres.go:185-212 | a submission inserts the graph: rows, dependencies, defaults and event |
| `Effects.ReplayReplays` | internal/storage/worker.go:320-334 | the rebuild after ReplayDead row by row |
| `Dependencies.DependenciesAreHonoured` | internal/storage/postgres.go:189-207 | in every state of every execution after a submission, no task of the graph has had an attempt before all the tasks named in its depends_on have succeeded, and unless CANCELLED it is BLOCKED exactly until then |
| `Dependencies.RunKeepsRowsOf` | internal/storage/postgres.go:200-207 | no step changes run, key or dependencies of a task |
| `Rows.MoveKeepsRow` | migrations/001_initial.up.sql:64-109 | every move of a row keeps attempts, lease columns and backoff of that row consistent |
| `Steps.AutomaticStep` | internal/scheduler/scheduler.go:84-243 | a step without operator moves every row by one of the worker and scheduler moves and reports it in the outbox |
| `Steps.AnyStep` | internal/storage/worker.go:22-336 | so does every step, with the revivals of operators added |
| `Causes.StepExplained` | internal/storage/worker.go:22-336 | whatever changed in a row or run is the effect of that step's guard and write, and of no other |
| `Invariants.CreateKeepsInv` | internal/storage/postgres.go:185-212 | a submission keeps the invariant; the rank of the accepted graph becomes a rank of its rows |
| `Invariants.CompleteKeepsExact` | internal/storage/worker.go:130-151 | promoting the children of one task keeps every row BLOCKED exactly while something upstream is unfinished |
| `Invariants.CompleteKeepsRuns` | internal/storage/worker.go:156-165 | the run becomes SUCCEEDED exactly with its last task |
| `Invariants.ReplayKeepsExact` | internal/storage/worker.go:320-327 | the rebuild gives every CANCELLED task the status its dependencies call for |
| `Invariants.StepKeepsInv` | internal/storage/worker.go:22-336 | all parts of the invariant survive every step |
| `Invariants.Reachable` | internal/storage/worker.go:22-336 | the invariant holds after every execution from empty tables |
| `Progress.UnfinishedRunHasFront` | internal/workflow/dag.go:52-75 | a run not SUCCEEDED has a task with all of its upstream done that can move or is CANCELLED |
| `Progress.DeadlockFree` | internal/storage/worker.go:130-165 | where reads are honest and RetryRun is used only on runs without CANCELLED tasks, a RUNNING run has no CANCELLED task and one that can move |
| `Progress.StaleIsHonest` | internal/storage/worker.go:177-187 | stale reads are honest reads in every execution in which RetryRun does not take the run out of CANCELLED |
| `Progress.DeadlockFreeOnStaleReads` | internal/storage/worker.go:130-187 | deadlock freedom on stale reads, for such executions |
| `Progress.RetryRecoversExactlyWhenClean` | internal/storage/postgres.go:342-352 | the run that RetryRun leaves RUNNING is free of CANCELLED tasks if and only if it was before the call |
| `Progress.CancelledTaskBlocksCompletion` | internal/storage/postgres.go:342-352 | a CANCELLED task keeps its row, and its run from SUCCEEDED, until ReplayDead acts in the run |
| `Progress.DeathThenRetryLeavesSiblings` | internal/storage/postgres.go:330-358 | after death and RetryRun the run is RUNNING, the task READY and a swept sibling still CANCELLED |
| `Progress.WedgedForever` | internal/storage/postgres.go:342-348 | a wedged run keeps status and rows through every execution without CancelRun of it |
| `Progress.StuckExactlyWhenWedged` | internal/storage/postgres.go:330-358 | a RUNNING run is wedged if and only if no step but CancelRun can change one of its tasks |
| `Completion.CompletableExactlyWhenClean` | internal/storage/worker.go:22-222 | a RUNNING run has a legal continuation without ReplayDead that ends in SUCCEEDED if and only if none of its tasks is CANCELLED |
| `Completion.RetrySufficesExactlyWhenClean` | internal/storage/postgres.go:330-358 | after a RetryRun that takes effect the run can succeed without ReplayDead if and only if none of its tasks was CANCELLED before the call |
| `Rescue.RecoverableExactlyWhenMovable` | internal/storage/worker.go:169-336 | an unfinished run has a legal continuation to SUCCEEDED, by whatever commands, if and only if one of its tasks is not SUCCEEDED, CANCELLED or BLOCKED |
| `Rescue.StrandedForever` | internal/storage/worker.go:22-336 | a run without such a task stays unfinished through every execution |
| `Witnesses.RetryWedges` | internal/storage/postgres.go:330-358 | wherever one task is held and all others of the run wait, a permanent failure, RetryRun and a successful new attempt wedge the run |
| `Witnesses.WedgeHappens` | internal/storage/postgres.go:330-358 | an execution from empty tables that wedges a run |
| `Budget.BudgetBreaksExactlyWhenOverdrawn` | internal/storage/worker.go:320-327 | whatever statuses are read, a step breaks the budget if and only if it is a ReplayDead of a DEAD task in a run with a task cancelled at its last attempt |
| `Budget.AttemptBudget` | internal/storage/worker.go:184-191 | every state of an execution is within budget if and only if no such ReplayDead occurs in it |
| `Budget.AttemptsBoundedByRevivals` | internal/storage/worker.go:320-322 | attempts are at most the original maximum plus the number of revivals of that task |
| `Budget.OverdrawnReplayExceeds` | internal/storage/worker.go:320-327 | after any such ReplayDead some continuation takes the task beyond its maximum |
| `Budget.CancellationSpends` | internal/storage/worker.go:184-187 | cancelling a run at a task's last attempt, next to a DEAD task, makes such a replay possible |
| `Witnesses.OverdrawHappens` | internal/storage/worker.go:303-336 | an execution from empty tables in which a task is attempted more often than its maximum |
| `Bounds.MovesBurnFuel` | internal/workflow/state.go:8-15 | every change of status without an operator lowers a measure that starts at five per attempt |
| `Bounds.RunWorkIsBounded` | internal/scheduler/scheduler.go:84-243 | as long as nothing is revived in the runs concerned, new tasks change status at most 5 * maximum_attempts + 3 times each in total, under any interleaving and whatever operators do to other runs |
| `Bounds.CreatedRunWork` | internal/storage/postgres.go:185-207 | the bound holds from the submission that inserted the tasks |
| `Fencing.StaleWorkerIsFenced` | internal/storage/worker.go:53-193 | a worker without the lease gets ErrLeaseLost and no effect from all four calls in every later state until LeaseTask grants it the task; refused calls of LeaseTask do not matter |
| `Fencing.EndedLeaseIsFenced` | internal/storage/worker.go:53-193 | so does, from then on, one whose lease has expired while the row still names it, recovered or not |
| `Fencing.LeaseComesBackExactlyByGrant` | internal/storage/worker.go:29-34 | an ended lease stays ended in a step if and only if the step is not a LeaseTask granted to the worker for a positive time |
| `Fencing.LeaseEndsExactlyByHolder` | internal/storage/worker.go:84-193 | before its expiry a lease is lost or shortened in a step if and only if the step is the holder's own: it completes or fails the attempt, or sends a heartbeat for less time |
| `Fencing.LeaseLasts` | internal/storage/worker.go:84-113 | a lease that runs until a time serves its holder until then in every later state, whatever others do: no call is refused for want of a lease |
| `Fencing.GrantGivesTime` | internal/storage/worker.go:29-92 | LeaseTask and HeartbeatTask give a lease for the time asked for |
| `Witnesses.LeaseIsRegained` | internal/storage/worker.go:22-167 | an execution from empty tables in which a worker is shut out after its lease ran out, is granted the task again and completes it |
| `Fencing.AttemptsDoNotOverlap` | migrations/001_initial.up.sql:96-109 | of any two attempts of a task in a reachable state the earlier ended before the later started |
| `Fencing.CancellationFence` | internal/storage/worker.go:67-113 | in a cancelled run nothing starts or succeeds until a RetryRun takes effect, whatever statuses are read elsewhere |
| `Fencing.CancellationEndsExactlyByRetry` | internal/storage/postgres.go:342-352 | a CANCELLED run stays so in a step if and only if the step is not a RetryRun that finds a DEAD task |
| `Fencing.CancelDrains` | internal/storage/postgres.go:306-319 | CancelRun leaves no waiting task |
| `Fencing.CancellationDrains` | internal/storage/postgres.go:317-319 | from then on, as long as nothing of the run is revived, tasks keep their status except that held ones become CANCELLED |
| `Fencing.SuccessIsPermanent` | internal/workflow/state.go:8-15 | a SUCCEEDED row is never changed again |
| `Fencing.CompletionIsPermanent` | internal/storage/postgres.go:306-352 | a SUCCEEDED run stays so under every command |
| `Fencing.SubmissionIsIdempotent` | internal/storage/postgres.go:168-172 | once a key is used, exactly one run has it and submitting it again never changes anything |
| `Recovery.DeathReplayRoundTrip` | internal/storage/worker.go:303-336 | death followed by ReplayDead restores the run and all other tasks, up to dispatched and elapsed ones being READY |
| `Recovery.ExactReadiness` | internal/storage/worker.go:130-131 | in every reachable state a task not CANCELLED is BLOCKED if and only if some upstream task has not succeeded |
| `Recovery.CompletionIsExact` | internal/storage/worker.go:156-165 | a reachable run is SUCCEEDED if and only if all its tasks are; completed_at is null exactly while it is RUNNING |
| `Recovery.AttemptHistory` | migrations/001_initial.up.sql:96-109 | there are attempt_count attempts, at least one for a task held, SUCCEEDED, DEAD or in backoff, numbered from 1; only the last is open, exactly while the task is held, by its owner |
| `Recovery.BackoffIsHonoured` | internal/storage/worker.go:188-191 | an attempt after a retry wait starts no sooner than its delay, through sweeps, recovery and replay |
| `Recovery.LeaseColumns` | internal/storage/worker.go:29-193 | an expiry is recorded exactly while a task is held, an owner exactly while held or SUCCEEDED |
| `Recovery.LedgerBalances` | internal/storage/worker.go:45-217 | attempt_count equals the task.leased events, and the exit events plus one while held; dispatches cover both |
| `Recovery.TableCoversAllButRevival` | internal/workflow/state.go:8-17 | a change of status is in the table if and only if no revival made it |
| `Outbox.MoveKeeps` | internal/scheduler/scheduler.go:288-374 | claims of heads only, no loss and first-appearance order survive every move of every publisher |
| `Outbox.OrderAndNoLoss` | internal/scheduler/scheduler.go:271-376 | the events of a key first reach the log in order and without gaps, and a published event is in the log, under every interleaving |
| `OutboxInserts.InsertKeepsOrderExactly` | internal/scheduler/scheduler.go:293-298 | an insert keeps the order if and only if no logged event of its key sorts after it |
| `OutboxInserts.InsertKeepsInvExactly` | internal/scheduler/scheduler.go:293-298 | it keeps the whole invariant if and only if no event of its key that is logged or underway sorts after it |
| `OutboxInserts.InsertIsSafeExactly` | internal/scheduler/scheduler.go:271-376 | every legal continuation of an insert keeps the order if and only if no event of its key that is logged, on the wire or in the hands of a publisher sorts after it |
| `OutboxInserts.LateInsertBreaksOrder` | internal/scheduler/scheduler.go:293-298 | an event inserted before a logged one leaves the log out of order after every further sequence of moves |
| `OutboxInserts.LateInsertHappens` | internal/scheduler/scheduler.go:288-313 | an execution that breaks nothing but the assumption on inserts, before a claimed event, and is out of order for good |
| `Outbox.DuplicatesAreBounded` | internal/scheduler/scheduler.go:306-308 | an event occurs in the log at most k times its publish_attempts when a call lands at most k copies |
| `OutboxTiming.StrictOrder` | internal/scheduler/scheduler.go:344-365 | if every copy lands inside its call and before the claim of its batch expires, no event follows a later one of its key |
| `OutboxTiming.LandSortedExactly` | internal/scheduler/scheduler.go:344-348 | a landing keeps the order if and only if no later event of its key is in the log |
| `OutboxTiming.PunctualIsLive` | internal/scheduler/scheduler.go:344-374 | where the k-th call of a batch is over within k timeouts of the claim and batchSize * publishTimeout is below claimTTL, copies land under live claims |
| `OutboxTiming.StallBreaksOrder` | internal/scheduler/scheduler.go:284-374 | without that punctuality every configuration has an execution, each call within its timeout, that logs an event after its successor |
| `OutboxTiming.DuplicatesAreAdjacent` | internal/scheduler/scheduler.go:357-365 | in such a log the copies of an event stand together within their key |
| `OutboxTiming.StaleCopyLands` | internal/scheduler/scheduler.go:284-286 | with it, so has every configuration with batchSize * publishTimeout at or above claimTTL |
| `OutboxTiming.StrictOrderIffBatchFits` | internal/scheduler/scheduler.go:271-376 | a configuration guarantees strict order if and only if publishers are punctual and batchSize * publishTimeout is below claimTTL |
| `OutboxTiming.TimeoutBelowTtlIsNotEnough` | internal/config/config.go:120-122 | a configuration that passes the check and loses the order even with punctual publishers |
| `OutboxDrain.OneHeadPerKey` | internal/scheduler/scheduler.go:289-300 | two claimable events have different keys |
| `OutboxDrain.SelectHeads` | internal/scheduler/scheduler.go:289-313 | selects claimable heads only, within the batch size, and all of them when they are fewer |
| `OutboxLoop.Scheduler.Begin` | internal/scheduler/scheduler.go:284-336 | the claim takes heads as others left them, all when they are fewer than the batch size: each gets the token, an expiry of now plus the TTL and one attempt more, and nothing else changes |
| `OutboxLoop.Scheduler.Acknowledge` | internal/scheduler/scheduler.go:357-365 | the event is published now if and only if it is unpublished and still under this claim; otherwise, or when the answer is lost, the claims of the token are released and no other row changes |
| `OutboxLoop.Scheduler.Turn` | internal/scheduler/scheduler.go:344-374 | one turn of the loop, with others acting before, during and after the publish: the event has been handed to the broker and is acknowledged, or the batch is over; the latter only if Publish failed, the answer to the acknowledgement was lost or another publisher has claimed the event |
| `OutboxLoop.Scheduler.PublishClaimedBatch` | internal/scheduler/scheduler.go:271-376 | whatever others do in between and however time passes, the world is that of a legal execution; the whole batch is published and reported, or 0 is, with the batch over, everything before the event it stopped at published and its claims released unless that failed; where neither Publish nor the acknowledgement failed, the event it stopped at was claimed by another |
| `OutboxLoop.ReachedIsExecution` | internal/scheduler/scheduler.go:271-376 | a world in which the loop has run is that after a legal execution and satisfies the invariant, so order and no loss hold of it |
| `OutboxLoop.EvolvedUntouched` | internal/scheduler/scheduler.go:344-365 | no legal sequence of moves of others changes a publisher's batch, unpublishes anything, takes back what was handed to the broker, or ends a claim but by another claim |
| `OutboxDrain.Publisher.PublishClaimedBatch` | internal/scheduler/scheduler.go:271-376 | left alone but for given failures and lost claims, it acknowledges the batch up to the first such event, releases the rest and reports 0 |
| `OutboxDrain.Publisher.PublishEach` | internal/scheduler/scheduler.go:337-374 | the loop over the claimed events marks a prefix published, stops at the first failing call or lost claim, and leaves no claim of its own behind |
| `OutboxDrain.Publisher.PublishBatch` | internal/scheduler/scheduler.go:259-269 | what it sent is sent once, in order and without gaps per key; it stops where a publish fails or a claim is lost, at an event with nothing pending before it, or when nothing is claimable; without live claims of others it drains everything unless a pending event is in for trouble |
| `OutboxDrain.BatchIsExecution` | internal/scheduler/scheduler.go:344-374 | what the loop does to rows and log is a legal execution of the protocol, for complete and for failed batches |
| `TokenBucket.Bucket.Allow` | internal/ratelimit/limiter.go:16-34 | a call is admitted if and only if with it no window ending there holds more than burst + rate * T admitted calls; remaining is exactly how many more fit at once, retry_ms the least wait after which one fits; the key is kept twice as long as a full refill takes, up to the next millisecond |
| `TokenBucket.AskKeepsSound` | internal/ratelimit/limiter.go:20-33 | the level stays between empty and burst, remaining is in range, and a wait is reported exactly on rejection |
| `TokenBucket.WindowBound` | internal/ratelimit/limiter.go:22-27 | any window of length T admits at most burst + rate * T requests, whatever came before |
| `TokenBucket.ExpiryIsInvisible` | internal/ratelimit/limiter.go:31-32 | wherever the server drops expired keys, all answers are those of a bucket that never expires |
| `TokenBucket.AdmissionIsExact` | internal/ratelimit/limiter.go:16-34 | the same rule over every sequence of calls from an unused key, wherever expired keys are dropped: exactly the calls that fit are admitted |
| `TokenBucket.AnswerIsExact` | internal/ratelimit/limiter.go:22-30 | admission, remaining and retry_ms of one call against the windows of all calls before it |
| `TokenBucket.RetryAfterIsExact` | internal/ratelimit/limiter.go:28-30 | after a rejection a lone request is admitted if and only if it waits at least retry_ms |

## Left out

- HTTP and gRPC handlers, authentication, tenants and roles, artifacts, the dashboard, metrics and tracing: no state of the durable core.
- Cron schedules (`fireSchedules`): each firing is a submission with its own idempotency key, which is modelled.
- Kafka consumers and worker processes: they appear as the calls they make, in any order.
- PostgreSQL locking (`SKIP LOCKED`, `LIMIT`, `ORDER BY priority`): batches are arbitrary sequences of tasks, so the results hold for every selection; fairness and priority are not stated.
- Database and network errors inside a transaction: the transaction rolls back and is no step.
- Liveness: deadlock freedom says that a step exists, not that someone takes it; a DISPATCHING task whose message is lost waits for its redelivery.
- Payloads, handler outputs, error messages and audit rows.
- The statuses FAILED of a task and PENDING of a run, which no transaction writes.
- `updated_at` and other columns that no decision reads.
- TokenBucket.Bucket.Allow: says which calls are admitted as long as the clock of the server does not go back.
- Rounding: Lua doubles are reals here, and the conversion of retry_ms to a Retry-After header in seconds is not modelled.
- `CreateVersion`: it validates a graph as `CreateWorkflow` does and adds another version of it.
- Stores.Store.CreateRun: requires that the ids generated for the run and its tasks are new, as uuids are; uploads, which make artifacts READY, are not modelled.
- Progress.DeadlockFree: says nothing about runs in which RetryRun was used beside CANCELLED tasks; for those see Progress.StuckExactlyWhenWedged and Rescue.RecoverableExactlyWhenMovable.
- OutboxDrain.Publisher.PublishBatch: runs at one time, with rivals given by the claims they hold and the rows they leave, because with others inserting it need not end; OutboxLoop.Scheduler.PublishClaimedBatch has one batch of it among others.
- OutboxDrain.Publisher.PublishClaimedBatch: runs at one time, see OutboxLoop.Scheduler.PublishClaimedBatch for passing time and interleaving.
- OutboxDrain.Publisher.PublishEach: the loop of the former, with the same restriction.
- OutboxDrain.BatchIsExecution: covers complete and failed batches without others; OutboxLoop.Scheduler.PublishClaimedBatch covers lost claims.
- OutboxTiming.StrictOrder: assumes that a copy lands inside the call that sent it; a broker that appends after the call has timed out is covered by Outbox.OrderAndNoLoss only.
