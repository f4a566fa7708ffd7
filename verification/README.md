# Piper: the task queue and the protocols around it

A Dafny model of the coordination code of Piper, a pipeline server, with proofs of what that
code promises over whole runs and every interleaving.

* **The task queue** (`Tasks`, `Graph`, `Runs`, `QueueSpec`, `QueueInv`, `QueueSteps`,
  `QueueHistory`, `QueueTheorems`, `QueueEnds`, `QueueTimers`, `QueueLeases`, `QueueEntering`,
  `QueueRaces`, `QueueCalls`, `QueueRestarts`, `QueueProgress`, `QueueWitness`).
  One event is one scope of the queue's mutex, one step of a
  dispatch goroutine, or a timer firing, however late. The state keeps every run entry ever
  created, because goroutines and timer callbacks hold entries the queue has dropped. Retry and
  attempt counting, busy requeue, timeouts, recovery grace, leases, cancel and cleanup follow the
  code branch by branch. `QueueEnds`, `QueueTimers`, `QueueLeases` and `QueueEntering` say what that
  comes to without naming a function of the model: which event starts, ends, retries or closes what,
  who holds a step and since when, which timers there are, and what a run enters with.
* **The queue object** (`Queue`, `QueueRuns`, `QueueOwed`, `QueueLoops`, `QueueStruct`, `QueueRows`,
  `Outcomes`, `WaitGroup`). A class whose methods are the code's methods, loops over maps in arbitrary order
  included. Each is proved against the state function of the same operation, keeps the WaitGroup
  equal to armed timers plus executing callbacks plus live dispatch goroutines, and defers exactly
  the repository rows and effects its state change calls for. Between two scopes nothing is pending.
* **Flushing** (`Flush`). Any number of goroutines persist their deferred work at once, against run
  rows with one compare-and-set; calls may fail before or after they committed.
* **The topological sort** (`Dag`), which supplies the order the queue's theorems rest on, and
  **recovery** (`Recovery`), which feeds persisted rows into the queue.
* **The in-process runtime and the cancel protocol** (`Runtime`, `CancelProtocol`, `RuntimeKeys`,
  `CanceledRuns`): slot accounting, tasks canceled while starting, and per-run tombstones with their
  timers, under the backend's lock and with whatever keys tasks are registered under; which keys the
  queue's dispatches get.
* **Idempotent submission over a lossy tunnel** (`Submission`).
* **The member tunnel** (`FrameQueue`, `ByteStream`, `Rpc`), **the exit-event sink** (`ExitSink`),
  **the shell quoter** against the reader of POSIX.1-2017 (`Shell`), **the in-place YAML
  rewriter** (`Stripper`) and **the log line splitter** (`LineWriter`).

## What the environment is assumed to do

* A run enters the queue with a topological order of its steps, under any ID, tracked or not.
  `Dag.TopoSort` gives the order for distinct step names, which pkg/pipeline/spec.go:32-43 demands;
  `Recovery.Plan` puts validation and sorting together.
* Reported attempts and persisted attempt counts are not negative.
* Time is not measured: a deadline, grace period or backoff may end at any point after it began.
* What a router, driver, repository or peer answers is a parameter of the step that asks.

## Where the code does less than it seems to

* A run can lose its slot in `q.runs`, because neither Add nor Recover looks whether the ID is taken
  (internal/queue/queue.go:355-357 and 468-469), and both orders occur. StartRun writes the row of a
  run as running (internal/runlifecycle/runs.go:86-102) long before it calls Add (:129), so the
  periodic reconcile pass (piper.go:743) can recover and dispatch it in between, and Add then overwrites
  it. Or the pass finds the run untracked (internal/runlifecycle/recovery.go:77), Add enters it, and
  Recover overwrites that (:128). The timers of the overwritten run live on. When the last deadline of
  one of its steps passes, the callback fails that step but skips its dependents in the run that now has
  the ID (internal/queue/queue.go:881-893): steps are skipped below nothing that failed, and the run can
  end as a success with skipped steps (`QueueWitnesses.RaceSkipsInVain`). `QueueRaces.SkipsInVainIff`
  is the exact condition of one event, `QueueRaces.StraysIff` and `QueueRaces.OverwrittenIff` those of
  an execution, and `QueueRaces.ExactWithoutStrays` the guarantee when no such deadline ends, in
  particular when every run enters under a free ID. A run to which this has happened has the
  step among its `strays`, and the theorems that depend on it say so.
* Add drops a step that does not encode (internal/queue/queue.go:329-334); Recover keeps it. Below
  a dropped step nothing ever starts, so "no run is stuck" is stated for runs all of whose
  dependencies are tracked. `QueueTheorems.MissingDependencyNeverRuns` and `QueueTheorems.StuckIff`
  show the rest, and `QueueWitnesses.RunStaysStuck` is a run that never ends by itself.
* A result with a negative attempt is applied to a step that has no attempt yet
  (internal/queue/queue.go:531-559): `QueueWitnesses.NegativeAttemptBreaksAncestors` shows what it
  breaks, `Tasks.AppliedIffAnyAttempt` has the exact condition.
* A step recorded running can also be put back by a busy refusal that belongs to a goroutine of an
  earlier entry of the same run ID, because the requeue looks the run up by ID
  (internal/queue/queue.go:1057-1065): `QueueWitnesses.PutBackWithoutRetry` is such an execution,
  `QueueRestarts.PutBackIff` the exact condition of one event, and
  `QueueRestarts.RestartedOnlyByRetry` the guarantee without such goroutines.
* Cancel does not stop every goroutine at the queue's check: it passes over entries that have ended
  (internal/queue/queue.go:742-745), and the goroutine of one looks for canceled only.
  `QueueWitnesses.CanceledRunCallsBackend` is such an execution,
  `QueueCalls.CanceledGoroutineCallsIff` the exact condition. The backend's tombstone stops it next.
* Cancel misses a live task whose runtime key has been reserved again. The queue can bring that
  about, since a busy requeue can hand out an attempt number twice
  (`QueueWitnesses.AttemptGivenTwice`, `CancelProtocol.SharedKeyMissesTask`), and so can two steps of
  one pipeline, since the key is folded to lower-case letters, digits and dashes
  (pkg/pipeline/pipelinedriver/paths.go:27-33; `RuntimeKeys.TwoStepsOneKey`).
  `CancelProtocol.StoppedIffKeyLed` says exactly which tasks are asked to stop, and
  `CancelProtocol.CanceledRunIsStopped` that a run whose live tasks share no key loses none;
  `CanceledRuns.RunWithoutRequeuesIsStopped` derives that from the queue for a run without busy
  refusals whose step names fold apart.
* In the runtime by itself a shared key also lets a task canceled while starting be published
  (`Runtime.ReusedKeyPublishesCanceled`, `Runtime.PublishedIff`). Its only users hold their own lock
  across Dispatch and CancelRun (internal/pipelinedispatch/docker.go:103-124), which rules it out
  for any keys: `CancelProtocol.NeverCanceledMidStart`.
* One driver with two mapping-valued `placement` keys keeps what is in the second
  (internal/manifestmigrate/stripper.go:74-82): `Stripper.StripIsExact` is exact about it.
* At most one run per idempotency key needs a submission repository
  (`Submission.WithoutRepositoryTwice`).
* If the compare-and-set of a run row commits and its reply is lost, the run's event and callbacks
  do not run at all (`Flush.LostReplyRunsNothing`): at most once is proved, and
  `Flush.RunEffectRunsIff` says exactly when they run.
* A comment says that a nil backend leaves tasks ready until one is configured
  (internal/queue/queue.go:990-993); nothing in the code dispatches such a task later.

## Model

| member | source | states |
|---|---|---|
| `QueueTheorems.SkippedExactlyBelowFailure` | internal/queue/queue.go:1169-1195 | In every reachable state, in an added run that is tracked or ran its course: a step below a failed one is skipped, a skipped one is below a failed one or below a stray, so without strays above it a step is skipped if and only if some transitive ancestor failed |
| `QueueTheorems.StartedMeansAncestorsDone` | internal/queue/queue.go:806-818 | Whatever was ever started in an added run has every transitive ancestor done, although promotion accepts skipped dependencies; also after cancel and expiry, and in an overwritten run |
| `QueueTheorems.SuccessIffAllDone` | internal/queue/queue.go:655-667 | A run finalized as completed is a success if every step is done; what is not done in a success was skipped below a stray; so without strays it is a success if and only if every step is done |
| `QueueTheorems.OutcomeDependsOnFateOnly` | internal/queue/queue.go:497-651 | Two complete added runs with the same dependencies and no strays, in any two reachable states, end with the same statuses and the same outcome when each started step met the same fate: order of steps, of maps and of reports does not matter |
| `QueueTheorems.PendingWaitsForOpenDependency` | internal/queue/queue.go:806-818 | Every pending step of a tracked run waits for a direct dependency that is tracked and not terminal |
| `QueueTheorems.TrackedRunHasStepInProgress` | internal/queue/queue.go:448-470 | A tracked run with steps, added or recovered, has a step ready, running, retrying or recovering, and holds no canceled step |
| `QueueTheorems.StepInProgressIsWoken` | internal/queue/queue.go:853-935 | No wake-up is lost in a run that was not overwritten: a step ready, retrying or recovering has the timer that moves it armed or about to act, and so has a running step with a deadline; what stands behind every running step is in QueueCalls.RunningIsBacked |
| `QueueCalls.RunningIsBacked` | internal/queue/queue.go:1011-1053 | In every execution a started running step, of an overwritten run as well, has a dispatch goroutine of its current attempt that is alive, or whose call the backend accepted, or whose answer the step did not take |
| `QueueCalls.AnswerMovesOn` | internal/queue/queue.go:1022-1049 | Any other answer to that goroutine takes the step out of the backend or on to a later attempt |
| `QueueCalls.CanceledGoroutineCallsIff` | internal/queue/queue.go:735-769 | A dispatch goroutine that has not reached its check when its run is canceled goes on to the backend, whenever it runs, if and only if its step had already ended by itself: cancel passes over done, failed and skipped entries |
| `QueueWitnesses.CanceledRunCallsBackend` | internal/queue/queue.go:1015-1022 | The event list that gets there: a step times out for good, the run is canceled, and the goroutine of the failed step calls the backend |
| `QueueTheorems.MissingDependencyNeverRuns` | internal/queue/queue.go:329-334 | The condition of PendingWaitsForOpenDependency and TrackedRunHasStepInProgress is needed: below a step dropped because it did not encode nothing ever starts, and without strays the run never succeeds |
| `QueueTheorems.StuckIff` | internal/queue/queue.go:806-818 | A pending step of a tracked run waits for no open dependency if and only if every dependency it has in the run is done; then one of its dependencies is not in the run |
| `QueueTheorems.StuckForever` | internal/queue/queue.go:806-818 | Such a step of an added run never starts, whatever events follow: while the run is tracked it stays pending and the run does not settle, unless a stray failure is charged to it |
| `QueueWitnesses.StuckRunReached` | internal/queue/queue.go:329-334 | A reachable run whose one tracked step is stuck, because the step it depends on did not encode |
| `QueueWitnesses.RunStaysStuck` | internal/queue/queue.go:329-357 | Whatever happens next, that run does not settle by itself |
| `QueueTheorems.AddedTracksEncodable` | internal/queue/queue.go:327-354 | An added run tracks exactly the steps that encode |
| `QueueTheorems.AttemptsAccounted` | internal/queue/queue.go:820-823 | For a step that was not recovered, attempts equal starts less applied busy requeues and never exceed maxAttempts; ready and retrying leave one to spend |
| `QueueTheorems.StartsBounded` | internal/queue/queue.go:601-626 | Starts less busy requeues of an added run, however it ended, sum to at most steps times maxAttempts |
| `QueueProgress.ChangesBounded` | internal/queue/queue.go:601-651 | Termination: with a backend, in any stretch of an execution the steps of a run, added or recovered, change status or attempt at most as often as the fuel they use up, at most 2 x maxAttempts + 3 a step, plus three times per busy refusal |
| `QueueProgress.RecoveredChangesBounded` | internal/queue/queue.go:420-444 | For a recovered run the bound comes from its rows: nothing for a step recorded done, two per attempt left and three for the attempt and the grace period of one recorded running, 2 x maxAttempts + 2 for any other |
| `QueueProgress.FuelUntilOver` | internal/queue/queue.go:1207-1216 | The fuel is gone exactly when every step is terminal; until then a tracked run has a step in progress with fuel left |
| `QueueProgress.ChangesCost` | internal/queue/queue.go:1129-1152 | The same bound as one measure that falls with every change, busy refusals included |
| `QueueTheorems.RecordedDoneNeverStarts` | internal/queue/queue.go:425-427 | A step recorded done or skipped stays done and is never started |
| `QueueTheorems.RecordedRunningRestarts` | internal/queue/queue.go:428-443 | The books of a step recorded running, in every reachable state: it restarts only after failOrRetryLocked or after a busy refusal of another entry's goroutine, and every start is paid for |
| `QueueRestarts.PutBackIff` | internal/queue/queue.go:1057-1074 | One event makes such a step ready without a retry if and only if its run is tracked and it is a busy answer to a dispatch goroutine of that run ID that finds it running; before its first start that goroutine belongs to another entry |
| `QueueRestarts.RestartedOnlyByRetry` | internal/queue/queue.go:428-443 | For a run recovered while the step has ended, with no goroutine alive, in every earlier entry of its ID: only failOrRetryLocked puts it back, whatever follows |
| `QueueRestarts.StaysAlone` | internal/queue/queue.go:1057-1062 | Such a run stays without foreign goroutines as long as it is tracked, also when its ID is taken |
| `QueueWitnesses.PutBackWithoutRetry` | internal/queue/queue.go:1057-1083 | The condition is needed: add, dispatch, cancel, recover, renew, then the old goroutine is told busy; the step recorded running starts again and was never retried |
| `QueueTheorems.RenewedStepOutlivesGrace` | internal/queue/queue.go:916-935 | Once a step has left recovering, no later grace callback changes anything but its own bookkeeping |
| `QueueTheorems.ImmediateFinalizeIff` | internal/queue/queue.go:447-466 | Recovery finalizes at once if and only if every pipeline step is recorded done or skipped |
| `QueueEnds.EndsIff` | internal/queue/queue.go:497-651 | For every reachable state, event and step: it becomes done exactly by a report of success that counts (from the runtime that holds it, else the one its task names, else the one the router knows, for the attempt it is on); failed exactly by a report of failure that counts or an overdue deadline once its attempts are spent, or with its run when Cleanup finds an old lease; canceled exactly with its run |
| `QueueEnds.StartsIff` | internal/queue/queue.go:820-851 | It is started, once, exactly if there is a backend and the event ends the last dependency it waited for, is a requeue or retry timer that finds it waiting, or fails an attempt that is not the last while retries are immediate |
| `QueueEnds.RetriedIff` | internal/queue/queue.go:601-626 | It is put to retry exactly by a failure that counts or a deadline while attempts are left; then it has neither owner nor lease, keeps its attempt and waits for a new retry timer if there is a delay, and is on the next attempt at once if there is none |
| `QueueEnds.RunClosesIff` | internal/queue/queue.go:655-725 | A tracked run is closed as canceled exactly by Cancel, as expired exactly by a Cleanup that finds an old lease in it, as completed exactly once all its steps are done, failed or skipped, and as a success then exactly if none failed |
| `QueueTimers.JobsIff` | internal/queue/queue.go:858-1167 | Every timer and goroutine of every step after every event: which one fires, goes on or returns, that a timer is stopped exactly if the handle names it, it has not fired, and the event ends, requeues or takes over the step, which new ones there are, with which attempt, and what the handle names |
| `QueueEntering.PolicyInForce` | internal/queue/queue.go:262-270 | In every execution the policy is that of the last SetRetryPolicy, with at least one attempt, or the one the queue began with |
| `QueueEntering.AddedAs` | internal/queue/queue.go:316-357 | Every step of an added run is as it was last given, under the policy in force; nobody holds it; it is started at once if it depends on nothing and there is a backend, and pending if it depends on anything |
| `QueueEntering.RecoveredAs` | internal/queue/queue.go:407-446 | Every step of a recovered run follows its last row: done, or waiting under a new grace timer with the recorded attempts and a lease from now, or let in like a new one |
| `QueueLeases.IdleIsFree` | internal/queue/queue.go:601-612 | In every reachable state a pending, ready or retrying step has no owner and no lease, a running or recovering one has a lease, and one that is done, failed or skipped has none |
| `QueueLeases.RenewalIff` | internal/queue/queue.go:939-977 | A renewal takes effect exactly if a runtime that may hold the step names it while it is running or recovering; then the step is running, held by it, its lease starts now, and the timer of a grace period is stopped; otherwise nothing about the step changes |
| `QueueLeases.OnlyCurrentResultsApply` | internal/queue/queue.go:516-559 | A report with a non-negative attempt changes the queue if and only if it names a tracked step in progress, carries its current attempt (a reported 0 standing for 1), and comes from its assigned runtime if it has one, else from the one its task names if any, else from the one the router knows if any |
| `QueueLeases.HolderShutsOthersOut` | internal/queue/queue.go:516-530 | After a renewal by a runtime that took effect, a report about the step from any other runtime is refused in every later state, until the step is requeued or retried |
| `QueueLeases.RetryForgetsOwner` | internal/queue/queue.go:601-612 | After a failed report or a deadline that leaves attempts, nobody holds the step until a renewal of the new attempt takes effect, whatever else happens |
| `QueueLeases.AnyRuntimeMayReport` | internal/queue/queue.go:516-559 | So a report of the new attempt is applied from any runtime, unless the task or the router names another one |
| `QueueLeases.LeaseIsLastTouch` | internal/queue/queue.go:820-826 | In every execution the lease of a running or recovering step dates from the last start, effective renewal or recovery of the step |
| `QueueLeases.CleanupClosesIff` | internal/queue/queue.go:1234-1285 | Cleanup closes a tracked run as expired if and only if some running or recovering step has a lease from before the cutoff; then its open steps fail and the others stay; every other run is unchanged |
| `QueueLeases.CleanupByLastTouch` | internal/queue/queue.go:1271-1285 | In every execution a tracked run survives Cleanup if and only if each of its running or recovering steps was last started, renewed or recovered at or after the cutoff |
| `QueueOwed.RunOwedIff` | internal/queue/queue.go:655-725 | For every reachable state and event: the row of a run is written exactly once, by the event that closes it, as failed if it completed with a failed step or expired, as canceled if it was canceled, else as a success; its event is sent once, OnRunOutcome is called with the outcome of the row if it is set, and OnRunSuccess if it is set, the run completed and no step failed |
| `QueueOwed.StepOwedIff` | internal/queue/queue.go:562-651 | The row of a step is written once for its end, once for a start and once for a retry, with the attempt it was on, zero if it was skipped; its end is announced once, unless its run was canceled or expired |
| `QueueWitnesses.NegativeAttemptBreaksAncestors` | internal/queue/queue.go:531-559 | Without that condition: in a reachable state a report with attempt -1 makes a pending step done while its ancestor is not, and the invariant is lost |
| `QueueWitnesses.AttemptGivenTwice` | internal/queue/queue.go:1057-1083 | A reachable state in which two dispatch goroutines of one entry carry the same attempt number, one accepted and one on its way, with the event list that leads there |
| `QueueTheorems.TerminalIsForever` | internal/queue/queue.go:1141-1152 | A terminal status, its attempts and its starts never change again, whatever happens later |
| `QueueRaces.OverwrittenByStep` | internal/queue/queue.go:355-357 | An event overwrites a run if and only if it enters another under its ID while it is tracked |
| `QueueRaces.OverwrittenIff` | internal/queue/queue.go:316-357 | In every execution a run is overwritten if and only if some run entered under its ID while it was tracked |
| `QueueRaces.StraysGrowBy` | internal/queue/queue.go:873-935 | One event charges a run with a stray failure if and only if it ends such a deadline and the run ID of its entry leads to this run |
| `QueueRaces.StraysIff` | internal/queue/queue.go:873-935 | In every execution the strays of a run are the steps of those deadlines |
| `QueueRaces.SkipsInVainIff` | internal/queue/queue.go:881-893 | One event skips a step of a tracked added run that has no failed ancestor if and only if it is the timeout or grace callback of an untracked, still running or recovering entry of the same run ID, out of attempts, and the step is among the pending and ready steps below that entry |
| `QueueRaces.SkipsSomethingInVainIff` | internal/queue/queue.go:1169-1195 | So it skips any step in vain if and only if, in that callback, some pending or ready step of the tracked run depends on the entry directly |
| `QueueRaces.FreeIDsAreClean` | internal/queue/queue.go:355-357 | If every run enters under a free ID, nothing is ever overwritten and no failure strays |
| `QueueRaces.ExactWithoutStrays` | internal/queue/queue.go:655-667 | With free IDs, or as long as no lost deadline ends for good under the ID of the run, skipped means below a failed step and success means all done, both if and only if |
| `QueueWitnesses.RaceSkipsInVain` | internal/queue/queue.go:881-893 | The reachable execution that needs it: recover, add under the same ID, the grace period of the lost entry ends for good; the added run ends as a success with a skipped step and no failed one |
| `QueueSteps.StepKeepsInv` | internal/queue/queue.go:90-116 | One lock scope, goroutine step or timer keeps the whole invariant |
| `QueueSteps.ReachableInv` | internal/queue/queue.go:141-149 | The invariant holds after every sequence of events the environment may produce |
| `QueueHistory.StepKeepsHistory` | internal/queue/queue.go:1129-1152 | One event never changes a terminal entry or gives it a new goroutine, never returns one to pending or recovering, never lowers a counter, and never brings a goroutine or timer back to life |
| `QueueHistory.StepSplits` | internal/queue/queue.go:90-116 | An event is one goroutine or timer moving on and one locked operation: only that operation of a busy answer requeues, a step gets into the backend only with a new goroutine, and every change costs credit |
| `QueueHistory.ExecuteKeepsHistory` | internal/queue/queue.go:1129-1152 | The same between any two points of any execution |
| `Tasks.AppliedIff` | internal/queue/queue.go:513-554 | For attempts that are not negative a result is applied if and only if the entry is not terminal, the reporter is exactly the assigned runtime, else the one the task names, else the one the router knows, if there is any, and the attempt, 0 standing for 1, is the current one |
| `Tasks.AppliedIffAnyAttempt` | internal/queue/queue.go:531-559 | The exact condition for every attempt, with the same three places an owner can come from: negative attempts are applied besides to entries whose attempt count is zero, or above it |
| `Tasks.RefusedAs` | internal/queue/queue.go:516-559 | Which refusal a report gets: anonymous and foreign ones first, whatever the state of the entry, then repeated, late and premature ones |
| `Tasks.RetriedAs` | internal/queue/queue.go:601-626 | What a failed attempt leaves behind while attempts are left: no owner, no lease, one retry more, and a retry timer, the next attempt, or a ready step without a backend |
| `Tasks.AdoptedAs` | internal/queue/queue.go:557-559 | An applied report finds the entry on the reported attempt, or takes it there if it was on none yet |
| `Tasks.BusyRequeueInv` | internal/queue/queue.go:1057-1083 | Undoing a start keeps the books and arms the timer the ready entry needs |
| `Tasks.RetryLaterInv` | internal/queue/queue.go:1099-1114 | A retry keeps the books and leaves the entry in progress with what wakes it |
| `Tasks.DispatchInv` | internal/queue/queue.go:994-1010 | A start keeps the books; with a deadline the timeout is armed |
| `Tasks.FinishInv` | internal/queue/queue.go:605-632 | Ending an entry keeps its books |
| `Tasks.LiveJobsUpdate` | internal/queue/queue.go:105-116 | Changing the phase of one goroutine or timer shifts the entry's WaitGroup weight by exactly its own |
| `Graph.SkippedIffAncestorFailed` | internal/queue/queue.go:1169-1195 | From the direct-dependency invariant: below a failed step everything is skipped, what is skipped is below a failed step or a stray, and without strays above it a step is skipped if and only if a transitive ancestor failed |
| `Graph.PromotedAncestorsDone` | internal/queue/queue.go:1197-1225 | Past pending and not skipped means every transitive ancestor is done |
| `Graph.NoFailureIffAllDone` | internal/queue/queue.go:655-667 | With every step settled and no strays, no step failed if and only if all are done |
| `Graph.SomeStepInProgress` | internal/queue/queue.go:1207-1216 | An unsettled run has a step in progress |
| `Graph.OutcomeIsOrderIndependent` | internal/queue/queue.go:1169-1225 | Without strays, the final statuses are a function of the dependencies and of how each started step ended |
| `Graph.PromoteKeeps` | internal/queue/queue.go:806-818 | Promotion keeps the invariant and re-establishes that pending steps wait for something |
| `Graph.FailKeeps` | internal/queue/queue.go:628-651 | A failure with the skips it causes keeps the invariant; in an added run only pending steps are skipped |
| `Graph.StrayKeeps` | internal/queue/queue.go:1169-1195 | Skipping below a step that failed elsewhere preserves everything of the invariant but the cause of a skip, for which the stray is then on record |
| `Runs.SkipSetUnique` | internal/queue/queue.go:1169-1195 | The set of skipped steps is the only closed set of reachable pending or ready dependents |
| `Runs.SkipOneMore` | internal/queue/queue.go:1169-1195 | Skipping one more dependent and everything below it extends what was skipped so far, without repetition |
| `Runs.PromoteReadyInv` | internal/queue/queue.go:806-818 | Promotion of a run, as one function of the run, keeps the run's invariant |
| `Runs.FailInv` | internal/queue/queue.go:628-651 | So does a failure with its skips |
| `Runs.StrayInv` | internal/queue/queue.go:1169-1195 | Skipping below a step of another entry keeps the invariant of the run |
| `TaskIDs.SplitMakeRoundTrip` | internal/queue/queue.go:289-300 | Splitting a made task ID gives back run and step if and only if the run ID holds no colon |
| `TaskIDs.FirstColon` | internal/queue/queue.go:294-300 | The split position is the first colon |
| `TaskQueue.Queue.constructor` | internal/queue/queue.go:141-149 | A fresh queue: nothing tracked, counter zero, nothing pending |
| `TaskQueue.Queue.AppendWrite` | internal/queue/queue.go:162-164 | One write more, at the end |
| `TaskQueue.Queue.AppendEffect` | internal/queue/queue.go:173-175 | One effect more, at the end |
| `TaskQueue.Queue.TakePending` | internal/queue/queue.go:188-193 | The scope's work is handed out and nothing stays behind |
| `TaskQueue.Queue.TransitionTask` | internal/queue/queue.go:1141-1152 | A terminal entry is left alone; any other takes the status; the counter stays balanced |
| `TaskQueue.Queue.StopEntryTimer` | internal/queue/queue.go:1154-1167 | The handle is dropped; the counter goes down exactly when the timer had not fired |
| `TaskQueue.Queue.ScheduleTimer` | internal/queue/queue.go:858-871 | The old timer is stopped, the new one counted |
| `TaskQueue.Queue.StartTask` | internal/queue/queue.go:820-851 | One attempt and one start more, running, lease set, timeout armed, one running row |
| `TaskQueue.Queue.DispatchIfNeeded` | internal/queue/queue.go:994-1010 | Nothing without a backend; else a start and one counted goroutine |
| `TaskQueue.Queue.CollectDone` | internal/queue/queue.go:1197-1205 | The names whose entry is done or skipped, in whatever order the map is read |
| `TaskQueue.Queue.PromoteReady` | internal/queue/queue.go:806-818 | Whatever the map order: the run becomes its promotion and exactly the started steps get a running row |
| `TaskQueue.Queue.SkipFrom` | internal/queue/queue.go:1174-1191 | A step and everything below it is skipped, one row and one event each |
| `TaskQueue.Queue.SkipDownstream` | internal/queue/queue.go:1169-1195 | Whatever the map order, the recursion skips exactly the reachable pending or ready dependents, each once |
| `TaskQueue.Queue.AllSettled` | internal/queue/queue.go:1207-1216 | True if and only if every entry is done, failed or skipped |
| `TaskQueue.Queue.FailureAmong` | internal/queue/queue.go:655-667 | True if and only if some entry failed |
| `TaskQueue.Queue.FinalizeRun` | internal/queue/queue.go:679-725 | The run leaves the table; one run row, as a success only for a completed run without failures, as canceled for a canceled one, failed otherwise; its event, OnRunOutcome with the same outcome and OnRunSuccess exactly for a success, each callback if it is set, in order |
| `TaskQueue.Queue.FinalizeRunIfAllTerminal` | internal/queue/queue.go:655-667 | Closes exactly when everything settled, as success exactly when nothing failed |
| `TaskQueue.Queue.ScheduleRetry` | internal/queue/queue.go:1099-1114 | Without a delay the step is dispatched at once, with one it waits under a counted timer |
| `TaskQueue.Queue.FailOrRetry` | internal/queue/queue.go:601-651 | While attempts remain the entry is retried, without owner and lease, waiting or on its next attempt; else it is failed, what is below it is skipped in the run handed over, its own or another, and that run may close; exactly the rows and effects this calls for, for both runs |
| `TaskQueue.Queue.DoneStep` | internal/queue/queue.go:567-588 | Done, promote, maybe close; exactly the rows and effects this calls for |
| `TaskQueue.Queue.Weigh` | internal/queue/queue.go:513-554 | The checks in the code's order apply a report exactly if the entry is open, the reporter is the assigned runtime, else the one the task names, else the one the router knows, and the attempt fits |
| `TaskQueue.Queue.Complete` | internal/queue/queue.go:497-593 | A report is applied exactly if it names a tracked open step, comes from its owner (assigned, else named by the task, else known to the router) and carries its attempt; otherwise it changes nothing and defers nothing; applied, it has its full effect, nothing pending afterwards, counter balanced |
| `TaskQueue.Queue.TimerFires` | internal/queue/queue.go:861-871 | From here on Stop fails; nothing else changes |
| `TaskQueue.Queue.DeadlineFired` | internal/queue/queue.go:873-935 | Timeout and grace callbacks act only on a running, or recovering, entry whose run ID is tracked, and tell the run found under that ID, which need not be the run of the entry |
| `TaskQueue.Queue.RequeuedDispatchFired` | internal/queue/queue.go:1085-1097 | Drops the handle always, dispatches only a ready entry of a live server |
| `TaskQueue.Queue.RetryFired` | internal/queue/queue.go:1116-1127 | Acts only on a retrying entry |
| `TaskQueue.Queue.TimerBody` | internal/queue/queue.go:858-1127 | Every timer callback is the machine's step, and the rows and effects are exactly those owed |
| `TaskQueue.Queue.JobEnds` | internal/queue/queue.go:105-116 | Done lowers the counter by one and it never goes negative |
| `TaskQueue.Queue.DispatchCheck` | internal/queue/queue.go:1011-1022 | The goroutine goes on if and only if its entry is not canceled |
| `TaskQueue.Queue.RequeueBusy` | internal/queue/queue.go:1057-1083 | A running entry of the tracked run goes back to ready with its attempt returned; anything else is left alone |
| `TaskQueue.Queue.DispatchReturns` | internal/queue/queue.go:1023-1050 | Busy requeues, any other error is reported as a failed result of that attempt |
| `TaskQueue.Queue.ForceEntries` | internal/queue/queue.go:735-783 | Every open entry is ended, each with one row, in whatever order |
| `TaskQueue.Queue.Cancel` | internal/queue/queue.go:735-804 | A tracked run is closed as canceled with one row per open step; an untracked one only gets the guarded row write |
| `TaskQueue.Queue.RunExpired` | internal/queue/queue.go:1271-1285 | True if and only if some running or recovering entry has a lease from before the cutoff |
| `TaskQueue.Queue.Cleanup` | internal/queue/queue.go:1234-1269 | Whatever the map order: a tracked run with a running or recovering step whose lease is from before the cutoff is closed as expired, its open steps failed; every other run is unchanged; with exactly the rows and effects of the closed ones |
| `TaskQueue.Queue.RenewLease` | internal/queue/queue.go:946-976 | A lease is renewed only for the owner of a running or recovering entry, which then stops waiting out its grace |
| `TaskQueue.Queue.RenewLeases` | internal/queue/queue.go:939-977 | All listed tasks in order; nothing for an empty runtime ID |
| `TaskQueue.Queue.Add` | internal/queue/queue.go:312-359 | The run is built, promoted for the first time and tracked, with the counter balanced; the other runs owe nothing, and the one that held the slot of the ID, if any, is overwritten |
| `TaskQueue.Queue.Recover` | internal/queue/queue.go:383-472 | The run is rebuilt from its rows with a counted grace timer per running step, and finalized at once or promoted and tracked; either way whoever held the slot of the ID is overwritten |
| `TaskQueue.Queue.SetRetryPolicy` | internal/queue/queue.go:262-270 | At least one attempt, for entries built later |
| `TaskQueue.Queue.IsTracking` | internal/queue/queue.go:1293-1298 | True if and only if an open run of that ID is tracked |
| `TaskQueue.Queue.Shutdown` | internal/queue/queue.go:79-79 | Timer callbacks that look find the server gone; nothing else changes |
| `QueueRuns.Perform` | internal/queue/queue.go:90-116 | Every event of the machine is performed by the queue object, which hands out exactly the deferred work the event owes, with nothing pending afterwards and the counter balanced |
| `QueueRuns.Drive` | internal/queue/queue.go:141-149 | Whatever the environment does to a new queue object leaves it in a reachable state, so every theorem about those holds of it; its outcomes are those owed, one per event |
| `QueueRuns.OwedIsProper` | internal/queue/queue.go:679-725 | Whatever an event owes meets what the flushing theorems assume |
| `QueueRuns.QueueEffectsAtMostOnce` | internal/queue/queue.go:201-208 | End to end: whatever a queue goes through and however its outcomes are flushed, per run ID the run event, OnRunOutcome and OnRunSuccess run at most once each |
| `WaitGroup.TasksLivePick` | internal/queue/queue.go:105-116 | The total weight of a run does not depend on the order of its entries |
| `WaitGroup.HeapLiveEntry` | internal/queue/queue.go:105-116 | Replacing one entry shifts the queue's total by the difference of the two weights |
| `WaitGroup.LiveStop` | internal/queue/queue.go:1154-1167 | Stopping lowers the weight by one if and only if the timer had not fired |
| `QueueRows.DoneRows` | internal/queue/queue.go:567-588 | What a finished step owes: its own row, and one per step promoted and started |
| `QueueRows.FailRows` | internal/queue/queue.go:628-651 | What a failed step owes: its own row and event, and one of each per skipped step |
| `QueueRows.OneRunDeferred` | internal/queue/queue.go:179-193 | A scope that touches one run defers exactly that run's rows and effects and nothing for any other |
| `QueueRows.AppendDeferred` | internal/queue/queue.go:1234-1269 | The work of several runs in one scope does not mix |
| `QueueRows.ForceRows` | internal/queue/queue.go:735-783 | Forcing a run to its end owes exactly one row per open step |
| `Outcomes.RecordedDeferred` | internal/queue/queue.go:179-193 | Recorded rows and effects name their own run only |
| `QueueStruct.CompleteStruct` | internal/queue/queue.go:497-593 | The tables stay in order for every report, whatever its attempt |
| `QueueInv.EnterInv` | internal/queue/queue.go:355-357 | Whatever holds the slot of its ID, a run that enters keeps the invariant: the entry that held it is overwritten, its steps left as they were |
| `QueueLoops.SkipStep` | internal/queue/queue.go:1169-1195 | One turn of the skip loop preserves what the loop has done so far |
| `Flush.PersistWithRetry` | internal/queue/queue.go:215-235 | One to five tries: it stops exactly at the first success, at the fifth try, or when the context is done after a failure |
| `Flush.EffectsFollowWrites` | internal/queue/queue.go:201-208 | In any interleaving of any flushes: an effect runs only after every write of its outcome was tried, and writes are tried in order |
| `Flush.RunEffectsAtMostOnce` | internal/queue/queue.go:679-725 | Per run ID, the run event, OnRunOutcome and OnRunSuccess run at most once each across all racing finalizers, whatever calls fail or lose their reply |
| `Flush.RunEffectMeansWon` | internal/queue/queue.go:684-725 | They run only if that very finalizer's compare-and-set moved the row |
| `Flush.RunEffectRunsIff` | internal/queue/queue.go:684-725 | Exactly when they run: the last try of the finalizer's row write is the one that moved the row, and its own reply said so |
| `Flush.WritesTried` | internal/queue/queue.go:215-235 | By the log of any interleaving: every write is tried at most five times, and at least once before it is left |
| `Flush.WriteLeftIff` | internal/queue/queue.go:215-235 | A write is left exactly when its try succeeds, is its fifth, or fails with the context done |
| `Flush.StepEffectsRun` | internal/queue/queue.go:201-208 | Whatever is not an effect of a run row, such as the event of a step, runs in any case once it is reached |
| `Flush.TerminalIff` | internal/queue/queue.go:684-706 | A run row is final if and only if some event has finalized it: any finalizing write that reached the database, tracked or not, or somebody else |
| `Flush.LostReplyRunsNothing` | internal/queue/queue.go:215-235 | A committed compare-and-set whose reply is lost, then retried: the row is final and its event never runs |
| `Flush.DeferredIsProper` | internal/queue/queue.go:679-725 | Every outcome the queue detaches meets what the two rows above assume |
| `Flush.UntrackedCancelIsProper` | internal/queue/queue.go:785-795 | So does the outcome of an untracked cancel |
| `Flush.StepInv` | internal/queue/queue.go:201-235 | One try, one effect or one new flush keeps the invariant |
| `Dag.TopoSort` | pkg/pipeline/dag.go:61-99 | For distinct names: a result lists every step once with dependencies first, and no result means that no such order exists; for any names the sort ends |
| `Dag.CountAll` | pkg/pipeline/dag.go:61-74 | For distinct names in-degrees and adjacency lists count every dependency once; for any names every dependent has an in-degree |
| `Dag.CountOff` | pkg/pipeline/dag.go:84-93 | Counting off one popped step queues exactly the steps whose last dependency it was |
| `Dag.StuckMeansNoOrder` | pkg/pipeline/dag.go:95-98 | A finished sort that left a step out proves that the graph has no topological order |
| `Dag.SortedIsValid` | pkg/pipeline/dag.go:84-98 | A complete result is a topological order |
| `Recovery.Validate` | pkg/pipeline/spec.go:20-134 | True if and only if the header is in order, the pipeline and every step are named well, names are distinct, every dependency and input names a step, and the text of every step, its driver and the notifications pass their checks |
| `Recovery.Plan` | internal/runlifecycle/recovery.go:92-102 | An order if and only if the stored pipeline passes validation and its steps can be put in order at all |
| `Recovery.CarryOver` | internal/runlifecycle/recovery.go:103-116 | The rows carried over to the queue are exactly the done, skipped and running ones |
| `Recovery.CarriedAs` | internal/runlifecycle/recovery.go:103-116 | What the queue is told about a step is what its one row says |
| `Recovery.RecoveredStatus` | internal/runlifecycle/recovery.go:103-128 | Through the queue: done for done and skipped, recovering with its attempts for running, pending for everything else, failed included |
| `Recovery.RecoverOne` | internal/runlifecycle/recovery.go:75-128 | A tracked run is left alone; any other is marked failed if and only if its pipeline cannot be run or its environment does not resolve, else it is recovered with a valid order, after whatever happened to the queue since the test, an Add of the same run included |
| `Recovery.RecoverInterruptedRuns` | internal/runlifecycle/recovery.go:69-130 | With anything going on in the queue meanwhile: every listed run was tracked when its row came up, or is marked failed because it cannot be rebuilt, or has been recovered; the queue goes through an execution of its machine |
| `Runtime.SlotsBalance` | internal/directruntime/runtime.go:107-186 | In every execution, with or without reused keys: inFlight is the number of unreleased reservations and live dispatched ones never exceed Concurrency |
| `Runtime.ReservedIff` | internal/directruntime/runtime.go:107-127 | In every execution a dispatch gets a slot if and only if the runtime was never told to drain and fewer tasks than Concurrency, recovered ones included, hold theirs; then its key leads to its starting entry, otherwise nothing changes |
| `Runtime.ReleasedOnce` | internal/directruntime/runtime.go:129-134 | A release is final, and the counter drops by one exactly when exactly one reservation is released |
| `Runtime.CanceledMidStartIsStopped` | internal/directruntime/runtime.go:165-180 | Of the runtime by itself, with free keys: a task canceled while starting is never published; when Start returns it is stopped and released |
| `Runtime.PublishedIff` | internal/directruntime/runtime.go:165-186 | The exact condition otherwise: it is published if and only if its key names another task by then that was not canceled |
| `Runtime.ReusedKeyPublishesCanceled` | internal/directruntime/runtime.go:107-186 | Of the runtime by itself: an execution with a reused key in which a canceled task is published; its backends exclude it, see CancelProtocol.NeverCanceledMidStart |
| `Runtime.StepRegistered` | internal/directruntime/runtime.go:223-232 | With free keys every live task stays the one registered under its key |
| `Runtime.StepKeyed` | internal/directruntime/runtime.go:107-186 | With any keys: a stored handle is of a task that was up under the same key, and a registered starting entry is starting |
| `Runtime.CancelStopsIff` | internal/directruntime/runtime.go:195-221 | With any keys: a cancel asks Stop for a task if and only if its key still leads to an entry of the run that holds the task's own handle |
| `Runtime.StopAskedIff` | internal/directruntime/runtime.go:165-221 | One event asks Stop for a task exactly if it is the return of its Start that finds its entry gone or canceled, or a cancel of the run to which its key leads |
| `Runtime.CancelOne` | internal/directruntime/runtime.go:195-213 | One turn of the cancel loop marks a starting task or asks Stop for the stored handle |
| `Runtime.DirectRuntime.TryReserve` | internal/directruntime/runtime.go:107-127 | Busy, and unchanged, if and only if draining or as many tasks as Concurrency are unreleased; else slot and placeholder are taken together |
| `Runtime.DirectRuntime.Rollback` | internal/directruntime/runtime.go:129-134 | Key and slot are given back |
| `Runtime.DirectRuntime.Publish` | internal/directruntime/runtime.go:165-186 | Published, or stopped and released |
| `Runtime.DirectRuntime.EndObserve` | internal/directruntime/runtime.go:223-232 | Key and slot are given back |
| `Runtime.DirectRuntime.Cancel` | internal/directruntime/runtime.go:195-221 | Whatever the map order: every active starting task of the run is marked, every stored handle asked to stop |
| `CancelProtocol.StoppedIffKeyLed` | internal/pipelinedispatch/docker.go:103-124 | For any keys, task by task: while the tombstone of a cancel stands, a live task dispatched for the run was up when CancelRun ran, and has been asked to stop if and only if it had been before or its key still led to its own handle then (later cancels of other runs that hold this task's own handle aside) |
| `CancelProtocol.CanceledRunIsStopped` | internal/pipelinedispatch/docker.go:95-133 | Hence, for a run none of whose live tasks shared its key, whatever happens to other keys: while its tombstone stands every live task dispatched for it is up and has been asked to stop |
| `CancelProtocol.DistinctKeysAreFree` | internal/directruntime/runtime.go:95-127 | The keys of a run are free throughout if no two goroutines share one of them and recoveries keep away from them, whatever becomes of the goroutines |
| `CanceledRuns.CallsHaveOwnAttempts` | internal/queue/queue.go:820-823 | As long as no busy refusal was applied to a step, its dispatch goroutines carry strictly rising attempts |
| `CanceledRuns.CallsHaveOwnKeys` | pkg/pipeline/pipelinedriver/paths.go:21-41 | Two dispatch goroutines of a run without busy refusals have different runtime keys when its step names fold apart and no key is cut |
| `CanceledRuns.RunWithoutRequeuesIsStopped` | internal/pipelinedispatch/docker.go:95-133 | From the queue to the runtime: while the tombstone of such a run stands, every live task dispatched for it is up and has been asked to stop, as long as no other entry, run or recovery is under its keys |
| `RuntimeKeys.SameKeyIff` | pkg/pipeline/pipelinedriver/paths.go:21-41 | Keys of one run that are not cut are equal if and only if the attempts are equal and the step names fold to the same |
| `RuntimeKeys.NoAttemptIsFirst` | pkg/pipeline/pipelinedriver/paths.go:21-25 | A dispatch without an attempt number gets the key of the first attempt |
| `RuntimeKeys.FoldedNamesShareKeys` | pkg/pipeline/pipelinedriver/paths.go:25-34 | Steps whose names fold to the same have the same keys, cut or not |
| `RuntimeKeys.TwoStepsOneKey` | pkg/pipeline/pipelinedriver/paths.go:27-34 | Two different step names that validation accepts and that share every key |
| `CancelProtocol.SharedKeyMissesTask` | internal/directruntime/runtime.go:125-127 | The condition is needed: two goroutines of one step with one attempt number get in, the run is canceled, and the first task runs on unasked under a standing tombstone |
| `CancelProtocol.ReuseHidesTask` | internal/directruntime/runtime.go:125-127 | In any state without sharing so far, reserving the key of any live task hides that task from the next cancel |
| `CancelProtocol.NeverCanceledMidStart` | internal/pipelinedispatch/docker.go:103-124 | For any keys: the backend's lock keeps every cancel away from a task that is starting, so none is ever marked canceled, and a start that succeeds is published if and only if its key is still registered |
| `CancelProtocol.NothingStartsLater` | internal/pipelinedispatch/docker.go:95-114 | For any keys: while a run's tombstone stands no step reserves a slot for a dispatch of the run |
| `CancelProtocol.TombstoneIff` | internal/pipelinedispatch/docker.go:95-169 | In every execution a goroutine that gets the lock is refused if and only if since the last cancel of its run neither the timer of that cancel has fired nor the run been released or canceled in the queue |
| `CancelProtocol.StaleTimerIsHarmless` | internal/pipelinedispatch/docker.go:156-169 | The tombstone a cancel sets stays until its own timer fires or its run is released or canceled again; no older timer takes it away |
| `CancelProtocol.CanceledGoStopsIff` | internal/queue/queue.go:1011-1022 | A goroutine before the queue's check when its run is canceled goes on to the backend if and only if its entry had ended by itself; any other never calls it |
| `CancelProtocol.StepInv` | internal/pipelinedispatch/docker.go:43-133 | For any keys: every step of queue check, backend lock, tombstones, timers and runtime keeps the invariant |
| `CancelProtocol.DockerBackend.constructor` | internal/pipelinedispatch/docker.go:92-92 | No tombstones, an empty runtime |
| `CancelProtocol.DockerBackend.MarkCanceled` | internal/pipelinedispatch/docker.go:156-169 | A new tombstone with a timer of its own |
| `CancelProtocol.DockerBackend.CancelRun` | internal/pipelinedispatch/docker.go:116-124 | Tombstone and runtime cancel as one step |
| `CancelProtocol.DockerBackend.ReleaseRun` | internal/pipelinedispatch/docker.go:126-133 | The tombstone is gone |
| `CancelProtocol.DockerBackend.TimerBody` | internal/pipelinedispatch/docker.go:161-167 | Removes the tombstone that is its own and no other |
| `CancelProtocol.DockerBackend.Dispatch` | internal/pipelinedispatch/docker.go:95-114 | Refused exactly under a tombstone, busy without a trace exactly if draining or full, else one reservation that is rolled back if the start fails and published if it succeeds |
| `Submission.AtMostOneRow` | internal/runlifecycle/runs.go:236-277 | With a submission repository: at most one run row per key after any deliveries, faults and lost replies |
| `Submission.RepliesAgree` | internal/runlifecycle/runs.go:236-277 | Every successful reply for a key, at any time, carries the same run ID |
| `Submission.ReplayIsAnswered` | internal/runlifecycle/runs.go:264-268 | After any deliveries: if the claimed run has its row, the payload is the claimed one, and claim and lookup work, the reply carries exactly the claimed ID and nothing changes |
| `Submission.FirstWorkingSubmitCreates` | internal/runlifecycle/runs.go:254-277 | After any deliveries: without such a row and with every call working the reply carries the claimed ID, new if the key was free, and its row is there |
| `Submission.AnsweredIff` | internal/runlifecycle/runs.go:254-277 | Exactly when a submission with a key is answered with a run, and with which ID, when it is refused, and when it makes a row |
| `Submission.ReleasedIff` | internal/runlifecycle/runs.go:254-274 | A claim is made by every claim that reaches the repository, stays as it was made, and goes exactly if the start failed without a row and lookup and release worked |
| `Submission.DifferentPayloadIsRefused` | internal/runlifecycle/runs.go:261-263 | A different payload under a live claim changes nothing and is refused |
| `Submission.WithoutRepositoryTwice` | internal/runlifecycle/runs.go:237-239 | Without a repository the same request delivered twice makes two runs |
| `Submission.SubmitInv` | internal/runlifecycle/runs.go:241-277 | One submission keeps the claims and rows consistent, keeps every row, and its success names the row of its key |
| `Submission.Manager.StartRun` | internal/runlifecycle/runs.go:62-137 | A row, or none, or a row and an error |
| `Submission.Manager.SubmitRun` | internal/runlifecycle/runs.go:236-277 | Claim, compare, answer with the claimed ID if its row exists, else start, and release the claim only if no row exists; what that amounts to is in the four rows AnsweredIff, ReleasedIff, ReplayIsAnswered and FirstWorkingSubmitCreates |
| `Submission.RouteSubmit` | internal/memberclient/routing.go:37-77 | Whatever is lost and whatever the member serves meanwhile: with a submission repository a successful answer names the only row of the key, be it the caller's or one made up for the call; and the answer is a run as soon as a try resolves, arrives while the member's calls work and gets its reply back, after tries without an answer, as long as nobody uses the key for another payload |
| `FrameQueues.PoppedIsPrefix` | internal/membertunnel/framequeue.go:32-76 | The frames popped are always a prefix of the frames pushed |
| `FrameQueues.PushedAreAll` | internal/membertunnel/framequeue.go:32-70 | What was popped and what is still queued is every frame pushed, in order, also after the queue was closed |
| `FrameQueues.NoLostWakeup` | internal/membertunnel/framequeue.go:49-76 | A parked consumer with something to fetch has a token or gets one, and its next look succeeds |
| `FrameQueues.StepInv` | internal/membertunnel/framequeue.go:32-76 | Every push, close, wake, pop and parking step keeps both |
| `FrameQueues.HttpFrameQueue.PushLocked` | internal/membertunnel/framequeue.go:32-37 | One frame more at the end, a token owed |
| `FrameQueues.HttpFrameQueue.CloseLocked` | internal/membertunnel/framequeue.go:42-47 | Closed for good, a token owed |
| `FrameQueues.HttpFrameQueue.Wake` | internal/membertunnel/framequeue.go:49-54 | The token is there afterwards, at most one |
| `FrameQueues.HttpFrameQueue.PopLocked` | internal/membertunnel/framequeue.go:57-70 | The oldest frame, or the end of a drained closed queue, or parking |
| `FrameQueues.HttpFrameQueue.TakeToken` | internal/membertunnel/framequeue.go:71-75 | Woken exactly if a token was there, which is gone |
| `ByteStreams.StreamConn.Send` | internal/membertunnel/httpstream.go:155-157 | One frame on the wire, or a broken tunnel; the bytes on the wire stay a prefix of those offered |
| `ByteStreams.StreamConn.Write` | internal/membertunnel/httpstream.go:40-51 | All of the bytes in order in as few chunks of at most 32 KiB as it takes, or a count that is a multiple of it and a broken tunnel |
| `ByteStreams.BytesReadArePrefix` | internal/membertunnel/client.go:172-254 | In either direction and any interleaving: the bytes read are a prefix of the bytes written |
| `ByteStreams.EndMeansWhole` | internal/membertunnel/client.go:208-239 | A reader that saw the regular end has every byte of every frame up to the first end frame |
| `ByteStreams.ErrorMeansFailure` | internal/membertunnel/client.go:160-178 | A reader that saw an error frame was sent one, and has every byte sent before it |
| `ByteStreams.NothingDroppedWhileLive` | internal/membertunnel/client.go:139-154 | While the stream is registered and nothing broke, what has arrived was queued without a gap, or is the one frame the receive loop has looked up a queue for |
| `ByteStreams.LinkStepInv` | internal/membertunnel/httpstream.go:141-197 | Sending, failing, looking up, pushing, queueing, consuming and unregistering, in any order, each keep the invariant |
| `Rpc.DeliverNeverBlocks` | internal/membertunnel/remote.go:48-56 | A matched response always finds its channel open and empty |
| `Rpc.CloseAllIsClean` | internal/membertunnel/remote.go:59-71 | closeAll closes only channels that were never closed, sent on or about to be sent on |
| `Rpc.RepliesMatch` | internal/membertunnel/remote.go:48-56 | A response reaches only the call with its request ID |
| `Rpc.OneOutcome` | internal/membertunnel/remote.go:114-134 | A call sees one outcome: once decided it never changes |
| `Rpc.OutcomeIff` | internal/membertunnel/remote.go:73-135 | What decides a call, and with which outcome: registering on a closed connection, a failed send, the end of its context, receiving its response, or receiving from a closed channel; nothing else does |
| `Rpc.ReplyReachesCaller` | internal/membertunnel/remote.go:48-135 | On a connection that stands, after anything else: a call that is registered, sent, answered and received returns exactly its response and leaves nothing pending |
| `Rpc.NobodyWaitsForever` | internal/membertunnel/remote.go:59-71 | A call still waiting after closeAll gets its outcome from its channel at once, or after the response already on its way |
| `Rpc.NothingPendingAfterClose` | internal/membertunnel/remote.go:90-97 | Nothing is registered after closeAll |
| `Rpc.StepInv` | internal/membertunnel/remote.go:48-135 | Every lock scope and channel operation keeps the invariant |
| `Rpc.RemoteMemberClient.RegisterCall` | internal/membertunnel/remote.go:90-97 | Registered if and only if the connection is not closed |
| `Rpc.RemoteMemberClient.Match` | internal/membertunnel/remote.go:48-52 | Unknown and repeated request IDs match nothing |
| `Rpc.RemoteMemberClient.CloseEverything` | internal/membertunnel/remote.go:59-71 | In whatever order: every pending channel closed, none left pending |
| `ExitSinks.HandlerRunsOnce` | internal/process/supervisor.go:41-114 | However often its name is bound, a handler whose registration stands runs exactly once if some stop event is for the PID that governs it, the last bound before it or else the first bound after it, with the status of the first such event; otherwise not at all |
| `ExitSinks.RemovedIsSilent` | internal/process/supervisor.go:41-56 | Once its only registration has been removed or replaced, a handler never runs again unless it is registered again, whatever is bound or arrives |
| `ExitSinks.FirstStatusIff` | internal/process/supervisor.go:70-77 | There is a first matching event exactly when there is a matching event |
| `ExitSinks.FollowStep` | internal/process/supervisor.go:41-114 | One event moves the sink as the history of events says |
| `ExitSinks.ExitSink.RegisterHandler` | internal/process/supervisor.go:41-49 | A nil handler registers nothing; any other replaces registration and backlog |
| `ExitSinks.ExitSink.DeregisterHandler` | internal/process/supervisor.go:51-56 | Registration and backlog are gone |
| `ExitSinks.ExitSink.Bind` | internal/process/supervisor.go:58-84 | The backlog is searched once; the first match fires and unregisters |
| `ExitSinks.ExitSink.Receive` | internal/process/supervisor.go:86-114 | Kept before binding, matched after it, ignored for anyone else |
| `Shell.JoinRoundTrip` | pkg/notebook/prepare.go:96-112 | Reading back the joined arguments by POSIX token recognition and quote removal gives exactly the list, if and only if no argument holds a NUL |
| `Shell.ReadQuoted` | pkg/notebook/prepare.go:104-112 | A quoted string is read as one word, whatever it holds but a NUL |
| `Shell.ScriptRoundTrip` | pkg/notebook/prepare.go:66-94 | After any prefix of complete lines the script reads back as the optional cd, each step's argv in order, and exec with the base argv |
| `Shell.PlainScriptRoundTrip` | pkg/notebook/prepare.go:66-94 | Without prefix lines it reads back as set -e followed by the same: into the working directory if there is one, then each command of the steps in order, then exec with the base argv |
| `Shell.ShellJoin` | pkg/notebook/prepare.go:96-102 | The quoted arguments with a space between any two |
| `Shell.Validate` | pkg/notebook/prepare.go:17-41 | Accepted if and only if every step is a known kind with a command and a known or no backend |
| `Shell.StepsForBackend` | pkg/notebook/prepare.go:44-62 | Refused if and only if some step is invalid; else the steps for this or any backend, in order |
| `Shell.SelectedConcat` | pkg/notebook/prepare.go:51-62 | The selection goes step by step and keeps the order |
| `Shell.SelectedOne` | pkg/notebook/prepare.go:51-62 | A step is taken if and only if it names no backend or this one |
| `Shell.PrefixConcat` | pkg/notebook/prepare.go:72-80 | The prefix text is that of its lines one after the other |
| `Shell.PrefixOne` | pkg/notebook/prepare.go:72-80 | A prefix line is written as it is, with a line feed if it does not end in one; an empty one is left out |
| `Shell.BuildLaunchScript` | pkg/notebook/prepare.go:66-94 | Refused exactly without a base command; else set -e, the prefix, and one line per command |
| `Stripper.StripIsExact` | internal/manifestmigrate/stripper.go:43-105 | The nodes left, in order, are exactly those not under a worker or label key of a driver's placement, if and only if no such key stands in a second mapping-valued placement of one driver; the report is true if and only if something went |
| `Stripper.MissedStays` | internal/manifestmigrate/stripper.go:74-82 | A key in such a second placement is still there after the pass |
| `Stripper.UniqueMissesNothing` | internal/manifestmigrate/stripper.go:74-82 | In a document without repeated keys there is none |
| `Stripper.Idempotent` | internal/manifestmigrate/stripper.go:43-105 | A second pass reports nothing and changes nothing |
| `Stripper.PruneSpares` | internal/manifestmigrate/stripper.go:43-82 | The same at any depth below any path |
| `Stripper.PruneShrinks` | internal/manifestmigrate/stripper.go:84-105 | Either something is gone or the tree is what it was |
| `Stripper.PlacedThenPruned` | internal/manifestmigrate/stripper.go:53-62 | Cleaning a driver's placement first and walking it afterwards is one walk that knows where it is |
| `Stripper.Node.RemoveKeys` | internal/manifestmigrate/stripper.go:85-105 | In place: exactly the pairs with other keys stay, in order |
| `Stripper.Node.StripPlacement` | internal/manifestmigrate/stripper.go:74-82 | In place: the first mapping-valued placement is cleaned, nothing else moves |
| `Stripper.Node.StripNode` | internal/manifestmigrate/stripper.go:43-70 | In place on a tree without sharing: the tree becomes its pruned value and the report is exact |
| `Stripper.Node.StripPairs` | internal/manifestmigrate/stripper.go:52-66 | The loop over a mapping's pairs |
| `Stripper.Node.StripAll` | internal/manifestmigrate/stripper.go:45-51 | The loop over a document's or sequence's children |
| `LineWriters.CopyAll` | internal/docker/logs.go:18-38 | However a stream is cut into writes, after Close the lines are those of the whole text |
| `LineWriters.LinesConcat` | internal/docker/logs.go:54-63 | Only the unfinished line of what came before matters for what comes next |
| `LineWriters.SplitLosesNothing` | internal/docker/logs.go:75-93 | Raw lines and remainder spell the text; each line is its raw line less one carriage return |
| `LineWriters.LinesLoseOneReturn` | internal/docker/logs.go:75-93 | A line is its raw line, less one carriage return at the end if there is one |
| `LineWriters.LinesCounted` | internal/docker/logs.go:65-93 | There is one line per line feed, and one for what follows the last one exactly if anything does, unchanged |
| `LineWriters.LineWriter.FlushLines` | internal/docker/logs.go:75-93 | All terminated lines leave the buffer; at the end a non-empty remainder too |
| `LineWriters.LineWriter.Write` | internal/docker/logs.go:54-63 | The bytes count as accepted, unless closed |
| `LineWriters.LineWriter.Close` | internal/docker/logs.go:65-73 | The remainder is emitted once |

## Left out

- TaskQueue.Queue.Recover: requires distinct step names, which its only caller has validated (`Recovery.Plan`); with a repeated name the code would count a grace timer for an entry it then loses.
- CanceledRuns.RunWithoutRequeuesIsStopped: keys of more than 63 characters are cut and hashed, and nothing is claimed of them; goroutines of other runs are assumed to have other keys.
- Recovery.Validate: checks on the text of one step, of the header and of the notifications are flags.
- Flush.RunEffectsAtMostOnce: at most once; exactly once fails for a lost reply, see above.
- Stripper.StripIsExact: what is inside a complex key or behind an alias is not walked and counts as part of that key or alias; the tree has no shared nodes.
- Shell.JoinRoundTrip: covers token recognition and quote removal; that the first word of a line may be a reserved word or an assignment is grammar and not part of this model. The reader refuses unquoted operators and expansions instead of interpreting them.
- Submission.RouteSubmit: the six-second window is a finite number of tries; hashing and JSON are taken to be injective, run IDs to be fresh; deleting runs is not modelled.
- Dag.TopoSort: with repeated names, which validation rules out, it promises only that it ends and how many names it returns.
- Timestamps, error texts, project IDs and the fields of a task that only travel to the worker; events published immediately rather than deferred.
- The backend is fixed when the queue is built (piper.go:564 sets it before the first run); its reservations per task are not modelled.
- A send that fails on the tunnel breaks it; a message is either carried or not, and never reordered.
- StepRow contents against the database across goroutines: the code orders writes only inside one outcome.
- The lease loop, result files, log sinks and metrics of the runtime; Start, Wait and Stop are outcomes of a step.
- The baremetal and Kubernetes backends repeat the docker backend's tombstones.
- Databases, HTTP, gRPC, YAML and JSON codecs, cryptography, drivers, configuration and the user interface.
