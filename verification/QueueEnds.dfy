/**
 Which events start a step, end it, or put it to retry: for every reachable state and every event, each
 change of a step is traced to exactly the reports, deadlines and calls that bring it about.
 */
module QueueEnds {
  import opened Options
  import opened Tasks
  import opened Graph
  import opened Runs
  import opened TaskIDs
  import opened QueueSpec
  import opened QueueInv
  import opened QueueSteps
  import opened QueueHistory
  import opened QueueRestarts

  /*** Causes ***/

  /** The task ID leads to step `n` of the tracked run `i`. */
  predicate Names(s: State, taskID: string, i: nat, n: string) {
    Tracked(s, i) && n in s.heap[i].tasks && SplitTaskID(taskID) == Some((s.heap[i].runID, n))
  }

  /**
   A report of this runtime for this attempt counts: the step is in progress on the attempt, a report
   without an attempt standing for the first, and the runtime is the one that holds the step; if nobody
   does, the one its task names; if it names none, the one the router knows, if it knows one.
   */
  predicate Counts(e: Entry, runtimeID: string, attempt: int, routerOwner: string) {
    && InProgress(e.status)
    && (if e.assignedRuntimeID != "" then runtimeID == e.assignedRuntimeID
        else if e.taskRuntimeID != "" then runtimeID == e.taskRuntimeID
        else routerOwner != "" ==> runtimeID == routerOwner)
    && (if attempt == 0 then 1 else attempt) == e.attempts
  }

  /** A report that counts reaches step `n` of run `i`; a backend that refuses a dispatch reports a failure. */
  predicate Reports(s: State, ev: Event, done: bool, i: nat, n: string) {
    match ev
    case Complete(res, routerOwner, _) =>
      res.done == done && Names(s, res.taskID, i, n) && Counts(s.heap[i].tasks[n], res.runtimeID, res.attempt, routerOwner)
    case DispatchReturns(k, m, j, reply, routerOwner, _) =>
      && !done && reply.Refused? && JobIn(s, k, m, j, Active) && s.heap[k].tasks[m].jobs[j].kind.DispatchCall?
      && Names(s, MakeTaskID(s.heap[k].runID, m), i, n)
      && Counts(s.heap[i].tasks[n], reply.runtimeID, s.heap[k].tasks[m].jobs[j].attempt, routerOwner)
    case _ => false
  }

  /** The timeout of a running step or the grace period of a recovering one is over, and its run ID is tracked. */
  predicate Overdue(s: State, ev: Event, i: nat, n: string) {
    && ev.TimerBody? && ev.run == i && ev.step == n && JobIn(s, i, n, ev.job, Active) && s.alive && s.heap[i].runID in s.runs
    && var kind, st := s.heap[i].tasks[n].jobs[ev.job].kind, s.heap[i].tasks[n].status;
       (kind.Timeout? && st.Running?) || (kind.Grace? && st.Recovering?)
  }

  /** The event fails the attempt the step is on. */
  predicate Strikes(s: State, ev: Event, i: nat, n: string) {
    HasTask(s, i, n) && (Reports(s, ev, false, i, n) || Overdue(s, ev, i, n))
  }

  predicate AttemptsSpent(s: State, i: nat, n: string) {
    HasTask(s, i, n) && s.heap[i].tasks[n].attempts >= s.heap[i].tasks[n].maxAttempts
  }

  /** Cleanup finds a lease of the tracked run that is older than the cutoff. */
  predicate Stale(s: State, cutoff: int, i: nat) {
    Tracked(s, i) && exists m :: m in s.heap[i].tasks && OldLease(s.heap[i].tasks[m], cutoff)
  }

  predicate OldLease(e: Entry, cutoff: int) {
    (e.status.Running? || e.status.Recovering?) && e.leaseAt.Some? && e.leaseAt.value < cutoff
  }

  predicate CancelsRun(s: State, ev: Event, i: nat) {
    ev.Cancel? && Tracked(s, i) && s.heap[i].runID == ev.runID
  }

  /** A pending step whose dependencies in the run are all done or skipped once `m` is done. */
  predicate Cleared(r: RunEntry, n: string, m: string) {
    && n in r.tasks && r.tasks[n].status.Pending?
    && forall d :: d in r.tasks[n].dependsOn ==> d in r.tasks && (d == m || r.tasks[d].status.Done? || r.tasks[d].status.Skipped?)
  }

  /** The event hands the step to the backend: it lets it in, sends it again, or ends the last dependency it waited for. */
  ghost predicate Dispatches(s: State, ev: Event, i: nat, n: string) {
    && s.cfg.backend && HasTask(s, i, n)
    && (|| (Strikes(s, ev, i, n) && !AttemptsSpent(s, i, n) && s.cfg.retryDelay <= 0)
        || SendsAgain(s, ev, i, n)
        || exists m :: Reports(s, ev, true, i, m) && Cleared(s.heap[i], n, m))
  }

  /** A requeue timer finds the step still ready and the server alive, or a retry timer finds it still retrying. */
  predicate SendsAgain(s: State, ev: Event, i: nat, n: string) {
    && ev.TimerBody? && ev.run == i && ev.step == n && JobIn(s, i, n, ev.job, Active)
    && var kind, st := s.heap[i].tasks[n].jobs[ev.job].kind, s.heap[i].tasks[n].status;
       (kind.Requeue? && s.alive && st.Ready?) || (kind.Retry? && st.Retrying?)
  }

  /*** What the operations make of one entry ***/

  /** Neither ended by itself nor put to retry. */
  predicate Spared(e: Entry, f: Entry) {
    && f.retries == e.retries && (f.status.Done? <==> e.status.Done?)
    && (f.status.Failed? <==> e.status.Failed?) && (f.status.Canceled? <==> e.status.Canceled?)
  }

  lemma PromoteOneAs(e: Entry, done: set<string>, backend: bool, now: int)
    ensures var f := PromoteOne(e, done, backend, now);
      Spared(e, f) && f.starts == e.starts + if backend && e.status.Pending? && DepsAllDone(e.dependsOn, done) then 1 else 0
  {
    hide StopTimer;
    var c := Transition(e, Ready);
    StopTimerFrame(Transition(c.(attempts := c.attempts + 1), Running).(leaseAt := Some(now), starts := c.starts + 1));
  }

  lemma DispatchAs(e: Entry, backend: bool, now: int)
    requires e.status.Ready?
    ensures var f := Dispatch(e, backend, now); Spared(e, f) && f.starts == e.starts + if backend then 1 else 0
  {
    hide StopTimer;
    StopTimerFrame(Transition(e.(attempts := e.attempts + 1), Running).(leaseAt := Some(now), starts := e.starts + 1));
  }

  lemma EndedAs(e: Entry, to: Status)
    requires !Terminal(e.status)
    ensures var f := Finish(e, to);
      f.status == to && f.retries == e.retries && f.starts == e.starts && f.attempts == e.attempts && f.leaseAt.None?
    ensures var f := CancelEntry(e); f.status == Canceled && f.retries == e.retries && f.starts == e.starts
    ensures var f := Transition(e, Skipped); f.status == Skipped && f.retries == e.retries && f.starts == e.starts
  {
    hide StopTimer;
    StopTimerFrame(e);
  }

  lemma RenewedAs(e: Entry, runtimeID: string, now: int)
    ensures var f := RenewEntry(e, runtimeID, now); Spared(e, f) && f.starts == e.starts
  {
    hide StopTimer;
    StopTimerFrame(e.(assignedRuntimeID := runtimeID));
  }

  lemma RequeuedAs(e: Entry, foreign: bool)
    requires e.status.Running?
    ensures var f := BusyRequeue(e, foreign); Spared(e, f) && f.starts == e.starts
  {
    hide StopTimer;
    var back := if e.attempts - 1 < 0 then 0 else e.attempts - 1;
    StopTimerFrame(Transition(e.(attempts := back), Ready)
          .(assignedRuntimeID := "", leaseAt := None, requeues := e.requeues + 1,
            foreign := e.foreign + (if foreign then 1 else 0)));
  }

  /*** What the compound operations make of every entry ***/

  lemma DoneAt(s: State, k: nat, m: string, now: int, i: nat, n: string)
    requires HasTask(s, k, m) && HasTask(s, i, n)
    ensures var t, tasks := CompleteDone(s, k, m, now), s.heap[k].tasks[m := Finish(s.heap[k].tasks[m], Done)];
      && HasTask(t, i, n)
      && t.heap[i].tasks[n] ==
           if i != k then s.heap[i].tasks[n] else PromoteOne(tasks[n], DoneNames(tasks), s.cfg.backend, now)
  {
    hide PromoteOne, Finish, DoneNames, AllTasksSettled, AnyFailed;
  }

  lemma FailAt(s: State, k: nat, m: string, now: int, i: nat, n: string)
    requires HasTask(s, k, m) && HasTask(s, i, n)
    ensures var e, t, f := s.heap[k].tasks[m], FailOrRetry(s, k, m, now), s.heap[i].tasks[n];
      && HasTask(t, i, n)
      && if e.attempts < e.maxAttempts then
           t.heap[i].tasks[n] == if i == k && n == m then RetryLater(e, s.cfg.retryDelay, s.cfg.backend, now) else f
         else
           var g := if i == k && n == m then Finish(e, Failed) else f;
           t.heap[i].tasks[n] == g || ((g.status.Pending? || g.status.Ready?) && t.heap[i].tasks[n] == Transition(g, Skipped))
  {
    hide RetryLater, Finish, SkipSet, AllTasksSettled, AnyFailed;
    var e := s.heap[k].tasks[m];
    if e.attempts >= e.maxAttempts {
      var tasks := s.heap[k].tasks[m := Finish(e, Failed)];
      if n in SkipSet(tasks, m) { var d := SkipSetCause(tasks, m, n); }
    }
  }

  lemma FailLostAt(s: State, h: nat, k: nat, m: string, now: int, i: nat, n: string)
    requires HasTask(s, k, m) && HasTask(s, i, n) && h < |s.heap| && h != k
    ensures var e, t, f := s.heap[k].tasks[m], FailLost(s, h, k, m, now), s.heap[i].tasks[n];
      && HasTask(t, i, n)
      && if e.attempts < e.maxAttempts then
           t.heap[i].tasks[n] == if i == k && n == m then RetryLater(e, s.cfg.retryDelay, s.cfg.backend, now) else f
         else
           var g := if i == k && n == m then Finish(e, Failed) else f;
           t.heap[i].tasks[n] == g || ((g.status.Pending? || g.status.Ready?) && t.heap[i].tasks[n] == Transition(g, Skipped))
  {
    hide RetryLater, Finish, SkipSet, AllTasksSettled, AnyFailed;
    if i == h && n in SkipSet(s.heap[h].tasks, m) { var d := SkipSetCause(s.heap[h].tasks, m, n); }
  }

  /** What `failOrRetryLocked` makes of the entry it is handed. */
  lemma StruckAs(s: State, k: nat, i: nat, n: string, now: int)
    requires HasTask(s, i, n) && !Terminal(s.heap[i].tasks[n].status) && k < |s.heap|
    ensures var t := if k == i then FailOrRetry(s, i, n, now) else FailLost(s, k, i, n, now);
      && HasTask(t, i, n)
      && var e, f := s.heap[i].tasks[n], t.heap[i].tasks[n];
      if e.attempts < e.maxAttempts then
        && f.assignedRuntimeID == "" && f.retries == e.retries + 1
        && if s.cfg.retryDelay > 0 then
             f.status.Retrying? && f.attempts == e.attempts && f.leaseAt.None?
             && |f.jobs| == |e.jobs| + 1 && f.jobs[|e.jobs|] == Job(Retry, e.attempts, Waiting)
           else if s.cfg.backend then f.status.Running? && f.attempts == e.attempts + 1 && f.leaseAt == Some(now)
           else f.status.Ready? && f.attempts == e.attempts && f.leaseAt.None?
      else f.status.Failed? && f.attempts == e.attempts && f.retries == e.retries && f.leaseAt.None?
  {
    hide FailOrRetry, FailLost, RetryLater, Finish, CancelEntry;
    RetriedAs(s.heap[i].tasks[n], s.cfg.retryDelay, s.cfg.backend, now);
    EndedAs(s.heap[i].tasks[n], Failed);
    if k == i { FailAt(s, i, n, now, i, n); } else { FailLostAt(s, k, i, n, now, i, n); }
  }

  lemma CancelAt(s: State, runID: string, i: nat, n: string)
    requires Inv(s) && HasTask(s, i, n)
    ensures var e, t := s.heap[i].tasks[n], CancelState(s, runID);
      && HasTask(t, i, n)
      && t.heap[i].tasks[n] == if Tracked(s, i) && s.heap[i].runID == runID && !Terminal(e.status) then CancelEntry(e) else e
  {
    hide CancelEntry, Inv;
    IndexedBy(s, runID);
  }

  lemma CleanupAt(s: State, cutoff: int, i: nat, n: string)
    requires HasTask(s, i, n)
    ensures var e, t := s.heap[i].tasks[n], CleanupState(s, cutoff);
      && HasTask(t, i, n)
      && t.heap[i].tasks[n] == if Stale(s, cutoff, i) && !Terminal(e.status) then Finish(e, Failed) else e
  {
    hide Finish;
    assert Stale(s, cutoff, i) <==> Expires(s, i, cutoff) by { StaleExpires(s, cutoff, i); }
  }

  lemma StaleExpires(s: State, cutoff: int, i: nat)
    ensures Stale(s, cutoff, i) <==> Expires(s, i, cutoff)
  {
    if i < |s.heap| {
      assert forall m :: m in s.heap[i].tasks ==> (OldLease(s.heap[i].tasks[m], cutoff) <==> LeaseExpired(s.heap[i].tasks[m], cutoff));
    }
  }

  lemma {:induction false} RenewAt(s: State, runtimeID: string, taskIDs: seq<string>, now: int, i: nat, n: string)
    requires HasTask(s, i, n)
    ensures var t := RenewAll(s, runtimeID, taskIDs, now);
      HasTask(t, i, n) && Spared(s.heap[i].tasks[n], t.heap[i].tasks[n]) && t.heap[i].tasks[n].starts == s.heap[i].tasks[n].starts
    decreases |taskIDs|
  {
    hide RenewEntry, SplitTaskID;
    if taskIDs != [] {
      RenewAt(s, runtimeID, taskIDs[..|taskIDs| - 1], now, i, n);
      RenewedAs(RenewAll(s, runtimeID, taskIDs[..|taskIDs| - 1], now).heap[i].tasks[n], runtimeID, now);
    }
  }

  lemma EnterAt(s: State, ev: Event, i: nat, n: string)
    requires Enters(ev) && HasTask(s, i, n)
    ensures HasTask(Step(s, ev), i, n) && Step(s, ev).heap[i].tasks[n] == s.heap[i].tasks[n]
  {
    hide Step, Displace;
    EnteredOne(s, ev);
    DisplaceAt(s, EnteringID(ev), i, n);
  }

  lemma DisplaceAt(s: State, runID: string, i: nat, n: string)
    requires HasTask(s, i, n)
    ensures HasTask(Displace(s, runID), i, n) && Displace(s, runID).heap[i].tasks[n] == s.heap[i].tasks[n]
  {
  }

  /*** Reports ***/

  /** What an applied report, or a refused dispatch, comes down to. */
  lemma ResultAt(s: State, res: Result, routerOwner: string, now: int)
    requires Inv(s) && res.attempt >= 0
    ensures JudgeResult(s, res, routerOwner) == Applied <==>
      exists k: nat, m :: Names(s, res.taskID, k, m) && Counts(s.heap[k].tasks[m], res.runtimeID, res.attempt, routerOwner)
    ensures JudgeResult(s, res, routerOwner) != Applied ==> CompleteResult(s, res, routerOwner, now) == s
    ensures JudgeResult(s, res, routerOwner) == Applied ==>
      var (runID, m) := SplitTaskID(res.taskID).value; var k := s.runs[runID];
      && Names(s, res.taskID, k, m) && Counts(s.heap[k].tasks[m], res.runtimeID, res.attempt, routerOwner)
      && CompleteResult(s, res, routerOwner, now) == if res.done then CompleteDone(s, k, m, now) else FailOrRetry(s, k, m, now)
  {
    hide Inv, CompleteDone, FailOrRetry, SplitTaskID;
    if JudgeResult(s, res, routerOwner) == Applied {
      var (runID, m) := SplitTaskID(res.taskID).value;
      AppliedMeansInProgress(s, res, routerOwner);
      AppliedIff(s.heap[s.runs[runID]].tasks[m], res, routerOwner);
      IndexedBy(s, runID);
      SetEntrySame(s, s.runs[runID], m);
    }
    if k: nat, m :| Names(s, res.taskID, k, m) && Counts(s.heap[k].tasks[m], res.runtimeID, res.attempt, routerOwner) {
      AppliedIff(s.heap[k].tasks[m], res, routerOwner);
    }
  }

  /** An ID names one step at most. */
  lemma NamesOne(s: State, taskID: string, i: nat, n: string, k: nat, m: string)
    requires Names(s, taskID, i, n) && Names(s, taskID, k, m)
    ensures i == k && n == m
  {
    hide SplitTaskID;
  }

  /** The entries once a report has been dealt with. */
  ghost predicate AfterReport(s: State, t: State, done: bool, hit: bool, freed: bool, i: nat, n: string)
    requires HasTask(s, i, n)
  {
    && HasTask(t, i, n)
    && var e, f := s.heap[i].tasks[n], t.heap[i].tasks[n];
       var again := hit && !done && e.attempts < e.maxAttempts;
    && (f.status.Done? <==> e.status.Done? || (hit && done))
    && (f.status.Failed? <==> e.status.Failed? || (hit && !done && e.attempts >= e.maxAttempts))
    && (f.status.Canceled? <==> e.status.Canceled?)
    && f.retries == e.retries + (if again then 1 else 0)
    && f.starts == e.starts + (if s.cfg.backend && ((again && s.cfg.retryDelay <= 0) || freed) then 1 else 0)
  }

  lemma FailedReport(s: State, k: nat, m: string, now: int, i: nat, n: string)
    requires HasTask(s, k, m) && HasTask(s, i, n) && InProgress(s.heap[k].tasks[m].status)
    ensures AfterReport(s, FailOrRetry(s, k, m, now), false, i == k && n == m, false, i, n)
  {
    hide FailOrRetry, RetryLater, Finish, CancelEntry;
    FailAt(s, k, m, now, i, n);
    RetriedAs(s.heap[k].tasks[m], s.cfg.retryDelay, s.cfg.backend, now);
    EndedAs(s.heap[k].tasks[m], Failed);
  }

  lemma DoneReport(s: State, k: nat, m: string, now: int, i: nat, n: string)
    requires HasTask(s, k, m) && HasTask(s, i, n) && InProgress(s.heap[k].tasks[m].status)
    ensures AfterReport(s, CompleteDone(s, k, m, now), true, i == k && n == m, i == k && Cleared(s.heap[i], n, m), i, n)
  {
    hide CompleteDone, PromoteOne, Finish, CancelEntry;
    DoneAt(s, k, m, now, i, n);
    EndedAs(s.heap[k].tasks[m], Done);
    var tasks := s.heap[k].tasks[m := Finish(s.heap[k].tasks[m], Done)];
    if i == k {
      PromoteOneAs(tasks[n], DoneNames(tasks), s.cfg.backend, now);
      assert DepsAllDone(tasks[n].dependsOn, DoneNames(tasks)) <==>
        forall d :: d in tasks[n].dependsOn ==> d in s.heap[i].tasks && (d == m || s.heap[i].tasks[d].status.Done? || s.heap[i].tasks[d].status.Skipped?);
    }
  }

  /** What one event makes of one step. */
  ghost predicate ChangedAs(s: State, ev: Event, t: State, i: nat, n: string)
    requires HasTask(s, i, n)
  {
    && HasTask(t, i, n)
    && var e, f := s.heap[i].tasks[n], t.heap[i].tasks[n];
    && (f.status.Done? <==> e.status.Done? || Reports(s, ev, true, i, n))
    && (f.status.Failed? <==>
          || e.status.Failed? || (Strikes(s, ev, i, n) && AttemptsSpent(s, i, n))
          || (ev.Cleanup? && Stale(s, ev.cutoff, i) && !Terminal(e.status)))
    && (f.status.Canceled? <==> e.status.Canceled? || (CancelsRun(s, ev, i) && !Terminal(e.status)))
    && f.retries == e.retries + (if Strikes(s, ev, i, n) && !AttemptsSpent(s, i, n) then 1 else 0)
    && f.starts == e.starts + (if Dispatches(s, ev, i, n) then 1 else 0)
  }

  lemma NothingChanged(s: State, ev: Event, t: State, i: nat, n: string)
    requires HasTask(s, i, n) && HasTask(t, i, n) && Spared(s.heap[i].tasks[n], t.heap[i].tasks[n])
    requires t.heap[i].tasks[n].starts == s.heap[i].tasks[n].starts
    requires !ev.Complete? && !ev.Cancel? && !ev.Cleanup? && !ev.TimerBody? && !Refuses(s, ev)
    ensures ChangedAs(s, ev, t, i, n)
  {
    hide Names, Counts, Cleared;
  }

  lemma ReportChanged(s: State, res: Result, routerOwner: string, now: int, i: nat, n: string)
    requires Inv(s) && res.attempt >= 0 && HasTask(s, i, n)
    ensures ChangedAs(s, Complete(res, routerOwner, now), CompleteResult(s, res, routerOwner, now), i, n)
  {
    var ev := Complete(res, routerOwner, now);
    hide Inv, CompleteResult, CompleteDone, FailOrRetry, JudgeResult, SplitTaskID, Cleared;
    ResultAt(s, res, routerOwner, now);
    if JudgeResult(s, res, routerOwner) == Applied {
      var (runID, m) := SplitTaskID(res.taskID).value;
      var k := s.runs[runID];
      forall h: nat, l | Names(s, res.taskID, h, l) ensures h == k && l == m { NamesOne(s, res.taskID, h, l, k, m); }
      hide Names, Counts;
      if res.done { DoneReport(s, k, m, now, i, n); } else { FailedReport(s, k, m, now, i, n); }
    }
  }

  lemma MoveJobAt(s: State, k: nat, m: string, j: nat, p: Phase, i: nat, n: string)
    requires HasJob(s, k, m, j) && HasTask(s, i, n)
    ensures var t := MoveJob(s, k, m, j, p);
      && HasTask(t, i, n) && t.heap[i].tasks[n] == s.heap[i].tasks[n].(jobs := t.heap[i].tasks[n].jobs)
      && |t.heap| == |s.heap| && t.heap[i].runID == s.heap[i].runID && t.runs == s.runs && t.cfg == s.cfg && t.alive == s.alive
      && (forall h :: Tracked(t, h) <==> Tracked(s, h)) && t.heap[i].tasks.Keys == s.heap[i].tasks.Keys
      && t.heap[k].runID == s.heap[k].runID
  {
  }

  lemma MovedNames(s: State, k: nat, m: string, j: nat, taskID: string, i: nat, n: string)
    requires HasJob(s, k, m, j)
    ensures var t := MoveJob(s, k, m, j, Flushing);
      && (Names(t, taskID, i, n) <==> Names(s, taskID, i, n))
      && (Names(s, taskID, i, n) ==> t.heap[i].tasks[n] == s.heap[i].tasks[n].(jobs := t.heap[i].tasks[n].jobs))
  {
    hide SplitTaskID;
  }

  function Refusal(s: State, ev: Event): Result
    requires ev.DispatchReturns? && ev.reply.Refused? && HasJob(s, ev.run, ev.step, ev.job)
  {
    Result(MakeTaskID(s.heap[ev.run].runID, ev.step), ev.reply.runtimeID, false, s.heap[ev.run].tasks[ev.step].jobs[ev.job].attempt)
  }

  predicate Refuses(s: State, ev: Event) {
    && ev.DispatchReturns? && ev.reply.Refused?
    && JobIn(s, ev.run, ev.step, ev.job, Active) && s.heap[ev.run].tasks[ev.step].jobs[ev.job].kind.DispatchCall?
  }

  lemma RefusalIs(s: State, ev: Event)
    requires Inv(s) && Refuses(s, ev)
    ensures var t := MoveJob(s, ev.run, ev.step, ev.job, Flushing);
      Inv(t) && Step(s, ev) == CompleteResult(t, Refusal(s, ev), ev.routerOwner, ev.now) && Refusal(s, ev).attempt > 0
  {
    var k, m, j := ev.run, ev.step, ev.job;
    BooksOf(s, k, m);
    assert Refusal(s, ev).attempt > 0;
    MoveJobInv(s, k, m, j, Flushing);
    hide Inv, CompleteResult, MakeTaskID, HandleOk, Accounted;
  }

  /** The refusal of a dispatch is judged like any other report. */
  lemma RefusalChanged(s: State, ev: Event, i: nat, n: string)
    requires Inv(s) && HasTask(s, i, n) && Refuses(s, ev)
    ensures ChangedAs(s, ev, Step(s, ev), i, n)
  {
    hide Inv, MoveJob, CompleteResult, Names, Cleared, SplitTaskID, MakeTaskID, Step, Counts;
    var t, res := MoveJob(s, ev.run, ev.step, ev.job, Flushing), Refusal(s, ev);
    RefusalIs(s, ev);
    MoveJobAt(s, ev.run, ev.step, ev.job, Flushing, i, n);
    MovedNames(s, ev.run, ev.step, ev.job, res.taskID, i, n);
    ReportChanged(t, res, ev.routerOwner, ev.now, i, n);
    SameCounts(s.heap[i].tasks[n], t.heap[i].tasks[n], res, ev.routerOwner);
  }

  lemma SameCounts(e: Entry, f: Entry, res: Result, routerOwner: string)
    requires f == e.(jobs := f.jobs)
    ensures Counts(e, res.runtimeID, res.attempt, routerOwner) == Counts(f, res.runtimeID, res.attempt, routerOwner)
  {
  }

  /** The state in which a deadline that is over is dealt with. */
  function FiredState(s: State, ev: Event): State
    requires ev.TimerBody? && HasJob(s, ev.run, ev.step, ev.job)
  {
    var t := MoveJob(s, ev.run, ev.step, ev.job, Flushing);
    SetEntry(t, ev.run, ev.step, t.heap[ev.run].tasks[ev.step].(timer := None))
  }

  lemma FiredAt(s: State, ev: Event, i: nat, n: string)
    requires ev.TimerBody? && HasJob(s, ev.run, ev.step, ev.job) && HasTask(s, i, n)
    ensures var u := FiredState(s, ev);
      && HasTask(u, i, n) && u.cfg == s.cfg && |u.heap| == |s.heap|
      && u.heap[i].tasks[n] == s.heap[i].tasks[n].(jobs := u.heap[i].tasks[n].jobs, timer := u.heap[i].tasks[n].timer)
  {
  }

  lemma DeadlineIs(s: State, ev: Event)
    requires Inv(s) && ev.TimerBody? && Overdue(s, ev, ev.run, ev.step)
    ensures var u, h := FiredState(s, ev), s.runs[s.heap[ev.run].runID];
      && HasTask(u, ev.run, ev.step) && h < |u.heap|
      && Step(s, ev) == if h == ev.run then FailOrRetry(u, ev.run, ev.step, ev.now) else FailLost(u, h, ev.run, ev.step, ev.now)
  {
    IndexedBy(s, s.heap[ev.run].runID);
    MoveJobAt(s, ev.run, ev.step, ev.job, Flushing, ev.run, ev.step);
    hide Inv, FailOrRetry, FailLost, MoveJob, SetEntry;
    var t := MoveJob(s, ev.run, ev.step, ev.job, Flushing);
    assert |SetEntry(t, ev.run, ev.step, t.heap[ev.run].tasks[ev.step].(timer := None)).heap| == |s.heap|
      && HasTask(SetEntry(t, ev.run, ev.step, t.heap[ev.run].tasks[ev.step].(timer := None)), ev.run, ev.step) by {
      FiredAt(s, ev, ev.run, ev.step);
    }
    hide FiredState;
    DeadlineCallback(t, ev.run, ev.step, s.heap[ev.run].tasks[ev.step].jobs[ev.job].kind, ev.now);
  }

  lemma DeadlineCallback(t: State, i: nat, n: string, kind: JobKind, now: int)
    requires HasTask(t, i, n) && t.alive && t.heap[i].runID in t.runs && t.runs[t.heap[i].runID] < |t.heap|
    requires var st := t.heap[i].tasks[n].status; (kind.Timeout? && st.Running?) || (kind.Grace? && st.Recovering?)
    ensures var u, h := SetEntry(t, i, n, t.heap[i].tasks[n].(timer := None)), t.runs[t.heap[i].runID];
      && HasTask(u, i, n) && h < |u.heap|
      && Callback(t, i, n, kind, now) == if h == i then FailOrRetry(u, i, n, now) else FailLost(u, h, i, n, now)
  {
    hide FailOrRetry, FailLost;
  }

  /** The entries once a deadline has been dealt with. */
  lemma DeadlineAt(s: State, ev: Event, i: nat, n: string)
    requires Inv(s) && HasTask(s, i, n) && ev.TimerBody? && Overdue(s, ev, ev.run, ev.step)
    ensures AfterReport(s, Step(s, ev), false, i == ev.run && n == ev.step, false, i, n)
  {
    hide Inv, Step, FailOrRetry, FailLost, RetryLater, Finish, CancelEntry, FiredState;
    var k, m := ev.run, ev.step;
    var u, h := FiredState(s, ev), s.runs[s.heap[k].runID];
    DeadlineIs(s, ev);
    FiredAt(s, ev, i, n);
    FiredAt(s, ev, k, m);
    hide Overdue;
    RetriedAs(u.heap[k].tasks[m], u.cfg.retryDelay, u.cfg.backend, ev.now);
    EndedAs(u.heap[k].tasks[m], Failed);
    if !Terminal(u.heap[i].tasks[n].status) { EndedAs(u.heap[i].tasks[n], Failed); }
    if h == k { FailAt(u, k, m, ev.now, i, n); } else { FailLostAt(u, h, k, m, ev.now, i, n); }
  }

  lemma DeadlineChanged(s: State, ev: Event, i: nat, n: string)
    requires Inv(s) && HasTask(s, i, n) && ev.TimerBody? && Overdue(s, ev, ev.run, ev.step)
    ensures ChangedAs(s, ev, Step(s, ev), i, n)
  {
    hide Inv, Step, Reports, Cleared;
    DeadlineAt(s, ev, i, n);
    NoReport(s, ev, i);
  }

  lemma NoReport(s: State, ev: Event, i: nat)
    requires !ev.Complete? && !ev.DispatchReturns?
    ensures forall done, l :: !Reports(s, ev, done, i, l)
  {
  }

  lemma IndexedOf(s: State)
    requires Inv(s)
    ensures Indexed(s)
  {
  }

  lemma SentAgainIs(s: State, ev: Event)
    requires ev.TimerBody? && SendsAgain(s, ev, ev.run, ev.step)
    ensures HasTask(FiredState(s, ev), ev.run, ev.step)
    ensures var u := FiredState(s, ev);
      Step(s, ev) == SetEntry(u, ev.run, ev.step, Dispatch(Transition(u.heap[ev.run].tasks[ev.step], Ready), s.cfg.backend, ev.now))
  {
    hide Dispatch;
    var t := MoveJob(s, ev.run, ev.step, ev.job, Flushing);
    SetEntryTwice(t, ev.run, ev.step, t.heap[ev.run].tasks[ev.step].(timer := None),
                  Dispatch(Transition(t.heap[ev.run].tasks[ev.step].(timer := None), Ready), s.cfg.backend, ev.now));
    var c := t.heap[ev.run].tasks[ev.step].(timer := None);
    assert c.status.Ready? ==> Transition(c, Ready) == c;
  }

  /** A callback that is too late leaves everything but jobs and handle alone. */
  lemma LateCallback(s: State, ev: Event, i: nat, n: string)
    requires Indexed(s) && ev.TimerBody? && HasTask(s, i, n)
    requires !Overdue(s, ev, ev.run, ev.step) && !SendsAgain(s, ev, ev.run, ev.step)
    ensures HasTask(Step(s, ev), i, n) && HasTask(Moved(s, ev), i, n)
    ensures var e, c, f := s.heap[i].tasks[n], Moved(s, ev).heap[i].tasks[n], Step(s, ev).heap[i].tasks[n];
      && c == e.(jobs := c.jobs)
      && f == if ev.run == i && ev.step == n && JobIn(s, i, n, ev.job, Active) && e.jobs[ev.job].kind.Requeue?
              then c.(timer := None) else c
  {
    hide Callback, MoveJob;
    var k, m, j := ev.run, ev.step, ev.job;
    if JobIn(s, k, m, j, Active) && !IsDispatch(s, k, m, j) {
      MoveJobAt(s, k, m, j, Flushing, i, n);
      MoveJobAt(s, k, m, j, Flushing, k, m);
      LateCallbackAt(MoveJob(s, k, m, j, Flushing), k, m, s.heap[k].tasks[m].jobs[j].kind, ev.now, i, n);
    }
  }

  lemma LateCallbackAt(t: State, k: nat, m: string, kind: JobKind, now: int, i: nat, n: string)
    requires HasTask(t, k, m) && HasTask(t, i, n) && (t.heap[k].runID in t.runs ==> t.runs[t.heap[k].runID] < |t.heap|)
    requires var st := t.heap[k].tasks[m].status;
      && !(t.alive && t.heap[k].runID in t.runs && ((kind.Timeout? && st.Running?) || (kind.Grace? && st.Recovering?)))
      && !((kind.Requeue? && t.alive && st.Ready?) || (kind.Retry? && st.Retrying?))
    ensures var u := Callback(t, k, m, kind, now);
      && HasTask(u, i, n)
      && u.heap[i].tasks[n] == if kind.Requeue? && i == k && n == m then t.heap[i].tasks[n].(timer := None) else t.heap[i].tasks[n]
  {
    hide FailOrRetry, FailLost, Dispatch;
  }

  /** The other callbacks concern their own entry at most. */
  lemma CallbackChanged(s: State, ev: Event, i: nat, n: string)
    requires Inv(s) && HasTask(s, i, n) && ev.TimerBody? && !Overdue(s, ev, ev.run, ev.step)
    ensures ChangedAs(s, ev, Step(s, ev), i, n)
  {
    hide Inv, Step, Cleared, Reports, FiredState, Dispatch;
    NoReport(s, ev, i);
    if SendsAgain(s, ev, ev.run, ev.step) {
      var u := FiredState(s, ev);
      SentAgainIs(s, ev);
      FiredAt(s, ev, i, n);
      FiredAt(s, ev, ev.run, ev.step);
      DispatchAs(Transition(u.heap[ev.run].tasks[ev.step], Ready), s.cfg.backend, ev.now);
    } else {
      IndexedOf(s);
      LateCallback(s, ev, i, n);
    }
  }

  /** A dispatch that was accepted, or refused as busy. */
  lemma AnswerChanged(s: State, ev: Event, i: nat, n: string)
    requires Inv(s) && HasTask(s, i, n) && ev.DispatchReturns? && !Refuses(s, ev)
    ensures ChangedAs(s, ev, Step(s, ev), i, n)
  {
    hide Inv, Moved, BusyRequeue, Names, Counts, Cleared, MakeTaskID;
    MovedStatus(s, ev, i, n);
    if IsBusy(ev) {
      BusyStep(s, ev, i, n);
      if BusyFor(s, ev, i, n) { RequeuedAs(Moved(s, ev).heap[i].tasks[n], i != ev.run); }
    } else {
      assert Step(s, ev) == Moved(s, ev) by { AnswerMoves(s, ev); }
    }
    hide Step;
    NothingChanged(s, ev, Step(s, ev), i, n);
  }

  lemma AnswerMoves(s: State, ev: Event)
    requires ev.DispatchReturns? && !IsBusy(ev) && !Refuses(s, ev)
    ensures Step(s, ev) == Moved(s, ev)
  {
    hide CompleteResult, MoveJob;
  }

  lemma QuietChanged(s: State, ev: Event, i: nat, n: string)
    requires Inv(s) && Enabled(ev) && HasTask(s, i, n)
    requires Enters(ev) || ev.RenewLeases? || ev.SetRetryPolicy? || ev.Shutdown? || ev.TimerFires? || ev.DispatchCheck? || ev.JobEnds?
    ensures ChangedAs(s, ev, Step(s, ev), i, n)
  {
    hide Inv, RenewAll, AddRun, RecoverRun, Names, Counts, Cleared, Spared, Overdue, SendsAgain, MoveJob;
    SparedSelf(s.heap[i].tasks[n]);
    if Enters(ev) {
      EnterAt(s, ev, i, n);
    } else if ev.RenewLeases? {
      RenewAt(s, ev.runtimeID, ev.taskIDs, ev.now, i, n);
    } else if ev.TimerFires? || ev.DispatchCheck? || ev.JobEnds? {
      MovedStatus(s, ev, i, n);
      assert Step(s, ev) == Moved(s, ev);
      SparedJobs(s.heap[i].tasks[n], Step(s, ev).heap[i].tasks[n]);
    }
    hide Step;
    NothingChanged(s, ev, Step(s, ev), i, n);
  }

  lemma SparedJobs(e: Entry, f: Entry)
    requires f == e.(jobs := f.jobs)
    ensures Spared(e, f) && f.starts == e.starts
  {
  }

  lemma SparedSelf(e: Entry)
    ensures Spared(e, e)
  {
  }

  /*** The theorems ***/

  lemma EachChange(s: State, ev: Event, i: nat, n: string)
    requires Inv(s) && Enabled(ev) && HasTask(s, i, n)
    ensures ChangedAs(s, ev, Step(s, ev), i, n)
  {
    hide Inv, ChangedAs, Names, Counts, Cleared;
    match ev
    case Complete(res, routerOwner, now) => ReportChanged(s, res, routerOwner, now, i, n);
    case Cancel(_) => CancelChanged(s, ev, i, n);
    case Cleanup(_) => CleanupChanged(s, ev, i, n);
    case TimerBody(k, m, j, _) =>
      if Overdue(s, ev, k, m) { DeadlineChanged(s, ev, i, n); } else { CallbackChanged(s, ev, i, n); }
    case DispatchReturns(_, _, _, _, _, _) =>
      if Refuses(s, ev) { RefusalChanged(s, ev, i, n); } else { AnswerChanged(s, ev, i, n); }
    case _ => QuietChanged(s, ev, i, n);
  }

  lemma CancelChanged(s: State, ev: Event, i: nat, n: string)
    requires Inv(s) && HasTask(s, i, n) && ev.Cancel?
    ensures ChangedAs(s, ev, Step(s, ev), i, n)
  {
    hide Inv, CancelState, CancelEntry, Finish, Cleared;
    CancelAt(s, ev.runID, i, n);
    if !Terminal(s.heap[i].tasks[n].status) { EndedAs(s.heap[i].tasks[n], Canceled); }
  }

  lemma CleanupChanged(s: State, ev: Event, i: nat, n: string)
    requires HasTask(s, i, n) && ev.Cleanup?
    ensures ChangedAs(s, ev, Step(s, ev), i, n)
  {
    hide Inv, CleanupState, CancelEntry, Finish, Cleared, Stale;
    CleanupAt(s, ev.cutoff, i, n);
    if !Terminal(s.heap[i].tasks[n].status) { EndedAs(s.heap[i].tasks[n], Failed); }
  }

  /**
   A step becomes done exactly by a report of success that counts; failed exactly by a report of failure
   that counts or a deadline, on its last attempt, or with its run when Cleanup finds a lease of the run
   too old; canceled exactly with its run.
   */
  lemma EndsIff(s: State, ev: Event, i: nat, n: string)
    requires Reachable(s) && Enabled(ev) && HasTask(s, i, n)
    ensures HasTask(Step(s, ev), i, n)
    ensures var e, f := s.heap[i].tasks[n], Step(s, ev).heap[i].tasks[n];
      && (f.status.Done? <==> e.status.Done? || Reports(s, ev, true, i, n))
      && (f.status.Failed? <==>
            || e.status.Failed?
            || (Strikes(s, ev, i, n) && e.attempts >= e.maxAttempts)
            || (ev.Cleanup? && Stale(s, ev.cutoff, i) && !Terminal(e.status)))
      && (f.status.Canceled? <==>
            e.status.Canceled? || (ev.Cancel? && Tracked(s, i) && s.heap[i].runID == ev.runID && !Terminal(e.status)))
  {
    hide Reachable, Inv, Step, Enabled;
    ReachableInv(s);
    EachChange(s, ev, i, n);
  }

  /**
   It is handed to the backend exactly if there is one, and the event lets it in as the last of its dependencies
   ends, sends it again after a busy refusal or a delayed retry, or fails an attempt that is not the last while retries are immediate.
   */
  lemma StartsIff(s: State, ev: Event, i: nat, n: string)
    requires Reachable(s) && Enabled(ev) && HasTask(s, i, n)
    ensures HasTask(Step(s, ev), i, n)
    ensures var e, f := s.heap[i].tasks[n], Step(s, ev).heap[i].tasks[n];
      f.starts == e.starts +
        if && s.cfg.backend
           && (|| (Strikes(s, ev, i, n) && e.attempts < e.maxAttempts && s.cfg.retryDelay <= 0)
               || SendsAgain(s, ev, i, n)
               || exists m :: Reports(s, ev, true, i, m) && Cleared(s.heap[i], n, m))
        then 1 else 0
  {
    hide Reachable, Inv, Step, Enabled;
    ReachableInv(s);
    EachChange(s, ev, i, n);
  }

  /** The entry an attempt that fails leaves, and what it was before the retry; only jobs and handle have moved in between. */
  lemma StruckEntry(s: State, ev: Event, i: nat, n: string) returns (c: Entry, now: int)
    requires Inv(s) && Enabled(ev) && Strikes(s, ev, i, n) && !AttemptsSpent(s, i, n)
    ensures HasTask(Step(s, ev), i, n) && TimeOf(ev) == Some(now)
    ensures c == s.heap[i].tasks[n].(jobs := c.jobs, timer := c.timer) && |c.jobs| == |s.heap[i].tasks[n].jobs|
    ensures Step(s, ev).heap[i].tasks[n] == RetryLater(c, s.cfg.retryDelay, s.cfg.backend, now)
  {
    hide Inv, Step, FailOrRetry, FailLost, RetryLater, FiredState, CompleteResult, MoveJob, SplitTaskID, MakeTaskID, Counts;
    if Overdue(s, ev, i, n) {
      DeadlineIs(s, ev);
      var u, h := FiredState(s, ev), s.runs[s.heap[i].runID];
      FiredAt(s, ev, i, n);
      FiredJobs(s, ev);
      c, now := u.heap[i].tasks[n], ev.now;
      if h == i { FailAt(u, i, n, now, i, n); } else { FailLostAt(u, h, i, n, now, i, n); }
    } else if ev.Complete? {
      c, now := s.heap[i].tasks[n], ev.now;
      assert Step(s, ev) == CompleteResult(s, ev.result, ev.routerOwner, now) by { CompleteIs(s, ev); }
      ReportTaken(s, ev.result, ev.routerOwner, now, i, n);
      FailAt(s, i, n, now, i, n);
    } else {
      var t, res := MoveJob(s, ev.run, ev.step, ev.job, Flushing), Refusal(s, ev);
      RefusalIs(s, ev);
      MoveJobAt(s, ev.run, ev.step, ev.job, Flushing, i, n);
      MovedJobs(s, ev.run, ev.step, ev.job, i, n);
      MovedNames(s, ev.run, ev.step, ev.job, res.taskID, i, n);
      c, now := t.heap[i].tasks[n], ev.now;
      SameCounts(s.heap[i].tasks[n], c, res, ev.routerOwner);
      ReportTaken(t, res, ev.routerOwner, now, i, n);
      FailAt(t, i, n, now, i, n);
    }
  }

  lemma CompleteIs(s: State, ev: Event)
    requires ev.Complete?
    ensures Step(s, ev) == CompleteResult(s, ev.result, ev.routerOwner, ev.now)
  {
  }

  lemma FiredJobs(s: State, ev: Event)
    requires ev.TimerBody? && HasJob(s, ev.run, ev.step, ev.job)
    ensures |FiredState(s, ev).heap[ev.run].tasks[ev.step].jobs| == |s.heap[ev.run].tasks[ev.step].jobs|
  {
  }

  lemma MovedJobs(s: State, k: nat, m: string, j: nat, i: nat, n: string)
    requires HasJob(s, k, m, j) && HasTask(s, i, n)
    ensures |MoveJob(s, k, m, j, Flushing).heap[i].tasks[n].jobs| == |s.heap[i].tasks[n].jobs|
  {
  }

  /** A report that counts is applied to the step it names. */
  lemma ReportTaken(s: State, res: Result, routerOwner: string, now: int, i: nat, n: string)
    requires Inv(s) && res.attempt >= 0
    requires Names(s, res.taskID, i, n) && Counts(s.heap[i].tasks[n], res.runtimeID, res.attempt, routerOwner)
    ensures CompleteResult(s, res, routerOwner, now) == if res.done then CompleteDone(s, i, n, now) else FailOrRetry(s, i, n, now)
  {
    hide Inv, CompleteResult, CompleteDone, FailOrRetry, Counts;
    ResultAt(s, res, routerOwner, now);
    var (runID, m) := SplitTaskID(res.taskID).value;
    NamesOne(s, res.taskID, i, n, s.runs[runID], m);
  }

  /**
   Put to retry exactly by a failed report that counts or a deadline, as long as attempts are left.  Then it
   has neither owner nor lease; with a delay it waits for a new retry timer, without one the next attempt
   starts at once, if there is a backend.
   */
  lemma RetriedIff(s: State, ev: Event, i: nat, n: string)
    requires Reachable(s) && Enabled(ev) && HasTask(s, i, n)
    ensures HasTask(Step(s, ev), i, n)
    ensures var e, f := s.heap[i].tasks[n], Step(s, ev).heap[i].tasks[n];
      var again := Strikes(s, ev, i, n) && e.attempts < e.maxAttempts;
      && f.retries == e.retries + (if again then 1 else 0)
      && (again ==>
            && f.assignedRuntimeID == "" && f.maxAttempts == e.maxAttempts
            && if s.cfg.retryDelay > 0 then
                 && f.status.Retrying? && f.attempts == e.attempts && f.starts == e.starts && f.leaseAt.None?
                 && |f.jobs| == |e.jobs| + 1 && f.jobs[|e.jobs|] == Job(Retry, e.attempts, Waiting)
               else if s.cfg.backend then
                 && f.status.Running? && f.attempts == e.attempts + 1 && f.starts == e.starts + 1 && f.leaseAt == TimeOf(ev)
                 && |f.jobs| > |e.jobs| && f.jobs[|f.jobs| - 1] == Job(DispatchCall, e.attempts + 1, Waiting)
               else f.status.Ready? && f.attempts == e.attempts && f.starts == e.starts && f.leaseAt.None?)
  {
    hide Reachable, Inv, Step, Enabled, Reports, Overdue, RetryLater;
    ReachableInv(s);
    EachChange(s, ev, i, n);
    if Strikes(s, ev, i, n) && !AttemptsSpent(s, i, n) {
      var c, now := StruckEntry(s, ev, i, n);
      StruckInProgress(s, ev, i, n);
      RetriedAs(c, s.cfg.retryDelay, s.cfg.backend, now);
    }
  }

  lemma StruckInProgress(s: State, ev: Event, i: nat, n: string)
    requires Strikes(s, ev, i, n)
    ensures InProgress(s.heap[i].tasks[n].status)
  {
    hide Names;
  }

  /*** Runs ***/

  /** A run whose closing an event may change by completing it or by overwriting it. */
  predicate ClosingStays(r: RunEntry, t: RunEntry) {
    t.closing == r.closing || (t.closing.Completed? && t.closing.success == !AnyFailed(t)) || t.closing.Overwritten?
  }

  lemma FailClosing(s: State, k: nat, m: string, now: int, i: nat)
    requires HasTask(s, k, m) && i < |s.heap|
    ensures i < |FailOrRetry(s, k, m, now).heap| && ClosingStays(s.heap[i], FailOrRetry(s, k, m, now).heap[i])
  {
    hide RetryLater, Finish, SkipSet, AllTasksSettled;
  }

  lemma FailLostClosing(s: State, h: nat, k: nat, m: string, now: int, i: nat)
    requires HasTask(s, k, m) && i < |s.heap| && h < |s.heap| && h != k
    ensures i < |FailLost(s, h, k, m, now).heap| && ClosingStays(s.heap[i], FailLost(s, h, k, m, now).heap[i])
  {
    hide RetryLater, Finish, SkipSet, AllTasksSettled;
  }

  lemma DoneClosing(s: State, k: nat, m: string, now: int, i: nat)
    requires HasTask(s, k, m) && i < |s.heap|
    ensures i < |CompleteDone(s, k, m, now).heap| && ClosingStays(s.heap[i], CompleteDone(s, k, m, now).heap[i])
  {
    hide Finish, PromoteOne, AllTasksSettled;
  }

  lemma CompleteClosing(s: State, res: Result, routerOwner: string, now: int, i: nat)
    requires i < |s.heap|
    ensures i < |CompleteResult(s, res, routerOwner, now).heap|
    ensures ClosingStays(s.heap[i], CompleteResult(s, res, routerOwner, now).heap[i])
  {
    hide CompleteDone, FailOrRetry, SplitTaskID, Judge, Adopt;
    if JudgeResult(s, res, routerOwner) == Applied {
      var (runID, m) := SplitTaskID(res.taskID).value;
      var k := s.runs[runID];
      var t := SetEntry(s, k, m, Adopt(s.heap[k].tasks[m], res));
      if res.done { DoneClosing(t, k, m, now, i); } else { FailClosing(t, k, m, now, i); }
    }
  }

  lemma CallbackClosing(s: State, ev: Event, i: nat)
    requires Inv(s) && ev.TimerBody? && i < |s.heap|
    ensures i < |Step(s, ev).heap| && ClosingStays(s.heap[i], Step(s, ev).heap[i])
  {
    hide Inv, FailOrRetry, FailLost, Dispatch;
    if Overdue(s, ev, ev.run, ev.step) {
      var u, h := FiredState(s, ev), s.runs[s.heap[ev.run].runID];
      DeadlineIs(s, ev);
      FiredClosing(s, ev, i);
      hide Step, FiredState;
      if h == ev.run { FailClosing(u, ev.run, ev.step, ev.now, i); } else { FailLostClosing(u, h, ev.run, ev.step, ev.now, i); }
    } else if SendsAgain(s, ev, ev.run, ev.step) {
      SentAgainIs(s, ev);
      FiredClosing(s, ev, i);
      hide Step, FiredState;
    } else {
      IndexedOf(s);
      LateClosing(s, ev, i);
    }
  }

  lemma FiredClosing(s: State, ev: Event, i: nat)
    requires ev.TimerBody? && HasJob(s, ev.run, ev.step, ev.job) && i < |s.heap|
    ensures i < |FiredState(s, ev).heap| && FiredState(s, ev).heap[i].closing == s.heap[i].closing
  {
  }

  lemma LateClosing(s: State, ev: Event, i: nat)
    requires Indexed(s) && ev.TimerBody? && i < |s.heap|
    requires !Overdue(s, ev, ev.run, ev.step) && !SendsAgain(s, ev, ev.run, ev.step)
    ensures i < |Step(s, ev).heap| && Step(s, ev).heap[i].closing == s.heap[i].closing
  {
    hide FailOrRetry, FailLost, Dispatch;
  }

  lemma AnswerClosing(s: State, ev: Event, i: nat)
    requires Inv(s) && ev.DispatchReturns? && i < |s.heap|
    ensures i < |Step(s, ev).heap| && ClosingStays(s.heap[i], Step(s, ev).heap[i])
  {
    hide Inv, CompleteResult, BusyRequeue, AnyFailed, MakeTaskID;
    if Refuses(s, ev) {
      var t := MoveJob(s, ev.run, ev.step, ev.job, Flushing);
      RefusalIs(s, ev);
      assert t.heap[i].closing == s.heap[i].closing;
      hide Step, MoveJob;
      CompleteClosing(t, Refusal(s, ev), ev.routerOwner, ev.now, i);
    } else if !IsBusy(ev) {
      AnswerMoves(s, ev);
    }
  }

  lemma {:induction false} RenewClosing(s: State, runtimeID: string, taskIDs: seq<string>, now: int, i: nat)
    requires i < |s.heap|
    ensures var t := RenewAll(s, runtimeID, taskIDs, now); i < |t.heap| && t.heap[i].closing == s.heap[i].closing
    decreases |taskIDs|
  {
    hide RenewEntry;
    if taskIDs != [] { RenewClosing(s, runtimeID, taskIDs[..|taskIDs| - 1], now, i); }
  }

  lemma EachClosing(s: State, ev: Event, i: nat)
    requires Inv(s) && Enabled(ev) && i < |s.heap| && !ev.Cancel? && !ev.Cleanup?
    ensures i < |Step(s, ev).heap| && ClosingStays(s.heap[i], Step(s, ev).heap[i])
  {
    hide Inv, CompleteResult, RenewAll, AnyFailed, Callback, DispatchDone, Displace;
    match ev
    case Add(_, _, _, _) => EnteredOne(s, ev); DisplaceClosing(s, EnteringID(ev), i);
    case Recover(_, _, _, _, _) => EnteredOne(s, ev); DisplaceClosing(s, EnteringID(ev), i);
    case Complete(res, routerOwner, now) => CompleteClosing(s, res, routerOwner, now, i);
    case RenewLeases(runtimeID, taskIDs, now) => RenewClosing(s, runtimeID, taskIDs, now, i);
    case TimerBody(_, _, _, _) => CallbackClosing(s, ev, i);
    case DispatchReturns(_, _, _, _, _, _) => AnswerClosing(s, ev, i);
    case _ =>
  }

  lemma DisplaceClosing(s: State, runID: string, i: nat)
    requires i < |s.heap|
    ensures i < |Displace(s, runID).heap| && ClosingStays(s.heap[i], Displace(s, runID).heap[i])
  {
  }

  lemma CancelClosing(s: State, ev: Event, i: nat)
    requires Inv(s) && ev.Cancel? && i < |s.heap|
    ensures i < |Step(s, ev).heap|
    ensures Step(s, ev).heap[i].closing == if CancelsRun(s, ev, i) then CanceledRun else s.heap[i].closing
    ensures CancelsRun(s, ev, i) ==> ev.runID !in Step(s, ev).runs
  {
    hide CancelTasks;
  }

  lemma CleanupClosing(s: State, ev: Event, i: nat)
    requires ev.Cleanup? && i < |s.heap|
    ensures i < |Step(s, ev).heap|
    ensures Step(s, ev).heap[i].closing == if Stale(s, ev.cutoff, i) then Expired else s.heap[i].closing
  {
    hide ExpireTasks;
    StaleExpires(s, ev.cutoff, i);
  }

  predicate AllEnded(r: RunEntry) {
    r.tasks != map[] && forall n :: n in r.tasks ==> r.tasks[n].status.Done? || r.tasks[n].status.Failed? || r.tasks[n].status.Skipped?
  }

  lemma OverwrittenSame(s: State, ev: Event, i: nat)
    requires Inv(s) && Enabled(ev) && Tracked(s, i) && i < |Step(s, ev).heap| && Step(s, ev).heap[i].closing.Overwritten?
    ensures AllEnded(Step(s, ev).heap[i]) ==> AllEnded(s.heap[i])
  {
    hide Inv, Step, Enabled, EntryRel, SkipsBlamed;
    TrackedGood(s, i);
    StepKeepsHistory(s, ev);
    assert RunRel(s.heap[i], Step(s, ev).heap[i], ModeOf(s, ev).(moves := true));
    assert Enters(ev);
    forall n | n in s.heap[i].tasks ensures Step(s, ev).heap[i].tasks[n] == s.heap[i].tasks[n] { EnterAt(s, ev, i, n); }
  }

  lemma CanceledNotEnded(s: State, ev: Event, i: nat)
    requires Inv(s) && Tracked(s, i) && CancelsRun(s, ev, i) && !AllEnded(s.heap[i])
    ensures i < |Step(s, ev).heap| && !AllEnded(Step(s, ev).heap[i])
  {
    hide Inv, CancelEntry, Finish;
    IndexedBy(s, ev.runID);
    var r, t := s.heap[i], Step(s, ev).heap[i];
    assert t.tasks.Keys == r.tasks.Keys;
    if r.tasks != map[] {
      var n :| n in r.tasks && !(r.tasks[n].status.Done? || r.tasks[n].status.Failed? || r.tasks[n].status.Skipped?);
      CancelAt(s, ev.runID, i, n);
      if !Terminal(r.tasks[n].status) { EndedAs(r.tasks[n], Canceled); }
      assert t.tasks[n].status.Canceled?;
    }
  }

  /** The last deadline of an overwritten run's step ends while its run ID leads to run `i`. */
  predicate StrayFor(s: State, ev: Event, i: nat) {
    && ev.TimerBody? && Overdue(s, ev, ev.run, ev.step) && AttemptsSpent(s, ev.run, ev.step)
    && ev.run != i && s.runs[s.heap[ev.run].runID] == i
  }

  /** A tracked run without steps is touched by nothing but Cancel, a run that takes its ID, and a stray deadline. */
  lemma EmptyRun(s: State, ev: Event, i: nat)
    requires Inv(s) && Enabled(ev) && Tracked(s, i) && s.heap[i].tasks == map[] && !ev.Cancel? && !ev.Cleanup? && !Enters(ev)
    ensures i < |Step(s, ev).heap|
    ensures Step(s, ev).heap[i].closing.Completed? <==> StrayFor(s, ev, i)
  {
    TrackedGood(s, i);
    hide Inv, Step, CompleteResult;
    match ev
    case Complete(res, routerOwner, now) => CompleteIs(s, ev); EmptyReport(s, res, routerOwner, now, i);
    case TimerBody(_, _, _, _) => EmptyDeadline(s, ev, i);
    case DispatchReturns(_, _, _, _, routerOwner, now) =>
      if Refuses(s, ev) {
        RefusalIs(s, ev);
        EmptyMoved(s, ev.run, ev.step, ev.job, i);
        EmptyReport(MoveJob(s, ev.run, ev.step, ev.job, Flushing), Refusal(s, ev), routerOwner, now, i);
      } else {
        EmptyAnswer(s, ev, i);
      }
    case _ => EachClosing(s, ev, i); QuietClosing(s, ev, i);
  }

  lemma EmptyMoved(s: State, k: nat, m: string, j: nat, i: nat)
    requires HasJob(s, k, m, j) && i < |s.heap| && s.heap[i].tasks == map[]
    ensures var t := MoveJob(s, k, m, j, Flushing); i < |t.heap| && t.heap[i] == s.heap[i]
  {
  }

  lemma QuietClosing(s: State, ev: Event, i: nat)
    requires i < |s.heap|
    requires ev.RenewLeases? || ev.SetRetryPolicy? || ev.Shutdown? || ev.TimerFires? || ev.DispatchCheck? || ev.JobEnds?
    ensures i < |Step(s, ev).heap| && Step(s, ev).heap[i].closing == s.heap[i].closing
  {
    hide RenewAll;
    if ev.RenewLeases? { RenewClosing(s, ev.runtimeID, ev.taskIDs, ev.now, i); }
  }

  lemma EmptyAnswer(s: State, ev: Event, i: nat)
    requires ev.DispatchReturns? && !Refuses(s, ev) && i < |s.heap|
    ensures i < |Step(s, ev).heap| && Step(s, ev).heap[i].closing == s.heap[i].closing
  {
    hide CompleteResult, BusyRequeue, MakeTaskID;
  }

  lemma EmptyReport(s: State, res: Result, routerOwner: string, now: int, i: nat)
    requires i < |s.heap| && s.heap[i].tasks == map[]
    ensures i < |CompleteResult(s, res, routerOwner, now).heap|
    ensures CompleteResult(s, res, routerOwner, now).heap[i] == s.heap[i]
  {
    hide SplitTaskID, Judge, Adopt, RetryLater, Finish, SkipDownstream, PromoteReady, AllTasksSettled, AnyFailed;
  }

  lemma EmptyDeadline(s: State, ev: Event, i: nat)
    requires Inv(s) && Tracked(s, i) && s.heap[i].tasks == map[] && ev.TimerBody? && s.heap[i].closing.Open?
    ensures i < |Step(s, ev).heap|
    ensures Step(s, ev).heap[i].closing.Completed? <==> StrayFor(s, ev, i)
  {
    hide Inv, Step, FailOrRetry, FailLost, FiredState;
    var k, m := ev.run, ev.step;
    if Overdue(s, ev, k, m) {
      DeadlineIs(s, ev);
      FiredAt(s, ev, k, m);
      EmptyFired(s, ev, i);
      EmptyFailed(FiredState(s, ev), s.runs[s.heap[k].runID], k, m, ev.now, i);
    } else if SendsAgain(s, ev, k, m) {
      SentAgainIs(s, ev);
      FiredClosing(s, ev, i);
    } else {
      IndexedOf(s);
      LateClosing(s, ev, i);
    }
  }

  lemma EmptyFired(s: State, ev: Event, i: nat)
    requires ev.TimerBody? && HasJob(s, ev.run, ev.step, ev.job) && i < |s.heap| && s.heap[i].tasks == map[]
    ensures i < |FiredState(s, ev).heap| && FiredState(s, ev).heap[i] == s.heap[i]
  {
  }

  lemma EmptyFailed(s: State, h: nat, k: nat, m: string, now: int, i: nat)
    requires HasTask(s, k, m) && h < |s.heap| && i < |s.heap| && s.heap[i].tasks == map[] && s.heap[i].closing.Open?
    ensures var t := if h == k then FailOrRetry(s, k, m, now) else FailLost(s, h, k, m, now);
      && i < |t.heap|
      && (t.heap[i].closing.Completed? <==> h == i && h != k && s.heap[k].tasks[m].attempts >= s.heap[k].tasks[m].maxAttempts)
  {
    hide RetryLater, Finish, AnyFailed, SkipReaches;
    assert h == i ==> StraySkip(s.heap[i], m).tasks == map[];
    hide SkipSet;
  }

  /**
   How a tracked run is closed: as canceled exactly by Cancel, as expired exactly by a Cleanup that finds an old lease in it, and
   as completed exactly by the event after which the last of its steps is done, failed or skipped; as a success then if none failed.
   (A run that tracks no step at all completes only when a stray deadline is charged to it.)
   */
  lemma RunClosesIff(s: State, ev: Event, i: nat)
    requires Reachable(s) && Enabled(ev) && Tracked(s, i)
    ensures i < |Step(s, ev).heap|
    ensures var t := Step(s, ev).heap[i];
      var stale := ev.Cleanup? && Stale(s, ev.cutoff, i);
      && (t.closing.CanceledRun? <==> ev.Cancel? && s.heap[i].runID == ev.runID)
      && (t.closing.Expired? <==> stale)
      && (t.closing.Completed? <==> (AllEnded(t) && !stale) || (t.tasks == map[] && StrayFor(s, ev, i)))
      && (t.closing.Completed? ==> (t.closing.success <==> forall n :: n in t.tasks ==> !t.tasks[n].status.Failed?))
      && (t.closing.Open? <==> Tracked(Step(s, ev), i))
  {
    hide Reachable, Inv, Step, Enabled, StrayFor, Stale, EntryRel, SkipsBlamed;
    ReachableInv(s);
    TrackedGood(s, i);
    StepKeepsInv(s, ev);
    OpenRun(s, i);
    StepKeepsHistory(s, ev);
    assert RunRel(s.heap[i], Step(s, ev).heap[i], ModeOf(s, ev).(moves := true));
    assert ev.Cancel? || ev.Cleanup? || Enters(ev) ==> !StrayFor(s, ev, i) by { StrayIsTimer(s, ev, i); }
    if ev.Cancel? { CancelClosing(s, ev, i); } else if ev.Cleanup? { CleanupClosing(s, ev, i); } else { EachClosing(s, ev, i); }
    ClosedOrNot(Step(s, ev), i);
    if s.heap[i].tasks == map[] && !ev.Cancel? && !ev.Cleanup? && !Enters(ev) { EmptyRun(s, ev, i); }
    if Enters(ev) { EnteredKeeps(s, ev, i); }
    if Step(s, ev).heap[i].closing.Overwritten? { OverwrittenSame(s, ev, i); }
    if CancelsRun(s, ev, i) { CanceledNotEnded(s, ev, i); }
  }

  lemma StrayIsTimer(s: State, ev: Event, i: nat)
    ensures StrayFor(s, ev, i) ==> ev.TimerBody?
  {
  }

  /** A run that enters does not complete another one. */
  lemma EnteredKeeps(s: State, ev: Event, i: nat)
    requires Enters(ev) && i < |s.heap|
    ensures i < |Step(s, ev).heap| && (Step(s, ev).heap[i].closing == s.heap[i].closing || Step(s, ev).heap[i].closing.Overwritten?)
  {
    EnteredOne(s, ev);
    hide Step;
  }

  lemma ClosedOrNot(t: State, i: nat)
    requires Inv(t) && i < |t.heap|
    ensures var r := t.heap[i];
      && (r.closing.Open? ==> !AllEnded(r)) && (r.closing.Open? <==> Tracked(t, i))
      && (r.closing.Completed? ==> (r.closing.success <==> forall n :: n in r.tasks ==> !r.tasks[n].status.Failed?))
      && (r.closing.Completed? && r.tasks != map[] ==> AllEnded(r))
  {
    hide RunInv, EntriesOk, StartedOk;
    assert GoodRun(t.heap[i], t.cfg.backend, t.alive);
  }

  lemma OpenRun(s: State, i: nat)
    requires Inv(s) && Tracked(s, i)
    ensures s.heap[i].closing.Open? && !AllEnded(s.heap[i])
  {
    TrackedGood(s, i);
    ClosedOrNot(s, i);
  }
}
