/**
 Timers and goroutines, event by event: which ones an event creates, which it moves on and which it stops, and
 which timer the entry's handle names afterwards.
 */
module QueueTimers {
  import opened Options
  import opened Tasks
  import opened Graph
  import opened Runs
  import opened TaskIDs
  import opened QueueSpec
  import opened QueueInv
  import opened QueueSteps
  import opened QueueHistory
  import opened QueueRestarts
  import opened QueueEnds
  import opened QueueLeases

  /*** What an event does to the jobs of a step ***/

  /** Where the event takes job `j`, if it is an event of this very job. */
  function MovesTo(s: State, ev: Event, i: nat, n: string, j: nat): Phase
    requires HasJob(s, i, n, j)
  {
    var e, job := s.heap[i].tasks[n], s.heap[i].tasks[n].jobs[j];
    var call := job.kind.DispatchCall?;
    match ev
    case TimerFires(k, m, h) => if k == i && m == n && h == j && !call && job.phase.Waiting? then Active else job.phase
    case TimerBody(k, m, h, _) => if k == i && m == n && h == j && !call && job.phase.Active? then Flushing else job.phase
    case DispatchCheck(k, m, h) =>
      if k == i && m == n && h == j && call && job.phase.Waiting? then (if e.status.Canceled? then Flushing else Active) else job.phase
    case DispatchReturns(k, m, h, _, _, _) => if k == i && m == n && h == j && call && job.phase.Active? then Flushing else job.phase
    case JobEnds(k, m, h) => if k == i && m == n && h == j && job.phase.Flushing? then Finished else job.phase
    case _ => job.phase
  }

  /** The event stops the timer the entry's handle names, if it has not fired. */
  ghost predicate Stops(s: State, ev: Event, i: nat, n: string)
    requires HasTask(s, i, n)
  {
    var e := s.heap[i].tasks[n];
    || Reports(s, ev, true, i, n) || Reports(s, ev, false, i, n) || BusyFor(s, ev, i, n)
    || (!Terminal(e.status) && (CancelsRun(s, ev, i) || (ev.Cleanup? && Stale(s, ev.cutoff, i))))
    || (Renews(s, ev, i, n) && e.status.Recovering?)
  }

  /** The jobs the event creates for the step: a deadline and a call for a start, or the timer of a delayed retry or of a requeue. */
  ghost function NewJobs(s: State, ev: Event, i: nat, n: string): seq<Job>
    requires HasTask(s, i, n)
  {
    var e := s.heap[i].tasks[n];
    if Dispatches(s, ev, i, n) then CallJobs(e)
    else if Strikes(s, ev, i, n) && e.attempts < e.maxAttempts && s.cfg.retryDelay > 0 then [Job(Retry, e.attempts, Waiting)]
    else if BusyFor(s, ev, i, n) then [Job(Requeue, if e.attempts < 1 then 0 else e.attempts - 1, Waiting)]
    else []
  }

  function CallJobs(e: Entry): seq<Job> {
    (if e.timeout > 0 then [Job(Timeout, e.attempts + 1, Waiting)] else []) + [Job(DispatchCall, e.attempts + 1, Waiting)]
  }

  /** A callback that acts on its entry has dropped the handle first; a requeue callback drops it in any case. */
  predicate Drops(s: State, ev: Event, i: nat, n: string) {
    && ev.TimerBody? && ev.run == i && ev.step == n && JobIn(s, i, n, ev.job, Active)
    && (s.heap[i].tasks[n].jobs[ev.job].kind.Requeue? || Overdue(s, ev, i, n) || SendsAgain(s, ev, i, n))
  }

  ghost function HandleAfter(s: State, ev: Event, i: nat, n: string): Option<nat>
    requires HasTask(s, i, n)
  {
    var e, jobs := s.heap[i].tasks[n], NewJobs(s, ev, i, n);
    if jobs != [] && !jobs[0].kind.DispatchCall? then Some(|e.jobs|)
    else if Stops(s, ev, i, n) || Drops(s, ev, i, n) then None
    else e.timer
  }

  /** From `c` to `f`: the handle's timer is stopped or not, and `jobs` are new. */
  predicate JobsAfter(c: Entry, f: Entry, stops: bool, jobs: seq<Job>) {
    && |f.jobs| == |c.jobs| + |jobs| && f.jobs[|c.jobs|..] == jobs
    && forall j: nat :: j < |c.jobs| ==>
         f.jobs[j] == if stops && c.timer == Some(j) && c.jobs[j].phase.Waiting? then c.jobs[j].(phase := Stopped) else c.jobs[j]
  }

  /*** Entries ***/

  lemma DispatchJobs(e: Entry, backend: bool, now: int)
    requires e.timer.None? && e.status.Ready?
    ensures var f := Dispatch(e, backend, now);
      && JobsAfter(e, f, false, if backend then CallJobs(e) else [])
      && f.timer == if backend && e.timeout > 0 then Some(|e.jobs|) else None
  {
    if backend {
      var f := Dispatch(e, backend, now);
      assert f.jobs == e.jobs + CallJobs(e);
    }
  }

  lemma PromoteJobs(e: Entry, done: set<string>, backend: bool, now: int)
    requires e.status.Pending? ==> e.timer.None?
    ensures var f, go := PromoteOne(e, done, backend, now), backend && e.status.Pending? && DepsAllDone(e.dependsOn, done);
      && JobsAfter(e, f, false, if go then CallJobs(e) else [])
      && f.timer == if go && e.timeout > 0 then Some(|e.jobs|) else e.timer
  {
    hide Dispatch;
    if e.status.Pending? && DepsAllDone(e.dependsOn, done) { DispatchJobs(Transition(e, Ready), backend, now); }
  }

  lemma StopJobs(e: Entry)
    requires HandleOk(e)
    ensures JobsAfter(e, StopTimer(e), true, []) && StopTimer(e).timer.None?
  {
  }

  lemma EndJobs(e: Entry, to: Status)
    requires HandleOk(e)
    ensures JobsAfter(e, Finish(e, to), true, []) && Finish(e, to).timer.None?
    ensures JobsAfter(e, CancelEntry(e), true, []) && CancelEntry(e).timer.None?
    ensures JobsAfter(e, Transition(e, to), false, []) && Transition(e, to).timer == e.timer
  {
    hide StopTimer;
    StopJobs(e);
  }

  lemma RetryJobs(e: Entry, retryDelay: int, backend: bool, now: int)
    requires HandleOk(e) && !Terminal(e.status)
    ensures var f := RetryLater(e, retryDelay, backend, now);
      && JobsAfter(e, f, true, if retryDelay > 0 then [Job(Retry, e.attempts, Waiting)] else if backend then CallJobs(e) else [])
      && f.timer == if retryDelay > 0 || (backend && e.timeout > 0) then Some(|e.jobs|) else None
  {
    hide StopTimer, Dispatch;
    StopJobs(e);
    StopTimerFrame(e);
    var r := ToRetrying(e);
    var c := Transition(r, Ready).(timer := None);
    var f := RetryLater(e, retryDelay, backend, now);
    if retryDelay > 0 {
      assert StopTimer(r) == r by { StopNothing(r); }
      assert f.jobs == r.jobs + [Job(Retry, e.attempts, Waiting)];
    } else {
      DispatchJobs(c, backend, now);
      assert CallJobs(c) == CallJobs(e);
    }
  }

  lemma StopNothing(e: Entry)
    requires e.timer.None?
    ensures StopTimer(e) == e
  {
  }

  lemma BusyJobs(e: Entry, foreign: bool)
    requires HandleOk(e) && e.status.Running?
    ensures var f := BusyRequeue(e, foreign);
      && JobsAfter(e, f, true, [Job(Requeue, if e.attempts < 1 then 0 else e.attempts - 1, Waiting)]) && f.timer == Some(|e.jobs|)
  {
    hide StopTimer;
    var back := if e.attempts - 1 < 0 then 0 else e.attempts - 1;
    var c := Transition(e.(attempts := back), Ready)
          .(assignedRuntimeID := "", leaseAt := None, requeues := e.requeues + 1,
            foreign := e.foreign + (if foreign then 1 else 0));
    StopJobs(c);
    StopTimerFrame(c);
    var f := BusyRequeue(e, foreign);
    assert f.jobs == StopTimer(c).jobs + [Job(Requeue, back, Waiting)];
  }

  /*** Events ***/

  /** The entry after the event, seen from the entry once the event's own job has moved on. */
  ghost predicate TimersAs(s: State, ev: Event, t: State, i: nat, n: string)
    requires HasTask(s, i, n)
  {
    && HasTask(t, i, n) && HasTask(Moved(s, ev), i, n)
    && var c, f := Moved(s, ev).heap[i].tasks[n], t.heap[i].tasks[n];
       JobsAfter(c, f, Stops(s, ev, i, n), NewJobs(s, ev, i, n)) && f.timer == HandleAfter(s, ev, i, n)
  }

  lemma MovePhase(s: State, k: nat, m: string, h: nat, p: Phase, i: nat, n: string)
    requires HasJob(s, k, m, h) && HasTask(s, i, n)
    ensures HasTask(MoveJob(s, k, m, h, p), i, n)
    ensures var e, c := s.heap[i].tasks[n], MoveJob(s, k, m, h, p).heap[i].tasks[n];
      && c == e.(jobs := c.jobs) && |c.jobs| == |e.jobs|
      && forall j: nat :: j < |e.jobs| ==> c.jobs[j] == if k == i && m == n && h == j then e.jobs[j].(phase := p) else e.jobs[j]
  {
  }

  predicate PhasesMoved(s: State, ev: Event, i: nat, n: string)
    requires HasTask(s, i, n)
  {
    && HasTask(Moved(s, ev), i, n)
    && var e, c := s.heap[i].tasks[n], Moved(s, ev).heap[i].tasks[n];
    && c == e.(jobs := c.jobs) && |c.jobs| == |e.jobs|
    && forall j: nat :: j < |e.jobs| ==> c.jobs[j] == e.jobs[j].(phase := MovesTo(s, ev, i, n, j))
  }

  lemma TimerMoves(s: State, ev: Event, i: nat, n: string)
    requires HasTask(s, i, n) && (ev.TimerFires? || ev.TimerBody?)
    ensures PhasesMoved(s, ev, i, n)
  {
    hide MoveJob;
    var k, m, h := ev.run, ev.step, ev.job;
    if HasJob(s, k, m, h) { MovePhase(s, k, m, h, if ev.TimerFires? then Active else Flushing, i, n); }
  }

  lemma CallMoves(s: State, ev: Event, i: nat, n: string)
    requires HasTask(s, i, n) && (ev.DispatchCheck? || ev.DispatchReturns?)
    ensures PhasesMoved(s, ev, i, n)
  {
    hide MoveJob;
    var k, m, h := ev.run, ev.step, ev.job;
    if HasJob(s, k, m, h) {
      MovePhase(s, k, m, h, if ev.DispatchCheck? && !s.heap[k].tasks[m].status.Canceled? then Active else Flushing, i, n);
    }
  }

  lemma MovedPhases(s: State, ev: Event, i: nat, n: string)
    requires HasTask(s, i, n)
    ensures PhasesMoved(s, ev, i, n)
  {
    hide MoveJob;
    if ev.TimerFires? || ev.TimerBody? {
      TimerMoves(s, ev, i, n);
    } else if ev.DispatchCheck? || ev.DispatchReturns? {
      CallMoves(s, ev, i, n);
    } else if ev.JobEnds? && HasJob(s, ev.run, ev.step, ev.job) {
      MovePhase(s, ev.run, ev.step, ev.job, Finished, i, n);
    }
  }

  lemma MovedShape(s: State, ev: Event, i: nat, n: string)
    requires HasTask(s, i, n)
    ensures HasTask(Moved(s, ev), i, n)
    ensures var e, c := s.heap[i].tasks[n], Moved(s, ev).heap[i].tasks[n]; c == e.(jobs := c.jobs) && |c.jobs| == |e.jobs|
  {
    hide Moved;
    MovedPhases(s, ev, i, n);
  }

  lemma SameJobs(c: Entry, d: Entry, f: Entry, jobs: seq<Job>)
    requires d.jobs == c.jobs && JobsAfter(d, f, false, jobs)
    ensures JobsAfter(c, f, false, jobs)
  {
  }

  lemma Unchanged(c: Entry)
    ensures JobsAfter(c, c, false, []) && JobsAfter(c, c.(timer := None), false, [])
  {
  }

  /** A report that is applied reaches one step. */
  lemma ReportHits(s: State, res: Result, routerOwner: string, now: int, k: nat, m: string, i: nat)
    requires Names(s, res.taskID, k, m) && Counts(s.heap[k].tasks[m], res.runtimeID, res.attempt, routerOwner)
    ensures HasTask(s, k, m) && InProgress(s.heap[k].tasks[m].status)
    ensures forall d, l :: Reports(s, Complete(res, routerOwner, now), d, i, l) <==> d == res.done && i == k && l == m
  {
    hide SplitTaskID;
  }

  lemma ReportTimers(s: State, res: Result, routerOwner: string, now: int, i: nat, n: string)
    requires Inv(s) && res.attempt >= 0 && HasTask(s, i, n)
    ensures TimersAs(s, Complete(res, routerOwner, now), CompleteResult(s, res, routerOwner, now), i, n)
  {
    var ev := Complete(res, routerOwner, now);
    hide Inv, CompleteResult, CompleteDone, FailOrRetry, JudgeResult, SplitTaskID, Cleared, Counts;
    ResultAt(s, res, routerOwner, now);
    if JudgeResult(s, res, routerOwner) == Applied {
      var (runID, m) := SplitTaskID(res.taskID).value;
      var k := s.runs[runID];
      ReportHits(s, res, routerOwner, now, k, m, i);
      hide Names, Reports;
      if res.done { DoneReportTimers(s, ev, k, m, i, n); } else { FailReportTimers(s, ev, k, m, i, n); }
    }
  }

  lemma DoneReportTimers(s: State, ev: Event, k: nat, m: string, i: nat, n: string)
    requires Inv(s) && ev.Complete? && HasTask(s, i, n) && HasTask(s, k, m) && InProgress(s.heap[k].tasks[m].status)
    requires forall d, l :: Reports(s, ev, d, i, l) <==> d && i == k && l == m
    ensures TimersAs(s, ev, CompleteDone(s, k, m, ev.now), i, n)
  {
    hide Inv, CompleteDone, Reports;
    DoneTimers(s, k, m, ev.now, i, n);
    assert i == k && n == m ==> !Cleared(s.heap[i], n, m);
    hide Cleared;
  }

  lemma FailReportTimers(s: State, ev: Event, k: nat, m: string, i: nat, n: string)
    requires Inv(s) && ev.Complete? && HasTask(s, i, n) && HasTask(s, k, m) && InProgress(s.heap[k].tasks[m].status)
    requires forall d, l :: Reports(s, ev, d, i, l) <==> !d && i == k && l == m
    ensures TimersAs(s, ev, FailOrRetry(s, k, m, ev.now), i, n)
  {
    hide Inv, FailOrRetry, Reports, Cleared, HandleOk, Accounted;
    BooksOf(s, i, n);
    FailTimers(s, k, m, ev.now, i, n);
  }

  /** The entries after a failure was dealt with. */
  lemma FailTimers(s: State, k: nat, m: string, now: int, i: nat, n: string)
    requires HasTask(s, k, m) && HasTask(s, i, n) && HandleOk(s.heap[i].tasks[n]) && InProgress(s.heap[k].tasks[m].status)
    ensures var e, t := s.heap[i].tasks[n], FailOrRetry(s, k, m, now);
      var hit, again := i == k && n == m, e.attempts < e.maxAttempts;
      && HasTask(t, i, n)
      && JobsAfter(e, t.heap[i].tasks[n], hit,
                   if !hit || !again then [] else if s.cfg.retryDelay > 0 then [Job(Retry, e.attempts, Waiting)]
                   else if s.cfg.backend then CallJobs(e) else [])
      && t.heap[i].tasks[n].timer ==
           if !hit then e.timer
           else if again && (s.cfg.retryDelay > 0 || (s.cfg.backend && e.timeout > 0)) then Some(|e.jobs|) else None
  {
    hide FailOrRetry, RetryLater, Finish, CancelEntry, HandleOk;
    FailAt(s, k, m, now, i, n);
    FailedJobs(s.heap[i].tasks[n], s.cfg, now);
  }

  lemma FailedJobs(e: Entry, cfg: Config, now: int)
    requires HandleOk(e)
    ensures !Terminal(e.status) ==> var f := RetryLater(e, cfg.retryDelay, cfg.backend, now);
      && JobsAfter(e, f, true, if cfg.retryDelay > 0 then [Job(Retry, e.attempts, Waiting)] else if cfg.backend then CallJobs(e) else [])
      && f.timer == if cfg.retryDelay > 0 || (cfg.backend && e.timeout > 0) then Some(|e.jobs|) else None
    ensures JobsAfter(e, Finish(e, Failed), true, []) && Finish(e, Failed).timer.None?
    ensures !Terminal(e.status) ==> Finish(e, Failed).status.Failed?
    ensures JobsAfter(e, Transition(e, Skipped), false, []) && Transition(e, Skipped).timer == e.timer && JobsAfter(e, e, false, [])
  {
    hide RetryLater, Finish, HandleOk, CancelEntry;
    if !Terminal(e.status) {
      RetryJobs(e, cfg.retryDelay, cfg.backend, now);
      EndedAs(e, Failed);
    }
    EndJobs(e, Failed);
    EndJobs(e, Skipped);
  }

  lemma LostTimers(s: State, h: nat, k: nat, m: string, now: int, i: nat, n: string)
    requires HasTask(s, k, m) && HasTask(s, i, n) && HandleOk(s.heap[i].tasks[n]) && h < |s.heap| && h != k && InProgress(s.heap[k].tasks[m].status)
    ensures var e, t := s.heap[i].tasks[n], FailLost(s, h, k, m, now);
      var hit, again := i == k && n == m, e.attempts < e.maxAttempts;
      && HasTask(t, i, n)
      && JobsAfter(e, t.heap[i].tasks[n], hit,
                   if !hit || !again then [] else if s.cfg.retryDelay > 0 then [Job(Retry, e.attempts, Waiting)]
                   else if s.cfg.backend then CallJobs(e) else [])
      && t.heap[i].tasks[n].timer ==
           if !hit then e.timer
           else if again && (s.cfg.retryDelay > 0 || (s.cfg.backend && e.timeout > 0)) then Some(|e.jobs|) else None
  {
    hide FailLost, RetryLater, Finish, CancelEntry, HandleOk;
    FailLostAt(s, h, k, m, now, i, n);
    FailedJobs(s.heap[i].tasks[n], s.cfg, now);
  }

  lemma DoneTimers(s: State, k: nat, m: string, now: int, i: nat, n: string)
    requires Inv(s) && HasTask(s, k, m) && HasTask(s, i, n) && InProgress(s.heap[k].tasks[m].status)
    ensures var e, t := s.heap[i].tasks[n], CompleteDone(s, k, m, now);
      var hit, freed := i == k && n == m, s.cfg.backend && i == k && Cleared(s.heap[i], n, m);
      && HasTask(t, i, n)
      && JobsAfter(e, t.heap[i].tasks[n], hit, if freed then CallJobs(e) else [])
      && t.heap[i].tasks[n].timer == if hit then None else if freed && e.timeout > 0 then Some(|e.jobs|) else e.timer
  {
    hide Inv, CompleteDone, PromoteOne, Finish, CancelEntry, StopTimer, JobsAfter, CallJobs;
    BooksOf(s, i, n);
    hide HandleOk, CallsOk, LeaseOk;
    DoneAt(s, k, m, now, i, n);
    EndedAs(s.heap[k].tasks[m], Done);
    EndJobs(s.heap[i].tasks[n], Done);
    Unchanged(s.heap[i].tasks[n]);
    var tasks := s.heap[k].tasks[m := Finish(s.heap[k].tasks[m], Done)];
    if i == k {
      var done := DoneNames(tasks);
      ClearedIs(s, k, m, n);
      if n == m { DoneStays(tasks[n], done, s.cfg.backend, now); } else { PromoteJobs(tasks[n], done, s.cfg.backend, now); }
    }
  }

  lemma DoneStays(e: Entry, done: set<string>, backend: bool, now: int)
    requires !e.status.Pending?
    ensures PromoteOne(e, done, backend, now) == e
  {
  }

  /** A pending step is let in exactly when what it depends on is done or skipped once `m` is done. */
  lemma ClearedIs(s: State, k: nat, m: string, n: string)
    requires HasTask(s, k, m) && HasTask(s, k, n) && InProgress(s.heap[k].tasks[m].status)
    ensures var tasks := s.heap[k].tasks[m := Finish(s.heap[k].tasks[m], Done)];
      Cleared(s.heap[k], n, m) <==> n != m && tasks[n].status.Pending? && DepsAllDone(tasks[n].dependsOn, DoneNames(tasks))
  {
    hide Finish;
    EndedAs(s.heap[k].tasks[m], Done);
    var tasks := s.heap[k].tasks[m := Finish(s.heap[k].tasks[m], Done)];
    assert DepsAllDone(tasks[n].dependsOn, DoneNames(tasks)) <==>
      forall d :: d in tasks[n].dependsOn ==> d in s.heap[k].tasks && (d == m || s.heap[k].tasks[d].status.Done? || s.heap[k].tasks[d].status.Skipped?);
  }

  lemma RefusalTimers(s: State, ev: Event, i: nat, n: string)
    requires Inv(s) && HasTask(s, i, n) && Refuses(s, ev)
    ensures TimersAs(s, ev, Step(s, ev), i, n)
  {
    hide Inv, MoveJob, CompleteResult, Names, Cleared, SplitTaskID, MakeTaskID, Step, Counts;
    var t, res := MoveJob(s, ev.run, ev.step, ev.job, Flushing), Refusal(s, ev);
    RefusalIs(s, ev);
    MoveJobAt(s, ev.run, ev.step, ev.job, Flushing, i, n);
    MovedJobs(s, ev.run, ev.step, ev.job, i, n);
    MovedNames(s, ev.run, ev.step, ev.job, res.taskID, i, n);
    ReportTimers(t, res, ev.routerOwner, ev.now, i, n);
    SameCounts(s.heap[i].tasks[n], t.heap[i].tasks[n], res, ev.routerOwner);
    RefusedSame(s, ev, t, Complete(res, ev.routerOwner, ev.now), i, n);
  }

  /** A refusal is to the step what the report it stands for is. */
  lemma RefusedSame(s: State, ev: Event, t: State, rep: Event, i: nat, n: string)
    requires ev.DispatchReturns? && ev.reply.Refused? && rep.Complete? && HasTask(s, i, n) && HasTask(t, i, n) && t.cfg == s.cfg
    requires t.heap[i].tasks[n] == s.heap[i].tasks[n].(jobs := t.heap[i].tasks[n].jobs) && |t.heap[i].tasks[n].jobs| == |s.heap[i].tasks[n].jobs|
    requires !rep.result.done && Reports(t, rep, false, i, n) == Reports(s, ev, false, i, n)
    ensures Stops(t, rep, i, n) == Stops(s, ev, i, n) && NewJobs(t, rep, i, n) == NewJobs(s, ev, i, n)
    ensures HandleAfter(t, rep, i, n) == HandleAfter(s, ev, i, n)
  {
    assert !Reports(t, rep, true, i, n) && !Reports(s, ev, true, i, n);
    assert forall m :: !Reports(t, rep, true, i, m) && !Reports(s, ev, true, i, m);
    hide Reports, Cleared;
  }

  /** Without a handle nothing is stopped. */
  lemma NothingStopped(c: Entry, d: Entry, f: Entry, jobs: seq<Job>)
    requires d == c.(timer := None) && JobsAfter(d, f, true, jobs)
    ensures JobsAfter(c, f, false, jobs)
  {
  }

  lemma FiredMoved(s: State, ev: Event, i: nat, n: string)
    requires ev.TimerBody? && JobIn(s, ev.run, ev.step, ev.job, Active) && !IsDispatch(s, ev.run, ev.step, ev.job) && HasTask(s, i, n)
    ensures HasTask(FiredState(s, ev), i, n) && HasTask(Moved(s, ev), i, n)
    ensures var c, d := Moved(s, ev).heap[i].tasks[n], FiredState(s, ev).heap[i].tasks[n];
      d == if i == ev.run && n == ev.step then c.(timer := None) else c
    ensures FiredState(s, ev).cfg == s.cfg
  {
  }

  lemma FiredHandle(s: State, ev: Event, i: nat, n: string)
    requires Inv(s) && HasTask(s, i, n)
    requires ev.TimerBody? && JobIn(s, ev.run, ev.step, ev.job, Active) && !IsDispatch(s, ev.run, ev.step, ev.job)
    ensures HasTask(FiredState(s, ev), i, n) && HandleOk(FiredState(s, ev).heap[i].tasks[n])
  {
    hide Inv, FiredState, Moved;
    BooksOf(s, i, n);
    FiredMoved(s, ev, i, n);
    MovedPhases(s, ev, i, n);
  }

  lemma DeadlineTimers(s: State, ev: Event, i: nat, n: string)
    requires Inv(s) && HasTask(s, i, n) && ev.TimerBody? && Overdue(s, ev, ev.run, ev.step)
    ensures TimersAs(s, ev, Step(s, ev), i, n)
  {
    hide Inv, Step, FailOrRetry, FailLost, FiredState, Moved, JobsAfter, HandleOk;
    var k, m := ev.run, ev.step;
    var u, h := FiredState(s, ev), s.runs[s.heap[k].runID];
    assert !IsDispatch(s, k, m, ev.job);
    DeadlineIs(s, ev);
    FiredMoved(s, ev, i, n);
    FiredMoved(s, ev, k, m);
    FiredHandle(s, ev, i, n);
    MovedShape(s, ev, i, n);
    MovedShape(s, ev, k, m);
    if h == k { FailTimers(u, k, m, ev.now, i, n); } else { LostTimers(u, h, k, m, ev.now, i, n); }
    OverdueCauses(s, ev, i, n);
    var c, f, jobs := Moved(s, ev).heap[i].tasks[n], Step(s, ev).heap[i].tasks[n], NewJobs(s, ev, i, n);
    if i == k && n == m { NothingStopped(c, u.heap[i].tasks[n], f, jobs); }
  }

  /** What an overdue deadline amounts to for a step. */
  lemma OverdueCauses(s: State, ev: Event, i: nat, n: string)
    requires HasTask(s, i, n) && ev.TimerBody? && Overdue(s, ev, ev.run, ev.step)
    ensures !Stops(s, ev, i, n)
    ensures var e := s.heap[i].tasks[n];
      var hit, again := i == ev.run && n == ev.step, e.attempts < e.maxAttempts;
      && NewJobs(s, ev, i, n) ==
           (if !hit || !again then [] else if s.cfg.retryDelay > 0 then [Job(Retry, e.attempts, Waiting)]
            else if s.cfg.backend then CallJobs(e) else [])
      && HandleAfter(s, ev, i, n) ==
           if !hit then e.timer
           else if again && (s.cfg.retryDelay > 0 || (s.cfg.backend && e.timeout > 0)) then Some(|e.jobs|) else None
  {
    NoReport(s, ev, i);
    hide Reports, Cleared;
  }

  /** What any other callback amounts to for a step. */
  lemma CallbackCauses(s: State, ev: Event, i: nat, n: string)
    requires HasTask(s, i, n) && ev.TimerBody? && !Overdue(s, ev, ev.run, ev.step)
    ensures !Stops(s, ev, i, n)
    ensures var e, sent := s.heap[i].tasks[n], SendsAgain(s, ev, i, n);
      && NewJobs(s, ev, i, n) == (if sent && s.cfg.backend then CallJobs(e) else [])
      && HandleAfter(s, ev, i, n) ==
           if sent then (if s.cfg.backend && e.timeout > 0 then Some(|e.jobs|) else None)
           else if Drops(s, ev, i, n) then None else e.timer
  {
    NoReport(s, ev, i);
    hide Reports, Cleared;
  }

  lemma SentAgainTimers(s: State, ev: Event, i: nat, n: string)
    requires Inv(s) && HasTask(s, i, n) && ev.TimerBody? && SendsAgain(s, ev, ev.run, ev.step) && !Overdue(s, ev, ev.run, ev.step)
    ensures TimersAs(s, ev, Step(s, ev), i, n)
  {
    hide Inv, Step, FiredState, Moved, Dispatch, Stops, NewJobs, HandleAfter, JobsAfter, CallJobs;
    CallbackCauses(s, ev, i, n);
    var k, m := ev.run, ev.step;
    var u := FiredState(s, ev);
    SentAgainIs(s, ev);
    FiredMoved(s, ev, i, n);
    FiredMoved(s, ev, k, m);
    MovedShape(s, ev, i, n);
    MovedShape(s, ev, k, m);
    var d := Transition(u.heap[k].tasks[m], Ready);
    DispatchJobs(d, s.cfg.backend, ev.now);
    var c := Moved(s, ev).heap[i].tasks[n];
    Unchanged(c);
    if i == k && n == m {
      SameCallJobs(s.heap[i].tasks[n], d);
      SameJobs(c, d, Dispatch(d, s.cfg.backend, ev.now), if s.cfg.backend then CallJobs(d) else []);
    }
  }

  lemma SameCallJobs(e: Entry, d: Entry)
    requires d.timeout == e.timeout && d.attempts == e.attempts
    ensures CallJobs(d) == CallJobs(e)
  {
  }

  lemma CallbackTimers(s: State, ev: Event, i: nat, n: string)
    requires Inv(s) && HasTask(s, i, n) && ev.TimerBody? && !Overdue(s, ev, ev.run, ev.step)
    ensures TimersAs(s, ev, Step(s, ev), i, n)
  {
    hide Inv, Step, Moved, Stops, NewJobs, HandleAfter, JobsAfter;
    if SendsAgain(s, ev, ev.run, ev.step) {
      SentAgainTimers(s, ev, i, n);
    } else {
      CallbackCauses(s, ev, i, n);
      IndexedOf(s);
      LateCallback(s, ev, i, n);
      MovedShape(s, ev, i, n);
      Unchanged(Moved(s, ev).heap[i].tasks[n]);
    }
  }

  lemma AnswerTimers(s: State, ev: Event, i: nat, n: string)
    requires Inv(s) && HasTask(s, i, n) && ev.DispatchReturns? && !Refuses(s, ev)
    ensures TimersAs(s, ev, Step(s, ev), i, n)
  {
    hide Inv, Moved, BusyRequeue, MakeTaskID, Step, HandleOk;
    NoAnswer(s, ev, i);
    hide Reports, Cleared;
    MovedPhases(s, ev, i, n);
    if IsBusy(ev) {
      BusyStep(s, ev, i, n);
      var c := Moved(s, ev).heap[i].tasks[n];
      assert HandleOk(c) by { MovedHandle(s, ev, i, n); }
      if BusyFor(s, ev, i, n) { BusyJobs(c, i != ev.run); }
    } else {
      AnswerMoves(s, ev);
    }
  }

  lemma NoAnswer(s: State, ev: Event, i: nat)
    requires ev.DispatchReturns? && !Refuses(s, ev)
    ensures forall done, l :: !Reports(s, ev, done, i, l)
  {
  }

  lemma MovedHandle(s: State, ev: Event, i: nat, n: string)
    requires Inv(s) && HasTask(s, i, n)
    ensures HasTask(Moved(s, ev), i, n) && HandleOk(Moved(s, ev).heap[i].tasks[n])
  {
    hide Inv, Moved;
    BooksOf(s, i, n);
    MovedPhases(s, ev, i, n);
  }

  lemma ForcedTimers(s: State, ev: Event, i: nat, n: string)
    requires Inv(s) && HasTask(s, i, n) && (ev.Cancel? || ev.Cleanup?)
    ensures TimersAs(s, ev, Step(s, ev), i, n)
  {
    hide Inv, CancelState, CleanupState, CancelEntry, Finish, Stale, HandleOk, Accounted;
    NoReport(s, ev, i);
    hide Reports, Cleared;
    BooksOf(s, i, n);
    EndJobs(s.heap[i].tasks[n], Failed);
    if ev.Cancel? { CancelAt(s, ev.runID, i, n); } else { CleanupAt(s, ev.cutoff, i, n); }
  }

  /** Of the remaining events only a renewal stops a timer, that of a grace period. */
  lemma QuietCauses(s: State, ev: Event, i: nat, n: string)
    requires HasTask(s, i, n)
    requires Enters(ev) || ev.RenewLeases? || ev.SetRetryPolicy? || ev.Shutdown? || ev.TimerFires? || ev.DispatchCheck? || ev.JobEnds?
    ensures Stops(s, ev, i, n) <==> Renews(s, ev, i, n) && s.heap[i].tasks[n].status.Recovering?
    ensures NewJobs(s, ev, i, n) == []
    ensures HandleAfter(s, ev, i, n) == if Stops(s, ev, i, n) then None else s.heap[i].tasks[n].timer
  {
    NoReport(s, ev, i);
    hide Reports, Cleared, NamedAmong, MayHold;
  }

  lemma QuietTimers(s: State, ev: Event, i: nat, n: string)
    requires Reachable(s) && Inv(s) && Enabled(ev) && HasTask(s, i, n)
    requires Enters(ev) || ev.RenewLeases? || ev.SetRetryPolicy? || ev.Shutdown? || ev.TimerFires? || ev.DispatchCheck? || ev.JobEnds?
    ensures TimersAs(s, ev, Step(s, ev), i, n)
  {
    hide Inv, Reachable, AddRun, RecoverRun, RenewAll, MoveJob, NamedAmong, MayHold, Stops, NewJobs, HandleAfter;
    QuietCauses(s, ev, i, n);
    if Enters(ev) {
      hide Renews;
      EnterAt(s, ev, i, n);
    } else if ev.RenewLeases? {
      hide Step;
      RenewalIff(s, ev, i, n);
    } else {
      assert Step(s, ev).heap == Moved(s, ev).heap;
      hide Step;
      MovedPhases(s, ev, i, n);
      hide Moved;
    }
  }

  lemma EachTimer(s: State, ev: Event, i: nat, n: string)
    requires Reachable(s) && Inv(s) && Enabled(ev) && HasTask(s, i, n)
    ensures TimersAs(s, ev, Step(s, ev), i, n)
  {
    hide Inv, Reachable, TimersAs, Names, Counts, Cleared;
    match ev
    case Complete(res, routerOwner, now) => CompleteIs(s, ev); ReportTimers(s, res, routerOwner, now, i, n);
    case Cancel(_) => ForcedTimers(s, ev, i, n);
    case Cleanup(_) => ForcedTimers(s, ev, i, n);
    case TimerBody(k, m, j, _) =>
      if Overdue(s, ev, k, m) { DeadlineTimers(s, ev, i, n); } else { CallbackTimers(s, ev, i, n); }
    case DispatchReturns(_, _, _, _, _, _) =>
      if Refuses(s, ev) { RefusalTimers(s, ev, i, n); } else { AnswerTimers(s, ev, i, n); }
    case _ => QuietTimers(s, ev, i, n);
  }

  /**
   Every job of every step after every event: an old one is where the event takes it, or stopped if the handle named it
   and the event ends, requeues or takes over the step before the timer fired; the new ones are the deadline and the call
   of a start, or the timer of a delayed retry or of a requeue.  The handle names the newest timer, or none, or what it did.
   */
  lemma JobsIff(s: State, ev: Event, i: nat, n: string)
    requires Reachable(s) && Enabled(ev) && HasTask(s, i, n)
    ensures HasTask(Step(s, ev), i, n)
    ensures var e, f, jobs := s.heap[i].tasks[n], Step(s, ev).heap[i].tasks[n], NewJobs(s, ev, i, n);
      && |f.jobs| == |e.jobs| + |jobs| && f.jobs[|e.jobs|..] == jobs && f.timer == HandleAfter(s, ev, i, n)
      && forall j: nat :: j < |e.jobs| ==>
           f.jobs[j] == e.jobs[j].(phase :=
             if Stops(s, ev, i, n) && e.timer == Some(j) && e.jobs[j].phase.Waiting? then Stopped else MovesTo(s, ev, i, n, j))
  {
    hide Reachable, Inv, Step, Enabled, Stops, NewJobs, HandleAfter, Moved;
    ReachableInv(s);
    EachTimer(s, ev, i, n);
    MovedPhases(s, ev, i, n);
    var e, c, f := s.heap[i].tasks[n], Moved(s, ev).heap[i].tasks[n], Step(s, ev).heap[i].tasks[n];
    BooksOf(s, i, n);
    hide Accounted;
    forall j: nat | j < |e.jobs|
      ensures f.jobs[j] == e.jobs[j].(phase :=
        if Stops(s, ev, i, n) && e.timer == Some(j) && e.jobs[j].phase.Waiting? then Stopped else MovesTo(s, ev, i, n, j))
    {
      assert c.jobs[j] == e.jobs[j].(phase := MovesTo(s, ev, i, n, j));
      if Stops(s, ev, i, n) && e.timer == Some(j) { FiringStopsNothing(s, ev, i, n, j); }
    }
  }

  /** An event that makes a timer fire stops none. */
  lemma FiringStopsNothing(s: State, ev: Event, i: nat, n: string, j: nat)
    requires HasJob(s, i, n, j) && Stops(s, ev, i, n) && !s.heap[i].tasks[n].jobs[j].kind.DispatchCall?
    ensures MovesTo(s, ev, i, n, j).Waiting? <==> s.heap[i].tasks[n].jobs[j].phase.Waiting?
  {
    hide Names, Counts;
  }
}
