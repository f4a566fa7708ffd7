/** What stands behind a running step, and which goroutines a cancel stops. */
module QueueCalls {
  import opened Options
  import opened Tasks
  import opened Graph
  import opened Runs
  import opened TaskIDs
  import opened QueueSpec
  import opened QueueInv
  import opened QueueSteps
  import opened QueueHistory

  /*** Cancel ***/

  lemma CancelStatus(s: State, i: nat, n: string)
    requires Struct(s) && Tracked(s, i) && HasTask(s, i, n)
    ensures var t := Step(s, Cancel(s.heap[i].runID));
      && HasTask(t, i, n)
      && t.heap[i].tasks[n].status == if Terminal(s.heap[i].tasks[n].status) then s.heap[i].tasks[n].status else Canceled
  {
  }

  /**
   A dispatch goroutine that is still before its check when the run is canceled goes on to the
   backend, whenever it gets to run, exactly when its step had already ended by itself: done,
   failed or skipped.
   */
  lemma CanceledGoroutineCallsIff(s: State, i: nat, n: string, j: nat, evs: seq<Event>)
    requires Reachable(s) && Tracked(s, i) && HasTask(s, i, n)
    requires Possible(evs)
    requires var t := Execute(Step(s, Cancel(s.heap[i].runID)), evs); JobIn(t, i, n, j, Waiting) && IsDispatch(t, i, n, j)
    ensures var t := Execute(Step(s, Cancel(s.heap[i].runID)), evs);
      JobIn(Step(t, DispatchCheck(i, n, j)), i, n, j, Active) <==> Settled(s.heap[i].tasks[n].status)
  {
    hide Reachable, Inv, Possible, Execute, CancelState;
    ReachableInv(s);
    StructOf(s);
    var runID := s.heap[i].runID;
    var c := Step(s, Cancel(runID));
    StepKeepsInv(s, Cancel(runID));
    CancelStatus(s, i, n);
    ExecuteKeepsHistory(c, evs, 0);
    assert Execute(c, evs[..0]) == c by { ExecuteNothing(c, evs); }
    var t := Execute(c, evs);
    assert RunRel(c.heap[i], t.heap[i], ANYTHING);
    assert EntryRel(c.heap[i].tasks[n], t.heap[i].tasks[n], ANYTHING);
    hide EntryRel, RunRel, StepRel;
    assert t.heap[i].tasks[n].status == c.heap[i].tasks[n].status;
  }

  /*** Running steps ***/

  /**
   An answer of the backend to goroutine `j` that leaves its step running: accepted, a failure the
   step does not take, or a busy refusal for an entry that is not the tracked one of its run ID.
   */
  ghost predicate LeftRunning(s: State, ev: Event, i: nat, n: string, j: nat) {
    && ev.DispatchReturns? && ev.run == i && ev.step == n && ev.job == j
    && JobIn(s, i, n, j, Active) && IsDispatch(s, i, n, j)
    && (ev.reply.Accepted? || (ev.reply.Refused? && !FailureTaken(s, ev)) || (ev.reply.Busy? && !Tracked(s, i)))
  }

  /** The failure report goes to the step itself and is applied. */
  predicate FailureTaken(s: State, ev: Event)
    requires ev.DispatchReturns? && ev.reply.Refused? && HasJob(s, ev.run, ev.step, ev.job)
  {
    var res := FailureReport(s, ev);
    && SplitTaskID(res.taskID) == Some((s.heap[ev.run].runID, ev.step)) && Tracked(s, ev.run)
    && JudgeResult(Moved(s, ev), res, ev.routerOwner) == Applied
  }

  function FailureReport(s: State, ev: Event): Result
    requires ev.DispatchReturns? && ev.reply.Refused? && HasJob(s, ev.run, ev.step, ev.job)
  {
    Result(MakeTaskID(s.heap[ev.run].runID, ev.step), ev.reply.runtimeID, false, s.heap[ev.run].tasks[ev.step].jobs[ev.job].attempt)
  }

  /** Goroutine `j` carries the current attempt, and is alive or was answered in a way that left the step running. */
  ghost predicate BackedBy(s0: State, evs: seq<Event>, i: nat, n: string, j: nat) {
    var s := Execute(s0, evs);
    && HasJob(s, i, n, j) && IsDispatch(s, i, n, j) && s.heap[i].tasks[n].jobs[j].attempt == s.heap[i].tasks[n].attempts
    && (|| JobIn(s, i, n, j, Waiting) || JobIn(s, i, n, j, Active)
        || exists k :: 0 <= k < |evs| && LeftRunning(Execute(s0, evs[..k]), evs[k], i, n, j))
  }

  lemma BackedLater(s0: State, evs: seq<Event>, i: nat, n: string, j: nat, k: nat)
    requires k < |evs| - 1 && LeftRunning(Execute(s0, evs[..|evs| - 1][..k]), evs[..|evs| - 1][k], i, n, j)
    ensures LeftRunning(Execute(s0, evs[..k]), evs[k], i, n, j)
  {
    assert evs[..|evs| - 1][..k] == evs[..k];
  }

  /** A failure that is taken does not leave the step running on the same attempt. */
  lemma FailureMovesOn(s: State, i: nat, n: string, now: int)
    requires HasTask(s, i, n) && InProgress(s.heap[i].tasks[n].status)
    ensures var t := FailOrRetry(s, i, n, now);
      && HasTask(t, i, n)
      && (t.heap[i].tasks[n].status.Running? ==> t.heap[i].tasks[n].attempts > s.heap[i].tasks[n].attempts)
  {
    hide SkipSet;
    var e := s.heap[i].tasks[n];
    if e.attempts >= e.maxAttempts {
      var r := SetTask(s.heap[i], n, Finish(e, Failed));
      var t := SkipDownstream(r, n);
      assert !t.tasks[n].status.Running?;
    } else {
      RetryMovesOn(e, s.cfg.retryDelay, s.cfg.backend, now);
    }
  }

  lemma RetryMovesOn(e: Entry, retryDelay: int, backend: bool, now: int)
    requires InProgress(e.status)
    ensures var f := RetryLater(e, retryDelay, backend, now); f.status.Running? ==> f.attempts > e.attempts
  {
  }

  /** The backend's answer to the goroutine of the current attempt: the step leaves the backend, or was left running. */
  lemma AnswerMovesOn(s: State, ev: Event, i: nat, n: string, j: nat)
    requires Inv(s) && ev.DispatchReturns? && ev.run == i && ev.step == n && ev.job == j
    requires JobIn(s, i, n, j, Active) && IsDispatch(s, i, n, j) && InBackend(s.heap[i].tasks[n])
    requires !LeftRunning(s, ev, i, n, j)
    ensures HasTask(Step(s, ev), i, n)
    ensures var f := Step(s, ev).heap[i].tasks[n]; f.status.Running? ==> f.attempts > s.heap[i].tasks[n].attempts
  {
    hide Inv, FailOrRetry, MoveJob;
    BooksOf(s, i, n);
    hide HandleOk;
    MoveJobInv(s, i, n, j, Flushing);
    TrackedIfUnfinished(s, i, n);
    var t := MoveJob(s, i, n, j, Flushing);
    MoveJobFrame(s, i, n, j, Flushing);
    if ev.reply.Refused? {
      AppliedMeansInProgress(t, FailureReport(s, ev), ev.routerOwner);
      SetEntrySame(t, i, n);
      FailureMovesOn(t, i, n, ev.now);
    }
  }

  /** In a run that has just entered, whatever is in the backend has its goroutine. */
  lemma EnteredIsCalled(s: State, ev: Event, n: string) returns (j: nat)
    requires Inv(s) && Enabled(ev) && Enters(ev) && HasTask(Step(s, ev), |s.heap|, n)
    requires InBackend(Step(s, ev).heap[|s.heap|].tasks[n])
    ensures JobIn(Step(s, ev), |s.heap|, n, j, Waiting) && IsDispatch(Step(s, ev), |s.heap|, n, j)
    ensures var f := Step(s, ev).heap[|s.heap|].tasks[n]; f.jobs[j].attempt == f.attempts
  {
    hide Inv, Step, Enabled, Incoming, Tidy;
    EnteredRel(s, ev);
    IncomingUntouched(s, ev);
    var e, f := Incoming(s, ev).tasks[n], Step(s, ev).heap[|s.heap|].tasks[n];
    assert EntryRel(e, f, Locked(s.cfg.backend, TimeOf(ev)));
    assert Untouched(e);
    j :| |e.jobs| <= j < |f.jobs| && f.jobs[j] == Job(DispatchCall, f.attempts, Waiting);
  }

  /** A step that stays in the backend on the same attempt: how its goroutine may have moved. */
  lemma MovedJob(s: State, ev: Event, i: nat, n: string, j: nat)
    requires HasJob(s, i, n, j) && IsDispatch(s, i, n, j) && !s.heap[i].tasks[n].status.Canceled?
    ensures HasJob(Moved(s, ev), i, n, j)
    ensures Moved(s, ev).heap[i].tasks[n] == s.heap[i].tasks[n].(jobs := Moved(s, ev).heap[i].tasks[n].jobs)
    ensures var a, b := s.heap[i].tasks[n].jobs[j], Moved(s, ev).heap[i].tasks[n].jobs[j];
      && b.kind == a.kind && b.attempt == a.attempt
      && (b == a || (a.phase.Waiting? && b.phase.Active?) || a.phase.Flushing?
          || (a.phase.Active? && ev.DispatchReturns? && ev.run == i && ev.step == n && ev.job == j))
  {
  }

  /** A step that gets into the backend has a new goroutine. */
  lemma NewCall(s: State, ev: Event, i: nat, n: string) returns (h: nat)
    requires Inv(s) && Enabled(ev) && HasTask(s, i, n) && HasTask(Step(s, ev), i, n)
    requires InBackend(Step(s, ev).heap[i].tasks[n])
    requires !(InBackend(s.heap[i].tasks[n]) && Step(s, ev).heap[i].tasks[n].attempts == s.heap[i].tasks[n].attempts)
    ensures JobIn(Step(s, ev), i, n, h, Waiting) && IsDispatch(Step(s, ev), i, n, h)
    ensures var f := Step(s, ev).heap[i].tasks[n]; f.jobs[h].attempt == f.attempts
  {
    hide Inv, Step, Enabled, Moved;
    StepSplits(s, ev);
    MovedRel(s, ev);
    MovedStatus(s, ev, i, n);
    var c, f := Moved(s, ev).heap[i].tasks[n], Step(s, ev).heap[i].tasks[n];
    assert RunRel(Moved(s, ev).heap[i], Step(s, ev).heap[i], ModeOf(s, ev));
    assert EntryRel(c, f, ModeOf(s, ev));
    h :| |c.jobs| <= h < |f.jobs| && f.jobs[h] == Job(DispatchCall, f.attempts, Waiting);
  }

  /** A step that stays there on the same attempt keeps its goroutine, or was left running when it ended. */
  lemma CallStays(s: State, ev: Event, i: nat, n: string, j: nat)
    requires Inv(s) && Enabled(ev) && HasJob(s, i, n, j) && IsDispatch(s, i, n, j) && HasTask(Step(s, ev), i, n)
    requires InBackend(s.heap[i].tasks[n]) && InBackend(Step(s, ev).heap[i].tasks[n])
    requires Step(s, ev).heap[i].tasks[n].attempts == s.heap[i].tasks[n].attempts
    ensures HasJob(Step(s, ev), i, n, j) && IsDispatch(Step(s, ev), i, n, j)
    ensures Step(s, ev).heap[i].tasks[n].jobs[j].attempt == s.heap[i].tasks[n].jobs[j].attempt
    ensures JobIn(s, i, n, j, Waiting) || JobIn(s, i, n, j, Active) ==>
      JobIn(Step(s, ev), i, n, j, Waiting) || JobIn(Step(s, ev), i, n, j, Active) || LeftRunning(s, ev, i, n, j)
  {
    hide Inv, Step, Enabled, Moved, LeftRunning;
    StepSplits(s, ev);
    MovedStatus(s, ev, i, n);
    MovedJob(s, ev, i, n, j);
    var c, f := Moved(s, ev).heap[i].tasks[n], Step(s, ev).heap[i].tasks[n];
    assert RunRel(Moved(s, ev).heap[i], Step(s, ev).heap[i], ModeOf(s, ev));
    assert EntryRel(c, f, ModeOf(s, ev));
    if JobIn(s, i, n, j, Active) && ev.DispatchReturns? && ev.run == i && ev.step == n && ev.job == j && !LeftRunning(s, ev, i, n, j) {
      AnswerMovesOn(s, ev, i, n, j);
      assert false;
    }
  }

  /** The step was in the backend on this attempt already. */
  predicate StaysInBackend(s: State, t: State, i: nat, n: string)
    requires HasTask(t, i, n)
  {
    HasTask(s, i, n) && InBackend(s.heap[i].tasks[n]) && t.heap[i].tasks[n].attempts == s.heap[i].tasks[n].attempts
  }

  /**
   In every execution, a started step that is running has a dispatch goroutine of its current
   attempt that is alive, or whose call the backend accepted, or whose failure report was refused.
   */
  lemma {:induction false} RunningIsBacked(s0: State, evs: seq<Event>, i: nat, n: string) returns (j: nat)
    requires Inv(s0) && s0.heap == [] && Possible(evs)
    requires HasTask(Execute(s0, evs), i, n) && InBackend(Execute(s0, evs).heap[i].tasks[n])
    ensures BackedBy(s0, evs, i, n, j)
    decreases |evs|
  {
    hide Inv, Step, Enabled, InBackend, LeftRunning;
    var init, last := evs[..|evs| - 1], |evs| - 1;
    var s, ev, t := Execute(s0, init), evs[last], Execute(s0, evs);
    ExecuteKeepsInv(s0, init);
    HeapGrows(s, ev);
    if i >= |s.heap| {
      j := EnteredIsCalled(s, ev, n);
    } else if StaysInBackend(s, t, i, n) {
      j := RunningIsBacked(s0, init, i, n);
      CallStays(s, ev, i, n, j);
      if k :| 0 <= k < |init| && LeftRunning(Execute(s0, init[..k]), init[k], i, n, j) {
        BackedLater(s0, evs, i, n, j, k);
      } else if LeftRunning(s, ev, i, n, j) {
        assert evs[..last] == init;
      }
    } else {
      StepKeepsHistory(s, ev);
      assert RunRel(s.heap[i], t.heap[i], ModeOf(s, ev).(moves := true));
      j := NewCall(s, ev, i, n);
    }
  }
}
