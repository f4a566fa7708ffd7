/** The shape of the queue's tables, kept by every operation whatever its arguments. */
module QueueStruct {
  import opened Options
  import opened Tasks
  import opened Runs
  import opened TaskIDs
  import opened QueueSpec
  import opened QueueInv

  /** An entry that has not ended belongs to a tracked run or to an overwritten one. */
  lemma OpenIfUnfinished(s: State, i: nat, n: string)
    requires Struct(s) && HasTask(s, i, n) && !Terminal(s.heap[i].tasks[n].status)
    ensures Tracked(s, i) <==> s.heap[i].closing.Open?
    ensures !Tracked(s, i) ==> s.heap[i].closing.Overwritten?
  {
  }

  lemma IndexedAt(s: State, runID: string)
    requires Struct(s) && runID in s.runs
    ensures s.runs[runID] < |s.heap| && s.heap[s.runs[runID]].runID == runID
    ensures Tracked(s, s.runs[runID]) && s.heap[s.runs[runID]].closing.Open?
  {
    assert Tracked(s, s.runs[runID]);
  }

  lemma SetEntryStruct(s: State, i: nat, n: string, f: Entry)
    requires Struct(s) && HasTask(s, i, n) && (Terminal(s.heap[i].tasks[n].status) ==> Terminal(f.status))
    ensures Struct(SetEntry(s, i, n, f))
    ensures forall k :: Tracked(SetEntry(s, i, n, f), k) <==> Tracked(s, k)
  {
    SetRunStruct(s, i, SetTask(s.heap[i], n, f));
  }

  lemma SettledIsTerminal(r: RunEntry)
    requires AllTasksSettled(r)
    ensures AllTerminal(r)
  {
  }

  lemma CloseIfSettledStruct(s: State, i: nat, r: RunEntry)
    requires Struct(s) && Tracked(s, i) && r.runID == s.heap[i].runID && r.closing == s.heap[i].closing
    requires AllTerminal(s.heap[i]) ==> AllTerminal(r)
    ensures Struct(CloseIfSettled(SetRun(s, i, r), i))
  {
    hide Struct;
    if AllTasksSettled(r) {
      SettledIsTerminal(r);
      CloseRunStruct(s, i, r, Completed(!AnyFailed(r)));
    } else {
      SetRunStruct(s, i, r);
    }
  }

  lemma CompleteDoneStruct(s: State, i: nat, n: string, now: int)
    requires Struct(s) && HasTask(s, i, n) && Tracked(s, i) && !Terminal(s.heap[i].tasks[n].status)
    ensures Struct(CompleteDone(s, i, n, now))
  {
    OpenIfUnfinished(s, i, n);
    hide Struct;
    CloseIfSettledStruct(s, i, PromoteReady(SetTask(s.heap[i], n, Finish(s.heap[i].tasks[n], Done)), s.cfg.backend, now));
  }

  lemma FailOrRetryStruct(s: State, i: nat, n: string, now: int)
    requires Struct(s) && HasTask(s, i, n) && Tracked(s, i) && !Terminal(s.heap[i].tasks[n].status)
    ensures Struct(FailOrRetry(s, i, n, now))
  {
    hide SkipSet, SkipReaches, RetryLater;
    OpenIfUnfinished(s, i, n);
    hide Struct;
    var e := s.heap[i].tasks[n];
    if e.attempts < e.maxAttempts {
      SetEntryStruct(s, i, n, RetryLater(e, s.cfg.retryDelay, s.cfg.backend, now));
    } else {
      CloseIfSettledStruct(s, i, SkipDownstream(SetTask(s.heap[i], n, Finish(e, Failed)), n));
    }
  }

  lemma FailLostStruct(s: State, k: nat, i: nat, n: string, now: int)
    requires Struct(s) && HasTask(s, i, n) && Tracked(s, k) && k != i && !Terminal(s.heap[i].tasks[n].status)
    ensures Struct(FailLost(s, k, i, n, now))
  {
    hide Struct, StraySkip, RetryLater;
    var e := s.heap[i].tasks[n];
    if e.attempts < e.maxAttempts {
      SetEntryStruct(s, i, n, RetryLater(e, s.cfg.retryDelay, s.cfg.backend, now));
    } else {
      var t := SetEntry(s, i, n, Finish(e, Failed));
      SetEntryStruct(s, i, n, Finish(e, Failed));
      StrayFrame(s.heap[k], n);
      StrayTerminal(s.heap[k], n);
      CloseIfSettledStruct(t, k, StraySkip(s.heap[k], n));
    }
  }

  lemma StrayTerminal(r: RunEntry, n: string)
    ensures AllTerminal(r) ==> AllTerminal(StraySkip(r, n))
  {
    hide SkipSet;
  }

  lemma DeadlineStruct(s: State, i: nat, n: string, now: int)
    requires Struct(s) && HasTask(s, i, n) && !Terminal(s.heap[i].tasks[n].status)
    ensures Struct(DeadlinePassed(s, i, n, now))
  {
    hide Struct, FailOrRetry, FailLost;
    var f := s.heap[i].tasks[n].(timer := None);
    SetEntryStruct(s, i, n, f);
    if s.heap[i].runID in s.runs {
      IndexedAt(s, s.heap[i].runID);
      var k, t := s.runs[s.heap[i].runID], SetEntry(s, i, n, f);
      if k == i { FailOrRetryStruct(t, i, n, now); } else { FailLostStruct(t, k, i, n, now); }
    }
  }

  lemma CompleteStruct(s: State, res: Result, routerOwner: string, now: int)
    requires Struct(s)
    ensures Struct(CompleteResult(s, res, routerOwner, now))
  {
    hide Struct, CompleteDone, FailOrRetry;
    if JudgeResult(s, res, routerOwner) == Applied {
      var (runID, n) := SplitTaskID(res.taskID).value;
      var i := s.runs[runID];
      var f := Adopt(s.heap[i].tasks[n], res);
      IndexedAt(s, runID);
      SetEntryStruct(s, i, n, f);
      if res.done {
        CompleteDoneStruct(SetEntry(s, i, n, f), i, n, now);
      } else {
        FailOrRetryStruct(SetEntry(s, i, n, f), i, n, now);
      }
    }
  }

  lemma CallbackStruct(s: State, i: nat, n: string, kind: JobKind, now: int)
    requires Struct(s) && HasTask(s, i, n)
    ensures Struct(Callback(s, i, n, kind, now))
  {
    hide Struct, DeadlinePassed, Dispatch;
    var e := s.heap[i].tasks[n];
    SetEntryStruct(s, i, n, e.(timer := None));
    match kind
    case Timeout => if s.alive && e.status.Running? { DeadlineStruct(s, i, n, now); }
    case Grace => if s.alive && e.status.Recovering? { DeadlineStruct(s, i, n, now); }
    case Requeue =>
      if s.alive && e.status.Ready? { SetEntryStruct(s, i, n, Dispatch(e.(timer := None), s.cfg.backend, now)); }
    case Retry =>
      if e.status.Retrying? {
        SetEntryStruct(s, i, n, Dispatch(Transition(e.(timer := None), Ready), s.cfg.backend, now));
      }
    case DispatchCall =>
  }

  lemma MoveJobStruct(s: State, i: nat, n: string, j: nat, p: Phase)
    requires Struct(s) && HasJob(s, i, n, j)
    ensures Struct(MoveJob(s, i, n, j, p))
  {
    SetEntryStruct(s, i, n, SetPhase(s.heap[i].tasks[n], j, p));
  }

  lemma RequeuedStruct(s: State, runID: string, n: string, from: nat)
    requires Struct(s)
    ensures Struct(Requeued(s, runID, n, from))
  {
    hide BusyRequeue;
    if runID in s.runs && HasTask(s, s.runs[runID], n) && s.heap[s.runs[runID]].tasks[n].status.Running? {
      var i := s.runs[runID];
      SetEntryStruct(s, i, n, BusyRequeue(s.heap[i].tasks[n], i != from));
    }
  }

  lemma RenewOneStruct(s: State, runtimeID: string, taskID: string, now: int)
    requires Struct(s)
    ensures Struct(RenewOne(s, runtimeID, taskID, now))
  {
    var id := SplitTaskID(taskID);
    if id.Some? && id.value.0 in s.runs && HasTask(s, s.runs[id.value.0], id.value.1) {
      var i, n := s.runs[id.value.0], id.value.1;
      SetEntryStruct(s, i, n, RenewEntry(s.heap[i].tasks[n], runtimeID, now));
    }
  }

  lemma CancelStruct(s: State, i: nat)
    requires Struct(s) && Tracked(s, i)
    ensures Struct(CloseRun(SetRun(s, i, s.heap[i].(tasks := CancelTasks(s.heap[i].tasks))), i, CanceledRun))
  {
    hide Struct;
    var r := s.heap[i].(tasks := CancelTasks(s.heap[i].tasks));
    forall n | n in r.tasks ensures Terminal(r.tasks[n].status) {
      if !Terminal(s.heap[i].tasks[n].status) { ForcedIsTerminal(s.heap[i].tasks[n]); }
    }
    CloseRunStruct(s, i, r, CanceledRun);
  }

  lemma ForcedIsTerminal(e: Entry)
    requires !Terminal(e.status)
    ensures CancelEntry(e).status.Canceled? && Finish(e, Failed).status.Failed?
  {
  }

  lemma ExpireStruct(s: State, i: nat)
    requires Struct(s) && Tracked(s, i)
    ensures Struct(ExpireRun(s, i))
  {
    hide Struct;
    var r := s.heap[i].(tasks := ExpireTasks(s.heap[i].tasks));
    forall n | n in r.tasks ensures Terminal(r.tasks[n].status) {
      if !Terminal(s.heap[i].tasks[n].status) { ForcedIsTerminal(s.heap[i].tasks[n]); }
    }
    CloseRunStruct(s, i, r, Expired);
  }
}
