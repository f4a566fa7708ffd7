/** The queue object driven through a whole execution of the machine. */
module QueueRuns {
  import opened Options
  import opened Tasks
  import opened QueueSpec
  import opened QueueInv
  import opened QueueSteps
  import opened QueueLoops
  import opened QueueHistory
  import opened QueueRows
  import opened Outcomes
  import opened TaskQueue
  import Flush

  /** A recovered pipeline has passed validation. */
  predicate Validated(ev: Event) {
    ev.Recover? ==> DistinctNames(ev.steps)
  }

  /** The event belongs to a scope that detaches deferred work. */
  predicate Flushes(s: State, ev: Event) {
    match ev
    case Add(_, _, _, _) => true
    case Recover(_, _, _, _, _) => true
    case Complete(_, _, _) => true
    case Cancel(_) => true
    case Cleanup(_) => true
    case TimerBody(i, n, j, _) => JobIn(s, i, n, j, Active) && !IsDispatch(s, i, n, j)
    case DispatchReturns(i, n, j, reply, _, _) => JobIn(s, i, n, j, Active) && IsDispatch(s, i, n, j) && reply.Refused?
    case _ => false
  }

  /** The deferred work one event calls for. */
  ghost predicate Owed(s: State, ev: Event, out: Outcome, onOutcome: bool, onSuccess: bool) {
    if !Flushes(s, ev) then out == Outcome([], [])
    else if ev.Cancel? && ev.runID !in s.runs then out == Outcome([UntrackedRunRow(ev.runID)], [UntrackedCanceledEvent(ev.runID)])
    else
      && DeferredFor(s, Step(s, ev), out, onOutcome, onSuccess)
      && (Enters(ev) ==> |s.heap| < |Step(s, ev).heap|
                         && Deferred(|s.heap|, Incoming(s, ev), Step(s, ev).heap[|s.heap|], out, onOutcome, onSuccess))
  }

  lemma OwedIsProper(s: State, ev: Event, out: Outcome, onOutcome: bool, onSuccess: bool)
    requires Owed(s, ev, out, onOutcome, onSuccess)
    ensures Flush.Proper(out)
  {
    hide Step, Deferred, DeferredFor, Flush.Proper, Incoming;
    if !Flushes(s, ev) {
      NoWorkIsProper();
    } else if ev.Cancel? && ev.runID !in s.runs {
      Flush.UntrackedCancelIsProper(ev.runID);
    } else {
      if Enters(ev) { EnteredOne(s, ev); } else { HeapStays(s, ev); }
      Flush.DeferredIsProper(s, Step(s, ev), out, onOutcome, onSuccess);
    }
  }

  lemma NoWorkIsProper()
    ensures Flush.Proper(Outcome([], []))
  {
  }

  /** A scope of the queue object; events that do not apply, like a timer firing twice, do not happen to it. */
  method Perform(q: Queue, ev: Event) returns (out: Outcome)
    requires q.Valid() && Validated(ev)
    modifies q
    ensures q.Valid() && q.St() == Step(old(q.St()), ev)
    ensures Owed(old(q.St()), ev, out, q.onOutcome, q.onSuccess) && Flush.Proper(out)
  {
    hide q.Valid, AddRun, RecoverRun, CompleteResult, CancelState, RenewAll, CleanupState, MoveJob, Callback, DispatchDone;
    hide Deferred, DeferredFor, Flush.Proper, BuildTasks, RecoverTasks, ByName;
    ghost var s0 := q.St();
    out := Outcome([], []);
    if Enters(ev) { EnteredOne(s0, ev); }
    match ev {
      case Add(runID, order, steps, now) => out := q.Add(runID, order, steps, now);
      case Recover(runID, order, steps, recovered, now) => out := q.Recover(runID, order, steps, recovered, now);
      case Complete(res, owner, now) =>
        var _, o := q.Complete(res, owner, now);
        out := o;
      case Cancel(runID) => out := q.Cancel(runID);
      case RenewLeases(runtimeID, taskIDs, now) => q.RenewLeases(runtimeID, taskIDs, now);
      case Cleanup(cutoff) => out := q.Cleanup(cutoff);
      case SetRetryPolicy(maxAttempts, retryDelay) => q.SetRetryPolicy(maxAttempts, retryDelay);
      case Shutdown => q.Shutdown();
      case TimerFires(i, n, j) =>
        if Here(q, i, n, j, Waiting) && !q.heap[i].tasks[n].jobs[j].kind.DispatchCall? {
          q.TimerFires(i, n, j);
        }
      case TimerBody(i, n, j, now) =>
        if Here(q, i, n, j, Active) && !q.heap[i].tasks[n].jobs[j].kind.DispatchCall? {
          out := q.TimerBody(i, n, j, now);
        }
      case DispatchCheck(i, n, j) =>
        if Here(q, i, n, j, Waiting) && q.heap[i].tasks[n].jobs[j].kind.DispatchCall? {
          var _ := q.DispatchCheck(i, n, j);
        }
      case DispatchReturns(i, n, j, reply, owner, now) =>
        if Here(q, i, n, j, Active) && q.heap[i].tasks[n].jobs[j].kind.DispatchCall? {
          out := q.DispatchReturns(i, n, j, reply, owner, now);
        }
      case JobEnds(i, n, j) =>
        if Here(q, i, n, j, Flushing) {
          q.JobEnds(i, n, j);
        }
    }
    OwedIsProper(s0, ev, out, q.onOutcome, q.onSuccess);
  }

  predicate Here(q: Queue, i: nat, n: string, j: nat, p: Phase)
    reads q
  {
    i < |q.heap| && n in q.heap[i].tasks && j < |q.heap[i].tasks[n].jobs| && q.heap[i].tasks[n].jobs[j].phase == p
  }

  /** The outcomes of an execution, one for each event. */
  ghost predicate OwedAlong(s0: State, evs: seq<Event>, outs: seq<Outcome>, onOutcome: bool, onSuccess: bool) {
    |outs| == |evs| && forall k :: 0 <= k < |evs| ==> Owed(Execute(s0, evs[..k]), evs[k], outs[k], onOutcome, onSuccess)
  }

  /**
   Whatever the environment does to a new queue object: it is in a reachable state of the machine,
   so everything proved of those holds of it, with nothing pending and the WaitGroup balanced, and
   it has handed out exactly the deferred work of each event.
   */
  method Drive(backend: bool, onOutcome: bool, onSuccess: bool, evs: seq<Event>) returns (q: Queue, outs: seq<Outcome>)
    requires Possible(evs)
    requires forall k :: 0 <= k < |evs| ==> Validated(evs[k])
    ensures fresh(q) && q.Valid() && q.St() == Execute(Initial(backend, 1, 0), evs)
    ensures Reachable(q.St()) && Inv(q.St())
    ensures OwedAlong(Initial(backend, 1, 0), evs, outs, onOutcome, onSuccess)
  {
    hide q.Valid, Step, Enabled, Inv, Validated, Owed, OwedAlong, Execute, Possible, Reachable;
    ghost var s0 := Initial(backend, 1, 0);
    q := new Queue(backend, onOutcome, onSuccess);
    outs := [];
    NothingYet(s0, evs, onOutcome, onSuccess);
    for k := 0 to |evs|
      invariant fresh(q) && q.Valid() && q.St() == Execute(s0, evs[..k])
      invariant q.onOutcome == onOutcome && q.onSuccess == onSuccess
      invariant OwedAlong(s0, evs[..k], outs, onOutcome, onSuccess)
    {
      OneMoreEvent(s0, evs, k);
      var out := Perform(q, evs[k]);
      OneMoreOwed(s0, evs, k, outs, out, onOutcome, onSuccess);
      outs := outs + [out];
    }
    assert evs[..|evs|] == evs;
    assert Reachable(q.St()) by { DrivenReachable(backend, evs); }
    ReachableInv(q.St());
  }

  lemma NothingYet(s0: State, evs: seq<Event>, onOutcome: bool, onSuccess: bool)
    ensures Execute(s0, evs[..0]) == s0 && OwedAlong(s0, evs[..0], [], onOutcome, onSuccess)
  {
  }

  lemma OneMoreEvent(s0: State, evs: seq<Event>, k: nat)
    requires k < |evs|
    ensures Execute(s0, evs[..k + 1]) == Step(Execute(s0, evs[..k]), evs[k])
  {
    hide Step;
    assert evs[..k + 1][..k] == evs[..k];
  }

  lemma OneMoreOwed(s0: State, evs: seq<Event>, k: nat, outs: seq<Outcome>, out: Outcome, onOutcome: bool, onSuccess: bool)
    requires k < |evs| && OwedAlong(s0, evs[..k], outs, onOutcome, onSuccess)
    requires Owed(Execute(s0, evs[..k]), evs[k], out, onOutcome, onSuccess)
    ensures OwedAlong(s0, evs[..k + 1], outs + [out], onOutcome, onSuccess)
  {
    hide Owed, Execute;
    forall h | 0 <= h < k + 1 ensures Owed(Execute(s0, evs[..k + 1][..h]), evs[..k + 1][h], (outs + [out])[h], onOutcome, onSuccess) {
      assert evs[..k + 1][..h] == evs[..h];
      if h < k { assert evs[..k][..h] == evs[..h]; }
    }
  }

  lemma DrivenReachable(backend: bool, evs: seq<Event>)
    requires Possible(evs)
    ensures Reachable(Execute(Initial(backend, 1, 0), evs))
  {
  }

  /**
   End to end: whatever one queue goes through, and in whatever interleaving its outcomes are then
   flushed, for each run ID the run event, OnRunOutcome and OnRunSuccess run at most once each.
   */
  lemma QueueEffectsAtMostOnce(s0: State, evs: seq<Event>, outs: seq<Outcome>, onOutcome: bool, onSuccess: bool,
                               acts: seq<Flush.Event>, k: nat, l: nat)
    requires OwedAlong(s0, evs, outs, onOutcome, onSuccess)
    requires forall f :: 0 <= f < |acts| && acts[f].Begin? ==> acts[f].out in outs
    requires k < |Flush.Execute(acts).log| && l < |Flush.Execute(acts).log|
    requires var d := Flush.Execute(acts);
      && d.log[k].Run? && Flush.RanFor(d, k).Some? && d.log[l].Run? && Flush.RanFor(d, l).Some?
      && Flush.SameKind(Flush.RanFor(d, k).value, Flush.RanFor(d, l).value)
      && Flush.RanFor(d, k).value.runID == Flush.RanFor(d, l).value.runID
    ensures k == l
  {
    hide Owed, Flush.Proper, Flush.Execute, Flush.RanFor;
    forall f | 0 <= f < |acts| && acts[f].Begin? ensures Flush.Proper(acts[f].out) {
      var h :| 0 <= h < |outs| && outs[h] == acts[f].out;
      OwedIsProper(Execute(s0, evs[..h]), evs[h], outs[h], onOutcome, onSuccess);
    }
    Flush.RunEffectsAtMostOnce(acts, k, l);
  }
}
