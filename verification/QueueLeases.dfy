/** Who holds a step and since when, over whole executions, and what follows for reports and for cleanup. */
module QueueLeases {
  import opened Options
  import opened Tasks
  import opened Graph
  import opened Runs
  import opened TaskIDs
  import opened QueueSpec
  import opened QueueInv
  import opened QueueSteps
  import opened QueueHistory
  import opened QueueEnds

  /** In every reachable state: an owner only while an attempt is on or over, a lease exactly while one is on. */
  lemma IdleIsFree(s: State, i: nat, n: string)
    requires Reachable(s) && HasTask(s, i, n)
    ensures var e := s.heap[i].tasks[n];
      && (e.status.Pending? || e.status.Ready? || e.status.Retrying? ==> e.assignedRuntimeID == "" && e.leaseAt.None?)
      && (e.status.Running? || e.status.Recovering? ==> e.leaseAt.Some?)
      && (e.status.Done? || e.status.Failed? || e.status.Skipped? ==> e.leaseAt.None?)
  {
    hide Reachable, Inv, HandleOk, CallsOk;
    ReachableInv(s);
    BooksOf(s, i, n);
  }

  /*** Renewals ***/

  /** The runtime may hold the step: it does already, or nobody does and the task does not name another one. */
  predicate MayHold(e: Entry, runtimeID: string) {
    if e.assignedRuntimeID != "" then e.assignedRuntimeID == runtimeID else e.taskRuntimeID == "" || e.taskRuntimeID == runtimeID
  }

  predicate NamedAmong(s: State, taskIDs: seq<string>, i: nat, n: string) {
    exists k :: 0 <= k < |taskIDs| && Names(s, taskIDs[k], i, n)
  }

  /** The event renews the lease of the step: a runtime that may hold it names it while it is running or recovering. */
  predicate Renews(s: State, ev: Event, i: nat, n: string) {
    && ev.RenewLeases? && ev.runtimeID != "" && NamedAmong(s, ev.taskIDs, i, n)
    && (s.heap[i].tasks[n].status.Running? || s.heap[i].tasks[n].status.Recovering?)
    && MayHold(s.heap[i].tasks[n], ev.runtimeID)
  }

  /** The lease is the runtime's from now on; a grace period ends, and its timer is stopped if it has not fired. */
  predicate Renewed(e: Entry, f: Entry, runtimeID: string, now: int) {
    && f == e.(assignedRuntimeID := runtimeID, leaseAt := Some(now), status := Running, timer := f.timer, jobs := f.jobs)
    && |f.jobs| == |e.jobs|
    && (e.status.Running? ==> f.timer == e.timer && f.jobs == e.jobs)
    && (e.status.Recovering? ==> f.timer.None? && forall j: nat :: j < |e.jobs| ==>
          f.jobs[j] == if e.timer == Some(j) && e.jobs[j].phase.Waiting? then e.jobs[j].(phase := Stopped) else e.jobs[j])
  }

  lemma RenewEntryAs(e: Entry, runtimeID: string, now: int)
    requires runtimeID != ""
    ensures var f := RenewEntry(e, runtimeID, now);
      && RenewEntry(f, runtimeID, now) == f
      && if (e.status.Running? || e.status.Recovering?) && MayHold(e, runtimeID) then Renewed(e, f, runtimeID, now) else f == e
  {
  }

  lemma RenewOneAt(s: State, runtimeID: string, taskID: string, now: int, i: nat, n: string)
    requires Indexed(s) && HasTask(s, i, n)
    ensures var t := RenewOne(s, runtimeID, taskID, now);
      && HasTask(t, i, n)
      && t.heap[i].tasks[n] == (if Names(s, taskID, i, n) then RenewEntry(s.heap[i].tasks[n], runtimeID, now) else s.heap[i].tasks[n])
      && t.runs == s.runs && |t.heap| == |s.heap| && t.cfg == s.cfg && t.alive == s.alive
      && forall k :: 0 <= k < |s.heap| ==>
           t.heap[k] == s.heap[k].(tasks := t.heap[k].tasks) && t.heap[k].tasks.Keys == s.heap[k].tasks.Keys
  {
    hide RenewEntry, SplitTaskID;
  }

  lemma {:induction false} RenewAllAt(s: State, runtimeID: string, taskIDs: seq<string>, now: int, i: nat, n: string)
    requires Indexed(s) && HasTask(s, i, n) && runtimeID != ""
    ensures var t := RenewAll(s, runtimeID, taskIDs, now);
      && HasTask(t, i, n)
      && t.heap[i].tasks[n] == (if NamedAmong(s, taskIDs, i, n) then RenewEntry(s.heap[i].tasks[n], runtimeID, now) else s.heap[i].tasks[n])
      && t.runs == s.runs && |t.heap| == |s.heap| && t.cfg == s.cfg && t.alive == s.alive
      && forall k :: 0 <= k < |s.heap| ==>
           t.heap[k] == s.heap[k].(tasks := t.heap[k].tasks) && t.heap[k].tasks.Keys == s.heap[k].tasks.Keys
    decreases |taskIDs|
  {
    hide RenewEntry, SplitTaskID, RenewOne;
    if taskIDs != [] {
      var init, last := taskIDs[..|taskIDs| - 1], taskIDs[|taskIDs| - 1];
      var u := RenewAll(s, runtimeID, init, now);
      RenewAllAt(s, runtimeID, init, now, i, n);
      RenewOneAt(u, runtimeID, last, now, i, n);
      RenewEntryAs(s.heap[i].tasks[n], runtimeID, now);
      assert Names(u, last, i, n) <==> Names(s, last, i, n);
      assert NamedAmong(s, taskIDs, i, n) <==> NamedAmong(s, init, i, n) || Names(s, last, i, n) by {
        if k :| 0 <= k < |taskIDs| && Names(s, taskIDs[k], i, n) && k != |taskIDs| - 1 { assert init[k] == taskIDs[k]; }
        if k :| 0 <= k < |init| && Names(s, init[k], i, n) { assert init[k] == taskIDs[k]; }
      }
    }
  }

  /** A renewal that takes effect has exactly these effects on the step, and one that does not leaves it as it is. */
  lemma RenewalIff(s: State, ev: Event, i: nat, n: string)
    requires Reachable(s) && ev.RenewLeases? && HasTask(s, i, n)
    ensures HasTask(Step(s, ev), i, n)
    ensures var e, f := s.heap[i].tasks[n], Step(s, ev).heap[i].tasks[n];
      if Renews(s, ev, i, n) then Renewed(e, f, ev.runtimeID, ev.now) else f == e
    ensures var t := Step(s, ev);
      && t.runs == s.runs && |t.heap| == |s.heap| && t.cfg == s.cfg && t.alive == s.alive
      && forall k :: 0 <= k < |s.heap| ==>
           t.heap[k] == s.heap[k].(tasks := t.heap[k].tasks) && t.heap[k].tasks.Keys == s.heap[k].tasks.Keys
  {
    hide Reachable, RenewAll, RenewEntry, Names, Renewed, MayHold;
    ReachableInv(s);
    if ev.runtimeID != "" {
      hide Inv, Struct;
      assert Indexed(s) by { IndexedOf(s); }
      RenewAllAt(s, ev.runtimeID, ev.taskIDs, ev.now, i, n);
      RenewEntryAs(s.heap[i].tasks[n], ev.runtimeID, ev.now);
    }
  }

  lemma RenewsTask(s: State, ev: Event, i: nat, n: string)
    requires Renews(s, ev, i, n)
    ensures HasTask(s, i, n)
  {
  }

  /*** Reports ***/

  /**
   A report changes the queue exactly if its ID leads to a tracked step that is in progress on the reported
   attempt, a report without an attempt standing for the first, and it comes from the runtime that holds the
   step, else from the one its task names, else from the one the router knows, if there is any.
   */
  lemma OnlyCurrentResultsApply(s: State, res: Result, routerOwner: string, now: int)
    requires Reachable(s) && res.attempt >= 0
    ensures CompleteResult(s, res, routerOwner, now) != s <==>
      && SplitTaskID(res.taskID).Some?
      && var (runID, n) := SplitTaskID(res.taskID).value;
      && runID in s.runs && HasTask(s, s.runs[runID], n)
      && var e := s.heap[s.runs[runID]].tasks[n];
      && InProgress(e.status)
      && (if e.assignedRuntimeID != "" then res.runtimeID == e.assignedRuntimeID
          else if e.taskRuntimeID != "" then res.runtimeID == e.taskRuntimeID
          else routerOwner != "" ==> res.runtimeID == routerOwner)
      && (if res.attempt == 0 then 1 else res.attempt) == e.attempts
  {
    hide Reachable, Inv, CompleteResult, SplitTaskID;
    ReachableInv(s);
    ResultAt(s, res, routerOwner, now);
    if JudgeResult(s, res, routerOwner) == Applied {
      var (runID, n) := SplitTaskID(res.taskID).value;
      var i := s.runs[runID];
      CompleteIs(s, Complete(res, routerOwner, now));
      EachChange(s, Complete(res, routerOwner, now), i, n);
    } else if SplitTaskID(res.taskID).Some? {
      var (runID, n) := SplitTaskID(res.taskID).value;
      IndexedBy(s, runID);
      if runID in s.runs && HasTask(s, s.runs[runID], n) {
        assert !Counts(s.heap[s.runs[runID]].tasks[n], res.runtimeID, res.attempt, routerOwner) by {
          assert Names(s, res.taskID, s.runs[runID], n);
        }
      }
    }
  }

  /** What Complete answers to a report about step `n` of a tracked run. */
  lemma AnsweredAs(s: State, res: Result, routerOwner: string, i: nat, n: string)
    requires Inv(s) && Names(s, res.taskID, i, n)
    ensures JudgeResult(s, res, routerOwner) == Judge(s.heap[i].tasks[n], res, routerOwner)
    ensures Judge(s.heap[i].tasks[n], res, routerOwner) != Applied ==> forall now :: CompleteResult(s, res, routerOwner, now) == s
  {
    hide Inv, SplitTaskID, Judge;
  }

  /**
   Once a renewal by a runtime has taken effect, reports about the step from any other runtime are refused in
   every later state, until the step is requeued or put to retry.
   */
  lemma HolderShutsOthersOut(s: State, ev: Event, evs: seq<Event>, i: nat, n: string, res: Result, routerOwner: string, now: int)
    requires Reachable(s) && Renews(s, ev, i, n) && Possible(evs)
    requires var t, u := Step(s, ev), Execute(Step(s, ev), evs);
      && HasTask(t, i, n) && Names(u, res.taskID, i, n)
      && u.heap[i].tasks[n].requeues == t.heap[i].tasks[n].requeues && u.heap[i].tasks[n].retries == t.heap[i].tasks[n].retries
    requires res.runtimeID != ev.runtimeID
    ensures var u := Execute(Step(s, ev), evs);
      && JudgeResult(u, res, routerOwner) == (if res.runtimeID == "" then MissingIdentity else WrongOwner)
      && CompleteResult(u, res, routerOwner, now) == u
  {
    hide Reachable, Inv, Possible, Execute, Step, CompleteResult, SplitTaskID, Names, Judge, JudgeResult, NamedAmong;
    RenewsTask(s, ev, i, n);
    RenewalIff(s, ev, i, n);
    ReachableInv(s);
    StepKeepsInv(s, ev);
    var t, u := Step(s, ev), Execute(Step(s, ev), evs);
    ExecuteKeepsInv(t, evs);
    ExecuteKeepsHistory(t, evs, 0);
    ExecuteNothing(t, evs);
    assert RunRel(t.heap[i], u.heap[i], ANYTHING) && n in u.heap[i].tasks by { assert Names(u, res.taskID, i, n); NamesTask(u, res.taskID, i, n); }
    assert EntryRel(t.heap[i].tasks[n], u.heap[i].tasks[n], ANYTHING);
    RefusedAs(u.heap[i].tasks[n], res, routerOwner);
    AnsweredAs(u, res, routerOwner, i, n);
  }

  lemma NamesTask(s: State, taskID: string, i: nat, n: string)
    requires Names(s, taskID, i, n)
    ensures Tracked(s, i) && HasTask(s, i, n)
  {
  }

  /*** Until somebody takes the lease ***/

  /** No renewal of the step took effect. */
  ghost predicate NotRenewed(s: State, evs: seq<Event>, i: nat, n: string) {
    forall k :: 0 <= k < |evs| ==> !Renews(Execute(s, evs[..k]), evs[k], i, n)
  }

  lemma FreeStep(s: State, ev: Event, i: nat, n: string)
    requires Inv(s) && Reachable(s) && Enabled(ev) && HasTask(s, i, n) && !Renews(s, ev, i, n)
    requires s.heap[i].tasks[n].assignedRuntimeID == ""
    ensures HasTask(Step(s, ev), i, n) && Step(s, ev).heap[i].tasks[n].assignedRuntimeID == ""
  {
    hide Inv, Reachable, Step, Enabled, Renews, JobsRel;
    if ev.RenewLeases? {
      RenewalIff(s, ev, i, n);
    } else {
      StepKeepsHistory(s, ev);
      assert RunRel(s.heap[i], Step(s, ev).heap[i], ModeOf(s, ev).(moves := true));
      assert EntryRel(s.heap[i].tasks[n], Step(s, ev).heap[i].tasks[n], ModeOf(s, ev).(moves := true));
    }
  }

  lemma {:induction false} FreeUntilRenewed(s: State, evs: seq<Event>, i: nat, n: string)
    requires Reachable(s) && Possible(evs) && HasTask(s, i, n) && NotRenewed(s, evs, i, n)
    requires s.heap[i].tasks[n].assignedRuntimeID == ""
    ensures HasTask(Execute(s, evs), i, n) && Execute(s, evs).heap[i].tasks[n].assignedRuntimeID == ""
    decreases |evs|
  {
    hide Inv, Reachable, Step, Enabled, Renews;
    if evs != [] {
      var init := evs[..|evs| - 1];
      forall k | 0 <= k < |init| ensures !Renews(Execute(s, init[..k]), init[k], i, n) { assert init[..k] == evs[..k]; }
      FreeUntilRenewed(s, init, i, n);
      ExecuteReachable(s, init);
      ReachableInv(Execute(s, init));
      FreeStep(Execute(s, init), evs[|evs| - 1], i, n);
    }
  }

  lemma ExecuteConcat(s: State, a: seq<Event>, b: seq<Event>)
    ensures Execute(s, a + b) == Execute(Execute(s, a), b)
    decreases |b|
  {
    hide Step;
    if b == [] {
      assert a + b == a;
    } else {
      ExecuteConcat(s, a, b[..|b| - 1]);
      assert (a + b)[..|a + b| - 1] == a + b[..|b| - 1];
    }
  }

  lemma ExecuteReachable(s: State, evs: seq<Event>)
    requires Reachable(s) && Possible(evs)
    ensures Reachable(Execute(s, evs))
  {
    hide Step, Enabled, Execute;
    var backend, maxAttempts, retryDelay, pre :| Possible(pre) && s == Execute(Initial(backend, maxAttempts, retryDelay), pre);
    ExecuteConcat(Initial(backend, maxAttempts, retryDelay), pre, evs);
    assert Possible(pre + evs);
  }

  /** A retry forgets the runtime that failed: nobody holds the step until a renewal of the new attempt takes effect. */
  lemma RetryForgetsOwner(s: State, ev: Event, evs: seq<Event>, i: nat, n: string)
    requires Reachable(s) && Enabled(ev) && Possible(evs) && Strikes(s, ev, i, n)
    requires s.heap[i].tasks[n].attempts < s.heap[i].tasks[n].maxAttempts
    requires NotRenewed(Step(s, ev), evs, i, n)
    ensures var u := Execute(Step(s, ev), evs); HasTask(u, i, n) && u.heap[i].tasks[n].assignedRuntimeID == ""
  {
    hide Reachable, Step, Enabled, Execute, Strikes, NotRenewed, Possible;
    StruckTask(s, ev, i, n);
    RetriedIff(s, ev, i, n);
    StepReachable(s, ev);
    FreeUntilRenewed(Step(s, ev), evs, i, n);
  }

  lemma StruckTask(s: State, ev: Event, i: nat, n: string)
    requires Strikes(s, ev, i, n)
    ensures HasTask(s, i, n)
  {
  }

  lemma StepReachable(s: State, ev: Event)
    requires Reachable(s) && Enabled(ev)
    ensures Reachable(Step(s, ev))
  {
    hide Step, Enabled;
    ExecuteReachable(s, [ev]);
    assert [ev][..0] == [];
    assert Execute(s, [ev]) == Step(Execute(s, []), ev);
  }

  /** So any runtime may report the new attempt, unless the task or the router names another one. */
  lemma AnyRuntimeMayReport(s: State, ev: Event, evs: seq<Event>, i: nat, n: string, res: Result, routerOwner: string, now: int)
    requires Reachable(s) && Enabled(ev) && Possible(evs) && Strikes(s, ev, i, n)
    requires s.heap[i].tasks[n].attempts < s.heap[i].tasks[n].maxAttempts
    requires NotRenewed(Step(s, ev), evs, i, n)
    requires var u := Execute(Step(s, ev), evs);
      && Names(u, res.taskID, i, n) && InProgress(u.heap[i].tasks[n].status)
      && res.attempt == u.heap[i].tasks[n].attempts > 0
      && (u.heap[i].tasks[n].taskRuntimeID == "" || u.heap[i].tasks[n].taskRuntimeID == res.runtimeID)
      && (routerOwner == "" || routerOwner == res.runtimeID)
    ensures var u := Execute(Step(s, ev), evs);
      JudgeResult(u, res, routerOwner) == Applied && CompleteResult(u, res, routerOwner, now) != u
  {
    hide Reachable, Inv, Step, Enabled, Execute, Strikes, NotRenewed, Possible, CompleteResult, SplitTaskID;
    RetryForgetsOwner(s, ev, evs, i, n);
    StepReachable(s, ev);
    ExecuteReachable(Step(s, ev), evs);
    var u := Execute(Step(s, ev), evs);
    ReachableInv(u);
    OnlyCurrentResultsApply(u, res, routerOwner, now);
    ResultAt(u, res, routerOwner, now);
  }

  /*** Since when ***/

  /** The event is the start of an attempt of the step, a renewal that took effect, or its run's entry into the queue. */
  ghost predicate Touches(s: State, ev: Event, i: nat, n: string) {
    (Enters(ev) && i == |s.heap|) || Dispatches(s, ev, i, n) || Renews(s, ev, i, n)
  }

  /** When the step was last started, renewed or recovered. */
  ghost function LastTouch(s0: State, evs: seq<Event>, i: nat, n: string): Option<int> {
    if evs == [] then None
    else
      var init, ev := evs[..|evs| - 1], evs[|evs| - 1];
      if Touches(Execute(s0, init), ev, i, n) then TimeOf(ev) else LastTouch(s0, init, i, n)
  }

  lemma EnteredLease(s: State, ev: Event, n: string)
    requires Inv(s) && Enabled(ev) && Enters(ev) && HasTask(Step(s, ev), |s.heap|, n)
    requires InLease(Step(s, ev).heap[|s.heap|].tasks[n])
    ensures Step(s, ev).heap[|s.heap|].tasks[n].leaseAt == TimeOf(ev)
  {
    hide Inv, Step, Enabled, Incoming, JobsRel;
    EnteredRel(s, ev);
    var e, f := Incoming(s, ev).tasks[n], Step(s, ev).heap[|s.heap|].tasks[n];
    assert EntryRel(e, f, Locked(s.cfg.backend, TimeOf(ev)));
    if InLease(e) { IncomingLease(s, ev, n); }
  }

  lemma IncomingLease(s: State, ev: Event, n: string)
    requires Enters(ev) && n in Incoming(s, ev).tasks && InLease(Incoming(s, ev).tasks[n])
    ensures Incoming(s, ev).tasks[n].leaseAt == TimeOf(ev)
  {
    hide ByName, BuildTasks, RecoverTasks;
    match ev
    case Add(_, _, steps, _) => var k := BuildTasksFrom(steps, s.cfg.maxAttempts, n);
    case Recover(_, _, steps, recovered, now) => var k := RecoverTasksFrom(steps, ByName(recovered), s.cfg.maxAttempts, now, n);
  }

  lemma LeaseStep(s: State, ev: Event, i: nat, n: string)
    requires Reachable(s) && Inv(s) && Enabled(ev) && HasTask(s, i, n) && HasTask(Step(s, ev), i, n)
    requires InLease(Step(s, ev).heap[i].tasks[n])
    ensures var e, f := s.heap[i].tasks[n], Step(s, ev).heap[i].tasks[n];
      if Dispatches(s, ev, i, n) || Renews(s, ev, i, n) then f.leaseAt == TimeOf(ev) else InLease(e) && f.leaseAt == e.leaseAt
  {
    hide Inv, Reachable, Step, Enabled, JobsRel, Dispatches, NamedAmong, MayHold;
    EachChange(s, ev, i, n);
    if ev.RenewLeases? {
      RenewalIff(s, ev, i, n);
      assert !Dispatches(s, ev, i, n) by { RenewalStartsNothing(s, ev, i, n); }
    } else {
      StepKeepsHistory(s, ev);
      assert RunRel(s.heap[i], Step(s, ev).heap[i], ModeOf(s, ev).(moves := true));
      assert EntryRel(s.heap[i].tasks[n], Step(s, ev).heap[i].tasks[n], ModeOf(s, ev).(moves := true));
    }
  }

  lemma RenewalStartsNothing(s: State, ev: Event, i: nat, n: string)
    requires ev.RenewLeases?
    ensures !Dispatches(s, ev, i, n)
  {
  }

  /** In every execution, the lease of a running or recovering step dates from when it was last started, renewed or recovered. */
  lemma {:induction false} LeaseIsLastTouch(backend: bool, maxAttempts: int, retryDelay: int, evs: seq<Event>, i: nat, n: string)
    requires Possible(evs)
    requires var s := Execute(Initial(backend, maxAttempts, retryDelay), evs); HasTask(s, i, n) && InLease(s.heap[i].tasks[n])
    ensures var s0 := Initial(backend, maxAttempts, retryDelay);
      LastTouch(s0, evs, i, n).Some? && Execute(s0, evs).heap[i].tasks[n].leaseAt == LastTouch(s0, evs, i, n)
    decreases |evs|
  {
    hide Inv, Step, Enabled, Reachable, Dispatches, Renews;
    var s0 := Initial(backend, maxAttempts, retryDelay);
    if evs != [] {
      var init, ev := evs[..|evs| - 1], evs[|evs| - 1];
      var s := Execute(s0, init);
      assert Reachable(s) by { RunsAreReachable(backend, maxAttempts, retryDelay, init); }
      assert Reachable(Execute(s0, evs)) by { RunsAreReachable(backend, maxAttempts, retryDelay, evs); }
      ReachableInv(s);
      HeapGrows(s, ev);
      if i < |s.heap| {
        StepKeepsHistory(s, ev);
        assert RunRel(s.heap[i], Step(s, ev).heap[i], ModeOf(s, ev).(moves := true));
        LeaseStep(s, ev, i, n);
        if !Dispatches(s, ev, i, n) && !Renews(s, ev, i, n) { LeaseIsLastTouch(backend, maxAttempts, retryDelay, init, i, n); }
      } else {
        EnteredLease(s, ev, n);
      }
      IdleIsFree(Execute(s0, evs), i, n);
    }
  }

  lemma RunsAreReachable(backend: bool, maxAttempts: int, retryDelay: int, evs: seq<Event>)
    requires Possible(evs)
    ensures Reachable(Execute(Initial(backend, maxAttempts, retryDelay), evs))
  {
    hide Execute;
  }

  /*** Cleanup ***/

  /** One running or recovering step of the tracked run has a lease from before the cutoff. */
  predicate HasOldLease(s: State, cutoff: int, i: nat) {
    && Tracked(s, i)
    && exists n :: n in s.heap[i].tasks && (s.heap[i].tasks[n].status.Running? || s.heap[i].tasks[n].status.Recovering?)
                   && s.heap[i].tasks[n].leaseAt.Some? && s.heap[i].tasks[n].leaseAt.value < cutoff
  }

  /** The run closed as expired: its open steps fail, the others stay as they are. */
  predicate ExpiredAs(r: RunEntry, t: RunEntry) {
    && t == r.(closing := Expired, tasks := t.tasks) && t.tasks.Keys == r.tasks.Keys
    && (forall n :: n in r.tasks && Terminal(r.tasks[n].status) ==> t.tasks[n] == r.tasks[n])
    && (forall n :: n in r.tasks && !Terminal(r.tasks[n].status) ==>
          t.tasks[n].status.Failed? && t.tasks[n].leaseAt.None? && t.tasks[n].retries == r.tasks[n].retries)
  }

  lemma CleanupAs(s: State, cutoff: int, i: nat)
    requires Struct(s) && i < |s.heap|
    ensures var t := CleanupState(s, cutoff);
      && |t.heap| == |s.heap|
      && (Tracked(t, i) <==> Tracked(s, i) && !HasOldLease(s, cutoff, i))
      && if HasOldLease(s, cutoff, i) then ExpiredAs(s.heap[i], t.heap[i]) else t.heap[i] == s.heap[i]
  {
    hide Finish;
    CleanupTracks(s, cutoff, i);
    StaleExpires(s, cutoff, i);
    assert Stale(s, cutoff, i) <==> HasOldLease(s, cutoff, i) by { StaleIs(s, cutoff, i); }
    forall n | n in s.heap[i].tasks && !Terminal(s.heap[i].tasks[n].status)
      ensures Finish(s.heap[i].tasks[n], Failed).status.Failed? && Finish(s.heap[i].tasks[n], Failed).leaseAt.None?
      ensures Finish(s.heap[i].tasks[n], Failed).retries == s.heap[i].tasks[n].retries
    {
      EndedAs(s.heap[i].tasks[n], Failed);
    }
  }

  lemma CleanupAll(s: State, cutoff: int)
    requires Struct(s)
    ensures var t := CleanupState(s, cutoff);
      && |t.heap| == |s.heap|
      && forall i :: 0 <= i < |s.heap| ==>
           if HasOldLease(s, cutoff, i) then !Tracked(t, i) && ExpiredAs(s.heap[i], t.heap[i])
           else t.heap[i] == s.heap[i] && (Tracked(t, i) <==> Tracked(s, i))
  {
    var t := CleanupState(s, cutoff);
    assert |t.heap| == |s.heap|;
    hide CleanupState, Struct;
    forall i | 0 <= i < |s.heap|
      ensures if HasOldLease(s, cutoff, i) then !Tracked(t, i) && ExpiredAs(s.heap[i], t.heap[i])
              else t.heap[i] == s.heap[i] && (Tracked(t, i) <==> Tracked(s, i))
    {
      CleanupAs(s, cutoff, i);
    }
  }

  lemma StaleIs(s: State, cutoff: int, i: nat)
    ensures Stale(s, cutoff, i) <==> HasOldLease(s, cutoff, i)
  {
    if Tracked(s, i) {
      assert forall n :: n in s.heap[i].tasks ==> (OldLease(s.heap[i].tasks[n], cutoff) <==>
        && (s.heap[i].tasks[n].status.Running? || s.heap[i].tasks[n].status.Recovering?)
        && s.heap[i].tasks[n].leaseAt.Some? && s.heap[i].tasks[n].leaseAt.value < cutoff);
    }
  }

  /**
   Cleanup closes a tracked run as expired exactly if one of its running or recovering steps has a lease from before
   the cutoff: its open steps fail, the others and every other run stay as they are.
   */
  lemma CleanupClosesIff(s: State, cutoff: int, i: nat)
    requires Reachable(s) && i < |s.heap|
    ensures |Step(s, Cleanup(cutoff)).heap| == |s.heap|
    ensures var r, t := s.heap[i], Step(s, Cleanup(cutoff)).heap[i];
      var stale := Tracked(s, i) && exists n :: n in r.tasks && (r.tasks[n].status.Running? || r.tasks[n].status.Recovering?)
                                                && r.tasks[n].leaseAt.Some? && r.tasks[n].leaseAt.value < cutoff;
      && (Tracked(Step(s, Cleanup(cutoff)), i) <==> Tracked(s, i) && !stale)
      && (!stale ==> t == r)
      && (stale ==>
            && t == r.(closing := Expired, tasks := t.tasks) && t.tasks.Keys == r.tasks.Keys
            && (forall n :: n in r.tasks && Terminal(r.tasks[n].status) ==> t.tasks[n] == r.tasks[n])
            && (forall n :: n in r.tasks && !Terminal(r.tasks[n].status) ==>
                  t.tasks[n].status.Failed? && t.tasks[n].leaseAt.None? && t.tasks[n].retries == r.tasks[n].retries))
  {
    hide Reachable, Inv, CleanupState;
    ReachableInv(s);
    StructOf(s);
    hide Struct;
    CleanupAs(s, cutoff, i);
  }

  lemma CleanupTracks(s: State, cutoff: int, i: nat)
    requires Struct(s) && i < |s.heap|
    ensures Tracked(CleanupState(s, cutoff), i) <==> Tracked(s, i) && !Stale(s, cutoff, i)
  {
    hide Finish, ExpireTasks;
    StaleExpires(s, cutoff, i);
    var t := CleanupState(s, cutoff);
    assert t.heap[i].runID == s.heap[i].runID;
  }

  /**
   So a run survives Cleanup exactly if each of its steps in the backend or recovering was last started, renewed or recovered
   at or after the cutoff.
   */
  lemma CleanupByLastTouch(backend: bool, maxAttempts: int, retryDelay: int, evs: seq<Event>, cutoff: int, i: nat)
    requires Possible(evs) && Tracked(Execute(Initial(backend, maxAttempts, retryDelay), evs), i)
    ensures var s0 := Initial(backend, maxAttempts, retryDelay);
      var s := Execute(s0, evs);
      Tracked(Step(s, Cleanup(cutoff)), i) <==>
        forall n :: n in s.heap[i].tasks && (s.heap[i].tasks[n].status.Running? || s.heap[i].tasks[n].status.Recovering?) ==>
          LastTouch(s0, evs, i, n).Some? && LastTouch(s0, evs, i, n).value >= cutoff
  {
    hide Step, Execute, LastTouch, Reachable, Possible;
    var s0 := Initial(backend, maxAttempts, retryDelay);
    var s := Execute(s0, evs);
    RunsAreReachable(backend, maxAttempts, retryDelay, evs);
    CleanupClosesIff(s, cutoff, i);
    forall n | n in s.heap[i].tasks && (s.heap[i].tasks[n].status.Running? || s.heap[i].tasks[n].status.Recovering?)
      ensures LastTouch(s0, evs, i, n).Some? && s.heap[i].tasks[n].leaseAt == LastTouch(s0, evs, i, n)
    {
      LeaseIsLastTouch(backend, maxAttempts, retryDelay, evs, i, n);
    }
  }
}
