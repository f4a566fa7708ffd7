/** Every event keeps the invariant of the queue. */
module QueueSteps {
  import opened Options
  import opened Tasks
  import opened Graph
  import opened Runs
  import opened TaskIDs
  import opened QueueSpec
  import opened QueueInv

  /*** Cancel and cleanup ***/

  /** Ending the remaining entries by force leaves what was done as it is. */
  lemma ForcedStarted(r: RunEntry, t: RunEntry)
    requires StartedOk(r) && t.source == r.source && t.tasks.Keys == r.tasks.Keys
    requires forall n :: n in r.tasks ==>
      SameStep(r.tasks[n], t.tasks[n]) && t.tasks[n].starts == r.tasks[n].starts && Terminal(t.tasks[n].status)
    requires forall n :: n in r.tasks && r.tasks[n].status.Done? ==> t.tasks[n] == r.tasks[n]
    ensures forall c :: StartedOk(t.(closing := c))
  {
    forall c, n | r.source.Added? && n in t.tasks && t.tasks[n].starts > 0
      ensures DepsDone(t.(closing := c).tasks, t.tasks[n].dependsOn)
    {
      assert DepsDone(r.tasks, r.tasks[n].dependsOn);
    }
  }

  /** What CancelEntry and the expiry sweep do to an entry that is not terminal. */
  lemma ForcedEntry(e: Entry, backend: bool, alive: bool)
    requires EntryInv(e, backend, alive) && !Terminal(e.status)
    ensures EntryInv(CancelEntry(e), backend, alive) && SameStep(e, CancelEntry(e))
    ensures Terminal(CancelEntry(e).status) && CancelEntry(e).starts == e.starts
    ensures EntryInv(Finish(e, Failed), backend, alive) && SameStep(e, Finish(e, Failed))
    ensures Terminal(Finish(e, Failed).status) && Finish(e, Failed).starts == e.starts
  {
    Tasks.CancelInv(e, backend, alive);
    FinishInv(e, Failed, backend, alive);
  }

  lemma CancelRunGood(r: RunEntry, backend: bool, alive: bool)
    requires GoodRun(r, backend, alive) && !r.closing.Overwritten?
    ensures var t := r.(tasks := CancelTasks(r.tasks));
      AllTerminal(t) && GoodRun(t.(closing := CanceledRun), backend, alive)
  {
    hide RunInv, StartedOk, EntryInv, CancelEntry;
    var t := r.(tasks := CancelTasks(r.tasks));
    forall n | n in r.tasks
      ensures Terminal(t.tasks[n].status) && EntryInv(t.tasks[n], backend, alive)
      ensures SameStep(r.tasks[n], t.tasks[n]) && t.tasks[n].starts == r.tasks[n].starts
    {
      assert EntryInv(r.tasks[n], backend, Awake(r, alive));
      if !Terminal(r.tasks[n].status) { ForcedEntry(r.tasks[n], backend, alive); }
    }
    ForcedStarted(r, t);
  }

  lemma CancelInv(s: State, runID: string)
    requires Inv(s)
    ensures Inv(CancelState(s, runID))
  {
    hide GoodRun;
    StructOf(s);
    if runID in s.runs {
      var i := s.runs[runID];
      assert Tracked(s, i);
      CancelRunGood(s.heap[i], s.cfg.backend, s.alive);
      CloseRunInv(s, i, s.heap[i].(tasks := CancelTasks(s.heap[i].tasks)), CanceledRun);
    }
  }

  lemma ExpireRunGood(r: RunEntry, backend: bool, alive: bool)
    requires GoodRun(r, backend, alive) && !r.closing.Overwritten?
    ensures var t := r.(tasks := ExpireTasks(r.tasks));
      AllTerminal(t) && GoodRun(t.(closing := Expired), backend, alive)
  {
    hide RunInv, StartedOk, EntryInv, Finish;
    var t := r.(tasks := ExpireTasks(r.tasks));
    forall n | n in r.tasks
      ensures Terminal(t.tasks[n].status) && EntryInv(t.tasks[n], backend, alive)
      ensures SameStep(r.tasks[n], t.tasks[n]) && t.tasks[n].starts == r.tasks[n].starts
    {
      assert EntryInv(r.tasks[n], backend, Awake(r, alive));
      if !Terminal(r.tasks[n].status) { ForcedEntry(r.tasks[n], backend, alive); }
    }
    ForcedStarted(r, t);
  }

  lemma ExpiredIsTerminal(tasks: map<string, Entry>)
    ensures forall n :: n in tasks ==> Terminal(ExpireTasks(tasks)[n].status)
  {
    hide StopTimer;
  }

  lemma CleanupStruct(s: State, cutoff: int)
    requires Struct(s)
    ensures Struct(CleanupState(s, cutoff))
  {
    var t := CleanupState(s, cutoff);
    assert |t.heap| == |s.heap|;
    assert forall i :: 0 <= i < |s.heap| ==> t.heap[i].runID == s.heap[i].runID;
    forall i | 0 <= i < |t.heap|
      ensures Tracked(t, i) <==> t.heap[i].closing.Open?
      ensures !Tracked(t, i) ==> t.heap[i].closing.Overwritten? || AllTerminal(t.heap[i])
    {
      assert Tracked(s, i) <==> s.heap[i].closing.Open?;
      ExpiredIsTerminal(s.heap[i].tasks);
    }
  }

  lemma TrackedOpen(s: State)
    requires Inv(s)
    ensures forall i: nat :: Tracked(s, i) ==> s.heap[i].closing.Open?
  {
  }

  lemma CleanupInv(s: State, cutoff: int)
    requires Inv(s)
    ensures Inv(CleanupState(s, cutoff))
  {
    hide GoodRun, ExpireTasks, Struct;
    TrackedOpen(s);
    forall i | 0 <= i < |s.heap| && Expires(s, i, cutoff)
      ensures GoodRun(s.heap[i].(tasks := ExpireTasks(s.heap[i].tasks), closing := Expired), s.cfg.backend, s.alive)
    {
      ExpireRunGood(s.heap[i], s.cfg.backend, s.alive);
    }
    CleanupStruct(s, cutoff);
  }

  /*** Leases ***/

  lemma RenewEntryInv(e: Entry, runtimeID: string, now: int, backend: bool, alive: bool)
    requires EntryInv(e, backend, alive)
    ensures EntryInv(RenewEntry(e, runtimeID, now), backend, alive) && Gentle(e, RenewEntry(e, runtimeID, now))
  {
    var f := RenewEntry(e, runtimeID, now);
    if e.status.Running? {
      assert f.jobs == e.jobs;
    }
  }

  lemma RenewOneInv(s: State, runtimeID: string, taskID: string, now: int)
    requires Inv(s)
    ensures Inv(RenewOne(s, runtimeID, taskID, now))
  {
    hide RenewEntry, EntryInv;
    var id := SplitTaskID(taskID);
    if id.Some? && id.value.0 in s.runs && HasTask(s, s.runs[id.value.0], id.value.1) {
      var i, n := s.runs[id.value.0], id.value.1;
      EntryOf(s, i, n);
      RenewEntryInv(s.heap[i].tasks[n], runtimeID, now, s.cfg.backend, Awake(s.heap[i], s.alive));
      GentleInv(s, i, n, RenewEntry(s.heap[i].tasks[n], runtimeID, now));
    }
  }

  lemma {:induction false} RenewAllInv(s: State, runtimeID: string, taskIDs: seq<string>, now: int)
    requires Inv(s)
    ensures Inv(RenewAll(s, runtimeID, taskIDs, now))
    decreases |taskIDs|
  {
    hide Inv, RenewOne;
    if taskIDs != [] {
      RenewAllInv(s, runtimeID, taskIDs[..|taskIDs| - 1], now);
      RenewOneInv(RenewAll(s, runtimeID, taskIDs[..|taskIDs| - 1], now), runtimeID, taskIDs[|taskIDs| - 1], now);
    }
  }

  /*** Results ***/

  lemma EntryOf(s: State, i: nat, n: string)
    requires Inv(s) && HasTask(s, i, n)
    ensures EntryInv(s.heap[i].tasks[n], s.cfg.backend, Awake(s.heap[i], s.alive))
  {
    assert GoodRun(s.heap[i], s.cfg.backend, s.alive);
  }

  /** An applied result with a sane attempt hits an entry that is in progress on that very attempt. */
  lemma AppliedMeansInProgress(s: State, res: Result, routerOwner: string)
    requires Inv(s) && res.attempt >= 0 && JudgeResult(s, res, routerOwner) == Applied
    ensures var (runID, n) := SplitTaskID(res.taskID).value;
      && HasTask(s, s.runs[runID], n)
      && InProgress(s.heap[s.runs[runID]].tasks[n].status)
      && s.heap[s.runs[runID]].tasks[n].attempts > 0
      && Adopt(s.heap[s.runs[runID]].tasks[n], res) == s.heap[s.runs[runID]].tasks[n]
  {
    var (runID, n) := SplitTaskID(res.taskID).value;
    EntryOf(s, s.runs[runID], n);
    var e := s.heap[s.runs[runID]].tasks[n];
    AppliedIff(e, res, routerOwner);
  }

  lemma CompleteInv(s: State, res: Result, routerOwner: string, now: int)
    requires Inv(s) && res.attempt >= 0
    ensures Inv(CompleteResult(s, res, routerOwner, now))
  {
    if JudgeResult(s, res, routerOwner) == Applied {
      AppliedMeansInProgress(s, res, routerOwner);
      var (runID, n) := SplitTaskID(res.taskID).value;
      var i := s.runs[runID];
      CompleteAt(s, i, n, res, now);
    }
  }

  lemma CompleteAt(s: State, i: nat, n: string, res: Result, now: int)
    requires Inv(s) && HasTask(s, i, n) && Tracked(s, i) && InProgress(s.heap[i].tasks[n].status)
    requires Adopt(s.heap[i].tasks[n], res) == s.heap[i].tasks[n] && s.heap[i].tasks[n].attempts > 0
    ensures var t := SetEntry(s, i, n, Adopt(s.heap[i].tasks[n], res));
      Inv(if res.done then CompleteDone(t, i, n, now) else FailOrRetry(t, i, n, now))
  {
    hide Inv, CompleteDone, FailOrRetry, Adopt, SetEntry, EntryInv;
    var f := s.heap[i].tasks[n];
    BooksOf(s, i, n);
    if res.done { DoneStepInv(s, i, n, f, now); } else { FailStepInv(s, i, n, f, now); }
  }

  lemma BooksOf(s: State, i: nat, n: string)
    requires Inv(s) && HasTask(s, i, n)
    ensures HandleOk(s.heap[i].tasks[n]) && Accounted(s.heap[i].tasks[n])
  {
    EntryOf(s, i, n);
  }

  /*** Jobs ***/

  lemma MoveJobInv(s: State, i: nat, n: string, j: nat, p: Phase)
    requires Inv(s) && HasJob(s, i, n, j)
    requires var e, kind := s.heap[i].tasks[n], s.heap[i].tasks[n].jobs[j].kind;
      Needs(e, s.cfg.backend) != Some(kind) || !Awake(s.heap[i], s.alive) || p.Waiting? || p.Active?
      || !(e.jobs[j].phase.Waiting? || e.jobs[j].phase.Active?)
    ensures Inv(MoveJob(s, i, n, j, p))
  {
    hide Inv, EntryInv;
    var e := s.heap[i].tasks[n];
    EntryOf(s, i, n);
    SetPhaseInv(e, j, p, s.cfg.backend, Awake(s.heap[i], s.alive));
    GentleInv(s, i, n, SetPhase(e, j, p));
  }

  lemma DropHandleInv(s: State, i: nat, n: string)
    requires Inv(s) && HasTask(s, i, n)
    ensures Inv(SetEntry(s, i, n, s.heap[i].tasks[n].(timer := None)))
  {
    var e := s.heap[i].tasks[n];
    EntryOf(s, i, n);
    DropHandleEntry(e, s.cfg.backend, Awake(s.heap[i], s.alive));
    GentleInv(s, i, n, e.(timer := None));
  }

  lemma DropHandleEntry(e: Entry, backend: bool, alive: bool)
    requires EntryInv(e, backend, alive)
    ensures EntryInv(e.(timer := None), backend, alive)
  {
    if alive && Needs(e, backend).Some? {
      var f := e.(timer := None);
      assert f.jobs == e.jobs;
    }
  }

  /** The entry as a callback that acts on it finds it: its own job flushing, its handle dropped. */
  function Fired(e: Entry, j: nat): Entry
    requires j < |e.jobs|
  {
    SetPhase(e, j, Flushing).(timer := None)
  }

  lemma FiredBooks(e: Entry, j: nat)
    requires HandleOk(e) && Accounted(e) && j < |e.jobs|
    ensures HandleOk(Fired(e, j)) && Accounted(Fired(e, j)) && SameStep(e, Fired(e, j))
    ensures Fired(e, j).status == e.status
  {
    assert forall k :: 0 <= k < |e.jobs| ==>
      Fired(e, j).jobs[k].kind == e.jobs[k].kind && Fired(e, j).jobs[k].attempt == e.jobs[k].attempt;
  }

  lemma FailingCallbackInv(s: State, i: nat, n: string, j: nat, now: int)
    requires Inv(s) && HasJob(s, i, n, j) && InProgress(s.heap[i].tasks[n].status)
    requires s.heap[i].runID in s.runs
    ensures Inv(DeadlinePassed(MoveJob(s, i, n, j, Flushing), i, n, now))
  {
    hide Inv, Accounted, FailOrRetry, FailLost, HandleOk;
    var e, t := s.heap[i].tasks[n], MoveJob(s, i, n, j, Flushing);
    BooksOf(s, i, n);
    FiredBooks(e, j);
    SetEntryTwice(s, i, n, SetPhase(e, j, Flushing), Fired(e, j));
    IndexedBy(s, s.heap[i].runID);
    var k := s.runs[s.heap[i].runID];
    TrackedIfUnfinished(s, i, n);
    if k == i {
      FailStepInv(s, i, n, Fired(e, j), now);
    } else {
      LostStepInv(s, k, i, n, Fired(e, j), now);
    }
  }

  lemma IndexedBy(s: State, runID: string)
    requires Inv(s)
    ensures runID in s.runs ==> s.runs[runID] < |s.heap| && s.heap[s.runs[runID]].runID == runID && Tracked(s, s.runs[runID])
  {
  }

  lemma DispatchSameStep(e: Entry, backend: bool, now: int)
    ensures SameStep(e, Dispatch(e, backend, now))
  {
  }

  /** A requeue or retry callback that puts the entry back to work. */
  lemma RedispatchInv(s: State, i: nat, n: string, j: nat, now: int)
    requires Inv(s) && HasJob(s, i, n, j)
    requires var st := s.heap[i].tasks[n].status; st.Ready? || st.Retrying?
    ensures var t := MoveJob(s, i, n, j, Flushing);
      Inv(SetEntry(t, i, n, Dispatch(Transition(t.heap[i].tasks[n].(timer := None), Ready), s.cfg.backend, now)))
  {
    hide Inv, EntryInv, Dispatch;
    var e := s.heap[i].tasks[n];
    BooksOf(s, i, n);
    FiredBooks(e, j);
    var c := Transition(Fired(e, j), Ready);
    var f := Dispatch(c, s.cfg.backend, now);
    DispatchInv(c, s.cfg.backend, Awake(s.heap[i], s.alive), now);
    DispatchSameStep(c, s.cfg.backend, now);
    SetEntryTwice(s, i, n, SetPhase(e, j, Flushing), f);
    GentleInv(s, i, n, f);
  }

  /** A deadline that finds no run of its ID belongs to an overwritten run. */
  lemma UnfoundIsLost(s: State, i: nat, n: string)
    requires Inv(s) && HasTask(s, i, n) && InProgress(s.heap[i].tasks[n].status) && s.heap[i].runID !in s.runs
    ensures !Awake(s.heap[i], s.alive)
  {
    TrackedIfUnfinished(s, i, n);
  }

  lemma TimerBodyInv(s: State, i: nat, n: string, j: nat, now: int)
    requires Inv(s) && JobIn(s, i, n, j, Active) && !IsDispatch(s, i, n, j)
    ensures Inv(Callback(MoveJob(s, i, n, j, Flushing), i, n, s.heap[i].tasks[n].jobs[j].kind, now))
  {
    hide Inv, FailOrRetry, FailLost, Dispatch, Awake;
    var e, kind := s.heap[i].tasks[n], s.heap[i].tasks[n].jobs[j].kind;
    var t := MoveJob(s, i, n, j, Flushing);
    assert t.heap[i].tasks[n] == SetPhase(e, j, Flushing);
    var due := (kind.Timeout? && s.alive && e.status.Running?) || (kind.Grace? && s.alive && e.status.Recovering?);
    if due && s.heap[i].runID in s.runs {
      FailingCallbackInv(s, i, n, j, now);
    } else if (kind.Requeue? && s.alive && e.status.Ready?) || (kind.Retry? && e.status.Retrying?) {
      assert e.status.Ready? ==> Transition(t.heap[i].tasks[n].(timer := None), Ready) == t.heap[i].tasks[n].(timer := None);
      RedispatchInv(s, i, n, j, now);
    } else {
      if due { UnfoundIsLost(s, i, n); }
      if !s.alive { Asleep(s.heap[i], s.alive); }
      MoveJobInv(s, i, n, j, Flushing);
      if kind.Requeue? {
        DropHandleInv(t, i, n);
      }
    }
  }

  lemma Asleep(r: RunEntry, alive: bool)
    requires !alive
    ensures !Awake(r, alive)
  {
  }

  lemma RequeuedInv(s: State, runID: string, n: string, from: nat)
    requires Inv(s) && HasTask(s, from, n)
    requires s.heap[from].tasks[n].starts > 0
    ensures Inv(Requeued(s, runID, n, from))
  {
    hide Inv, EntryInv, BusyRequeue;
    if runID in s.runs && HasTask(s, s.runs[runID], n) && s.heap[s.runs[runID]].tasks[n].status.Running? {
      var i := s.runs[runID];
      var e := s.heap[i].tasks[n];
      EntryOf(s, i, n);
      BusyRequeueInv(e, i != from, s.cfg.backend, Awake(s.heap[i], s.alive));
      BusySameStep(e, i != from);
      GentleInv(s, i, n, BusyRequeue(e, i != from));
    }
  }

  lemma BusySameStep(e: Entry, foreign: bool)
    ensures SameStep(e, BusyRequeue(e, foreign))
  {
  }

  lemma DispatchReturnsInv(s: State, i: nat, n: string, j: nat, reply: Reply, routerOwner: string, now: int)
    requires Inv(s) && JobIn(s, i, n, j, Active) && IsDispatch(s, i, n, j)
    ensures Inv(DispatchDone(MoveJob(s, i, n, j, Flushing), i, n, s.heap[i].tasks[n].jobs[j].attempt, reply, routerOwner, now))
  {
    hide Inv, CompleteResult, Requeued;
    var t := MoveJob(s, i, n, j, Flushing);
    var e := s.heap[i].tasks[n];
    BooksOf(s, i, n);
    assert e.starts > 0 && e.jobs[j].attempt > 0;
    MoveJobInv(s, i, n, j, Flushing);
    match reply
    case Accepted =>
    case Busy => RequeuedInv(t, t.heap[i].runID, n, i);
    case Refused(runtimeID) =>
      CompleteInv(t, Result(MakeTaskID(t.heap[i].runID, n), runtimeID, false, e.jobs[j].attempt), routerOwner, now);
  }

  /*** Whole runs ***/

  /**
   What the environment promises: runs enter with a topological order (the callers build a DAG
   first), persisted attempt counts and reported attempts are not negative.
   */
  predicate Enabled(ev: Event) {
    match ev
    case Add(_, order, steps, _) => ValidOrder(order, steps)
    case Recover(_, order, steps, recovered, _) =>
      ValidOrder(order, steps) && forall k :: 0 <= k < |recovered| ==> recovered[k].attempts >= 0
    case Complete(res, _, _) => res.attempt >= 0
    case _ => true
  }

  lemma ShutdownInv(s: State)
    requires Inv(s)
    ensures Inv(s.(alive := false))
  {
    var t := s.(alive := false);
    assert forall i :: Tracked(t, i) <==> Tracked(s, i);
    forall i | 0 <= i < |s.heap| ensures GoodRun(s.heap[i], s.cfg.backend, false) {
      ShutdownRun(s.heap[i], s.cfg.backend, s.alive);
    }
  }

  lemma ShutdownRun(r: RunEntry, backend: bool, alive: bool)
    requires GoodRun(r, backend, alive)
    ensures GoodRun(r, backend, false)
  {
    hide Core, PendingWaits;
    assert forall n :: n in r.tasks ==> EntryInv(r.tasks[n], backend, Awake(r, alive));
  }

  lemma PolicyInv(s: State, m: int, d: int)
    requires Inv(s)
    ensures Inv(s.(cfg := s.cfg.(maxAttempts := if m < 1 then 1 else m, retryDelay := d)))
  {
    hide GoodRun;
    var t := s.(cfg := s.cfg.(maxAttempts := if m < 1 then 1 else m, retryDelay := d));
    assert forall i :: Tracked(t, i) <==> Tracked(s, i);
  }

  lemma StepKeepsInv(s: State, ev: Event)
    requires Inv(s) && Enabled(ev)
    ensures Inv(Step(s, ev))
  {
    hide Inv, Callback, DispatchDone, AddRun, RecoverRun, CompleteResult, CancelState, CleanupState, RenewAll, MoveJob;
    match ev
    case Add(runID, order, steps, now) => AddInv(s, runID, order, steps, now);
    case Recover(runID, order, steps, recovered, now) => RecoverInv(s, runID, order, steps, recovered, now);
    case Complete(res, owner, now) => CompleteInv(s, res, owner, now);
    case Cancel(runID) => CancelInv(s, runID);
    case RenewLeases(runtimeID, taskIDs, now) => RenewAllInv(s, runtimeID, taskIDs, now);
    case Cleanup(cutoff) => CleanupInv(s, cutoff);
    case SetRetryPolicy(m, d) => PolicyInv(s, m, d);
    case Shutdown => ShutdownInv(s);
    case TimerFires(i, n, j) =>
      if JobIn(s, i, n, j, Waiting) && !IsDispatch(s, i, n, j) { MoveJobInv(s, i, n, j, Active); }
    case TimerBody(i, n, j, now) =>
      if JobIn(s, i, n, j, Active) && !IsDispatch(s, i, n, j) { TimerBodyInv(s, i, n, j, now); }
    case DispatchCheck(i, n, j) =>
      if JobIn(s, i, n, j, Waiting) && IsDispatch(s, i, n, j) {
        MoveJobInv(s, i, n, j, if s.heap[i].tasks[n].status.Canceled? then Flushing else Active);
      }
    case DispatchReturns(i, n, j, reply, owner, now) =>
      if JobIn(s, i, n, j, Active) && IsDispatch(s, i, n, j) { DispatchReturnsInv(s, i, n, j, reply, owner, now); }
    case JobEnds(i, n, j) =>
      if JobIn(s, i, n, j, Flushing) { MoveJobInv(s, i, n, j, Finished); }
  }

  function Initial(backend: bool, maxAttempts: int, retryDelay: int): State {
    State([], map[], Config(backend, if maxAttempts < 1 then 1 else maxAttempts, retryDelay), true)
  }

  ghost function Execute(s: State, evs: seq<Event>): State {
    if evs == [] then s else Step(Execute(s, evs[..|evs| - 1]), evs[|evs| - 1])
  }

  predicate Possible(evs: seq<Event>) {
    forall k :: 0 <= k < |evs| ==> Enabled(evs[k])
  }

  ghost predicate Reachable(s: State) {
    exists backend, maxAttempts, retryDelay, evs ::
      && Possible(evs)
      && s == Execute(Initial(backend, maxAttempts, retryDelay), evs)
  }

  lemma {:induction false} ExecuteKeepsInv(s: State, evs: seq<Event>)
    requires Inv(s) && Possible(evs)
    ensures Inv(Execute(s, evs))
    decreases |evs|
  {
    hide Inv, Step, Enabled;
    if evs != [] {
      ExecuteKeepsInv(s, evs[..|evs| - 1]);
      StepKeepsInv(Execute(s, evs[..|evs| - 1]), evs[|evs| - 1]);
    }
  }

  lemma InitialKeepsInv(backend: bool, maxAttempts: int, retryDelay: int)
    ensures Inv(Initial(backend, maxAttempts, retryDelay))
  {
  }

  lemma ReachableInv(s: State)
    requires Reachable(s)
    ensures Inv(s)
  {
    hide Inv, Possible, Execute;
    var backend, maxAttempts, retryDelay, evs :|
      && Possible(evs)
      && s == Execute(Initial(backend, maxAttempts, retryDelay), evs);
    InitialKeepsInv(backend, maxAttempts, retryDelay);
    ExecuteKeepsInv(Initial(backend, maxAttempts, retryDelay), evs);
  }
}
