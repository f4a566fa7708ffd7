/** What a run enters the queue with: its steps as they were given, the policy in force, and nothing else. */
module QueueEntering {
  import opened Options
  import opened Tasks
  import opened Graph
  import opened Runs
  import opened TaskIDs
  import opened QueueSpec
  import opened QueueInv
  import opened QueueSteps
  import opened QueueHistory
  import opened QueueEnds

  /*** The policy ***/

  /** The last policy that was set, an attempt count below one standing for one. */
  function PolicyAfter(maxAttempts: int, retryDelay: int, evs: seq<Event>): (int, int) {
    if evs == [] then (if maxAttempts < 1 then 1 else maxAttempts, retryDelay)
    else
      var last := evs[|evs| - 1];
      if last.SetRetryPolicy? then (if last.maxAttempts < 1 then 1 else last.maxAttempts, last.retryDelay)
      else PolicyAfter(maxAttempts, retryDelay, evs[..|evs| - 1])
  }

  lemma PolicyStays(s: State, ev: Event)
    requires !ev.SetRetryPolicy?
    ensures Step(s, ev).cfg == s.cfg
  {
    hide MoveJob, Callback, DispatchDone, CompleteResult, RenewAll, CancelState, AddRun, RecoverRun;
    match ev
    case Add(_, _, _, _) => EnteredOne(s, ev);
    case Recover(_, _, _, _, _) => EnteredOne(s, ev);
    case Complete(res, owner, now) => CompleteFrame(s, res, owner, now);
    case Cancel(runID) => CancelPolicy(s, runID);
    case TimerFires(i, n, j) => if JobIn(s, i, n, j, Waiting) { MoveJobFrame(s, i, n, j, Active); }
    case DispatchCheck(i, n, j) =>
      if JobIn(s, i, n, j, Waiting) { MoveJobFrame(s, i, n, j, if s.heap[i].tasks[n].status.Canceled? then Flushing else Active); }
    case JobEnds(i, n, j) => if JobIn(s, i, n, j, Flushing) { MoveJobFrame(s, i, n, j, Finished); }
    case TimerBody(i, n, j, now) =>
      if JobIn(s, i, n, j, Active) {
        MoveJobFrame(s, i, n, j, Flushing);
        CallbackFrame(MoveJob(s, i, n, j, Flushing), i, n, s.heap[i].tasks[n].jobs[j].kind, now);
      }
    case DispatchReturns(i, n, j, reply, owner, now) =>
      if JobIn(s, i, n, j, Active) {
        MoveJobFrame(s, i, n, j, Flushing);
        DoneFrame(MoveJob(s, i, n, j, Flushing), i, n, s.heap[i].tasks[n].jobs[j].attempt, reply, owner, now);
      }
    case RenewLeases(runtimeID, taskIDs, now) => RenewAllFrame(s, runtimeID, taskIDs, now);
    case _ =>
  }

  lemma CancelPolicy(s: State, runID: string)
    ensures CancelState(s, runID).cfg == s.cfg
  {
    hide CancelTasks;
  }

  lemma {:induction false} PolicyInForce(backend: bool, maxAttempts: int, retryDelay: int, evs: seq<Event>)
    ensures var cfg := Execute(Initial(backend, maxAttempts, retryDelay), evs).cfg;
      && cfg.backend == backend && (cfg.maxAttempts, cfg.retryDelay) == PolicyAfter(maxAttempts, retryDelay, evs)
    decreases |evs|
  {
    if evs != [] {
      var init, ev := evs[..|evs| - 1], evs[|evs| - 1];
      PolicyInForce(backend, maxAttempts, retryDelay, init);
      if !ev.SetRetryPolicy? {
        hide Step;
        PolicyStays(Execute(Initial(backend, maxAttempts, retryDelay), init), ev);
      }
    }
  }

  /*** The steps ***/

  /** The step `n` was last given as: among steps of one name the last that counts wins. */
  predicate LastGiven(steps: seq<StepSpec>, n: string, all: bool, k: nat) {
    && k < |steps| && steps[k].name == n && (all || steps[k].encodes)
    && forall h :: k < h < |steps| && steps[h].name == n ==> !all && !steps[h].encodes
  }

  lemma {:induction false} BuiltFromLast(steps: seq<StepSpec>, maxAttempts: int, n: string) returns (k: nat)
    requires n in BuildTasks(steps, maxAttempts)
    ensures LastGiven(steps, n, false, k)
    ensures BuildTasks(steps, maxAttempts)[n] == NewEntry(steps[k].dependsOn, steps[k].timeout, maxAttempts)
    decreases |steps|
  {
    var last := |steps| - 1;
    if steps[last].encodes && steps[last].name == n {
      k := last;
    } else {
      k := BuiltFromLast(steps[..last], maxAttempts, n);
    }
  }

  lemma {:induction false} RestoredFromLast(steps: seq<StepSpec>, rec: map<string, RecoveredStep>, maxAttempts: int, now: int, n: string)
    returns (k: nat)
    requires n in RecoverTasks(steps, rec, maxAttempts, now)
    ensures LastGiven(steps, n, true, k)
    ensures var e := NewEntry(steps[k].dependsOn, steps[k].timeout, maxAttempts);
      RecoverTasks(steps, rec, maxAttempts, now)[n] == if n in rec then RecoverEntry(e, rec[n], now) else e
    decreases |steps|
  {
    var last := |steps| - 1;
    if steps[last].name == n {
      k := last;
    } else {
      k := RestoredFromLast(steps[..last], rec, maxAttempts, now, n);
    }
  }

  predicate LastRow(recovered: seq<RecoveredStep>, n: string, k: nat) {
    k < |recovered| && recovered[k].name == n && forall h :: k < h < |recovered| ==> recovered[h].name != n
  }

  lemma {:induction false} RowByName(recovered: seq<RecoveredStep>, n: string, k: nat)
    requires LastRow(recovered, n, k)
    ensures n in ByName(recovered) && ByName(recovered)[n] == recovered[k]
    decreases |recovered|
  {
    if k < |recovered| - 1 {
      RowByName(recovered[..|recovered| - 1], n, k);
    }
  }

  lemma {:induction false} RowsHaveNames(recovered: seq<RecoveredStep>, n: string)
    requires n in ByName(recovered)
    ensures exists k :: 0 <= k < |recovered| && recovered[k].name == n
    decreases |recovered|
  {
    var last := |recovered| - 1;
    if recovered[last].name != n {
      RowsHaveNames(recovered[..last], n);
      var k :| 0 <= k < last && recovered[..last][k].name == n;
      assert recovered[k].name == n;
    }
  }

  /** The entering step as it was given, under the policy in force. */
  predicate GivenAs(e: Entry, spec: StepSpec, cfg: Config) {
    && e.dependsOn == spec.dependsOn && e.timeout == spec.timeout && e.maxAttempts == cfg.maxAttempts
    && e.assignedRuntimeID == "" && e.taskRuntimeID == "" && e.retries == 0 && e.requeues == 0 && e.foreign == 0
  }

  /** A step that is pending on entry is handed over at once if nothing holds it up and there is a backend. */
  predicate FirstLook(e: Entry, r: RunEntry, cfg: Config, now: int) {
    e.origin.Fresh? &&
    if exists d :: d in e.dependsOn && !(d in r.tasks && r.tasks[d].status.Done?)
    then e.status.Pending? && e.attempts == 0 && e.jobs == []
    else if !cfg.backend then e.status.Ready? && e.attempts == 0 && e.jobs == []
    else e.status.Running? && e.attempts == 1 && e.starts == 1 && e.leaseAt == Some(now)
  }

  lemma PromoteNewAs(e: Entry, done: set<string>, backend: bool, now: int, spec: StepSpec, maxAttempts: int)
    requires e == NewEntry(spec.dependsOn, spec.timeout, maxAttempts)
    ensures var f := PromoteOne(e, done, backend, now);
      && GivenAs(f, spec, Config(backend, maxAttempts, 0)) && f.origin.Fresh?
      && if !DepsAllDone(e.dependsOn, done) then f == e
         else if !backend then f == e.(status := Ready)
         else f.status.Running? && f.attempts == 1 && f.starts == 1 && f.leaseAt == Some(now)
  {
  }

  /** Steps of an added run: each as it was last given to the queue. */
  lemma AddedAs(s: State, ev: Event, n: string) returns (k: nat)
    requires Reachable(s) && Enabled(ev) && ev.Add? && HasTask(Step(s, ev), |s.heap|, n)
    ensures LastGiven(ev.steps, n, false, k)
    ensures var r := Step(s, ev).heap[|s.heap|];
      && GivenAs(r.tasks[n], ev.steps[k], s.cfg)
      && r.runID == ev.runID && r.order == ev.order && r.source.Added? && r.strays == {} && Tracked(Step(s, ev), |s.heap|)
      && FirstLook(r.tasks[n], r, s.cfg, ev.now)
  {
    hide Reachable, PromoteOne, Displace, Inv, Enabled;
    ReachableInv(s);
    DisplaceInv(s, ev.runID);
    var tasks := BuildTasks(ev.steps, s.cfg.maxAttempts);
    assert |Displace(s, ev.runID).heap| == |s.heap| by { DisplaceLength(s, ev.runID); }
    assert Step(s, ev).heap[|s.heap|].tasks == PromoteReady(NewRun(ev.runID, ev.order, tasks, Added), s.cfg.backend, ev.now).tasks;
    k := BuiltFromLast(ev.steps, s.cfg.maxAttempts, n);
    assert forall d :: d in tasks ==> tasks[d].status.Pending? by {
      forall d | d in tasks ensures tasks[d].status.Pending? { var h := BuiltFromLast(ev.steps, s.cfg.maxAttempts, d); }
    }
    assert DoneNames(tasks) == {};
    PromoteNewAs(tasks[n], {}, s.cfg.backend, ev.now, ev.steps[k], s.cfg.maxAttempts);
    hide BuildTasks;
    forall d | d in Step(s, ev).heap[|s.heap|].tasks ensures !Step(s, ev).heap[|s.heap|].tasks[d].status.Done? {
      PromoteOneAs(tasks[d], {}, s.cfg.backend, ev.now);
    }
  }

  lemma DisplaceLength(s: State, runID: string)
    ensures |Displace(s, runID).heap| == |s.heap|
  {
  }

  /** The entry of a step with a recorded start, waiting for its owner. */
  predicate WaitsForOwner(e: Entry, attempts: int, now: int) {
    && e.status.Recovering? && e.origin.RecordedRunning? && e.attempts == attempts && e.starts == 0
    && e.leaseAt == Some(now) && e.jobs == [Job(Grace, attempts, Waiting)] && e.timer == Some(0)
  }

  lemma RestoredAs(e: Entry, rs: RecoveredStep, spec: StepSpec, maxAttempts: int, now: int)
    requires e == NewEntry(spec.dependsOn, spec.timeout, maxAttempts)
    ensures var f := RecoverEntry(e, rs, now);
      && GivenAs(f, spec, Config(true, maxAttempts, 0))
      && if rs.done then f.status.Done? && f.origin.RecordedDone? && f.starts == 0 && f.jobs == []
         else if rs.startedAt.Some? then WaitsForOwner(f, rs.attempts, now) else f == e
  {
  }

  /**
   Steps of a recovered run: done if their row says so, waiting for their owner if it only says that they were
   started, and otherwise let in like new ones.
   */
  lemma RecoveredAs(s: State, ev: Event, n: string) returns (k: nat)
    requires Reachable(s) && Enabled(ev) && ev.Recover? && HasTask(Step(s, ev), |s.heap|, n)
    ensures LastGiven(ev.steps, n, true, k)
    ensures var r := Step(s, ev).heap[|s.heap|];
      var e := r.tasks[n];
      && GivenAs(e, ev.steps[k], s.cfg) && r.runID == ev.runID && r.order == ev.order && r.source.Recovered?
      && (forall h: nat :: LastRow(ev.recovered, n, h) ==>
            if ev.recovered[h].done then e.status.Done? && e.origin.RecordedDone? && e.starts == 0
            else if ev.recovered[h].startedAt.Some? then WaitsForOwner(e, ev.recovered[h].attempts, ev.now)
            else FirstLook(e, r, s.cfg, ev.now))
      && ((forall h :: 0 <= h < |ev.recovered| ==> ev.recovered[h].name != n) ==> FirstLook(e, r, s.cfg, ev.now))
  {
    hide Reachable, PromoteOne, Displace, Inv, Enabled, ByName, RecoverTasks, RecoverEntry, NewEntry, Step, AllTasksSettled, AnyFailed;
    var rec := ByName(ev.recovered);
    var tasks := RecoverTasks(ev.steps, rec, s.cfg.maxAttempts, ev.now);
    var r := Step(s, ev).heap[|s.heap|];
    RecoveredRun(s, ev);
    k := RestoredFromLast(ev.steps, rec, s.cfg.maxAttempts, ev.now, n);
    var e := NewEntry(ev.steps[k].dependsOn, ev.steps[k].timeout, s.cfg.maxAttempts);
    if n in rec { RestoredAs(e, rec[n], ev.steps[k], s.cfg.maxAttempts, ev.now); RowsHaveNames(ev.recovered, n); }
    forall h: nat | LastRow(ev.recovered, n, h) ensures n in rec && rec[n] == ev.recovered[h] { RowByName(ev.recovered, n, h); }
    if n in rec && (rec[n].done || rec[n].startedAt.Some?) {
      NotPromoted(tasks[n], DoneNames(tasks), s.cfg.backend, ev.now);
    } else {
      FirstPromotion(s, ev, n, k);
    }
  }

  /** The run that enters: its restored steps promoted once, or as they are if all of them are done. */
  lemma RecoveredRun(s: State, ev: Event)
    requires ev.Recover?
    ensures |s.heap| < |Step(s, ev).heap|
    ensures var r := Step(s, ev).heap[|s.heap|];
      var tasks := RecoverTasks(ev.steps, ByName(ev.recovered), s.cfg.maxAttempts, ev.now);
      && r.runID == ev.runID && r.order == ev.order && r.source.Recovered? && r.tasks.Keys == tasks.Keys
      && forall n :: n in tasks ==>
           && r.tasks[n] == PromoteOne(tasks[n], DoneNames(tasks), s.cfg.backend, ev.now)
  {
    hide PromoteOne, Displace, ByName, RecoverTasks, AnyFailed;
    DisplaceLength(s, ev.runID);
    var tasks := RecoverTasks(ev.steps, ByName(ev.recovered), s.cfg.maxAttempts, ev.now);
    forall n | n in tasks && !tasks[n].status.Pending? ensures PromoteOne(tasks[n], DoneNames(tasks), s.cfg.backend, ev.now) == tasks[n] {
      NotPromoted(tasks[n], DoneNames(tasks), s.cfg.backend, ev.now);
    }
  }

  lemma NotPromoted(e: Entry, done: set<string>, backend: bool, now: int)
    requires !e.status.Pending?
    ensures PromoteOne(e, done, backend, now) == e
  {
  }

  lemma FirstPromotion(s: State, ev: Event, n: string, k: nat)
    requires ev.Recover? && HasTask(Step(s, ev), |s.heap|, n)
    requires var rec := ByName(ev.recovered);
      var tasks := RecoverTasks(ev.steps, rec, s.cfg.maxAttempts, ev.now);
      && k < |ev.steps| && n in tasks
      && tasks[n] == NewEntry(ev.steps[k].dependsOn, ev.steps[k].timeout, s.cfg.maxAttempts)
    ensures var r := Step(s, ev).heap[|s.heap|];
      GivenAs(r.tasks[n], ev.steps[k], s.cfg) && FirstLook(r.tasks[n], r, s.cfg, ev.now)
  {
    hide Step, PromoteOne, ByName, RecoverTasks, RecoverEntry;
    RecoveredRun(s, ev);
    var rec := ByName(ev.recovered);
    var tasks, r := RecoverTasks(ev.steps, rec, s.cfg.maxAttempts, ev.now), Step(s, ev).heap[|s.heap|];
    PromoteNewAs(tasks[n], DoneNames(tasks), s.cfg.backend, ev.now, ev.steps[k], s.cfg.maxAttempts);
    forall d | d in tasks ensures !tasks[d].status.Skipped? && (r.tasks[d].status.Done? <==> tasks[d].status.Done?) {
      PromoteOneAs(tasks[d], DoneNames(tasks), s.cfg.backend, ev.now);
      var h := RestoredFromLast(ev.steps, rec, s.cfg.maxAttempts, ev.now, d);
      var e := NewEntry(ev.steps[h].dependsOn, ev.steps[h].timeout, s.cfg.maxAttempts);
      if d in rec { RestoredAs(e, rec[d], ev.steps[h], s.cfg.maxAttempts, ev.now); }
    }
  }
}
