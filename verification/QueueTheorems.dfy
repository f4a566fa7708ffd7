/** What holds of the queue in every reachable state, whatever the interleaving. */
module QueueTheorems {
  import opened Options
  import opened Tasks
  import opened Graph
  import opened Runs
  import opened TaskIDs
  import opened QueueSpec
  import opened QueueInv
  import opened QueueSteps
  import opened QueueHistory

  /** The run is tracked, or left the queue because all its steps had settled. */
  predicate RanItsCourse(r: RunEntry) {
    r.closing.Open? || r.closing.Completed?
  }

  lemma RunOf(s: State, i: nat)
    requires Reachable(s) && i < |s.heap|
    ensures Inv(s) && GoodRun(s.heap[i], s.cfg.backend, s.alive)
  {
    ReachableInv(s);
  }

  /*** Ancestors ***/

  /**
   A step below a failed one is skipped, and a skipped step is below a failed one or below a stray.
   So without strays among its ancestors it is skipped exactly when some transitive ancestor failed.
   How strays come about is in QueueRaces.
   */
  lemma SkippedExactlyBelowFailure(s: State, i: nat, n: string)
    requires Reachable(s) && i < |s.heap| && s.heap[i].source.Added? && RanItsCourse(s.heap[i])
    ensures var v := ViewOf(s.heap[i]);
      && ((exists a :: v.Is(a, Failed) && Ancestor(v, a, n)) ==> v.Is(n, Skipped))
      && (v.Is(n, Skipped) ==> exists a :: v.Blamed(a) && Ancestor(v, a, n))
      && ((forall a :: a in s.heap[i].strays ==> !Ancestor(v, a, n)) ==>
            (v.Is(n, Skipped) <==> exists a :: v.Is(a, Failed) && Ancestor(v, a, n)))
  {
    hide Reachable, EntriesOk, Core, PendingWaits, Inv;
    RunOf(s, i);
    SkippedIffAncestorFailed(ViewOf(s.heap[i]), n);
  }

  lemma {:induction false} StartedPathDone(r: RunEntry, p: seq<string>)
    requires StartedOk(r) && r.source.Added? && Ascends(ViewOf(r), p)
    requires p[0] in r.tasks && r.tasks[p[0]].starts > 0
    ensures ViewOf(r).Is(p[|p| - 1], Done)
    decreases |p|
  {
    AscendsTail(ViewOf(r), p);
    assert DepsDone(r.tasks, r.tasks[p[0]].dependsOn);
    assert p[1] in r.tasks[p[0]].dependsOn;
    if |p| > 2 {
      StartedPathDone(r, p[1..]);
    }
  }

  /** A step that was ever started has every transitive ancestor done, however its run ended. */
  lemma StartedMeansAncestorsDone(s: State, i: nat, n: string)
    requires Reachable(s) && HasTask(s, i, n) && s.heap[i].source.Added? && s.heap[i].tasks[n].starts > 0
    ensures forall a :: Ancestor(ViewOf(s.heap[i]), a, n) ==> ViewOf(s.heap[i]).Is(a, Done)
  {
    hide Reachable, EntriesOk, RunInv;
    RunOf(s, i);
    var v := ViewOf(s.heap[i]);
    forall a | Ancestor(v, a, n) ensures v.Is(a, Done) {
      var p :| Ascends(v, p) && p[0] == n && p[|p| - 1] == a;
      StartedPathDone(s.heap[i], p);
    }
  }

  /*** Outcomes ***/

  lemma FailureInView(r: RunEntry)
    ensures AnyFailed(r) <==> exists n :: ViewOf(r).Is(n, Failed)
    ensures forall n :: n in r.tasks ==> (ViewOf(r).Is(n, Done) <==> r.tasks[n].status.Done?)
  {
    var v := ViewOf(r);
    if n :| v.Is(n, Failed) { assert r.tasks[n].status.Failed?; }
    if n :| n in r.tasks && r.tasks[n].status.Failed? { assert v.Is(n, Failed); }
  }

  ghost predicate BelowStray(r: RunEntry, n: string) {
    n in r.tasks && r.tasks[n].status.Skipped? && exists a :: a in r.strays && Ancestor(ViewOf(r), a, n)
  }

  /**
   A run that settles is a success if every step is done; in a success, what is not done was skipped
   below a stray.  So without strays it is a success exactly when every step is done.
   */
  lemma SuccessIffAllDone(s: State, i: nat)
    requires Reachable(s) && i < |s.heap| && s.heap[i].closing.Completed?
    ensures var r := s.heap[i];
      && ((forall n :: n in r.tasks ==> r.tasks[n].status.Done?) ==> r.closing.success)
      && (r.closing.success ==> forall n :: n in r.tasks ==> r.tasks[n].status.Done? || BelowStray(r, n))
      && (r.strays == {} ==> (r.closing.success <==> forall n :: n in r.tasks ==> r.tasks[n].status.Done?))
  {
    hide Reachable, EntriesOk, Core, PendingWaits, Inv;
    RunOf(s, i);
    var r, v := s.heap[i], ViewOf(s.heap[i]);
    FailureInView(r);
    if r.closing.success {
      forall n | n in r.tasks && !r.tasks[n].status.Done? ensures BelowStray(r, n) {
        assert Settled(r.tasks[n].status) && !v.Is(n, Failed);
        var a := SkippedHasBlamedAncestor(v, n);
        assert a in r.strays && Ancestor(v, a, n);
      }
    } else {
      var n :| v.Is(n, Failed);
      assert !r.tasks[n].status.Done?;
    }
  }

  /**
   Two added runs of the same pipeline that ran their course, in any two executions and in
   any order of reports and of map iteration, end with the same statuses when each step
   that was started met the same fate and no stray failure was charged to either.
   */
  lemma OutcomeDependsOnFateOnly(s: State, i: nat, t: State, k: nat, fate: map<string, bool>)
    requires Reachable(s) && i < |s.heap| && s.heap[i].source.Added? && s.heap[i].closing.Completed?
    requires Reachable(t) && k < |t.heap| && t.heap[k].source.Added? && t.heap[k].closing.Completed?
    requires ViewOf(s.heap[i]).deps == ViewOf(t.heap[k]).deps && s.heap[i].strays == t.heap[k].strays == {}
    requires Obeys(ViewOf(s.heap[i]), fate) && Obeys(ViewOf(t.heap[k]), fate)
    ensures ViewOf(s.heap[i]).st == ViewOf(t.heap[k]).st
    ensures s.heap[i].closing == t.heap[k].closing
  {
    hide Reachable, EntriesOk, Core, PendingWaits, Inv, Obeys;
    RunOf(s, i);
    RunOf(t, k);
    var r, q := s.heap[i], t.heap[k];
    var v, w := ViewOf(r), ViewOf(q);
    OutcomeIsOrderIndependent(v, w, fate);
    if AnyFailed(r) {
      var n :| n in r.tasks && r.tasks[n].status.Failed?;
      assert v.st[n].Failed? && n in w.st && n in q.tasks && q.tasks[n].status.Failed?;
    }
    if AnyFailed(q) {
      var n :| n in q.tasks && q.tasks[n].status.Failed?;
      assert w.st[n].Failed? && n in v.st && n in r.tasks && r.tasks[n].status.Failed?;
    }
  }

  /*** No stuck run ***/

  /**
   Every pending step of a tracked run, added or recovered, waits for a direct dependency
   that is tracked and not terminal, provided every dependency of the run is tracked.
   */
  lemma PendingWaitsForOpenDependency(s: State, i: nat, n: string) returns (d: string)
    requires Reachable(s) && HasTask(s, i, n) && s.heap[i].closing.Open?
    requires Closed(ViewOf(s.heap[i])) && s.heap[i].tasks[n].status.Pending?
    ensures d in s.heap[i].tasks[n].dependsOn && d in s.heap[i].tasks && !Terminal(s.heap[i].tasks[d].status)
  {
    hide Reachable, EntriesOk, Core, PendingWaits, Inv, Closed;
    RunOf(s, i);
    d := PendingHasOpenDependency(ViewOf(s.heap[i]), n);
  }

  /** A tracked run with steps has one in progress; it is never all-terminal and holds no canceled step. */
  lemma TrackedRunHasStepInProgress(s: State, i: nat) returns (m: string)
    requires Reachable(s) && i < |s.heap| && s.heap[i].closing.Open?
    requires Closed(ViewOf(s.heap[i])) && s.heap[i].tasks != map[]
    ensures m in s.heap[i].tasks && InProgress(s.heap[i].tasks[m].status)
    ensures forall n :: n in s.heap[i].tasks ==> !s.heap[i].tasks[n].status.Canceled?
  {
    hide Reachable, EntriesOk, PendingWaits, Inv, Closed;
    RunOf(s, i);
    var r := s.heap[i];
    var n :| n in r.tasks && !Settled(r.tasks[n].status);
    m := SomeStepInProgress(ViewOf(r), n);
    assert forall n :: n in r.tasks ==> !ViewOf(r).Is(n, Canceled);
  }

  /**
   While the server lives, and unless the run was overwritten, that step is running in the backend, or a timer of the right
   kind is armed or about to act on it, or there is no backend to hand it to.
   */
  lemma StepInProgressIsWoken(s: State, i: nat, n: string)
    requires Reachable(s) && HasTask(s, i, n) && s.alive && InProgress(s.heap[i].tasks[n].status)
    requires !s.heap[i].closing.Overwritten?
    ensures var e := s.heap[i].tasks[n];
      || e.status.Running?
      || (e.status.Retrying? && HasLive(e, Retry))
      || (e.status.Recovering? && HasLive(e, Grace))
      || (e.status.Ready? && (HasLive(e, Requeue) || !s.cfg.backend))
    ensures var e := s.heap[i].tasks[n];
      e.status.Running? && e.timeout > 0 && e.starts > 0 ==> HasLive(e, Timeout)
  {
    hide Reachable, RunInv, StartedOk;
    RunOf(s, i);
    assert EntryInv(s.heap[i].tasks[n], s.cfg.backend, Awake(s.heap[i], s.alive));
  }

  /**
   The condition above is needed: a step of an added run one of whose dependencies never
   made it into the run is never started, and its run never settles as a success by itself.
   */
  lemma MissingDependencyNeverRuns(s: State, i: nat, n: string, d: string)
    requires Reachable(s) && HasTask(s, i, n) && s.heap[i].source.Added?
    requires d in s.heap[i].tasks[n].dependsOn && d !in s.heap[i].tasks
    ensures s.heap[i].tasks[n].starts == 0 && !InProgress(s.heap[i].tasks[n].status)
    ensures s.heap[i].strays == {} ==> s.heap[i].closing != Completed(true)
    ensures RanItsCourse(s.heap[i]) ==> s.heap[i].tasks[n].status.Pending? || s.heap[i].tasks[n].status.Skipped?
  {
    hide Reachable, EntriesOk, Core, PendingWaits, Inv;
    RunOf(s, i);
    var r := s.heap[i];
    NeverInProgress(r, n, d);
    if RanItsCourse(r) {
      NeverPromoted(r, n, d);
      if r.closing == Completed(true) && r.strays == {} {
        SuccessIffAllDone(s, i);
      }
    }
  }

  lemma NeverInProgress(r: RunEntry, n: string, d: string)
    requires StartedOk(r) && r.source.Added? && n in r.tasks && d in r.tasks[n].dependsOn && d !in r.tasks
    ensures r.tasks[n].starts == 0 && !InProgress(r.tasks[n].status)
  {
    assert r.tasks[n].starts > 0 || InProgress(r.tasks[n].status) ==> DepsDone(r.tasks, r.tasks[n].dependsOn);
  }

  lemma NeverPromoted(r: RunEntry, n: string, d: string)
    requires Core(ViewOf(r)) && r.source.Added? && n in r.tasks && d in r.tasks[n].dependsOn && d !in r.tasks
    ensures r.tasks[n].status.Pending? || r.tasks[n].status.Skipped?
  {
    var v := ViewOf(r);
    assert v.DependsOn(n, d) && !v.Is(d, Done);
    assert v.Is(n, Pending) || v.Is(n, Skipped);
  }

  predicate OpenDependency(r: RunEntry, n: string, d: string) {
    n in r.tasks && d in r.tasks[n].dependsOn && d in r.tasks && !Terminal(r.tasks[d].status)
  }

  predicate TrackedDepsDone(r: RunEntry, n: string) {
    n in r.tasks && forall d :: d in r.tasks[n].dependsOn && d in r.tasks ==> r.tasks[d].status.Done?
  }

  /** No dependency in the run will ever move the step on. */
  ghost predicate Stuck(r: RunEntry, n: string) {
    n in r.tasks && r.tasks[n].status.Pending? && forall d :: !OpenDependency(r, n, d)
  }

  /**
   A pending step of a tracked run, added or recovered, waits for an open dependency exactly when not
   all the dependencies it has in the run are done; if they are, one of its dependencies is not in it.
   */
  lemma StuckIff(s: State, i: nat, n: string)
    requires Reachable(s) && HasTask(s, i, n) && s.heap[i].closing.Open? && s.heap[i].tasks[n].status.Pending?
    ensures Stuck(s.heap[i], n) <==> TrackedDepsDone(s.heap[i], n)
    ensures Stuck(s.heap[i], n) ==> exists d :: d in s.heap[i].tasks[n].dependsOn && d !in s.heap[i].tasks
  {
    hide Reachable, EntriesOk, Inv;
    RunOf(s, i);
    var r, v := s.heap[i], ViewOf(s.heap[i]);
    assert v.Is(n, Pending);
    if Stuck(r, n) {
      forall d | d in r.tasks[n].dependsOn && d in r.tasks ensures r.tasks[d].status.Done? {
        assert v.DependsOn(n, d) && !v.Broken(d) && !v.Is(d, Canceled) && !OpenDependency(r, n, d);
      }
      var d :| v.DependsOn(n, d) && !v.Cleared(d);
      assert d !in r.tasks;
    }
  }

  lemma NoFailureAbove(r: RunEntry, n: string, a: string)
    requires Core(ViewOf(r)) && r.source.Added? && TrackedDepsDone(r, n) && ViewOf(r).Is(a, Failed)
    ensures !Ancestor(ViewOf(r), a, n)
  {
    var v := ViewOf(r);
    if Ancestor(v, a, n) {
      var p :| Ascends(v, p) && p[0] == n && p[|p| - 1] == a;
      AscendsTail(v, p);
      if |p| > 2 {
        AscendsTail(v, p[1..]);
        assert v.Is(p[1], Done);
        AncestorsDonePath(v, p[1..]);
      }
      assert false;
    }
  }

  /**
   A stuck step of an added run never starts, whatever happens: while the run is tracked the step stays
   pending, and the run does not settle, unless a stray failure is charged to it.
   */
  lemma StuckForever(s: State, evs: seq<Event>, i: nat, n: string)
    requires Reachable(s) && Possible(evs) && HasTask(s, i, n)
    requires s.heap[i].source.Added? && s.heap[i].closing.Open? && Stuck(s.heap[i], n)
    ensures HasTask(Execute(s, evs), i, n) && Execute(s, evs).heap[i].tasks[n].starts == 0
    ensures var t := Execute(s, evs).heap[i];
      t.strays == {} ==> !t.closing.Completed? && (t.closing.Open? ==> t.tasks[n].status.Pending?)
  {
    hide Reachable, Inv, Possible, Execute, Stuck, TrackedDepsDone, EntriesOk, Core, PendingWaits, StartedOk;
    ReachableInv(s);
    StuckPending(s.heap[i], n);
    StuckIff(s, i, n);
    ExecuteKeepsHistory(s, evs, 0);
    ExecuteNothing(s, evs);
    ExecuteKeepsInv(s, evs);
    var r, t := s.heap[i], Execute(s, evs).heap[i];
    assert RunRel(r, t, ANYTHING);
    DoneDepsStay(r, t, n);
    hide RunRel;
    var d :| d in r.tasks[n].dependsOn && d !in r.tasks;
    GoodParts(Execute(s, evs), i);
    NeverInProgress(t, n, d);
    if RanItsCourse(t) && t.strays == {} {
      NeverPromoted(t, n, d);
      if t.tasks[n].status.Skipped? {
        var a := SkippedHasBlamedAncestor(ViewOf(t), n);
        NoFailureAbove(t, n, a);
        assert false;
      }
    }
  }

  lemma StuckPending(r: RunEntry, n: string)
    requires Stuck(r, n)
    ensures n in r.tasks && r.tasks[n].status.Pending?
  {
  }

  lemma GoodParts(s: State, i: nat)
    requires Inv(s) && i < |s.heap|
    ensures StartedOk(s.heap[i]) && (RanItsCourse(s.heap[i]) ==> Core(ViewOf(s.heap[i])))
    ensures s.heap[i].closing.Completed? ==> AllTasksSettled(s.heap[i])
  {
    assert GoodRun(s.heap[i], s.cfg.backend, s.alive);
  }

  lemma DoneDepsStay(r: RunEntry, t: RunEntry, n: string)
    requires RunRel(r, t, ANYTHING) && TrackedDepsDone(r, n)
    ensures n in t.tasks && t.tasks.Keys == r.tasks.Keys && t.source == r.source
    ensures t.tasks[n].dependsOn == r.tasks[n].dependsOn && TrackedDepsDone(t, n)
  {
    hide JobsRel;
    assert EntryRel(r.tasks[n], t.tasks[n], ANYTHING);
    forall d | d in t.tasks[n].dependsOn && d in t.tasks ensures t.tasks[d].status.Done? {
      assert EntryRel(r.tasks[d], t.tasks[d], ANYTHING);
    }
  }

  /** Which steps an added run tracks: exactly those json.Marshal accepted. */
  lemma {:induction false} AddedTracksEncodable(steps: seq<StepSpec>, maxAttempts: int, n: string)
    ensures n in BuildTasks(steps, maxAttempts) <==> exists k :: 0 <= k < |steps| && steps[k].name == n && steps[k].encodes
    decreases |steps|
  {
    if steps != [] {
      var init, last := steps[..|steps| - 1], |steps| - 1;
      AddedTracksEncodable(init, maxAttempts, n);
      if k :| 0 <= k < |init| && init[k].name == n && init[k].encodes { assert steps[k].name == n; }
      if k :| 0 <= k < |steps| && steps[k].name == n && steps[k].encodes && k != last { assert init[k].name == n; }
    }
  }

  /*** Attempts ***/

  /** Attempts are starts less applied busy requeues, and bounded. */
  lemma AttemptsAccounted(s: State, i: nat, n: string)
    requires Reachable(s) && HasTask(s, i, n) && s.heap[i].tasks[n].origin.Fresh?
    ensures var e := s.heap[i].tasks[n];
      && e.attempts == e.starts - e.requeues
      && 0 <= e.attempts <= e.maxAttempts
      && (e.status.Ready? || e.status.Retrying? ==> e.attempts < e.maxAttempts)
      && (e.status.Running? ==> e.attempts >= 1)
  {
    hide Reachable, RunInv, StartedOk;
    RunOf(s, i);
    assert EntryInv(s.heap[i].tasks[n], s.cfg.backend, Awake(s.heap[i], s.alive));
  }

  ghost function Total(names: set<string>, weight: string -> int): int {
    if names == {} then 0
    else
      var n :| n in names;
      weight(n) + Total(names - {n}, weight)
  }

  lemma {:induction false} TotalBound(names: set<string>, weight: string -> int, bound: nat)
    requires forall n :: n in names ==> weight(n) <= bound
    ensures Total(names, weight) <= |names| * bound
    decreases |names|
  {
    if names != {} {
      var n :| n in names && Total(names, weight) == weight(n) + Total(names - {n}, weight);
      TotalBound(names - {n}, weight, bound);
      OneTimesMore(|names - {n}|, bound);
    }
  }

  lemma OneTimesMore(k: nat, bound: nat)
    ensures (k + 1) * bound == bound + k * bound
  {
  }

  /** Starts of a step that busy refusals did not take back. */
  function PaidStarts(r: RunEntry): string -> int {
    n => if n in r.tasks then r.tasks[n].starts - r.tasks[n].requeues else 0
  }

  /** An added run, however it ended, whose busy requeues were `b` in all is started at most steps x maxAttempts + b times. */
  lemma StartsBounded(s: State, i: nat, m: nat)
    requires Reachable(s) && i < |s.heap| && s.heap[i].source.Added?
    requires forall n :: n in s.heap[i].tasks ==> s.heap[i].tasks[n].maxAttempts <= m
    ensures Total(s.heap[i].tasks.Keys, PaidStarts(s.heap[i])) <= |s.heap[i].tasks| * m
  {
    hide Reachable, Inv, RunInv, EntryInv, DepsDone;
    RunOf(s, i);
    forall n | n in s.heap[i].tasks ensures PaidStarts(s.heap[i])(n) <= m {
      AttemptsAccounted(s, i, n);
    }
    TotalBound(s.heap[i].tasks.Keys, PaidStarts(s.heap[i]), m);
  }

  /*** Recovery ***/

  /** A step recorded done or skipped stays done and is never started. */
  lemma RecordedDoneNeverStarts(s: State, i: nat, n: string)
    requires Reachable(s) && HasTask(s, i, n) && s.heap[i].tasks[n].origin.RecordedDone?
    ensures s.heap[i].tasks[n].status.Done? && s.heap[i].tasks[n].starts == 0
  {
    hide Reachable, RunInv, StartedOk;
    RunOf(s, i);
    assert EntryInv(s.heap[i].tasks[n], s.cfg.backend, Awake(s.heap[i], s.alive));
  }

  /**
   A step recorded running is started again only after `failOrRetryLocked` put it back, or
   after the busy refusal of a dispatch that belongs to an earlier entry of the same run ID.
   Every further start is paid for by one more of these or by a busy refusal of its own.
   */
  lemma RecordedRunningRestarts(s: State, i: nat, n: string)
    requires Reachable(s) && HasTask(s, i, n) && s.heap[i].tasks[n].origin.RecordedRunning?
    ensures var e := s.heap[i].tasks[n];
      && (e.starts > 0 ==> e.retries + e.foreign > 0)
      && e.starts <= e.retries + e.requeues
  {
    hide Reachable, RunInv, StartedOk;
    RunOf(s, i);
    assert EntryInv(s.heap[i].tasks[n], s.cfg.backend, Awake(s.heap[i], s.alive));
  }

  /** A step that left recovering, by a renewed lease or otherwise, is not touched by a grace timer again. */
  lemma RenewedStepOutlivesGrace(s: State, evs: seq<Event>, k: nat, i: nat, n: string, j: nat, now: int)
    requires Inv(s) && Possible(evs) && k <= |evs|
    requires HasTask(Execute(s, evs[..k]), i, n) && !Execute(s, evs[..k]).heap[i].tasks[n].status.Recovering?
    requires JobIn(Execute(s, evs), i, n, j, Active) && Execute(s, evs).heap[i].tasks[n].jobs[j].kind.Grace?
    ensures Step(Execute(s, evs), TimerBody(i, n, j, now)) == MoveJob(Execute(s, evs), i, n, j, Flushing)
  {
    hide Inv, Possible, Execute, FailOrRetry;
    ExecuteKeepsHistory(s, evs, k);
    assert RunRel(Execute(s, evs[..k]).heap[i], Execute(s, evs).heap[i], ANYTHING);
  }

  lemma {:induction false} RecoverTasksKeys(steps: seq<StepSpec>, rec: map<string, RecoveredStep>, maxAttempts: int, now: int, n: string)
    ensures n in RecoverTasks(steps, rec, maxAttempts, now) <==> exists k :: 0 <= k < |steps| && steps[k].name == n
    decreases |steps|
  {
    if steps != [] {
      var init, last := steps[..|steps| - 1], |steps| - 1;
      RecoverTasksKeys(init, rec, maxAttempts, now, n);
      if k :| 0 <= k < |init| && init[k].name == n { assert steps[k].name == n; }
      if k :| 0 <= k < |steps| && steps[k].name == n && k != last { assert init[k].name == n; }
    }
  }

  /** Recovery finalizes at once exactly when every step of the pipeline is recorded done or skipped. */
  lemma ImmediateFinalizeIff(s: State, runID: string, order: seq<string>, steps: seq<StepSpec>, recovered: seq<RecoveredStep>, now: int)
    ensures runID !in RecoverRun(s, runID, order, steps, recovered, now).runs <==>
      forall k :: 0 <= k < |steps| ==> steps[k].name in ByName(recovered) && ByName(recovered)[steps[k].name].done
  {
    hide PromoteReady, ByName, Displace;
    var rec := ByName(recovered);
    var tasks := RecoverTasks(steps, rec, s.cfg.maxAttempts, now);
    PromoteKeepsFrame(NewRun(runID, order, tasks, Source.Recovered), s.cfg.backend, now);
    forall n | n in tasks
      ensures Settled(tasks[n].status) <==> n in rec && rec[n].done
    {
      var k := RecoverTasksFrom(steps, rec, s.cfg.maxAttempts, now, n);
    }
    forall k | 0 <= k < |steps| ensures steps[k].name in tasks {
      RecoverTasksKeys(steps, rec, s.cfg.maxAttempts, now, steps[k].name);
    }
    forall n | n in tasks ensures exists k :: 0 <= k < |steps| && steps[k].name == n {
      RecoverTasksKeys(steps, rec, s.cfg.maxAttempts, now, n);
    }
  }

  /** A terminal status, and the books of a terminal step, never change again. */
  lemma TerminalIsForever(s: State, evs: seq<Event>, k: nat, i: nat, n: string)
    requires Inv(s) && Possible(evs) && k <= |evs|
    requires HasTask(Execute(s, evs[..k]), i, n) && Terminal(Execute(s, evs[..k]).heap[i].tasks[n].status)
    ensures HasTask(Execute(s, evs), i, n)
    ensures var e, f := Execute(s, evs[..k]).heap[i].tasks[n], Execute(s, evs).heap[i].tasks[n];
      f.status == e.status && f.attempts == e.attempts && f.starts == e.starts
  {
    hide Inv, Possible, Execute;
    ExecuteKeepsHistory(s, evs, k);
    assert RunRel(Execute(s, evs[..k]).heap[i], Execute(s, evs).heap[i], ANYTHING);
    assert EntryRel(Execute(s, evs[..k]).heap[i].tasks[n], Execute(s, evs).heap[i].tasks[n], ANYTHING);
  }
}
