/** The states the queue's loops pass through, and small facts its methods rest on. */
module QueueLoops {
  import opened Options
  import opened Tasks
  import opened Runs
  import opened QueueSpec
  import opened QueueInv
  import opened WaitGroup
  import opened Outcomes
  import opened QueueRows

  /** The end of a step touches no other run. */
  lemma OnlyThisRun(s: State, i: nat, n: string, now: int)
    requires HasTask(s, i, n)
    ensures var t := CompleteDone(s, i, n, now);
      |t.heap| == |s.heap| && forall k :: 0 <= k < |s.heap| && k != i ==> t.heap[k] == s.heap[k]
    ensures var t := QueueSpec.FailOrRetry(s, i, n, now);
      |t.heap| == |s.heap| && forall k :: 0 <= k < |s.heap| && k != i ==> t.heap[k] == s.heap[k]
  {
    hide Runs.PromoteReady, Finish, Runs.SkipDownstream, RetryLater, AllTasksSettled;
  }

  /** The run that is told is what skipping leaves of run `k`. */
  lemma ToldIs(s: State, k: nat, i: nat, n: string)
    requires HasTask(s, i, n) && k < |s.heap|
    ensures var t := SetEntry(s, i, n, Finish(s.heap[i].tasks[n], Failed));
      && k < |t.heap|
      && FailedState(s, k, i, n) == CloseIfSettled(SetRun(t, k, ToldRun(s, k, i, n)), k)
      && ToldRun(s, k, i, n) == if k == i then Runs.SkipDownstream(t.heap[k], n) else StraySkip(t.heap[k], n)
  {
    hide Finish, SkipSet, CloseIfSettled;
  }

  lemma FailedStateIs(s: State, k: nat, i: nat, n: string, now: int)
    requires HasTask(s, i, n) && k < |s.heap|
    ensures var e := s.heap[i].tasks[n];
      (if k == i then QueueSpec.FailOrRetry(s, i, n, now) else FailLost(s, k, i, n, now))
      == if e.attempts < e.maxAttempts then SetEntry(s, i, n, RetryLater(e, s.cfg.retryDelay, s.cfg.backend, now))
         else FailedState(s, k, i, n)
  {
    hide Finish, SkipSet, CloseIfSettled, RetryLater;
    var t := SetEntry(s, i, n, Finish(s.heap[i].tasks[n], Failed));
    SetRunTwice(s, i, SetTask(s.heap[i], n, Finish(s.heap[i].tasks[n], Failed)), ToldRun(s, k, i, n));
  }

  lemma RetryDeferred(s: State, i: nat, n: string, onOutcome: bool, onSuccess: bool, now: int)
    requires HasTask(s, i, n) && !Terminal(s.heap[i].tasks[n].status)
    ensures var e := s.heap[i].tasks[n];
      DeferredFor(s, SetEntry(s, i, n, RetryLater(e, s.cfg.retryDelay, s.cfg.backend, now)),
                  Outcome(RetryWrites(i, n, e, s.cfg), []), onOutcome, onSuccess)
  {
    hide RetryLater, Recorded, DeferredFor;
    var e := s.heap[i].tasks[n];
    var f := RetryLater(e, s.cfg.retryDelay, s.cfg.backend, now);
    RetryFrame(e, s.cfg.retryDelay, s.cfg.backend, now);
    RetryRecorded(i, s.heap[i], n, f, RetryWrites(i, n, e, s.cfg), onOutcome, onSuccess);
    OneRunDeferred(s, SetEntry(s, i, n, f), i, Outcome(RetryWrites(i, n, e, s.cfg), []), onOutcome, onSuccess);
  }

  /** Taking a slot: the map assignment of the code, and the note about who held it. */
  lemma TrackIs(s: State, r: RunEntry)
    requires Struct(s)
    ensures Track(s, r) == s.(heap := Displace(s, r.runID).heap + [r], runs := s.runs[r.runID := |s.heap|])
  {
    hide Struct;
    DisplaceStruct(s, r.runID);
    hide Displace;
    assert (s.runs - {r.runID})[r.runID := |s.heap|] == s.runs[r.runID := |s.heap|];
    DisplaceFrame(s, r.runID);
  }

  lemma DisplaceFrame(s: State, runID: string)
    ensures Displace(s, runID).cfg == s.cfg && Displace(s, runID).alive == s.alive
  {
  }

  lemma TrackSettledIs(s: State, r: RunEntry)
    requires Struct(s)
    ensures TrackSettled(s, r)
         == s.(heap := Displace(s, r.runID).heap + [r.(closing := Completed(!AnyFailed(r)))], runs := s.runs - {r.runID})
  {
    hide Struct;
    DisplaceStruct(s, r.runID);
    hide Displace, AnyFailed;
    assert s.runs - {r.runID} - {r.runID} == s.runs - {r.runID};
    DisplaceFrame(s, r.runID);
  }

  /** The rows of a retry, and of the start that follows when there is no delay. */
  function RetryWrites(i: nat, n: string, e: Entry, cfg: Config): seq<Write> {
    [StepRow(i, n, Running, e.attempts)]
    + if cfg.retryDelay <= 0 && cfg.backend then [StepRow(i, n, Running, e.attempts + 1)] else []
  }

  lemma LiveFrame(e: Entry, f: Entry)
    requires f.jobs == e.jobs
    ensures Live(f) == Live(e)
  {
  }

  lemma StopFrame(e: Entry)
    ensures StopTimer(e).attempts == e.attempts && StopTimer(e).retries == e.retries
  {
  }

  lemma ReadyFrame(e: Entry)
    ensures Transition(e, Ready).requeues == e.requeues && Transition(e, Ready).foreign == e.foreign
  {
  }

  lemma RetryFrame(e: Entry, retryDelay: int, backend: bool, now: int)
    requires !Terminal(e.status)
    ensures var f := RetryLater(e, retryDelay, backend, now);
      && !Terminal(f.status) && f.retries == e.retries + 1
      && f.starts == e.starts + (if retryDelay <= 0 && backend then 1 else 0)
      && f.attempts == e.attempts + (if retryDelay <= 0 && backend then 1 else 0)
  {
  }

  lemma SetRunTwice(s: State, i: nat, r: RunEntry, t: RunEntry)
    requires i < |s.heap|
    ensures SetRun(SetRun(s, i, r), i, t) == SetRun(s, i, t)
  {
  }

  lemma Suffix<T>(before: seq<T>, a: seq<T>, b: seq<T>, now: seq<T>)
    requires |before| + |a| + |b| <= |now|
    requires now[..|before| + |a| + |b|] == before + a + b
    ensures now[|before|..] == a + b + now[|before| + |a| + |b|..]
  {
  }

  /** A run in the middle of promotion: `todo` has not been looked at. */
  function Partly(tasks: map<string, Entry>, todo: set<string>, done: set<string>, backend: bool, now: int): map<string, Entry> {
    map n | n in tasks :: if n in todo then tasks[n] else PromoteOne(tasks[n], done, backend, now)
  }

  lemma PartlyAll(s: State, i: nat, done: set<string>, now: int)
    requires i < |s.heap|
    ensures SetRun(s, i, s.heap[i].(tasks := Partly(s.heap[i].tasks, s.heap[i].tasks.Keys, done, s.cfg.backend, now))) == s
  {
    assert Partly(s.heap[i].tasks, s.heap[i].tasks.Keys, done, s.cfg.backend, now) == s.heap[i].tasks;
  }

  lemma PartlyNone(r: RunEntry, done: set<string>, backend: bool, now: int)
    requires done == DoneNames(r.tasks)
    ensures r.(tasks := Partly(r.tasks, {}, done, backend, now)) == Runs.PromoteReady(r, backend, now)
  {
  }

  lemma PartlyStep(s: State, i: nat, todo: set<string>, n: string, done: set<string>, now: int)
    requires i < |s.heap| && n in todo && todo <= s.heap[i].tasks.Keys
    ensures var r, b := s.heap[i], s.cfg.backend;
      var tasks := Partly(r.tasks, todo, done, b, now);
      && n in tasks && tasks[n] == r.tasks[n]
      && SetEntry(SetRun(s, i, r.(tasks := tasks)), i, n, PromoteOne(r.tasks[n], done, b, now))
         == SetRun(s, i, r.(tasks := Partly(r.tasks, todo - {n}, done, b, now)))
  {
    hide PromoteOne;
    var r, b := s.heap[i], s.cfg.backend;
    assert Partly(r.tasks, todo, done, b, now)[n := PromoteOne(r.tasks[n], done, b, now)]
        == Partly(r.tasks, todo - {n}, done, b, now);
  }

  lemma NoPromotionRows(i: nat, tasks: map<string, Entry>, done: set<string>, backend: bool)
    ensures PromotionRows(i, tasks, tasks.Keys - tasks.Keys, done, backend) == {}
  {
  }

  ghost function SkippableNames(tasks: map<string, Entry>): set<string> {
    set n | n in tasks && Skippable(tasks, n)
  }

  function SkipNames(r: RunEntry, k: set<string>): RunEntry {
    r.(tasks := SkipAll(r.tasks, k))
  }

  /** What skipping `n` skips in all. */
  ghost function SkipBelow(tasks: map<string, Entry>, n: string): set<string> {
    {n} + SkipSet(SkipAll(tasks, {n}), n)
  }

  /** The loop of `skipDownstream` has turned `s0` into `s`, skipping `k`; `todo` is unseen. */
  ghost predicate Skipping(s0: State, s: State, i: nat, failed: string, todo: set<string>, k: set<string>) {
    && i < |s0.heap|
    && s == SetRun(s0, i, SkipNames(s0.heap[i], k))
    && SkippedSoFar(s0.heap[i].tasks, failed, k)
    && forall n :: n !in todo && SkipEdge(s0.heap[i].tasks, failed, n) ==> n in k
  }

  lemma SkipStart(s: State, i: nat, failed: string)
    requires i < |s.heap|
    ensures Skipping(s, s, i, failed, s.heap[i].tasks.Keys, {})
    ensures SkipRows(i, {}) == {} && SkipEvents(i, {}) == {}
  {
    assert SkipAll(s.heap[i].tasks, {}) == s.heap[i].tasks;
  }

  /** One turn: an entry that does not depend on `failed` or cannot be skipped is passed over. */
  lemma SkipStep(s0: State, s: State, i: nat, failed: string, todo: set<string>, k: set<string>, n: string)
    requires Skipping(s0, s, i, failed, todo, k) && n in todo && todo <= s0.heap[i].tasks.Keys
    ensures i < |s.heap| && n in s.heap[i].tasks
    ensures |SkippableNames(s.heap[i].tasks)| <= |SkippableNames(s0.heap[i].tasks)|
    ensures !SkipEdge(s.heap[i].tasks, failed, n) ==> Skipping(s0, s, i, failed, todo - {n}, k)
    ensures SkipEdge(s.heap[i].tasks, failed, n) ==>
      && k !! SkipBelow(s.heap[i].tasks, n)
      && Skipping(s0, SetRun(s, i, SkipNames(s.heap[i], SkipBelow(s.heap[i].tasks, n))), i, failed, todo - {n},
                  k + SkipBelow(s.heap[i].tasks, n))
  {
    hide SkipSet, SkipReaches;
    var tasks := s0.heap[i].tasks;
    CardinalityBelow(SkippableNames(s.heap[i].tasks), SkippableNames(tasks));
    if SkipEdge(s.heap[i].tasks, failed, n) {
      SkipAllTwice(tasks, k, {n});
      SkipOneMore(tasks, failed, k, n);
      var below := SkipBelow(s.heap[i].tasks, n);
      assert k + below == k + {n} + SkipSet(SkipAll(tasks, k + {n}), n);
      SkipAllTwice(tasks, k, below);
    }
  }

  lemma SkipEnd(s0: State, s: State, i: nat, failed: string, k: set<string>)
    requires Skipping(s0, s, i, failed, {}, k)
    ensures k == SkipSet(s0.heap[i].tasks, failed)
    ensures s == SetRun(s0, i, Runs.SkipDownstream(s0.heap[i], failed))
  {
    hide SkipSet, SkipReaches;
    SkipFinished(s0.heap[i].tasks, failed, k);
  }

  lemma SkipOneState(s: State, i: nat, n: string)
    requires HasTask(s, i, n)
    ensures SetEntry(s, i, n, Transition(s.heap[i].tasks[n], Skipped)) == SetRun(s, i, SkipNames(s.heap[i], {n}))
    ensures SkipRows(i, {n}) == {StepRow(i, n, Skipped, 0)}
    ensures SkipEvents(i, {n}) == {StepEvent(i, n, Skipped)}
  {
    assert s.heap[i].tasks[n := Transition(s.heap[i].tasks[n], Skipped)] == SkipAll(s.heap[i].tasks, {n});
  }

  lemma SkipBelowState(s: State, i: nat, n: string)
    requires HasTask(s, i, n) && Skippable(s.heap[i].tasks, n)
    ensures var t := SkipNames(s.heap[i], {n});
      && SetRun(SetRun(s, i, t), i, Runs.SkipDownstream(t, n)) == SetRun(s, i, SkipNames(s.heap[i], SkipBelow(s.heap[i].tasks, n)))
      && n !in SkipSet(t.tasks, n)
  {
    hide SkipReaches;
    var tasks := s.heap[i].tasks;
    if n in SkipSet(SkipAll(tasks, {n}), n) {
      var d := SkipSetCause(SkipAll(tasks, {n}), n, n);
      assert false;
    }
    SkipAllTwice(tasks, {n}, SkipSet(SkipAll(tasks, {n}), n));
  }

  lemma SkipRowsGrow(i: nat, k: set<string>, below: set<string>, ws: seq<Write>, more: seq<Write>, fs: seq<Effect>, moreEffects: seq<Effect>)
    requires below !! k
    requires multiset(ws) == multiset(SkipRows(i, k)) && multiset(fs) == multiset(SkipEvents(i, k))
    requires multiset(more) == multiset(SkipRows(i, below)) && multiset(moreEffects) == multiset(SkipEvents(i, below))
    ensures multiset(ws + more) == multiset(SkipRows(i, k + below))
    ensures multiset(fs + moreEffects) == multiset(SkipEvents(i, k + below))
  {
    hide SkipRows, SkipEvents;
    SkipRowsUnion(i, k, below);
    MultisetOfUnion(SkipRows(i, k), SkipRows(i, below));
    MultisetOfUnion(SkipEvents(i, k), SkipEvents(i, below));
  }

  lemma SkipMeasure(tasks: map<string, Entry>, n: string)
    requires Skippable(tasks, n)
    ensures |SkippableNames(SkipAll(tasks, {n}))| < |SkippableNames(tasks)|
  {
    var a, b := SkippableNames(SkipAll(tasks, {n})), SkippableNames(tasks);
    assert a <= b - {n};
    CardinalityBelow(a, b - {n});
  }

  lemma {:induction false} CardinalityBelow<T>(a: set<T>, b: set<T>)
    requires a <= b
    ensures |a| <= |b|
    decreases |a|
  {
    if a != {} {
      var x :| x in a;
      CardinalityBelow(a - {x}, b - {x});
    }
  }

  lemma RearmFrame(e: Entry, kind: JobKind)
    ensures Rearm(e, kind).attempts == e.attempts
  {
  }

  lemma SetEntryNoop(s: State, i: nat, n: string)
    requires HasTask(s, i, n)
    ensures SetEntry(s, i, n, s.heap[i].tasks[n]) == s
  {
    assert SetTask(s.heap[i], n, s.heap[i].tasks[n]) == s.heap[i];
  }

  lemma PutTwice(s: State, i: nat, n: string, f: Entry, g: Entry)
    requires HasTask(s, i, n)
    ensures SetEntry(SetEntry(s, i, n, f), i, n, g) == SetEntry(s, i, n, g)
    ensures SetEntry(s, i, n, f).heap[i].tasks[n] == f
  {
    SetEntryTwice(s, i, n, f, g);
  }

  /*** Cleanup, with the run IDs in `left` still to be looked at ***/

  function CleanupSome(s: State, left: set<string>, cutoff: int): State {
    s.(heap := seq(|s.heap|, i requires 0 <= i < |s.heap| =>
                 if Expires(s, i, cutoff) && s.heap[i].runID !in left
                 then s.heap[i].(tasks := ExpireTasks(s.heap[i].tasks), closing := Expired)
                 else s.heap[i]),
       runs := map id | id in s.runs && (id in left || !(s.runs[id] < |s.heap| && RunExpired(s.heap[s.runs[id]], cutoff))) :: s.runs[id])
  }

  lemma CleanupEnds(s: State, cutoff: int)
    requires Struct(s)
    ensures CleanupSome(s, s.runs.Keys, cutoff) == s
    ensures CleanupSome(s, {}, cutoff) == CleanupState(s, cutoff)
  {
    hide RunExpired, ExpireTasks;
    assert CleanupSome(s, s.runs.Keys, cutoff).runs == s.runs;
    assert CleanupSome(s, s.runs.Keys, cutoff).heap == s.heap;
    assert CleanupSome(s, {}, cutoff).runs == CleanupState(s, cutoff).runs;
    assert CleanupSome(s, {}, cutoff).heap == CleanupState(s, cutoff).heap;
  }

  lemma CleanupAt(s: State, left: set<string>, cutoff: int, id: string)
    requires Struct(s) && id in left && left <= s.runs.Keys
    ensures var t, i := CleanupSome(s, left, cutoff), s.runs[id];
      && i < |s.heap| == |t.heap| && t.heap[i] == s.heap[i] && id in t.runs && t.runs[id] == i && s.heap[i].runID == id
      && s.heap[i].closing.Open?
  {
    hide RunExpired, ExpireTasks;
    assert Tracked(s, s.runs[id]);
  }

  lemma CleanupPass(s: State, left: set<string>, cutoff: int, id: string)
    requires Struct(s) && id in left && left <= s.runs.Keys && s.runs[id] < |s.heap|
    requires !RunExpired(s.heap[s.runs[id]], cutoff)
    ensures CleanupSome(s, left - {id}, cutoff) == CleanupSome(s, left, cutoff)
  {
    hide RunExpired, ExpireTasks;
    assert CleanupSome(s, left - {id}, cutoff).runs == CleanupSome(s, left, cutoff).runs;
    assert CleanupSome(s, left - {id}, cutoff).heap == CleanupSome(s, left, cutoff).heap;
  }

  lemma CleanupExpire(s: State, left: set<string>, cutoff: int, id: string)
    requires Struct(s) && id in left && left <= s.runs.Keys && s.runs[id] < |s.heap|
    requires RunExpired(s.heap[s.runs[id]], cutoff)
    ensures CleanupSome(s, left - {id}, cutoff) == ExpireRun(CleanupSome(s, left, cutoff), s.runs[id])
  {
    hide RunExpired, ExpireTasks;
    CleanupAt(s, left, cutoff, id);
    assert CleanupSome(s, left - {id}, cutoff).runs == ExpireRun(CleanupSome(s, left, cutoff), s.runs[id]).runs;
    assert CleanupSome(s, left - {id}, cutoff).heap == ExpireRun(CleanupSome(s, left, cutoff), s.runs[id]).heap;
  }

  /*** Entering runs ***/

  predicate DistinctNames(steps: seq<StepSpec>) {
    forall j, k :: 0 <= j < k < |steps| ==> steps[j].name != steps[k].name
  }

  lemma NewTasksLive(steps: seq<StepSpec>, maxAttempts: int)
    ensures TasksLive(BuildTasks(steps, maxAttempts)) == 0
  {
    var tasks := BuildTasks(steps, maxAttempts);
    forall n | n in tasks ensures Live(tasks[n]) == 0 {
      var k := BuildTasksFrom(steps, maxAttempts, n);
    }
    NoneLive(tasks);
  }

  lemma {:induction false} NoneLive(tasks: map<string, Entry>)
    requires forall n :: n in tasks ==> Live(tasks[n]) == 0
    ensures TasksLive(tasks) == 0
    decreases |tasks|
  {
    if tasks != map[] {
      var n :| n in tasks;
      TasksLivePick(tasks, n);
      assert (tasks - {n}).Keys == tasks.Keys - {n};
      NoneLive(tasks - {n});
    }
  }

  /** A recovered entry waits under a grace timer if its step was recorded running. */
  lemma RecoverEntryLive(dependsOn: seq<string>, timeout: int, maxAttempts: int, rs: RecoveredStep, now: int)
    ensures var e := NewEntry(dependsOn, timeout, maxAttempts);
      Live(RecoverEntry(e, rs, now)) == if !rs.done && rs.startedAt.Some? then 1 else 0
  {
    var e := NewEntry(dependsOn, timeout, maxAttempts);
    var r := Transition(e, Recovering).(attempts := rs.attempts, leaseAt := Some(now), origin := RecordedRunning);
    LiveArm(StopTimer(r), Grace);
    LiveStop(r);
    assert Live(e) == 0;
  }

  lemma RecoverNewName(steps: seq<StepSpec>, rec: map<string, RecoveredStep>, maxAttempts: int, now: int, k: nat)
    requires DistinctNames(steps) && k < |steps|
    ensures steps[k].name !in RecoverTasks(steps[..k], rec, maxAttempts, now)
  {
    if steps[k].name in RecoverTasks(steps[..k], rec, maxAttempts, now) {
      var j := RecoverTasksFrom(steps[..k], rec, maxAttempts, now, steps[k].name);
      assert false;
    }
  }

  lemma ExpireFrame(s: State, i: nat)
    requires i < |s.heap|
    ensures |ExpireRun(s, i).heap| == |s.heap|
    ensures forall k :: 0 <= k < |s.heap| && k != i ==> ExpireRun(s, i).heap[k] == s.heap[k]
  {
  }

  lemma NoSteps(maxAttempts: int)
    ensures BuildTasks([], maxAttempts) == map[]
  {
  }

  lemma OneStepMore(steps: seq<StepSpec>, maxAttempts: int, k: nat)
    requires k < |steps|
    ensures var tasks := BuildTasks(steps[..k], maxAttempts);
      BuildTasks(steps[..k + 1], maxAttempts)
      == if steps[k].encodes then tasks[steps[k].name := NewEntry(steps[k].dependsOn, steps[k].timeout, maxAttempts)] else tasks
  {
    assert steps[..k + 1][..k] == steps[..k];
  }

  lemma NothingRestored(byName: map<string, RecoveredStep>, maxAttempts: int, now: int)
    ensures RecoverTasks([], byName, maxAttempts, now) == map[] && TasksLive(map[]) == 0
  {
  }

  lemma OneMoreRestored(steps: seq<StepSpec>, byName: map<string, RecoveredStep>, maxAttempts: int, now: int, k: nat)
    requires k < |steps|
    ensures var e := NewEntry(steps[k].dependsOn, steps[k].timeout, maxAttempts);
      RecoverTasks(steps[..k + 1], byName, maxAttempts, now)
      == RecoverTasks(steps[..k], byName, maxAttempts, now)
         [steps[k].name := if steps[k].name in byName then RecoverEntry(e, byName[steps[k].name], now) else e]
  {
    hide RecoverEntry;
    assert steps[..k + 1][..k] == steps[..k];
  }
}
