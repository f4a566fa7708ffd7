/**
 The queue itself.  Each public method is one `q.mu` scope and hands back the deferred work
 it detached.  Every method is proved against the state function of the same operation in
 QueueSpec, keeps the WaitGroup equal to the number of live timers and goroutines, and, if
 it ends a scope, leaves no deferred work behind.
 */
module TaskQueue {
  import opened Options
  import opened Tasks
  import opened Graph
  import opened Runs
  import opened TaskIDs
  import opened QueueSpec
  import opened QueueInv
  import opened QueueStruct
  import opened WaitGroup
  import opened Outcomes
  import opened QueueRows
  import opened QueueLoops
  import QueueEnds
  import QueueLeases

  class Queue {
    var heap: seq<RunEntry>
    var runs: map<string, nat>
    var cfg: Config
    var alive: bool
    var wg: int
    var pendingWrites: seq<Write>
    var pendingEffects: seq<Effect>
    const onOutcome: bool
    const onSuccess: bool

    ghost function St(): State
      reads this
    {
      State(heap, runs, cfg, alive)
    }

    /** The WaitGroup counts armed timers, callbacks still executing and live dispatch goroutines. */
    ghost predicate Counted()
      reads this
    {
      wg == HeapLive(heap)
    }

    /** Between lock scopes nothing is left pending. */
    ghost predicate Clear()
      reads this
    {
      Counted() && pendingWrites == [] && pendingEffects == []
    }

    ghost predicate Valid()
      reads this
    {
      Struct(St()) && Clear()
    }

    constructor (backend: bool, onOutcome: bool, onSuccess: bool)
      ensures Valid() && St() == State([], map[], Config(backend, 1, 0), true) && wg == 0
      ensures this.onOutcome == onOutcome && this.onSuccess == onSuccess
    {
      heap, runs, cfg, alive := [], map[], Config(backend, 1, 0), true;
      wg, pendingWrites, pendingEffects := 0, [], [];
      this.onOutcome, this.onSuccess := onOutcome, onSuccess;
    }

    method AppendWrite(w: Write)
      modifies `pendingWrites
      ensures pendingWrites == old(pendingWrites) + [w]
    {
      pendingWrites := pendingWrites + [w];
    }

    method AppendEffect(f: Effect)
      modifies `pendingEffects
      ensures pendingEffects == old(pendingEffects) + [f]
    {
      pendingEffects := pendingEffects + [f];
    }

    method TakePending() returns (out: Outcome)
      modifies `pendingWrites, `pendingEffects
      ensures out == Outcome(old(pendingWrites), old(pendingEffects))
      ensures pendingWrites == [] && pendingEffects == []
    {
      out := Outcome(pendingWrites, pendingEffects);
      pendingWrites, pendingEffects := [], [];
    }

    /*** Single entries ***/

    method Put(i: nat, n: string, e: Entry)
      requires HasTask(St(), i, n)
      modifies `heap
      ensures St() == SetEntry(old(St()), i, n, e)
      ensures HeapLive(heap) + Live(old(heap[i].tasks[n])) == HeapLive(old(heap)) + Live(e)
    {
      HeapLiveEntry(heap, i, n, e);
      heap := heap[i := SetTask(heap[i], n, e)];
    }

    method TransitionTask(i: nat, n: string, to: Status) returns (from: Status)
      requires HasTask(St(), i, n) && Counted()
      modifies `heap
      ensures Counted() && St() == SetEntry(old(St()), i, n, Transition(old(heap[i].tasks[n]), to))
      ensures from == old(heap[i].tasks[n].status)
    {
      var e := heap[i].tasks[n];
      from := e.status;
      ghost var s0 := St();
      if Terminal(from) {
        SetEntryNoop(s0, i, n);
        return;
      }
      Put(i, n, e.(status := to));
    }

    method StopEntryTimer(i: nat, n: string)
      requires HasTask(St(), i, n) && Counted()
      modifies `heap, `wg
      ensures Counted() && St() == SetEntry(old(St()), i, n, StopTimer(old(heap[i].tasks[n])))
    {
      var e := heap[i].tasks[n];
      ghost var s0 := St();
      LiveStop(e);
      HeapLiveEntry(heap, i, n, e);
      if e.timer.None? {
        SetEntryNoop(s0, i, n);
        return;
      }
      if Stoppable(e) {
        assert wg > 0;
        wg := wg - 1;
        e := SetPhase(e, e.timer.value, Stopped);
      }
      Put(i, n, e.(timer := None));
    }

    /** `scheduleTimeoutLocked`, `scheduleRecoveryGraceLocked`, and the arming part of the other two timers. */
    method ScheduleTimer(i: nat, n: string, kind: JobKind)
      requires HasTask(St(), i, n) && Counted()
      modifies `heap, `wg
      ensures Counted() && St() == SetEntry(old(St()), i, n, Rearm(old(heap[i].tasks[n]), kind))
    {
      ghost var s0 := St();
      StopEntryTimer(i, n);
      wg := wg + 1;
      var e := heap[i].tasks[n];
      LiveArm(e, kind);
      Put(i, n, e.(jobs := e.jobs + [Job(kind, e.attempts, Waiting)], timer := Some(|e.jobs|)));
      PutTwice(s0, i, n, StopTimer(s0.heap[i].tasks[n]), Arm(e, kind));
    }

    method StartTask(i: nat, n: string, now: int)
      requires HasTask(St(), i, n) && Counted()
      modifies `heap, `wg, `pendingWrites
      ensures Counted() && St() == SetEntry(old(St()), i, n, Start(old(heap[i].tasks[n]), now))
      ensures pendingWrites == old(pendingWrites) + [StepRow(i, n, Running, old(heap[i].tasks[n].attempts) + 1)]
    {
      hide Rearm, HeapLive;
      ghost var s0 := St();
      var e := heap[i].tasks[n];
      ghost var e1 := e.(attempts := e.attempts + 1, leaseAt := Some(now), starts := e.starts + 1);
      Put(i, n, e.(attempts := e.attempts + 1, leaseAt := Some(now), starts := e.starts + 1));
      PutTwice(s0, i, n, e1, Transition(e1, Running));
      var _ := TransitionTask(i, n, Running);
      ghost var e2 := Transition(e1, Running);
      PutTwice(s0, i, n, e2, Rearm(e2, Timeout));
      if e.timeout > 0 {
        ScheduleTimer(i, n, Timeout);
        RearmFrame(e2, Timeout);
      }
      AppendWrite(StepRow(i, n, Running, heap[i].tasks[n].attempts));
    }

    method DispatchIfNeeded(i: nat, n: string, now: int)
      requires HasTask(St(), i, n) && Counted()
      modifies `heap, `wg, `pendingWrites
      ensures Counted() && St() == SetEntry(old(St()), i, n, Dispatch(old(heap[i].tasks[n]), cfg.backend, now))
      ensures pendingWrites == old(pendingWrites)
              + if cfg.backend then [StepRow(i, n, Running, old(heap[i].tasks[n].attempts) + 1)] else []
    {
      ghost var s0 := St();
      if !cfg.backend {
        SetEntryNoop(s0, i, n);
        return;
      }
      StartTask(i, n, now);
      wg := wg + 1;
      var e := heap[i].tasks[n];
      LiveJobsAppend(e.jobs, Job(DispatchCall, e.attempts, Waiting));
      Put(i, n, e.(jobs := e.jobs + [Job(DispatchCall, e.attempts, Waiting)]));
      PutTwice(s0, i, n, e, heap[i].tasks[n]);
    }

    /*** Run-wide loops, in whatever order the map is iterated ***/

    method CollectDone(tasks: map<string, Entry>) returns (done: set<string>)
      ensures done == DoneNames(tasks)
    {
      var todo := tasks.Keys;
      done := {};
      while todo != {}
        invariant todo <= tasks.Keys
        invariant forall n :: n in done <==> n in tasks && n !in todo && (tasks[n].status.Done? || tasks[n].status.Skipped?)
        decreases todo
      {
        var n :| n in todo;
        if tasks[n].status.Done? || tasks[n].status.Skipped? {
          done := done + {n};
        }
        todo := todo - {n};
      }
    }

    /** One turn of the loop of `promoteReady`. */
    method PromoteIfReady(i: nat, n: string, done: set<string>, now: int)
      requires HasTask(St(), i, n) && Counted()
      modifies `heap, `wg, `pendingWrites
      ensures Counted() && St() == SetEntry(old(St()), i, n, PromoteOne(old(heap[i].tasks[n]), done, cfg.backend, now))
      ensures pendingWrites == old(pendingWrites)
              + if cfg.backend && Promotes(old(heap[i].tasks[n]), done) then [StepRow(i, n, Running, old(heap[i].tasks[n].attempts) + 1)] else []
    {
      hide Dispatch, HeapLive;
      ghost var s0 := St();
      var e := heap[i].tasks[n];
      if e.status.Pending? && DepsAllDone(e.dependsOn, done) {
        var _ := TransitionTask(i, n, Ready);
        PutTwice(s0, i, n, Transition(e, Ready), Promote(e, cfg.backend, now));
        DispatchIfNeeded(i, n, now);
      } else {
        SetEntryNoop(s0, i, n);
      }
    }

    method PromoteReady(i: nat, now: int)
      requires i < |heap| && Counted()
      modifies `heap, `wg, `pendingWrites
      ensures Counted() && St() == SetRun(old(St()), i, Runs.PromoteReady(old(heap[i]), cfg.backend, now))
      ensures old(pendingWrites) <= pendingWrites
      ensures multiset(pendingWrites[|old(pendingWrites)|..])
           == multiset(PromotionRows(i, old(heap[i].tasks), old(heap[i].tasks.Keys), DoneNames(old(heap[i].tasks)), cfg.backend))
    {
      hide PromoteOne, HeapLive, SetEntry, PromotionRows, Promotes, Partly, DoneNames;
      ghost var s0, r0 := St(), heap[i];
      var done := CollectDone(heap[i].tasks);
      var todo := heap[i].tasks.Keys;
      ghost var ws: seq<Write> := [];
      PartlyAll(s0, i, done, now);
      NoPromotionRows(i, r0.tasks, done, cfg.backend);
      while todo != {}
        invariant todo <= r0.tasks.Keys && Counted()
        invariant St() == SetRun(s0, i, r0.(tasks := Partly(r0.tasks, todo, done, s0.cfg.backend, now)))
        invariant pendingWrites == old(pendingWrites) + ws
        invariant multiset(ws) == multiset(PromotionRows(i, r0.tasks, r0.tasks.Keys - todo, done, s0.cfg.backend))
        decreases todo
      {
        var n :| n in todo;
        PromotionRowsStep(i, r0.tasks, r0.tasks.Keys - todo, n, done, s0.cfg.backend);
        PartlyStep(s0, i, todo, n, done, now);
        PromoteIfReady(i, n, done, now);
        if s0.cfg.backend && Promotes(r0.tasks[n], done) {
          ws := ws + [StepRow(i, n, Running, r0.tasks[n].attempts + 1)];
        }
        assert r0.tasks.Keys - (todo - {n}) == (r0.tasks.Keys - todo) + {n};
        todo := todo - {n};
      }
      PartlyNone(r0, done, s0.cfg.backend, now);
      assert r0.tasks.Keys - {} == r0.tasks.Keys;
    }

    /** The inner part of `skipDownstream`'s loop: skip `n`, then everything below it. */
    method SkipFrom(i: nat, n: string)
      requires i < |heap| && Counted() && Skippable(heap[i].tasks, n)
      modifies `heap, `pendingWrites, `pendingEffects
      ensures Counted() && St() == SetRun(old(St()), i, SkipNames(old(heap[i]), SkipBelow(old(heap[i].tasks), n)))
      ensures old(pendingWrites) <= pendingWrites && old(pendingEffects) <= pendingEffects
      ensures multiset(pendingWrites[|old(pendingWrites)|..]) == multiset(SkipRows(i, SkipBelow(old(heap[i].tasks), n)))
      ensures multiset(pendingEffects[|old(pendingEffects)|..]) == multiset(SkipEvents(i, SkipBelow(old(heap[i].tasks), n)))
      decreases |SkippableNames(heap[i].tasks)|, 0
    {
      hide HeapLive, SkipSet, SkipReaches, SkipAll, SetEntry, SkipRows, SkipEvents;
      ghost var s0, r0 := St(), heap[i];
      ghost var below := SkipSet(SkipAll(r0.tasks, {n}), n);
      var _ := TransitionTask(i, n, Skipped);
      SkipOneState(s0, i, n);
      AppendWrite(StepRow(i, n, Skipped, 0));
      AppendEffect(StepEvent(i, n, Skipped));
      SkipMeasure(r0.tasks, n);
      SkipDownstream(i, n);
      SkipBelowState(s0, i, n);
      SkipRowsGrow(i, {n}, below, [StepRow(i, n, Skipped, 0)], pendingWrites[|old(pendingWrites)| + 1..],
                   [StepEvent(i, n, Skipped)], pendingEffects[|old(pendingEffects)| + 1..]);
      assert pendingWrites[|old(pendingWrites)|..] == [StepRow(i, n, Skipped, 0)] + pendingWrites[|old(pendingWrites)| + 1..];
      assert pendingEffects[|old(pendingEffects)|..] == [StepEvent(i, n, Skipped)] + pendingEffects[|old(pendingEffects)| + 1..];
    }

    method SkipDownstream(i: nat, failed: string)
      requires i < |heap| && Counted()
      modifies `heap, `pendingWrites, `pendingEffects
      ensures Counted() && St() == SetRun(old(St()), i, Runs.SkipDownstream(old(heap[i]), failed))
      ensures old(pendingWrites) <= pendingWrites && old(pendingEffects) <= pendingEffects
      ensures multiset(pendingWrites[|old(pendingWrites)|..]) == multiset(SkipRows(i, SkipSet(old(heap[i].tasks), failed)))
      ensures multiset(pendingEffects[|old(pendingEffects)|..]) == multiset(SkipEvents(i, SkipSet(old(heap[i].tasks), failed)))
      decreases |SkippableNames(heap[i].tasks)|, 1
    {
      hide HeapLive, SkipSet, SkipReaches, SkipRows, SkipEvents, Skipping, SkipBelow, SkipNames, SkippableNames;
      ghost var s0, tasks := St(), heap[i].tasks;
      var todo := heap[i].tasks.Keys;
      ghost var k: set<string> := {};
      ghost var ws: seq<Write>, fs: seq<Effect> := [], [];
      SkipStart(s0, i, failed);
      while todo != {}
        invariant todo <= tasks.Keys && Counted() && i < |heap|
        invariant Skipping(s0, St(), i, failed, todo, k)
        invariant pendingWrites == old(pendingWrites) + ws && pendingEffects == old(pendingEffects) + fs
        invariant multiset(ws) == multiset(SkipRows(i, k)) && multiset(fs) == multiset(SkipEvents(i, k))
        decreases todo
      {
        var n :| n in todo;
        SkipStep(s0, St(), i, failed, todo, k, n);
        todo := todo - {n};
        var e := heap[i].tasks[n];
        if !e.status.Pending? && !e.status.Ready? {
          continue;
        }
        if failed in e.dependsOn {
          ghost var w0, f0, below := |pendingWrites|, |pendingEffects|, SkipBelow(heap[i].tasks, n);
          SkipFrom(i, n);
          SkipRowsGrow(i, k, below, ws, pendingWrites[w0..], fs, pendingEffects[f0..]);
          ws, fs := ws + pendingWrites[w0..], fs + pendingEffects[f0..];
          k := k + below;
        }
      }
      SkipEnd(s0, St(), i, failed, k);
    }

    /*** A run ends ***/

    method AllSettled(r: RunEntry) returns (settled: bool)
      ensures settled == AllTasksSettled(r)
    {
      var tasks := r.tasks;
      var todo := tasks.Keys;
      while todo != {}
        invariant todo <= tasks.Keys
        invariant forall n :: n in tasks && n !in todo ==> Settled(tasks[n].status)
        decreases todo
      {
        var n :| n in todo;
        if !Settled(tasks[n].status) {
          return false;
        }
        todo := todo - {n};
      }
      return true;
    }

    method FailureAmong(r: RunEntry) returns (failed: bool)
      ensures failed == AnyFailed(r)
    {
      var tasks := r.tasks;
      var todo := tasks.Keys;
      while todo != {}
        invariant todo <= tasks.Keys
        invariant forall n :: n in tasks && n !in todo ==> !tasks[n].status.Failed?
        decreases todo
      {
        var n :| n in todo;
        if tasks[n].status.Failed? {
          return true;
        }
        todo := todo - {n};
      }
      return false;
    }

    /** The one place where a run leaves the queue. */
    method FinalizeRun(i: nat, c: Closing)
      requires i < |heap| && Counted()
      modifies `heap, `runs, `pendingWrites, `pendingEffects
      ensures Counted() && St() == CloseRun(old(St()), i, c)
      ensures pendingWrites == old(pendingWrites) + FinalWrites(i, heap[i].runID, c)
      ensures pendingEffects == old(pendingEffects) + FinalEffects(i, heap[i].runID, c, onOutcome, onSuccess)
      ensures var outcome := if c == Completed(true) then Success else if c == CanceledRun then Cancelation else Failure;
        && pendingWrites == old(pendingWrites) + [RunRow(i, old(heap[i].runID), outcome)]
        && pendingEffects == old(pendingEffects) + [RunEvent(i, old(heap[i].runID), c)]
           + (if onOutcome then [OutcomeCallback(i, old(heap[i].runID), outcome)] else [])
           + (if onSuccess && c == Completed(true) then [SuccessCallback(i, old(heap[i].runID))] else [])
    {
      var runID := heap[i].runID;
      HeapLiveUpdate(heap, i, heap[i].(closing := c));
      heap := heap[i := heap[i].(closing := c)];
      AppendWrite(RunRow(i, runID, StatusOf(c)));
      runs := runs - {runID};
      AppendEffect(RunEvent(i, runID, c));
      if onOutcome {
        AppendEffect(OutcomeCallback(i, runID, StatusOf(c)));
      }
      if StatusOf(c).Success? && onSuccess {
        AppendEffect(SuccessCallback(i, runID));
      }
    }

    method FinalizeRunIfAllTerminal(i: nat)
      requires i < |heap| && Counted()
      modifies `heap, `runs, `pendingWrites, `pendingEffects
      ensures Counted() && St() == CloseIfSettled(old(St()), i)
      ensures |heap| == |old(heap)| && heap[i] == CloseIfDone(old(heap[i]))
      ensures pendingWrites == old(pendingWrites)
              + if AllTasksSettled(old(heap[i])) then FinalWrites(i, old(heap[i].runID), heap[i].closing) else []
      ensures pendingEffects == old(pendingEffects)
              + if AllTasksSettled(old(heap[i])) then FinalEffects(i, old(heap[i].runID), heap[i].closing, onOutcome, onSuccess) else []
    {
      hide HeapLive, FinalEffects, FinalWrites, AllTasksSettled, AnyFailed;
      var settled := AllSettled(heap[i]);
      if !settled {
        return;
      }
      var failed := FailureAmong(heap[i]);
      FinalizeRun(i, Completed(!failed));
    }

    /*** A step ends or is tried again ***/

    method ScheduleRetry(i: nat, n: string, now: int)
      requires HasTask(St(), i, n) && Counted()
      modifies `heap, `wg, `pendingWrites
      ensures Counted()
      ensures St() == SetEntry(old(St()), i, n,
                        if cfg.retryDelay <= 0
                        then Dispatch(Transition(old(heap[i].tasks[n]), Ready).(timer := None), cfg.backend, now)
                        else Rearm(old(heap[i].tasks[n]), Retry))
      ensures pendingWrites == old(pendingWrites)
              + if cfg.retryDelay <= 0 && cfg.backend then [StepRow(i, n, Running, old(heap[i].tasks[n].attempts) + 1)] else []
    {
      hide HeapLive, Dispatch, Rearm;
      if cfg.retryDelay <= 0 {
        ghost var s0, e := St(), heap[i].tasks[n];
        var _ := TransitionTask(i, n, Ready);
        ClearTimer(i, n);
        var f := Transition(e, Ready).(timer := None);
        PutTwice(s0, i, n, Transition(e, Ready), f);
        PutTwice(s0, i, n, f, Dispatch(f, cfg.backend, now));
        DispatchIfNeeded(i, n, now);
        return;
      }
      ScheduleTimer(i, n, Retry);
    }

    /** `entry.timer = nil`: the handle is dropped, whatever it names. */
    method ClearTimer(i: nat, n: string)
      requires HasTask(St(), i, n) && Counted()
      modifies `heap
      ensures Counted() && St() == SetEntry(old(St()), i, n, old(heap[i].tasks[n]).(timer := None))
    {
      Put(i, n, heap[i].tasks[n].(timer := None));
    }

    /** The part of the two terminal branches before anything is recorded. */
    method EndEntry(i: nat, n: string, to: Status)
      requires HasTask(St(), i, n) && Counted()
      modifies `heap, `wg
      ensures Counted() && St() == SetEntry(old(St()), i, n, Finish(old(heap[i].tasks[n]), to))
    {
      hide HeapLive, StopTimer;
      ghost var s0, e := St(), heap[i].tasks[n];
      StopEntryTimer(i, n);
      var _ := TransitionTask(i, n, to);
      ghost var f := Transition(StopTimer(e), to);
      PutTwice(s0, i, n, StopTimer(e), f);
      PutTwice(s0, i, n, f, Finish(e, to));
      LiveFrame(f, heap[i].tasks[n].(leaseAt := None));
      Put(i, n, heap[i].tasks[n].(leaseAt := None));
    }

    method RetryStep(i: nat, n: string, now: int)
      requires HasTask(St(), i, n) && Counted() && !Terminal(heap[i].tasks[n].status)
      modifies `heap, `wg, `pendingWrites
      ensures Counted()
      ensures St() == SetEntry(old(St()), i, n, RetryLater(old(heap[i].tasks[n]), cfg.retryDelay, cfg.backend, now))
      ensures pendingWrites == old(pendingWrites) + RetryWrites(i, n, old(heap[i].tasks[n]), cfg)
    {
      hide HeapLive, StopTimer, Dispatch, Rearm;
      ghost var s0, e := St(), heap[i].tasks[n];
      StopEntryTimer(i, n);
      var _ := TransitionTask(i, n, Retrying);
      var f := heap[i].tasks[n];
      PutTwice(s0, i, n, StopTimer(e), f);
      ghost var g := f.(assignedRuntimeID := "", leaseAt := None, retries := f.retries + 1);
      PutTwice(s0, i, n, f, g);
      LiveFrame(f, g);
      Put(i, n, f.(assignedRuntimeID := "", leaseAt := None, retries := f.retries + 1));
      StopFrame(e);
      AppendWrite(StepRow(i, n, Running, f.attempts));
      assert g == ToRetrying(e);
      PutTwice(s0, i, n, g, RetryLater(e, cfg.retryDelay, cfg.backend, now));
      ScheduleRetry(i, n, now);
    }

    /** For the record: a step of an overwritten run failed and run `k` was told. */
    method NoteStray(k: nat, n: string)
      requires k < |heap| && Counted()
      modifies `heap
      ensures Counted() && St() == SetRun(old(St()), k, old(heap[k]).(strays := old(heap[k].strays) + {n}))
    {
      HeapLiveUpdate(heap, k, heap[k].(strays := heap[k].strays + {n}));
      heap := heap[k := heap[k].(strays := heap[k].strays + {n})];
    }

    /** Run `k` skips what depends on `n`; if the failure is not its own, that goes on record. */
    method TellRun(k: nat, own: bool, n: string)
      requires k < |heap| && Counted()
      modifies `heap, `pendingWrites, `pendingEffects
      ensures Counted()
      ensures St() == SetRun(old(St()), k, if own then Runs.SkipDownstream(old(heap[k]), n) else StraySkip(old(heap[k]), n))
      ensures old(pendingWrites) <= pendingWrites && old(pendingEffects) <= pendingEffects
      ensures multiset(pendingWrites[|old(pendingWrites)|..]) == multiset(SkipRows(k, SkipSet(old(heap[k].tasks), n)))
      ensures multiset(pendingEffects[|old(pendingEffects)|..]) == multiset(SkipEvents(k, SkipSet(old(heap[k].tasks), n)))
    {
      hide HeapLive, SkipSet, SkipRows, SkipEvents;
      SkipDownstream(k, n);
      if !own {
        NoteStray(k, n);
      }
    }

    /** The terminal branch of `failOrRetryLocked` for run `k` and entry `n` of run `i`. */
    method FailStep(k: nat, i: nat, n: string)
      requires HasTask(St(), i, n) && Counted() && !Terminal(heap[i].tasks[n].status)
      requires k < |heap| && heap[k].closing.Open? && (k != i ==> heap[i].closing.Overwritten?)
      requires pendingWrites == [] && pendingEffects == []
      modifies `heap, `wg, `runs, `pendingWrites, `pendingEffects
      ensures Counted() && St() == FailedState(old(St()), k, i, n)
      ensures DeferredFor(old(St()), St(), Outcome(pendingWrites, pendingEffects), onOutcome, onSuccess)
    {
      hide HeapLive, Finish, SkipSet, SkipRows, SkipEvents, DeferredFor, FinalWrites, FinalEffects, AllTasksSettled, CloseIfSettled;
      hide FailedState, ToldRun, StraySkip, Runs.SkipDownstream, SetEntry;
      ghost var s0, e := St(), heap[i].tasks[n];
      FailedStateRuns(s0, k, i, n);
      ToldIs(s0, k, i, n);
      EndEntry(i, n, Failed);
      FinishFrame(e, Failed);
      SetEntryAt(s0, i, n, Finish(e, Failed));
      AppendEffect(StepEvent(i, n, Failed));
      AppendWrite(StepRow(i, n, Failed, heap[i].tasks[n].attempts));
      ghost var w1, f1 := pendingWrites, pendingEffects;
      TellRun(k, k == i, n);
      ghost var skipped, events := pendingWrites[|w1|..], pendingEffects[|f1|..];
      assert pendingWrites == [StepRow(i, n, Failed, e.attempts)] + skipped && pendingEffects == [StepEvent(i, n, Failed)] + events;
      FailDeferred(s0, k, i, n, skipped, events, onOutcome, onSuccess);
      assert heap[k] == ToldRun(s0, k, i, n);
      hide SetRun;
      FinalizeRunIfAllTerminal(k);
      assert pendingWrites == FailWrites(i, n, e, skipped, k, ToldRun(s0, k, i, n));
      assert pendingEffects == FailEffects(i, n, events, k, ToldRun(s0, k, i, n), onOutcome, onSuccess);
    }

    /** `failOrRetryLocked`: the caller hands over run `k` and the entry, which need not belong together. */
    method FailOrRetry(k: nat, i: nat, n: string, now: int)
      requires HasTask(St(), i, n) && Counted() && !Terminal(heap[i].tasks[n].status)
      requires k < |heap| && heap[k].closing.Open? && (k != i ==> heap[i].closing.Overwritten?)
      requires pendingWrites == [] && pendingEffects == []
      modifies `heap, `wg, `runs, `pendingWrites, `pendingEffects
      ensures Counted()
      ensures St() == if k == i then QueueSpec.FailOrRetry(old(St()), i, n, now) else FailLost(old(St()), k, i, n, now)
      ensures HasTask(St(), i, n)
      ensures var e, f := old(heap[i].tasks[n]), heap[i].tasks[n];
        if e.attempts < e.maxAttempts then
          && f.assignedRuntimeID == "" && f.retries == e.retries + 1
          && if cfg.retryDelay > 0 then
               f.status.Retrying? && f.attempts == e.attempts && f.leaseAt.None?
               && |f.jobs| == |e.jobs| + 1 && f.jobs[|e.jobs|] == Job(Retry, e.attempts, Waiting)
             else if cfg.backend then f.status.Running? && f.attempts == e.attempts + 1 && f.leaseAt == Some(now)
             else f.status.Ready? && f.attempts == e.attempts && f.leaseAt.None?
        else f.status.Failed? && f.attempts == e.attempts && f.retries == e.retries && f.leaseAt.None?
      ensures DeferredFor(old(St()), St(), Outcome(pendingWrites, pendingEffects), onOutcome, onSuccess)
    {
      hide HeapLive, FailedState, DeferredFor, RetryLater, RetryWrites;
      ghost var s0 := St();
      var e := heap[i].tasks[n];
      FailedStateIs(s0, k, i, n, now);
      QueueEnds.StruckAs(s0, k, i, n, now);
      if e.attempts < e.maxAttempts {
        RetryDeferred(s0, i, n, onOutcome, onSuccess, now);
        RetryStep(i, n, now);
        assert Outcome(pendingWrites, pendingEffects) == Outcome(RetryWrites(i, n, e, s0.cfg), []);
        return;
      }
      FailStep(k, i, n);
    }

    method DoneStep(i: nat, n: string, now: int)
      requires HasTask(St(), i, n) && Counted() && heap[i].closing.Open? && !Terminal(heap[i].tasks[n].status)
      modifies `heap, `wg, `runs, `pendingWrites, `pendingEffects
      ensures Counted() && St() == CompleteDone(old(St()), i, n, now)
      ensures |heap| == |old(heap)| && old(pendingWrites) <= pendingWrites && old(pendingEffects) <= pendingEffects
      ensures Recorded(i, old(heap[i]), heap[i], pendingWrites[|old(pendingWrites)|..], pendingEffects[|old(pendingEffects)|..],
                       onOutcome, onSuccess)
    {
      hide HeapLive, Finish, Runs.PromoteReady, PromotionRows, Recorded, FinalWrites, FinalEffects, AllTasksSettled, AnyFailed;
      ghost var s0, r, e, w0, f0 := St(), heap[i], heap[i].tasks[n], pendingWrites, pendingEffects;
      ghost var f := Finish(e, Done);
      EndEntry(i, n, Done);
      FinishFrame(e, Done);
      AppendEffect(StepEvent(i, n, Done));
      AppendWrite(StepRow(i, n, Done, heap[i].tasks[n].attempts));
      ghost var w1 := pendingWrites;
      PromoteReady(i, now);
      ghost var promoted := pendingWrites[|w1|..];
      SetRunTwice(s0, i, SetTask(r, n, f), heap[i]);
      DoneRecorded(i, r, n, f, cfg.backend, now, promoted, onOutcome, onSuccess);
      FinalizeRunIfAllTerminal(i);
      Suffix(w0, [StepRow(i, n, Done, f.attempts)], promoted, pendingWrites);
      assert [StepEvent(i, n, Done)] + [] == [StepEvent(i, n, Done)];
      Suffix(f0, [StepEvent(i, n, Done)], [], pendingEffects);
    }

    /*** Results ***/

    /**
     `completeLocked`: reports that are not applied change nothing and defer nothing.  An applied
     one ends the step or retries it, promotes or skips its dependents, and may close the run.
     */
    method Complete(res: Result, routerOwner: string, now: int) returns (verdict: Verdict, out: Outcome)
      requires Valid()
      modifies this
      ensures Valid() && verdict == JudgeResult(old(St()), res, routerOwner)
      ensures St() == CompleteResult(old(St()), res, routerOwner, now)
      ensures DeferredFor(old(St()), St(), out, onOutcome, onSuccess)
      ensures verdict != Applied ==> out == Outcome([], []) && St() == old(St())
      ensures res.attempt >= 0 ==>
        (verdict == Applied <==>
          && SplitTaskID(res.taskID).Some?
          && var (runID, n) := SplitTaskID(res.taskID).value;
          && runID in old(runs) && old(runs)[runID] < |old(heap)| && n in old(heap)[old(runs)[runID]].tasks
          && var e := old(heap)[old(runs)[runID]].tasks[n];
          && !e.status.Done? && !e.status.Failed? && !e.status.Skipped? && !e.status.Canceled?
          && (if e.assignedRuntimeID != "" then res.runtimeID == e.assignedRuntimeID
              else if e.taskRuntimeID != "" then res.runtimeID == e.taskRuntimeID
              else routerOwner != "" ==> res.runtimeID == routerOwner)
          && (if res.attempt == 0 then 1 else res.attempt) == e.attempts)
    {
      hide HeapLive, Struct, CompleteDone, QueueSpec.FailOrRetry, DeferredFor, Recorded, Judge, SplitTaskID;
      ghost var s0 := St();
      NoRunDeferred(s0, onOutcome, onSuccess);
      var id := SplitTaskID(res.taskID);
      if id.None? {
        out := TakePending();
        return BadTaskID, out;
      }
      var runID, n := id.value.0, id.value.1;
      if runID !in runs {
        out := TakePending();
        return RunNotTracked, out;
      }
      var i := runs[runID];
      IndexedAt(s0, runID);
      if n !in heap[i].tasks {
        out := TakePending();
        return StepNotFound, out;
      }
      verdict := Weigh(heap[i].tasks[n], res, routerOwner);
      AppliedIff(heap[i].tasks[n], res, routerOwner);
      if verdict != Applied {
        out := TakePending();
        return;
      }
      out := Apply(i, n, res, now);
      CompleteStruct(s0, res, routerOwner, now);
    }

    /** The checks of `completeLocked` on the entry itself, in its order. */
    method Weigh(e: Entry, res: Result, routerOwner: string) returns (verdict: Verdict)
      ensures verdict == Judge(e, res, routerOwner)
      ensures verdict == Applied <==>
        && !e.status.Done? && !e.status.Failed? && !e.status.Skipped? && !e.status.Canceled?
        && (if e.assignedRuntimeID != "" then res.runtimeID == e.assignedRuntimeID
            else if e.taskRuntimeID != "" then res.runtimeID == e.taskRuntimeID
            else routerOwner != "" ==> res.runtimeID == routerOwner)
        && ((if res.attempt == 0 then 1 else res.attempt) == e.attempts
            || (e.attempts == 0 && res.attempt < 0)
            || (e.attempts < 0 && res.attempt < e.attempts))
    {
      AppliedIffAnyAttempt(e, res, routerOwner);
      var owner := e.assignedRuntimeID;
      if owner == "" {
        owner := e.taskRuntimeID;
      }
      if owner == "" {
        owner := routerOwner;
      }
      if owner != "" && res.runtimeID == "" {
        return MissingIdentity;
      }
      if res.runtimeID != "" && owner != "" && res.runtimeID != owner {
        return WrongOwner;
      }
      var attempt := res.attempt;
      if attempt == 0 {
        attempt := 1;
      }
      if Terminal(e.status) {
        return AlreadyTerminal;
      }
      if e.attempts > 0 && attempt < e.attempts {
        return StaleAttempt;
      }
      if attempt > e.attempts {
        return FutureAttempt;
      }
      return Applied;
    }

    method Apply(i: nat, n: string, res: Result, now: int) returns (out: Outcome)
      requires Counted() && pendingWrites == [] && pendingEffects == []
      requires HasTask(St(), i, n) && heap[i].closing.Open? && !Terminal(heap[i].tasks[n].status)
      modifies this
      ensures Counted() && pendingWrites == [] && pendingEffects == []
      ensures var s := SetEntry(old(St()), i, n, Adopt(old(heap[i].tasks[n]), res));
        St() == if res.done then CompleteDone(s, i, n, now) else QueueSpec.FailOrRetry(s, i, n, now)
      ensures DeferredFor(old(St()), St(), out, onOutcome, onSuccess)
    {
      hide HeapLive, CompleteDone, QueueSpec.FailOrRetry, Recorded, DeferredFor, SameRuns;
      ghost var s0, e := St(), heap[i].tasks[n];
      ghost var f := Adopt(e, res);
      LiveFrame(e, f);
      if heap[i].tasks[n].attempts == 0 {
        Put(i, n, heap[i].tasks[n].(attempts := if res.attempt == 0 then 1 else res.attempt));
      } else {
        SetEntryNoop(s0, i, n);
      }
      ghost var s1 := St();
      OnlyThisRun(s1, i, n, now);
      if res.done {
        DoneStep(i, n, now);
        OneRunDeferred(s1, St(), i, Outcome(pendingWrites, pendingEffects), onOutcome, onSuccess);
      } else {
        FailOrRetry(i, i, n, now);
      }
      out := TakePending();
      SameRunsEntry(s0, i, n, f);
      DeferredFrom(s0, s1, St(), out, onOutcome, onSuccess);
    }

    /*** Timers ***/

    method SetJobPhase(i: nat, n: string, j: nat, p: Phase)
      requires HasJob(St(), i, n, j)
      modifies `heap
      ensures St() == MoveJob(old(St()), i, n, j, p)
      ensures HeapLive(heap) + (if LivePhase(old(heap[i].tasks[n].jobs[j].phase)) then 1 else 0)
           == HeapLive(old(heap)) + (if LivePhase(p) then 1 else 0)
    {
      hide HeapLive;
      var e := heap[i].tasks[n];
      LiveSetPhase(e, j, p);
      Put(i, n, SetPhase(e, j, p));
    }

    /** The Go runtime starts a timer's callback; `Stop` fails from here on. */
    method TimerFires(i: nat, n: string, j: nat)
      requires Valid() && JobIn(St(), i, n, j, Waiting) && !IsDispatch(St(), i, n, j)
      modifies `heap
      ensures Valid() && St() == Step(old(St()), Event.TimerFires(i, n, j))
    {
      hide HeapLive, Struct;
      MoveJobStruct(St(), i, n, j, Active);
      SetJobPhase(i, n, j, Active);
    }

    /** `timeoutFiredLocked` and `recoveryGraceFiredLocked`. */
    method DeadlineFired(i: nat, n: string, kind: JobKind, now: int) returns (out: Outcome)
      requires Valid() && HasTask(St(), i, n) && (kind.Timeout? || kind.Grace?)
      modifies this
      ensures Valid() && St() == Callback(old(St()), i, n, kind, now)
      ensures DeferredFor(old(St()), St(), out, onOutcome, onSuccess)
    {
      hide HeapLive, Struct, QueueSpec.FailOrRetry, FailLost, DeferredFor, Recorded, SameRuns;
      ghost var s0, e := St(), heap[i].tasks[n];
      CallbackStruct(s0, i, n, kind, now);
      NoRunDeferred(s0, onOutcome, onSuccess);
      if !alive || heap[i].tasks[n].status != (if kind.Timeout? then Running else Recovering) {
        return Outcome([], []);
      }
      if heap[i].runID !in runs {
        return Outcome([], []);
      }
      OpenIfUnfinished(s0, i, n);
      IndexedAt(s0, heap[i].runID);
      var r := runs[heap[i].runID];
      ClearTimer(i, n);
      ghost var s1 := St();
      SameRunsEntry(s0, i, n, e.(timer := None));
      FailOrRetry(r, i, n, now);
      out := TakePending();
      DeferredFrom(s0, s1, St(), out, onOutcome, onSuccess);
    }

    method RequeuedDispatchFired(i: nat, n: string, now: int) returns (out: Outcome)
      requires Valid() && HasTask(St(), i, n)
      modifies this
      ensures Valid() && St() == Callback(old(St()), i, n, Requeue, now)
      ensures DeferredFor(old(St()), St(), out, onOutcome, onSuccess)
    {
      hide HeapLive, Struct, Dispatch, DeferredFor, Recorded;
      ghost var s0, e := St(), heap[i].tasks[n];
      ghost var f := e.(timer := None);
      CallbackStruct(s0, i, n, Requeue, now);
      ClearTimer(i, n);
      if !alive || heap[i].tasks[n].status != Ready {
        SameRunsEntry(s0, i, n, f);
        NoRunDeferred(St(), onOutcome, onSuccess);
        DeferredFrom(s0, St(), St(), Outcome([], []), onOutcome, onSuccess);
        return Outcome([], []);
      }
      PutTwice(s0, i, n, f, Dispatch(f, cfg.backend, now));
      DispatchIfNeeded(i, n, now);
      out := TakePending();
      DispatchDeferred(s0, i, n, f, now, out, onOutcome, onSuccess);
    }

    method RetryFired(i: nat, n: string, now: int) returns (out: Outcome)
      requires Valid() && HasTask(St(), i, n)
      modifies this
      ensures Valid() && St() == Callback(old(St()), i, n, Retry, now)
      ensures DeferredFor(old(St()), St(), out, onOutcome, onSuccess)
    {
      hide HeapLive, Struct, Dispatch, DeferredFor, Recorded;
      ghost var s0, e := St(), heap[i].tasks[n];
      CallbackStruct(s0, i, n, Retry, now);
      NoRunDeferred(s0, onOutcome, onSuccess);
      if heap[i].tasks[n].status != Retrying {
        return Outcome([], []);
      }
      ghost var f := Transition(e.(timer := None), Ready);
      ClearTimer(i, n);
      PutTwice(s0, i, n, e.(timer := None), f);
      var _ := TransitionTask(i, n, Ready);
      PutTwice(s0, i, n, f, Dispatch(f, cfg.backend, now));
      DispatchIfNeeded(i, n, now);
      out := TakePending();
      DispatchDeferred(s0, i, n, f, now, out, onOutcome, onSuccess);
    }

    /** A timer callback, up to the point where it has released the lock. */
    method TimerBody(i: nat, n: string, j: nat, now: int) returns (out: Outcome)
      requires Valid() && JobIn(St(), i, n, j, Active) && !IsDispatch(St(), i, n, j)
      modifies this
      ensures Valid() && St() == Step(old(St()), Event.TimerBody(i, n, j, now))
      ensures DeferredFor(old(St()), St(), out, onOutcome, onSuccess)
    {
      hide HeapLive, Struct, Callback, DeferredFor, SameRuns;
      ghost var s0 := St();
      var kind := heap[i].tasks[n].jobs[j].kind;
      MoveJobStruct(s0, i, n, j, Flushing);
      MoveJobSame(s0, i, n, j, Flushing);
      SetJobPhase(i, n, j, Flushing);
      ghost var s1 := St();
      match kind {
        case Timeout => out := DeadlineFired(i, n, kind, now);
        case Grace => out := DeadlineFired(i, n, kind, now);
        case Requeue => out := RequeuedDispatchFired(i, n, now);
        case Retry => out := RetryFired(i, n, now);
      }
      DeferredFrom(s0, s1, St(), out, onOutcome, onSuccess);
    }

    /** A callback or dispatch goroutine returns: the deferred `wg.Done()`. */
    method JobEnds(i: nat, n: string, j: nat)
      requires Valid() && JobIn(St(), i, n, j, Flushing)
      modifies `heap, `wg
      ensures Valid() && St() == Step(old(St()), Event.JobEnds(i, n, j))
      ensures wg == old(wg) - 1 && wg >= 0
    {
      hide Struct;
      MoveJobStruct(St(), i, n, j, Finished);
      SetJobPhase(i, n, j, Finished);
      wg := wg - 1;
    }

    /*** Dispatch goroutines ***/

    /** The goroutine's look at its entry before it calls the backend. */
    method DispatchCheck(i: nat, n: string, j: nat) returns (canceled: bool)
      requires Valid() && JobIn(St(), i, n, j, Waiting) && IsDispatch(St(), i, n, j)
      modifies `heap
      ensures Valid() && St() == Step(old(St()), Event.DispatchCheck(i, n, j))
      ensures canceled == old(heap[i].tasks[n].status.Canceled?)
    {
      hide HeapLive, Struct;
      canceled := heap[i].tasks[n].status.Canceled?;
      MoveJobStruct(St(), i, n, j, if canceled then Flushing else Active);
      SetJobPhase(i, n, j, if canceled then Flushing else Active);
    }

    /** Undoes the start of a running entry and arms the requeue timer. */
    method BackToReady(i: nat, n: string, foreign: bool)
      requires HasTask(St(), i, n) && Counted()
      modifies `heap, `wg
      ensures Counted() && St() == SetEntry(old(St()), i, n, BusyRequeue(old(heap[i].tasks[n]), foreign))
    {
      hide HeapLive, Rearm, Transition;
      ghost var s0 := St();
      var e := heap[i].tasks[n];
      var attempts := e.attempts - 1;
      if attempts < 0 {
        attempts := 0;
      }
      e := e.(attempts := attempts);
      PutTwice(s0, i, n, e, Transition(e, Ready));
      LiveFrame(heap[i].tasks[n], e);
      Put(i, n, e);
      var _ := TransitionTask(i, n, Ready);
      var f := heap[i].tasks[n].(assignedRuntimeID := "", leaseAt := None, requeues := heap[i].tasks[n].requeues + 1,
                                 foreign := heap[i].tasks[n].foreign + if foreign then 1 else 0);
      ReadyFrame(e);
      PutTwice(s0, i, n, heap[i].tasks[n], f);
      LiveFrame(heap[i].tasks[n], f);
      PutTwice(s0, i, n, f, Rearm(f, Requeue));
      Put(i, n, f);
      ScheduleTimer(i, n, Requeue);
    }

    method RequeueBusy(runID: string, n: string, from: nat)
      requires Struct(St()) && Counted()
      modifies `heap, `wg
      ensures Struct(St()) && Counted() && St() == Requeued(old(St()), runID, n, from)
    {
      hide HeapLive, BusyRequeue, Struct;
      ghost var s0 := St();
      RequeuedStruct(s0, runID, n, from);
      if runID !in runs {
        return;
      }
      var i := runs[runID];
      IndexedAt(s0, runID);
      if n !in heap[i].tasks || heap[i].tasks[n].status != Running {
        return;
      }
      BackToReady(i, n, i != from);
    }

    /** The goroutine after the backend has answered. */
    method DispatchReturns(i: nat, n: string, j: nat, reply: Reply, routerOwner: string, now: int) returns (out: Outcome)
      requires Valid() && JobIn(St(), i, n, j, Active) && IsDispatch(St(), i, n, j)
      modifies this
      ensures Valid() && St() == Step(old(St()), Event.DispatchReturns(i, n, j, reply, routerOwner, now))
      ensures reply.Refused? ==> DeferredFor(old(St()), St(), out, onOutcome, onSuccess)
      ensures !reply.Refused? ==> out == Outcome([], [])
    {
      hide HeapLive, Struct, CompleteResult, Requeued, DeferredFor, JudgeResult, SameRuns, MakeTaskID, SetPhase;
      ghost var s0 := St();
      var runID, attempt := heap[i].runID, heap[i].tasks[n].jobs[j].attempt;
      MoveJobStruct(s0, i, n, j, Flushing);
      MoveJobSame(s0, i, n, j, Flushing);
      SetJobPhase(i, n, j, Flushing);
      ghost var s1 := St();
      out := Outcome([], []);
      match reply {
        case Accepted =>
        case Busy =>
          RequeueBusy(runID, n, i);
        case Refused(runtimeID) =>
          var _, o := Complete(Result(MakeTaskID(runID, n), runtimeID, false, attempt), routerOwner, now);
          out := o;
          DeferredFrom(s0, s1, St(), out, onOutcome, onSuccess);
      }
    }

    /*** Cancel and cleanup ***/

    /** The loop of Cancel and of `cleanupLocked` over a run's entries. */
    method ForceEntries(i: nat, to: Status)
      requires i < |heap| && Counted() && (to.Canceled? || to.Failed?)
      modifies `heap, `wg, `pendingWrites
      ensures Counted()
      ensures St() == SetRun(old(St()), i, old(heap[i]).(tasks := ForceTasks(old(heap[i].tasks), old(heap[i].tasks.Keys), to)))
      ensures old(pendingWrites) <= pendingWrites
      ensures multiset(pendingWrites[|old(pendingWrites)|..])
           == multiset(ForcedRows(i, old(heap[i].tasks), old(heap[i].tasks.Keys), to))
    {
      hide HeapLive, ForceEntry, ForceTasks, ForcedRows, SetEntry;
      ghost var s0, r := St(), heap[i];
      var todo := heap[i].tasks.Keys;
      ghost var ws: seq<Write>, names: set<string> := [], {};
      ForceNone(s0, i, to);
      while todo != {}
        invariant names !! todo && names + todo == r.tasks.Keys && Counted()
        invariant St() == SetRun(s0, i, r.(tasks := ForceTasks(r.tasks, names, to)))
        invariant pendingWrites == old(pendingWrites) + ws
        invariant multiset(ws) == multiset(ForcedRows(i, r.tasks, names, to))
        decreases todo
      {
        var n :| n in todo;
        ForceStep(s0, i, names, n, to);
        ForcedRowsStep(i, r.tasks, names, n, to);
        ForceOne(i, n, to);
        if !Terminal(r.tasks[n].status) {
          ws := ws + [ForcedRow(i, n, r.tasks[n], to)];
        }
        todo, names := todo - {n}, names + {n};
      }
      assert names == r.tasks.Keys;
    }

    method ForceOne(i: nat, n: string, to: Status)
      requires HasTask(St(), i, n) && Counted() && (to.Canceled? || to.Failed?)
      modifies `heap, `wg, `pendingWrites
      ensures Counted() && St() == SetEntry(old(St()), i, n, ForceEntry(old(heap[i].tasks[n]), to))
      ensures pendingWrites == old(pendingWrites)
              + if Terminal(old(heap[i].tasks[n].status)) then [] else [ForcedRow(i, n, old(heap[i].tasks[n]), to)]
    {
      hide HeapLive, StopTimer;
      ghost var s0, e := St(), heap[i].tasks[n];
      if Terminal(heap[i].tasks[n].status) {
        SetEntryNoop(s0, i, n);
        return;
      }
      StopFrame(e);
      if to.Failed? {
        EndEntry(i, n, to);
      } else {
        StopEntryTimer(i, n);
        var _ := TransitionTask(i, n, to);
        PutTwice(s0, i, n, StopTimer(e), Transition(StopTimer(e), to));
      }
      AppendWrite(StepRow(i, n, to, heap[i].tasks[n].attempts));
    }

    /** The locked part of Cancel; the backend's CancelRun follows after the flush. */
    method Cancel(runID: string) returns (out: Outcome)
      requires Valid()
      modifies this
      ensures Valid() && St() == CancelState(old(St()), runID)
      ensures runID in old(runs) ==> DeferredFor(old(St()), St(), out, onOutcome, onSuccess)
      ensures runID !in old(runs) ==> out == Outcome([UntrackedRunRow(runID)], [UntrackedCanceledEvent(runID)])
    {
      hide HeapLive, Struct, ForceTasks, ForcedRows, DeferredFor, Recorded, FinalEffects, CancelTasks;
      ghost var s0 := St();
      if runID in runs {
        var i := runs[runID];
        IndexedAt(s0, runID);
        CancelStruct(s0, i);
        ForceIs(heap[i].tasks);
        ForceEntries(i, Canceled);
        ghost var rows := pendingWrites;
        assert rows[0..] == rows;
        FinalizeRun(i, CanceledRun);
        assert pendingEffects == FinalEffects(i, s0.heap[i].runID, CanceledRun, onOutcome, onSuccess);
        ForceRecorded(i, s0.heap[i], Canceled, CanceledRun, rows, onOutcome, onSuccess);
        out := TakePending();
        OneRunDeferred(s0, St(), i, out, onOutcome, onSuccess);
      } else {
        AppendWrite(UntrackedRunRow(runID));
        AppendEffect(UntrackedCanceledEvent(runID));
        out := TakePending();
      }
    }

    method RunExpired(r: RunEntry, cutoff: int) returns (expired: bool)
      ensures expired == QueueSpec.RunExpired(r, cutoff)
      ensures expired <==> exists n :: n in r.tasks && (r.tasks[n].status.Running? || r.tasks[n].status.Recovering?)
                                       && r.tasks[n].leaseAt.Some? && r.tasks[n].leaseAt.value < cutoff
    {
      var tasks := r.tasks;
      var todo := tasks.Keys;
      while todo != {}
        invariant todo <= tasks.Keys
        invariant forall n :: n in tasks && n !in todo ==> !LeaseExpired(tasks[n], cutoff)
        decreases todo
      {
        var n :| n in todo;
        todo := todo - {n};
        if (tasks[n].status != Running && tasks[n].status != Recovering) || tasks[n].leaseAt.None? {
          continue;
        }
        if tasks[n].leaseAt.value < cutoff {
          return true;
        }
      }
      return false;
    }

    method Expire(i: nat)
      requires i < |heap| && Counted() && heap[i].closing.Open?
      modifies `heap, `runs, `wg, `pendingWrites, `pendingEffects
      ensures Counted() && St() == ExpireRun(old(St()), i)
      ensures old(pendingWrites) <= pendingWrites && old(pendingEffects) <= pendingEffects
      ensures Recorded(i, old(heap[i]), heap[i], pendingWrites[|old(pendingWrites)|..], pendingEffects[|old(pendingEffects)|..],
                       onOutcome, onSuccess)
    {
      hide HeapLive, ForceTasks, ForcedRows, Recorded, FinalEffects, FinalWrites, ExpireTasks;
      ghost var s0, w0, f0 := St(), pendingWrites, pendingEffects;
      ForceIs(heap[i].tasks);
      ForceEntries(i, Failed);
      ghost var rows := pendingWrites[|w0|..];
      FinalizeRun(i, Expired);
      ForceRecorded(i, s0.heap[i], Failed, Expired, rows, onOutcome, onSuccess);
      assert pendingWrites[|w0|..] == rows + FinalWrites(i, s0.heap[i].runID, Expired);
      assert pendingEffects[|f0|..] == FinalEffects(i, s0.heap[i].runID, Expired, onOutcome, onSuccess);
    }

    /** `cleanupLocked`, whatever the order of `q.runs`. */
    method Cleanup(cutoff: int) returns (out: Outcome)
      requires Valid()
      modifies this
      ensures Valid() && St() == CleanupState(old(St()), cutoff)
      ensures DeferredFor(old(St()), St(), out, onOutcome, onSuccess)
      ensures |heap| == |old(heap)| && forall i :: 0 <= i < |heap| ==>
        if QueueLeases.HasOldLease(old(St()), cutoff, i) then !Tracked(St(), i) && QueueLeases.ExpiredAs(old(heap)[i], heap[i])
        else heap[i] == old(heap)[i] && (Tracked(St(), i) <==> Tracked(old(St()), i))
    {
      hide HeapLive, Struct, CleanupSome, CleanupState, DeferredFor, Recorded, ExpireRun, QueueSpec.RunExpired;
      ghost var s0 := St();
      var todo := runs.Keys;
      CleanupEnds(s0, cutoff);
      QueueLeases.CleanupAll(s0, cutoff);
      NoRunDeferred(s0, onOutcome, onSuccess);
      while todo != {}
        invariant todo <= s0.runs.Keys && Counted() && Struct(St())
        invariant St() == CleanupSome(s0, todo, cutoff)
        invariant DeferredFor(s0, St(), Outcome(pendingWrites, pendingEffects), onOutcome, onSuccess)
        decreases todo
      {
        var runID :| runID in todo;
        CleanupAt(s0, todo, cutoff, runID);
        var i := runs[runID];
        var expired := RunExpired(heap[i], cutoff);
        if expired {
          ghost var s1, w1, f1 := St(), pendingWrites, pendingEffects;
          IndexedAt(s1, runID);
          CleanupExpire(s0, todo, cutoff, runID);
          ExpireStruct(s1, i);
          ExpireFrame(s1, i);
          Expire(i);
          AppendDeferred(s0, s1, St(), i, Outcome(w1, f1), pendingWrites[|w1|..], pendingEffects[|f1|..], onOutcome, onSuccess);
          assert w1 + pendingWrites[|w1|..] == pendingWrites && f1 + pendingEffects[|f1|..] == pendingEffects;
        } else {
          CleanupPass(s0, todo, cutoff, runID);
        }
        todo := todo - {runID};
      }
      out := TakePending();
    }

    /*** Leases ***/

    /** The owner is back: stop waiting out the grace period. */
    method EndGrace(i: nat, n: string)
      requires HasTask(St(), i, n) && Counted()
      modifies `heap, `wg
      ensures Counted() && St() == SetEntry(old(St()), i, n, Transition(StopTimer(old(heap[i].tasks[n])), Running))
    {
      hide HeapLive, StopTimer;
      ghost var s0, e := St(), heap[i].tasks[n];
      StopEntryTimer(i, n);
      var _ := TransitionTask(i, n, Running);
      PutTwice(s0, i, n, StopTimer(e), Transition(StopTimer(e), Running));
    }

    method Renew(i: nat, n: string, runtimeID: string, now: int)
      requires HasTask(St(), i, n) && Counted()
      modifies `heap, `wg
      ensures Counted() && St() == SetEntry(old(St()), i, n, RenewEntry(old(heap[i].tasks[n]), runtimeID, now))
    {
      hide HeapLive, StopTimer;
      ghost var s0 := St();
      var e := heap[i].tasks[n];
      SetEntryNoop(s0, i, n);
      if e.status != Running && e.status != Recovering {
        return;
      }
      if e.assignedRuntimeID == "" {
        if e.taskRuntimeID != "" && e.taskRuntimeID != runtimeID {
          return;
        }
        e := e.(assignedRuntimeID := runtimeID);
      }
      if e.assignedRuntimeID != runtimeID {
        return;
      }
      LiveFrame(heap[i].tasks[n], e);
      Put(i, n, e);
      if e.status == Recovering {
        EndGrace(i, n);
        PutTwice(s0, i, n, e, Transition(StopTimer(e), Running));
      }
      PutTwice(s0, i, n, heap[i].tasks[n], heap[i].tasks[n].(leaseAt := Some(now)));
      LiveFrame(heap[i].tasks[n], heap[i].tasks[n].(leaseAt := Some(now)));
      Put(i, n, heap[i].tasks[n].(leaseAt := Some(now)));
    }

    method RenewLease(runtimeID: string, taskID: string, now: int)
      requires Struct(St()) && Counted()
      modifies `heap, `wg
      ensures Struct(St()) && Counted() && St() == RenewOne(old(St()), runtimeID, taskID, now)
    {
      hide HeapLive, Struct, SplitTaskID, RenewEntry;
      ghost var s0 := St();
      RenewOneStruct(s0, runtimeID, taskID, now);
      var id := SplitTaskID(taskID);
      if id.None? {
        return;
      }
      var runID, n := id.value.0, id.value.1;
      if runID !in runs {
        return;
      }
      var i := runs[runID];
      IndexedAt(s0, runID);
      if n !in heap[i].tasks {
        return;
      }
      Renew(i, n, runtimeID, now);
    }

    method RenewLeases(runtimeID: string, taskIDs: seq<string>, now: int)
      requires Valid()
      modifies `heap, `wg
      ensures Valid() && St() == Step(old(St()), Event.RenewLeases(runtimeID, taskIDs, now))
    {
      hide HeapLive, Struct, RenewOne;
      if runtimeID == "" || |taskIDs| == 0 {
        return;
      }
      ghost var s0 := St();
      for k := 0 to |taskIDs|
        invariant Struct(St()) && Counted() && St() == RenewAll(s0, runtimeID, taskIDs[..k], now)
      {
        RenewLease(runtimeID, taskIDs[k], now);
        assert taskIDs[..k + 1][..k] == taskIDs[..k];
      }
      assert taskIDs[..|taskIDs|] == taskIDs;
    }

    /*** Runs enter ***/

    /** For the record: the entry that holds the slot of this run ID is about to lose it. */
    method NoteOverwritten(runID: string)
      requires Struct(St())
      modifies `heap
      ensures heap == Displace(old(St()), runID).heap && HeapLive(heap) == HeapLive(old(heap))
    {
      if runID in runs {
        var i := runs[runID];
        IndexedAt(St(), runID);
        HeapLiveUpdate(heap, i, heap[i].(closing := Overwritten));
        heap := heap[i := heap[i].(closing := Overwritten)];
      }
    }

    /** A built run is promoted for the first time and takes the slot of its ID. */
    method Enter(r: RunEntry, now: int) returns (out: Outcome)
      requires Struct(St()) && pendingWrites == [] && pendingEffects == [] && wg == HeapLive(heap) + TasksLive(r.tasks)
      requires r.closing.Open?
      modifies this
      ensures Valid() && cfg == old(cfg) && St() == Track(old(St()), Runs.PromoteReady(r, cfg.backend, now))
      ensures DeferredFor(old(St()), St(), out, onOutcome, onSuccess)
      ensures |old(heap)| < |heap| && Deferred(|old(heap)|, r, heap[|old(heap)|], out, onOutcome, onSuccess)
    {
      hide HeapLive, Struct, Recorded, Deferred, Runs.PromoteReady, PromotionRows, DoneNames, Displace;
      ghost var s0 := St();
      var i := |heap|;
      DisplaceStruct(s0, r.runID);
      NoteOverwritten(r.runID);
      HeapLiveAppend(heap, r);
      heap := heap + [r];
      PromoteReady(i, now);
      PromoteKeepsFrame(r, cfg.backend, now);
      EnterStruct(s0, Runs.PromoteReady(r, cfg.backend, now));
      runs := runs[r.runID := i];
      TrackIs(s0, heap[i]);
      assert heap == Displace(s0, r.runID).heap + [heap[i]];
      assert pendingWrites[0..] == pendingWrites;
      PromoteRecorded(i, r, cfg.backend, now, pendingWrites, onOutcome, onSuccess);
      out := TakePending();
      EnterDeferred(s0, r, heap[i], out, onOutcome, onSuccess);
    }

    /** A recovered run with nothing left to do is finalized without being tracked. */
    method EnterSettled(r: RunEntry) returns (out: Outcome)
      requires Struct(St()) && pendingWrites == [] && pendingEffects == [] && wg == HeapLive(heap) + TasksLive(r.tasks)
      requires r.closing.Open? && AllTasksSettled(r)
      modifies this
      ensures Valid() && cfg == old(cfg) && St() == TrackSettled(old(St()), r)
      ensures DeferredFor(old(St()), St(), out, onOutcome, onSuccess)
      ensures |old(heap)| < |heap| && Deferred(|old(heap)|, r, heap[|old(heap)|], out, onOutcome, onSuccess)
    {
      hide HeapLive, Struct, Recorded, Deferred, AllTasksSettled, AnyFailed, FinalEffects, FinalWrites, Displace;
      ghost var s0 := St();
      var i := |heap|;
      DisplaceStruct(s0, r.runID);
      NoteOverwritten(r.runID);
      HeapLiveAppend(heap, r);
      heap := heap + [r];
      var failed := FailureAmong(r);
      var c := Completed(!failed);
      FinalizeRun(i, c);
      EnterSettledStruct(s0, r);
      TrackSettledIs(s0, r);
      assert heap == Displace(s0, r.runID).heap + [heap[i]];
      ClosedRecorded(i, r, onOutcome, onSuccess);
      out := TakePending();
      assert out == Outcome(FinalWrites(i, r.runID, c), FinalEffects(i, r.runID, c, onOutcome, onSuccess));
      EnterDeferred(s0, r, heap[i], out, onOutcome, onSuccess);
    }

    method Add(runID: string, order: seq<string>, steps: seq<StepSpec>, now: int) returns (out: Outcome)
      requires Valid()
      modifies this
      ensures Valid() && St() == AddRun(old(St()), runID, order, steps, now)
      ensures DeferredFor(old(St()), St(), out, onOutcome, onSuccess)
      ensures |old(heap)| < |heap|
      ensures Deferred(|old(heap)|, NewRun(runID, order, BuildTasks(steps, cfg.maxAttempts), Added), heap[|old(heap)|],
                       out, onOutcome, onSuccess)
    {
      hide HeapLive, Struct, Deferred, DeferredFor, Runs.PromoteReady, BuildTasks, Track;
      var tasks: map<string, Entry> := map[];
      NoSteps(cfg.maxAttempts);
      for k := 0 to |steps|
        invariant unchanged(this)
        invariant tasks == BuildTasks(steps[..k], cfg.maxAttempts)
      {
        OneStepMore(steps, cfg.maxAttempts, k);
        if !steps[k].encodes {
          continue;
        }
        tasks := tasks[steps[k].name := NewEntry(steps[k].dependsOn, steps[k].timeout, cfg.maxAttempts)];
      }
      assert steps[..|steps|] == steps;
      NewTasksLive(steps, cfg.maxAttempts);
      out := Enter(NewRun(runID, order, tasks, Added), now);
    }

    /** `recoveredByName`: the last row of a name wins. */
    method IndexByName(recovered: seq<RecoveredStep>) returns (byName: map<string, RecoveredStep>)
      ensures byName == ByName(recovered)
    {
      byName := map[];
      for k := 0 to |recovered|
        invariant byName == ByName(recovered[..k])
      {
        assert recovered[..k + 1][..k] == recovered[..k];
        byName := byName[recovered[k].name := recovered[k]];
      }
      assert recovered[..|recovered|] == recovered;
    }

    /** One entry of a recovered run, its grace timer armed if it needs one. */
    method Restore(step: StepSpec, byName: map<string, RecoveredStep>, now: int) returns (e: Entry)
      modifies `wg
      ensures var fresh' := NewEntry(step.dependsOn, step.timeout, cfg.maxAttempts);
        e == if step.name in byName then RecoverEntry(fresh', byName[step.name], now) else fresh'
      ensures wg == old(wg) + Live(e)
    {
      e := NewEntry(step.dependsOn, step.timeout, cfg.maxAttempts);
      assert Live(e) == 0;
      if step.name in byName {
        var rs := byName[step.name];
        RecoverEntryLive(step.dependsOn, step.timeout, cfg.maxAttempts, rs, now);
        if rs.done {
          e := e.(status := Done, origin := RecordedDone);
        } else if rs.startedAt.Some? {
          e := e.(status := Recovering, attempts := rs.attempts, leaseAt := Some(now), origin := RecordedRunning);
          wg := wg + 1;
          e := e.(jobs := [Job(Grace, rs.attempts, Waiting)], timer := Some(0));
        }
      }
    }

    method RestoreTasks(steps: seq<StepSpec>, byName: map<string, RecoveredStep>, now: int) returns (tasks: map<string, Entry>)
      requires DistinctNames(steps)
      modifies `wg
      ensures tasks == RecoverTasks(steps, byName, cfg.maxAttempts, now)
      ensures wg == old(wg) + TasksLive(tasks)
    {
      hide RecoverEntry, NewEntry, TasksLive, RecoverTasks, DistinctNames;
      tasks := map[];
      NothingRestored(byName, cfg.maxAttempts, now);
      for k := 0 to |steps|
        invariant tasks == RecoverTasks(steps[..k], byName, cfg.maxAttempts, now)
        invariant wg == old(wg) + TasksLive(tasks)
      {
        var e := Restore(steps[k], byName, now);
        RecoverNewName(steps, byName, cfg.maxAttempts, now, k);
        OneMoreRestored(steps, byName, cfg.maxAttempts, now, k);
        TasksLiveInsert(tasks, steps[k].name, e);
        tasks := tasks[steps[k].name := e];
      }
      assert steps[..|steps|] == steps;
    }

    method Recover(runID: string, order: seq<string>, steps: seq<StepSpec>, recovered: seq<RecoveredStep>, now: int)
      returns (out: Outcome)
      requires Valid() && DistinctNames(steps)
      modifies this
      ensures Valid() && St() == RecoverRun(old(St()), runID, order, steps, recovered, now)
      ensures DeferredFor(old(St()), St(), out, onOutcome, onSuccess)
      ensures |old(heap)| < |heap|
      ensures Deferred(|old(heap)|,
                       NewRun(runID, order, RecoverTasks(steps, ByName(recovered), cfg.maxAttempts, now), Source.Recovered),
                       heap[|old(heap)|], out, onOutcome, onSuccess)
    {
      hide HeapLive, Struct, Deferred, DeferredFor, Runs.PromoteReady, RecoverTasks, ByName, AllTasksSettled, AnyFailed, DistinctNames, Track, TrackSettled;
      var byName := IndexByName(recovered);
      var tasks := RestoreTasks(steps, byName, now);
      var r := NewRun(runID, order, tasks, Source.Recovered);
      var settled := AllSettled(r);
      if settled {
        out := EnterSettled(r);
        return;
      }
      out := Enter(r, now);
    }

    /*** Settings and queries ***/

    method SetRetryPolicy(maxAttempts: int, retryDelay: int)
      requires Valid()
      modifies `cfg
      ensures Valid() && St() == Step(old(St()), Event.SetRetryPolicy(maxAttempts, retryDelay))
    {
      var m := maxAttempts;
      if m < 1 {
        m := 1;
      }
      cfg := cfg.(maxAttempts := m, retryDelay := retryDelay);
      assert forall i :: Tracked(St(), i) <==> Tracked(old(St()), i);
    }

    /** The server's context ends. */
    method Shutdown()
      requires Valid()
      modifies `alive
      ensures Valid() && St() == Step(old(St()), Event.Shutdown)
    {
      alive := false;
      assert forall i :: Tracked(St(), i) <==> Tracked(old(St()), i);
    }

    method IsTracking(runID: string) returns (tracking: bool)
      requires Valid()
      ensures tracking <==> exists i: nat :: Tracked(St(), i) && heap[i].runID == runID && heap[i].closing.Open?
    {
      tracking := runID in runs;
      if tracking {
        IndexedAt(St(), runID);
      }
    }
  }
}
