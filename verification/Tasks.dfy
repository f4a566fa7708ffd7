/**
 One step of a run as the queue tracks it (`taskEntry`), and what each `*Locked`
 helper of the queue does to that one entry.

 `jobs` lists every goroutine the queue ever created for the entry, in creation
 order: armed `time.AfterFunc` callbacks and dispatch goroutines.  They are what
 the queue's WaitGroup counts.  `timer` is the entry's single timer handle, an
 index into `jobs`.  `starts`, `requeues`, `foreign` and `retries` count what
 happened to the entry and `origin` says how it entered the queue; no operation
 ever reads these five.
 */
module Tasks {
  import opened Options

  datatype Status =
    | Pending | Ready | Running | Retrying | Recovering
    | Done | Failed | Skipped | Canceled

  predicate Terminal(s: Status) {
    s.Done? || s.Failed? || s.Skipped? || s.Canceled?
  }

  /** `allTerminal` does not accept `canceled`. */
  predicate Settled(s: Status) {
    s.Done? || s.Failed? || s.Skipped?
  }

  /** Non-terminal and past `pending`. */
  predicate InProgress(s: Status) {
    s.Ready? || s.Running? || s.Retrying? || s.Recovering?
  }

  datatype JobKind = Timeout | Grace | Requeue | Retry | DispatchCall

  /**
   Waiting: armed and not fired (timer), or not yet past its cancel check (dispatch).
   Active: callback about to take the lock, or inside the backend's Dispatch.
   Flushing: its locked part is over.  Stopped: `Stop()` returned true.
   */
  datatype Phase = Waiting | Active | Flushing | Stopped | Finished

  datatype Job = Job(kind: JobKind, attempt: int, phase: Phase)

  datatype Origin = Fresh | RecordedDone | RecordedRunning

  datatype Entry = Entry(
    dependsOn: seq<string>,
    timeout: int,
    status: Status,
    attempts: int,
    maxAttempts: int,
    assignedRuntimeID: string,
    taskRuntimeID: string,
    leaseAt: Option<int>,
    timer: Option<nat>,
    jobs: seq<Job>,
    starts: nat,
    requeues: nat,
    foreign: nat,
    retries: nat,
    origin: Origin)

  function NewEntry(dependsOn: seq<string>, timeout: int, maxAttempts: int): Entry {
    Entry(dependsOn, timeout, Pending, 0, maxAttempts, "", "", None, None, [], 0, 0, 0, 0, Fresh)
  }

  /*** WaitGroup weight ***/

  predicate LivePhase(p: Phase) {
    !p.Stopped? && !p.Finished?
  }

  function LiveJobs(jobs: seq<Job>): nat {
    if jobs == [] then 0
    else (if LivePhase(jobs[0].phase) then 1 else 0) + LiveJobs(jobs[1..])
  }

  lemma {:induction false} LiveJobsConcat(a: seq<Job>, b: seq<Job>)
    ensures LiveJobs(a + b) == LiveJobs(a) + LiveJobs(b)
  {
    if a == [] {
      assert a + b == b;
    } else {
      LiveJobsConcat(a[1..], b);
      assert (a + b)[1..] == a[1..] + b;
    }
  }

  lemma LiveJobsUpdate(jobs: seq<Job>, k: nat, job: Job)
    requires k < |jobs|
    ensures LiveJobs(jobs[k := job]) + (if LivePhase(jobs[k].phase) then 1 else 0)
         == LiveJobs(jobs) + (if LivePhase(job.phase) then 1 else 0)
  {
    assert jobs == jobs[..k] + ([jobs[k]] + jobs[k + 1..]);
    assert jobs[k := job] == jobs[..k] + ([job] + jobs[k + 1..]);
    LiveJobsConcat(jobs[..k], [jobs[k]] + jobs[k + 1..]);
    LiveJobsConcat(jobs[..k], [job] + jobs[k + 1..]);
    LiveJobsConcat([jobs[k]], jobs[k + 1..]);
    LiveJobsConcat([job], jobs[k + 1..]);
  }

  lemma LiveJobsAppend(jobs: seq<Job>, job: Job)
    ensures LiveJobs(jobs + [job]) == LiveJobs(jobs) + (if LivePhase(job.phase) then 1 else 0)
  {
    LiveJobsConcat(jobs, [job]);
  }

  function Live(e: Entry): nat {
    LiveJobs(e.jobs)
  }

  /*** What each Locked helper does to the entry ***/

  function Transition(e: Entry, to: Status): Entry {
    if Terminal(e.status) then e else e.(status := to)
  }

  function SetPhase(e: Entry, j: nat, p: Phase): Entry
    requires j < |e.jobs|
  {
    e.(jobs := e.jobs[j := e.jobs[j].(phase := p)])
  }

  /** The handle still names a timer that has not fired, so `Stop()` will return true. */
  predicate Stoppable(e: Entry) {
    e.timer.Some? && e.timer.value < |e.jobs| && e.jobs[e.timer.value].phase.Waiting?
  }

  function StopTimer(e: Entry): Entry {
    if Stoppable(e) then SetPhase(e, e.timer.value, Stopped).(timer := None)
    else e.(timer := None)
  }

  function Arm(e: Entry, kind: JobKind): Entry {
    e.(jobs := e.jobs + [Job(kind, e.attempts, Waiting)], timer := Some(|e.jobs|))
  }

  function Rearm(e: Entry, kind: JobKind): Entry {
    Arm(StopTimer(e), kind)
  }

  function Start(e: Entry, now: int): Entry {
    var s := Transition(e.(attempts := e.attempts + 1), Running)
             .(leaseAt := Some(now), starts := e.starts + 1);
    if e.timeout > 0 then Rearm(s, Timeout) else s
  }

  function Dispatch(e: Entry, backend: bool, now: int): Entry {
    if !backend then e
    else
      var s := Start(e, now);
      s.(jobs := s.jobs + [Job(DispatchCall, s.attempts, Waiting)])
  }

  function Promote(e: Entry, backend: bool, now: int): Entry {
    Dispatch(Transition(e, Ready), backend, now)
  }

  function BusyRequeue(e: Entry, foreign: bool): Entry {
    var back := if e.attempts - 1 < 0 then 0 else e.attempts - 1;
    Rearm(Transition(e.(attempts := back), Ready)
          .(assignedRuntimeID := "", leaseAt := None, requeues := e.requeues + 1,
            foreign := e.foreign + (if foreign then 1 else 0)), Requeue)
  }

  function ToRetrying(e: Entry): Entry {
    Transition(StopTimer(e), Retrying)
    .(assignedRuntimeID := "", leaseAt := None, retries := e.retries + 1)
  }

  function RetryLater(e: Entry, retryDelay: int, backend: bool, now: int): Entry {
    var r := ToRetrying(e);
    if retryDelay <= 0 then Dispatch(Transition(r, Ready).(timer := None), backend, now)
    else Rearm(r, Retry)
  }

  function Finish(e: Entry, to: Status): Entry {
    Transition(StopTimer(e), to).(leaseAt := None)
  }

  /** Cancel keeps the lease time. */
  function CancelEntry(e: Entry): Entry {
    Transition(StopTimer(e), Canceled)
  }

  /*** Judging a reported result ***/

  datatype Result = Result(taskID: string, runtimeID: string, done: bool, attempt: int)

  datatype Verdict =
    | BadTaskID | RunNotTracked | StepNotFound | MissingIdentity | WrongOwner
    | AlreadyTerminal | StaleAttempt | FutureAttempt | Applied

  /** The owner a result is checked against; "" when nobody knows one. */
  function OwnerOf(e: Entry, routerOwner: string): string {
    if e.assignedRuntimeID != "" then e.assignedRuntimeID
    else if e.taskRuntimeID != "" then e.taskRuntimeID
    else routerOwner
  }

  function EffectiveAttempt(res: Result): int {
    if res.attempt == 0 then 1 else res.attempt
  }

  function Judge(e: Entry, res: Result, routerOwner: string): Verdict {
    var owner := OwnerOf(e, routerOwner);
    var attempt := EffectiveAttempt(res);
    if owner != "" && res.runtimeID == "" then MissingIdentity
    else if res.runtimeID != "" && owner != "" && res.runtimeID != owner then WrongOwner
    else if Terminal(e.status) then AlreadyTerminal
    else if e.attempts > 0 && attempt < e.attempts then StaleAttempt
    else if attempt > e.attempts then FutureAttempt
    else Applied
  }

  function Adopt(e: Entry, res: Result): Entry {
    if e.attempts == 0 then e.(attempts := EffectiveAttempt(res)) else e
  }

  /**
   A result is applied exactly when the entry is not terminal, the reporter is the runtime that holds
   the entry (else the one the task names, else the one the router knows; anyone if nobody is known),
   and the attempt is the current one, a report without an attempt standing for the first.  The last
   part holds for every report whose attempt is not negative.
   */
  lemma AppliedIff(e: Entry, res: Result, routerOwner: string)
    ensures res.attempt >= 0 ==>
      (Judge(e, res, routerOwner) == Applied <==>
        && !Terminal(e.status)
        && (if e.assignedRuntimeID != "" then res.runtimeID == e.assignedRuntimeID
            else if e.taskRuntimeID != "" then res.runtimeID == e.taskRuntimeID
            else routerOwner != "" ==> res.runtimeID == routerOwner)
        && (if res.attempt == 0 then 1 else res.attempt) == e.attempts)
  {
    assert res.attempt >= 0 ==> EffectiveAttempt(res) >= 1;
  }

  /**
   Without that condition the last part fails in exactly one family: a negative attempt
   reported for an entry whose attempt count is zero is applied as well.
   */
  lemma AppliedIffAnyAttempt(e: Entry, res: Result, routerOwner: string)
    ensures Judge(e, res, routerOwner) == Applied <==>
      && !Terminal(e.status)
      && (if e.assignedRuntimeID != "" then res.runtimeID == e.assignedRuntimeID
          else if e.taskRuntimeID != "" then res.runtimeID == e.taskRuntimeID
          else routerOwner != "" ==> res.runtimeID == routerOwner)
      && ((if res.attempt == 0 then 1 else res.attempt) == e.attempts
          || (e.attempts == 0 && res.attempt < 0)
          || (e.attempts < 0 && res.attempt < e.attempts))
  {
  }

  /**
   How a report that is not applied is answered: an anonymous or foreign one is an error whatever the
   entry's state, then a repeated one is quietly ignored, then a late one is, and one for an attempt
   that was never made is an error.
   */
  lemma RefusedAs(e: Entry, res: Result, routerOwner: string)
    ensures var owner :=
        if e.assignedRuntimeID != "" then e.assignedRuntimeID else if e.taskRuntimeID != "" then e.taskRuntimeID else routerOwner;
      var attempt := if res.attempt == 0 then 1 else res.attempt;
      var trusted := owner == "" || res.runtimeID == owner;
      && (Judge(e, res, routerOwner) == MissingIdentity <==> owner != "" && res.runtimeID == "")
      && (Judge(e, res, routerOwner) == WrongOwner <==> !trusted && res.runtimeID != "")
      && (Judge(e, res, routerOwner) == AlreadyTerminal <==>
            trusted && (e.status.Done? || e.status.Failed? || e.status.Skipped? || e.status.Canceled?))
      && (Judge(e, res, routerOwner) == StaleAttempt <==> trusted && !Terminal(e.status) && 0 < e.attempts && attempt < e.attempts)
      && (Judge(e, res, routerOwner) == FutureAttempt <==> trusted && !Terminal(e.status) && attempt > e.attempts)
  {
  }

  /** An applied report finds the entry on the reported attempt, or takes it there if it was on none yet. */
  lemma AdoptedAs(e: Entry, res: Result, routerOwner: string)
    requires Judge(e, res, routerOwner) == Applied && e.attempts >= 0
    ensures Adopt(e, res) == e.(attempts := if res.attempt == 0 then 1 else res.attempt)
  {
  }

  /*** Per-entry invariants ***/

  ghost predicate HasLive(e: Entry, kind: JobKind) {
    exists j :: 0 <= j < |e.jobs| && e.jobs[j].kind == kind
                && (e.jobs[j].phase.Waiting? || e.jobs[j].phase.Active?)
  }

  /** The timer handle names one of the entry's timers, never a dispatch goroutine. */
  predicate HandleOk(e: Entry) {
    e.timer.Some? ==> e.timer.value < |e.jobs| && !e.jobs[e.timer.value].kind.DispatchCall?
  }

  predicate IsCall(e: Entry, j: nat)
    requires j < |e.jobs|
  {
    e.jobs[j].kind.DispatchCall?
  }

  /** As long as no busy refusal took an attempt back, every dispatch goroutine carries a later attempt than the one before. */
  predicate CallsRise(e: Entry) {
    e.requeues == 0 ==>
      && (forall j: nat :: j < |e.jobs| && IsCall(e, j) ==> e.jobs[j].attempt <= e.attempts)
      && (forall i: nat, j: nat :: i < j < |e.jobs| && IsCall(e, i) && IsCall(e, j) ==> e.jobs[i].attempt < e.jobs[j].attempt)
  }

  predicate CallsOk(e: Entry) {
    (forall j: nat :: j < |e.jobs| && IsCall(e, j) ==> e.starts > 0 && e.jobs[j].attempt > 0) && CallsRise(e)
  }

  /** The jobs are still there, and the new ones are timers. */
  predicate SameCalls(e: Entry, f: Entry) {
    && |f.jobs| >= |e.jobs| && f.starts >= e.starts && f.requeues >= e.requeues && (f.requeues > 0 || f.attempts >= e.attempts)
    && (forall j: nat :: j < |e.jobs| ==> f.jobs[j].kind == e.jobs[j].kind && f.jobs[j].attempt == e.jobs[j].attempt)
    && (forall j: nat :: |e.jobs| <= j < |f.jobs| ==> !IsCall(f, j))
  }

  lemma SameCallsOk(e: Entry, f: Entry)
    requires CallsOk(e) && SameCalls(e, f)
    ensures CallsOk(f)
  {
    assert forall j: nat :: j < |f.jobs| && IsCall(f, j) ==> j < |e.jobs| && IsCall(e, j);
  }

  /** A further goroutine for an attempt later than all before. */
  lemma NewCallOk(e: Entry, f: Entry)
    requires CallsOk(e) && f.attempts == e.attempts + 1 > 0 && f.requeues == e.requeues && f.starts > 0
    requires f.jobs == e.jobs + [Job(DispatchCall, f.attempts, Waiting)]
    ensures CallsOk(f)
  {
    assert forall j: nat :: j < |e.jobs| && IsCall(f, j) ==> IsCall(e, j);
  }

  /** Who holds the entry, and since when: a runtime only from the renewal of a lease to the end of the attempt. */
  predicate LeaseOk(e: Entry) {
    match e.status
    case Running | Recovering => e.leaseAt.Some?
    case Pending | Ready | Retrying => e.leaseAt.None? && e.assignedRuntimeID == ""
    case Done | Failed | Skipped => e.leaseAt.None?
    case Canceled => true
  }

  /** Attempt and start accounting. */
  predicate Accounted(e: Entry) {
    && e.maxAttempts >= 1 && e.attempts >= 0 && (e.status.Recovering? ==> e.starts == 0)
    && (e.status.Pending? ==> e.jobs == [] && e.timer.None?)
    && (e.status.Retrying? ==> e.retries > 0 && e.attempts < e.maxAttempts) && CallsOk(e) && LeaseOk(e)
    && (e.origin.Fresh? ==>
          && e.attempts == e.starts - e.requeues
          && e.attempts <= e.maxAttempts
          && (e.status.Ready? || e.status.Retrying? ==> e.attempts < e.maxAttempts)
          && (e.status.Running? ==> e.attempts >= 1)
          && (e.status.Pending? ==> e.starts == 0)
          && (e.status.Done? ==> e.starts > 0)
          && !e.status.Recovering?)
    && (e.origin.RecordedDone? ==> e.status.Done? && e.starts == 0)
    && (e.origin.RecordedRunning? ==>
          && !e.status.Pending?
          && e.starts + (if e.status.Ready? || e.status.Retrying? then 1 else 0) <= e.retries + e.requeues
          && (e.starts > 0 || e.status.Ready? || e.status.Retrying? ==> e.retries + e.foreign > 0))
  }

  /** The timer that has to move the entry on out of its present status. */
  function Needs(e: Entry, backend: bool): Option<JobKind> {
    match e.status
    case Retrying => Some(Retry)
    case Recovering => Some(Grace)
    case Ready => if backend then Some(Requeue) else None
    case Running => if e.timeout > 0 && e.starts > 0 then Some(Timeout) else None
    case _ => None
  }

  /** No wake-up is lost: the timer the entry needs is armed, or its callback is still to act. */
  ghost predicate Woken(e: Entry, backend: bool) {
    Needs(e, backend).Some? ==> HasLive(e, Needs(e, backend).value)
  }

  ghost predicate EntryInv(e: Entry, backend: bool, alive: bool) {
    HandleOk(e) && Accounted(e) && (alive ==> Woken(e, backend))
  }

  lemma SetPhaseInv(e: Entry, j: nat, p: Phase, backend: bool, alive: bool)
    requires EntryInv(e, backend, alive) && j < |e.jobs|
    requires Needs(e, backend) != Some(e.jobs[j].kind) || !alive || p.Waiting? || p.Active?
          || !(e.jobs[j].phase.Waiting? || e.jobs[j].phase.Active?)
    ensures EntryInv(SetPhase(e, j, p), backend, alive)
  {
    hide CallsOk;
    var r := SetPhase(e, j, p);
    assert SameCalls(e, r);
    SameCallsOk(e, r);
    if alive && Needs(e, backend).Some? {
      var k :| 0 <= k < |e.jobs| && e.jobs[k].kind == Needs(e, backend).value
               && (e.jobs[k].phase.Waiting? || e.jobs[k].phase.Active?);
      assert r.jobs[k].kind == Needs(r, backend).value;
    }
  }

  /** Creating a timer never disturbs the entry's books, and gives it what it needs. */
  lemma ArmWakes(e: Entry, kind: JobKind)
    ensures HasLive(Arm(e, kind), kind)
  {
    assert Arm(e, kind).jobs[|e.jobs|] == Job(kind, e.attempts, Waiting);
  }

  lemma StaysLive(e: Entry, f: Entry, kind: JobKind)
    requires HasLive(e, kind) && e.jobs <= f.jobs
    ensures HasLive(f, kind)
  {
    var j :| 0 <= j < |e.jobs| && e.jobs[j].kind == kind && (e.jobs[j].phase.Waiting? || e.jobs[j].phase.Active?);
    assert f.jobs[j] == e.jobs[j];
  }

  lemma StartBooks(e: Entry, now: int)
    requires HandleOk(e) && e.status.Ready? && e.attempts >= 0
    ensures var s := Start(e, now);
      && s == e.(attempts := e.attempts + 1, status := Running, leaseAt := Some(now), starts := e.starts + 1,
                 jobs := s.jobs, timer := s.timer)
      && HandleOk(s) && SameCalls(e, s) && (e.timeout > 0 ==> HasLive(s, Timeout))
  {
    hide Rearm, HasLive;
    RearmFacts(Transition(e.(attempts := e.attempts + 1), Running).(leaseAt := Some(now), starts := e.starts + 1), Timeout);
  }

  lemma DispatchInv(e: Entry, backend: bool, alive: bool, now: int)
    requires HandleOk(e) && Accounted(e) && e.status.Ready?
    ensures EntryInv(Dispatch(e, backend, now), backend, alive)
    ensures Dispatch(e, backend, now).status == if backend then Running else Ready
  {
    if backend {
      hide Start, CallsOk, HasLive;
      var s, d := Start(e, now), Dispatch(e, backend, now);
      StartBooks(e, now);
      if e.timeout > 0 { StaysLive(s, d, Timeout); }
      var x := e.(jobs := s.jobs, starts := e.starts + 1);
      SameCallsOk(e, x);
      NewCallOk(x, d);
    }
  }

  lemma PromoteInv(e: Entry, backend: bool, alive: bool, now: int)
    requires EntryInv(e, backend, alive) && e.status.Pending?
    ensures EntryInv(Promote(e, backend, now), backend, alive)
    ensures Promote(e, backend, now).status == if backend then Running else Ready
  {
    DispatchInv(Transition(e, Ready), backend, alive, now);
  }

  /** Rearming touches nothing but the jobs and the handle. */
  lemma RearmFacts(e: Entry, kind: JobKind)
    requires !kind.DispatchCall?
    ensures var r := Rearm(e, kind);
      && r == e.(jobs := r.jobs, timer := r.timer) && HandleOk(r) && HasLive(r, kind)
      && |r.jobs| == |e.jobs| + 1 && r.jobs[|e.jobs|].kind == kind
      && forall j :: 0 <= j < |e.jobs| ==> r.jobs[j].kind == e.jobs[j].kind && r.jobs[j].attempt == e.jobs[j].attempt
  {
    ArmWakes(StopTimer(e), kind);
  }

  lemma BusyRequeueInv(e: Entry, foreign: bool, backend: bool, alive: bool)
    requires EntryInv(e, backend, alive) && e.status.Running?
    requires foreign || e.starts > 0
    ensures EntryInv(BusyRequeue(e, foreign), backend, alive)
    ensures BusyRequeue(e, foreign).status.Ready?
  {
    hide Rearm, HasLive;
    var back := if e.attempts - 1 < 0 then 0 else e.attempts - 1;
    var c := Transition(e.(attempts := back), Ready)
             .(assignedRuntimeID := "", leaseAt := None, requeues := e.requeues + 1,
               foreign := e.foreign + (if foreign then 1 else 0));
    RearmFacts(c, Requeue);
    assert Accounted(c) by { BusyBooks(e, foreign, c); }
    RearmAccounted(c, Requeue);
  }

  lemma BusyBooks(e: Entry, foreign: bool, c: Entry)
    requires Accounted(e) && e.status.Running? && (foreign || e.starts > 0)
    requires c == e.(attempts := if e.attempts - 1 < 0 then 0 else e.attempts - 1, status := Ready, assignedRuntimeID := "",
                     leaseAt := None, requeues := e.requeues + 1, foreign := e.foreign + (if foreign then 1 else 0))
    ensures Accounted(c)
  {
    hide CallsOk;
    SameCallsOk(e, c);
  }

  lemma RearmAccounted(e: Entry, kind: JobKind)
    requires Accounted(e) && !kind.DispatchCall? && !e.status.Pending?
    ensures Accounted(Rearm(e, kind))
  {
    hide Rearm, CallsOk;
    RearmFacts(e, kind);
    SameCallsOk(e, Rearm(e, kind));
  }

  /** Stopping the timer leaves the books alone. */
  lemma StopTimerBooks(e: Entry)
    requires HandleOk(e) && Accounted(e)
    ensures var f := StopTimer(e);
      f == e.(jobs := f.jobs, timer := None) && Accounted(f) && SameCalls(e, f)
  {
    hide CallsOk;
    assert SameCalls(e, StopTimer(e));
    SameCallsOk(e, StopTimer(e));
  }

  lemma ToRetryingInv(e: Entry)
    requires HandleOk(e) && Accounted(e) && InProgress(e.status) && e.attempts < e.maxAttempts
    ensures HandleOk(ToRetrying(e)) && Accounted(ToRetrying(e)) && ToRetrying(e).status.Retrying?
    ensures ToRetrying(e).attempts == e.attempts && ToRetrying(e).maxAttempts == e.maxAttempts && ToRetrying(e).timer.None?
  {
    hide StopTimer, CallsOk;
    StopTimerBooks(e);
    SameCallsOk(StopTimer(e), ToRetrying(e));
  }

  lemma RetryLaterInv(e: Entry, retryDelay: int, backend: bool, alive: bool, now: int)
    requires HandleOk(e) && Accounted(e) && InProgress(e.status) && e.attempts < e.maxAttempts
    ensures EntryInv(RetryLater(e, retryDelay, backend, now), backend, alive)
    ensures InProgress(RetryLater(e, retryDelay, backend, now).status)
  {
    hide ToRetrying, Rearm, CallsOk, HasLive;
    ToRetryingInv(e);
    var r := ToRetrying(e);
    if retryDelay <= 0 {
      var c := Transition(r, Ready).(timer := None);
      assert Accounted(c) by { ReadyBooks(r, c); }
      DispatchInv(c, backend, alive, now);
    } else {
      RearmFacts(r, Retry);
      RearmAccounted(r, Retry);
    }
  }

  /** What an attempt that failed leaves behind while attempts are left: no owner, no lease, and a timer or the next attempt. */
  lemma RetriedAs(e: Entry, retryDelay: int, backend: bool, now: int)
    requires !Terminal(e.status)
    ensures var f := RetryLater(e, retryDelay, backend, now);
      && f.retries == e.retries + 1 && f.requeues == e.requeues && f.maxAttempts == e.maxAttempts
      && f.assignedRuntimeID == "" && f.taskRuntimeID == e.taskRuntimeID
      && if retryDelay > 0 then
           && f.status.Retrying? && f.attempts == e.attempts && f.starts == e.starts && f.leaseAt.None?
           && |f.jobs| == |e.jobs| + 1 && f.jobs[|e.jobs|] == Job(Retry, e.attempts, Waiting) && f.timer == Some(|e.jobs|)
         else if backend then
           && f.status.Running? && f.attempts == e.attempts + 1 && f.starts == e.starts + 1 && f.leaseAt == Some(now)
           && |f.jobs| == |e.jobs| + (if e.timeout > 0 then 2 else 1)
           && f.jobs[|f.jobs| - 1] == Job(DispatchCall, e.attempts + 1, Waiting)
         else f.status.Ready? && f.attempts == e.attempts && f.starts == e.starts && f.leaseAt.None?
  {
    hide StopTimer;
    StopTimerFrame(e);
    var r := ToRetrying(e);
    StopTimerFrame(r);
    if retryDelay <= 0 && backend {
      var c := Transition(r, Ready).(timer := None);
      StopTimerFrame(Transition(c.(attempts := c.attempts + 1), Running).(leaseAt := Some(now), starts := c.starts + 1));
    }
  }

  lemma StopTimerFrame(e: Entry)
    ensures StopTimer(e) == e.(jobs := StopTimer(e).jobs, timer := None) && |StopTimer(e).jobs| == |e.jobs|
  {
  }

  lemma ReadyBooks(e: Entry, f: Entry)
    requires Accounted(e) && e.status.Retrying? && e.attempts < e.maxAttempts && f == e.(status := Ready, timer := None)
    ensures Accounted(f)
  {
    hide CallsOk;
    SameCallsOk(e, f);
  }

  lemma FinishInv(e: Entry, to: Status, backend: bool, alive: bool)
    requires HandleOk(e) && Accounted(e) && !Terminal(e.status) && Terminal(to)
    requires to.Done? ==> e.attempts > 0
    ensures EntryInv(Finish(e, to), backend, alive) && Finish(e, to).status == to
  {
    hide StopTimer, CallsOk;
    StopTimerBooks(e);
    SameCallsOk(StopTimer(e), Finish(e, to));
  }

  lemma CancelInv(e: Entry, backend: bool, alive: bool)
    requires HandleOk(e) && Accounted(e) && !Terminal(e.status)
    ensures EntryInv(CancelEntry(e), backend, alive) && CancelEntry(e).status == Canceled
  {
    hide StopTimer, CallsOk;
    StopTimerBooks(e);
    SameCallsOk(StopTimer(e), CancelEntry(e));
  }

  lemma SkipInv(e: Entry, backend: bool, alive: bool)
    requires HandleOk(e) && Accounted(e) && (e.status.Pending? || e.status.Ready?)
    ensures EntryInv(Transition(e, Skipped), backend, alive) && Transition(e, Skipped).status == Skipped
  {
    hide CallsOk;
    SameCallsOk(e, Transition(e, Skipped));
  }
}
