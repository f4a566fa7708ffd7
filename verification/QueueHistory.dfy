/** What no event ever does to a run: the two-state side of the queue's invariants. */
module QueueHistory {
  import opened Options
  import opened Tasks
  import opened Graph
  import opened Runs
  import opened TaskIDs
  import opened QueueSpec
  import opened QueueInv
  import opened QueueSteps

  /**
   What may happen between the two states that are compared: goroutines and timers move on, busy
   refusals are applied, there is no backend, the deadline of a lost entry ends for good, a run
   enters, leases are renewed; and the time at which steps are started, if any are.  What is ruled
   out makes the relations below stronger.
   */
  datatype Mode = Mode(moves: bool, busy: bool, idle: bool, stray: bool, enters: bool, renews: bool, at: Option<int>)

  const ANYTHING := Mode(true, true, true, true, true, true, None)
  const MOVES := Mode(true, false, false, false, false, false, None)
  const BUSY := Mode(false, true, false, false, false, false, None)

  function Rank(p: Phase): nat {
    match p
    case Waiting => 0
    case Active => 1
    case Flushing => 2
    case Stopped => 2
    case Finished => 3
  }

  /** Jobs are never forgotten, keep their kind and attempt, and never come back to life. */
  predicate JobsRel(e: Entry, f: Entry) {
    && |f.jobs| >= |e.jobs|
    && (forall j :: 0 <= j < |e.jobs| ==>
          f.jobs[j].kind == e.jobs[j].kind && f.jobs[j].attempt == e.jobs[j].attempt && Rank(f.jobs[j].phase) >= Rank(e.jobs[j].phase))
  }

  /** No dispatch goroutine moves. */
  predicate CallsStay(e: Entry, f: Entry) {
    |f.jobs| >= |e.jobs| && forall j :: 0 <= j < |e.jobs| && e.jobs[j].kind.DispatchCall? ==> f.jobs[j] == e.jobs[j]
  }

  /** The entry was handed to the backend and is not known to have come back. */
  predicate InBackend(e: Entry) {
    e.status.Running? && e.starts > 0
  }

  /** A new dispatch goroutine for the current attempt. */
  predicate Called(e: Entry, f: Entry) {
    exists j :: |e.jobs| <= j < |f.jobs| && f.jobs[j] == Job(DispatchCall, f.attempts, Waiting)
  }

  /** An entry gets into the backend only with a new goroutine. */
  predicate CalledIfNew(e: Entry, f: Entry) {
    InBackend(f) ==> (InBackend(e) && f.attempts == e.attempts) || Called(e, f)
  }

  predicate Held(e: Entry) {
    e.status.Ready? || e.status.Retrying?
  }

  /** Only busy refusals requeue, and nothing else takes a step back to ready but its retries and its promotion. */
  predicate NotRequeued(e: Entry, f: Entry) {
    && f.requeues == e.requeues && f.foreign == e.foreign
    && (Held(f) ==> Held(e) || e.status.Pending? || f.retries > e.retries)
  }

  function AttemptsLeft(e: Entry): int {
    if e.attempts < e.maxAttempts then e.maxAttempts - e.attempts else 0
  }

  /**
   How often the entry can still change before it is terminal.  A recovered step may have spent its
   attempts already; it has a grace period, and then at least the attempt it is on.
   */
  function Fuel(e: Entry): int {
    match e.status
    case Done | Failed | Skipped | Canceled => 0
    case Retrying => 2 * AttemptsLeft(e) + 1
    case Recovering => 2 * AttemptsLeft(e) + 3
    case Ready => if AttemptsLeft(e) == 0 then 3 else 2 * AttemptsLeft(e) + 2
    case Pending | Running => 2 * AttemptsLeft(e) + 2
  }

  /** A busy refusal gives some of it back, at most two of the three it counts for here. */
  function Credit(e: Entry): int {
    Fuel(e) - 3 * e.requeues
  }

  predicate SameStanding(e: Entry, f: Entry) {
    f.status == e.status && f.attempts == e.attempts
  }

  /** Every change of status or attempt costs credit. */
  predicate Pays(e: Entry, f: Entry) {
    Credit(f) <= Credit(e) && (!SameStanding(e, f) ==> Credit(f) < Credit(e))
  }

  predicate InLease(e: Entry) {
    e.status.Running? || e.status.Recovering?
  }

  /**
   The owner of an attempt stays its owner, and nobody becomes one but by a renewal.  Without one, a lease
   stays as it was granted, and a new one starts with the step, at the time of the event.
   */
  predicate LeaseRel(e: Entry, f: Entry, m: Mode) {
    && f.taskRuntimeID == e.taskRuntimeID
    && (f.requeues == e.requeues && f.retries == e.retries && e.assignedRuntimeID != "" ==> f.assignedRuntimeID == e.assignedRuntimeID)
    && (!m.renews && e.assignedRuntimeID == "" ==> f.assignedRuntimeID == "")
    && (!m.renews && InLease(f) ==>
          if f.starts == e.starts then InLease(e) && f.leaseAt == e.leaseAt else m.at.Some? && f.leaseAt == m.at)
  }

  /** A terminal entry keeps its status and its books; nobody returns to pending or recovering; counters only grow. */
  predicate EntryRel(e: Entry, f: Entry, m: Mode) {
    && SameStep(e, f) && f.maxAttempts == e.maxAttempts && f.timeout == e.timeout
    && (Terminal(e.status) ==> f.status == e.status && f.attempts == e.attempts && f.starts == e.starts && |f.jobs| == |e.jobs|)
    && (f.status.Recovering? ==> e.status.Recovering?) && (f.status.Pending? ==> e.status.Pending?)
    && f.starts >= e.starts && f.retries >= e.retries && f.requeues >= e.requeues && f.foreign >= e.foreign
    && JobsRel(e, f) && LeaseRel(e, f, m)
    && (!m.moves ==> CallsStay(e, f) && CalledIfNew(e, f))
    && (!m.busy ==> NotRequeued(e, f))
    && (!m.idle ==> Pays(e, f))
  }

  ghost predicate HasFailedAncestor(t: RunEntry, n: string) {
    exists a :: ViewOf(t).Is(a, Failed) && Ancestor(ViewOf(t), a, n)
  }

  predicate NewlySkipped(r: RunEntry, t: RunEntry, n: string) {
    n in r.tasks && n in t.tasks && !r.tasks[n].status.Skipped? && t.tasks[n].status.Skipped?
  }

  /** Whatever has been skipped since `r` has a failed ancestor. */
  ghost predicate SkipsBlamed(r: RunEntry, t: RunEntry) {
    forall n :: NewlySkipped(r, t, n) ==> HasFailedAncestor(t, n)
  }

  ghost predicate RunRel(r: RunEntry, t: RunEntry, m: Mode) {
    && t.runID == r.runID && t.order == r.order && t.source == r.source && r.strays <= t.strays
    && t.tasks.Keys == r.tasks.Keys
    && (forall n :: n in r.tasks ==> EntryRel(r.tasks[n], t.tasks[n], m))
    && (!r.closing.Open? ==> t.closing == r.closing)
    && (!m.enters && t.closing.Overwritten? ==> r.closing.Overwritten?)
    && (!m.stray ==> t.strays == r.strays && SkipsBlamed(r, t))
  }

  ghost predicate StepRel(s: State, t: State, m: Mode) {
    |s.heap| <= |t.heap| && forall i :: 0 <= i < |s.heap| ==> RunRel(s.heap[i], t.heap[i], m)
  }

  /*** The relations compose ***/

  lemma EntryRelTransitive(e: Entry, f: Entry, g: Entry, m: Mode)
    requires EntryRel(e, f, m) && EntryRel(f, g, m)
    ensures EntryRel(e, g, m)
  {
    assert JobsRel(e, g) by {
      forall j | 0 <= j < |e.jobs|
        ensures g.jobs[j].kind == e.jobs[j].kind && g.jobs[j].attempt == e.jobs[j].attempt && Rank(g.jobs[j].phase) >= Rank(e.jobs[j].phase)
      {
        assert f.jobs[j].kind == e.jobs[j].kind && f.jobs[j].attempt == e.jobs[j].attempt;
      }
    }
    if !m.moves {
      assert CallsStay(e, g) by {
        forall j | 0 <= j < |e.jobs| && e.jobs[j].kind.DispatchCall? ensures g.jobs[j] == e.jobs[j] { assert f.jobs[j] == e.jobs[j]; }
      }
      if InBackend(g) && !(InBackend(e) && g.attempts == e.attempts) {
        if InBackend(f) && g.attempts == f.attempts {
          var j :| |e.jobs| <= j < |f.jobs| && f.jobs[j] == Job(DispatchCall, f.attempts, Waiting);
          assert g.jobs[j] == f.jobs[j];
        } else {
          var j :| |f.jobs| <= j < |g.jobs| && g.jobs[j] == Job(DispatchCall, g.attempts, Waiting);
          assert Called(e, g);
        }
      }
    }
  }

  lemma SameEntryRel(e: Entry, m: Mode)
    ensures EntryRel(e, e, m)
  {
  }

  /** Blame stays where it is as long as the failed step and the dependencies do. */
  lemma BlameStays(t: RunEntry, u: RunEntry, n: string)
    requires HasFailedAncestor(t, n) && ViewOf(u).deps == ViewOf(t).deps
    requires forall a :: ViewOf(t).Is(a, Failed) ==> ViewOf(u).Is(a, Failed)
    ensures HasFailedAncestor(u, n)
  {
    var v, w := ViewOf(t), ViewOf(u);
    var a :| v.Is(a, Failed) && Ancestor(v, a, n);
    var p :| Ascends(v, p) && p[0] == n && p[|p| - 1] == a;
    forall i: nat | i + 1 < |p| ensures Hop(w, p, i) { assert Hop(v, p, i); }
    assert Ascends(w, p);
  }

  lemma SkipsBlamedTransitive(r: RunEntry, t: RunEntry, u: RunEntry, m: Mode)
    requires SkipsBlamed(r, t) && SkipsBlamed(t, u) && RunRel(r, t, m) && RunRel(t, u, m)
    ensures SkipsBlamed(r, u)
  {
    hide JobsRel, CallsStay, CalledIfNew, NotRequeued, Pays, HasFailedAncestor;
    forall n | n in t.tasks ensures u.tasks[n].dependsOn == t.tasks[n].dependsOn
      ensures Terminal(t.tasks[n].status) ==> u.tasks[n].status == t.tasks[n].status
    {
      assert EntryRel(t.tasks[n], u.tasks[n], m);
    }
    hide EntryRel;
    assert ViewOf(u).deps == ViewOf(t).deps;
    forall n | NewlySkipped(r, u, n) ensures HasFailedAncestor(u, n) {
      if NewlySkipped(r, t, n) { BlameStays(t, u, n); } else { assert NewlySkipped(t, u, n); }
    }
  }

  lemma RunRelTransitive(r: RunEntry, t: RunEntry, u: RunEntry, m: Mode)
    requires RunRel(r, t, m) && RunRel(t, u, m)
    ensures RunRel(r, u, m)
  {
    if !m.stray { SkipsBlamedTransitive(r, t, u, m); }
    hide EntryRel, SkipsBlamed;
    forall n | n in r.tasks ensures EntryRel(r.tasks[n], u.tasks[n], m) {
      EntryRelTransitive(r.tasks[n], t.tasks[n], u.tasks[n], m);
    }
  }

  lemma SameRunRel(r: RunEntry, m: Mode)
    ensures RunRel(r, r, m)
  {
    hide EntryRel;
    forall n | n in r.tasks ensures EntryRel(r.tasks[n], r.tasks[n], m) { SameEntryRel(r.tasks[n], m); }
  }

  lemma StepRelTransitive(s: State, t: State, u: State, m: Mode)
    requires StepRel(s, t, m) && StepRel(t, u, m)
    ensures StepRel(s, u, m)
  {
    hide RunRel;
    forall i | 0 <= i < |s.heap| ensures RunRel(s.heap[i], u.heap[i], m) {
      RunRelTransitive(s.heap[i], t.heap[i], u.heap[i], m);
    }
  }

  lemma StepRelSelf(s: State, m: Mode)
    ensures StepRel(s, s, m)
  {
    hide RunRel;
    forall i | 0 <= i < |s.heap| ensures RunRel(s.heap[i], s.heap[i], m) { SameRunRel(s.heap[i], m); }
  }

  /** `n` allows whatever `m` does. */
  predicate Wider(m: Mode, n: Mode) {
    (m.moves ==> n.moves) && (m.busy ==> n.busy) && (m.idle ==> n.idle) && (m.stray ==> n.stray)
    && (m.enters ==> n.enters) && (m.renews ==> n.renews) && (n.renews || m.at.None? || m.at == n.at)
  }

  lemma StepRelWiden(s: State, t: State, m: Mode, n: Mode)
    requires StepRel(s, t, m) && Wider(m, n)
    ensures StepRel(s, t, n)
  {
    hide JobsRel, CallsStay, CalledIfNew, NotRequeued, Pays, SameStep, SkipsBlamed;
    forall i | 0 <= i < |s.heap| ensures RunRel(s.heap[i], t.heap[i], n) {
      assert RunRel(s.heap[i], t.heap[i], m);
      forall x | x in s.heap[i].tasks ensures EntryRel(s.heap[i].tasks[x], t.heap[i].tasks[x], n) {
        assert EntryRel(s.heap[i].tasks[x], t.heap[i].tasks[x], m);
      }
    }
  }

  /** One run changes from `r` to `t`. */
  lemma OneRunRel(s: State, u: State, i: nat, m: Mode)
    requires i < |s.heap| == |u.heap| && RunRel(s.heap[i], u.heap[i], m)
    requires forall k :: 0 <= k < |s.heap| && k != i ==> u.heap[k] == s.heap[k]
    ensures StepRel(s, u, m)
  {
    hide RunRel;
    forall k | 0 <= k < |s.heap| ensures RunRel(s.heap[k], u.heap[k], m) {
      if k != i { SameRunRel(s.heap[k], m); }
    }
  }

  lemma SetTaskRunRel(r: RunEntry, n: string, f: Entry, m: Mode)
    requires n in r.tasks && EntryRel(r.tasks[n], f, m) && (f.status.Skipped? ==> r.tasks[n].status.Skipped?)
    ensures RunRel(r, SetTask(r, n, f), m)
  {
    hide EntryRel;
    forall x | x in r.tasks ensures EntryRel(r.tasks[x], SetTask(r, n, f).tasks[x], m) {
      if x != n { SameEntryRel(r.tasks[x], m); }
    }
  }

  lemma SetEntryRel(s: State, i: nat, n: string, f: Entry, m: Mode)
    requires HasTask(s, i, n) && EntryRel(s.heap[i].tasks[n], f, m)
    requires f.status.Skipped? ==> s.heap[i].tasks[n].status.Skipped?
    ensures StepRel(s, SetEntry(s, i, n, f), m)
  {
    hide EntryRel, RunRel;
    SetTaskRunRel(s.heap[i], n, f, m);
    OneRunRel(s, SetEntry(s, i, n, f), i, m);
  }

  /** Closing a run, or overwriting it, changes no step. */
  lemma CloseRunRel(r: RunEntry, c: Closing, m: Mode)
    requires r.closing.Open? && (c.Overwritten? ==> m.enters)
    ensures RunRel(r, r.(closing := c), m)
  {
    hide EntryRel;
    SameRunRel(r, m);
  }

  lemma CloseIfSettledRel(s: State, i: nat, m: Mode)
    requires i < |s.heap| && s.heap[i].closing.Open?
    ensures StepRel(s, CloseIfSettled(s, i), m)
  {
    hide AllTasksSettled, AnyFailed;
    CloseRunRel(s.heap[i], Completed(!AnyFailed(s.heap[i])), m);
    SameRunRel(s.heap[i], m);
    hide RunRel;
    OneRunRel(s, CloseIfSettled(s, i), i, m);
  }

  /*** Entries ***/

  /** What one locked operation of the queue does, with or without a backend. */
  function Locked(backend: bool, at: Option<int>): Mode {
    Mode(false, false, !backend, false, false, false, at)
  }

  predicate Tidy(e: Entry) {
    HandleOk(e) && Accounted(e)
  }

  lemma StopTimerRel(e: Entry)
    requires HandleOk(e)
    ensures var f := StopTimer(e);
      f == e.(timer := None, jobs := f.jobs) && |f.jobs| == |e.jobs| && JobsRel(e, f) && CallsStay(e, f)
  {
  }

  lemma RearmRel(e: Entry, kind: JobKind)
    requires HandleOk(e) && !kind.DispatchCall?
    ensures var f := Rearm(e, kind);
      f == e.(timer := f.timer, jobs := f.jobs) && |f.jobs| == |e.jobs| + 1 && JobsRel(e, f) && CallsStay(e, f) && HandleOk(f)
  {
    StopTimerRel(e);
  }

  lemma DispatchRel(e: Entry, backend: bool, now: int)
    requires HandleOk(e) && e.status.Ready?
    ensures var f := Dispatch(e, backend, now);
      && SameStep(e, f)
      && f == e.(status := f.status, attempts := f.attempts, starts := f.starts, jobs := f.jobs, timer := f.timer, leaseAt := f.leaseAt)
      && JobsRel(e, f) && CallsStay(e, f)
      && (if backend then f.status.Running? && f.attempts == e.attempts + 1 && f.starts == e.starts + 1 && f.leaseAt == Some(now) && Called(e, f)
          else f == e)
  {
    hide Rearm;
    var s := Transition(e.(attempts := e.attempts + 1), Running).(leaseAt := Some(now), starts := e.starts + 1);
    RearmRel(s, Timeout);
    var f := Dispatch(e, backend, now);
    if backend {
      var t := Start(e, now);
      assert f.jobs == t.jobs + [Job(DispatchCall, t.attempts, Waiting)];
      assert f.jobs[|t.jobs|] == Job(DispatchCall, f.attempts, Waiting);
    }
  }

  lemma EndEntryRel(e: Entry, to: Status, backend: bool, at: Option<int>)
    requires Tidy(e) && !Terminal(e.status) && Terminal(to)
    ensures EntryRel(e, Finish(e, to), Locked(backend, at)) && EntryRel(e, Transition(StopTimer(e), to), Locked(backend, at))
    ensures EntryRel(e, Transition(e, to), Locked(backend, at))
  {
    hide StopTimer;
    StopTimerRel(e);
  }

  lemma PromoteRel(e: Entry, backend: bool, now: int)
    requires Tidy(e) && e.status.Pending?
    ensures EntryRel(e, Promote(e, backend, now), Locked(backend, Some(now)))
  {
    hide Dispatch;
    DispatchRel(Transition(e, Ready), backend, now);
  }

  lemma BusyRequeueRel(e: Entry, foreign: bool)
    requires Tidy(e) && e.status.Running?
    ensures EntryRel(e, BusyRequeue(e, foreign), BUSY)
  {
    hide Rearm;
    var back := if e.attempts - 1 < 0 then 0 else e.attempts - 1;
    RearmRel(Transition(e.(attempts := back), Ready)
          .(assignedRuntimeID := "", leaseAt := None, requeues := e.requeues + 1,
            foreign := e.foreign + (if foreign then 1 else 0)), Requeue);
  }

  lemma RetryLaterRel(e: Entry, retryDelay: int, backend: bool, now: int)
    requires Tidy(e) && InProgress(e.status) && e.attempts < e.maxAttempts
    ensures EntryRel(e, RetryLater(e, retryDelay, backend, now), Locked(backend, Some(now)))
  {
    hide StopTimer, Dispatch, Rearm;
    StopTimerRel(e);
    var r := ToRetrying(e);
    ToRetryingInv(e);
    RearmRel(r, Retry);
    DispatchRel(Transition(r, Ready).(timer := None), backend, now);
  }

  lemma QuietEntryRel(e: Entry, runtimeID: string, now: int, m: Mode)
    requires Tidy(e)
    ensures EntryRel(e, e.(timer := None), m)
    ensures m.renews ==> EntryRel(e, RenewEntry(e, runtimeID, now), m)
  {
    hide StopTimer;
    StopTimerRel(e);
    StopTimerRel(e.(assignedRuntimeID := runtimeID));
  }

  lemma SetPhaseRel(e: Entry, j: nat, p: Phase)
    requires j < |e.jobs| && Rank(p) >= Rank(e.jobs[j].phase)
    ensures EntryRel(e, SetPhase(e, j, p), MOVES)
  {
  }

  lemma RedispatchRel(e: Entry, backend: bool, now: int)
    requires Tidy(e) && Held(e)
    ensures EntryRel(e, Dispatch(Transition(e.(timer := None), Ready), backend, now), Locked(backend, Some(now)))
  {
    hide Dispatch;
    DispatchRel(Transition(e.(timer := None), Ready), backend, now);
  }

  /*** Runs ***/

  predicate RunTidy(r: RunEntry) {
    forall n :: n in r.tasks ==> Tidy(r.tasks[n])
  }

  lemma RunTidyOf(s: State, i: nat)
    requires Inv(s) && i < |s.heap|
    ensures RunTidy(s.heap[i])
  {
    assert GoodRun(s.heap[i], s.cfg.backend, s.alive);
    hide HandleOk, Accounted;
    forall n | n in s.heap[i].tasks ensures Tidy(s.heap[i].tasks[n]) {
      assert EntryInv(s.heap[i].tasks[n], s.cfg.backend, Awake(s.heap[i], s.alive));
    }
  }

  lemma PromoteReadyRel(r: RunEntry, backend: bool, now: int)
    requires RunTidy(r)
    ensures RunRel(r, PromoteReady(r, backend, now), Locked(backend, Some(now)))
  {
    hide Promote, EntryRel, Tidy;
    var t := PromoteReady(r, backend, now);
    forall n | n in r.tasks
      ensures EntryRel(r.tasks[n], t.tasks[n], Locked(backend, Some(now))) && (t.tasks[n].status.Skipped? ==> r.tasks[n].status.Skipped?)
    {
      SameEntryRel(r.tasks[n], Locked(backend, Some(now)));
      if r.tasks[n].status.Pending? {
        PromoteRel(r.tasks[n], backend, now);
        PromotedIsNotSkipped(r.tasks[n], backend, now);
      }
    }
  }

  lemma PromotedIsNotSkipped(e: Entry, backend: bool, now: int)
    requires e.status.Pending?
    ensures !Promote(e, backend, now).status.Skipped?
  {
    hide Rearm;
    var f := Transition(e, Ready);
    var s := Transition(f.(attempts := f.attempts + 1), Running).(leaseAt := Some(now), starts := f.starts + 1);
    assert Rearm(s, Timeout).status == s.status by { RearmStatus(s, Timeout); }
  }

  lemma RearmStatus(e: Entry, kind: JobKind)
    ensures Rearm(e, kind).status == e.status
  {
  }

  /** Going up a chain of skipped dependents leads to where it began. */
  lemma {:induction false} SkipPathAscends(tasks: map<string, Entry>, v: View, p: seq<string>)
    requires SkipPath(tasks, p) && forall n :: n in tasks ==> n in v.deps && v.deps[n] == tasks[n].dependsOn
    ensures Ancestor(v, p[0], p[|p| - 1])
    decreases |p|
  {
    var last := |p| - 1;
    assert SkipHop(tasks, p, last - 1);
    if last == 1 {
      DirectAncestor(v, p[1], p[0]);
    } else {
      PrefixPath(tasks, p);
      SkipPathAscends(tasks, v, p[..last]);
      ExtendAncestor(v, p[last], p[last - 1], p[0]);
    }
  }

  lemma SkippedIsBelow(r: RunEntry, t: RunEntry, from: string, n: string)
    requires n in SkipSet(r.tasks, from) && ViewOf(t).deps == ViewOf(r).deps
    ensures Ancestor(ViewOf(t), from, n)
  {
    var p :| SkipPath(r.tasks, p) && p[0] == from && p[|p| - 1] == n;
    SkipPathAscends(r.tasks, ViewOf(t), p);
  }

  lemma SkipEntriesRel(r: RunEntry, from: string, backend: bool, n: string, at: Option<int>)
    requires RunTidy(r) && n in r.tasks
    ensures EntryRel(r.tasks[n], SkipDownstream(r, from).tasks[n], Locked(backend, at))
  {
    hide SkipSet, EntryRel, Tidy;
    SameEntryRel(r.tasks[n], Locked(backend, at));
    if n in SkipSet(r.tasks, from) {
      var d := SkipSetCause(r.tasks, from, n);
      assert Tidy(r.tasks[n]);
      EndEntryRel(r.tasks[n], Skipped, backend, at);
    }
  }

  lemma SkipDownstreamRel(r: RunEntry, from: string, backend: bool, at: Option<int>)
    requires RunTidy(r) && from in r.tasks && r.tasks[from].status.Failed?
    ensures RunRel(r, SkipDownstream(r, from), Locked(backend, at))
  {
    hide SkipSet, EntryRel, Tidy, Ancestor;
    var t := SkipDownstream(r, from);
    forall n | n in r.tasks ensures EntryRel(r.tasks[n], t.tasks[n], Locked(backend, at)) {
      SkipEntriesRel(r, from, backend, n, at);
    }
    SkipKeepsDeps(r, from);
    assert ViewOf(t).Is(from, Failed);
    forall n | NewlySkipped(r, t, n) ensures HasFailedAncestor(t, n) {
      assert n in SkipSet(r.tasks, from);
      SkippedIsBelow(r, t, from, n);
    }
  }

  lemma SkipKeepsDeps(r: RunEntry, from: string)
    ensures ViewOf(SkipDownstream(r, from)).deps == ViewOf(r).deps
  {
    hide SkipSet;
  }

  lemma StraySkipRel(r: RunEntry, from: string, backend: bool, at: Option<int>)
    requires RunTidy(r)
    ensures RunRel(r, StraySkip(r, from), Locked(backend, at).(stray := true))
  {
    hide SkipSet, EntryRel, Tidy;
    forall n | n in r.tasks ensures EntryRel(r.tasks[n], StraySkip(r, from).tasks[n], Locked(backend, at).(stray := true)) {
      SkipEntriesRel(r, from, backend, n, at);
      EntryRelStray(r.tasks[n], StraySkip(r, from).tasks[n], Locked(backend, at));
    }
  }

  /** What the deadline of a lost entry may do shows in the run alone. */
  lemma EntryRelStray(e: Entry, f: Entry, m: Mode)
    requires EntryRel(e, f, m)
    ensures EntryRel(e, f, m.(stray := true))
  {
  }

  /*** Compound steps ***/

  lemma CompleteDoneRel(s: State, i: nat, n: string, now: int)
    requires HasTask(s, i, n) && !Terminal(s.heap[i].tasks[n].status) && s.heap[i].closing.Open? && RunTidy(s.heap[i])
    requires s.heap[i].tasks[n].attempts > 0
    ensures StepRel(s, CompleteDone(s, i, n, now), Locked(s.cfg.backend, Some(now)))
  {
    hide PromoteReady, CloseIfSettled, RunRel, EntryRel, StepRel, HandleOk, Accounted, Finish;
    var e, m := s.heap[i].tasks[n], Locked(s.cfg.backend, Some(now));
    var g := Finish(e, Done);
    EndEntryRel(e, Done, s.cfg.backend, Some(now));
    var r := SetTask(s.heap[i], n, g);
    FinishInv(e, Done, s.cfg.backend, false);
    SetTaskRunRel(s.heap[i], n, g, m);
    assert RunTidy(r);
    PromoteReadyRel(r, s.cfg.backend, now);
    var t := PromoteReady(r, s.cfg.backend, now);
    PromoteKeepsFrame(r, s.cfg.backend, now);
    RunRelTransitive(s.heap[i], r, t, m);
    OneRunRel(s, SetRun(s, i, t), i, m);
    CloseIfSettledRel(SetRun(s, i, t), i, m);
    StepRelTransitive(s, SetRun(s, i, t), CloseIfSettled(SetRun(s, i, t), i), m);
  }

  lemma RetryStatus(e: Entry, retryDelay: int, backend: bool, now: int)
    requires !Terminal(e.status)
    ensures !RetryLater(e, retryDelay, backend, now).status.Skipped?
  {
    hide Rearm, StopTimer;
    var r := ToRetrying(e);
    assert StopTimer(e).status == e.status by { StopStatus(e); }
    RearmStatus(r, Retry);
    var f := Transition(r, Ready).(timer := None);
    RearmStatus(Transition(f.(attempts := f.attempts + 1), Running).(leaseAt := Some(now), starts := f.starts + 1), Timeout);
  }

  lemma StopStatus(e: Entry)
    ensures StopTimer(e).status == e.status
  {
  }

  lemma FailedRunRel(r: RunEntry, n: string, backend: bool, at: Option<int>)
    requires RunTidy(r) && n in r.tasks && InProgress(r.tasks[n].status)
    ensures var t := SkipDownstream(SetTask(r, n, Finish(r.tasks[n], Failed)), n);
      RunRel(r, t, Locked(backend, at)) && t.closing == r.closing
  {
    hide Finish, SkipDownstream, RunRel, EntryRel, HandleOk, Accounted;
    var e, g := r.tasks[n], Finish(r.tasks[n], Failed);
    assert Tidy(e);
    EndEntryRel(e, Failed, backend, at);
    FinishInv(e, Failed, backend, false);
    var u := SetTask(r, n, g);
    SetTaskRunRel(r, n, g, Locked(backend, at));
    assert RunTidy(u);
    SkipDownstreamRel(u, n, backend, at);
    SkipFrame(u, n);
    RunRelTransitive(r, u, SkipDownstream(u, n), Locked(backend, at));
  }

  lemma FailOrRetryRel(s: State, i: nat, n: string, now: int)
    requires HasTask(s, i, n) && InProgress(s.heap[i].tasks[n].status) && s.heap[i].closing.Open? && RunTidy(s.heap[i])
    ensures StepRel(s, FailOrRetry(s, i, n, now), Locked(s.cfg.backend, Some(now)))
  {
    var e, m := s.heap[i].tasks[n], Locked(s.cfg.backend, Some(now));
    RetryStatus(e, s.cfg.retryDelay, s.cfg.backend, now);
    hide Finish, SkipDownstream, CloseIfSettled, RetryLater, RunRel, EntryRel, StepRel, HandleOk, Accounted;
    if e.attempts < e.maxAttempts {
      RetryLaterRel(e, s.cfg.retryDelay, s.cfg.backend, now);
      SetEntryRel(s, i, n, RetryLater(e, s.cfg.retryDelay, s.cfg.backend, now), m);
    } else {
      var t := SkipDownstream(SetTask(s.heap[i], n, Finish(e, Failed)), n);
      FailedRunRel(s.heap[i], n, s.cfg.backend, Some(now));
      OneRunRel(s, SetRun(s, i, t), i, m);
      CloseIfSettledRel(SetRun(s, i, t), i, m);
      StepRelTransitive(s, SetRun(s, i, t), CloseIfSettled(SetRun(s, i, t), i), m);
    }
  }

  /** The entry fails in its lost run, its dependents are skipped in the tracked one. */
  lemma LostEndRel(s: State, k: nat, i: nat, n: string, at: Option<int>)
    requires HasTask(s, i, n) && InProgress(s.heap[i].tasks[n].status) && RunTidy(s.heap[i])
    requires k < |s.heap| && k != i && s.heap[k].closing.Open? && RunTidy(s.heap[k])
    ensures var t := SetEntry(s, i, n, Finish(s.heap[i].tasks[n], Failed));
      StepRel(s, CloseIfSettled(SetRun(t, k, StraySkip(s.heap[k], n)), k), Locked(s.cfg.backend, at).(stray := true))
  {
    hide Finish, StraySkip, CloseIfSettled, RunRel, EntryRel, StepRel, HandleOk, Accounted;
    var e, m := s.heap[i].tasks[n], Locked(s.cfg.backend, at).(stray := true);
    assert Tidy(e);
    var t := SetEntry(s, i, n, Finish(e, Failed));
    EndEntryRel(e, Failed, s.cfg.backend, at);
    EntryRelStray(e, Finish(e, Failed), Locked(s.cfg.backend, at));
    FinishInv(e, Failed, s.cfg.backend, false);
    SetEntryRel(s, i, n, Finish(e, Failed), m);
    StraySkipRel(s.heap[k], n, s.cfg.backend, at);
    StrayFrame(s.heap[k], n);
    var u := SetRun(t, k, StraySkip(s.heap[k], n));
    OneRunRel(t, u, k, m);
    StepRelTransitive(s, t, u, m);
    CloseIfSettledRel(u, k, m);
    StepRelTransitive(s, u, CloseIfSettled(u, k), m);
  }

  lemma FailLostRel(s: State, k: nat, i: nat, n: string, now: int)
    requires HasTask(s, i, n) && InProgress(s.heap[i].tasks[n].status) && RunTidy(s.heap[i])
    requires k < |s.heap| && k != i && s.heap[k].closing.Open? && RunTidy(s.heap[k])
    ensures var e := s.heap[i].tasks[n];
      StepRel(s, FailLost(s, k, i, n, now), Locked(s.cfg.backend, Some(now)).(stray := e.attempts >= e.maxAttempts))
  {
    var e := s.heap[i].tasks[n];
    RetryStatus(e, s.cfg.retryDelay, s.cfg.backend, now);
    hide Finish, StraySkip, CloseIfSettled, RetryLater, EntryRel, StepRel, HandleOk, Accounted;
    assert Tidy(e);
    if e.attempts < e.maxAttempts {
      RetryLaterRel(e, s.cfg.retryDelay, s.cfg.backend, now);
      SetEntryRel(s, i, n, RetryLater(e, s.cfg.retryDelay, s.cfg.backend, now), Locked(s.cfg.backend, Some(now)));
    } else {
      LostEndRel(s, k, i, n, Some(now));
    }
  }

  lemma SkipFrame(r: RunEntry, n: string)
    ensures SkipDownstream(r, n).runID == r.runID && SkipDownstream(r, n).closing == r.closing
  {
  }

  lemma CompleteRel(s: State, res: Result, routerOwner: string, now: int)
    requires Inv(s) && res.attempt >= 0
    ensures StepRel(s, CompleteResult(s, res, routerOwner, now), Locked(s.cfg.backend, Some(now)))
  {
    hide Inv, CompleteDone, FailOrRetry, StepRel;
    if JudgeResult(s, res, routerOwner) == Applied {
      var (runID, n) := SplitTaskID(res.taskID).value;
      var i := s.runs[runID];
      AppliedMeansInProgress(s, res, routerOwner);
      IndexedBy(s, runID);
      TrackedIfUnfinished(s, i, n);
      RunTidyOf(s, i);
      SetEntrySame(s, i, n);
      if res.done { CompleteDoneRel(s, i, n, now); } else { FailOrRetryRel(s, i, n, now); }
    } else {
      StepRelSelf(s, Locked(s.cfg.backend, Some(now)));
    }
  }

  lemma SetEntrySame(s: State, i: nat, n: string)
    requires HasTask(s, i, n)
    ensures SetEntry(s, i, n, s.heap[i].tasks[n]) == s
  {
    assert SetTask(s.heap[i], n, s.heap[i].tasks[n]) == s.heap[i];
  }

  lemma CancelRel(s: State, runID: string)
    requires Inv(s)
    ensures StepRel(s, CancelState(s, runID), Locked(s.cfg.backend, None))
  {
    hide Inv, CancelTasks, RunRel, StepRel;
    StructOf(s);
    if runID in s.runs {
      var i := s.runs[runID];
      assert Tracked(s, i);
      RunTidyOf(s, i);
      CancelRunRel(s.heap[i], s.cfg.backend);
      OneRunRel(s, CancelState(s, runID), i, Locked(s.cfg.backend, None));
    } else {
      StepRelSelf(s, Locked(s.cfg.backend, None));
    }
  }

  lemma CancelRunRel(r: RunEntry, backend: bool)
    requires r.closing.Open? && RunTidy(r)
    ensures RunRel(r, r.(tasks := CancelTasks(r.tasks), closing := CanceledRun), Locked(backend, None))
  {
    hide EntryRel, Tidy, StopTimer;
    var tasks := CancelTasks(r.tasks);
    forall n | n in r.tasks
      ensures EntryRel(r.tasks[n], tasks[n], Locked(backend, None)) && (tasks[n].status.Skipped? ==> r.tasks[n].status.Skipped?)
    {
      StopStatus(r.tasks[n]);
      if !Terminal(r.tasks[n].status) { EndEntryRel(r.tasks[n], Canceled, backend, None); } else { SameEntryRel(r.tasks[n], Locked(backend, None)); }
    }
  }

  lemma CleanupRel(s: State, cutoff: int)
    requires Inv(s)
    ensures StepRel(s, CleanupState(s, cutoff), Locked(s.cfg.backend, None))
  {
    hide Inv, ExpireTasks, RunRel, RunExpired;
    StructOf(s);
    var t := CleanupState(s, cutoff);
    forall i | 0 <= i < |s.heap| ensures RunRel(s.heap[i], t.heap[i], Locked(s.cfg.backend, None)) {
      assert Tracked(s, i) <==> s.heap[i].closing.Open?;
      SameRunRel(s.heap[i], Locked(s.cfg.backend, None));
      RunTidyOf(s, i);
      if s.heap[i].closing.Open? { ExpireRunRel(s.heap[i], s.cfg.backend); }
    }
  }

  lemma ExpireRunRel(r: RunEntry, backend: bool)
    requires r.closing.Open? && RunTidy(r)
    ensures RunRel(r, r.(tasks := ExpireTasks(r.tasks), closing := Expired), Locked(backend, None))
  {
    hide StopTimer, EntryRel, Tidy;
    var tasks := ExpireTasks(r.tasks);
    forall n | n in r.tasks
      ensures EntryRel(r.tasks[n], tasks[n], Locked(backend, None)) && (tasks[n].status.Skipped? ==> r.tasks[n].status.Skipped?)
    {
      StopStatus(r.tasks[n]);
      if !Terminal(r.tasks[n].status) { EndEntryRel(r.tasks[n], Failed, backend, None); } else { SameEntryRel(r.tasks[n], Locked(backend, None)); }
    }
  }

  lemma {:induction false} RenewAllRel(s: State, runtimeID: string, taskIDs: seq<string>, now: int, m: Mode)
    requires Inv(s) && m.renews
    ensures StepRel(s, RenewAll(s, runtimeID, taskIDs, now), m)
    decreases |taskIDs|
  {
    hide RunRel, EntryRel, StepRel, RenewEntry, Inv;
    if taskIDs != [] {
      var t, id := RenewAll(s, runtimeID, taskIDs[..|taskIDs| - 1], now), SplitTaskID(taskIDs[|taskIDs| - 1]);
      RenewAllRel(s, runtimeID, taskIDs[..|taskIDs| - 1], now, m);
      RenewAllInv(s, runtimeID, taskIDs[..|taskIDs| - 1], now);
      var u := RenewOne(t, runtimeID, taskIDs[|taskIDs| - 1], now);
      if id.Some? && id.value.0 in t.runs && HasTask(t, t.runs[id.value.0], id.value.1) {
        var i, n := t.runs[id.value.0], id.value.1;
        BooksOf(t, i, n);
        QuietEntryRel(t.heap[i].tasks[n], runtimeID, now, m);
        RenewStatus(t.heap[i].tasks[n], runtimeID, now);
        SetEntryRel(t, i, n, RenewEntry(t.heap[i].tasks[n], runtimeID, now), m);
      } else {
        StepRelSelf(t, m);
      }
      StepRelTransitive(s, t, u, m);
    } else {
      StepRelSelf(s, m);
    }
  }

  lemma RenewStatus(e: Entry, runtimeID: string, now: int)
    ensures RenewEntry(e, runtimeID, now).status == e.status || RenewEntry(e, runtimeID, now).status.Running?
  {
  }

  lemma MoveJobRel(s: State, i: nat, n: string, j: nat, p: Phase)
    requires HasJob(s, i, n, j) && Rank(p) >= Rank(s.heap[i].tasks[n].jobs[j].phase)
    ensures StepRel(s, MoveJob(s, i, n, j, p), MOVES)
  {
    SetPhaseRel(s.heap[i].tasks[n], j, p);
    SetEntryRel(s, i, n, SetPhase(s.heap[i].tasks[n], j, p), MOVES);
  }

  /** The deadline of an entry that is not the tracked one of its run ID, and has no attempt left. */
  predicate LostDeadline(s: State, i: nat, n: string, kind: JobKind)
    requires HasTask(s, i, n)
  {
    var e := s.heap[i].tasks[n];
    && s.alive && ((kind.Timeout? && e.status.Running?) || (kind.Grace? && e.status.Recovering?))
    && s.heap[i].runID in s.runs && s.runs[s.heap[i].runID] != i && e.attempts >= e.maxAttempts
  }

  lemma DeadlineRel(s: State, i: nat, n: string, now: int)
    requires HasTask(s, i, n) && InProgress(s.heap[i].tasks[n].status) && RunTidy(s.heap[i])
    requires s.heap[i].runID in s.runs ==>
      var k := s.runs[s.heap[i].runID]; k < |s.heap| && s.heap[k].closing.Open? && RunTidy(s.heap[k])
    ensures var e := s.heap[i].tasks[n];
      var lost := s.heap[i].runID in s.runs && s.runs[s.heap[i].runID] != i && e.attempts >= e.maxAttempts;
      StepRel(s, DeadlinePassed(s, i, n, now), Locked(s.cfg.backend, Some(now)).(stray := lost))
  {
    hide FailOrRetry, FailLost, RunRel, EntryRel, StepRel, HandleOk, Accounted;
    var e := s.heap[i].tasks[n];
    var lost := s.heap[i].runID in s.runs && s.runs[s.heap[i].runID] != i && e.attempts >= e.maxAttempts;
    var m := Locked(s.cfg.backend, Some(now)).(stray := lost);
    assert Tidy(e);
    if s.heap[i].runID in s.runs {
      var k, f := s.runs[s.heap[i].runID], e.(timer := None);
      var t := SetEntry(s, i, n, f);
      QuietEntryRel(e, "", 0, m);
      SetEntryRel(s, i, n, f, m);
      DropHandleTidy(e);
      assert RunTidy(t.heap[i]);
      if k == i {
        FailOrRetryRel(t, i, n, now);
        StepRelTransitive(s, t, FailOrRetry(t, i, n, now), m);
      } else {
        FailLostRel(t, k, i, n, now);
        StepRelTransitive(s, t, FailLost(t, k, i, n, now), m);
      }
    } else {
      StepRelSelf(s, m);
    }
  }

  /** The requeue and retry callbacks touch their entry alone. */
  lemma RedispatchedRel(s: State, i: nat, n: string, now: int)
    requires HasTask(s, i, n) && Tidy(s.heap[i].tasks[n]) && Held(s.heap[i].tasks[n])
    ensures StepRel(s, SetEntry(s, i, n, Dispatch(Transition(s.heap[i].tasks[n].(timer := None), Ready), s.cfg.backend, now)),
                    Locked(s.cfg.backend, Some(now)))
  {
    hide Dispatch, RunRel, EntryRel, StepRel, HandleOk, Accounted;
    var e := s.heap[i].tasks[n];
    DispatchStatus(Transition(e.(timer := None), Ready), s.cfg.backend, now);
    RedispatchRel(e, s.cfg.backend, now);
    SetEntryRel(s, i, n, Dispatch(Transition(e.(timer := None), Ready), s.cfg.backend, now), Locked(s.cfg.backend, Some(now)));
  }

  lemma CallbackRel(s: State, i: nat, n: string, kind: JobKind, now: int)
    requires HasTask(s, i, n) && RunTidy(s.heap[i])
    requires s.heap[i].runID in s.runs ==>
      var k := s.runs[s.heap[i].runID]; k < |s.heap| && s.heap[k].closing.Open? && RunTidy(s.heap[k])
    ensures StepRel(s, Callback(s, i, n, kind, now), Locked(s.cfg.backend, Some(now)).(stray := LostDeadline(s, i, n, kind)))
  {
    hide DeadlinePassed, Dispatch, EntryRel, StepRel, HandleOk, Accounted;
    var e, m := s.heap[i].tasks[n], Locked(s.cfg.backend, Some(now)).(stray := LostDeadline(s, i, n, kind));
    assert Tidy(e);
    if s.alive && ((kind.Timeout? && e.status.Running?) || (kind.Grace? && e.status.Recovering?)) {
      DeadlineRel(s, i, n, now);
    } else if (kind.Requeue? && s.alive && e.status.Ready?) || (kind.Retry? && e.status.Retrying?) {
      assert e.status.Ready? ==> Transition(e.(timer := None), Ready) == e.(timer := None);
      RedispatchedRel(s, i, n, now);
    } else {
      QuietEntryRel(e, "", 0, m);
      SetEntryRel(s, i, n, e.(timer := None), m);
      StepRelSelf(s, m);
    }
  }

  lemma DispatchStatus(e: Entry, backend: bool, now: int)
    requires e.status.Ready?
    ensures !Dispatch(e, backend, now).status.Skipped?
  {
    hide Rearm;
    RearmStatus(Transition(e.(attempts := e.attempts + 1), Running).(leaseAt := Some(now), starts := e.starts + 1), Timeout);
  }

  lemma DropHandleTidy(e: Entry)
    requires Tidy(e)
    ensures Tidy(e.(timer := None))
  {
  }

  /** The mode of one event: only a busy refusal requeues. */
  predicate IsBusy(ev: Event) {
    ev.DispatchReturns? && ev.reply.Busy?
  }

  /** The callback of a lost entry's last deadline. */
  predicate IsStray(s: State, ev: Event) {
    && ev.TimerBody? && JobIn(s, ev.run, ev.step, ev.job, Active)
    && LostDeadline(s, ev.run, ev.step, s.heap[ev.run].tasks[ev.step].jobs[ev.job].kind)
  }

  /** When the event happens, if it reads the clock. */
  function TimeOf(ev: Event): Option<int> {
    match ev
    case Add(_, _, _, now) => Some(now)
    case Recover(_, _, _, _, now) => Some(now)
    case Complete(_, _, now) => Some(now)
    case RenewLeases(_, _, now) => Some(now)
    case TimerBody(_, _, _, now) => Some(now)
    case DispatchReturns(_, _, _, _, _, now) => Some(now)
    case _ => None
  }

  function ModeOf(s: State, ev: Event): Mode {
    Mode(false, IsBusy(ev), !s.cfg.backend, IsStray(s, ev), Enters(ev), ev.RenewLeases?, TimeOf(ev))
  }

  lemma BusyStatus(e: Entry, foreign: bool)
    requires e.status.Running?
    ensures BusyRequeue(e, foreign).status.Ready?
  {
  }

  lemma RequeuedRel(s: State, runID: string, n: string, from: nat)
    requires runID in s.runs && s.runs[runID] < |s.heap| ==> RunTidy(s.heap[s.runs[runID]])
    ensures StepRel(s, Requeued(s, runID, n, from), BUSY)
  {
    hide BusyRequeue, RunRel, EntryRel, StepRel, HandleOk, Accounted;
    var m := BUSY;
    StepRelSelf(s, m);
    if runID in s.runs && HasTask(s, s.runs[runID], n) && s.heap[s.runs[runID]].tasks[n].status.Running? {
      var i := s.runs[runID];
      assert Tidy(s.heap[i].tasks[n]);
      BusyStatus(s.heap[i].tasks[n], i != from);
      BusyRequeueRel(s.heap[i].tasks[n], i != from);
      SetEntryRel(s, i, n, BusyRequeue(s.heap[i].tasks[n], i != from), m);
    }
  }

  /*** One event is one job moving on, and one locked operation ***/

  /** The state after the job the event belongs to, if any, has moved on. */
  function Moved(s: State, ev: Event): State {
    match ev
    case TimerFires(i, n, j) => if JobIn(s, i, n, j, Waiting) && !IsDispatch(s, i, n, j) then MoveJob(s, i, n, j, Active) else s
    case TimerBody(i, n, j, _) => if JobIn(s, i, n, j, Active) && !IsDispatch(s, i, n, j) then MoveJob(s, i, n, j, Flushing) else s
    case DispatchCheck(i, n, j) =>
      if JobIn(s, i, n, j, Waiting) && IsDispatch(s, i, n, j)
      then MoveJob(s, i, n, j, if s.heap[i].tasks[n].status.Canceled? then Flushing else Active) else s
    case DispatchReturns(i, n, j, _, _, _) =>
      if JobIn(s, i, n, j, Active) && IsDispatch(s, i, n, j) then MoveJob(s, i, n, j, Flushing) else s
    case JobEnds(i, n, j) => if JobIn(s, i, n, j, Flushing) then MoveJob(s, i, n, j, Finished) else s
    case _ => s
  }

  lemma MovedRel(s: State, ev: Event)
    ensures StepRel(s, Moved(s, ev), MOVES)
  {
    hide StepRel, MoveJob;
    StepRelSelf(s, MOVES);
    match ev
    case TimerFires(i, n, j) => if JobIn(s, i, n, j, Waiting) { MoveJobRel(s, i, n, j, Active); }
    case TimerBody(i, n, j, _) => if JobIn(s, i, n, j, Active) { MoveJobRel(s, i, n, j, Flushing); }
    case DispatchCheck(i, n, j) =>
      if JobIn(s, i, n, j, Waiting) { MoveJobRel(s, i, n, j, if s.heap[i].tasks[n].status.Canceled? then Flushing else Active); }
    case DispatchReturns(i, n, j, _, _, _) => if JobIn(s, i, n, j, Active) { MoveJobRel(s, i, n, j, Flushing); }
    case JobEnds(i, n, j) => if JobIn(s, i, n, j, Flushing) { MoveJobRel(s, i, n, j, Finished); }
    case _ =>
  }

  /** No job of an entry carries anything else with it. */
  lemma MovedStatus(s: State, ev: Event, i: nat, n: string)
    requires HasTask(s, i, n)
    ensures HasTask(Moved(s, ev), i, n)
    ensures Moved(s, ev).heap[i].tasks[n] == s.heap[i].tasks[n].(jobs := Moved(s, ev).heap[i].tasks[n].jobs)
  {
  }

  lemma MovedTidy(s: State, i: nat, n: string, j: nat, p: Phase)
    requires Inv(s) && HasJob(s, i, n, j)
    ensures forall k :: 0 <= k < |s.heap| ==> RunTidy(MoveJob(s, i, n, j, p).heap[k])
  {
    hide Inv;
    forall k | 0 <= k < |s.heap| ensures RunTidy(s.heap[k]) { RunTidyOf(s, k); }
    assert Tidy(s.heap[i].tasks[n]);
    var e, f := s.heap[i].tasks[n], SetPhase(s.heap[i].tasks[n], j, p);
    hide CallsOk;
    SameCallsOk(e, f);
    assert Tidy(f);
  }

  lemma MovedLost(s: State, i: nat, n: string, j: nat, kind: JobKind)
    requires HasJob(s, i, n, j) && HasTask(MoveJob(s, i, n, j, Flushing), i, n)
    ensures LostDeadline(MoveJob(s, i, n, j, Flushing), i, n, kind) == LostDeadline(s, i, n, kind)
  {
    hide MoveJob;
    MoveJobFrame(s, i, n, j, Flushing);
  }

  lemma FoundOpen(s: State, i: nat, n: string, j: nat)
    requires Inv(s) && HasJob(s, i, n, j) && s.heap[i].runID in s.runs
    ensures var k := s.runs[s.heap[i].runID]; k < |s.heap| && MoveJob(s, i, n, j, Flushing).heap[k].closing.Open?
  {
    IndexedBy(s, s.heap[i].runID);
    TrackedGood(s, s.runs[s.heap[i].runID]);
  }

  lemma TimerMode(s: State, i: nat, n: string, j: nat, now: int)
    requires JobIn(s, i, n, j, Active)
    ensures ModeOf(s, TimerBody(i, n, j, now))
         == Locked(s.cfg.backend, Some(now)).(stray := LostDeadline(s, i, n, s.heap[i].tasks[n].jobs[j].kind))
  {
    hide LostDeadline;
  }

  lemma TimerBodyRel(s: State, i: nat, n: string, j: nat, now: int)
    requires Inv(s) && JobIn(s, i, n, j, Active)
    ensures var t, kind := MoveJob(s, i, n, j, Flushing), s.heap[i].tasks[n].jobs[j].kind;
      StepRel(t, Callback(t, i, n, kind, now), Locked(s.cfg.backend, Some(now)).(stray := LostDeadline(s, i, n, kind)))
  {
    hide Inv, Callback, StepRel, RunTidy, MoveJob, LostDeadline;
    var t, kind := MoveJob(s, i, n, j, Flushing), s.heap[i].tasks[n].jobs[j].kind;
    MoveJobFrame(s, i, n, j, Flushing);
    MovedTidy(s, i, n, j, Flushing);
    if s.heap[i].runID in s.runs { FoundOpen(s, i, n, j); }
    MovedLost(s, i, n, j, kind);
    CallbackRel(t, i, n, kind, now);
  }

  lemma DispatchReturnsRel(s: State, i: nat, n: string, j: nat, reply: Reply, routerOwner: string, now: int)
    requires Inv(s) && JobIn(s, i, n, j, Active) && IsDispatch(s, i, n, j)
    ensures var t := MoveJob(s, i, n, j, Flushing);
      StepRel(t, DispatchDone(t, i, n, s.heap[i].tasks[n].jobs[j].attempt, reply, routerOwner, now),
              Locked(s.cfg.backend, Some(now)).(busy := reply.Busy?))
  {
    hide Inv, CompleteResult, Requeued, StepRel, RunTidy, MoveJob;
    var t := MoveJob(s, i, n, j, Flushing);
    var a := s.heap[i].tasks[n].jobs[j].attempt;
    var m := Locked(s.cfg.backend, Some(now)).(busy := reply.Busy?);
    BooksOf(s, i, n);
    assert a > 0;
    MoveJobInv(s, i, n, j, Flushing);
    assert t.heap[i].runID == s.heap[i].runID && t.cfg == s.cfg by { MoveJobFrame(s, i, n, j, Flushing); }
    match reply
    case Accepted => StepRelSelf(t, m);
    case Busy =>
      var runID := t.heap[i].runID;
      if runID in t.runs && t.runs[runID] < |t.heap| { RunTidyOf(t, t.runs[runID]); }
      RequeuedRel(t, runID, n, i);
      StepRelWiden(t, Requeued(t, runID, n, i), BUSY, m);
    case Refused(runtimeID) =>
      CompleteRel(t, Result(MakeTaskID(t.heap[i].runID, n), runtimeID, false, a), routerOwner, now);
  }

  lemma MoveJobFrame(s: State, i: nat, n: string, j: nat, p: Phase)
    requires HasJob(s, i, n, j)
    ensures var t := MoveJob(s, i, n, j, p);
      && |t.heap| == |s.heap| && t.heap[i].runID == s.heap[i].runID && t.cfg == s.cfg && t.runs == s.runs && t.alive == s.alive
      && HasTask(t, i, n) && t.heap[i].tasks[n] == SetPhase(s.heap[i].tasks[n], j, p)
  {
  }

  lemma HeapOnlyGrows(s: State, t: State, m: Mode)
    requires s.heap <= t.heap
    ensures StepRel(s, t, m)
  {
    hide RunRel;
    forall i | 0 <= i < |s.heap| ensures RunRel(s.heap[i], t.heap[i], m) {
      assert t.heap[i] == s.heap[i];
      SameRunRel(s.heap[i], m);
    }
  }

  lemma DisplaceRel(s: State, runID: string, m: Mode)
    requires m.enters
    requires runID in s.runs && s.runs[runID] < |s.heap| ==> s.heap[s.runs[runID]].closing.Open?
    ensures StepRel(s, Displace(s, runID), m)
  {
    StepRelSelf(s, m);
    if runID in s.runs && s.runs[runID] < |s.heap| {
      var i := s.runs[runID];
      CloseRunRel(s.heap[i], Overwritten, m);
      OneRunRel(s, Displace(s, runID), i, m);
    }
  }

  /** An entering run changes no other but the one whose slot it takes. */
  lemma EntersRel(s: State, ev: Event, m: Mode)
    requires Inv(s) && Enters(ev) && m.enters
    ensures StepRel(s, Step(s, ev), m)
  {
    var d := Displace(s, EnteringID(ev));
    IndexedBy(s, EnteringID(ev));
    if EnteringID(ev) in s.runs { TrackedGood(s, s.runs[EnteringID(ev)]); }
    DisplaceRel(s, EnteringID(ev), m);
    EnteredOne(s, ev);
    hide StepRel, Displace;
    HeapOnlyGrows(d, Step(s, ev), m);
    StepRelTransitive(s, d, Step(s, ev), m);
  }

  /** Once its own job has moved on, an event is one locked operation. */
  lemma StepSplits(s: State, ev: Event)
    requires Inv(s) && Enabled(ev)
    ensures StepRel(Moved(s, ev), Step(s, ev), ModeOf(s, ev))
  {
    hide Inv, Callback, DispatchDone, CompleteResult, CancelState, CleanupState, RenewAll, MoveJob, StepRel, AddRun, RecoverRun;
    var m := ModeOf(s, ev);
    StepRelSelf(Step(s, ev), m);
    StepRelSelf(s, m);
    match ev
    case Add(_, _, _, _) => EntersRel(s, ev, m);
    case Recover(_, _, _, _, _) => EntersRel(s, ev, m);
    case Complete(res, owner, now) => CompleteRel(s, res, owner, now);
    case Cancel(runID) => CancelRel(s, runID);
    case RenewLeases(runtimeID, taskIDs, now) => RenewAllRel(s, runtimeID, taskIDs, now, m);
    case Cleanup(cutoff) => CleanupRel(s, cutoff);
    case SetRetryPolicy(_, _) => HeapOnlyGrows(s, Step(s, ev), m);
    case Shutdown => HeapOnlyGrows(s, Step(s, ev), m);
    case TimerFires(i, n, j) =>
    case TimerBody(i, n, j, now) =>
      if JobIn(s, i, n, j, Active) && !IsDispatch(s, i, n, j) {
        TimerMode(s, i, n, j, now);
        TimerBodyRel(s, i, n, j, now);
      }
    case DispatchCheck(i, n, j) =>
    case DispatchReturns(i, n, j, reply, owner, now) =>
      if JobIn(s, i, n, j, Active) && IsDispatch(s, i, n, j) { DispatchReturnsRel(s, i, n, j, reply, owner, now); }
    case JobEnds(i, n, j) =>
  }

  lemma StepKeepsHistory(s: State, ev: Event)
    requires Inv(s) && Enabled(ev)
    ensures StepRel(s, Step(s, ev), ModeOf(s, ev).(moves := true))
  {
    hide Inv, Step, Enabled, StepRel, Moved;
    var m := ModeOf(s, ev).(moves := true);
    MovedRel(s, ev);
    StepSplits(s, ev);
    StepRelWiden(s, Moved(s, ev), MOVES, m);
    StepRelWiden(Moved(s, ev), Step(s, ev), ModeOf(s, ev), m);
    StepRelTransitive(s, Moved(s, ev), Step(s, ev), m);
  }

  lemma {:induction false} ExecuteKeepsHistory(s: State, evs: seq<Event>, k: nat)
    requires Inv(s) && Possible(evs) && k <= |evs|
    ensures StepRel(Execute(s, evs[..k]), Execute(s, evs), ANYTHING)
    decreases |evs|
  {
    hide Inv, Step, Enabled, StepRel;
    if k == |evs| {
      assert evs[..k] == evs;
      StepRelSelf(Execute(s, evs), ANYTHING);
    } else {
      var init := evs[..|evs| - 1];
      assert init[..k] == evs[..k];
      ExecuteKeepsHistory(s, init, k);
      ExecuteKeepsInv(s, init);
      var u := Execute(s, init);
      StepKeepsHistory(u, evs[|evs| - 1]);
      StepRelWiden(u, Execute(s, evs), ModeOf(u, evs[|evs| - 1]).(moves := true), ANYTHING);
      StepRelTransitive(Execute(s, evs[..k]), u, Execute(s, evs), ANYTHING);
    }
  }

  lemma ExecuteNothing(s: State, evs: seq<Event>)
    ensures Execute(s, evs[..0]) == s
  {
  }

  /*** Runs enter one at a time ***/

  predicate Enters(ev: Event) {
    ev.Add? || ev.Recover?
  }

  function EnteringID(ev: Event): string
    requires Enters(ev)
  {
    if ev.Add? then ev.runID else ev.runID
  }

  /** Only Add and Recover make a run, one each, under the ID they were given; whoever was tracked under it is overwritten. */
  lemma HeapGrows(s: State, ev: Event)
    requires Inv(s) && Enabled(ev)
    ensures Step(s, ev).cfg.backend == s.cfg.backend
    ensures !Enters(ev) ==> |Step(s, ev).heap| == |s.heap|
    ensures Enters(ev) ==>
      && |Step(s, ev).heap| == |s.heap| + 1 && Displace(s, EnteringID(ev)).heap <= Step(s, ev).heap
      && Step(s, ev).heap[|s.heap|].runID == EnteringID(ev)
  {
    hide Inv, Step, Enabled, RunRel, Displace;
    if Enters(ev) { EnteredOne(s, ev); } else { HeapStays(s, ev); }
  }

  lemma EnteredOne(s: State, ev: Event)
    requires Enters(ev)
    ensures |Step(s, ev).heap| == |s.heap| + 1 && Displace(s, EnteringID(ev)).heap <= Step(s, ev).heap
    ensures Step(s, ev).heap[|s.heap|].runID == EnteringID(ev) && Step(s, ev).cfg == s.cfg
  {
    hide BuildTasks, RecoverTasks, ByName, AnyFailed, AllTasksSettled, PromoteOne;
  }

  lemma HeapStays(s: State, ev: Event)
    requires !Enters(ev)
    ensures |Step(s, ev).heap| == |s.heap| && Step(s, ev).cfg.backend == s.cfg.backend
  {
    hide RetryLater, SkipDownstream, Dispatch, CancelTasks, ExpireTasks, BusyRequeue, Finish, AllTasksSettled, AnyFailed, PromoteReady,
      SplitTaskID, Judge, Adopt, RunExpired, DispatchDone, Callback, CompleteResult;
    match ev
    case Complete(res, owner, now) => CompleteFrame(s, res, owner, now);
    case TimerBody(i, n, j, now) =>
      if JobIn(s, i, n, j, Active) && !IsDispatch(s, i, n, j) {
        CallbackFrame(MoveJob(s, i, n, j, Flushing), i, n, s.heap[i].tasks[n].jobs[j].kind, now);
      }
    case DispatchReturns(i, n, j, reply, owner, now) =>
      if JobIn(s, i, n, j, Active) && IsDispatch(s, i, n, j) {
        DoneFrame(MoveJob(s, i, n, j, Flushing), i, n, s.heap[i].tasks[n].jobs[j].attempt, reply, owner, now);
      }
    case RenewLeases(runtimeID, taskIDs, now) => RenewAllFrame(s, runtimeID, taskIDs, now);
    case _ =>
  }

  lemma FailFrame(s: State, i: nat, n: string, now: int)
    requires HasTask(s, i, n)
    ensures |FailOrRetry(s, i, n, now).heap| == |s.heap| && FailOrRetry(s, i, n, now).cfg == s.cfg
  {
    hide RetryLater, SkipDownstream, Finish, AllTasksSettled, AnyFailed;
  }

  lemma FailLostFrame(s: State, k: nat, i: nat, n: string, now: int)
    requires HasTask(s, i, n) && k < |s.heap| && k != i
    ensures |FailLost(s, k, i, n, now).heap| == |s.heap| && FailLost(s, k, i, n, now).cfg == s.cfg
  {
    hide RetryLater, StraySkip, Finish, AllTasksSettled, AnyFailed;
  }

  lemma DeadlineFrame(s: State, i: nat, n: string, now: int)
    requires HasTask(s, i, n)
    ensures |DeadlinePassed(s, i, n, now).heap| == |s.heap| && DeadlinePassed(s, i, n, now).cfg == s.cfg
  {
    hide FailOrRetry, FailLost;
    var t := SetEntry(s, i, n, s.heap[i].tasks[n].(timer := None));
    if s.heap[i].runID in s.runs && s.runs[s.heap[i].runID] < |s.heap| {
      var k := s.runs[s.heap[i].runID];
      if k == i { FailFrame(t, i, n, now); } else { FailLostFrame(t, k, i, n, now); }
    }
  }

  lemma CompleteFrame(s: State, res: Result, routerOwner: string, now: int)
    ensures |CompleteResult(s, res, routerOwner, now).heap| == |s.heap| && CompleteResult(s, res, routerOwner, now).cfg == s.cfg
  {
    hide SplitTaskID, Judge, Adopt, FailOrRetry, Finish, PromoteReady, AllTasksSettled, AnyFailed;
    if JudgeResult(s, res, routerOwner) == Applied {
      var (runID, n) := SplitTaskID(res.taskID).value;
      var i := s.runs[runID];
      FailFrame(SetEntry(s, i, n, Adopt(s.heap[i].tasks[n], res)), i, n, now);
    }
  }

  lemma CallbackFrame(s: State, i: nat, n: string, kind: JobKind, now: int)
    requires HasTask(s, i, n)
    ensures |Callback(s, i, n, kind, now).heap| == |s.heap| && Callback(s, i, n, kind, now).cfg == s.cfg
  {
    hide DeadlinePassed, Dispatch;
    DeadlineFrame(s, i, n, now);
  }

  lemma DoneFrame(s: State, i: nat, n: string, attempt: int, reply: Reply, routerOwner: string, now: int)
    requires i < |s.heap|
    ensures var t := DispatchDone(s, i, n, attempt, reply, routerOwner, now); |t.heap| == |s.heap| && t.cfg == s.cfg
  {
    hide CompleteResult, BusyRequeue;
    if reply.Refused? {
      CompleteFrame(s, Result(MakeTaskID(s.heap[i].runID, n), reply.runtimeID, false, attempt), routerOwner, now);
    }
  }

  lemma {:induction false} RenewAllFrame(s: State, runtimeID: string, taskIDs: seq<string>, now: int)
    ensures |RenewAll(s, runtimeID, taskIDs, now).heap| == |s.heap| && RenewAll(s, runtimeID, taskIDs, now).cfg == s.cfg
    decreases |taskIDs|
  {
    hide RenewEntry;
    if taskIDs != [] { RenewAllFrame(s, runtimeID, taskIDs[..|taskIDs| - 1], now); }
  }

  /** Nothing has happened yet to an entry of a run that is about to be promoted for the first time. */
  predicate Untouched(e: Entry) {
    Tidy(e) && e.starts == 0 && e.retries == 0 && e.requeues == 0 && e.foreign == 0
    && forall j :: 0 <= j < |e.jobs| ==> !e.jobs[j].kind.DispatchCall?
  }

  /** The run an event brings in, before its first promotion. */
  function Incoming(s: State, ev: Event): RunEntry
    requires Enters(ev)
  {
    match ev
    case Add(runID, order, steps, _) => NewRun(runID, order, BuildTasks(steps, s.cfg.maxAttempts), Added)
    case Recover(runID, order, steps, recovered, now) =>
      NewRun(runID, order, RecoverTasks(steps, ByName(recovered), s.cfg.maxAttempts, now), Source.Recovered)
  }

  lemma UntouchedNew(dependsOn: seq<string>, timeout: int, maxAttempts: int, rs: RecoveredStep, now: int)
    requires maxAttempts >= 1
    ensures Untouched(NewEntry(dependsOn, timeout, maxAttempts))
    ensures rs.attempts >= 0 ==> Untouched(RecoverEntry(NewEntry(dependsOn, timeout, maxAttempts), rs, now))
  {
  }

  lemma IncomingUntouched(s: State, ev: Event)
    requires Inv(s) && Enabled(ev) && Enters(ev)
    ensures forall n :: n in Incoming(s, ev).tasks ==> Untouched(Incoming(s, ev).tasks[n])
    ensures RunTidy(Incoming(s, ev))
  {
    hide Inv, Untouched, BuildTasks, RecoverTasks, ByName, RecoverEntry;
    StructOf(s);
    forall n | n in Incoming(s, ev).tasks ensures Untouched(Incoming(s, ev).tasks[n]) {
      match ev {
        case Add(runID, order, steps, now) =>
          var k := BuildTasksFrom(steps, s.cfg.maxAttempts, n);
          UntouchedNew(steps[k].dependsOn, steps[k].timeout, s.cfg.maxAttempts, RecoveredStep("", true, None, 0), 0);
        case Recover(runID, order, steps, recovered, now) =>
          var rec := ByName(recovered);
          var k := RecoverTasksFrom(steps, rec, s.cfg.maxAttempts, now, n);
          UntouchedNew(steps[k].dependsOn, steps[k].timeout, s.cfg.maxAttempts, RecoveredStep("", true, None, 0), 0);
          if n in rec {
            var m := ByNameFrom(recovered, n);
            UntouchedNew(steps[k].dependsOn, steps[k].timeout, s.cfg.maxAttempts, rec[n], now);
          }
      }
    }
    UntouchedTidy(Incoming(s, ev));
  }

  lemma UntouchedTidy(r: RunEntry)
    requires forall n :: n in r.tasks ==> Untouched(r.tasks[n])
    ensures RunTidy(r)
  {
  }

  /** What a run that just entered holds: its incoming steps, promoted once. */
  lemma EnteredRel(s: State, ev: Event)
    requires Inv(s) && Enabled(ev) && Enters(ev)
    ensures |s.heap| < |Step(s, ev).heap|
    ensures RunRel(Incoming(s, ev), Step(s, ev).heap[|s.heap|], Locked(s.cfg.backend, TimeOf(ev)))
  {
    hide Inv, PromoteReady, BuildTasks, RecoverTasks, ByName, EntryRel, AllTasksSettled, AnyFailed;
    IncomingUntouched(s, ev);
    var r := Incoming(s, ev);
    var now := if ev.Add? then ev.now else ev.now;
    PromoteReadyRel(r, s.cfg.backend, now);
    SameRunRel(r, Locked(s.cfg.backend, TimeOf(ev)));
  }
}
