/**
 The in-process runtime behind the docker and baremetal backends.  `tasks` keeps every
 `trackedTask` ever registered, so that a goroutine can still hold one; `active` is the map
 from runtime key to the task registered under it last.  One event is one `w.mu` scope.
 */
module Runtime {
  import opened Options

  /** Starting: inside the driver's Start.  Observed: published, its observe goroutine runs.  Released: its slot is given back. */
  datatype Phase = Starting | Observed | Released

  /**
   `starting` and `canceled` are the flags of the tracked entry; `handle` is the task whose
   handle was stored in it; `stopAsked`: Stop was requested for this task's own handle.
   */
  datatype Task = Task(
    key: string, runID: string, recovered: bool, phase: Phase,
    starting: bool, canceled: bool, handle: Option<nat>, stopAsked: bool)

  datatype State = State(concurrency: int, draining: bool, active: map<string, nat>, inFlight: int, tasks: seq<Task>)

  datatype Event =
    | Reserve(key: string, runID: string)
    | StartFails(i: nat)
    | StartReturns(i: nat)
    | ObserveEnds(i: nat)
    | Recover(key: string, runID: string)
    | CancelRun(runID: string)
    | Drain

  predicate HasRoom(s: State) {
    !s.draining && s.inFlight < s.concurrency
  }

  function ReserveStep(s: State, key: string, runID: string): State {
    if !HasRoom(s) then s
    else s.(inFlight := s.inFlight + 1, active := s.active[key := |s.tasks|],
            tasks := s.tasks + [Task(key, runID, false, Starting, true, false, None, false)])
  }

  /** Every way out: forget the key, give the slot back. */
  function Release(s: State, i: nat, stop: bool): State
    requires i < |s.tasks|
  {
    s.(active := s.active - {s.tasks[i].key}, inFlight := s.inFlight - 1,
       tasks := s.tasks[i := s.tasks[i].(phase := Released, stopAsked := s.tasks[i].stopAsked || stop)])
  }

  /** Start came back with a handle: stop it if the entry was canceled or is gone, publish it otherwise. */
  function PublishStep(s: State, i: nat): State
    requires i < |s.tasks|
  {
    var key := s.tasks[i].key;
    if key !in s.active || s.active[key] >= |s.tasks| || s.tasks[s.active[key]].canceled then Release(s, i, true)
    else
      var t := s.active[key];
      var marked := s.tasks[t := s.tasks[t].(handle := Some(i), starting := false)];
      s.(tasks := marked[i := marked[i].(phase := Observed)])
  }

  function RecoverStep(s: State, key: string, runID: string): State {
    s.(inFlight := s.inFlight + 1, active := s.active[key := |s.tasks|],
       tasks := s.tasks + [Task(key, runID, true, Observed, false, false, Some(|s.tasks|), false)])
  }

  /** The entry is in `active`, under one of the keys, and belongs to the run. */
  predicate Hit(s: State, t: nat, runID: string, keys: set<string>) {
    && t < |s.tasks| && s.tasks[t].runID == runID
    && s.tasks[t].key in keys && s.tasks[t].key in s.active && s.active[s.tasks[t].key] == t
  }

  /** Stop is asked of task `i` by a cancel of `runID`: some active entry of the run holds its handle. */
  predicate StoppedBy(s: State, i: nat, runID: string, keys: set<string>) {
    exists t :: 0 <= t < |s.tasks| && Hit(s, t, runID, keys) && !s.tasks[t].starting && s.tasks[t].handle == Some(i)
  }

  function CancelTask(s: State, i: nat, runID: string, keys: set<string>): Task
    requires i < |s.tasks|
  {
    var t := s.tasks[i];
    t.(canceled := t.canceled || (Hit(s, i, runID, keys) && t.starting), stopAsked := t.stopAsked || StoppedBy(s, i, runID, keys))
  }

  /** A cancel that has looked at `keys` so far. */
  function CancelSome(s: State, runID: string, keys: set<string>): State {
    s.(tasks := seq(|s.tasks|, i requires 0 <= i < |s.tasks| => CancelTask(s, i, runID, keys)))
  }

  function CancelStep(s: State, runID: string): State {
    if runID == "" then s else CancelSome(s, runID, s.active.Keys)
  }

  function Step(s: State, ev: Event): State {
    match ev
    case Reserve(key, runID) => ReserveStep(s, key, runID)
    case StartFails(i) => if i < |s.tasks| && s.tasks[i].phase.Starting? then Release(s, i, false) else s
    case StartReturns(i) => if i < |s.tasks| && s.tasks[i].phase.Starting? then PublishStep(s, i) else s
    case ObserveEnds(i) => if i < |s.tasks| && s.tasks[i].phase.Observed? then Release(s, i, false) else s
    case Recover(key, runID) => RecoverStep(s, key, runID)
    case CancelRun(runID) => CancelStep(s, runID)
    case Drain => s.(draining := true)
  }

  function Initial(concurrency: int): State {
    State(concurrency, false, map[], 0, [])
  }

  function Execute(concurrency: int, evs: seq<Event>): State {
    if evs == [] then Initial(concurrency) else Step(Execute(concurrency, evs[..|evs| - 1]), evs[|evs| - 1])
  }

  /*** Slot accounting, with or without reused keys ***/

  predicate Live(t: Task) {
    !t.phase.Released?
  }

  function Unreleased(tasks: seq<Task>): nat {
    if tasks == [] then 0 else Unreleased(tasks[..|tasks| - 1]) + if Live(tasks[|tasks| - 1]) then 1 else 0
  }

  function DispatchedLive(tasks: seq<Task>): nat {
    if tasks == [] then 0
    else DispatchedLive(tasks[..|tasks| - 1]) + if Live(tasks[|tasks| - 1]) && !tasks[|tasks| - 1].recovered then 1 else 0
  }

  lemma CountMore(tasks: seq<Task>, t: Task)
    ensures Unreleased(tasks + [t]) == Unreleased(tasks) + if Live(t) then 1 else 0
    ensures DispatchedLive(tasks + [t]) == DispatchedLive(tasks) + if Live(t) && !t.recovered then 1 else 0
  {
    assert (tasks + [t])[..|tasks|] == tasks;
  }

  lemma {:induction false} CountUpdate(tasks: seq<Task>, i: nat, t: Task)
    requires i < |tasks| && t.recovered == tasks[i].recovered
    ensures Unreleased(tasks[i := t]) + (if Live(tasks[i]) then 1 else 0) == Unreleased(tasks) + (if Live(t) then 1 else 0)
    ensures DispatchedLive(tasks[i := t]) + (if Live(tasks[i]) && !t.recovered then 1 else 0)
         == DispatchedLive(tasks) + (if Live(t) && !t.recovered then 1 else 0)
    decreases |tasks|
  {
    var last := |tasks| - 1;
    if i == last {
      assert tasks[i := t][..last] == tasks[..last];
    } else {
      assert tasks[i := t][..last] == tasks[..last][i := t];
      CountUpdate(tasks[..last], i, t);
    }
  }

  lemma {:induction false} CountSame(a: seq<Task>, b: seq<Task>)
    requires |a| == |b| && forall i :: 0 <= i < |a| ==> a[i].phase == b[i].phase && a[i].recovered == b[i].recovered
    ensures Unreleased(a) == Unreleased(b) && DispatchedLive(a) == DispatchedLive(b)
    decreases |a|
  {
    if a != [] { CountSame(a[..|a| - 1], b[..|b| - 1]); }
  }

  lemma {:induction false} DispatchedFewer(tasks: seq<Task>)
    ensures DispatchedLive(tasks) <= Unreleased(tasks)
    decreases |tasks|
  {
    if tasks != [] { DispatchedFewer(tasks[..|tasks| - 1]); }
  }

  predicate Balanced(s: State) {
    s.inFlight == Unreleased(s.tasks) && (s.concurrency >= 0 ==> DispatchedLive(s.tasks) <= s.concurrency)
  }

  lemma ReleaseBalanced(s: State, i: nat, stop: bool)
    requires Balanced(s) && i < |s.tasks| && Live(s.tasks[i])
    ensures Balanced(Release(s, i, stop))
  {
    CountUpdate(s.tasks, i, Release(s, i, stop).tasks[i]);
  }

  lemma PublishBalanced(s: State, i: nat)
    requires Balanced(s) && i < |s.tasks| && s.tasks[i].phase.Starting?
    ensures Balanced(PublishStep(s, i))
  {
    var key := s.tasks[i].key;
    if key !in s.active || s.active[key] >= |s.tasks| || s.tasks[s.active[key]].canceled {
      ReleaseBalanced(s, i, true);
    } else {
      var t := s.active[key];
      var marked := s.tasks[t := s.tasks[t].(handle := Some(i), starting := false)];
      CountUpdate(s.tasks, t, marked[t]);
      CountUpdate(marked, i, marked[i].(phase := Observed));
    }
  }

  lemma StepBalanced(s: State, ev: Event)
    requires Balanced(s)
    ensures Balanced(Step(s, ev))
  {
    hide Unreleased, DispatchedLive, CancelStep, Release, PublishStep;
    match ev
    case Reserve(key, runID) =>
      CountMore(s.tasks, Task(key, runID, false, Starting, true, false, None, false));
      DispatchedFewer(s.tasks);
    case StartFails(i) => if i < |s.tasks| && s.tasks[i].phase.Starting? { ReleaseBalanced(s, i, false); }
    case StartReturns(i) => if i < |s.tasks| && s.tasks[i].phase.Starting? { PublishBalanced(s, i); }
    case ObserveEnds(i) => if i < |s.tasks| && s.tasks[i].phase.Observed? { ReleaseBalanced(s, i, false); }
    case Recover(key, runID) => CountMore(s.tasks, Task(key, runID, true, Observed, false, false, Some(|s.tasks|), false));
    case CancelRun(runID) => CancelSame(s, runID); CountSame(s.tasks, CancelStep(s, runID).tasks);
    case Drain =>
  }

  lemma CancelSame(s: State, runID: string)
    ensures var t := CancelStep(s, runID);
      && |t.tasks| == |s.tasks| && t.(tasks := []) == s.(tasks := [])
      && forall i :: 0 <= i < |s.tasks| ==>
           && t.tasks[i].phase == s.tasks[i].phase && t.tasks[i].recovered == s.tasks[i].recovered
           && t.tasks[i].key == s.tasks[i].key && t.tasks[i].runID == s.tasks[i].runID
           && t.tasks[i].handle == s.tasks[i].handle && t.tasks[i].starting == s.tasks[i].starting
  {
  }

  lemma CancelMonotone(s: State, runID: string)
    ensures forall i :: 0 <= i < |s.tasks| && i < |CancelStep(s, runID).tasks| && s.tasks[i].stopAsked ==> CancelStep(s, runID).tasks[i].stopAsked
  {
  }

  /** Always: inFlight is the number of unreleased reservations, and live dispatched ones never exceed Concurrency. */
  lemma {:induction false} SlotsBalance(concurrency: int, evs: seq<Event>)
    ensures var s := Execute(concurrency, evs);
      && s.inFlight == Unreleased(s.tasks)
      && (concurrency >= 0 ==> DispatchedLive(s.tasks) <= concurrency)
      && s.concurrency == concurrency
    decreases |evs|
  {
    hide Step;
    if evs != [] {
      SlotsBalance(concurrency, evs[..|evs| - 1]);
      StepBalanced(Execute(concurrency, evs[..|evs| - 1]), evs[|evs| - 1]);
      ConcurrencyStays(Execute(concurrency, evs[..|evs| - 1]), evs[|evs| - 1]);
    }
  }

  lemma ConcurrencyStays(s: State, ev: Event)
    ensures Step(s, ev).concurrency == s.concurrency
  {
    hide CancelTask;
  }

  lemma {:induction false} DrainsIff(concurrency: int, evs: seq<Event>)
    ensures Execute(concurrency, evs).draining <==> Drain in evs
    decreases |evs|
  {
    hide Release, PublishStep, CancelSome;
    if evs != [] {
      var init, last := evs[..|evs| - 1], evs[|evs| - 1];
      DrainsIff(concurrency, init);
      assert evs == init + [last];
      if last.StartReturns? { PublishDrains(Execute(concurrency, init), last.i); }
      if last.CancelRun? { CancelSame(Execute(concurrency, init), last.runID); }
      ReleaseDrains(Execute(concurrency, init), last);
    }
  }

  lemma PublishDrains(s: State, i: nat)
    ensures i < |s.tasks| ==> PublishStep(s, i).draining == s.draining
  {
  }

  lemma ReleaseDrains(s: State, ev: Event)
    ensures ev.StartFails? && ev.i < |s.tasks| ==> Release(s, ev.i, false).draining == s.draining
    ensures ev.ObserveEnds? && ev.i < |s.tasks| ==> Release(s, ev.i, false).draining == s.draining
  {
  }

  /**
   A dispatch gets a slot exactly if the runtime was never told to drain and fewer tasks than Concurrency, recovered ones
   included, still hold theirs; then it is registered under its key as starting, and otherwise nothing changes.
   */
  lemma ReservedIff(concurrency: int, evs: seq<Event>, key: string, runID: string)
    ensures var s := Execute(concurrency, evs);
      var t := Step(s, Reserve(key, runID));
      if Drain !in evs && Unreleased(s.tasks) < concurrency then
        && t == s.(inFlight := s.inFlight + 1, active := s.active[key := |s.tasks|], tasks := t.tasks)
        && |t.tasks| == |s.tasks| + 1 && t.tasks[..|s.tasks|] == s.tasks
        && var task := t.tasks[|s.tasks|];
        && task.key == key && task.runID == runID && task.phase.Starting? && task.starting
        && !task.canceled && !task.stopAsked && !task.recovered && task.handle.None?
      else t == s
  {
    hide Execute, Unreleased, DispatchedLive;
    SlotsBalance(concurrency, evs);
    DrainsIff(concurrency, evs);
  }

  predicate OnlyReleases(s: State, t: State, i: nat)
    requires i < |s.tasks| == |t.tasks|
  {
    Live(s.tasks[i]) && !Live(t.tasks[i]) && forall j :: 0 <= j < |s.tasks| && j != i ==> Live(t.tasks[j]) == Live(s.tasks[j])
  }

  /** A slot is released at most once: Released is final, and the counter drops exactly when one task becomes Released. */
  lemma ReleasedOnce(s: State, ev: Event)
    ensures |Step(s, ev).tasks| >= |s.tasks|
    ensures forall i :: 0 <= i < |s.tasks| && s.tasks[i].phase.Released? ==> Step(s, ev).tasks[i].phase.Released?
    ensures Step(s, ev).inFlight < s.inFlight ==>
      && Step(s, ev).inFlight == s.inFlight - 1 && |Step(s, ev).tasks| == |s.tasks|
      && exists i :: 0 <= i < |s.tasks| && OnlyReleases(s, Step(s, ev), i)
  {
    hide CancelTask, CancelStep;
    var t := Step(s, ev);
    if ev.CancelRun? { CancelSame(s, ev.runID); }
    if t.inFlight < s.inFlight {
      var i := if ev.StartFails? then ev.i else if ev.StartReturns? then ev.i else ev.i;
      assert OnlyReleases(s, t, i);
    }
  }

  /** Stop is asked for a task exactly when its Start comes back to find its entry gone or canceled, or by a cancel of the run its key leads to. */
  lemma StopAskedIff(s: State, ev: Event, i: nat)
    requires Keyed(s) && i < |s.tasks|
    ensures i < |Step(s, ev).tasks|
    ensures Step(s, ev).tasks[i].stopAsked <==>
      || s.tasks[i].stopAsked
      || (ev == StartReturns(i) && s.tasks[i].phase.Starting?
          && var key := s.tasks[i].key; key !in s.active || s.tasks[s.active[key]].canceled)
      || (ev.CancelRun? && ev.runID != "" && Leads(s, i, ev.runID))
  {
    if ev.CancelRun? && ev.runID != "" { CancelStopsIff(s, i, ev.runID); }
    hide CancelStep;
  }

  /*** With free keys ***/

  /** The key is not in `active` when it is reserved or recovered. */
  predicate KeyFree(s: State, ev: Event) {
    (ev.Reserve? || ev.Recover?) ==> ev.key !in s.active
  }

  predicate KeysFree(concurrency: int, evs: seq<Event>) {
    evs == [] || (KeysFree(concurrency, evs[..|evs| - 1]) && KeyFree(Execute(concurrency, evs[..|evs| - 1]), evs[|evs| - 1]))
  }

  /** Every live task is the one registered under its key, and its flags describe it. */
  predicate Registered(s: State) {
    && (forall i :: 0 <= i < |s.tasks| && Live(s.tasks[i]) ==>
          && s.tasks[i].key in s.active && s.active[s.tasks[i].key] == i
          && (s.tasks[i].phase.Starting? <==> s.tasks[i].starting)
          && (s.tasks[i].phase.Observed? ==> s.tasks[i].handle == Some(i)))
    && (forall k :: k in s.active ==> s.active[k] < |s.tasks| && s.tasks[s.active[k]].key == k && Live(s.tasks[s.active[k]]))
    && (forall i :: 0 <= i < |s.tasks| && s.tasks[i].canceled && s.tasks[i].phase.Observed? ==> false)
  }

  lemma ReleaseRegistered(s: State, i: nat, stop: bool)
    requires Registered(s) && i < |s.tasks| && Live(s.tasks[i])
    ensures Registered(Release(s, i, stop))
  {
  }

  lemma StepRegistered(s: State, ev: Event)
    requires Registered(s) && KeyFree(s, ev)
    ensures Registered(Step(s, ev))
  {
    hide Release, StoppedBy, Registered;
    match ev
    case Reserve(key, runID) => ReserveRegistered(s, key, runID);
    case Recover(key, runID) => RecoverRegistered(s, key, runID);
    case StartFails(i) => if i < |s.tasks| && s.tasks[i].phase.Starting? { ReleaseRegistered(s, i, false); }
    case StartReturns(i) =>
      if i < |s.tasks| && s.tasks[i].phase.Starting? {
        PublishRegistered(s, i);
      }
    case ObserveEnds(i) => if i < |s.tasks| && s.tasks[i].phase.Observed? { ReleaseRegistered(s, i, false); }
    case CancelRun(runID) => CancelRegistered(s, runID);
    case Drain => DrainRegistered(s);
  }

  lemma DrainRegistered(s: State)
    requires Registered(s)
    ensures Registered(s.(draining := true))
  {
  }

  lemma ReserveRegistered(s: State, key: string, runID: string)
    requires Registered(s) && key !in s.active
    ensures Registered(ReserveStep(s, key, runID))
  {
  }

  lemma RecoverRegistered(s: State, key: string, runID: string)
    requires Registered(s) && key !in s.active
    ensures Registered(RecoverStep(s, key, runID))
  {
  }

  lemma PublishRegistered(s: State, i: nat)
    requires Registered(s) && i < |s.tasks| && s.tasks[i].phase.Starting?
    ensures Registered(PublishStep(s, i))
  {
    hide Release;
    ReleaseRegistered(s, i, true);
  }

  lemma CancelRegistered(s: State, runID: string)
    requires Registered(s)
    ensures Registered(CancelStep(s, runID))
  {
    hide StoppedBy;
    CancelSame(s, runID);
  }

  lemma {:induction false} AlwaysRegistered(concurrency: int, evs: seq<Event>)
    requires KeysFree(concurrency, evs)
    ensures Registered(Execute(concurrency, evs))
    decreases |evs|
  {
    hide Step, Registered;
    if evs != [] {
      AlwaysRegistered(concurrency, evs[..|evs| - 1]);
      StepRegistered(Execute(concurrency, evs[..|evs| - 1]), evs[|evs| - 1]);
    } else {
      InitialRegistered(concurrency);
    }
  }

  lemma InitialRegistered(concurrency: int)
    ensures Registered(Initial(concurrency))
  {
  }

  /** A task canceled while it was starting is never published: when Start returns, it is stopped and released. */
  lemma CanceledMidStartIsStopped(concurrency: int, evs: seq<Event>, i: nat)
    requires KeysFree(concurrency, evs) && i < |Execute(concurrency, evs).tasks|
    requires Execute(concurrency, evs).tasks[i].canceled
    ensures !Execute(concurrency, evs).tasks[i].phase.Observed?
    ensures Execute(concurrency, evs).tasks[i].phase.Starting? ==>
      var t := Step(Execute(concurrency, evs), StartReturns(i)).tasks[i];
      t.phase.Released? && t.stopAsked
  {
    hide Execute, KeysFree;
    AlwaysRegistered(concurrency, evs);
  }

  /**
   Whether a task canceled while starting is published depends on the entry its key names by then:
   exactly when the key has been reserved again, by a task that was not canceled.
   */
  lemma PublishedIff(s: State, i: nat)
    requires i < |s.tasks| && s.tasks[i].phase.Starting? && s.tasks[i].canceled
    ensures Step(s, StartReturns(i)).tasks[i].phase.Observed? <==>
      var key := s.tasks[i].key;
      key in s.active && s.active[key] < |s.tasks| && s.active[key] != i && !s.tasks[s.active[key]].canceled
  {
  }

  /** Reserving a key twice is enough: the first task is canceled while starting and published all the same. */
  lemma ReusedKeyPublishesCanceled(key: string, runID: string)
    requires runID != ""
    ensures var s := Execute(2, [Reserve(key, runID), CancelRun(runID), Reserve(key, runID), StartReturns(0)]);
      |s.tasks| == 2 && s.tasks[0].canceled && s.tasks[0].phase.Observed? && !s.tasks[0].stopAsked
  {
    var evs := [Reserve(key, runID), CancelRun(runID), Reserve(key, runID), StartReturns(0)];
    assert evs[..3] == [Reserve(key, runID), CancelRun(runID), Reserve(key, runID)];
    assert evs[..3][..2] == [Reserve(key, runID), CancelRun(runID)];
    assert evs[..3][..2][..1] == [Reserve(key, runID)];
    assert evs[..3][..2][..1][..0] == [];
    var s1 := ReserveStep(Initial(2), key, runID);
    assert Execute(2, evs[..3][..2][..1]) == s1;
    assert Hit(s1, 0, runID, s1.active.Keys) && s1.tasks[0].starting;
    var s2 := CancelStep(s1, runID);
    assert Execute(2, evs[..3][..2]) == s2;
    assert s2.tasks[0].canceled && |s2.tasks| == 1 && s2.active == map[key := 0] && s2.inFlight == 1;
    var s3 := ReserveStep(s2, key, runID);
    assert Execute(2, evs[..3]) == s3 && s3.active[key] == 1;
    assert Execute(2, evs) == PublishStep(s3, 0);
  }

  /*** The runtime object ***/

  class DirectRuntime {
    const concurrency: int
    var draining: bool
    var active: map<string, nat>
    var inFlight: int
    var tasks: seq<Task>

    ghost function St(): State
      reads this
    {
      State(concurrency, draining, active, inFlight, tasks)
    }

    constructor (concurrency: int)
      ensures St() == Initial(concurrency) && Balanced(St())
    {
      this.concurrency, draining, active, inFlight, tasks := concurrency, false, map[], 0, [];
    }

    method TryReserve(key: string, runID: string) returns (busy: bool)
      requires Balanced(St())
      modifies this
      ensures Balanced(St()) && St() == Step(old(St()), Reserve(key, runID))
      ensures busy <==> old(draining) || Unreleased(old(tasks)) >= concurrency
      ensures if busy then St() == old(St()) else inFlight == old(inFlight) + 1 && active == old(active)[key := |old(tasks)|]
    {
      hide Unreleased, DispatchedLive;
      StepBalanced(St(), Reserve(key, runID));
      if draining {
        return true;
      }
      if inFlight >= concurrency {
        return true;
      }
      inFlight := inFlight + 1;
      active := active[key := |tasks|];
      tasks := tasks + [Task(key, runID, false, Starting, true, false, None, false)];
      return false;
    }

    method Rollback(i: nat)
      requires Balanced(St()) && i < |tasks| && tasks[i].phase.Starting?
      modifies this
      ensures Balanced(St()) && St() == Step(old(St()), StartFails(i)) && inFlight == old(inFlight) - 1
    {
      hide Unreleased, DispatchedLive;
      StepBalanced(St(), StartFails(i));
      active := active - {tasks[i].key};
      inFlight := inFlight - 1;
      tasks := tasks[i := tasks[i].(phase := Released)];
    }

    method Publish(i: nat) returns (stop: bool)
      requires Balanced(St()) && i < |tasks| && tasks[i].phase.Starting? && forall k :: k in active ==> active[k] < |tasks|
      modifies this
      ensures Balanced(St()) && St() == Step(old(St()), StartReturns(i))
      ensures stop <==> tasks[i].phase.Released?
      ensures stop ==> tasks[i].stopAsked && inFlight == old(inFlight) - 1
    {
      hide Unreleased, DispatchedLive;
      StepBalanced(St(), StartReturns(i));
      var key := tasks[i].key;
      if key !in active || tasks[active[key]].canceled {
        active := active - {key};
        inFlight := inFlight - 1;
        tasks := tasks[i := tasks[i].(phase := Released, stopAsked := true)];
        return true;
      }
      var t := active[key];
      tasks := tasks[t := tasks[t].(handle := Some(i), starting := false)];
      tasks := tasks[i := tasks[i].(phase := Observed)];
      return false;
    }

    method EndObserve(i: nat)
      requires Balanced(St()) && i < |tasks| && tasks[i].phase.Observed?
      modifies this
      ensures Balanced(St()) && St() == Step(old(St()), ObserveEnds(i)) && inFlight == old(inFlight) - 1
    {
      hide Unreleased, DispatchedLive;
      StepBalanced(St(), ObserveEnds(i));
      active := active - {tasks[i].key};
      inFlight := inFlight - 1;
      tasks := tasks[i := tasks[i].(phase := Released)];
    }

    /** The flags of every active entry of the run; Stop for each handle collected on the way. */
    method Cancel(runID: string)
      requires Balanced(St()) && HandlesOk(St())
      modifies this
      ensures Balanced(St()) && HandlesOk(St()) && St() == Step(old(St()), Event.CancelRun(runID))
    {
      hide Unreleased, DispatchedLive, CancelSome, HandlesOk;
      ghost var s0 := St();
      StepBalanced(s0, Event.CancelRun(runID));
      CancelHandles(s0, runID);
      if runID == "" {
        return;
      }
      CancelNothing(s0, runID);
      var todo := active.Keys;
      while todo != {}
        invariant todo <= s0.active.Keys
        invariant St() == CancelSome(s0, runID, s0.active.Keys - todo)
        decreases todo
      {
        var key :| key in todo;
        CancelOne(s0, runID, s0.active.Keys - todo, key);
        var t := active[key];
        if tasks[t].runID == runID {
          if tasks[t].starting {
            tasks := tasks[t := tasks[t].(canceled := true)];
          } else if tasks[t].handle.Some? {
            var i := tasks[t].handle.value;
            tasks := tasks[i := tasks[i].(stopAsked := true)];
          }
        }
        assert s0.active.Keys - (todo - {key}) == (s0.active.Keys - todo) + {key};
        todo := todo - {key};
      }
      assert s0.active.Keys - {} == s0.active.Keys;
    }
  }

  predicate HandlesOk(s: State) {
    && (forall k :: k in s.active ==> s.active[k] < |s.tasks| && s.tasks[s.active[k]].key == k)
    && (forall t :: 0 <= t < |s.tasks| && s.tasks[t].handle.Some? ==> s.tasks[t].handle.value < |s.tasks|)
  }

  /** Keys, with or without reuse: a stored handle is of a task that was up under the same key. */
  predicate Keyed(s: State) {
    && HandlesOk(s)
    && (forall k :: k in s.active && s.tasks[s.active[k]].starting ==> s.tasks[s.active[k]].phase.Starting?)
    && (forall t :: 0 <= t < |s.tasks| && s.tasks[t].handle.Some? ==>
          var i := s.tasks[t].handle.value; s.tasks[i].key == s.tasks[t].key && !s.tasks[i].phase.Starting?)
  }

  lemma StepKeyed(s: State, ev: Event)
    requires Keyed(s)
    ensures Keyed(Step(s, ev))
  {
    hide CancelTask, CancelStep, Release, PublishStep, Keyed;
    match ev
    case Reserve(key, runID) => ReserveKeyed(s, key, runID);
    case StartFails(i) => if i < |s.tasks| && s.tasks[i].phase.Starting? { ReleaseKeyed(s, i, false); }
    case StartReturns(i) => if i < |s.tasks| && s.tasks[i].phase.Starting? { PublishKeyed(s, i); }
    case ObserveEnds(i) => if i < |s.tasks| && s.tasks[i].phase.Observed? { ReleaseKeyed(s, i, false); }
    case Recover(key, runID) => RecoverKeyed(s, key, runID);
    case CancelRun(runID) => CancelKeyed(s, runID);
    case Drain => DrainKeyed(s);
  }

  lemma ReserveKeyed(s: State, key: string, runID: string)
    requires Keyed(s)
    ensures Keyed(ReserveStep(s, key, runID))
  {
  }

  lemma RecoverKeyed(s: State, key: string, runID: string)
    requires Keyed(s)
    ensures Keyed(RecoverStep(s, key, runID))
  {
  }

  lemma ReleaseKeyed(s: State, i: nat, stop: bool)
    requires Keyed(s) && i < |s.tasks|
    ensures Keyed(Release(s, i, stop))
  {
  }

  lemma PublishKeyed(s: State, i: nat)
    requires Keyed(s) && i < |s.tasks| && s.tasks[i].phase.Starting?
    ensures Keyed(PublishStep(s, i))
  {
    hide Release;
    ReleaseKeyed(s, i, true);
  }

  lemma CancelKeyed(s: State, runID: string)
    requires Keyed(s)
    ensures Keyed(CancelStep(s, runID))
  {
    hide CancelStep;
    CancelSame(s, runID);
  }

  lemma DrainKeyed(s: State)
    requires Keyed(s)
    ensures Keyed(s.(draining := true))
  {
  }

  /** The entry the task's key leads to belongs to the run and holds the task's handle. */
  predicate Leads(s: State, i: nat, runID: string)
    requires i < |s.tasks|
  {
    var key := s.tasks[i].key;
    key in s.active && s.active[key] < |s.tasks| && s.tasks[s.active[key]].runID == runID
    && !s.tasks[s.active[key]].starting && s.tasks[s.active[key]].handle == Some(i)
  }

  /** A cancel asks Stop for exactly the tasks whose key still leads to their handle. */
  lemma CancelStopsIff(s: State, i: nat, runID: string)
    requires Keyed(s) && i < |s.tasks| && runID != ""
    ensures |CancelStep(s, runID).tasks| == |s.tasks|
    ensures CancelStep(s, runID).tasks[i].stopAsked <==> s.tasks[i].stopAsked || Leads(s, i, runID)
  {
    if Leads(s, i, runID) {
      assert Hit(s, s.active[s.tasks[i].key], runID, s.active.Keys);
    }
  }

  lemma CancelHandles(s: State, runID: string)
    requires HandlesOk(s)
    ensures HandlesOk(CancelStep(s, runID))
  {
    CancelSame(s, runID);
  }

  lemma CancelNothing(s: State, runID: string)
    ensures CancelSome(s, runID, s.active.Keys - s.active.Keys) == s
  {
    assert CancelSome(s, runID, s.active.Keys - s.active.Keys).tasks == s.tasks;
  }

  /** What one turn of the cancel loop does to the tasks. */
  function CancelEntry(tasks: seq<Task>, t: nat, runID: string): seq<Task>
    requires t < |tasks| && (tasks[t].handle.Some? ==> tasks[t].handle.value < |tasks|)
  {
    if tasks[t].runID != runID then tasks
    else if tasks[t].starting then tasks[t := tasks[t].(canceled := true)]
    else if tasks[t].handle.Some? then tasks[tasks[t].handle.value := tasks[tasks[t].handle.value].(stopAsked := true)]
    else tasks
  }

  lemma CancelOne(s: State, runID: string, keys: set<string>, key: string)
    requires HandlesOk(s) && key in s.active && key !in keys
    ensures var c, t := CancelSome(s, runID, keys), s.active[key];
      && c.active == s.active && t < |c.tasks| == |s.tasks| && c.tasks[t].runID == s.tasks[t].runID
      && (c.tasks[t].handle.Some? ==> c.tasks[t].handle.value < |c.tasks|)
      && CancelSome(s, runID, keys + {key}) == c.(tasks := CancelEntry(c.tasks, t, runID))
  {
    var c, t := CancelSome(s, runID, keys), s.active[key];
    var d := c.(tasks := CancelEntry(c.tasks, t, runID));
    forall i | 0 <= i < |s.tasks|
      ensures CancelTask(s, i, runID, keys + {key}) == d.tasks[i]
    {
      OneMoreHit(s, i, runID, keys, key);
    }
    assert CancelSome(s, runID, keys + {key}).tasks == d.tasks;
  }

  lemma OneMoreHit(s: State, i: nat, runID: string, keys: set<string>, key: string)
    requires HandlesOk(s) && key in s.active && key !in keys && i < |s.tasks|
    ensures Hit(s, i, runID, keys + {key}) <==>
      Hit(s, i, runID, keys) || (i == s.active[key] && s.tasks[i].runID == runID)
    ensures StoppedBy(s, i, runID, keys + {key}) <==>
      || StoppedBy(s, i, runID, keys)
      || (var t := s.active[key]; s.tasks[t].runID == runID && !s.tasks[t].starting && s.tasks[t].handle == Some(i))
  {
    var t := s.active[key];
    if s.tasks[t].runID == runID && !s.tasks[t].starting && s.tasks[t].handle == Some(i) {
      assert Hit(s, t, runID, keys + {key});
    }
    if StoppedBy(s, i, runID, keys) {
      var u :| 0 <= u < |s.tasks| && Hit(s, u, runID, keys) && !s.tasks[u].starting && s.tasks[u].handle == Some(i);
      assert Hit(s, u, runID, keys + {key});
    }
    if StoppedBy(s, i, runID, keys + {key}) {
      var u :| 0 <= u < |s.tasks| && Hit(s, u, runID, keys + {key}) && !s.tasks[u].starting && s.tasks[u].handle == Some(i);
      if u != t { assert Hit(s, u, runID, keys); }
    }
  }
}
