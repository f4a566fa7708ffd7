/**
 Cancel, end to end: the queue's canceled check, the backend's lock with its per-run tombstones
 and their timers, and the runtime below it.  `holder` is the dispatch goroutine that holds the
 backend's lock; everything else that needs the lock is a step that finds it free.
 */
module CancelProtocol {
  import opened Options
  import R = Runtime

  /**
   Scheduled: not yet past the queue's check.  Passed: about to call Dispatch.  Holding: has the
   lock and found no tombstone.  Inside: in the runtime, with its reservation.  Leaving: about to unlock.
   */
  datatype Phase = Scheduled | Passed | Holding | Inside(task: nat) | Leaving | Ended

  /** What the queue knows of a goroutine's entry: in progress, ended by itself, or canceled. */
  datatype Fate = Underway | Over | CalledOff

  datatype Go = Go(runID: string, step: string, key: string, fate: Fate, phase: Phase)

  /** `canceled` maps a run ID to the timer of its tombstone; `timers` names the run of every timer ever armed. */
  datatype State = State(
    rt: R.State, canceled: map<string, nat>, timers: seq<string>, holder: Option<nat>, gos: seq<Go>)

  datatype Event =
    | NewGo(runID: string, step: string, key: string)
    | EntryEnds(runID: string, step: string)
    | Check(g: nat)
    | Enter(g: nat)
    | Reserve(g: nat)
    | StartBack(g: nat, ok: bool)
    | Exit(g: nat)
    | QueueCancel(runID: string)
    | BackendCancel(runID: string)
    | ReleaseRun(runID: string)
    | TimerFires(t: nat)
    | ObserveEnds(i: nat)
    | Recover(key: string, runID: string)

  function SetGo(s: State, g: nat, p: Phase): State
    requires g < |s.gos|
  {
    s.(gos := s.gos[g := s.gos[g].(phase := p)])
  }

  predicate At(s: State, g: nat, p: Phase) {
    g < |s.gos| && s.gos[g].phase == p
  }

  predicate IsInside(s: State, g: nat) {
    g < |s.gos| && s.gos[g].phase.Inside?
  }

  /** The queue's cancel passes over entries that are done, failed or skipped. */
  function MarkEntries(gos: seq<Go>, runID: string): seq<Go> {
    seq(|gos|, g requires 0 <= g < |gos| =>
      if gos[g].runID == runID && gos[g].fate.Underway? then gos[g].(fate := CalledOff) else gos[g])
  }

  function EndEntry(gos: seq<Go>, runID: string, step: string): seq<Go> {
    seq(|gos|, g requires 0 <= g < |gos| =>
      if gos[g].runID == runID && gos[g].step == step && gos[g].fate.Underway? then gos[g].(fate := Over) else gos[g])
  }

  /** `markCanceledLocked`: the tombstone's timer is new, whatever the old one still does. */
  function Bury(s: State, runID: string): State {
    s.(canceled := s.canceled[runID := |s.timers|], timers := s.timers + [runID])
  }

  function Step(s: State, ev: Event): State {
    match ev
    case NewGo(runID, step, key) => s.(gos := s.gos + [Go(runID, step, key, Underway, Scheduled)])
    case EntryEnds(runID, step) => s.(gos := EndEntry(s.gos, runID, step))
    case Check(g) =>
      if At(s, g, Scheduled) then SetGo(s, g, if s.gos[g].fate.CalledOff? then Ended else Passed) else s
    case Enter(g) =>
      if At(s, g, Passed) && s.holder.None? then
        if s.gos[g].runID in s.canceled then SetGo(s, g, Ended)
        else SetGo(s, g, Holding).(holder := Some(g))
      else s
    case Reserve(g) =>
      if !At(s, g, Holding) then s
      else if !R.HasRoom(s.rt) then SetGo(s, g, Leaving)
      else SetGo(s, g, Inside(|s.rt.tasks|)).(rt := R.Step(s.rt, R.Reserve(s.gos[g].key, s.gos[g].runID)))
    case StartBack(g, ok) =>
      if !IsInside(s, g) then s
      else
        var i := s.gos[g].phase.task;
        SetGo(s, g, Leaving).(rt := R.Step(s.rt, if ok then R.StartReturns(i) else R.StartFails(i)))
    case Exit(g) => if At(s, g, Leaving) then SetGo(s, g, Ended).(holder := None) else s
    case QueueCancel(runID) =>
      if s.holder.Some? then s
      else s.(gos := MarkEntries(s.gos, runID), canceled := s.canceled - {runID})
    case BackendCancel(runID) =>
      if s.holder.Some? || runID == "" then s
      else Bury(s, runID).(rt := R.Step(s.rt, R.CancelRun(runID)))
    case ReleaseRun(runID) => if s.holder.Some? then s else s.(canceled := s.canceled - {runID})
    case TimerFires(t) =>
      if s.holder.None? && t < |s.timers| && s.timers[t] in s.canceled && s.canceled[s.timers[t]] == t
      then s.(canceled := s.canceled - {s.timers[t]}) else s
    case ObserveEnds(i) => s.(rt := R.Step(s.rt, R.ObserveEnds(i)))
    case Recover(key, runID) => s.(rt := R.Step(s.rt, R.Recover(key, runID)))
  }

  function Initial(concurrency: int): State {
    State(R.Initial(concurrency), map[], [], None, [])
  }

  function Execute(s: State, evs: seq<Event>): State {
    if evs == [] then s else Step(Execute(s, evs[..|evs| - 1]), evs[|evs| - 1])
  }

  /*** Invariant ***/

  predicate HasLock(p: Phase) {
    p.Holding? || p.Inside? || p.Leaving?
  }

  predicate LockOk(s: State) {
    && (forall g :: 0 <= g < |s.gos| ==> (HasLock(s.gos[g].phase) <==> s.holder == Some(g)))
    && (s.holder.Some? ==> s.holder.value < |s.gos| && s.gos[s.holder.value].runID !in s.canceled)
  }

  /** A dispatched task that is starting belongs to the goroutine inside the runtime. */
  predicate StartingOk(s: State) {
    forall i :: 0 <= i < |s.rt.tasks| && s.rt.tasks[i].phase.Starting? ==>
      && s.holder.Some? && s.holder.value < |s.gos| && s.gos[s.holder.value].phase == Inside(i)
      && s.rt.tasks[i].runID == s.gos[s.holder.value].runID
  }

  predicate TimersOk(s: State) {
    forall r :: r in s.canceled ==> s.canceled[r] < |s.timers| && s.timers[s.canceled[r]] == r
  }

  predicate Inv(s: State) {
    LockOk(s) && StartingOk(s) && TimersOk(s) && R.Keyed(s.rt) && NoneCanceled(s)
  }

  predicate NoneCanceled(s: State) {
    forall i :: 0 <= i < |s.rt.tasks| ==> !s.rt.tasks[i].canceled
  }

  /** The runtime does not move. */
  lemma StillInv(s: State, t: State)
    requires Inv(s) && t.rt == s.rt && LockOk(t) && TimersOk(t)
    requires s.holder.Some? && s.holder.value < |s.gos| && s.gos[s.holder.value].phase.Inside? ==>
      t.holder == s.holder && s.holder.value < |t.gos| && t.gos[s.holder.value].phase == s.gos[s.holder.value].phase
      && t.gos[s.holder.value].runID == s.gos[s.holder.value].runID
    ensures Inv(t)
  {
  }

  lemma GoInv(s: State, ev: Event)
    requires Inv(s) && (ev.NewGo? || ev.EntryEnds? || ev.Check? || ev.Enter? || ev.Exit?)
    ensures Inv(Step(s, ev))
  {
    hide Inv, StartingOk, R.Keyed, R.Step;
    InvParts(s);
    StillInv(s, Step(s, ev));
  }

  lemma ReleaseInv(s: State, ev: Event)
    requires Inv(s) && (ev.QueueCancel? || ev.ReleaseRun? || ev.TimerFires?)
    ensures Inv(Step(s, ev))
  {
    hide Inv, StartingOk, R.Keyed, R.Step;
    InvParts(s);
    StillInv(s, Step(s, ev));
  }

  lemma InvParts(s: State)
    requires Inv(s)
    ensures LockOk(s) && StartingOk(s) && TimersOk(s) && R.Keyed(s.rt) && NoneCanceled(s)
  {
  }

  lemma ReserveInv(s: State, g: nat)
    requires Inv(s)
    ensures Inv(Step(s, Reserve(g)))
  {
    hide R.Keyed;
    if At(s, g, Holding) && R.HasRoom(s.rt) {
      R.StepKeyed(s.rt, R.Reserve(s.gos[g].key, s.gos[g].runID));
    }
  }

  lemma StartBackInv(s: State, g: nat, ok: bool)
    requires Inv(s)
    ensures Inv(Step(s, StartBack(g, ok)))
  {
    hide R.Keyed;
    if IsInside(s, g) {
      var i := s.gos[g].phase.task;
      R.StepKeyed(s.rt, if ok then R.StartReturns(i) else R.StartFails(i));
      StartBackTasks(s.rt, i, ok);
    }
  }

  /** What the return of Start changes: task `i` is no longer starting, the others keep their phase. */
  lemma StartBackTasks(rt: R.State, i: nat, ok: bool)
    ensures var t := R.Step(rt, if ok then R.StartReturns(i) else R.StartFails(i));
      && |t.tasks| == |rt.tasks| && (i < |rt.tasks| ==> !t.tasks[i].phase.Starting?)
      && forall j :: 0 <= j < |rt.tasks| ==>
         && t.tasks[j].runID == rt.tasks[j].runID && t.tasks[j].recovered == rt.tasks[j].recovered && t.tasks[j].key == rt.tasks[j].key
         && (t.tasks[j].canceled ==> rt.tasks[j].canceled)
         && (t.tasks[j].handle == rt.tasks[j].handle || (t.tasks[j].handle == Some(i) && i < |rt.tasks| && rt.tasks[i].phase.Starting?))
         && (j != i || !rt.tasks[i].phase.Starting? ==>
               t.tasks[j].phase == rt.tasks[j].phase && t.tasks[j].stopAsked == rt.tasks[j].stopAsked)
  {
  }

  /** The lock keeps cancels away from tasks that are starting. */
  lemma CancelInv(s: State, runID: string)
    requires Inv(s)
    ensures Inv(Step(s, BackendCancel(runID)))
  {
    hide R.StoppedBy, R.CancelStep;
    if s.holder.None? && runID != "" {
      R.CancelKeyed(s.rt, runID);
      R.CancelSame(s.rt, runID);
      NobodyMarked(s, runID);
    }
  }

  lemma NobodyMarked(s: State, runID: string)
    requires Inv(s) && s.holder.None?
    ensures forall i :: 0 <= i < |R.CancelStep(s.rt, runID).tasks| ==> !R.CancelStep(s.rt, runID).tasks[i].canceled
  {
    hide R.StoppedBy;
  }

  lemma ObserveEndsInv(s: State, i: nat)
    requires Inv(s)
    ensures Inv(Step(s, ObserveEnds(i)))
  {
    hide R.Keyed;
    R.StepKeyed(s.rt, R.ObserveEnds(i));
    ObserveEndsTasks(s.rt, i);
  }

  /** What the end of an observe goroutine changes: only task `i`, and it is not live any more. */
  lemma ObserveEndsTasks(rt: R.State, i: nat)
    ensures var t := R.Step(rt, R.ObserveEnds(i));
      && |t.tasks| == |rt.tasks|
      && forall j :: 0 <= j < |rt.tasks| ==>
           t.tasks[j] == rt.tasks[j] || (rt.tasks[j].phase.Observed? && t.tasks[j] == rt.tasks[j].(phase := R.Released))
  {
  }

  lemma RecoverInv(s: State, key: string, runID: string)
    requires Inv(s)
    ensures Inv(Step(s, Recover(key, runID)))
  {
    R.StepKeyed(s.rt, R.Recover(key, runID));
    hide R.Keyed;
  }

  lemma StepInv(s: State, ev: Event)
    requires Inv(s)
    ensures Inv(Step(s, ev))
  {
    hide Inv, Step;
    match ev
    case Reserve(g) => ReserveInv(s, g);
    case StartBack(g, ok) => StartBackInv(s, g, ok);
    case BackendCancel(runID) => CancelInv(s, runID);
    case ObserveEnds(i) => ObserveEndsInv(s, i);
    case Recover(key, runID) => RecoverInv(s, key, runID);
    case NewGo(_, _, _) => GoInv(s, ev);
    case EntryEnds(_, _) => GoInv(s, ev);
    case Check(_) => GoInv(s, ev);
    case Enter(_) => GoInv(s, ev);
    case Exit(_) => GoInv(s, ev);
    case _ => ReleaseInv(s, ev);
  }

  lemma {:induction false} ExecuteInv(s: State, evs: seq<Event>)
    requires Inv(s)
    ensures Inv(Execute(s, evs))
    decreases |evs|
  {
    hide Inv, Step;
    if evs != [] {
      ExecuteInv(s, evs[..|evs| - 1]);
      StepInv(Execute(s, evs[..|evs| - 1]), evs[|evs| - 1]);
    }
  }

  lemma InitialInv(concurrency: int)
    ensures Inv(Initial(concurrency))
  {
  }

  lemma Reached(concurrency: int, evs: seq<Event>)
    ensures Inv(Execute(Initial(concurrency), evs))
  {
    hide Inv, Execute;
    InitialInv(concurrency);
    ExecuteInv(Initial(concurrency), evs);
  }

  /*** Main results, for every interleaving and any keys ***/

  /**
   The backend's lock does what the runtime's `starting` and `canceled` flags are there for: no task
   is ever canceled while it is starting, so a start that succeeds is published unless its key is gone.
   */
  lemma NeverCanceledMidStart(concurrency: int, evs: seq<Event>, g: nat)
    ensures forall i :: 0 <= i < |Execute(Initial(concurrency), evs).rt.tasks| ==> !Execute(Initial(concurrency), evs).rt.tasks[i].canceled
    ensures var s := Execute(Initial(concurrency), evs);
      IsInside(s, g) && s.gos[g].phase.task < |s.rt.tasks| && s.rt.tasks[s.gos[g].phase.task].phase.Starting? ==>
        var i := s.gos[g].phase.task;
        && |Step(s, StartBack(g, true)).rt.tasks| == |s.rt.tasks|
        && (Step(s, StartBack(g, true)).rt.tasks[i].phase.Observed? <==> s.rt.tasks[i].key in s.rt.active)
  {
    hide Execute, LockOk, TimersOk, StartingOk;
    Reached(concurrency, evs);
  }

  /** While a run's tombstone stands, no step reserves a slot for a dispatch of the run. */
  lemma NothingStartsLater(concurrency: int, evs: seq<Event>, runID: string, ev: Event, i: nat)
    requires runID in Execute(Initial(concurrency), evs).canceled
    requires var t := Step(Execute(Initial(concurrency), evs), ev);
      i < |t.rt.tasks| && t.rt.tasks[i].runID == runID && !t.rt.tasks[i].recovered
    ensures i < |Execute(Initial(concurrency), evs).rt.tasks|
  {
    hide Execute, Inv, Step;
    Reached(concurrency, evs);
    NothingStarts(Execute(Initial(concurrency), evs), runID, ev, i);
  }

  lemma NothingStarts(s: State, runID: string, ev: Event, i: nat)
    requires Inv(s) && runID in s.canceled
    requires i < |Step(s, ev).rt.tasks| && Step(s, ev).rt.tasks[i].runID == runID && !Step(s, ev).rt.tasks[i].recovered
    ensures i < |s.rt.tasks|
  {
    hide R.PublishStep, R.CancelStep, R.Keyed;
    if ev.BackendCancel? { R.CancelSame(s.rt, ev.runID); }
    if ev.StartBack? && IsInside(s, ev.g) { StartBackTasks(s.rt, s.gos[ev.g].phase.task, ev.ok); }
  }

  predicate LeavesTombstone(ev: Event, runID: string, timer: nat) {
    match ev
    case TimerFires(t) => t != timer
    case ReleaseRun(r) => r != runID
    case QueueCancel(r) => r != runID
    case BackendCancel(r) => r != runID
    case _ => true
  }

  /**
   The tombstone a cancel sets stays until its own timer fires, its run is released or canceled
   again: no older timer, however late, takes it away.
   */
  lemma {:induction false} StaleTimerIsHarmless(s: State, runID: string, evs: seq<Event>)
    requires s.holder.None? && runID != ""
    requires forall k :: 0 <= k < |evs| ==> LeavesTombstone(evs[k], runID, |s.timers|)
    ensures Tombstone(Execute(Step(s, BackendCancel(runID)), evs), runID, |s.timers|)
    decreases |evs|
  {
    hide Step;
    if evs != [] {
      StaleTimerIsHarmless(s, runID, evs[..|evs| - 1]);
      TombstoneStays(Execute(Step(s, BackendCancel(runID)), evs[..|evs| - 1]), evs[|evs| - 1], runID, |s.timers|);
    } else {
      TombstoneSet(s, runID);
    }
  }

  predicate Tombstone(s: State, runID: string, timer: nat) {
    runID in s.canceled && s.canceled[runID] == timer && timer < |s.timers| && s.timers[timer] == runID
  }

  lemma TombstoneSet(s: State, runID: string)
    requires s.holder.None? && runID != ""
    ensures Tombstone(Step(s, BackendCancel(runID)), runID, |s.timers|)
  {
    hide R.Step;
  }

  lemma TombstoneStays(s: State, ev: Event, runID: string, timer: nat)
    requires Tombstone(s, runID, timer) && LeavesTombstone(ev, runID, timer)
    ensures Tombstone(Step(s, ev), runID, timer)
  {
    hide R.Step;
  }

  /** The cancel at `h` set a tombstone, and since then nothing has lifted or renewed it: neither a release of the run nor the timer armed at `h`. */
  ghost predicate StandsSince(s0: State, evs: seq<Event>, runID: string, h: nat) {
    && h < |evs| && evs[h] == BackendCancel(runID) && runID != "" && Execute(s0, evs[..h]).holder.None?
    && forall k :: h < k < |evs| && Execute(s0, evs[..k]).holder.None? ==>
         && evs[k] != BackendCancel(runID) && evs[k] != QueueCancel(runID) && evs[k] != ReleaseRun(runID)
         && evs[k] != TimerFires(|Execute(s0, evs[..h]).timers|)
  }

  lemma StandsMore(s0: State, evs: seq<Event>, ev: Event, runID: string, h: nat)
    requires h < |evs|
    ensures StandsSince(s0, evs + [ev], runID, h) <==>
      && StandsSince(s0, evs, runID, h)
      && (Execute(s0, evs).holder.None? ==>
            && ev != BackendCancel(runID) && ev != QueueCancel(runID) && ev != ReleaseRun(runID)
            && ev != TimerFires(|Execute(s0, evs[..h]).timers|))
  {
    hide Execute;
    var all := evs + [ev];
    assert all[..|evs|] == evs;
    assert forall k :: 0 <= k < |evs| ==> all[..k] == evs[..k] && all[k] == evs[k];
  }

  /** One event and one tombstone. */
  lemma TombstoneStep(s: State, ev: Event, runID: string)
    requires TimersOk(s)
    ensures TimersOk(Step(s, ev)) && |Step(s, ev).timers| >= |s.timers|
    ensures runID in Step(s, ev).canceled <==>
      || (ev == BackendCancel(runID) && runID != "" && s.holder.None?)
      || (runID in s.canceled
          && !(s.holder.None? && (ev == QueueCancel(runID) || ev == ReleaseRun(runID) || ev == TimerFires(s.canceled[runID]))))
    ensures runID in Step(s, ev).canceled ==>
      Step(s, ev).canceled[runID] == if ev == BackendCancel(runID) && runID != "" && s.holder.None? then |s.timers| else s.canceled[runID]
  {
    hide R.Step, MarkEntries, EndEntry;
  }

  lemma {:induction false} TombstoneOf(concurrency: int, evs: seq<Event>, runID: string)
    ensures var s0 := Initial(concurrency);
      && TimersOk(Execute(s0, evs))
      && (runID in Execute(s0, evs).canceled <==> exists h: nat :: StandsSince(s0, evs, runID, h))
      && (forall h: nat :: StandsSince(s0, evs, runID, h) ==>
            runID in Execute(s0, evs).canceled && Execute(s0, evs).canceled[runID] == |Execute(s0, evs[..h]).timers|)
    decreases |evs|
  {
    hide Step;
    var s0 := Initial(concurrency);
    if evs != [] {
      var init, ev := evs[..|evs| - 1], evs[|evs| - 1];
      assert evs == init + [ev];
      TombstoneOf(concurrency, init, runID);
      TombstoneStep(Execute(s0, init), ev, runID);
      forall h: nat | h < |init| ensures evs[..h] == init[..h] {}
      forall h: nat | h < |init| { StandsMore(s0, init, ev, runID, h); }
      hide Execute;
      assert StandsSince(s0, evs, runID, |init|) <==> ev == BackendCancel(runID) && runID != "" && Execute(s0, init).holder.None?;
      forall h: nat | StandsSince(s0, evs, runID, h) ensures h < |init| || h == |init| {}
    }
  }

  /**
   When a run's dispatches are refused: exactly while the tombstone of some cancel stands, that is since the last cancel of the run
   neither its timer has fired nor the run been released.
   */
  lemma TombstoneIff(concurrency: int, evs: seq<Event>, runID: string, g: nat)
    requires At(Execute(Initial(concurrency), evs), g, Passed) && Execute(Initial(concurrency), evs).holder.None?
    requires Execute(Initial(concurrency), evs).gos[g].runID == runID
    ensures var s0 := Initial(concurrency);
      var t := Step(Execute(s0, evs), Enter(g));
      && (At(t, g, Ended) <==> exists h: nat :: StandsSince(s0, evs, runID, h))
      && (At(t, g, Holding) <==> !exists h: nat :: StandsSince(s0, evs, runID, h))
  {
    hide Execute, StandsSince;
    TombstoneOf(concurrency, evs, runID);
  }

  /*** The queue's check ***/

  /** What a goroutine's entry is after the cancel of its run. */
  function Canceled(fate: Fate): Fate {
    if fate.Underway? then CalledOff else fate
  }

  /**
   A goroutine that has not passed the queue's check when its run is canceled: at the check it
   stops for good exactly when its entry was still in progress, or canceled before; if the entry had
   ended by itself, it goes on to the backend.
   */
  lemma CanceledGoStopsIff(s: State, runID: string, evs: seq<Event>, g: nat)
    requires s.holder.None? && g < |s.gos| && s.gos[g].runID == runID && s.gos[g].phase.Scheduled?
    ensures var t := Execute(Step(s, QueueCancel(runID)), evs);
      && g < |t.gos|
      && (t.gos[g].phase.Scheduled? ==> (Step(t, Check(g)).gos[g].phase.Passed? <==> s.gos[g].fate.Over?))
      && (!s.gos[g].fate.Over? ==> t.gos[g].phase.Scheduled? || t.gos[g].phase.Ended?)
  {
    hide Step;
    FateStays(s, runID, evs, g);
    var t := Execute(Step(s, QueueCancel(runID)), evs);
    if t.gos[g].phase.Scheduled? { CheckIs(t, g); }
  }

  lemma CheckIs(s: State, g: nat)
    requires g < |s.gos| && s.gos[g].phase.Scheduled?
    ensures g < |Step(s, Check(g)).gos| && (Step(s, Check(g)).gos[g].phase.Passed? <==> !s.gos[g].fate.CalledOff?)
  {
  }

  lemma {:induction false} FateStays(s: State, runID: string, evs: seq<Event>, g: nat)
    requires s.holder.None? && g < |s.gos| && s.gos[g].runID == runID && s.gos[g].phase.Scheduled?
    ensures var t := Execute(Step(s, QueueCancel(runID)), evs);
      && g < |t.gos| && t.gos[g].fate == Canceled(s.gos[g].fate)
      && (!s.gos[g].fate.Over? ==> (t.gos[g].phase.Scheduled? || t.gos[g].phase.Ended?) && t.holder != Some(g))
    decreases |evs|
  {
    hide Step;
    if evs != [] {
      FateStays(s, runID, evs[..|evs| - 1], g);
      FateStep(Execute(Step(s, QueueCancel(runID)), evs[..|evs| - 1]), evs[|evs| - 1], g);
    } else {
      MarkedGo(s, runID, g);
    }
  }

  lemma MarkedGo(s: State, runID: string, g: nat)
    requires s.holder.None? && g < |s.gos| && s.gos[g].runID == runID
    ensures var t := Step(s, QueueCancel(runID));
      g < |t.gos| && t.gos[g] == s.gos[g].(fate := Canceled(s.gos[g].fate)) && t.holder == s.holder
  {
  }

  /** A fate that is settled stays, and keeps a goroutine that was called off away from the backend. */
  lemma FateStep(s: State, ev: Event, g: nat)
    requires g < |s.gos| && !s.gos[g].fate.Underway?
    requires s.gos[g].fate.CalledOff? ==> (s.gos[g].phase.Scheduled? || s.gos[g].phase.Ended?) && s.holder != Some(g)
    ensures var t := Step(s, ev);
      && g < |t.gos| && t.gos[g].fate == s.gos[g].fate
      && (s.gos[g].fate.CalledOff? ==> (t.gos[g].phase.Scheduled? || t.gos[g].phase.Ended?) && t.holder != Some(g))
  {
    hide R.Step;
  }

  /*** Which tasks a cancel stops ***/

  /** Some entry of the run holds the task's handle. */
  ghost predicate HeldFor(rt: R.State, i: nat, runID: string) {
    exists t :: 0 <= t < |rt.tasks| && rt.tasks[t].runID == runID && rt.tasks[t].handle == Some(i)
  }

  /** What stays of a task that was up when its run was canceled. */
  ghost predicate Settled(rt: R.State, now: R.State, i: nat) {
    && i < |rt.tasks| <= |now.tasks|
    && now.tasks[i].runID == rt.tasks[i].runID && now.tasks[i].recovered == rt.tasks[i].recovered
    && !rt.tasks[i].phase.Starting? && !now.tasks[i].phase.Starting? && now.tasks[i].stopAsked == rt.tasks[i].stopAsked
    && (R.Live(now.tasks[i]) ==> R.Live(rt.tasks[i]))
    && forall r :: HeldFor(now, i, r) ==> HeldFor(rt, i, r)
  }

  lemma HandlesFade(a: R.State, b: R.State, i: nat)
    requires |a.tasks| <= |b.tasks|
    requires forall t :: 0 <= t < |a.tasks| ==>
      b.tasks[t].runID == a.tasks[t].runID && (b.tasks[t].handle == Some(i) ==> a.tasks[t].handle == Some(i))
    requires forall t :: |a.tasks| <= t < |b.tasks| ==> b.tasks[t].handle != Some(i)
    ensures forall r :: HeldFor(b, i, r) ==> HeldFor(a, i, r)
  {
    forall r | HeldFor(b, i, r) ensures HeldFor(a, i, r) {
      var t :| 0 <= t < |b.tasks| && b.tasks[t].runID == r && b.tasks[t].handle == Some(i);
      assert a.tasks[t].runID == r && a.tasks[t].handle == Some(i);
    }
  }

  /** A start that comes back is of another task. */
  lemma SettledStart(rt: R.State, now: R.State, k: nat, ok: bool, i: nat)
    requires Settled(rt, now, i)
    ensures Settled(rt, R.Step(now, if ok then R.StartReturns(k) else R.StartFails(k)), i)
  {
    hide R.Step, HeldFor;
    StartBackTasks(now, k, ok);
    HandlesFade(now, R.Step(now, if ok then R.StartReturns(k) else R.StartFails(k)), i);
  }

  lemma SettledStep(rt: R.State, s: State, ev: Event, i: nat)
    requires Inv(s) && Settled(rt, s.rt, i) && (ev.BackendCancel? ==> !HeldFor(s.rt, i, ev.runID))
    ensures Settled(rt, Step(s, ev).rt, i)
  {
    hide R.Keyed, R.PublishStep, R.CancelStep, HeldFor, LockOk, TimersOk, StartingOk;
    match ev
    case StartBack(g, ok) => if IsInside(s, g) { SettledStart(rt, s.rt, s.gos[g].phase.task, ok, i); }
    case BackendCancel(runID) =>
      if s.holder.None? && runID != "" {
        R.CancelSame(s.rt, runID);
        OthersUntouched(s.rt, i, runID);
        HandlesFade(s.rt, Step(s, ev).rt, i);
      }
    case ObserveEnds(k) =>
      ObserveEndsTasks(s.rt, k);
      HandlesFade(s.rt, Step(s, ev).rt, i);
    case _ => HandlesFade(s.rt, Step(s, ev).rt, i);
  }

  lemma OthersUntouched(rt: R.State, i: nat, runID: string)
    requires i < |rt.tasks| && !HeldFor(rt, i, runID)
    ensures i < |R.CancelStep(rt, runID).tasks| && R.CancelStep(rt, runID).tasks[i].stopAsked == rt.tasks[i].stopAsked
  {
  }

  /** While the tombstone stands, a task of the run that is live was up when the tombstone was set, and has not changed. */
  lemma {:induction false} SettledUntil(s: State, runID: string, evs: seq<Event>, i: nat)
    requires Inv(s) && s.holder.None? && runID != ""
    requires forall k :: 0 <= k < |evs| ==> LeavesTombstone(evs[k], runID, |s.timers|)
    requires forall k :: 0 <= k < |evs| && evs[k].BackendCancel? ==> !HeldFor(s.rt, i, evs[k].runID)
    requires var u := Execute(Step(s, BackendCancel(runID)), evs).rt;
      i < |u.tasks| && u.tasks[i].runID == runID && !u.tasks[i].recovered
    ensures var t := Step(s, BackendCancel(runID));
      Inv(Execute(t, evs)) && Settled(t.rt, Execute(t, evs).rt, i)
    decreases |evs|
  {
    hide Inv, Step, HeldFor, R.CancelStep, R.Keyed, Settled;
    var t := Step(s, BackendCancel(runID));
    StepInv(s, BackendCancel(runID));
    if evs != [] {
      var init, ev := evs[..|evs| - 1], evs[|evs| - 1];
      var u := Execute(t, init);
      ExecuteInv(t, init);
      StaleTimerIsHarmless(s, runID, init);
      NothingStarts(u, runID, ev, i);
      SameTask(u, ev, i);
      SettledUntil(s, runID, init, i);
      if ev.BackendCancel? { StillNotHeld(s, runID, t.rt, u.rt, i, ev.runID); }
      SettledStep(t.rt, u, ev, i);
      StepInv(u, ev);
    } else {
      SettledFirst(s, runID, i);
    }
  }

  lemma StillNotHeld(s: State, runID: string, rt: R.State, now: R.State, i: nat, r: string)
    requires s.holder.None? && runID != "" && rt == Step(s, BackendCancel(runID)).rt
    requires Settled(rt, now, i) && !HeldFor(s.rt, i, r)
    ensures !HeldFor(now, i, r)
  {
    hide R.CancelStep;
    R.CancelSame(s.rt, runID);
    HandlesFade(s.rt, rt, i);
  }

  lemma SettledFirst(s: State, runID: string, i: nat)
    requires Inv(s) && s.holder.None? && runID != "" && i < |Step(s, BackendCancel(runID)).rt.tasks|
    ensures Settled(Step(s, BackendCancel(runID)).rt, Step(s, BackendCancel(runID)).rt, i)
  {
    hide R.CancelStep, R.Keyed;
    R.CancelSame(s.rt, runID);
  }

  /** A task keeps its run and the way it came in. */
  lemma SameTask(s: State, ev: Event, i: nat)
    requires i < |s.rt.tasks|
    ensures i < |Step(s, ev).rt.tasks| && Step(s, ev).rt.tasks[i].runID == s.rt.tasks[i].runID
    ensures Step(s, ev).rt.tasks[i].recovered == s.rt.tasks[i].recovered
  {
    hide R.PublishStep, R.CancelStep, R.Keyed;
    if ev.BackendCancel? { R.CancelSame(s.rt, ev.runID); }
    if ev.StartBack? && IsInside(s, ev.g) { StartBackTasks(s.rt, s.gos[ev.g].phase.task, ev.ok); }
  }

  /**
   For any keys, task by task: as long as the tombstone of a cancel stands, a live task dispatched
   for the run was up when CancelRun ran, and it has been asked to stop if and only if it had been
   before or its key still led to its own handle then.  Cancels of other runs are left out only if
   one of their entries holds this very task's handle.
   */
  lemma StoppedIffKeyLed(concurrency: int, pre: seq<Event>, runID: string, evs: seq<Event>, i: nat)
    requires var s := Execute(Initial(concurrency), pre);
      && s.holder.None? && runID != ""
      && (forall k :: 0 <= k < |evs| ==> LeavesTombstone(evs[k], runID, |s.timers|))
      && (forall k :: 0 <= k < |evs| && evs[k].BackendCancel? ==> !HeldFor(s.rt, i, evs[k].runID))
    requires var u := Execute(Step(Execute(Initial(concurrency), pre), BackendCancel(runID)), evs).rt;
      i < |u.tasks| && u.tasks[i].runID == runID && !u.tasks[i].recovered && R.Live(u.tasks[i])
    ensures var s := Execute(Initial(concurrency), pre);
      var u := Execute(Step(s, BackendCancel(runID)), evs).rt;
      && i < |s.rt.tasks| && s.rt.tasks[i].phase.Observed? && u.tasks[i].phase.Observed?
      && (u.tasks[i].stopAsked <==> s.rt.tasks[i].stopAsked || R.Leads(s.rt, i, runID))
  {
    hide Execute, Inv, HeldFor, LeavesTombstone, R.CancelStep, R.Keyed, R.Leads;
    Reached(concurrency, pre);
    var s := Execute(Initial(concurrency), pre);
    SettledUntil(s, runID, evs, i);
    R.CancelSame(s.rt, runID);
    InvParts(s);
    R.CancelStopsIff(s.rt, i, runID);
  }

  /*** One run, when no two live tasks share one of its keys ***/

  /** The event puts no task of another life under the key of a live task of the run, nor one of the run under a live key. */
  predicate KeyFreeFor(s: State, ev: Event, runID: string) {
    match ev
    case Reserve(g) =>
      At(s, g, Holding) && R.HasRoom(s.rt) ==> Unshared(s.rt, s.gos[g].key, s.gos[g].runID, runID)
    case Recover(key, owner) => Unshared(s.rt, key, owner, runID)
    case _ => true
  }

  predicate Unshared(rt: R.State, key: string, owner: string, runID: string) {
    forall i :: 0 <= i < |rt.tasks| && R.Live(rt.tasks[i]) && rt.tasks[i].key == key ==> rt.tasks[i].runID != runID && owner != runID
  }

  predicate RunKeysFree(s: State, evs: seq<Event>, runID: string) {
    evs == [] || (RunKeysFree(s, evs[..|evs| - 1], runID) && KeyFreeFor(Execute(s, evs[..|evs| - 1]), evs[|evs| - 1], runID))
  }

  /** Every live task of the run is alone under its key, and the one registered there. */
  predicate RunRegistered(rt: R.State, runID: string) {
    forall i :: 0 <= i < |rt.tasks| && R.Live(rt.tasks[i]) && rt.tasks[i].runID == runID ==>
      && rt.tasks[i].key in rt.active && rt.active[rt.tasks[i].key] == i
      && (rt.tasks[i].phase.Starting? <==> rt.tasks[i].starting)
      && (rt.tasks[i].phase.Observed? ==> rt.tasks[i].handle == Some(i))
      && forall j :: 0 <= j < |rt.tasks| && j != i && R.Live(rt.tasks[j]) ==> rt.tasks[j].key != rt.tasks[i].key
  }

  lemma NewRegistered(rt: R.State, key: string, owner: string, runID: string)
    requires RunRegistered(rt, runID) && Unshared(rt, key, owner, runID)
    ensures RunRegistered(R.ReserveStep(rt, key, owner), runID) && RunRegistered(R.RecoverStep(rt, key, owner), runID)
  {
  }

  lemma ReleaseRegistered(rt: R.State, i: nat, stop: bool, runID: string)
    requires RunRegistered(rt, runID) && i < |rt.tasks| && R.Live(rt.tasks[i])
    ensures RunRegistered(R.Release(rt, i, stop), runID)
  {
  }

  lemma PublishRegistered(rt: R.State, i: nat, runID: string)
    requires RunRegistered(rt, runID) && R.Keyed(rt) && i < |rt.tasks| && rt.tasks[i].phase.Starting?
    ensures RunRegistered(R.PublishStep(rt, i), runID)
  {
    hide R.Release;
    ReleaseRegistered(rt, i, true, runID);
    var key := rt.tasks[i].key;
    if key in rt.active && !rt.tasks[rt.active[key]].canceled {
      assert rt.tasks[rt.active[key]].key == key;
    }
  }

  lemma CancelRegistered(rt: R.State, owner: string, runID: string)
    requires RunRegistered(rt, runID)
    ensures RunRegistered(R.CancelStep(rt, owner), runID)
  {
    hide R.CancelStep;
    R.CancelSame(rt, owner);
  }

  /** While the run's tombstone stands, every live task dispatched for it is up and has been asked to stop. */
  predicate Buried(s: State, runID: string) {
    runID in s.canceled ==>
      forall i :: 0 <= i < |s.rt.tasks| && s.rt.tasks[i].runID == runID && !s.rt.tasks[i].recovered && R.Live(s.rt.tasks[i]) ==>
        s.rt.tasks[i].phase.Observed? && s.rt.tasks[i].stopAsked
  }

  lemma BuriedStart(s: State, runID: string)
    requires Inv(s) && RunRegistered(s.rt, runID) && s.holder.None? && runID != ""
    ensures Buried(Step(s, BackendCancel(runID)), runID)
  {
    hide R.Keyed, R.CancelStep, R.Leads;
    R.CancelSame(s.rt, runID);
    var t := Step(s, BackendCancel(runID));
    forall i | 0 <= i < |t.rt.tasks| && t.rt.tasks[i].runID == runID && !t.rt.tasks[i].recovered && R.Live(t.rt.tasks[i])
      ensures t.rt.tasks[i].phase.Observed? && t.rt.tasks[i].stopAsked
    {
      assert R.Leads(s.rt, i, runID) by { LeadsIfRegistered(s.rt, i, runID); }
      R.CancelStopsIff(s.rt, i, runID);
    }
  }

  lemma LeadsIfRegistered(rt: R.State, i: nat, runID: string)
    requires RunRegistered(rt, runID) && i < |rt.tasks| && rt.tasks[i].phase.Observed? && rt.tasks[i].runID == runID
    ensures R.Leads(rt, i, runID)
  {
  }

  lemma StartBackBuried(s: State, g: nat, ok: bool, runID: string)
    requires Inv(s) && Buried(s, runID) && IsInside(s, g)
    ensures Buried(Step(s, StartBack(g, ok)), runID)
  {
    hide R.Keyed, R.Step, TimersOk, NoneCanceled;
    var k := s.gos[g].phase.task;
    StartBackTasks(s.rt, k, ok);
    var t := Step(s, StartBack(g, ok));
    if runID in s.canceled {
      assert s.holder == Some(g) && s.gos[g].runID != runID;
      forall i | 0 <= i < |t.rt.tasks| && t.rt.tasks[i].runID == runID && !t.rt.tasks[i].recovered && R.Live(t.rt.tasks[i])
        ensures t.rt.tasks[i].phase.Observed? && t.rt.tasks[i].stopAsked
      {
        assert s.rt.tasks[i].runID == runID;
        assert i == k ==> !s.rt.tasks[i].phase.Starting?;
      }
    }
  }

  lemma BuriedStays(s: State, ev: Event, runID: string)
    requires Inv(s) && Buried(s, runID) && (ev.BackendCancel? ==> ev.runID != runID)
    ensures Buried(Step(s, ev), runID)
  {
    hide R.Keyed, R.CancelStep, R.PublishStep, R.Release;
    match ev
    case BackendCancel(owner) =>
      R.CancelSame(s.rt, owner);
      R.CancelMonotone(s.rt, owner);
    case StartBack(g, ok) => if IsInside(s, g) { StartBackBuried(s, g, ok, runID); }
    case ObserveEnds(i) => ObserveEndsTasks(s.rt, i);
    case _ =>
  }

  lemma RunStep(s: State, ev: Event, runID: string)
    requires Inv(s) && RunRegistered(s.rt, runID) && Buried(s, runID) && KeyFreeFor(s, ev, runID)
    ensures RunRegistered(Step(s, ev).rt, runID) && Buried(Step(s, ev), runID)
  {
    RegisteredStep(s, ev, runID);
    hide Step, Inv, RunRegistered, Buried, KeyFreeFor;
    if ev.BackendCancel? && ev.runID == runID && s.holder.None? && runID != "" {
      BuriedStart(s, runID);
    } else if ev.BackendCancel? && ev.runID == runID {
      assert Step(s, ev) == s by { NoCancel(s, runID); }
    } else {
      BuriedStays(s, ev, runID);
    }
  }

  lemma NoCancel(s: State, runID: string)
    requires s.holder.Some? || runID == ""
    ensures Step(s, BackendCancel(runID)) == s
  {
  }

  lemma RegisteredStep(s: State, ev: Event, runID: string)
    requires Inv(s) && RunRegistered(s.rt, runID) && KeyFreeFor(s, ev, runID)
    ensures RunRegistered(Step(s, ev).rt, runID)
  {
    hide R.Keyed, R.CancelStep, R.PublishStep, R.ReserveStep, R.RecoverStep, R.Release;
    hide RunRegistered, LockOk, StartingOk, TimersOk, NoneCanceled;
    match ev
    case Reserve(g) =>
      if At(s, g, Holding) && R.HasRoom(s.rt) { NewRegistered(s.rt, s.gos[g].key, s.gos[g].runID, runID); }
    case Recover(key, owner) => NewRegistered(s.rt, key, owner, runID);
    case StartBack(g, ok) =>
      if IsInside(s, g) {
        var i := s.gos[g].phase.task;
        if i < |s.rt.tasks| && s.rt.tasks[i].phase.Starting? {
          if ok { PublishRegistered(s.rt, i, runID); } else { ReleaseRegistered(s.rt, i, false, runID); }
        }
      }
    case BackendCancel(owner) => CancelRegistered(s.rt, owner, runID);
    case ObserveEnds(i) =>
      if i < |s.rt.tasks| && s.rt.tasks[i].phase.Observed? { ReleaseRegistered(s.rt, i, false, runID); }
    case _ =>
  }

  lemma {:induction false} RunExecute(concurrency: int, evs: seq<Event>, runID: string)
    requires RunKeysFree(Initial(concurrency), evs, runID)
    ensures var s := Execute(Initial(concurrency), evs); RunRegistered(s.rt, runID) && Buried(s, runID)
    decreases |evs|
  {
    hide Step, KeyFreeFor, Inv;
    if evs != [] {
      RunExecute(concurrency, evs[..|evs| - 1], runID);
      Reached(concurrency, evs[..|evs| - 1]);
      RunStep(Execute(Initial(concurrency), evs[..|evs| - 1]), evs[|evs| - 1], runID);
    }
  }

  /**
   For a run none of whose live tasks ever shared its key, whatever happens to the keys of others:
   while its tombstone stands, every live task dispatched for it is up and has been asked to stop.
   */
  lemma CanceledRunIsStopped(concurrency: int, evs: seq<Event>, runID: string, i: nat)
    requires RunKeysFree(Initial(concurrency), evs, runID)
    requires var s := Execute(Initial(concurrency), evs);
      && runID in s.canceled && i < |s.rt.tasks| && s.rt.tasks[i].runID == runID
      && !s.rt.tasks[i].recovered && R.Live(s.rt.tasks[i])
    ensures var s := Execute(Initial(concurrency), evs);
      s.rt.tasks[i].phase.Observed? && s.rt.tasks[i].stopAsked
  {
    hide Execute, RunKeysFree, RunRegistered;
    RunExecute(concurrency, evs, runID);
  }

  /*** When a run's keys are free ***/

  /** Past its reservation, if it got that far. */
  predicate PastReserve(p: Phase) {
    p.Inside? || p.Leaving? || p.Ended?
  }

  predicate OwnedBy(s: State, i: nat, g: nat) {
    i < |s.rt.tasks| && g < |s.gos| && s.gos[g].key == s.rt.tasks[i].key && s.gos[g].runID == s.rt.tasks[i].runID
    && PastReserve(s.gos[g].phase)
  }

  /** Every task came from a goroutine that has reserved, or from a recovery among `evs`. */
  ghost predicate TasksOwned(s: State, evs: seq<Event>) {
    forall i :: 0 <= i < |s.rt.tasks| ==>
      if s.rt.tasks[i].recovered then Event.Recover(s.rt.tasks[i].key, s.rt.tasks[i].runID) in evs
      else exists g: nat :: OwnedBy(s, i, g)
  }

  predicate GosStay(s: State, t: State) {
    && |s.gos| <= |t.gos|
    && forall g :: 0 <= g < |s.gos| ==>
         && t.gos[g].runID == s.gos[g].runID && t.gos[g].key == s.gos[g].key && t.gos[g].step == s.gos[g].step
         && (PastReserve(s.gos[g].phase) ==> PastReserve(t.gos[g].phase))
  }

  lemma GosStayStep(s: State, ev: Event)
    ensures GosStay(s, Step(s, ev))
  {
    hide R.Step;
  }

  /** Which tasks there are after one event: those before, and at most the one it reserves or recovers. */
  lemma TasksStep(s: State, ev: Event)
    ensures var t := Step(s, ev);
      && |s.rt.tasks| <= |t.rt.tasks| <= |s.rt.tasks| + 1
      && (forall i :: 0 <= i < |s.rt.tasks| ==>
            && t.rt.tasks[i].key == s.rt.tasks[i].key && t.rt.tasks[i].runID == s.rt.tasks[i].runID
            && t.rt.tasks[i].recovered == s.rt.tasks[i].recovered)
      && (|t.rt.tasks| > |s.rt.tasks| ==>
            var w := t.rt.tasks[|s.rt.tasks|];
            if w.recovered then ev == Event.Recover(w.key, w.runID)
            else ev.Reserve? && OwnedBy(t, |s.rt.tasks|, ev.g))
  {
    hide R.PublishStep, R.CancelStep, R.Keyed;
    if ev.BackendCancel? { R.CancelSame(s.rt, ev.runID); }
    if ev.StartBack? && IsInside(s, ev.g) { StartBackTasks(s.rt, s.gos[ev.g].phase.task, ev.ok); }
  }

  lemma OwnedStep(s: State, evs: seq<Event>, ev: Event)
    requires TasksOwned(s, evs)
    ensures TasksOwned(Step(s, ev), evs + [ev])
  {
    hide Step;
    GosStayStep(s, ev);
    TasksStep(s, ev);
    var t := Step(s, ev);
    forall i: nat | i < |t.rt.tasks| && !t.rt.tasks[i].recovered ensures exists g: nat :: OwnedBy(t, i, g) {
      if i < |s.rt.tasks| {
        var g: nat :| OwnedBy(s, i, g);
        assert OwnedBy(t, i, g);
      } else {
        assert OwnedBy(t, i, ev.g);
      }
    }
  }

  lemma {:induction false} ExecuteOwned(concurrency: int, evs: seq<Event>)
    ensures TasksOwned(Execute(Initial(concurrency), evs), evs)
    decreases |evs|
  {
    hide Step, TasksOwned;
    if evs != [] {
      ExecuteOwned(concurrency, evs[..|evs| - 1]);
      OwnedStep(Execute(Initial(concurrency), evs[..|evs| - 1]), evs[..|evs| - 1], evs[|evs| - 1]);
      assert evs == evs[..|evs| - 1] + [evs[|evs| - 1]];
    } else {
      assert TasksOwned(Initial(concurrency), []) by { NoTasksOwned(concurrency); }
    }
  }

  lemma NoTasksOwned(concurrency: int)
    ensures TasksOwned(Initial(concurrency), [])
  {
  }

  lemma {:induction false} GosStayLater(s: State, evs: seq<Event>, k: nat)
    requires k <= |evs|
    ensures GosStay(Execute(s, evs[..k]), Execute(s, evs))
    decreases |evs| - k
  {
    hide Step;
    if k == |evs| {
      assert evs[..k] == evs;
    } else {
      assert evs[..k + 1][..k] == evs[..k];
      GosStayStep(Execute(s, evs[..k]), evs[k]);
      GosStayLater(s, evs, k + 1);
    }
  }

  /** No goroutine shares its key with another if either belongs to the run. */
  predicate DistinctKeys(gos: seq<Go>, runID: string) {
    forall g, h :: 0 <= g < |gos| && 0 <= h < |gos| && g != h && gos[g].runID == runID ==> gos[h].key != gos[g].key
  }

  /** Recoveries are of other runs, and under other keys. */
  predicate RecoversApart(evs: seq<Event>, gos: seq<Go>, runID: string) {
    forall k :: 0 <= k < |evs| && evs[k].Recover? ==>
      evs[k].runID != runID && forall g :: 0 <= g < |gos| && gos[g].runID == runID ==> gos[g].key != evs[k].key
  }

  lemma KeyFreeNow(s: State, evs: seq<Event>, ev: Event, last: seq<Go>, runID: string)
    requires TasksOwned(s, evs) && GosStay(s, s.(gos := last)) && DistinctKeys(last, runID)
    requires RecoversApart(evs + [ev], last, runID)
    ensures KeyFreeFor(s, ev, runID)
  {
    assert forall e :: e in evs ==> e in evs + [ev];
    if ev.Reserve? && At(s, ev.g, Holding) && R.HasRoom(s.rt) {
      forall i: nat | i < |s.rt.tasks| && R.Live(s.rt.tasks[i]) && s.rt.tasks[i].key == s.gos[ev.g].key
        ensures s.rt.tasks[i].runID != runID && s.gos[ev.g].runID != runID
      {
        if !s.rt.tasks[i].recovered {
          var h: nat :| OwnedBy(s, i, h);
          assert h != ev.g && last[h].key == last[ev.g].key;
        } else {
          RecoveredApart(evs + [ev], last, runID, s.rt.tasks[i].key, s.rt.tasks[i].runID);
        }
      }
    }
    if ev.Recover? {
      assert (evs + [ev])[|evs|] == ev;
      forall i: nat | i < |s.rt.tasks| && R.Live(s.rt.tasks[i]) && s.rt.tasks[i].key == ev.key
        ensures s.rt.tasks[i].runID != runID
      {
        if !s.rt.tasks[i].recovered {
          var h: nat :| OwnedBy(s, i, h);
          assert last[h].key == ev.key;
        } else {
          RecoveredApart(evs + [ev], last, runID, s.rt.tasks[i].key, s.rt.tasks[i].runID);
        }
      }
    }
  }

  lemma RecoveredApart(evs: seq<Event>, gos: seq<Go>, runID: string, key: string, owner: string)
    requires RecoversApart(evs, gos, runID) && Event.Recover(key, owner) in evs
    ensures owner != runID && forall g :: 0 <= g < |gos| && gos[g].runID == runID ==> gos[g].key != key
  {
    var k :| 0 <= k < |evs| && evs[k] == Event.Recover(key, owner);
  }

  /**
   The run's keys are free throughout if no two goroutines share one of them, whatever becomes of the
   goroutines, and recoveries keep away from the run and from its keys.
   */
  lemma {:induction false} DistinctKeysAreFree(concurrency: int, evs: seq<Event>, k: nat, runID: string)
    requires k <= |evs|
    requires var gos := Execute(Initial(concurrency), evs).gos; DistinctKeys(gos, runID) && RecoversApart(evs, gos, runID)
    ensures RunKeysFree(Initial(concurrency), evs[..k], runID)
    decreases k
  {
    hide Step, KeyFreeFor, DistinctKeys, TasksOwned;
    if k > 0 {
      var s0, gos := Initial(concurrency), Execute(Initial(concurrency), evs).gos;
      var init := evs[..k - 1];
      DistinctKeysAreFree(concurrency, evs, k - 1, runID);
      assert evs[..k][..k - 1] == init;
      ExecuteOwned(concurrency, init);
      GosStayLater(s0, evs, k - 1);
      assert init + [evs[k - 1]] == evs[..k];
      FewerRecover(evs, k, gos, runID);
      KeyFreeNow(Execute(s0, init), init, evs[k - 1], gos, runID);
    }
  }

  lemma FewerRecover(evs: seq<Event>, k: nat, gos: seq<Go>, runID: string)
    requires k <= |evs| && RecoversApart(evs, gos, runID)
    ensures RecoversApart(evs[..k], gos, runID)
  {
  }

  /*** What a shared key does ***/

  /** One goroutine's way through a start that succeeds. */
  function WayIn(g: nat, runID: string, step: string, key: string): seq<Event> {
    [NewGo(runID, step, key), Check(g), Enter(g), Reserve(g), StartBack(g, true), Exit(g)]
  }

  function OneTask(key: string, runID: string): R.Task {
    R.Task(key, runID, false, R.Observed, false, false, Some(0), false)
  }

  function FirstIn(runID: string, step: string, key: string): State {
    State(R.State(2, false, map[key := 0], 1, [OneTask(key, runID)]), map[], [], None, [Go(runID, step, key, Underway, Ended)])
  }

  function BothIn(runID: string, step: string, key: string): State {
    State(R.State(2, false, map[key := 1], 2, [OneTask(key, runID), OneTask(key, runID).(handle := Some(1))]),
          map[], [], None, [Go(runID, step, key, Underway, Ended), Go(runID, step, key, Underway, Ended)])
  }

  lemma {:induction false} ExecuteConcat(s: State, a: seq<Event>, b: seq<Event>)
    ensures Execute(s, a + b) == Execute(Execute(s, a), b)
    decreases |b|
  {
    hide Step;
    if b == [] {
      assert a + b == a;
    } else {
      assert (a + b)[..|a + b| - 1] == a + b[..|b| - 1];
      ExecuteConcat(s, a, b[..|b| - 1]);
    }
  }

  lemma SixSteps(s: State, evs: seq<Event>)
    requires |evs| == 6
    ensures Execute(s, evs) == Step(Step(Step(Step(Step(Step(s, evs[0]), evs[1]), evs[2]), evs[3]), evs[4]), evs[5])
  {
    hide Step;
    assert evs[..5][..4] == evs[..4] && evs[..4][..3] == evs[..3] && evs[..3][..2] == evs[..2];
    assert evs[..2][..1] == evs[..1] && evs[..1][..0] == [];
    assert Execute(s, evs[..1]) == Step(s, evs[0]);
    assert Execute(s, evs[..2]) == Step(Execute(s, evs[..1]), evs[1]);
    assert Execute(s, evs[..3]) == Step(Execute(s, evs[..2]), evs[2]);
    assert Execute(s, evs[..4]) == Step(Execute(s, evs[..3]), evs[3]);
    assert Execute(s, evs[..5]) == Step(Execute(s, evs[..4]), evs[4]);
  }

  function Row(s: State, go: Go): State {
    s.(gos := s.gos + [go])
  }

  lemma RowSet(s: State, go: Go, p: Phase)
    ensures At(Row(s, go), |s.gos|, go.phase) && SetGo(Row(s, go), |s.gos|, p) == Row(s, go.(phase := p))
    ensures Row(s, go).gos[|s.gos|] == go
  {
  }

  /** An undisturbed start: one reservation under the key, published. */
  lemma GoesIn(s: State, runID: string, step: string, key: string)
    requires s.holder.None? && runID !in s.canceled && R.HasRoom(s.rt)
    ensures Execute(s, WayIn(|s.gos|, runID, step, key)) ==
      Row(s.(rt := R.PublishStep(R.ReserveStep(s.rt, key, runID), |s.rt.tasks|)), Go(runID, step, key, Underway, Ended))
  {
    var g, n, evs := |s.gos|, |s.rt.tasks|, WayIn(|s.gos|, runID, step, key);
    SixSteps(s, evs);
    hide Execute, R.PublishStep, SetGo;
    var go := Go(runID, step, key, Underway, Scheduled);
    var taken, inside := s.(holder := Some(g)), s.(holder := Some(g), rt := R.ReserveStep(s.rt, key, runID));
    var s1 := Row(s, go);
    assert Step(s, evs[0]) == s1;
    RowSet(s, go, Passed);
    var s2 := Row(s, go.(phase := Passed));
    assert Step(s1, evs[1]) == s2;
    RowSet(s, go.(phase := Passed), Holding);
    var s3 := Row(taken, go.(phase := Holding));
    assert Step(s2, evs[2]) == s3;
    RowSet(taken, go.(phase := Holding), Inside(n));
    var s4 := Row(inside, go.(phase := Inside(n)));
    assert Step(s3, evs[3]) == s4;
    GoesOut(inside, go.(phase := Inside(n)), n);
  }

  lemma GoesOut(s: State, go: Go, n: nat)
    requires go.phase == Inside(n) && n < |s.rt.tasks| && s.rt.tasks[n].phase.Starting?
    ensures Step(Step(Row(s, go), StartBack(|s.gos|, true)), Exit(|s.gos|))
         == Row(s.(rt := R.PublishStep(s.rt, n), holder := None), go.(phase := Ended))
  {
    hide R.PublishStep, SetGo;
    var out := s.(rt := R.PublishStep(s.rt, n));
    RowSet(s, go, Leaving);
    assert Step(Row(s, go), StartBack(|s.gos|, true)) == Row(out, go.(phase := Leaving));
    RowSet(out, go.(phase := Leaving), Ended);
  }

  lemma FirstGoesIn(runID: string, step: string, key: string)
    ensures Execute(Initial(2), WayIn(0, runID, step, key)) == FirstIn(runID, step, key)
  {
    hide Execute;
    GoesIn(Initial(2), runID, step, key);
    var r := R.ReserveStep(R.Initial(2), key, runID);
    assert r == R.State(2, false, map[key := 0], 1, [R.Task(key, runID, false, R.Starting, true, false, None, false)]);
    assert R.PublishStep(r, 0).tasks == [OneTask(key, runID)];
  }

  lemma SecondGoesIn(runID: string, step: string, key: string)
    ensures Execute(FirstIn(runID, step, key), WayIn(1, runID, step, key)) == BothIn(runID, step, key)
  {
    hide Execute;
    var s := FirstIn(runID, step, key);
    GoesIn(s, runID, step, key);
    var r := R.ReserveStep(s.rt, key, runID);
    assert r == R.State(2, false, map[key := 1], 2, [OneTask(key, runID), R.Task(key, runID, false, R.Starting, true, false, None, false)]);
    assert R.PublishStep(r, 1).tasks == [OneTask(key, runID), OneTask(key, runID).(handle := Some(1))];
  }

  /**
   Two goroutines of one step with the same attempt number, hence the same key, get in one after
   the other; then the run is canceled.  The tombstone stands, and the first task runs on unasked.
   */
  lemma SharedKeyMissesTask(runID: string, step: string, key: string)
    requires runID != ""
    ensures var s := Execute(Initial(2), WayIn(0, runID, step, key) + WayIn(1, runID, step, key) + [BackendCancel(runID)]);
      && runID in s.canceled && |s.rt.tasks| == 2
      && s.rt.tasks[0].runID == runID && s.rt.tasks[0].phase.Observed? && !s.rt.tasks[0].stopAsked
  {
    hide Execute, R.CancelStep, R.Leads;
    var a, b, c := WayIn(0, runID, step, key), WayIn(1, runID, step, key), [BackendCancel(runID)];
    FirstGoesIn(runID, step, key);
    SecondGoesIn(runID, step, key);
    ExecuteConcat(Initial(2), a, b);
    ExecuteConcat(Initial(2), a + b, c);
    var s := BothIn(runID, step, key);
    assert Execute(s, c) == Step(s, BackendCancel(runID)) by { LastStep(s, BackendCancel(runID)); }
    R.CancelSame(s.rt, runID);
    assert !R.Leads(s.rt, 0, runID) by { HiddenTask(runID, step, key); }
    R.CancelStopsIff(s.rt, 0, runID);
  }

  lemma LastStep(s: State, ev: Event)
    ensures Execute(s, [ev]) == Step(s, ev)
  {
    assert [ev][..0] == [];
  }

  lemma HiddenTask(runID: string, step: string, key: string)
    ensures R.Keyed(BothIn(runID, step, key).rt) && !R.Leads(BothIn(runID, step, key).rt, 0, runID)
  {
  }

  /**
   Reserving the key of any live task is enough to break the guarantee: once the second task is
   published, a cancel of the run no longer reaches the first.
   */
  lemma ReuseHidesTask(rt: R.State, i: nat)
    requires R.Registered(rt) && R.HasRoom(rt) && i < |rt.tasks|
    requires rt.tasks[i].phase.Observed? && !rt.tasks[i].stopAsked && rt.tasks[i].runID != ""
    ensures var a := R.Step(rt, R.Reserve(rt.tasks[i].key, rt.tasks[i].runID));
      var b := R.Step(a, R.StartReturns(|rt.tasks|));
      var c := R.Step(b, R.CancelRun(rt.tasks[i].runID));
      && R.Live(c.tasks[i]) && c.tasks[i].runID == rt.tasks[i].runID && !c.tasks[i].stopAsked
  {
    var key, runID, n := rt.tasks[i].key, rt.tasks[i].runID, |rt.tasks|;
    var a := R.Step(rt, R.Reserve(key, runID));
    var b := R.Step(a, R.StartReturns(n));
    assert a.active[key] == n && a.tasks[n].starting && !a.tasks[n].canceled;
    assert b.tasks[n].handle == Some(n) && b.active == a.active && forall j :: 0 <= j < n ==> b.tasks[j] == rt.tasks[j];
    forall t | 0 <= t < |b.tasks| && R.Hit(b, t, runID, b.active.Keys) && !b.tasks[t].starting
      ensures b.tasks[t].handle != Some(i)
    {
      if t < n { assert t != i; OtherHandle(rt, t, i); }
    }
    assert !R.StoppedBy(b, i, runID, b.active.Keys);
  }

  lemma OtherHandle(rt: R.State, t: nat, i: nat)
    requires R.Registered(rt) && t < |rt.tasks| && t != i && rt.tasks[t].key in rt.active && rt.active[rt.tasks[t].key] == t
    requires !rt.tasks[t].starting
    ensures rt.tasks[t].handle != Some(i)
  {
  }

  /*** The backend object ***/

  datatype DispatchResult = RunCanceled | Busy | StartError | StoppedMidStart | Started

  /** Its methods run under the backend's lock from start to end. */
  class DockerBackend {
    const runtime: R.DirectRuntime
    var canceled: map<string, nat>
    var timers: seq<string>

    ghost predicate Valid()
      reads this, runtime
    {
      && R.Balanced(runtime.St()) && R.HandlesOk(runtime.St())
      && forall r :: r in canceled ==> canceled[r] < |timers| && timers[canceled[r]] == r
    }

    ghost function St(): State
      reads this, runtime
    {
      State(runtime.St(), canceled, timers, None, [])
    }

    constructor (concurrency: int)
      ensures Valid() && fresh(runtime) && St() == Initial(concurrency)
    {
      runtime := new R.DirectRuntime(concurrency);
      canceled, timers := map[], [];
    }

    method MarkCanceled(runID: string)
      requires Valid()
      modifies this
      ensures Valid() && St() == Bury(old(St()), runID)
    {
      canceled := canceled[runID := |timers|];
      timers := timers + [runID];
    }

    method CancelRun(runID: string)
      requires Valid()
      modifies this, runtime
      ensures Valid() && St() == Step(old(St()), BackendCancel(runID))
    {
      hide R.Balanced, R.HandlesOk, R.CancelStep;
      if runID == "" {
        return;
      }
      MarkCanceled(runID);
      runtime.Cancel(runID);
    }

    method ReleaseRun(runID: string)
      requires Valid()
      modifies this
      ensures Valid() && St() == Step(old(St()), Event.ReleaseRun(runID))
    {
      if runID in canceled {
        canceled := canceled - {runID};
      }
      assert canceled == old(canceled) - {runID};
    }

    /** The body of a tombstone's timer: it only takes away its own. */
    method TimerBody(t: nat)
      requires Valid() && t < |timers|
      modifies this
      ensures Valid() && St() == Step(old(St()), TimerFires(t))
      ensures forall r :: r in old(canceled) && old(canceled)[r] != t ==> r in canceled && canceled[r] == old(canceled)[r]
    {
      var runID := timers[t];
      if runID in canceled && canceled[runID] == t {
        canceled := canceled - {runID};
      }
    }

    /** Dispatch of one task whose Start succeeds or fails as told. */
    method Dispatch(key: string, runID: string, startOk: bool) returns (result: DispatchResult)
      requires Valid()
      modifies this, runtime
      ensures Valid() && canceled == old(canceled) && timers == old(timers)
      ensures result.RunCanceled? <==> runID in canceled
      ensures result.RunCanceled? || result.Busy? ==> runtime.St() == old(runtime.St())
      ensures !result.RunCanceled? && !result.Busy? ==>
        runtime.St() == R.Step(R.Step(old(runtime.St()), R.Reserve(key, runID)),
                               if startOk then R.StartReturns(|old(runtime.St()).tasks|) else R.StartFails(|old(runtime.St()).tasks|))
      ensures result.Busy? <==> runID !in canceled && (old(runtime.draining) || R.Unreleased(old(runtime.tasks)) >= runtime.concurrency)
      ensures result.StartError? <==> !startOk && !result.RunCanceled? && !result.Busy?
      ensures result.Started? <==> startOk && !result.RunCanceled? && !result.Busy?
      ensures result.Started? ==>
        |old(runtime.St()).tasks| < |runtime.tasks| && runtime.tasks[|old(runtime.St()).tasks|].phase.Observed?
    {
      hide R.Balanced, R.CancelStep, R.RecoverStep;
      if runID in canceled {
        return RunCanceled;
      }
      var i := |runtime.tasks|;
      var busy := runtime.TryReserve(key, runID);
      if busy {
        return Busy;
      }
      if !startOk {
        runtime.Rollback(i);
        return StartError;
      }
      var stop := runtime.Publish(i);
      return if stop then StoppedMidStart else Started;
    }
  }
}
