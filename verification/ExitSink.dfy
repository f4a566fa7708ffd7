/**
 The exit-event sink of the process supervisor.  Handlers are identified by a number; `fired`
 records every invocation of one with the status it was given.
 */
module ExitSinks {
  import opened Options

  datatype Registration = Registration(pid: int, handler: nat)

  datatype Stop = Stop(pid: int, status: string)

  datatype Firing = Firing(handler: nat, status: string)

  datatype State = State(callbacks: map<string, Registration>, pending: map<string, seq<Stop>>, fired: seq<Firing>)

  /** `handler` is None for a nil handler; `isStop` is false for every other kind of history event. */
  datatype Event =
    | Register(name: string, handler: Option<nat>)
    | Deregister(name: string)
    | BindPID(name: string, pid: int)
    | Send(name: string, isStop: bool, stop: Stop)

  /** The status of the first stop event for `pid`. */
  function FirstStatus(stops: seq<Stop>, pid: int): Option<string> {
    if stops == [] then None
    else if stops[0].pid == pid then Some(stops[0].status)
    else FirstStatus(stops[1..], pid)
  }

  function PendingOf(s: State, name: string): seq<Stop> {
    if name in s.pending then s.pending[name] else []
  }

  function BindStep(s: State, name: string, pid: int): State {
    if name !in s.callbacks then s
    else
      var reg := s.callbacks[name].(pid := pid);
      var status := FirstStatus(PendingOf(s, name), pid);
      State(if status.Some? then s.callbacks - {name} else s.callbacks[name := reg],
            s.pending - {name},
            if status.Some? then s.fired + [Firing(reg.handler, status.value)] else s.fired)
  }

  function SendStep(s: State, name: string, stop: Stop): State {
    if name !in s.callbacks then s
    else
      var reg := s.callbacks[name];
      if reg.pid == 0 then s.(pending := s.pending[name := PendingOf(s, name) + [stop]])
      else if reg.pid == stop.pid then
        s.(callbacks := s.callbacks - {name}, fired := s.fired + [Firing(reg.handler, stop.status)])
      else s
  }

  function Step(s: State, ev: Event): State {
    match ev
    case Register(name, handler) =>
      if handler.None? then s
      else s.(callbacks := s.callbacks[name := Registration(0, handler.value)], pending := s.pending - {name})
    case Deregister(name) => s.(callbacks := s.callbacks - {name}, pending := s.pending - {name})
    case BindPID(name, pid) => BindStep(s, name, pid)
    case Send(name, isStop, stop) => if isStop then SendStep(s, name, stop) else s
  }

  function Execute(s: State, evs: seq<Event>): State {
    if evs == [] then s else Step(Execute(s, evs[..|evs| - 1]), evs[|evs| - 1])
  }

  /*** Reading a history of events ***/

  /** The stop events of a name, in order. */
  function StopsOf(evs: seq<Event>, name: string): seq<Stop> {
    if evs == [] then []
    else
      var last := evs[|evs| - 1];
      StopsOf(evs[..|evs| - 1], name) + if StopOf(last, name) then [last.stop] else []
  }

  predicate Binds(ev: Event, name: string) {
    ev.BindPID? && ev.name == name
  }

  /** The PID a name was bound to last, if any. */
  function BoundPID(evs: seq<Event>, name: string): Option<int> {
    if evs == [] then None
    else if Binds(evs[|evs| - 1], name) then Some(evs[|evs| - 1].pid)
    else BoundPID(evs[..|evs| - 1], name)
  }

  /** The PID a name was bound to first, if any. */
  function FirstPID(evs: seq<Event>, name: string): Option<int> {
    if evs == [] then None
    else
      var before := FirstPID(evs[..|evs| - 1], name);
      if before.None? && Binds(evs[|evs| - 1], name) then Some(evs[|evs| - 1].pid) else before
  }

  /** The PID event number `k` is judged by: that of the last bind before it, else that of the first bind after it. */
  function GoverningPID(evs: seq<Event>, name: string, k: nat): Option<int>
    requires k <= |evs|
  {
    var bound := BoundPID(evs[..k], name);
    if bound.Some? then bound else FirstPID(evs, name)
  }

  /** Event number `k` is a stop event of the name, for the PID that governs it. */
  predicate Matches(evs: seq<Event>, name: string, k: nat) {
    k < |evs| && StopOf(evs[k], name) && GoverningPID(evs, name, k) == Some(evs[k].stop.pid)
  }

  predicate StopOf(ev: Event, name: string) {
    ev.Send? && ev.isStop && ev.name == name
  }

  /** Event number `k` is the first that matches. */
  ghost predicate MatchesFirst(evs: seq<Event>, name: string, k: nat) {
    Matches(evs, name, k) && forall j: nat :: j < k ==> !Matches(evs, name, j)
  }

  /** The statuses a handler was invoked with, in order. */
  function StatusesOf(fired: seq<Firing>, handler: nat): seq<string> {
    if fired == [] then []
    else
      var last := fired[|fired| - 1];
      StatusesOf(fired[..|fired| - 1], handler) + if last.handler == handler then [last.status] else []
  }

  lemma StatusesMore(fired: seq<Firing>, f: Firing, handler: nat)
    ensures StatusesOf(fired + [f], handler) == StatusesOf(fired, handler) + if f.handler == handler then [f.status] else []
  {
    assert (fired + [f])[..|fired|] == fired;
  }

  lemma {:induction false} FirstStatusMore(stops: seq<Stop>, stop: Stop, pid: int)
    ensures FirstStatus(stops + [stop], pid) ==
      if FirstStatus(stops, pid).Some? then FirstStatus(stops, pid)
      else if stop.pid == pid then Some(stop.status) else None
    decreases |stops|
  {
    if stops == [] {
      assert ([] + [stop])[1..] == [];
    } else {
      assert (stops + [stop])[1..] == stops[1..] + [stop];
      FirstStatusMore(stops[1..], stop, pid);
    }
  }

  /** The event does not replace or remove the registration of `name`, nor bind it to PID zero, nor reuse `handler`. */
  predicate Mild(ev: Event, name: string, handler: nat) {
    match ev
    case Register(m, h) => h.Some? ==> m != name && h.value != handler
    case Deregister(m) => m != name
    case BindPID(m, pid) => m == name ==> pid != 0
    case Send(_, _, _) => true
  }

  /** The registration of `name` with `handler` stands. */
  predicate Undisturbed(evs: seq<Event>, name: string, handler: nat) {
    forall k :: 0 <= k < |evs| ==> Mild(evs[k], name, handler)
  }

  /** How often the handler ran, and with what, by the history. */
  ghost predicate RanAsTold(statuses: seq<string>, evs: seq<Event>, name: string) {
    if exists k: nat :: Matches(evs, name, k)
    then exists k: nat :: MatchesFirst(evs, name, k) && statuses == [evs[k].stop.status]
    else statuses == []
  }

  /** Where a registration stands that was bound to `pid` last and has seen `stops`. */
  predicate Stands(t: State, pid: Option<int>, stops: seq<Stop>, name: string, handler: nat) {
    && (forall m :: m in t.callbacks && m != name ==> t.callbacks[m].handler != handler)
    && if pid.None? then
         name in t.callbacks && t.callbacks[name] == Registration(0, handler) && PendingOf(t, name) == stops
         && StatusesOf(t.fired, handler) == []
       else if StatusesOf(t.fired, handler) == [] then
         pid.value != 0 && name in t.callbacks && t.callbacks[name] == Registration(pid.value, handler) && PendingOf(t, name) == []
       else
         name !in t.callbacks
  }

  /** What has arrived decides everything. */
  ghost predicate Follows(t: State, evs: seq<Event>, name: string, handler: nat) {
    RanAsTold(StatusesOf(t.fired, handler), evs, name) && Stands(t, BoundPID(evs, name), StopsOf(evs, name), name, handler)
  }

  lemma HistoryMore(evs: seq<Event>, ev: Event, name: string)
    ensures StopsOf(evs + [ev], name) == StopsOf(evs, name) + if StopOf(ev, name) then [ev.stop] else []
    ensures BoundPID(evs + [ev], name) == if Binds(ev, name) then Some(ev.pid) else BoundPID(evs, name)
    ensures FirstPID(evs + [ev], name) ==
      if FirstPID(evs, name).None? && Binds(ev, name) then Some(ev.pid) else FirstPID(evs, name)
  {
    assert (evs + [ev])[..|evs|] == evs;
  }

  lemma {:induction false} FirstIffBound(evs: seq<Event>, name: string)
    ensures FirstPID(evs, name).Some? <==> BoundPID(evs, name).Some?
    decreases |evs|
  {
    if evs != [] { FirstIffBound(evs[..|evs| - 1], name); }
  }

  lemma {:induction false} BoundBefore(evs: seq<Event>, name: string, k: nat)
    requires k <= |evs| && BoundPID(evs[..k], name).Some?
    ensures BoundPID(evs, name).Some?
    decreases |evs|
  {
    if k == |evs| {
      assert evs[..k] == evs;
    } else {
      assert evs[..|evs| - 1][..k] == evs[..k];
      BoundBefore(evs[..|evs| - 1], name, k);
    }
  }

  /** An event that comes after a first bind, or is no bind, changes nothing about what came before it. */
  lemma MatchesMore(evs: seq<Event>, ev: Event, name: string)
    requires Binds(ev, name) ==> BoundPID(evs, name).Some?
    ensures forall k: nat :: k < |evs| ==> (Matches(evs + [ev], name, k) <==> Matches(evs, name, k))
    ensures Matches(evs + [ev], name, |evs|) <==> StopOf(ev, name) && BoundPID(evs, name) == Some(ev.stop.pid)
  {
    HistoryMore(evs, ev, name);
    FirstIffBound(evs, name);
    hide BoundPID, FirstPID;
    assert (evs + [ev])[..|evs|] == evs;
    forall k: nat | k < |evs| ensures Matches(evs + [ev], name, k) <==> Matches(evs, name, k) {
      assert (evs + [ev])[..k] == evs[..k];
    }
  }

  lemma RanMore(statuses: seq<string>, evs: seq<Event>, ev: Event, name: string)
    requires RanAsTold(statuses, evs, name) && (Binds(ev, name) ==> BoundPID(evs, name).Some?)
    requires statuses != [] || !StopOf(ev, name) || BoundPID(evs, name) != Some(ev.stop.pid)
    ensures RanAsTold(statuses, evs + [ev], name)
  {
    MatchesMore(evs, ev, name);
    hide Matches;
    if k: nat :| Matches(evs, name, k) {
      assert k < |evs| by { MatchInRange(evs, name, k); }
      assert Matches(evs + [ev], name, k);
      var h: nat :| MatchesFirst(evs, name, h) && statuses == [evs[h].stop.status];
      MatchInRange(evs, name, h);
      assert MatchesFirst(evs + [ev], name, h);
    } else {
      forall k: nat ensures !Matches(evs + [ev], name, k) {
        if Matches(evs + [ev], name, k) { MatchInRange(evs + [ev], name, k); }
      }
    }
  }

  lemma MatchInRange(evs: seq<Event>, name: string, k: nat)
    requires Matches(evs, name, k)
    ensures k < |evs|
  {
  }

  /** The first stop event that is judged after its bind. */
  lemma RanNow(evs: seq<Event>, ev: Event, name: string)
    requires RanAsTold([], evs, name) && StopOf(ev, name) && BoundPID(evs, name) == Some(ev.stop.pid)
    ensures RanAsTold([ev.stop.status], evs + [ev], name)
  {
    MatchesMore(evs, ev, name);
    hide Matches;
    assert (evs + [ev])[|evs|] == ev;
    assert forall k: nat :: !Matches(evs, name, k);
    assert MatchesFirst(evs + [ev], name, |evs|);
  }

  /** Which of the stop events so far the first bind finds. */
  lemma {:induction false} BacklogSearch(evs: seq<Event>, name: string, pid: int) returns (k: nat)
    ensures FirstStatus(StopsOf(evs, name), pid).Some? ==>
      && k < |evs| && StopOf(evs[k], name) && evs[k].stop.pid == pid
      && FirstStatus(StopsOf(evs, name), pid) == Some(evs[k].stop.status)
      && forall j: nat :: j < k && StopOf(evs[j], name) ==> evs[j].stop.pid != pid
    ensures FirstStatus(StopsOf(evs, name), pid).None? ==> forall j: nat :: j < |evs| && StopOf(evs[j], name) ==> evs[j].stop.pid != pid
    decreases |evs|
  {
    k := 0;
    if evs != [] {
      var init, last := evs[..|evs| - 1], evs[|evs| - 1];
      k := BacklogSearch(init, name, pid);
      if StopOf(last, name) {
        FirstStatusMore(StopsOf(init, name), last.stop, pid);
        if FirstStatus(StopsOf(init, name), pid).None? { k := |evs| - 1; }
      } else {
        assert StopsOf(evs, name) == StopsOf(init, name);
      }
      assert forall j: nat :: j < |init| ==> evs[j] == init[j];
    }
  }

  lemma FirstBind(evs: seq<Event>, name: string, pid: int)
    requires BoundPID(evs, name).None?
    ensures var status := FirstStatus(StopsOf(evs, name), pid);
      RanAsTold(if status.Some? then [status.value] else [], evs + [BindPID(name, pid)], name)
  {
    var all := evs + [BindPID(name, pid)];
    HistoryMore(evs, BindPID(name, pid), name);
    FirstIffBound(evs, name);
    var k := BacklogSearch(evs, name, pid);
    forall j: nat ensures Matches(all, name, j) <==> j < |evs| && StopOf(evs[j], name) && evs[j].stop.pid == pid {
      if j < |evs| {
        assert all[..j] == evs[..j];
        if BoundPID(evs[..j], name).Some? { BoundBefore(evs, name, j); }
      }
    }
    hide Matches;
    if FirstStatus(StopsOf(evs, name), pid).Some? {
      assert Matches(all, name, k);
      assert MatchesFirst(all, name, k) && all[k] == evs[k];
    }
  }

  /** A bind finds what its backlog holds, and only the first one has a backlog. */
  lemma BindStands(t: State, before: Option<int>, stops: seq<Stop>, name: string, handler: nat, m: string, pid: int)
    requires Stands(t, before, stops, name, handler) && (m == name ==> pid != 0)
    ensures Stands(BindStep(t, m, pid), if m == name then Some(pid) else before, stops, name, handler)
    ensures StatusesOf(BindStep(t, m, pid).fired, handler) ==
      if m == name && before.None? && FirstStatus(stops, pid).Some? then [FirstStatus(stops, pid).value] else StatusesOf(t.fired, handler)
  {
    EmptyHasNoStatus();
    hide StatusesOf, FirstStatus;
    var statuses := StatusesOf(t.fired, handler);
    assert statuses + [] == statuses;
    if m in t.callbacks && FirstStatus(PendingOf(t, m), pid).Some? {
      StatusesMore(t.fired, Firing(t.callbacks[m].handler, FirstStatus(PendingOf(t, m), pid).value), handler);
    }
  }

  lemma BindFollows(t: State, evs: seq<Event>, name: string, handler: nat, m: string, pid: int)
    requires Follows(t, evs, name, handler) && (m == name ==> pid != 0)
    ensures Follows(BindStep(t, m, pid), evs + [BindPID(m, pid)], name, handler)
  {
    hide Stands, RanAsTold, BindStep, StopsOf, BoundPID, FirstPID, StatusesOf, FirstStatus;
    var ev, statuses := BindPID(m, pid), StatusesOf(t.fired, handler);
    HistoryMore(evs, ev, name);
    assert StopsOf(evs, name) + [] == StopsOf(evs, name);
    BindStands(t, BoundPID(evs, name), StopsOf(evs, name), name, handler, m, pid);
    if m == name && BoundPID(evs, name).None? {
      NoBindNoRun(statuses, evs, name);
      FirstBind(evs, name, pid);
    } else {
      RanMore(statuses, evs, ev, name);
    }
  }

  /** Nothing runs before a bind. */
  lemma NoBindNoRun(statuses: seq<string>, evs: seq<Event>, name: string)
    requires RanAsTold(statuses, evs, name) && BoundPID(evs, name).None?
    ensures statuses == []
  {
    FirstIffBound(evs, name);
    forall k: nat ensures !Matches(evs, name, k) {
      if k < |evs| && BoundPID(evs[..k], name).Some? { BoundBefore(evs, name, k); }
    }
  }

  lemma SendStands(t: State, pid: Option<int>, stops: seq<Stop>, name: string, handler: nat, m: string, stop: Stop)
    requires Stands(t, pid, stops, name, handler)
    ensures Stands(SendStep(t, m, stop), pid, if m == name then stops + [stop] else stops, name, handler)
    ensures StatusesOf(SendStep(t, m, stop).fired, handler) ==
      if m == name && StatusesOf(t.fired, handler) == [] && pid == Some(stop.pid) then [stop.status] else StatusesOf(t.fired, handler)
  {
    hide StatusesOf;
    var statuses := StatusesOf(t.fired, handler);
    assert statuses + [] == statuses;
    if m in t.callbacks { StatusesMore(t.fired, Firing(t.callbacks[m].handler, stop.status), handler); }
  }

  lemma SendFollows(t: State, evs: seq<Event>, name: string, handler: nat, m: string, stop: Stop)
    requires Follows(t, evs, name, handler)
    ensures Follows(SendStep(t, m, stop), evs + [Send(m, true, stop)], name, handler)
  {
    hide Stands, RanAsTold, SendStep, StopsOf, BoundPID, FirstPID, StatusesOf;
    var ev, statuses := Send(m, true, stop), StatusesOf(t.fired, handler);
    HistoryMore(evs, ev, name);
    assert StopsOf(evs, name) + [] == StopsOf(evs, name);
    SendStands(t, BoundPID(evs, name), StopsOf(evs, name), name, handler, m, stop);
    if statuses == [] && m == name && BoundPID(evs, name) == Some(stop.pid) {
      RanNow(evs, ev, name);
    } else {
      RanMore(statuses, evs, ev, name);
    }
  }

  lemma EmptyHasNoStatus()
    ensures forall pid :: FirstStatus([], pid) == None
  {
  }

  lemma FollowStep(t: State, evs: seq<Event>, name: string, handler: nat, ev: Event)
    requires Mild(ev, name, handler) && Follows(t, evs, name, handler)
    ensures Follows(Step(t, ev), evs + [ev], name, handler)
  {
    hide BindStep, SendStep, StopsOf, BoundPID, StatusesOf, FirstStatus, RanAsTold, FirstPID;
    HistoryMore(evs, ev, name);
    assert StopsOf(evs, name) + [] == StopsOf(evs, name);
    match ev
    case BindPID(m, pid) => BindFollows(t, evs, name, handler, m, pid);
    case Send(m, isStop, stop) =>
      if isStop { SendFollows(t, evs, name, handler, m, stop); } else { RanMore(StatusesOf(t.fired, handler), evs, ev, name); }
    case _ => RanMore(StatusesOf(t.fired, handler), evs, ev, name);
  }

  predicate Unheld(s: State, handler: nat) {
    forall m :: m in s.callbacks ==> s.callbacks[m].handler != handler
  }

  lemma SilentStep(s: State, ev: Event, handler: nat)
    requires Unheld(s, handler) && !(ev.Register? && ev.handler == Some(handler))
    ensures Unheld(Step(s, ev), handler) && StatusesOf(Step(s, ev).fired, handler) == StatusesOf(s.fired, handler)
  {
    hide StatusesOf, FirstStatus;
    assert StatusesOf(s.fired, handler) + [] == StatusesOf(s.fired, handler);
    if ev.BindPID? && ev.name in s.callbacks && FirstStatus(PendingOf(s, ev.name), ev.pid).Some? {
      StatusesMore(s.fired, Firing(s.callbacks[ev.name].handler, FirstStatus(PendingOf(s, ev.name), ev.pid).value), handler);
    }
    if ev.Send? && ev.name in s.callbacks { StatusesMore(s.fired, Firing(s.callbacks[ev.name].handler, ev.stop.status), handler); }
  }

  lemma {:induction false} SilentWhileUnheld(s: State, evs: seq<Event>, handler: nat)
    requires Unheld(s, handler) && forall k :: 0 <= k < |evs| ==> !(evs[k].Register? && evs[k].handler == Some(handler))
    ensures Unheld(Execute(s, evs), handler) && StatusesOf(Execute(s, evs).fired, handler) == StatusesOf(s.fired, handler)
    decreases |evs|
  {
    hide Step, StatusesOf, Unheld;
    if evs != [] {
      SilentWhileUnheld(s, evs[..|evs| - 1], handler);
      SilentStep(Execute(s, evs[..|evs| - 1]), evs[|evs| - 1], handler);
    }
  }

  /** Once its only registration has been removed or replaced, a handler never runs again unless it is registered again. */
  lemma RemovedIsSilent(s: State, name: string, ev: Event, evs: seq<Event>, handler: nat)
    requires forall m :: m in s.callbacks && m != name ==> s.callbacks[m].handler != handler
    requires ev == Deregister(name) || (ev.Register? && ev.name == name && ev.handler.Some? && ev.handler.value != handler)
    requires forall k :: 0 <= k < |evs| ==> !(evs[k].Register? && evs[k].handler == Some(handler))
    ensures StatusesOf(Execute(Step(s, ev), evs).fired, handler) == StatusesOf(s.fired, handler)
  {
    SilentWhileUnheld(Step(s, ev), evs, handler);
  }

  /** The handler is new: nobody holds it and it has not run. */
  predicate NewHandler(s: State, handler: nat) {
    StatusesOf(s.fired, handler) == [] && forall m :: m in s.callbacks ==> s.callbacks[m].handler != handler
  }

  lemma {:induction false} FollowAll(s: State, evs: seq<Event>, name: string, handler: nat)
    requires NewHandler(s, handler) && Undisturbed(evs, name, handler)
    ensures Follows(Execute(Step(s, Register(name, Some(handler))), evs), evs, name, handler)
    decreases |evs|
  {
    hide Step, Follows, Mild;
    if evs == [] {
      JustRegistered(s, name, handler);
    } else {
      var init := evs[..|evs| - 1];
      assert init + [evs[|evs| - 1]] == evs;
      assert Undisturbed(init, name, handler);
      FollowAll(s, init, name, handler);
      FollowStep(Execute(Step(s, Register(name, Some(handler))), init), init, name, handler, evs[|evs| - 1]);
    }
  }

  lemma JustRegistered(s: State, name: string, handler: nat)
    requires NewHandler(s, handler)
    ensures Follows(Step(s, Register(name, Some(handler))), [], name, handler)
  {
  }

  /**
   However often the name is bound to processes: the handler runs exactly once if some stop event is
   for the PID that governs it, the one bound last before it or, before any bind, the one bound
   first after it, and not at all otherwise.  The status it gets is that of the first such event.
   */
  lemma HandlerRunsOnce(s: State, evs: seq<Event>, name: string, handler: nat)
    requires NewHandler(s, handler) && Undisturbed(evs, name, handler)
    ensures var statuses := StatusesOf(Execute(Step(s, Register(name, Some(handler))), evs).fired, handler);
      && ((exists k: nat :: Matches(evs, name, k)) ==> exists k: nat :: MatchesFirst(evs, name, k) && statuses == [evs[k].stop.status])
      && ((forall k: nat :: !Matches(evs, name, k)) ==> statuses == [])
  {
    hide Execute, Step, Undisturbed, Matches, MatchesFirst;
    FollowAll(s, evs, name, handler);
  }

  /** FirstStatus finds an event exactly when there is one for the PID. */
  lemma {:induction false} FirstStatusIff(stops: seq<Stop>, pid: int)
    ensures FirstStatus(stops, pid).Some? <==> exists k :: 0 <= k < |stops| && stops[k].pid == pid
    decreases |stops|
  {
    if stops != [] {
      FirstStatusIff(stops[1..], pid);
      if k :| 0 <= k < |stops| && stops[k].pid == pid && k > 0 { assert stops[1..][k - 1].pid == pid; }
      if k :| 0 <= k < |stops[1..]| && stops[1..][k].pid == pid { assert stops[k + 1].pid == pid; }
    }
  }

  /*** The sink object ***/

  class ExitSink {
    var callbacks: map<string, Registration>
    var pending: map<string, seq<Stop>>
    var fired: seq<Firing>

    ghost function St(): State
      reads this
    {
      State(callbacks, pending, fired)
    }

    constructor ()
      ensures St() == State(map[], map[], [])
    {
      callbacks, pending, fired := map[], map[], [];
    }

    method RegisterHandler(name: string, handler: Option<nat>)
      modifies this
      ensures St() == Step(old(St()), Register(name, handler))
    {
      if handler.None? {
        return;
      }
      callbacks := callbacks[name := Registration(0, handler.value)];
      pending := pending - {name};
    }

    method DeregisterHandler(name: string)
      modifies this
      ensures St() == Step(old(St()), Deregister(name))
    {
      callbacks := callbacks - {name};
      pending := pending - {name};
    }

    method Bind(name: string, pid: int)
      modifies this
      ensures St() == Step(old(St()), BindPID(name, pid))
    {
      if name !in callbacks {
        return;
      }
      var reg := callbacks[name].(pid := pid);
      var stops := if name in pending then pending[name] else [];
      ghost var s0 := St();
      callbacks := callbacks[name := reg];
      var status: Option<string> := None;
      for k := 0 to |stops|
        invariant status.None? && FirstStatus(stops, pid) == FirstStatus(stops[k..], pid)
        invariant St() == s0.(callbacks := s0.callbacks[name := reg])
      {
        if stops[k].pid == pid {
          status := Some(stops[k].status);
          callbacks := callbacks - {name};
          break;
        }
      }
      pending := pending - {name};
      if status.Some? {
        fired := fired + [Firing(reg.handler, status.value)];
      }
      assert callbacks == Step(s0, BindPID(name, pid)).callbacks;
    }

    method Receive(name: string, isStop: bool, stop: Stop)
      modifies this
      ensures St() == Step(old(St()), Send(name, isStop, stop))
    {
      if !isStop || name !in callbacks {
        return;
      }
      var reg := callbacks[name];
      if reg.pid == 0 {
        pending := pending[name := (if name in pending then pending[name] else []) + [stop]];
        return;
      }
      if reg.pid == stop.pid {
        callbacks := callbacks - {name};
        fired := fired + [Firing(reg.handler, stop.status)];
      }
    }
  }
}
