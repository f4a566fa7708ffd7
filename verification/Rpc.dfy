/**
 Request/response correlation of the member tunnel.  Call number `k` uses the fresh request ID
 `k` and its own reply channel of capacity one.  Every lock scope and every channel operation
 is one step; `inFlight` holds responses that `deliver` has matched but not yet sent on.
 */
module Rpc {
  import opened Options

  datatype Response = Response(requestID: nat, payload: string)

  datatype Outcome = Replied(resp: Response) | ConnectionClosed | SendFailed | NotConnected | ContextDone

  /** `taken`: the waiting call has received the response. */
  datatype Chan = Chan(buffered: Option<Response>, taken: bool, closed: bool)

  /** Leaving: the outcome is decided, the deferred removal from `pending` is still to run. */
  datatype Phase = Preparing | Registered | Waiting | Leaving(outcome: Outcome) | Left(outcome: Outcome)

  datatype Call = Call(phase: Phase, ch: Chan)

  datatype State = State(pending: set<nat>, closed: bool, calls: seq<Call>, inFlight: seq<Response>)

  datatype Event =
    | NewCall
    | Register(k: nat)
    | Send(k: nat, ok: bool)
    | Receive(k: nat)
    | ContextEnds(k: nat)
    | Forget(k: nat)
    | DeliverLocked(resp: Response)
    | DeliverSend(n: nat)
    | CloseAll

  function SetPhase(s: State, k: nat, p: Phase): State
    requires k < |s.calls|
  {
    s.(calls := s.calls[k := s.calls[k].(phase := p)])
  }

  /** `deliver` can put the response on the channel: the channel is open and its buffer is empty. */
  predicate CanSend(s: State, n: nat)
    requires n < |s.inFlight|
  {
    var id := s.inFlight[n].requestID;
    id < |s.calls| && s.calls[id].ch.buffered.None? && !s.calls[id].ch.closed
  }

  function PutOnChannel(s: State, n: nat): State
    requires n < |s.inFlight| && CanSend(s, n)
  {
    var resp := s.inFlight[n];
    var c := s.calls[resp.requestID];
    s.(inFlight := s.inFlight[..n] + s.inFlight[n + 1..],
       calls := s.calls[resp.requestID := c.(ch := c.ch.(buffered := Some(resp)))])
  }

  function CloseChannels(calls: seq<Call>, ids: set<nat>): seq<Call> {
    seq(|calls|, k requires 0 <= k < |calls| =>
      if k in ids then calls[k].(ch := calls[k].ch.(closed := true)) else calls[k])
  }

  function ReceiveStep(s: State, k: nat): State
    requires k < |s.calls|
  {
    var c := s.calls[k];
    if c.ch.buffered.Some? && !c.ch.taken then
      s.(calls := s.calls[k := Call(Leaving(Replied(c.ch.buffered.value)), c.ch.(taken := true))])
    else if c.ch.closed then SetPhase(s, k, Leaving(ConnectionClosed))
    else s
  }

  function Step(s: State, ev: Event): State {
    match ev
    case NewCall => s.(calls := s.calls + [Call(Preparing, Chan(None, false, false))])
    case Register(k) =>
      if k >= |s.calls| || !s.calls[k].phase.Preparing? then s
      else if s.closed then SetPhase(s, k, Left(NotConnected))
      else SetPhase(s, k, Registered).(pending := s.pending + {k})
    case Send(k, ok) =>
      if k >= |s.calls| || !s.calls[k].phase.Registered? then s
      else if ok then SetPhase(s, k, Waiting)
      else SetPhase(s, k, Left(SendFailed)).(pending := s.pending - {k})
    case Receive(k) => if k < |s.calls| && s.calls[k].phase.Waiting? then ReceiveStep(s, k) else s
    case ContextEnds(k) => if k < |s.calls| && s.calls[k].phase.Waiting? then SetPhase(s, k, Leaving(ContextDone)) else s
    case Forget(k) =>
      if k < |s.calls| && s.calls[k].phase.Leaving? then
        SetPhase(s, k, Left(s.calls[k].phase.outcome)).(pending := s.pending - {k})
      else s
    case DeliverLocked(resp) =>
      if resp.requestID in s.pending then
        s.(pending := s.pending - {resp.requestID}, inFlight := s.inFlight + [resp])
      else s
    case DeliverSend(n) => if n < |s.inFlight| && CanSend(s, n) then PutOnChannel(s, n) else s
    case CloseAll => s.(closed := true, pending := {}, calls := CloseChannels(s.calls, s.pending))
  }

  function Execute(evs: seq<Event>): State {
    if evs == [] then State({}, false, [], []) else Step(Execute(evs[..|evs| - 1]), evs[|evs| - 1])
  }

  /*** Invariant ***/

  predicate InFlightFor(s: State, k: nat) {
    exists n :: 0 <= n < |s.inFlight| && s.inFlight[n].requestID == k
  }

  predicate Decided(p: Phase) {
    p.Leaving? || p.Left?
  }

  /** A channel is used at most once, and in one way only. */
  predicate ChannelOk(s: State, k: nat)
    requires k < |s.calls|
  {
    var c := s.calls[k];
    && (k in s.pending ==> c.ch == Chan(None, false, false) && !InFlightFor(s, k) && !s.closed
                           && (c.phase.Registered? || c.phase.Waiting? || c.phase.Leaving?))
    && (InFlightFor(s, k) ==> c.ch == Chan(None, false, false) && !c.phase.Preparing?)
    && (c.ch.buffered.Some? ==> !c.ch.closed && c.ch.buffered.value.requestID == k)
    && (c.ch.taken ==> c.ch.buffered.Some? && Decided(c.phase))
    && (c.phase.Preparing? ==> c.ch == Chan(None, false, false))
    && (c.phase.Registered? || c.phase.Waiting? ==>
          k in s.pending || InFlightFor(s, k) || c.ch.buffered.Some? || c.ch.closed)
    && ((c.phase.Leaving? || c.phase.Left?) && c.phase.outcome.Replied? ==> c.phase.outcome.resp.requestID == k)
  }

  predicate Inv(s: State) {
    && (forall k :: k in s.pending ==> k < |s.calls|)
    && (forall k :: 0 <= k < |s.calls| ==> ChannelOk(s, k))
    && (forall n :: 0 <= n < |s.inFlight| ==> s.inFlight[n].requestID < |s.calls|)
    && (forall m, n :: 0 <= m < n < |s.inFlight| ==> s.inFlight[m].requestID != s.inFlight[n].requestID)
    && (s.closed ==> s.pending == {})
  }

  lemma SameFlights(s: State, t: State)
    requires t.inFlight == s.inFlight
    ensures forall k :: InFlightFor(t, k) <==> InFlightFor(s, k)
  {
  }

  lemma EnterInv(s: State, ev: Event)
    requires Inv(s) && (ev.NewCall? || ev.Register?)
    ensures Inv(Step(s, ev))
  {
    hide InFlightFor;
    var t := Step(s, ev);
    SameFlights(s, t);
    assert !InFlightFor(s, |s.calls|) by { NobodyYet(s); }
    forall k | 0 <= k < |t.calls| ensures ChannelOk(t, k) {
      if k < |s.calls| { assert ChannelOk(s, k); }
    }
  }

  lemma NobodyYet(s: State)
    requires forall n :: 0 <= n < |s.inFlight| ==> s.inFlight[n].requestID < |s.calls|
    ensures !InFlightFor(s, |s.calls|)
  {
  }

  lemma LeaveInv(s: State, ev: Event)
    requires Inv(s) && (ev.Send? || ev.ContextEnds? || ev.Forget?)
    ensures Inv(Step(s, ev))
  {
    hide InFlightFor;
    var t := Step(s, ev);
    SameFlights(s, t);
    forall k | 0 <= k < |t.calls| ensures ChannelOk(t, k) {
      assert ChannelOk(s, k);
    }
  }

  lemma ReceiveInv(s: State, k: nat)
    requires Inv(s)
    ensures Inv(Step(s, Receive(k)))
  {
    hide InFlightFor;
    var t := Step(s, Receive(k));
    SameFlights(s, t);
    forall j | 0 <= j < |t.calls| ensures ChannelOk(t, j) {
      assert ChannelOk(s, j);
    }
  }

  lemma DeliverLockedInv(s: State, resp: Response)
    requires Inv(s)
    ensures Inv(Step(s, DeliverLocked(resp)))
  {
    var t := Step(s, DeliverLocked(resp));
    if resp.requestID in s.pending {
      assert ChannelOk(s, resp.requestID);
      forall k | 0 <= k < |t.calls| ensures ChannelOk(t, k) {
        assert ChannelOk(s, k);
        assert InFlightFor(t, k) <==> InFlightFor(s, k) || k == resp.requestID by {
          assert t.inFlight[|s.inFlight|] == resp;
          if InFlightFor(s, k) {
            var n :| 0 <= n < |s.inFlight| && s.inFlight[n].requestID == k;
            assert t.inFlight[n].requestID == k;
          }
        }
      }
      forall m | 0 <= m < |s.inFlight| ensures s.inFlight[m].requestID != resp.requestID {
        assert !InFlightFor(s, resp.requestID);
      }
    }
  }

  /** A matched response can always be put on its channel: never blocks, never hits a closed channel. */
  lemma InFlightCanSend(s: State, n: nat)
    requires Inv(s) && n < |s.inFlight|
    ensures CanSend(s, n)
  {
    assert ChannelOk(s, s.inFlight[n].requestID);
    assert InFlightFor(s, s.inFlight[n].requestID);
  }

  lemma RemoveAt(s: State, n: nat, k: nat)
    requires Inv(s) && n < |s.inFlight|
    ensures var rest := s.inFlight[..n] + s.inFlight[n + 1..];
      && InFlightFor(s.(inFlight := rest), k) <==> InFlightFor(s, k) && k != s.inFlight[n].requestID
  {
    var rest := s.inFlight[..n] + s.inFlight[n + 1..];
    if InFlightFor(s, k) && k != s.inFlight[n].requestID {
      var m :| 0 <= m < |s.inFlight| && s.inFlight[m].requestID == k;
      assert rest[if m < n then m else m - 1] == s.inFlight[m];
    }
    if InFlightFor(s.(inFlight := rest), k) {
      var m :| 0 <= m < |rest| && rest[m].requestID == k;
      assert s.inFlight[if m < n then m else m + 1] == rest[m];
    }
  }

  lemma DeliverSendInv(s: State, n: nat)
    requires Inv(s) && n < |s.inFlight| && CanSend(s, n)
    ensures Inv(PutOnChannel(s, n))
  {
    var t, resp := PutOnChannel(s, n), s.inFlight[n];
    assert InFlightFor(s, resp.requestID);
    forall k | 0 <= k < |t.calls| ensures ChannelOk(t, k) {
      assert ChannelOk(s, k);
      RemoveAt(s, n, k);
      assert InFlightFor(t, k) <==> InFlightFor(s.(inFlight := t.inFlight), k);
    }
    forall m | 0 <= m < |t.inFlight| ensures t.inFlight[m] == s.inFlight[if m < n then m else m + 1] {
    }
  }

  lemma CloseAllInv(s: State)
    requires Inv(s)
    ensures Inv(Step(s, CloseAll))
    ensures forall k :: k in s.pending ==> k < |s.calls| && !s.calls[k].ch.closed
  {
    var t := Step(s, CloseAll);
    forall k | 0 <= k < |t.calls| ensures ChannelOk(t, k) {
      assert ChannelOk(s, k);
      assert InFlightFor(t, k) <==> InFlightFor(s, k);
    }
    forall k | k in s.pending ensures k < |s.calls| && !s.calls[k].ch.closed {
      assert ChannelOk(s, k);
    }
  }

  lemma StepInv(s: State, ev: Event)
    requires Inv(s)
    ensures Inv(Step(s, ev))
  {
    match ev
    case DeliverLocked(resp) => DeliverLockedInv(s, resp);
    case DeliverSend(n) => if n < |s.inFlight| && CanSend(s, n) { DeliverSendInv(s, n); }
    case CloseAll => CloseAllInv(s);
    case NewCall => EnterInv(s, ev);
    case Register(_) => EnterInv(s, ev);
    case Receive(k) => ReceiveInv(s, k);
    case _ => LeaveInv(s, ev);
  }

  lemma {:induction false} ExecuteInv(evs: seq<Event>)
    ensures Inv(Execute(evs))
    decreases |evs|
  {
    hide Inv, Step;
    if evs != [] {
      ExecuteInv(evs[..|evs| - 1]);
      StepInv(Execute(evs[..|evs| - 1]), evs[|evs| - 1]);
    } else {
      StartInv();
    }
  }

  lemma StartInv()
    ensures Inv(State({}, false, [], []))
  {
  }

  /*** Main results, for every interleaving ***/

  /** `deliver` never blocks and never sends on a closed channel. */
  lemma DeliverNeverBlocks(evs: seq<Event>, n: nat)
    requires n < |Execute(evs).inFlight|
    ensures CanSend(Execute(evs), n)
  {
    hide Execute, CanSend;
    ExecuteInv(evs);
    InFlightCanSend(Execute(evs), n);
  }

  /** `closeAll` never closes a channel twice, nor one that has been or will be sent on. */
  lemma CloseAllIsClean(evs: seq<Event>, k: nat)
    requires k in Execute(evs).pending
    ensures var s := Execute(evs);
      k < |s.calls| && s.calls[k].ch == Chan(None, false, false) && !InFlightFor(s, k) && !s.closed
  {
    hide Execute;
    ExecuteInv(evs);
    assert ChannelOk(Execute(evs), k);
  }

  /** A response reaches only the call with its request ID. */
  lemma RepliesMatch(evs: seq<Event>, k: nat)
    requires k < |Execute(evs).calls|
    requires var p := Execute(evs).calls[k].phase; (p.Leaving? || p.Left?) && p.outcome.Replied?
    ensures Execute(evs).calls[k].phase.outcome.resp.requestID == k
  {
    hide Execute;
    ExecuteInv(evs);
    assert ChannelOk(Execute(evs), k);
  }

  lemma OutcomeStays(s: State, ev: Event, k: nat)
    requires k < |s.calls| && Decided(s.calls[k].phase)
    ensures k < |Step(s, ev).calls| && Decided(Step(s, ev).calls[k].phase)
    ensures Step(s, ev).calls[k].phase.outcome == s.calls[k].phase.outcome
  {
  }

  /** A call sees one outcome only: once decided it never changes. */
  lemma {:induction false} OneOutcome(evs: seq<Event>, m: nat, k: nat)
    requires m <= |evs| && k < |Execute(evs[..m]).calls| && Decided(Execute(evs[..m]).calls[k].phase)
    ensures k < |Execute(evs).calls| && Decided(Execute(evs).calls[k].phase)
    ensures Execute(evs).calls[k].phase.outcome == Execute(evs[..m]).calls[k].phase.outcome
    decreases |evs|
  {
    hide Step;
    if m == |evs| {
      assert evs[..m] == evs;
    } else {
      assert evs[..|evs| - 1][..m] == evs[..m];
      OneOutcome(evs[..|evs| - 1], m, k);
      OutcomeStays(Execute(evs[..|evs| - 1]), evs[|evs| - 1], k);
    }
  }

  /**
   No call is left behind by the end of the connection: one that waits after closeAll finds its
   channel closed, or holding its response, or a response about to be put on it.
   */
  lemma NobodyWaitsForever(evs: seq<Event>, k: nat)
    requires Execute(evs).closed && k < |Execute(evs).calls| && Execute(evs).calls[k].phase.Waiting?
    ensures var s := Execute(evs);
      && (InFlightFor(s, k) || Decided(Step(s, Receive(k)).calls[k].phase))
  {
    hide Execute;
    ExecuteInv(evs);
    assert ChannelOk(Execute(evs), k);
  }

  /** What decides a call, and with which outcome; nothing else does. */
  lemma OutcomeIff(evs: seq<Event>, ev: Event, k: nat, o: Outcome)
    requires k < |Execute(evs).calls| && !Decided(Execute(evs).calls[k].phase)
    ensures var s := Execute(evs);
      var c, p := s.calls[k], Step(s, ev).calls[k].phase;
      Decided(p) && p.outcome == o <==>
        || (o == NotConnected && ev == Register(k) && c.phase.Preparing? && s.closed)
        || (o == SendFailed && ev == Send(k, false) && c.phase.Registered?)
        || (o == ContextDone && ev == ContextEnds(k) && c.phase.Waiting?)
        || (ev == Receive(k) && c.phase.Waiting? && c.ch.buffered.Some? && o == Replied(c.ch.buffered.value))
        || (o == ConnectionClosed && ev == Receive(k) && c.phase.Waiting? && c.ch.closed)
  {
    hide Execute;
    ExecuteInv(evs);
    assert ChannelOk(Execute(evs), k);
  }

  /** On a connection that stands, a call that is sent, answered and received returns exactly its response. */
  lemma ReplyReachesCaller(evs: seq<Event>, k: nat, payload: string)
    requires var s := Execute(evs); k < |s.calls| && s.calls[k].phase.Preparing? && !s.closed
    ensures var s := Execute(evs);
      var s1 := Step(s, Register(k));
      var s2 := Step(s1, Send(k, true));
      var s3 := Step(s2, DeliverLocked(Response(k, payload)));
      var s4 := Step(s3, DeliverSend(|s.inFlight|));
      var s5 := Step(Step(s4, Receive(k)), Forget(k));
      s5.calls[k].phase == Left(Replied(Response(k, payload))) && s5.pending == s.pending && s5.inFlight == s.inFlight
  {
    hide Execute;
    ExecuteInv(evs);
    var s := Execute(evs);
    assert ChannelOk(s, k);
    assert s.inFlight + [Response(k, payload)] + [] == s.inFlight + [Response(k, payload)];
    assert (s.inFlight + [Response(k, payload)])[..|s.inFlight|] == s.inFlight;
  }

  /** After closeAll nothing is registered any more. */
  lemma NothingPendingAfterClose(evs: seq<Event>)
    ensures Execute(evs).closed ==> Execute(evs).pending == {}
  {
    hide Execute;
    ExecuteInv(evs);
  }

  /*** The client object ***/

  class RemoteMemberClient {
    var pending: set<nat>
    var closed: bool
    var calls: seq<Call>
    ghost var inFlight: seq<Response>

    ghost function St(): State
      reads this
    {
      State(pending, closed, calls, inFlight)
    }

    constructor ()
      ensures St() == State({}, false, [], []) && Inv(St())
    {
      pending, closed, calls, inFlight := {}, false, [], [];
    }

    /** The first lock scope of `call`. */
    method RegisterCall(k: nat) returns (ok: bool)
      requires Inv(St()) && k < |calls| && calls[k].phase.Preparing?
      modifies this
      ensures Inv(St()) && St() == Step(old(St()), Register(k)) && ok == !old(closed)
    {
      StepInv(St(), Register(k));
      if closed {
        calls := calls[k := calls[k].(phase := Left(NotConnected))];
        return false;
      }
      pending := pending + {k};
      calls := calls[k := calls[k].(phase := Registered)];
      return true;
    }

    /** The lock scope of `deliver`: an unknown or repeated request ID matches nothing. */
    method Match(resp: Response) returns (found: bool)
      requires Inv(St())
      modifies this
      ensures Inv(St()) && St() == Step(old(St()), DeliverLocked(resp)) && found == (resp.requestID in old(pending))
    {
      StepInv(St(), DeliverLocked(resp));
      found := resp.requestID in pending;
      pending := pending - {resp.requestID};
      if found {
        inFlight := inFlight + [resp];
      }
      assert St() == Step(old(St()), DeliverLocked(resp));
    }

    method CloseEverything()
      requires Inv(St())
      modifies this
      ensures Inv(St()) && St() == Step(old(St()), CloseAll)
    {
      StepInv(St(), CloseAll);
      CloseAllInv(St());
      ghost var s0 := St();
      closed := true;
      while pending != {}
        invariant pending <= s0.pending && closed && inFlight == s0.inFlight
        invariant calls == CloseChannels(s0.calls, s0.pending - pending)
        decreases pending
      {
        var k :| k in pending;
        assert !calls[k].ch.closed;
        calls := calls[k := calls[k].(ch := calls[k].ch.(closed := true))];
        pending := pending - {k};
        assert s0.pending - pending == (s0.pending - (pending + {k})) + {k};
      }
      assert s0.pending - {} == s0.pending;
    }
  }
}
