/**
 One direction of a replayed HTTP stream: a writer that cuts its bytes into frames, an ordered
 tunnel that may break, a receive loop that routes frames to a registered queue, and a consumer
 that copies frame data into the reader's pipe.  Bytes are modelled by characters.
 */
module ByteStreams {
  import opened FrameQueues
  import opened Options

  const CHUNK: int := 32768

  datatype Frame = Frame(data: string, end: bool, error: bool)

  /** `Open` is the message on which the far end registers the stream. */
  datatype Message = Open | Data(frame: Frame)

  /*** The writer ***/

  /** What one send reports, and whether the tunnel carried the message. */
  datatype SendReply = SendReply(ok: bool, carried: bool)

  class StreamConn {
    /** Messages the tunnel has carried, in order. */
    var wire: seq<Message>
    /** A send failed; the tunnel carries nothing any more. */
    var broken: bool
    /** All bytes handed to send so far. */
    ghost var offered: string

    ghost predicate Valid()
      reads this
    {
      Bytes(wire) <= offered && (!broken ==> Bytes(wire) == offered)
    }

    constructor (registered: bool)
      ensures Valid() && wire == (if registered then [] else [Open]) && !broken && offered == ""
    {
      wire, broken, offered := if registered then [] else [Open], false, "";
    }

    method Send(data: string, end: bool, reply: SendReply) returns (ok: bool)
      requires Valid()
      modifies this
      ensures Valid() && ok == (reply.ok && !old(broken)) && broken == !ok && offered == old(offered) + data
      ensures wire == old(wire) || wire == old(wire) + [Data(Frame(data, end, false))]
      ensures ok ==> wire == old(wire) + [Data(Frame(data, end, false))]
    {
      ok := reply.ok && !broken;
      if !broken && (ok || reply.carried) {
        BytesMore(wire, Data(Frame(data, end, false)));
        wire := wire + [Data(Frame(data, end, false))];
      }
      PrefixGrows(Bytes(old(wire)), offered, data);
      broken := !ok;
      offered := offered + data;
    }

    /** Every chunk but the last is full; the count returned is what was sent without an error. */
    method Write(p: string, replies: seq<SendReply>) returns (n: nat, ok: bool)
      requires Valid() && |replies| >= |p|
      modifies this
      ensures Valid() && n <= |p| && (ok <==> n == |p|)
      ensures ok ==> offered == old(offered) + p && broken == old(broken)
      ensures ok ==> |wire| == |old(wire)| + (|p| + 32767) / 32768
      ensures Chunks(wire, |old(wire)|)
      ensures !ok ==> n % 32768 == 0
      ensures !ok ==> n % CHUNK == 0 && broken && offered == old(offered) + p[..if n + CHUNK < |p| then n + CHUNK else |p|]
    {
      hide Bytes, Chunks;
      var start := 0;
      var k := 0;
      EmptyChunks(wire);
      while start < |p|
        invariant 0 <= start <= |p| && 0 <= k <= start && (start < |p| ==> start % CHUNK == 0)
        invariant Valid() && offered == old(offered) + p[..start]
        invariant broken == old(broken) && (start > 0 ==> !broken)
        invariant |wire| == |old(wire)| + k && k == (start + 32767) / 32768
        invariant Chunks(wire, |old(wire)|)
        decreases |p| - start
      {
        var end := start + CHUNK;
        if end > |p| {
          end := |p|;
        }
        ghost var w := wire;
        var sent := Send(p[start..end], false, replies[k]);
        OneChunkMore(w, wire, |old(wire)|, p[start..end]);
        assert old(offered) + p[..start] + p[start..end] == old(offered) + p[..end];
        ChunkCount(start, end, |p|);
        if !sent {
          return start, false;
        }
        start := end;
        k := k + 1;
      }
      assert p[..|p|] == p;
      return |p|, true;
    }
  }

  /** What was sent since `first` is data, a chunk a message, and does not end the stream. */
  predicate Chunks(wire: seq<Message>, first: nat) {
    forall k :: first <= k < |wire| ==> wire[k].Data? && 0 < |wire[k].frame.data| <= 32768 && !wire[k].frame.end
  }

  lemma EmptyChunks(w: seq<Message>)
    ensures Chunks(w, |w|)
  {
  }

  lemma OneChunkMore(w: seq<Message>, v: seq<Message>, first: nat, data: string)
    requires Chunks(w, first) && 0 < |data| <= 32768 && (v == w || v == w + [Data(Frame(data, false, false))])
    ensures Chunks(v, first)
  {
  }

  /** A full chunk more, or the rest. */
  lemma ChunkCount(start: int, end: int, n: int)
    requires 0 <= start < n && start % CHUNK == 0 && end == if start + CHUNK > n then n else start + CHUNK
    ensures (end + 32767) / 32768 == (start + 32767) / 32768 + 1 && (end < n ==> end % CHUNK == 0)
  {
  }

  /** The data of a list of messages. */
  function Bytes(wire: seq<Message>): string {
    if wire == [] then "" else Bytes(wire[..|wire| - 1]) + if wire[|wire| - 1].Data? then wire[|wire| - 1].frame.data else ""
  }

  function FrameBytes(frames: seq<Frame>): string {
    if frames == [] then "" else FrameBytes(frames[..|frames| - 1]) + frames[|frames| - 1].data
  }

  function FramesOf(wire: seq<Message>): seq<Frame> {
    if wire == [] then []
    else FramesOf(wire[..|wire| - 1]) + if wire[|wire| - 1].Data? then [wire[|wire| - 1].frame] else []
  }

  lemma BytesMore(wire: seq<Message>, m: Message)
    ensures Bytes(wire + [m]) == Bytes(wire) + if m.Data? then m.frame.data else ""
    ensures FramesOf(wire + [m]) == FramesOf(wire) + if m.Data? then [m.frame] else []
  {
    assert (wire + [m])[..|wire|] == wire;
  }

  lemma PrefixGrows(a: string, b: string, c: string)
    requires a <= b
    ensures a <= b + c && (a == b ==> a + c == b + c)
  {
  }

  lemma {:induction false} BytesAreFrameBytes(wire: seq<Message>)
    ensures Bytes(wire) == FrameBytes(FramesOf(wire))
    decreases |wire|
  {
    if wire != [] {
      var init, last := wire[..|wire| - 1], wire[|wire| - 1];
      BytesAreFrameBytes(init);
      if last.Data? {
        assert FramesOf(wire) == FramesOf(init) + [last.frame];
        assert FramesOf(wire)[..|FramesOf(wire)| - 1] == FramesOf(init);
      } else {
        assert FramesOf(wire) == FramesOf(init) && Bytes(wire) == Bytes(init);
      }
    }
  }

  lemma {:induction false} FrameBytesPrefix(a: seq<Frame>, b: seq<Frame>)
    requires a <= b
    ensures FrameBytes(a) <= FrameBytes(b)
    decreases |b|
  {
    if |a| < |b| {
      FrameBytesPrefix(a, b[..|b| - 1]);
    } else {
      assert a == b;
    }
  }

  lemma {:induction false} FramesOfPrefix(wire: seq<Message>, n: nat)
    requires n <= |wire|
    ensures FramesOf(wire[..n]) <= FramesOf(wire)
    decreases |wire|
  {
    if n < |wire| {
      assert wire[..|wire| - 1][..n] == wire[..n];
      FramesOfPrefix(wire[..|wire| - 1], n);
    } else {
      assert wire[..n] == wire;
    }
  }

  /*** The far end ***/

  datatype Registration = NotYet | Live | Gone

  datatype Ending = StillReading | AtEnd | AtError | PipeClosed | QueueClosed

  /**
   `wire` and `offered` are the sender's; `arrived` counts the messages the receive loop has
   taken off the tunnel; `inHand` is the frame whose queue it has looked up and not pushed to yet;
   `out` is what the reader of the pipe has been given.
   */
  datatype Link = Link(
    offered: string, wire: seq<Message>, broken: bool,
    arrived: nat, reg: Registration, inHand: Option<Frame>, q: Queue<Frame>, out: string, ending: Ending)

  function Hand(l: Link): seq<Frame> {
    if l.inHand.Some? then [l.inHand.value] else []
  }

  datatype LinkEvent =
    | Sends(data: string, end: bool, reply: SendReply)
    | Fails(reply: SendReply)
    | Arrives(accepted: bool)
    | Pushes
    | Unregisters
    | QueueMoves(ev: Event<Frame>)
    | Consumes(pipeTakes: nat)

  /** `registered`: this end registered the stream before it sent Open; otherwise Open is the first message. */
  function Start(registered: bool): Link {
    Link("", if registered then [] else [Open], false, 0, if registered then Live else NotYet, None, Empty(), "", StillReading)
  }

  /** An error frame carries no data. */
  function SendStep(l: Link, frame: Frame, reply: SendReply): Link {
    var ok := reply.ok && !l.broken;
    l.(wire := if !l.broken && (ok || reply.carried) then l.wire + [Data(frame)] else l.wire,
       broken := !ok, offered := l.offered + frame.data)
  }

  /**
   The receive loop takes one message and looks the stream up; a frame of a registered stream is then in
   its hand.  It takes no other message before it has pushed this one.
   */
  function ArriveStep(l: Link, accepted: bool): Link {
    if l.arrived >= |l.wire| || l.inHand.Some? then l
    else
      var m := l.wire[l.arrived];
      var t := l.(arrived := l.arrived + 1);
      match m
      case Open => if l.reg.NotYet? && accepted then t.(reg := Live) else if l.reg.NotYet? then t.(reg := Gone) else t
      case Data(frame) => if l.reg.Live? then t.(inHand := Some(frame)) else t
  }

  /** It pushes to the queue it has found, registered or not by now. */
  function PushStep(l: Link): Link {
    if l.inHand.None? then l else l.(q := Step(l.q, PushLocked(l.inHand.value)), inHand := None)
  }

  /** The consumer between two pops: it owns the frame it just popped. */
  function Consume(l: Link, frame: Frame, pipeTakes: nat): Link {
    if frame.error then l.(ending := AtError)
    else if pipeTakes < |frame.data| then l.(out := l.out + frame.data[..pipeTakes], ending := PipeClosed)
    else l.(out := l.out + frame.data, ending := if frame.end then AtEnd else StillReading)
  }

  /** Pop and what follows it, as one step: no other step reads `out` or the popped frame in between. */
  function ConsumeStep(l: Link, pipeTakes: nat): Link {
    if !l.ending.StillReading? || !l.q.consumer.Looping? then l
    else if l.q.buf != [] then Consume(l.(q := Step(l.q, PopLocked)), l.q.buf[0], pipeTakes)
    else if l.q.closed then l.(q := Step(l.q, PopLocked), ending := QueueClosed)
    else l.(q := Step(l.q, PopLocked))
  }

  function LinkStep(l: Link, ev: LinkEvent): Link {
    match ev
    case Sends(data, end, reply) => SendStep(l, Frame(data, end, false), reply)
    case Fails(reply) => SendStep(l, Frame("", true, true), reply)
    case Arrives(accepted) => ArriveStep(l, accepted)
    case Pushes => PushStep(l)
    case Unregisters => if l.reg.Live? then l.(reg := Gone) else l
    case QueueMoves(e) => if e.PushLocked? || e.PopLocked? then l else l.(q := Step(l.q, e))
    case Consumes(n) => ConsumeStep(l, n)
  }

  function LinkExecute(registered: bool, evs: seq<LinkEvent>): Link {
    if evs == [] then Start(registered) else LinkStep(LinkExecute(registered, evs[..|evs| - 1]), evs[|evs| - 1])
  }

  predicate Sent(l: Link) {
    && Bytes(l.wire) <= l.offered && (!l.broken ==> Bytes(l.wire) == l.offered)
    && forall k :: 0 <= k < |l.wire| && l.wire[k].Data? && l.wire[k].frame.error ==> l.wire[k].frame.data == ""
  }

  /** The frames pushed, and then the one in hand, are the first frames on the wire; all that arrived while registered. */
  predicate Received(l: Link) {
    && l.arrived <= |l.wire|
    && l.q.pushed + Hand(l) <= FramesOf(l.wire[..l.arrived])
    && (l.reg.Live? ==> l.q.pushed + Hand(l) == FramesOf(l.wire[..l.arrived]))
    && (l.reg.NotYet? ==> l.arrived == 0 && l.q.pushed + Hand(l) == [] && l.wire != [] && l.wire[0].Open?)
  }

  predicate Read(l: Link) {
    && Inv(l.q)
    && l.out <= FrameBytes(l.q.popped)
    && (l.ending.StillReading? || l.ending.AtEnd? ==> l.out == FrameBytes(l.q.popped))
    && (l.ending.AtEnd? ==> l.q.popped != [] && l.q.popped[|l.q.popped| - 1].end)
    && (l.ending.AtError? ==>
          l.q.popped != [] && l.q.popped[|l.q.popped| - 1].error && l.out == FrameBytes(l.q.popped[..|l.q.popped| - 1]))
    && (l.ending.StillReading? ==> forall k :: 0 <= k < |l.q.popped| ==> !l.q.popped[k].end && !l.q.popped[k].error)
    && (!l.ending.StillReading? ==> forall k :: 0 <= k < |l.q.popped| - 1 ==> !l.q.popped[k].end && !l.q.popped[k].error)
  }

  predicate LinkInv(l: Link) {
    Sent(l) && Received(l) && Read(l)
  }

  lemma SendSent(l: Link, frame: Frame, reply: SendReply)
    requires Sent(l) && (frame.error ==> frame.data == "")
    ensures Sent(SendStep(l, frame, reply))
  {
    hide Bytes, FramesOf;
    BytesMore(l.wire, Data(frame));
    PrefixGrows(Bytes(l.wire), l.offered, frame.data);
  }

  lemma SendReceived(l: Link, frame: Frame, reply: SendReply)
    requires Received(l)
    ensures Received(SendStep(l, frame, reply))
  {
    hide Bytes, FramesOf;
    assert SendStep(l, frame, reply).wire[..l.arrived] == l.wire[..l.arrived];
  }

  lemma SendKeeps(l: Link, frame: Frame, reply: SendReply)
    requires LinkInv(l) && (frame.error ==> frame.data == "")
    ensures LinkInv(SendStep(l, frame, reply))
  {
    hide Read, Sent, Received;
    SendSent(l, frame, reply);
    SendReceived(l, frame, reply);
    SameRead(l, SendStep(l, frame, reply));
  }

  lemma SameRead(l: Link, t: Link)
    requires Read(l) && t.q == l.q && t.out == l.out && t.ending == l.ending
    ensures Read(t)
  {
  }

  lemma ArriveReceived(l: Link, accepted: bool)
    requires Received(l) && l.arrived < |l.wire| && l.inHand.None?
    ensures Received(ArriveStep(l, accepted))
  {
    hide FramesOf;
    var init, m := l.wire[..l.arrived], l.wire[l.arrived];
    assert l.wire[..l.arrived + 1] == init + [m];
    BytesMore(init, m);
    NoFrames();
    assert l.arrived == 0 ==> init == [];
    assert FramesOf(init) <= FramesOf(init + [m]);
    assert l.q.pushed + [] == l.q.pushed;
  }

  lemma PushKeeps(l: Link)
    requires LinkInv(l)
    ensures LinkInv(PushStep(l))
  {
    hide FramesOf, FrameBytes;
    if l.inHand.Some? {
      var t := PushStep(l);
      assert t.q.pushed == l.q.pushed + [l.inHand.value] && t.q.pushed + Hand(t) == l.q.pushed + Hand(l);
      assert Read(t) by { PushRead(l, l.inHand.value, t); }
    }
  }

  lemma NoFrames()
    ensures FramesOf([]) == []
  {
  }

  lemma ArriveKeeps(l: Link, accepted: bool)
    requires LinkInv(l)
    ensures LinkInv(ArriveStep(l, accepted))
  {
    hide Read, Sent, Received, Step;
    SameSent(l, ArriveStep(l, accepted));
    SameRead(l, ArriveStep(l, accepted));
    if l.arrived < |l.wire| && l.inHand.None? {
      ArriveReceived(l, accepted);
    }
  }

  lemma SameSent(l: Link, t: Link)
    requires Sent(l) && t.wire == l.wire && t.broken == l.broken && t.offered == l.offered
    ensures Sent(t)
  {
  }

  lemma PushRead(l: Link, frame: Frame, t: Link)
    requires Read(l) && t.q == Step(l.q, PushLocked(frame)) && t.out == l.out && t.ending == l.ending
    ensures Read(t)
  {
    StepInv(l.q, PushLocked(frame));
  }

  lemma ConsumeKeeps(l: Link, n: nat)
    requires LinkInv(l)
    ensures LinkInv(ConsumeStep(l, n))
  {
    hide Read;
    if l.ending.StillReading? && l.q.consumer.Looping? {
      if l.q.buf != [] { ConsumeRead(l, n); } else { EmptyRead(l, n); }
    }
  }

  lemma EmptyRead(l: Link, n: nat)
    requires Read(l) && l.ending.StillReading? && l.q.consumer.Looping? && l.q.buf == []
    ensures Read(ConsumeStep(l, n))
  {
  }

  lemma FrameBytesMore(frames: seq<Frame>, frame: Frame)
    ensures FrameBytes(frames + [frame]) == FrameBytes(frames) + frame.data
  {
    assert (frames + [frame])[..|frames|] == frames;
  }

  lemma ConsumeRead(l: Link, n: nat)
    requires Read(l) && l.ending.StillReading? && l.q.consumer.Looping? && l.q.buf != []
    ensures Read(ConsumeStep(l, n))
  {
    hide FrameBytes;
    StepInv(l.q, PopLocked);
    var frame := l.q.buf[0];
    FrameBytesMore(l.q.popped, frame);
    if n < |frame.data| { assert l.out + frame.data == l.out + frame.data[..n] + frame.data[n..]; }
  }

  lemma QueueMovesKeep(q: Queue<Frame>, e: Event<Frame>)
    requires Inv(q) && !e.PushLocked? && !e.PopLocked?
    ensures Inv(Step(q, e)) && Step(q, e).pushed == q.pushed && Step(q, e).popped == q.popped
  {
    StepInv(q, e);
  }

  lemma QueueKeeps(l: Link, e: Event<Frame>)
    requires LinkInv(l) && !e.PushLocked? && !e.PopLocked?
    ensures LinkInv(l.(q := Step(l.q, e)))
  {
    hide Step, Inv, Sent, FramesOf, FrameBytes;
    QueueMovesKeep(l.q, e);
    SameSent(l, l.(q := Step(l.q, e)));
  }

  lemma LinkStepInv(l: Link, ev: LinkEvent)
    requires LinkInv(l)
    ensures LinkInv(LinkStep(l, ev))
  {
    hide LinkInv, SendStep, ArriveStep, PushStep, ConsumeStep, Step;
    match ev
    case Sends(data, end, reply) => SendKeeps(l, Frame(data, end, false), reply);
    case Fails(reply) => SendKeeps(l, Frame("", true, true), reply);
    case Arrives(accepted) => ArriveKeeps(l, accepted);
    case Pushes => PushKeeps(l);
    case Unregisters => UnregisterKeeps(l);
    case QueueMoves(e) => if !e.PushLocked? && !e.PopLocked? { QueueKeeps(l, e); }
    case Consumes(n) => ConsumeKeeps(l, n);
  }

  lemma UnregisterKeeps(l: Link)
    requires LinkInv(l)
    ensures LinkInv(if l.reg.Live? then l.(reg := Gone) else l)
  {
  }

  lemma {:induction false} LinkExecuteInv(registered: bool, evs: seq<LinkEvent>)
    ensures LinkInv(LinkExecute(registered, evs))
    decreases |evs|
  {
    hide LinkInv, LinkStep;
    if evs != [] {
      LinkExecuteInv(registered, evs[..|evs| - 1]);
      LinkStepInv(LinkExecute(registered, evs[..|evs| - 1]), evs[|evs| - 1]);
    } else {
      StartInv(registered);
    }
  }

  lemma StartInv(registered: bool)
    ensures LinkInv(Start(registered))
  {
    assert [Open][..0] == [];
  }

  /** Whatever happens, in whichever direction: the bytes read are a prefix of the bytes written. */
  lemma BytesReadArePrefix(registered: bool, evs: seq<LinkEvent>)
    ensures LinkExecute(registered, evs).out <= LinkExecute(registered, evs).offered
  {
    hide LinkExecute;
    LinkExecuteInv(registered, evs);
    var l := LinkExecute(registered, evs);
    ExecutedQueuePrefix(l);
    FrameBytesPrefix(l.q.popped, FramesOf(l.wire));
    BytesAreFrameBytes(l.wire);
  }

  lemma ExecutedQueuePrefix(l: Link)
    requires LinkInv(l)
    ensures l.q.popped <= FramesOf(l.wire)
  {
    FramesOfPrefix(l.wire, l.arrived);
    assert l.q.pushed <= l.q.pushed + Hand(l);
  }

  /**
   A reader that saw the regular end has everything up to it: the frames it consumed are the
   first frames sent, the last of them is the first end frame, and no byte of them is missing.
   */
  lemma EndMeansWhole(registered: bool, evs: seq<LinkEvent>)
    requires LinkExecute(registered, evs).ending.AtEnd?
    ensures var l := LinkExecute(registered, evs);
      && l.q.popped <= FramesOf(l.wire) && l.q.popped != [] && l.out == FrameBytes(l.q.popped)
      && l.q.popped[|l.q.popped| - 1].end
      && forall k :: 0 <= k < |l.q.popped| - 1 ==> !l.q.popped[k].end
  {
    hide LinkExecute;
    LinkExecuteInv(registered, evs);
    ExecutedQueuePrefix(LinkExecute(registered, evs));
  }

  /** A reader that ended with the sender's error was sent one, and has every byte that was sent before it. */
  lemma ErrorMeansFailure(registered: bool, evs: seq<LinkEvent>)
    requires LinkExecute(registered, evs).ending.AtError?
    ensures var l := LinkExecute(registered, evs);
      && l.q.popped <= FramesOf(l.wire) && l.q.popped != [] && l.q.popped[|l.q.popped| - 1].error
      && l.out == FrameBytes(l.q.popped)
      && forall k :: 0 <= k < |l.q.popped| - 1 ==> !l.q.popped[k].end && !l.q.popped[k].error
  {
    hide LinkExecute;
    LinkExecuteInv(registered, evs);
    var l := LinkExecute(registered, evs);
    ExecutedQueuePrefix(l);
    var last := |l.q.popped| - 1;
    FramesOfHas(l.wire, last);
    assert l.q.popped[last] == FramesOf(l.wire)[last];
    assert FrameBytes(l.q.popped) == FrameBytes(l.q.popped[..last]) + l.q.popped[last].data;
  }

  lemma {:induction false} FramesOfHas(wire: seq<Message>, k: nat)
    requires k < |FramesOf(wire)|
    ensures exists m :: 0 <= m < |wire| && wire[m] == Data(FramesOf(wire)[k])
    decreases |wire|
  {
    var init := wire[..|wire| - 1];
    if k < |FramesOf(init)| {
      FramesOfHas(init, k);
      var m :| 0 <= m < |init| && init[m] == Data(FramesOf(init)[k]);
      assert wire[m] == Data(FramesOf(wire)[k]);
    } else {
      assert wire[|wire| - 1] == Data(FramesOf(wire)[k]);
    }
  }

  /** While nothing broke and the stream is registered, no frame is lost: what arrived was pushed, or is about to be. */
  lemma NothingDroppedWhileLive(registered: bool, evs: seq<LinkEvent>)
    requires LinkExecute(registered, evs).reg.Live? && LinkExecute(registered, evs).arrived == |LinkExecute(registered, evs).wire|
    requires !LinkExecute(registered, evs).broken
    ensures var l := LinkExecute(registered, evs); FrameBytes(l.q.pushed + Hand(l)) == l.offered
  {
    hide LinkExecute;
    LinkExecuteInv(registered, evs);
    var l := LinkExecute(registered, evs);
    assert l.wire[..l.arrived] == l.wire;
    BytesAreFrameBytes(l.wire);
  }
}
