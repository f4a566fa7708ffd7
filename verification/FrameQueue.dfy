/**
 The frame queue between the tunnel's receive loop and one stream's consumer.  Producers
 append under the lock and post a token on a channel of capacity one afterwards; the one
 consumer parks on that channel.  Every lock scope and every channel operation is one step.
 */
module FrameQueues {
  import opened Options

  /** Outside: not in `pop`.  Looping: about to take the lock.  Parked: waiting for the token. */
  datatype Consumer = Outside | Looping | Parked

  /**
   `waking` counts producers that have released the lock but not yet posted their token.
   `pushed` and `popped` remember every frame that went in and came out.
   */
  datatype Queue<T> = Queue(
    buf: seq<T>, closed: bool, token: bool, waking: nat, consumer: Consumer, pushed: seq<T>, popped: seq<T>)

  datatype Event<T> =
    | PushLocked(frame: T)
    | CloseLocked
    | Wake
    | EnterPop
    | PopLocked
    | TakeToken
    | GiveUp

  function Empty<T>(): Queue<T> {
    Queue([], false, false, 0, Outside, [], [])
  }

  function Step<T>(q: Queue<T>, ev: Event<T>): Queue<T> {
    match ev
    case PushLocked(frame) => q.(buf := q.buf + [frame], waking := q.waking + 1, pushed := q.pushed + [frame])
    case CloseLocked => q.(closed := true, waking := q.waking + 1)
    case Wake => if q.waking > 0 then q.(waking := q.waking - 1, token := true) else q
    case EnterPop => if q.consumer.Outside? then q.(consumer := Looping) else q
    case PopLocked =>
      if !q.consumer.Looping? then q
      else if q.buf != [] then q.(buf := q.buf[1..], popped := q.popped + [q.buf[0]], consumer := Outside)
      else if q.closed then q.(consumer := Outside)
      else q.(consumer := Parked)
    case TakeToken => if q.consumer.Parked? && q.token then q.(token := false, consumer := Looping) else q
    case GiveUp => if q.consumer.Parked? then q.(consumer := Outside) else q
  }

  function Execute<T>(evs: seq<Event<T>>): Queue<T> {
    if evs == [] then Empty() else Step(Execute(evs[..|evs| - 1]), evs[|evs| - 1])
  }

  /** First in, first out, and a parked consumer with something to do has a token or gets one. */
  predicate Inv<T(==)>(q: Queue<T>) {
    && q.pushed == q.popped + q.buf
    && (q.consumer.Parked? && (q.buf != [] || q.closed) ==> q.token || q.waking > 0)
  }

  lemma StepInv<T>(q: Queue<T>, ev: Event<T>)
    requires Inv(q)
    ensures Inv(Step(q, ev))
  {
    if ev.PopLocked? && q.consumer.Looping? && q.buf != [] {
      assert q.popped + q.buf == q.popped + [q.buf[0]] + q.buf[1..];
    }
  }

  lemma {:induction false} ExecuteInv<T>(evs: seq<Event<T>>)
    ensures Inv(Execute(evs))
    decreases |evs|
  {
    if evs != [] {
      ExecuteInv(evs[..|evs| - 1]);
      StepInv(Execute(evs[..|evs| - 1]), evs[|evs| - 1]);
    }
  }

  /** Whatever the interleaving: the frames popped are a prefix of the frames pushed. */
  lemma PoppedIsPrefix<T>(evs: seq<Event<T>>)
    ensures Execute(evs).popped <= Execute(evs).pushed
  {
    ExecuteInv(evs);
  }

  function Frames<T>(evs: seq<Event<T>>): seq<T> {
    if evs == [] then []
    else Frames(evs[..|evs| - 1]) + if evs[|evs| - 1].PushLocked? then [evs[|evs| - 1].frame] else []
  }

  /** Nothing is refused or lost: what went in is every frame handed over, in order, also after the queue was closed. */
  lemma {:induction false} PushedAreAll<T>(evs: seq<Event<T>>)
    ensures Execute(evs).pushed == Frames(evs) && Execute(evs).popped + Execute(evs).buf == Frames(evs)
    decreases |evs|
  {
    ExecuteInv(evs);
    if evs != [] {
      PushedAreAll(evs[..|evs| - 1]);
    }
  }

  /**
   No wake-up is lost: a parked consumer with a frame to fetch, or a close to see, is woken as
   soon as the producers on their way have posted, and its next look at the queue succeeds.
   */
  lemma NoLostWakeup<T>(evs: seq<Event<T>>)
    requires Execute(evs).consumer.Parked? && (Execute(evs).buf != [] || Execute(evs).closed)
    ensures var q := if Execute(evs).token then Execute(evs) else Step(Execute(evs), Wake);
      && q.token
      && Step(q, TakeToken).consumer.Looping?
      && Step(Step(q, TakeToken), PopLocked).consumer.Outside?
      && (q.buf != [] ==> Step(Step(q, TakeToken), PopLocked).popped == q.popped + [q.buf[0]])
  {
    ExecuteInv(evs);
  }

  /** The queue object; each method is one step of the machine. */
  class HttpFrameQueue<T(==)> {
    var buf: seq<T>
    var notify: bool
    var closed: bool
    ghost var waking: nat
    ghost var consumer: Consumer
    ghost var pushed: seq<T>
    ghost var popped: seq<T>

    ghost function St(): Queue<T>
      reads this
    {
      Queue(buf, closed, notify, waking, consumer, pushed, popped)
    }

    constructor ()
      ensures St() == Empty() && Inv(St())
    {
      buf, notify, closed := [], false, false;
      waking, consumer, pushed, popped := 0, Outside, [], [];
    }

    method PushLocked(frame: T)
      requires Inv(St())
      modifies this
      ensures Inv(St()) && St() == Step(old(St()), Event.PushLocked(frame))
    {
      StepInv(St(), Event.PushLocked(frame));
      buf := buf + [frame];
      pushed, waking := pushed + [frame], waking + 1;
    }

    method CloseLocked()
      requires Inv(St())
      modifies this
      ensures Inv(St()) && St() == Step(old(St()), Event.CloseLocked)
    {
      closed := true;
      waking := waking + 1;
    }

    /** A send on a full channel of capacity one is dropped. */
    method Wake()
      requires Inv(St()) && waking > 0
      modifies this
      ensures Inv(St()) && St() == Step(old(St()), Event.Wake)
    {
      if !notify {
        notify := true;
      }
      waking := waking - 1;
    }

    /** One turn of the loop in `pop`: a frame, the end, or time to park. */
    method PopLocked() returns (frame: Option<T>, end: bool)
      requires Inv(St()) && consumer.Looping?
      modifies this
      ensures Inv(St()) && St() == Step(old(St()), Event.PopLocked)
      ensures frame.Some? <==> old(buf) != []
      ensures frame.Some? ==> old(pushed) == old(popped) + [frame.value] + buf && popped == old(popped) + [frame.value]
      ensures end <==> old(buf) == [] && old(closed)
    {
      StepInv(St(), Event.PopLocked);
      if |buf| > 0 {
        frame, end := Some(buf[0]), false;
        buf := buf[1..];
        popped, consumer := popped + [frame.value], Outside;
        return;
      }
      if closed {
        consumer := Outside;
        return None, true;
      }
      consumer := Parked;
      return None, false;
    }

    method TakeToken() returns (woken: bool)
      requires Inv(St()) && consumer.Parked?
      modifies this
      ensures Inv(St()) && St() == Step(old(St()), Event.TakeToken) && woken == old(notify)
    {
      woken := notify;
      if woken {
        notify := false;
        consumer := Looping;
      }
    }
  }
}
