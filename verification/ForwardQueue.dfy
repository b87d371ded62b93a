/**
 The bounded per-direction forward queue of the tunnel relay
 (apps/pi-tunnel/src/backpressure.ts).

 A queue forwards opaque frames to one target socket. `Link` pairs the queue with what it can
 see of that socket, and each function says what one call does.
 */
module ForwardQueue {

  const FRAME_ACCOUNTING_BYTES: nat := 64

  /**
   An opaque frame. `size` is its length in bytes and `content` stands for the bytes.
   `client` is an annotation no operation reads: the tunnel client the frame belongs to.
   */
  datatype Frame = Frame(client: nat, content: nat, size: nat)

  datatype Options = Options(highWaterBytes: nat, absoluteBytes: nat, maxQueuedFrames: nat)

  /** The target socket: open or not, its `bufferedAmount`, and the frames handed to `send`. */
  datatype Target = Target(open: bool, buffered: nat, sent: seq<Frame>)

  datatype Queue = Queue(frames: seq<Frame>, accounted: int, timerArmed: bool)

  datatype Link = Link(queue: Queue, target: Target)

  const EMPTY_QUEUE := Queue([], 0, false)

  /** Header of an unmasked frame, section 5.2 of RFC 6455. */
  function HeaderBytes(size: nat): nat {
    if size < 126 then 2 else if size < 0x1_0000 then 4 else 10
  }

  function WireBytes(size: nat): nat {
    size + HeaderBytes(size)
  }

  function AccountedFrame(f: Frame): nat {
    f.size + FRAME_ACCOUNTING_BYTES
  }

  function Accounted(frames: seq<Frame>): nat {
    if frames == [] then 0 else AccountedFrame(frames[0]) + Accounted(frames[1..])
  }

  // ----- one call -----

  function ScheduleDrain(q: Queue): Queue {
    if q.timerArmed || q.frames == [] then q else q.(timerArmed := true)
  }

  /** `send` on an open target; `throws` is the socket's choice. */
  function Send(l: Link, f: Frame, throws: bool): (Link, bool) {
    if !l.target.open || throws then (l, false)
    else (l.(target := l.target.(buffered := l.target.buffered + WireBytes(f.size), sent := l.target.sent + [f])), true)
  }

  datatype Forwarded = Forwarded(link: Link, accepted: bool, overflowed: bool)

  function Forward(o: Options, l: Link, f: Frame, throws: bool): Forwarded {
    if !l.target.open then Forwarded(l, false, false)
    else if |l.queue.frames| >= o.maxQueuedFrames
         || l.target.buffered + l.queue.accounted + AccountedFrame(f) > o.absoluteBytes then
      Forwarded(l, false, true)
    else if |l.queue.frames| > 0 || l.target.buffered >= o.highWaterBytes then
      var q := Queue(l.queue.frames + [f], l.queue.accounted + AccountedFrame(f), l.queue.timerArmed);
      Forwarded(l.(queue := ScheduleDrain(q)), true, false)
    else
      var (l', ok) := Send(l, f, throws);
      Forwarded(l', ok, false)
  }

  datatype Drained = Drained(link: Link, threw: bool)

  /** The drain loop; the send numbered `failing` (from 0) throws, if the loop gets that far. */
  function DrainLoop(o: Options, l: Link, failing: nat): Drained
    requires l.target.open
    decreases |l.queue.frames|
  {
    if l.queue.frames == [] || l.target.buffered >= o.highWaterBytes then Drained(l, false)
    else
      var f := l.queue.frames[0];
      var rest := l.queue.(frames := l.queue.frames[1..], accounted := l.queue.accounted - AccountedFrame(f));
      var (l', ok) := Send(l.(queue := rest), f, failing == 0);
      if !ok then Drained(l', true) else DrainLoop(o, l', failing - 1)
  }

  /** The drain timer's callback. */
  function Drain(o: Options, l: Link, failing: nat): Drained {
    var l0 := l.(queue := l.queue.(timerArmed := false));
    if !l.target.open then Drained(l0.(queue := EMPTY_QUEUE), false)
    else
      var Drained(l1, threw) := DrainLoop(o, l0, failing);
      Drained(l1.(queue := ScheduleDrain(l1.queue)), threw)
  }

  /** What a drain does with one waiting frame. */
  lemma DrainOne(o: Options, l: Link, failing: nat)
    requires l.target.open && l.queue.frames != [] && l.target.buffered < o.highWaterBytes
    ensures var f := l.queue.frames[0];
      var q := l.queue.(frames := l.queue.frames[1..], accounted := l.queue.accounted - AccountedFrame(f));
      DrainLoop(o, l, failing) ==
        if failing == 0 then Drained(l.(queue := q), true)
        else DrainLoop(o, Send(l.(queue := q), f, false).0, failing - 1)
  {
  }

  /** What holds of every queue between callbacks. */
  ghost predicate QueueOk(o: Options, q: Queue) {
    && q.accounted == Accounted(q.frames)
    && |q.frames| <= o.maxQueuedFrames
    && (q.frames != [] ==> q.timerArmed)
  }

  lemma {:induction false} AccountedSnoc(frames: seq<Frame>, f: Frame)
    ensures Accounted(frames + [f]) == Accounted(frames) + AccountedFrame(f)
  {
    if frames == [] {
      assert frames + [f] == [f];
    } else {
      AccountedSnoc(frames[1..], f);
      assert (frames + [f])[1..] == frames[1..] + [f];
    }
  }
}
