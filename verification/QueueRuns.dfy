/**
 Whole runs of one forward queue: calls and timer callbacks interleaved with the socket flushing,
 other code writing to it, `send` throwing, and the socket closing.
 */
module QueueRuns {
  import opened ForwardQueue

  datatype Event =
    | ForwardCall(frame: Frame, throws: bool)
    | DrainTimer(failing: nat)
    | SendCallback
    | ClearCall
    | SocketFlush(amount: nat)
    | OtherWrite(bytes: nat)
    | SocketClose

  /**
   A queue in use. `accepted` are the frames for which `forward` returned true, `intact` says that
   no frame has been thrown away (target still open, never cleared, no drain send threw) and
   `foreign` counts the bytes that others wrote to the target.
   */
  datatype Machine = Machine(link: Link, accepted: seq<Frame>, intact: bool, foreign: nat)

  function Start(buffered: nat): Machine {
    Machine(Link(EMPTY_QUEUE, Target(true, buffered, [])), [], true, buffered)
  }

  function Step(o: Options, m: Machine, e: Event): Machine {
    var t := m.link.target;
    match e
    case ForwardCall(f, throws) =>
      var r := Forward(o, m.link, f, throws);
      m.(link := r.link, accepted := if r.accepted then m.accepted + [f] else m.accepted)
    case DrainTimer(failing) =>
      if !m.link.queue.timerArmed then m
      else
        var Drained(link, threw) := Drain(o, m.link, failing);
        m.(link := link, intact := m.intact && t.open && !threw)
    case SendCallback => m.(link := m.link.(queue := ScheduleDrain(m.link.queue)))
    case ClearCall => m.(link := m.link.(queue := EMPTY_QUEUE), intact := false)
    case SocketFlush(amount) =>
      m.(link := m.link.(target := t.(buffered := if amount <= t.buffered then t.buffered - amount else 0)))
    case OtherWrite(bytes) =>
      if !t.open then m
      else m.(link := m.link.(target := t.(buffered := t.buffered + bytes)), foreign := m.foreign + bytes)
    case SocketClose => m.(link := m.link.(target := t.(open := false)), intact := false)
  }

  function Run(o: Options, m: Machine, events: seq<Event>): Machine
    decreases |events|
  {
    if events == [] then m
    else var n := |events| - 1; Step(o, Run(o, m, events[..n]), events[n])
  }

  /** `maxFrame` bounds the frames offered to the queue; the relay checks it before forwarding. */
  ghost predicate Inv(o: Options, maxFrame: nat, m: Machine) {
    var q, t := m.link.queue, m.link.target;
    && QueueOk(o, q)
    && (forall i :: 0 <= i < |q.frames| ==> q.frames[i].size <= maxFrame)
    && (m.intact ==> t.sent + q.frames == m.accepted)
    && t.buffered + q.accounted <= o.absoluteBytes + m.foreign
    && t.buffered < o.highWaterBytes + WireBytes(maxFrame) + m.foreign
  }

  /** The drain loop moves frames from the queue to the socket in order and keeps both bounds. */
  lemma {:induction false} DrainLoopKeeps(o: Options, maxFrame: nat, foreign: nat, l: Link, failing: nat)
    requires l.target.open
    requires l.queue.accounted == Accounted(l.queue.frames)
    requires forall i :: 0 <= i < |l.queue.frames| ==> l.queue.frames[i].size <= maxFrame
    requires l.target.buffered + l.queue.accounted <= o.absoluteBytes + foreign
    requires l.target.buffered < o.highWaterBytes + WireBytes(maxFrame) + foreign
    ensures var Drained(l', threw) := DrainLoop(o, l, failing);
      && l'.target.open
      && l'.queue.accounted == Accounted(l'.queue.frames)
      && |l'.queue.frames| <= |l.queue.frames|
      && (forall i :: 0 <= i < |l'.queue.frames| ==> l'.queue.frames[i].size <= maxFrame)
      && l'.target.buffered + l'.queue.accounted <= o.absoluteBytes + foreign
      && l'.target.buffered < o.highWaterBytes + WireBytes(maxFrame) + foreign
      && (!threw ==> l'.target.sent + l'.queue.frames == l.target.sent + l.queue.frames)
    decreases |l.queue.frames|
  {
    if l.queue.frames != [] && l.target.buffered < o.highWaterBytes {
      var f := l.queue.frames[0];
      var rest := l.queue.(frames := l.queue.frames[1..], accounted := l.queue.accounted - AccountedFrame(f));
      var (l1, ok) := Send(l.(queue := rest), f, failing == 0);
      if ok {
        DrainLoopKeeps(o, maxFrame, foreign, l1, failing - 1);
        assert l1.target.sent + l1.queue.frames == l.target.sent + l.queue.frames;
      }
    }
  }

  lemma ForwardKeepsInv(o: Options, maxFrame: nat, m: Machine, f: Frame, throws: bool)
    requires Inv(o, maxFrame, m) && f.size <= maxFrame
    ensures Inv(o, maxFrame, Step(o, m, ForwardCall(f, throws)))
  {
    AccountedSnoc(m.link.queue.frames, f);
  }

  lemma StepKeepsInv(o: Options, maxFrame: nat, m: Machine, e: Event)
    requires Inv(o, maxFrame, m)
    requires e.ForwardCall? ==> e.frame.size <= maxFrame
    ensures Inv(o, maxFrame, Step(o, m, e))
  {
    match e
    case ForwardCall(f, throws) => ForwardKeepsInv(o, maxFrame, m, f, throws);
    case DrainTimer(failing) =>
      if m.link.queue.timerArmed && m.link.target.open {
        DrainLoopKeeps(o, maxFrame, m.foreign, m.link.(queue := m.link.queue.(timerArmed := false)), failing);
      }
    case _ =>
  }

  /**
   Over every run: no frame is lost, reordered or invented while the queue is intact, the byte
   accounting is exact, a waiting frame always has a drain timer, and the two memory bounds hold
   up to the bytes others wrote.
   */
  lemma {:induction false} RunKeepsInv(o: Options, maxFrame: nat, buffered: nat, events: seq<Event>)
    requires forall i :: 0 <= i < |events| && events[i].ForwardCall? ==> events[i].frame.size <= maxFrame
    ensures Inv(o, maxFrame, Run(o, Start(buffered), events))
    decreases |events|
  {
    if events != [] {
      var n := |events| - 1;
      RunKeepsInv(o, maxFrame, buffered, events[..n]);
      StepKeepsInv(o, maxFrame, Run(o, Start(buffered), events[..n]), events[n]);
    }
  }

  /**
   When nobody else writes to the target and it starts empty, the memory held for one direction
   never exceeds `absoluteBytes`.
   */
  lemma OwnTrafficIsBounded(o: Options, maxFrame: nat, events: seq<Event>)
    requires forall i :: 0 <= i < |events| ==> !events[i].OtherWrite?
    requires forall i :: 0 <= i < |events| && events[i].ForwardCall? ==> events[i].frame.size <= maxFrame
    ensures var m := Run(o, Start(0), events);
      && m.link.target.buffered + Accounted(m.link.queue.frames) <= o.absoluteBytes
      && m.link.target.buffered < o.highWaterBytes + WireBytes(maxFrame)
      && |m.link.queue.frames| <= o.maxQueuedFrames
  {
    RunKeepsInv(o, maxFrame, 0, events);
    NoForeignBytes(o, events);
  }

  lemma {:induction false} NoForeignBytes(o: Options, events: seq<Event>)
    requires forall i :: 0 <= i < |events| ==> !events[i].OtherWrite?
    ensures Run(o, Start(0), events).foreign == 0
    decreases |events|
  {
    if events != [] {
      NoForeignBytes(o, events[..|events| - 1]);
    }
  }

  // ----- which frames are refused -----

  /** The bytes of the frames themselves. */
  function Payload(frames: seq<Frame>): nat
    decreases |frames|
  {
    if frames == [] then 0 else Payload(frames[..|frames| - 1]) + frames[|frames| - 1].size
  }

  /** The queue accounts for every waiting frame's bytes and 64 more. */
  lemma {:induction false} AccountedIsPayload(frames: seq<Frame>)
    ensures Accounted(frames) == Payload(frames) + 64 * |frames|
    decreases |frames|
  {
    if frames != [] {
      var n := |frames| - 1;
      AccountedIsPayload(frames[..n]);
      AccountedSnoc(frames[..n], frames[n]);
      assert frames[..n] + [frames[n]] == frames;
    }
  }

  /** No room: as many frames wait as may, or the frame would take buffer and queue past the absolute bound. */
  predicate NoRoom(o: Options, l: Link, f: Frame) {
    || |l.queue.frames| == o.maxQueuedFrames
    || l.target.buffered + Payload(l.queue.frames) + 64 * |l.queue.frames| + f.size + 64 > o.absoluteBytes
  }

  /**
   On an open target a frame overflows exactly when there is no room for it, and then nothing changes. With room
   it waits last behind a backlog or before a full socket, and goes straight to an idle one, which alone can
   still refuse it, by throwing.
   */
  lemma ForwardDecides(o: Options, l: Link, f: Frame, throws: bool)
    requires QueueOk(o, l.queue) && l.target.open
    ensures var fw := Forward(o, l, f, throws);
      var waits := l.queue.frames != [] || l.target.buffered >= o.highWaterBytes;
      && (fw.overflowed <==> NoRoom(o, l, f))
      && (fw.accepted <==> !NoRoom(o, l, f) && (waits || !throws))
      && (!fw.accepted ==> fw.link == l)
      && (fw.accepted && waits ==>
            fw.link.target == l.target && fw.link.queue.frames == l.queue.frames + [f] && fw.link.queue.timerArmed)
      && (fw.accepted && !waits ==>
            && fw.link.queue == l.queue && fw.link.target.sent == l.target.sent + [f]
            && fw.link.target.buffered == l.target.buffered + WireBytes(f.size))
  {
    AccountedIsPayload(l.queue.frames);
  }

  /** So over every run: a frame offered to an open target is turned away exactly when there is no room for it. */
  lemma RefusedExactlyWhen(o: Options, maxFrame: nat, buffered: nat, events: seq<Event>, f: Frame)
    requires forall i :: 0 <= i < |events| && events[i].ForwardCall? ==> events[i].frame.size <= maxFrame
    ensures var m := Run(o, Start(buffered), events);
      var m' := Run(o, Start(buffered), events + [ForwardCall(f, false)]);
      m'.accepted == m.accepted + if m.link.target.open && !NoRoom(o, m.link, f) then [f] else []
  {
    RunKeepsInv(o, maxFrame, buffered, events);
    assert (events + [ForwardCall(f, false)])[..|events|] == events;
    var m := Run(o, Start(buffered), events);
    if m.link.target.open { ForwardDecides(o, m.link, f, false); }
  }

  // ----- conservation of bytes -----

  /** The bytes that frames take on the wire. */
  function Wire(frames: seq<Frame>): nat
    decreases |frames|
  {
    if frames == [] then 0 else Wire(frames[..|frames| - 1]) + WireBytes(frames[|frames| - 1].size)
  }

  lemma WireSnoc(frames: seq<Frame>, f: Frame)
    ensures Wire(frames + [f]) == Wire(frames) + WireBytes(f.size)
  {
    assert (frames + [f])[..|frames|] == frames;
  }

  /** The bytes that the socket has got rid of. */
  function Flushed(o: Options, m: Machine, events: seq<Event>): nat
    decreases |events|
  {
    if events == [] then 0
    else
      var n := |events| - 1;
      var buffered := Run(o, m, events[..n]).link.target.buffered;
      Flushed(o, m, events[..n])
      + if events[n].SocketFlush? then (if events[n].amount <= buffered then events[n].amount else buffered) else 0
  }

  /** Buffered bytes not accounted for by the frames sent. */
  function Rest(t: Target): int {
    t.buffered - Wire(t.sent)
  }

  lemma SendKeepsRest(l: Link, f: Frame)
    requires l.target.open
    ensures Rest(Send(l, f, false).0.target) == Rest(l.target)
  {
    WireSnoc(l.target.sent, f);
  }

  lemma {:induction false} DrainLoopBytes(o: Options, l: Link, failing: nat)
    requires l.target.open
    ensures Rest(DrainLoop(o, l, failing).link.target) == Rest(l.target)
    decreases |l.queue.frames|
  {
    if l.queue.frames != [] && l.target.buffered < o.highWaterBytes {
      var f := l.queue.frames[0];
      var q := l.queue.(frames := l.queue.frames[1..], accounted := l.queue.accounted - AccountedFrame(f));
      DrainOne(o, l, failing);
      if failing > 0 {
        SendKeepsRest(l.(queue := q), f);
        DrainLoopBytes(o, Send(l.(queue := q), f, false).0, failing - 1);
      }
    }
  }

  lemma StepKeepsBytes(o: Options, m: Machine, e: Event)
    requires !e.SocketFlush?
    ensures var m' := Step(o, m, e);
      Rest(m'.link.target) - m'.foreign == Rest(m.link.target) - m.foreign
  {
    match e
    case ForwardCall(f, throws) => if m.link.target.open { SendKeepsRest(m.link, f); }
    case DrainTimer(failing) =>
      if m.link.target.open {
        DrainLoopBytes(o, m.link.(queue := m.link.queue.(timerArmed := false)), failing);
      }
    case _ =>
  }

  /**
   Over every run, what the socket holds and has flushed is what the queue has sent, with its frame headers, and
   what others have written: no byte is sent twice, or sent without being seen in the buffered amount.
   */
  lemma {:induction false} BytesAreConserved(o: Options, buffered: nat, events: seq<Event>)
    ensures var m := Run(o, Start(buffered), events);
      m.link.target.buffered + Flushed(o, Start(buffered), events) == m.foreign + Wire(m.link.target.sent)
    decreases |events|
  {
    if events != [] {
      var n := |events| - 1;
      BytesAreConserved(o, buffered, events[..n]);
      if !events[n].SocketFlush? { StepKeepsBytes(o, Run(o, Start(buffered), events[..n]), events[n]); }
    }
  }

  // ----- draining -----

  /** A drain that no send interrupts stops only on an empty queue or a full socket. */
  lemma {:induction false} DrainStopsForAReason(o: Options, l: Link, failing: nat)
    requires l.target.open
    ensures var Drained(l', threw) := DrainLoop(o, l, failing);
      if threw then |l'.target.sent| == |l.target.sent| + failing && failing < |l.queue.frames|
      else l'.queue.frames == [] || l'.target.buffered >= o.highWaterBytes
    decreases |l.queue.frames|
  {
    if l.queue.frames != [] && l.target.buffered < o.highWaterBytes {
      var f := l.queue.frames[0];
      var rest := l.queue.(frames := l.queue.frames[1..], accounted := l.queue.accounted - AccountedFrame(f));
      if failing > 0 {
        DrainStopsForAReason(o, Send(l.(queue := rest), f, false).0, failing - 1);
      }
    }
  }

  /** The whole callback: a closed target empties the queue, and what an open one leaves waiting gets a new timer. */
  lemma DrainDecides(o: Options, m: Machine, failing: nat)
    requires m.link.queue.timerArmed
    ensures var q', t' := Step(o, m, DrainTimer(failing)).link.queue, Step(o, m, DrainTimer(failing)).link.target;
      && t'.open == m.link.target.open
      && if !m.link.target.open then q'.frames == [] && q'.accounted == 0 && !q'.timerArmed && t' == m.link.target
         else
           && (q'.timerArmed <==> q'.frames != [])
           && (failing >= |m.link.queue.frames| ==> q'.frames == [] || t'.buffered >= o.highWaterBytes)
  {
    if m.link.target.open {
      var l0 := m.link.(queue := m.link.queue.(timerArmed := false));
      DrainStopsForAReason(o, l0, failing);
      DrainKeepsTarget(o, l0, failing);
    }
  }

  lemma {:induction false} DrainKeepsTarget(o: Options, l: Link, failing: nat)
    requires l.target.open
    ensures var l' := DrainLoop(o, l, failing).link; l'.target.open && l'.queue.timerArmed == l.queue.timerArmed
    decreases |l.queue.frames|
  {
    if l.queue.frames != [] && l.target.buffered < o.highWaterBytes && failing > 0 {
      var f := l.queue.frames[0];
      var rest := l.queue.(frames := l.queue.frames[1..], accounted := l.queue.accounted - AccountedFrame(f));
      DrainKeepsTarget(o, Send(l.(queue := rest), f, false).0, failing - 1);
    }
  }

  /** What the relay's start-up check demands of the queue options and the largest frame. */
  predicate OptionsValid(o: Options, maxFrame: nat) {
    0 < maxFrame <= o.highWaterBytes < o.absoluteBytes && 0 < o.maxQueuedFrames
  }

  /**
   The start-up check alone does not let an idle queue accept every frame: that takes room for the largest frame
   and its accounting bytes.
   */
  lemma IdleQueueAcceptsEveryFrameExactlyWhen(o: Options, maxFrame: nat)
    requires OptionsValid(o, maxFrame)
    ensures (forall f: Frame :: f.size <= maxFrame ==> Forward(o, Start(0).link, f, false).accepted)
       <==> maxFrame + FRAME_ACCOUNTING_BYTES <= o.absoluteBytes
  {
    var largest := Frame(0, 0, maxFrame);
    assert Forward(o, Start(0).link, largest, false).accepted <==> maxFrame + FRAME_ACCOUNTING_BYTES <= o.absoluteBytes;
  }

  lemma ValidOptionsMayRejectAFrame()
    ensures exists o: Options, f: Frame :: OptionsValid(o, f.size) && Forward(o, Start(0).link, f, false).overflowed
  {
    var o := Options(100, 101, 1);
    var f := Frame(0, 0, 100);
    assert OptionsValid(o, f.size) && Forward(o, Start(0).link, f, false).overflowed;
  }
}
