/**
 The forward queue as an object updated in place (apps/pi-tunnel/src/backpressure.ts), each method
 proved against the function of module ForwardQueue that says what the call does.
 */
module Backpressure {
  import opened ForwardQueue
  import Spec = ForwardQueue

  /** The socket side. `Send` reports whether it threw. */
  class TargetSocket {
    var open: bool
    var buffered: nat
    var sent: seq<Frame>

    constructor (buffered: nat)
      ensures open && this.buffered == buffered && sent == []
    {
      open, this.buffered, sent := true, buffered, [];
    }

    ghost function View(): Target
      reads this
    {
      Target(open, buffered, sent)
    }

    method Send(f: Frame, throws: bool) returns (threw: bool)
      modifies this
      ensures threw == throws
      ensures open == old(open)
      ensures View() == if threw then old(View())
                        else Target(old(open), old(buffered) + WireBytes(f.size), old(sent) + [f])
    {
      threw := throws;
      if !throws {
        buffered := buffered + WireBytes(f.size);
        sent := sent + [f];
      }
    }
  }

  class OpaqueForwardQueue {
    const target: TargetSocket
    const options: Options
    var queue: seq<Frame>
    var queuedAccountedBytes: int
    var drainTimer: bool

    ghost function View(): Link
      reads this, target
    {
      Link(Queue(queue, queuedAccountedBytes, drainTimer), target.View())
    }

    constructor (target: TargetSocket, options: Options)
      ensures this.target == target && this.options == options
      ensures View() == Link(EMPTY_QUEUE, target.View())
    {
      this.target, this.options := target, options;
      queue, queuedAccountedBytes, drainTimer := [], 0, false;
    }

    /** `overflowed` stands for the call of `onOverflow`. */
    method Forward(frame: Frame, throws: bool) returns (accepted: bool, overflowed: bool)
      modifies this, target
      ensures Forwarded(View(), accepted, overflowed) == Spec.Forward(options, old(View()), frame, throws)
    {
      overflowed := false;
      if !target.open {
        return false, false;
      }
      var accountedFrameBytes := frame.size + FRAME_ACCOUNTING_BYTES;
      var totalBuffered := target.buffered + queuedAccountedBytes + accountedFrameBytes;
      if |queue| >= options.maxQueuedFrames || totalBuffered > options.absoluteBytes {
        return false, true;
      }
      if |queue| > 0 || target.buffered >= options.highWaterBytes {
        queue := queue + [frame];
        queuedAccountedBytes := queuedAccountedBytes + accountedFrameBytes;
        ScheduleDrain();
        return true, false;
      }
      accepted := SendFrame(frame, throws);
    }

    method Clear()
      modifies this
      ensures View() == Link(EMPTY_QUEUE, old(target.View()))
    {
      drainTimer := false;
      queue := [];
      queuedAccountedBytes := 0;
    }

    method SendFrame(frame: Frame, throws: bool) returns (ok: bool)
      modifies target
      ensures (View(), ok) == Spec.Send(old(View()), frame, throws)
    {
      if !target.open {
        return false;
      }
      var threw := target.Send(frame, throws);
      ok := !threw;
    }

    method ScheduleDrain()
      modifies this
      ensures View() == Link(Spec.ScheduleDrain(old(View()).queue), old(target.View()))
    {
      if drainTimer || |queue| == 0 {
        return;
      }
      drainTimer := true;
    }

    /** The timer callback; the send numbered `failing` throws. */
    method Drain(failing: nat)
      modifies this, target
      ensures View() == Spec.Drain(options, old(View()), failing).link
    {
      drainTimer := false;
      if !target.open {
        Clear();
        return;
      }
      var sends := 0;
      while |queue| > 0 && target.buffered < options.highWaterBytes
        invariant target.open && !drainTimer && sends <= failing
        invariant DrainLoop(options, View(), failing - sends)
               == DrainLoop(options, old(View()).(queue := old(View()).queue.(timerArmed := false)), failing)
        decreases |queue|
      {
        var frame := queue[0];
        queue := queue[1..];
        queuedAccountedBytes := queuedAccountedBytes - (frame.size + FRAME_ACCOUNTING_BYTES);
        var ok := SendFrame(frame, sends == failing);
        if !ok {
          break;
        }
        sends := sends + 1;
      }
      ScheduleDrain();
    }
  }
}
