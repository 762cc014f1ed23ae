/** `streamFrames` with its variables as fields, one method for each closure. What
    the socket, the camera and `isConnected` answer comes in as parameters. */
module CameraStreams {
  import opened Basics
  import opened FramePumps

  class CameraStream {
    const camera: Camera
    var interval: nat
    var now: int
    var nextFrameAt: int
    var timer: Option<int>
    var writeTimer: Option<int>
    var settled: Option<Outcome>
    var pendingFrame: Option<nat>
    var pendingInterval: nat
    var framesSent: nat
    var closes: seq<nat>
    var attempts: seq<int>
    var settlements: nat

    ghost function View(): Pump
      reads this
    {
      Pump(camera, interval, now, nextFrameAt, timer, writeTimer, settled, pendingFrame,
        pendingInterval, framesSent, closes, attempts, settlements)
    }

    ghost predicate Valid()
      reads this
    {
      Inv(View())
    }

    constructor (camera: Camera, interval: nat, start: int, connected: bool)
      ensures Valid() && View() == Start(camera, interval, start, connected)
    {
      this.camera, this.interval := camera, interval;
      now, nextFrameAt := start, start + interval;
      timer, writeTimer, settled, pendingFrame := None, None, None, None;
      pendingInterval, framesSent, closes, attempts, settlements := 0, 0, [], [], 0;
      new;
      StartInv(camera, interval, start, connected);
      ScheduleNext(connected);
    }

    method Settle(outcome: Outcome)
      modifies this
      ensures View() == Finish(old(View()), outcome)
    {
      if settled.Some? {
        return;
      }
      settled, settlements := Some(outcome), settlements + 1;
      timer, writeTimer := None, None;
    }

    method ScheduleNext(connected: bool)
      modifies this
      ensures View() == Schedule(old(View()), connected)
    {
      if !connected {
        Settle(Resolved);
        return;
      }
      timer := Some(now + Max(1, nextFrameAt - now));
    }

    method AdvanceNext(interval: nat, connected: bool)
      modifies this
      ensures View() == Advance(old(View()), interval, connected)
    {
      if this.interval != interval {
        nextFrameAt := now + this.interval;
      } else if now - nextFrameAt > interval {
        nextFrameAt := now + interval;
      }
      ScheduleNext(connected);
    }

    /** `frame?.close?.()` on the frame in flight. */
    method ClosePending()
      modifies this
      ensures View() == CloseFrame(old(View()))
    {
      if pendingFrame.Some? && pendingFrame.value < |closes| && camera.OV2640? {
        var frame := pendingFrame.value;
        closes := closes[frame := closes[frame] + 1];
      }
      pendingFrame := None;
    }

    method WriteComplete(connected: bool)
      modifies this
      ensures View() == OnWriteComplete(old(View()), connected)
    {
      var interval := pendingInterval;
      ClosePending();
      writeTimer := None;
      if settled.Some? {
        return;
      }
      framesSent := framesSent + 1;
      AdvanceNext(interval, connected);
    }

    method WriteError()
      modifies this
      ensures View() == OnWriteError(old(View()))
    {
      ClosePending();
      writeTimer := None;
      Settle(Rejected);
    }

    method WriteTimeout()
      requires Valid() && Enabled(View(), FireWriteTimeout)
      modifies this
      ensures Valid()
      ensures View() == Apply(old(View()), FireWriteTimeout)
    {
      StepKeepsInv(View(), FireWriteTimeout);
      writeTimer := None;
      Settle(Rejected);
    }

    /** The send timer fires. */
    method SendOne(connected: bool, shot: Shot, send: SendResult, connectedAfter: bool)
      requires Valid() && Due(timer, now)
      modifies this
      ensures Valid()
      ensures View() == Apply(old(View()), FireSend(connected, shot, send, connectedAfter))
    {
      StepKeepsInv(View(), FireSend(connected, shot, send, connectedAfter));
      FireTimer(connected, shot, send, connectedAfter);
    }

    /** `sendFrame`. */
    method FireTimer(connected: bool, shot: Shot, send: SendResult, connectedAfter: bool)
      modifies this
      ensures View() == SendFrame(old(View()), connected, shot, send, connectedAfter)
    {
      timer := None;
      if !connected {
        Settle(Resolved);
        return;
      }
      nextFrameAt := nextFrameAt + interval;
      attempts := attempts + [now];
      assert View() == Attempted(old(View()));
      HandleFrame(shot, send, connectedAfter);
    }

    /** The rest of `sendFrame`, from `takeLatestFrame` on. */
    method HandleFrame(shot: Shot, send: SendResult, connectedAfter: bool)
      modifies this
      ensures View() == HandleShot(old(View()), shot, send, connectedAfter)
    {
      if shot.NoFrame? {
        AdvanceNext(interval, connectedAfter);
        return;
      }
      if !Sendable(camera, shot) {
        closes := closes + [1];
        Settle(Rejected);
        return;
      }
      pendingFrame, pendingInterval := Some(|closes|), interval;
      closes := closes + [if camera.OV2640? then 0 else 1];
      writeTimer := Some(now + WRITE_TIMEOUT);
      DispatchFrame(send, connectedAfter);
    }

    /** `socket.send` inside its `try`. */
    method DispatchFrame(send: SendResult, connectedAfter: bool)
      modifies this
      ensures View() == Dispatch(old(View()), send, connectedAfter)
    {
      match send {
        case Throws =>
          ClosePending();
          writeTimer := None;
          Settle(Rejected);
        case Queued =>
        case Immediate =>
          WriteComplete(connectedAfter);
      }
    }

    /** The answer of the write in flight. */
    method Answered(error: bool, connected: bool)
      requires Valid() && pendingFrame.Some?
      modifies this
      ensures Valid() && pendingFrame.None?
      ensures View() == Apply(old(View()), if error then Error else Complete(connected))
    {
      StepKeepsInv(View(), if error then Error else Complete(connected));
      if error {
        WriteError();
      } else {
        WriteComplete(connected);
      }
    }

    /** `setFPS`: throws outside 1 to 8. */
    method SetFPS(fps: nat) returns (ok: bool)
      requires Valid()
      modifies this
      ensures Valid()
      ensures ok == (1 <= fps <= 8)
      ensures View() == if ok then Apply(old(View()), SetFps(fps)) else old(View())
    {
      if fps < 1 || fps > 8 {
        return false;
      }
      interval := Interval(fps);
      ok := true;
    }
  }
}
