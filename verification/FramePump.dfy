/** `streamFrames` of the two camera-stream.js files: a chain of one-shot timers and
    write callbacks that keeps at most one frame in flight and corrects its drift.
    The M5Camera sends the frame it took; the CoreS3 re-encodes it and lets it go
    before sending. */
module FramePumps {
  import opened Basics

  datatype Camera = OV2640 | GC0308

  const WRITE_TIMEOUT: nat := 30_000

  /** What `takeLatestFrame` found; `encodes` is whether the CoreS3's encoder then
      accepts the frame. */
  datatype Shot = NoFrame | Frame(bytes: seq<byte>, encodes: bool)

  /** How `socket.send` ends: it throws, queues, or completes before it returns. */
  datatype SendResult = Throws | Queued | Immediate

  datatype Outcome = Resolved | Rejected

  /** `timer` and `writeTimer` hold the time an armed timer is due. `pending` is the
      position, among the frames taken, of the one in flight. `closes` counts the
      `close` calls of every frame taken, `attempts` the times frames were asked for. */
  datatype Pump = Pump(
    camera: Camera, interval: nat, now: int, nextFrameAt: int,
    timer: Option<int>, writeTimer: Option<int>, settled: Option<Outcome>,
    pending: Option<nat>, pendingInterval: nat, framesSent: nat,
    closes: seq<nat>, attempts: seq<int>, settlements: nat)

  /** `Math.round(1000 / fps)`. */
  function Interval(fps: nat): nat
    requires 0 < fps
  {
    (2_000 + fps) / (2 * fps)
  }

  function Max(a: int, b: int): int {
    if a < b then b else a
  }

  predicate Sendable(camera: Camera, shot: Shot) {
    shot.Frame? && (if camera.OV2640? then IsJpeg(shot.bytes) else shot.encodes)
  }

  // ---------------------------------------------------------------- the closures

  function Start(camera: Camera, interval: nat, now: int, connected: bool): Pump {
    Schedule(Pump(camera, interval, now, now + interval, None, None, None, None, 0, 0, [], [], 0), connected)
  }

  function Finish(p: Pump, outcome: Outcome): Pump {
    if p.settled.Some? then p
    else p.(settled := Some(outcome), settlements := p.settlements + 1, timer := None, writeTimer := None)
  }

  function Schedule(p: Pump, connected: bool): Pump {
    if !connected then Finish(p, Resolved)
    else p.(timer := Some(p.now + Max(1, p.nextFrameAt - p.now)))
  }

  /** The drift correction. */
  function Corrected(p: Pump, interval: nat): int {
    if p.interval != interval then p.now + p.interval
    else if p.now - p.nextFrameAt > interval then p.now + interval
    else p.nextFrameAt
  }

  function Advance(p: Pump, interval: nat, connected: bool): Pump {
    Schedule(p.(nextFrameAt := Corrected(p, interval)), connected)
  }

  /** One more `close` of the frame in flight; a CoreS3 frame is closed before. */
  function CloseFrame(p: Pump): Pump {
    if p.pending.Some? && p.pending.value < |p.closes| && p.camera.OV2640? then
      p.(closes := p.closes[p.pending.value := p.closes[p.pending.value] + 1], pending := None)
    else p.(pending := None)
  }

  function OnWriteComplete(p: Pump, connected: bool): Pump {
    var done := CloseFrame(p).(writeTimer := None);
    if p.settled.Some? then done
    else Advance(done.(framesSent := p.framesSent + 1), p.pendingInterval, connected)
  }

  function OnWriteError(p: Pump): Pump {
    Finish(CloseFrame(p).(writeTimer := None), Rejected)
  }

  function OnWriteTimeout(p: Pump): Pump {
    Finish(p.(writeTimer := None), Rejected)
  }

  /** The part of `sendFrame` up to `socket.send`: a frame has been taken. */
  function Taken(p: Pump): Pump {
    p.(closes := p.closes + [if p.camera.OV2640? then 0 else 1],
      pending := Some(|p.closes|), pendingInterval := p.interval, writeTimer := Some(p.now + WRITE_TIMEOUT))
  }

  /** `connected` and `connectedAfter` are the answers of `isConnected` at the start
      and in `schedule`. */
  function SendFrame(p: Pump, connected: bool, shot: Shot, send: SendResult, connectedAfter: bool): Pump {
    if !connected then Finish(p.(timer := None), Resolved)
    else HandleShot(Attempted(p), shot, send, connectedAfter)
  }

  /** The timer has fired and the due time has moved on. */
  function Attempted(p: Pump): Pump {
    p.(timer := None, nextFrameAt := p.nextFrameAt + p.interval, attempts := p.attempts + [p.now])
  }

  /** What `sendFrame` does with the answer of `takeLatestFrame`. */
  function HandleShot(p: Pump, shot: Shot, send: SendResult, connectedAfter: bool): Pump {
    if shot.NoFrame? then Advance(p, p.interval, connectedAfter)
    else if !Sendable(p.camera, shot) then Finish(p.(closes := p.closes + [1]), Rejected)
    else Dispatch(Taken(p), send, connectedAfter)
  }

  /** `socket.send` with the frame taken. */
  function Dispatch(p: Pump, send: SendResult, connectedAfter: bool): Pump {
    match send
    case Throws => Finish(CloseFrame(p).(writeTimer := None), Rejected)
    case Queued => p
    case Immediate => OnWriteComplete(p, connectedAfter)
  }

  datatype Step =
    | Tick(time: int)
    | SetFps(fps: nat)
    | FireSend(connected: bool, shot: Shot, send: SendResult, connectedAfter: bool)
    | FireWriteTimeout
    | Complete(stillConnected: bool)
    | Error

  predicate Due(timer: Option<int>, now: int) {
    timer.Some? && timer.value <= now
  }

  /** Timers fire late or never early; a callback answers the write in flight. */
  predicate Enabled(p: Pump, step: Step) {
    match step
    case Tick(time) => p.now <= time
    case SetFps(fps) => 1 <= fps <= 8
    case FireSend(_, _, _, _) => Due(p.timer, p.now)
    case FireWriteTimeout => Due(p.writeTimer, p.now)
    case Complete(_) => p.pending.Some?
    case Error => p.pending.Some?
  }

  function Apply(p: Pump, step: Step): Pump
    requires Enabled(p, step)
  {
    match step
    case Tick(time) => p.(now := time)
    case SetFps(fps) => p.(interval := Interval(fps))
    case FireSend(connected, shot, send, connectedAfter) => SendFrame(p, connected, shot, send, connectedAfter)
    case FireWriteTimeout => OnWriteTimeout(p)
    case Complete(stillConnected) => OnWriteComplete(p, stillConnected)
    case Error => OnWriteError(p)
  }

  function Exec(p: Pump, steps: seq<Step>): Pump
    decreases |steps|
  {
    if steps == [] then p
    else Exec(if Enabled(p, steps[0]) then Apply(p, steps[0]) else p, steps[1..])
  }

  // ------------------------------------------------------------------ invariants

  /** While the promise is open exactly one of the send timer and a write in flight
      keeps the pump going; once it is settled nothing is armed. */
  ghost predicate TimerInv(p: Pump) {
    && !(p.timer.Some? && p.pending.Some?)
    && (p.settled.Some? ==> p.timer.None? && p.writeTimer.None?)
    && (p.settled.None? ==> p.timer.Some? || p.pending.Some?)
    && (p.settled.None? ==> (p.writeTimer.Some? <==> p.pending.Some?))
    && p.settlements == (if p.settled.Some? then 1 else 0)
  }

  /** Every frame taken is closed exactly once, except the OV2640 frame in flight,
      which is not closed yet. */
  ghost predicate FrameInv(p: Pump) {
    && (p.pending.Some? ==> p.pending.value == |p.closes| - 1)
    && (forall k | 0 <= k < |p.closes| ::
          p.closes[k] == (if p.camera.OV2640? && p.pending == Some(k) then 0 else 1))
  }

  ghost predicate Inv(p: Pump) {
    TimerInv(p) && FrameInv(p)
  }

  lemma StartInv(camera: Camera, interval: nat, now: int, connected: bool)
    ensures Inv(Start(camera, interval, now, connected))
  {
  }

  lemma {:induction false} CompleteKeepsInv(p: Pump, connected: bool)
    requires p.pending.Some? && p.timer.None? && FrameInv(p)
    requires p.settled.Some? ==> p.writeTimer.None?
    requires p.settlements == (if p.settled.Some? then 1 else 0)
    ensures Inv(OnWriteComplete(p, connected))
  {
  }

  lemma {:induction false} SendKeepsInv(p: Pump, connected: bool, shot: Shot, send: SendResult, connectedAfter: bool)
    requires Inv(p) && p.timer.Some?
    ensures Inv(SendFrame(p, connected, shot, send, connectedAfter))
  {
  }

  lemma {:induction false} StepKeepsInv(p: Pump, step: Step)
    requires Inv(p) && Enabled(p, step)
    ensures Inv(Apply(p, step))
  {
    match step
    case FireSend(connected, shot, send, connectedAfter) => SendKeepsInv(p, connected, shot, send, connectedAfter);
    case Complete(stillConnected) => CompleteKeepsInv(p, stillConnected);
    case _ =>
  }

  lemma {:induction false} RunKeepsInv(p: Pump, steps: seq<Step>)
    requires Inv(p)
    ensures Inv(Exec(p, steps))
    decreases |steps|
  {
    if steps != [] {
      if Enabled(p, steps[0]) {
        StepKeepsInv(p, steps[0]);
        RunKeepsInv(Apply(p, steps[0]), steps[1..]);
      } else {
        RunKeepsInv(p, steps[1..]);
      }
    }
  }

  // ---------------------------------------------------------------- main results

  /** In every run: one write in flight at most, never with an armed send timer; the
      promise settles at most once and disarms everything; while it is open the pump
      cannot stall; and every frame taken is closed exactly once, the one in flight
      when its answer comes, also after a write timeout. */
  lemma PumpIsSafe(camera: Camera, interval: nat, start: int, connected: bool, steps: seq<Step>)
    ensures var p := Exec(Start(camera, interval, start, connected), steps);
      && !(p.timer.Some? && p.pending.Some?)
      && p.settlements <= 1
      && (p.settled.Some? ==> p.timer.None? && p.writeTimer.None?)
      && (p.settled.None? ==> p.timer.Some? || (p.pending.Some? && p.writeTimer.Some?))
      && (forall k | 0 <= k < |p.closes| :: p.closes[k] <= 1 && (p.closes[k] == 1 || p.pending == Some(k)))
  {
    StartInv(camera, interval, start, connected);
    RunKeepsInv(Start(camera, interval, start, connected), steps);
  }

  // ----------------------------------------------------------------------- pacing

  /** The k-th attempt after one at `from` comes no earlier: one interval of lag,
      and then one interval an attempt. */
  function Bound(from: int, k: nat, interval: nat): int {
    if k <= 1 then from - interval else Bound(from, k - 1, interval) + interval
  }

  lemma {:induction false} BoundIsLinear(from: int, k: nat, interval: nat)
    requires 1 <= k
    ensures Bound(from, k, interval) == from + (k - 2) * interval
  {
    if k > 1 {
      BoundIsLinear(from, k - 1, interval);
      assert (k - 2) * interval == (k - 3) * interval + interval;
    }
  }

  /** Every later attempt keeps its distance from every earlier one, the due time
      keeps it too, and `nextFrameAt` lags at most one interval when the timer is
      set. The attempt whose frame is in flight is exempt until `advance`. */
  ghost predicate Paced(p: Pump) {
    var n := |p.attempts|;
    && (forall i, j | 0 <= i < j < n :: p.attempts[j] >= Bound(p.attempts[i], j - i, p.interval))
    && (forall i | 0 <= i < n :: p.attempts[i] <= p.now)
    && (p.timer.Some? ==> p.timer.value >= p.nextFrameAt)
    && (forall i | 0 <= i < n - 1 :: p.nextFrameAt >= Bound(p.attempts[i], n - i, p.interval))
    && (n > 0 && p.timer.Some? ==> p.nextFrameAt >= Bound(p.attempts[n - 1], 1, p.interval))
    && (p.pending.Some? ==> p.pendingInterval == p.interval)
  }

  /** An attempt at its due time or later keeps the distances. */
  lemma {:induction false} AttemptKeepsPace(p: Pump, r: Pump)
    requires Paced(p) && Due(p.timer, p.now)
    requires r.attempts == p.attempts + [p.now] && r.nextFrameAt == p.nextFrameAt + p.interval
    requires r.now == p.now && r.interval == p.interval && r.timer.None?
    requires r.pending.Some? ==> r.pendingInterval == r.interval
    ensures Paced(r)
  {
    var n := |p.attempts|;
    forall i, j | 0 <= i < j < |r.attempts|
      ensures r.attempts[j] >= Bound(r.attempts[i], j - i, r.interval)
    {
      if j == n {
        assert p.nextFrameAt >= Bound(p.attempts[i], n - i, p.interval);
      }
    }
    forall i | 0 <= i < |r.attempts| - 1
      ensures r.nextFrameAt >= Bound(r.attempts[i], |r.attempts| - i, r.interval)
    {
      assert r.attempts[i] == p.attempts[i];
      assert p.nextFrameAt >= Bound(p.attempts[i], n - i, p.interval);
    }
  }

  /** `advance` moves the due time forward, to one interval behind the clock at the
      earliest, and arms the timer no earlier than that. */
  lemma {:induction false} AdvanceKeepsPace(p: Pump, connected: bool)
    requires Paced(p) && p.timer.None? && p.settled.None? && p.pending.None?
    ensures Paced(Advance(p, p.interval, connected))
  {
    var q := Advance(p, p.interval, connected);
    var n := |p.attempts|;
    forall i | 0 <= i < n - 1
      ensures q.nextFrameAt >= Bound(q.attempts[i], n - i, q.interval)
    {
      assert p.nextFrameAt >= Bound(p.attempts[i], n - i, p.interval);
    }
    if n > 0 {
      assert Bound(p.attempts[n - 1], 1, p.interval) == p.attempts[n - 1] - p.interval;
    }
  }

  /** A pump that settles keeps its distances. */
  lemma {:induction false} SamePace(p: Pump, q: Pump)
    requires Paced(p) && q.attempts == p.attempts && q.now == p.now && q.interval == p.interval
    requires q.nextFrameAt == p.nextFrameAt && q.timer.None? && q.pending.None?
    ensures Paced(q)
  {
  }

  lemma {:induction false} CompleteKeepsPace(p: Pump, connected: bool)
    requires Paced(p) && p.timer.None? && p.pending.Some?
    ensures Paced(OnWriteComplete(p, connected))
  {
    var done := CloseFrame(p).(writeTimer := None);
    SamePace(p, done);
    if p.settled.None? {
      SamePace(p, done.(framesSent := p.framesSent + 1));
      AdvanceKeepsPace(done.(framesSent := p.framesSent + 1), connected);
    }
  }

  lemma {:induction false} ImmediateKeepsPace(p: Pump, r: Pump, connected: bool)
    requires Paced(p) && Due(p.timer, p.now)
    requires r == Attempted(p)
    ensures Paced(OnWriteComplete(Taken(r), connected))
  {
    AttemptKeepsPace(p, Taken(r));
    CompleteKeepsPace(Taken(r), connected);
  }

  lemma {:induction false} EmptyKeepsPace(p: Pump, r: Pump, connected: bool)
    requires Paced(p) && Due(p.timer, p.now) && p.settled.None? && p.pending.None?
    requires r == Attempted(p)
    ensures Paced(Advance(r, p.interval, connected))
  {
    AttemptKeepsPace(p, r);
    AdvanceKeepsPace(r, connected);
  }

  lemma {:induction false} GivesUpKeepsPace(p: Pump, shot: Shot, connectedAfter: bool)
    requires Paced(p) && Due(p.timer, p.now) && p.settled.None? && p.pending.None? && shot.Frame?
    ensures Paced(SendFrame(p, true, shot, Throws, connectedAfter))
  {
    AttemptKeepsPace(p, SendFrame(p, true, shot, Throws, connectedAfter));
  }

  lemma {:induction false} SendKeepsPace(p: Pump, connected: bool, shot: Shot, send: SendResult, connectedAfter: bool)
    requires Paced(p) && Due(p.timer, p.now) && p.settled.None? && p.pending.None?
    ensures Paced(SendFrame(p, connected, shot, send, connectedAfter))
  {
    var r := Attempted(p);
    if !connected {
      SamePace(p, Finish(p.(timer := None), Resolved));
    } else if shot.NoFrame? {
      EmptyKeepsPace(p, r, connectedAfter);
    } else if !Sendable(p.camera, shot) || send.Throws? {
      GivesUpKeepsPace(p, shot, connectedAfter);
    } else if send.Immediate? {
      ImmediateKeepsPace(p, r, connectedAfter);
    } else {
      AttemptKeepsPace(p, Taken(r));
    }
  }

  /** Steps that leave the interval as it is. */
  predicate KeepsInterval(steps: seq<Step>, interval: nat) {
    forall step | step in steps && step.SetFps? && 1 <= step.fps <= 8 :: Interval(step.fps) == interval
  }

  lemma {:induction false} StepKeepsPace(p: Pump, step: Step)
    requires Inv(p) && Paced(p) && Enabled(p, step)
    requires step.SetFps? ==> Interval(step.fps) == p.interval
    ensures Paced(Apply(p, step)) && Apply(p, step).interval == p.interval
  {
    match step
    case FireSend(connected, shot, send, connectedAfter) => SendKeepsPace(p, connected, shot, send, connectedAfter);
    case Complete(stillConnected) => CompleteKeepsPace(p, stillConnected);
    case Error => SamePace(p, OnWriteError(p));
    case FireWriteTimeout => TimeoutKeepsPace(p);
    case Tick(_) =>
    case SetFps(_) =>
  }

  lemma {:induction false} TimeoutKeepsPace(p: Pump)
    requires Paced(p)
    ensures Paced(OnWriteTimeout(p))
  {
  }

  lemma {:induction false} RunKeepsPace(p: Pump, steps: seq<Step>)
    requires Inv(p) && Paced(p) && KeepsInterval(steps, p.interval)
    ensures Paced(Exec(p, steps)) && Exec(p, steps).interval == p.interval
    decreases |steps|
  {
    if steps != [] {
      var rest := steps[1..];
      assert KeepsInterval(rest, p.interval);
      if Enabled(p, steps[0]) {
        assert steps[0] in steps;
        StepKeepsInv(p, steps[0]);
        StepKeepsPace(p, steps[0]);
        RunKeepsPace(Apply(p, steps[0]), rest);
      } else {
        RunKeepsPace(p, rest);
      }
    }
  }

  /** At a constant interval, however late timers and callbacks come, any window of
      `length` holds at most floor(length / interval) + 3 attempts: attempts i to j
      lie in one window exactly when they are at most `length` apart. */
  lemma PacingBound(camera: Camera, interval: nat, start: int, connected: bool, steps: seq<Step>,
                    i: nat, j: nat, length: nat)
    requires 0 < interval && KeepsInterval(steps, interval)
    ensures var p := Exec(Start(camera, interval, start, connected), steps);
      i <= j < |p.attempts| && p.attempts[j] - p.attempts[i] <= length ==>
        j - i + 1 <= length / interval + 3
  {
    var s := Start(camera, interval, start, connected);
    StartInv(camera, interval, start, connected);
    RunKeepsPace(s, steps);
    var p := Exec(s, steps);
    if i < j < |p.attempts| && p.attempts[j] - p.attempts[i] <= length {
      assert p.attempts[j] >= Bound(p.attempts[i], j - i, interval);
      BoundIsLinear(p.attempts[i], j - i, interval);
      AtMost(j - i - 2, interval, length);
    }
  }

  lemma MulGrows(k: int, n: nat)
    requires 1 <= k
    ensures k * n >= n
  {
    assert k * n == (k - 1) * n + n;
  }

  lemma AtMost(k: int, interval: nat, length: nat)
    requires 0 < interval && k * interval <= length
    ensures k <= length / interval
  {
    var q := length / interval;
    if k > q {
      MulGrows(k - q, interval);
      assert false;
    }
  }

  const FIRE := FireSend(true, NoFrame, Queued, true)

  /** A send timer that finds no frame, in closed form. */
  lemma EmptyFire(p: Pump, time: int, due: int)
    requires p.now <= time && Due(p.timer, time) && p.settled.None?
    requires due == if time - (p.nextFrameAt + p.interval) > p.interval then time + p.interval
                    else p.nextFrameAt + p.interval
    ensures Enabled(p, Tick(time)) && Enabled(Apply(p, Tick(time)), FIRE)
    ensures Apply(Apply(p, Tick(time)), FIRE) ==
      p.(now := time, nextFrameAt := due, timer := Some(time + Max(1, due - time)), attempts := p.attempts + [time])
  {
  }

  lemma TwoSteps(p: Pump, a: Step, b: Step, rest: seq<Step>)
    requires Enabled(p, a) && Enabled(Apply(p, a), b)
    ensures Exec(p, [a, b] + rest) == Exec(Apply(Apply(p, a), b), rest)
  {
    assert ([a, b] + rest)[1..] == [b] + rest;
    assert ([b] + rest)[1..] == rest;
  }

  /** The bound is reached at every interval: a timer that fires two intervals late
      is followed by two more attempts, three of them within two milliseconds. */
  lemma PacingBoundIsTight(interval: nat) returns (steps: seq<Step>)
    requires 2 < interval
    ensures KeepsInterval(steps, interval)
    ensures var late := 3 * interval;
      Exec(Start(OV2640, interval, 0, true), steps).attempts == [late, late + 1, late + 2]
  {
    var late := 3 * interval;
    var s0 := Start(OV2640, interval, 0, true);
    EmptyFire(s0, late, 2 * interval);
    var s1 := Apply(Apply(s0, Tick(late)), FIRE);
    EmptyFire(s1, late + 1, late);
    var s2 := Apply(Apply(s1, Tick(late + 1)), FIRE);
    EmptyFire(s2, late + 2, late + interval);
    var tail := [Tick(late + 2), FIRE] + [];
    var middle := [Tick(late + 1), FIRE] + tail;
    steps := [Tick(late), FIRE] + middle;
    TwoSteps(s0, Tick(late), FIRE, middle);
    TwoSteps(s1, Tick(late + 1), FIRE, tail);
    TwoSteps(s2, Tick(late + 2), FIRE, []);
  }
}
