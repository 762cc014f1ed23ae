/** The frame pump sending over the WebSocket queue: the callbacks that answer the
    frame in flight are the queue's own answers. Other messages share the socket. */
module PumpOverSocket {
  import opened Basics
  import P = FramePumps
  import W = WebSocketQueues

  /** `flight` is the message of the frame in flight. */
  datatype State = State(pump: P.Pump, socket: W.State, flight: Option<nat>)

  datatype Step =
    | Pump(pumpStep: P.Step)
    | Shoot(connected: bool, shot: P.Shot, connectedAfter: bool)
    | Socket(socketStep: W.Step, stillConnected: bool)

  /** What `socket.send` does with a frame: it throws in states 2 and 3, completes at
      once when the frame fits the allowance, and queues it otherwise. */
  function SendOutcome(before: W.State, after: W.State): P.SendResult {
    if !(before.phase.Connecting? || before.phase.Open?) then P.Throws
    else if after.sent > before.sent then P.Immediate
    else P.Queued
  }

  predicate Enabled(s: State, step: Step) {
    match step
    case Pump(p) => (p.Tick? || p.SetFps? || p.FireWriteTimeout?) && P.Enabled(s.pump, p)
    case Shoot(_, _, _) => P.Due(s.pump.timer, s.pump.now)
    case Socket(w, _) => W.Enabled(s.socket, w)
  }

  function FrameMessage(shot: P.Shot): W.Message {
    W.Message(if shot.Frame? then shot.bytes else [], W.Binary, W.BySend)
  }

  /** `sendFrame` on this socket. */
  function ShootApply(s: State, connected: bool, shot: P.Shot, connectedAfter: bool, client: W.Client): State
  {
    if !connected || !P.Sendable(s.pump.camera, shot) then
      s.(pump := P.SendFrame(s.pump, connected, shot, P.Throws, connectedAfter))
    else
      var send := W.Send(FrameMessage(shot));
      var socket := if W.Enabled(s.socket, send) then W.Apply(s.socket, send, client) else s.socket;
      var outcome := SendOutcome(s.socket, socket);
      State(P.SendFrame(s.pump, connected, shot, outcome, connectedAfter), socket,
        if outcome.Queued? then Some(|s.socket.accepted|) else s.flight)
  }

  /** A socket event; when the message of the frame in flight leaves the queue, the
      pump gets the callback the queue gives it. */
  function SocketApply(s: State, step: W.Step, connected: bool, client: W.Client): State
    requires W.Enabled(s.socket, step)
  {
    var socket := W.Apply(s.socket, step, client);
    if s.flight.Some? && W.Settled(socket) > s.flight.value && s.pump.pending.Some? then
      var answered := P.Apply(s.pump,
        if W.Failed(s.flight.value) in socket.answers then P.Error else P.Complete(connected));
      State(answered, socket, None)
    else s.(socket := socket)
  }

  function Apply(s: State, step: Step, client: W.Client): State
    requires Enabled(s, step)
  {
    match step
    case Pump(p) => s.(pump := P.Apply(s.pump, p))
    case Shoot(connected, shot, connectedAfter) => ShootApply(s, connected, shot, connectedAfter, client)
    case Socket(w, connected) => SocketApply(s, w, connected, client)
  }

  /** The pump waits for an answer exactly while its message is queued. */
  ghost predicate Inv(s: State) {
    && P.Inv(s.pump) && W.Inv(s.socket)
    && (s.flight.Some? <==> s.pump.pending.Some?)
    && (s.flight.Some? ==>
        && W.Settled(s.socket) <= s.flight.value < |s.socket.accepted|
        && s.socket.accepted[s.flight.value].via.BySend?)
  }

  lemma {:induction false} PumpKeepsInv(s: State, step: P.Step)
    requires Inv(s) && (step.Tick? || step.SetFps? || step.FireWriteTimeout?) && P.Enabled(s.pump, step)
    ensures Inv(s.(pump := P.Apply(s.pump, step)))
  {
    P.StepKeepsInv(s.pump, step);
  }

  lemma {:induction false} ShootKeepsInv(s: State, connected: bool, shot: P.Shot, connectedAfter: bool,
                                         client: W.Client)
    requires Inv(s) && P.Due(s.pump.timer, s.pump.now)
    ensures Inv(ShootApply(s, connected, shot, connectedAfter, client))
  {
    var t := ShootApply(s, connected, shot, connectedAfter, client);
    if !connected || !P.Sendable(s.pump.camera, shot) {
      P.SendKeepsInv(s.pump, connected, shot, P.Throws, connectedAfter);
    } else {
      var send := W.Send(FrameMessage(shot));
      if W.Enabled(s.socket, send) {
        W.StepKeepsInv(s.socket, send, client);
      }
      P.SendKeepsInv(s.pump, connected, shot, SendOutcome(s.socket, t.socket), connectedAfter);
    }
  }

  /** What is accepted stays accepted. */
  lemma AcceptedStays(s: W.State, step: W.Step, client: W.Client)
    requires W.Inv(s) && W.Enabled(s, step)
    ensures W.Inv(W.Apply(s, step, client)) && s.accepted <= W.Apply(s, step, client).accepted
  {
    W.StepKeepsInv(s, step, client);
  }

  /** Either answer leaves no frame in flight. */
  lemma AnswerKeepsPump(p: P.Pump, failed: bool, connected: bool)
    requires P.Inv(p) && p.pending.Some?
    ensures P.Inv(P.Apply(p, if failed then P.Error else P.Complete(connected)))
    ensures P.Apply(p, if failed then P.Error else P.Complete(connected)).pending.None?
  {
    P.StepKeepsInv(p, if failed then P.Error else P.Complete(connected));
  }

  lemma {:induction false} SocketKeepsInv(s: State, step: W.Step, connected: bool, client: W.Client)
    requires Inv(s) && W.Enabled(s.socket, step)
    ensures Inv(SocketApply(s, step, connected, client))
  {
    AcceptedStays(s.socket, step, client);
    if s.flight.Some? {
      AnswerKeepsPump(s.pump, true, connected);
      AnswerKeepsPump(s.pump, false, connected);
    }
  }

  lemma {:induction false} StepKeepsInv(s: State, step: Step, client: W.Client)
    requires Inv(s) && Enabled(s, step)
    ensures Inv(Apply(s, step, client))
  {
    match step
    case Pump(p) => PumpKeepsInv(s, p);
    case Shoot(connected, shot, connectedAfter) => ShootKeepsInv(s, connected, shot, connectedAfter, client);
    case Socket(w, connected) => SocketKeepsInv(s, w, connected, client);
  }

  function Exec(s: State, steps: seq<Step>, client: W.Client): State
    decreases |steps|
  {
    if steps == [] then s
    else Exec(if Enabled(s, steps[0]) then Apply(s, steps[0], client) else s, steps[1..], client)
  }

  lemma {:induction false} RunKeepsInv(s: State, steps: seq<Step>, client: W.Client)
    requires Inv(s)
    ensures Inv(Exec(s, steps, client))
    decreases |steps|
  {
    if steps != [] {
      if Enabled(s, steps[0]) {
        StepKeepsInv(s, steps[0], client);
        RunKeepsInv(Apply(s, steps[0], client), steps[1..], client);
      } else {
        RunKeepsInv(s, steps[1..], client);
      }
    }
  }

  function Start(camera: P.Camera, interval: nat, now: int, connected: bool): (s: State)
    ensures Inv(s)
  {
    P.StartInv(camera, interval, now, connected);
    State(P.Start(camera, interval, now, connected), W.INITIAL, None)
  }

  /** Over the real queue, in every run: each OV2640 frame is closed exactly once
      except the one in flight, and that one's message is still queued and still
      unanswered, so its close is owed. */
  lemma FramesAreClosedOnce(camera: P.Camera, interval: nat, now: int, connected: bool,
                            steps: seq<Step>, client: W.Client, frame: nat)
    ensures var s := Exec(Start(camera, interval, now, connected), steps, client);
      frame < |s.pump.closes| ==>
        if s.pump.camera.OV2640? && s.pump.pending == Some(frame) then
          && s.pump.closes[frame] == 0
          && s.flight.Some?
          && W.Settled(s.socket) <= s.flight.value < |s.socket.accepted|
          && W.Completed(s.flight.value) !in s.socket.answers
          && W.Failed(s.flight.value) !in s.socket.answers
        else s.pump.closes[frame] == 1
  {
    RunKeepsInv(Start(camera, interval, now, connected), steps, client);
    var s := Exec(Start(camera, interval, now, connected), steps, client);
    if s.flight.Some? {
      W.OwedKind(s.socket.accepted, s.socket.sent, W.Settled(s.socket), s.flight.value);
    }
  }

  /** Once the socket has failed and drained, every frame ever taken has been closed
      exactly once and no write is in flight, whether or not the pump had timed out. */
  lemma FailureReleasesFrames(camera: P.Camera, interval: nat, now: int, connected: bool,
                              steps: seq<Step>, client: W.Client)
    ensures var s := Exec(Start(camera, interval, now, connected), steps, client);
      s.socket.phase.Closed? && s.socket.queue == [] ==>
        && s.pump.pending.None?
        && forall frame | 0 <= frame < |s.pump.closes| :: s.pump.closes[frame] == 1
  {
    RunKeepsInv(Start(camera, interval, now, connected), steps, client);
  }
}
