/** The stream writer of a TCP connection: while it waits for credit it is woken, and
    without interruption it fills the ring. */
module TcpWriters {
  import opened Basics
  import opened TcpRecords
  import opened TcpStreams

  // ------------------------------------------------- a blocked writer is woken

  /** The write loop waits for credit. */
  predicate Blocked(s: State) {
    s.current != [] && s.writableLength == 0
  }

  /** The worker keeps succeeding and nobody asks for the connection to close. */
  predicate Healthy(s: State) {
    s.live && !s.rec.closing && !s.task.Exiting()
  }

  predicate HealthyStep(step: Step) {
    && !step.JsClose? && !step.ManagerClose?
    && step != TaskConnect(false) && step != TaskSend(false) && step != TaskReceive(Broken)
  }

  /** Worker steps before the next pass over the transmit ring. */
  function StepsToTake(t: Task): nat {
    match t
    case Connecting => 11
    case Opening => 10
    case Sending(_) => 9
    case Triggering(_, ToReceive) => 8
    case Posting(ToReceive) => 7
    case Sizing => 6
    case Receiving(_) => 5
    case Storing(_) => 4
    case Triggering(_, _) => 3
    case Posting(_) => 2
    case _ => 1
  }

  /** Worker steps before WRITABLE is in the mask. */
  function StepsToTrigger(t: Task): nat {
    match t
    case Connecting => 3
    case Opening => 2
    case Sending(_) => 2
    case _ => 1
  }

  /** JS turns before the machine can take the delivery message. */
  function TurnsToDeliver(js: Js, readableLength: nat): nat {
    match js
    case Idle => if readableLength > 0 then 6 else 0
    case Callbacks(events, _, _) => (if readableLength > 0 then 7 else 1) + Weight(events)
    case Reading(_, events, _) => 2 + Weight(events)
    case Writing(_) => 0
  }

  function Weight(events: Events): nat {
    (if events.readable then 7 else 0) + (if events.writable then 1 else 0)
    + (if events.error then 1 else 0) + (if events.final then 1 else 0)
  }

  /** Bounds the turns still owed to a blocked writer. */
  function Rank(s: State): nat {
    if s.rec.TxFree() == 0 then 200 + StepsToTake(s.task)
    else if ToldWritable(s) > 0 then
      if s.js.Callbacks? then (if s.js.events.readable then 3 else 1) else 2
    else if s.rec.pending.writable then
      4 + TurnsToDeliver(s.js, s.readableLength) + (if s.task.Posting? then 50 else 0)
    else 100 + StepsToTrigger(s.task)
  }

  /** Whose turn the writer is waiting for. */
  predicate WaitsForTask(s: State) {
    || s.rec.TxFree() == 0
    || (ToldWritable(s) == 0 && (!s.rec.pending.writable || s.task.Posting?))
  }

  predicate Helpful(s: State, step: Step) {
    WaitsForTask(s) == ByTask(step)
  }

  /** One enabled step of the party the writer waits for. */
  function Turn(s: State): Step {
    if WaitsForTask(s) then
      match s.task
      case Connecting => TaskConnect(true)
      case Opening => TaskOpen
      case Looping => TaskTake
      case Sending(_) => TaskSend(true)
      case Sizing => TaskSize
      case Receiving(_) => TaskReceive(Quiet)
      case Storing(_) => TaskStore
      case Triggering(_, _) => TaskTrigger
      case Posting(_) => TaskPost
      case Leaving => TaskLeave
      case Unregistering(_) => TaskUnregister
      case Gone => TaskPost
    else
      match s.js
      case Idle => JsDeliver
      case Callbacks(_, _, _) => JsCallback(true)
      case Reading(_, _, _) => JsReadTake
      case Writing(_) => JsWriteTake
  }

  /** That party is never itself stuck. */
  lemma TurnIsEnabled(s: State)
    requires Inv(s) && Blocked(s) && Healthy(s)
    ensures Enabled(s, Turn(s)) && HealthyStep(Turn(s)) && Helpful(s, Turn(s))
  {
  }

  lemma RankBound(s: State)
    ensures Rank(s) <= 211
  {
  }

  /** The writer is not set back, and is closer if it was the worker's turn. */
  predicate Progresses(s: State, t: State) {
    && Blocked(t) && Healthy(t) && Rank(t) <= Rank(s)
    && (WaitsForTask(s) ==> Rank(t) < Rank(s))
  }

  lemma {:induction false} TurnByTransmit(s: State, step: Step)
    requires Inv(s) && Blocked(s) && Healthy(s)
    requires Enabled(s, step) && HealthyStep(step) && Transmits(step)
    ensures Progresses(s, Apply(s, step))
  {
    var t := Apply(s, step);
    assert t.js == s.js && ToldWritable(t) == ToldWritable(s);
  }

  lemma {:induction false} TurnByReceive(s: State, step: Step)
    requires Inv(s) && Blocked(s) && Healthy(s)
    requires Enabled(s, step) && HealthyStep(step) && Receives(step)
    ensures Progresses(s, Apply(s, step))
  {
    if step.TaskStore? {
      TurnByStore(s);
    } else if step.TaskSize? {
      TurnBySize(s);
    } else {
      var t := Apply(s, step);
      assert t.js == s.js && ToldWritable(t) == ToldWritable(s);
    }
  }

  lemma {:induction false} TurnBySize(s: State)
    requires Inv(s) && Blocked(s) && Healthy(s) && s.task.Sizing?
    ensures Progresses(s, Apply(s, TaskSize))
  {
    var t := Apply(s, TaskSize);
    assert t.js == s.js && ToldWritable(t) == ToldWritable(s);
  }

  lemma {:induction false} TurnByStore(s: State)
    requires Inv(s) && Blocked(s) && Healthy(s) && s.task.Storing?
    ensures Progresses(s, Apply(s, TaskStore))
  {
    var t := Apply(s, TaskStore);
    assert t.js == s.js && ToldWritable(t) == ToldWritable(s);
  }

  lemma {:induction false} TurnBySignal(s: State, step: Step)
    requires Inv(s) && Blocked(s) && Healthy(s)
    requires Enabled(s, step) && HealthyStep(step) && Signals(step)
    ensures Progresses(s, Apply(s, step))
  {
    var t := Apply(s, step);
    assert t.js == s.js && ToldWritable(t) == ToldWritable(s);
  }

  lemma {:induction false} TaskTurn(s: State, step: Step)
    requires Inv(s) && Blocked(s) && Healthy(s)
    requires Enabled(s, step) && HealthyStep(step) && ByTask(step)
    ensures Progresses(s, Apply(s, step))
  {
    if Transmits(step) {
      TurnByTransmit(s, step);
    } else if Receives(step) {
      TurnByReceive(s, step);
    } else {
      TurnBySignal(s, step);
    }
  }

  lemma {:induction false} ReadableTurn(s: State, wants: bool)
    requires Inv(s) && Blocked(s) && Healthy(s)
    requires s.js.Callbacks? && s.js.events.readable
    ensures var t := CallReadable(s, wants);
      && Blocked(t) && Healthy(t) && Rank(t) <= Rank(s)
      && (!WaitsForTask(s) ==> Rank(t) < Rank(s))
  {
    var t := CallReadable(s, wants);
    assert t.rec == s.rec && t.task == s.task;
    assert ToldWritable(t) == ToldWritable(s);
  }

  lemma {:induction false} CallbackTurn(s: State, wants: bool)
    requires Inv(s) && Blocked(s) && Healthy(s) && s.js.Callbacks?
    ensures var t := Callback(s, wants);
      && (Blocked(t) ==> Healthy(t) && Rank(t) <= Rank(s))
      && (Blocked(t) && !WaitsForTask(s) ==> Rank(t) < Rank(s))
  {
    if s.js.events.readable {
      ReadableTurn(s, wants);
    } else if s.js.events.writable {
      assert CallWritable(s).writableLength == s.js.writable;
    }
  }

  lemma {:induction false} JsTurn(s: State, step: Step)
    requires Inv(s) && Blocked(s) && Healthy(s)
    requires Enabled(s, step) && HealthyStep(step) && !ByTask(step)
    ensures var t := Apply(s, step);
      && (Blocked(t) ==> Healthy(t) && Rank(t) <= Rank(s))
      && (Blocked(t) && !WaitsForTask(s) ==> Rank(t) < Rank(s))
  {
    if step.JsCallback? {
      CallbackTurn(s, step.wants);
    }
  }

  /** Turns taken by the party the writer waits for, while it stays blocked. */
  function HelpfulTurns(s: State, steps: seq<Step>): nat
    decreases |steps|
  {
    if steps == [] || !Blocked(s) then 0
    else if !Enabled(s, steps[0]) then HelpfulTurns(s, steps[1..])
    else (if Helpful(s, steps[0]) then 1 else 0) + HelpfulTurns(Apply(s, steps[0]), steps[1..])
  }

  /** No lost wakeup over runs: in no interleaving does a writer stay blocked
      through more than 211 turns of the party it waits for, as long as the worker
      keeps succeeding and nobody closes. */
  lemma {:induction false} BlockedWriterIsWoken(s: State, steps: seq<Step>)
    requires Inv(s) && Healthy(s)
    requires forall step | step in steps :: HealthyStep(step)
    ensures HelpfulTurns(s, steps) <= Rank(s) <= 211
    decreases |steps|
  {
    RankBound(s);
    if steps != [] && Blocked(s) {
      var rest := steps[1..];
      if Enabled(s, steps[0]) {
        InvKept(s, steps[0]);
        if ByTask(steps[0]) {
          TaskTurn(s, steps[0]);
        } else {
          JsTurn(s, steps[0]);
        }
        if Blocked(Apply(s, steps[0])) {
          BlockedWriterIsWoken(Apply(s, steps[0]), rest);
        }
      } else {
        BlockedWriterIsWoken(s, rest);
      }
    }
  }

  // -------------------------------------------------- the write loop by itself

  /** One turn of the loop in `write`. */
  function WriteRound(s: State): State {
    Exec(s, [JsWriteCheck, JsWriteTake])
  }

  /** What the loop can write before it waits. */
  function Writable(s: State): int {
    if s.writableLength == 0 then 0 else Min(|s.current|, s.rec.TxFree())
  }

  lemma {:induction false} OneWriteRound(s: State)
    requires Inv(s) && s.live && s.rec.connected && s.js.Idle?
    ensures var t := WriteRound(s);
      var n := Min(s.writableLength, |s.current|);
      && t.rec == s.rec.(tx := s.rec.tx + s.current[..n]) && t.current == s.current[n..]
      && t.writableLength == (if n == 0 then s.writableLength else t.rec.TxFree())
      && t.live && t.js.Idle?
  {
    var after := if Enabled(s, JsWriteCheck) then Apply(s, JsWriteCheck) else s;
    assert [JsWriteCheck, JsWriteTake][1..] == [JsWriteTake] && [JsWriteTake][1..] == [];
    assert Exec(s, [JsWriteCheck, JsWriteTake]) == Exec(after, [JsWriteTake]);
    if !Enabled(s, JsWriteCheck) {
      assert s.rec.tx + s.current[..0] == s.rec.tx;
    }
  }

  lemma TwoParts(tx: seq<byte>, current: seq<byte>, n: nat, m: nat)
    requires n + m <= |current|
    ensures tx + current[..n] + current[n..][..m] == tx + current[..n + m]
    ensures current[n..][m..] == current[n + m..]
  {
  }

  /** The amounts of two turns: `credit` bytes were announced, `free` fit. */
  lemma TwoTurns(credit: int, free: int, length: int)
    requires 0 <= credit <= free && 0 <= length
    ensures var n := Min(credit, length);
      var left := if n == 0 then credit else free - n;
      var m := Min(left, length - n);
      && n + m == (if credit == 0 then 0 else Min(length, free))
      && (n + m < length ==> (if m == 0 then left else free - n - m) == 0)
  {
  }

  /** When nothing comes between, two turns of the loop write all that fits: the first
      is held to the last announced room, the second to the room just returned. */
  lemma {:induction false} UninterruptedWrites(s: State)
    requires Inv(s) && s.live && s.rec.connected && s.js.Idle?
    ensures var t := WriteRound(WriteRound(s));
      && t.rec == s.rec.(tx := s.rec.tx + s.current[..Writable(s)])
      && t.current == s.current[Writable(s)..]
      && (t.current != [] ==> t.writableLength == 0)
  {
    var first := WriteRound(s);
    assert Inv(first) by {
      RunKeepsInv(s, [JsWriteCheck, JsWriteTake]);
    }
    OneWriteRound(s);
    OneWriteRound(first);
    var n, m := Min(s.writableLength, |s.current|), Min(first.writableLength, |first.current|);
    TwoTurns(s.writableLength, s.rec.TxFree(), |s.current|);
    TwoParts(s.rec.tx, s.current, n, m);
  }
}
