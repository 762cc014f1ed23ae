/** The end of a TCP connection: a close leads to FINAL in bounded time, and a writer
    that still waits for credit then waits for ever. */
module TcpEndings {
  import opened Basics
  import opened TcpRecords
  import opened TcpStreams
  import opened TcpWriters

  /** A run of one step and then others. */
  lemma RunOne(s: State, step: Step, rest: seq<Step>)
    ensures Exec(s, [step] + rest) == Exec(if Enabled(s, step) then Apply(s, step) else s, rest)
  {
    assert ([step] + rest)[1..] == rest;
  }

  lemma {:induction false} RunBoth(s: State, a: seq<Step>, b: seq<Step>)
    ensures Exec(s, a + b) == Exec(Exec(s, a), b)
    decreases |a|
  {
    if a == [] {
      assert a + b == b;
    } else {
      assert a == [a[0]] + a[1..] && a + b == [a[0]] + (a[1..] + b);
      RunOne(s, a[0], a[1..]);
      RunOne(s, a[0], a[1..] + b);
      RunBoth(if Enabled(s, a[0]) then Apply(s, a[0]) else s, a[1..], b);
    }
  }

  /** A writer that waits for credit when FINAL has been delivered waits for ever:
      its chunk is neither written nor refused, whatever happens next. */
  lemma {:induction false} BlockedAtTheEndStaysBlocked(s: State, steps: seq<Step>)
    requires Inv(s) && !s.live && Blocked(s)
    ensures var t := Exec(s, steps);
      Blocked(t) && t.current == s.current && t.written == s.written && !t.live
    decreases |steps|
  {
    if steps != [] {
      if Enabled(s, steps[0]) {
        InvKept(s, steps[0]);
        EndedTurn(s, steps[0]);
        BlockedAtTheEndStaysBlocked(Apply(s, steps[0]), steps[1..]);
      } else {
        BlockedAtTheEndStaysBlocked(s, steps[1..]);
      }
    }
  }

  lemma {:induction false} EndedTurn(s: State, step: Step)
    requires Inv(s) && !s.live && Blocked(s) && Enabled(s, step)
    ensures var t := Apply(s, step);
      t.writableLength == 0 && t.current == s.current && t.written == s.written && !t.live
  {
  }

  /** The chunk of `write` is written out, or refused. */
  ghost predicate Settles(s: State, steps: seq<Step>) {
    Exec(s, steps).current == []
  }

  /** After FINAL the chunk of a writer is settled (it is refused) exactly if the
      writer still has credit; without credit it waits for ever. */
  lemma {:induction false} SettledIffCredit(s: State)
    requires Inv(s) && !s.live && s.current != []
    ensures (exists steps :: Settles(s, steps)) <==> s.writableLength > 0
  {
    if s.writableLength > 0 {
      var idle := Exec(s, [JsCallback(false)]);
      RunOne(s, JsCallback(false), []);
      RunOne(idle, JsWriteCheck, []);
      RunBoth(s, [JsCallback(false)], [JsWriteCheck]);
      assert Settles(s, [JsCallback(false)] + [JsWriteCheck]);
    } else {
      forall steps
        ensures !Settles(s, steps)
      {
        BlockedAtTheEndStaysBlocked(s, steps);
      }
    }
  }

  /** A connection that opens, whether or not the reader wants data at the callbacks. */
  function ToOpen(wants: bool): seq<Step> {
    [TaskConnect(true), TaskOpen, TaskTrigger, TaskPost, JsDeliver, JsCallback(wants), JsCallback(wants)]
  }

  const CONNECTED := INITIAL.(rec := Opened(EMPTY_RECORD), task := Triggering(WRITABLE, ToLoop))

  /** The worker is in its loop, and the message that tells JS is posted. */
  const TOLD := INITIAL.(rec := Opened(EMPTY_RECORD).(pending := WRITABLE), task := Looping, msgs := 1)

  /** The streams have just been handed out. */
  const OPEN := INITIAL.(rec := Opened(EMPTY_RECORD), task := Looping, writableLength := TCP_BUFFER_SIZE, ready := true)

  lemma TaskConnects(rest: seq<Step>)
    ensures Exec(INITIAL, [TaskConnect(true)] + ([TaskOpen] + rest)) == Exec(CONNECTED, rest)
  {
    var a := Apply(INITIAL, TaskConnect(true));
    RunOne(INITIAL, TaskConnect(true), [TaskOpen] + rest);
    RunOne(a, TaskOpen, rest);
  }

  lemma TaskTells(s: State, rest: seq<Step>)
    requires s == CONNECTED
    ensures Exec(s, [TaskTrigger] + ([TaskPost] + rest)) == Exec(TOLD, rest)
  {
    var a := Apply(s, TaskTrigger);
    RunOne(s, TaskTrigger, [TaskPost] + rest);
    RunOne(a, TaskPost, rest);
  }

  lemma JsOpens(wants: bool)
    ensures Exec(TOLD, [JsDeliver] + ([JsCallback(wants)] + ([JsCallback(wants)] + []))) == OPEN
  {
    var a := Apply(TOLD, JsDeliver);
    var b := Apply(a, JsCallback(wants));
    RunOne(TOLD, JsDeliver, [JsCallback(wants)] + ([JsCallback(wants)] + []));
    RunOne(a, JsCallback(wants), [JsCallback(wants)] + []);
    RunOne(b, JsCallback(wants), []);
  }

  lemma OpeningRun(wants: bool)
    ensures Exec(INITIAL, ToOpen(wants)) == OPEN
  {
    var rest := [JsDeliver] + ([JsCallback(wants)] + ([JsCallback(wants)] + []));
    TaskConnects([TaskTrigger] + ([TaskPost] + rest));
    TaskTells(CONNECTED, rest);
    JsOpens(wants);
    assert ToOpen(wants) == [TaskConnect(true)] + ([TaskOpen] + ([TaskTrigger] + ([TaskPost] + rest)));
  }

  /** One chunk fills the ring. */
  lemma FillingRun(chunk: seq<byte>)
    requires |chunk| > TCP_BUFFER_SIZE
    ensures var s := Exec(OPEN, [JsWrite(chunk), JsWriteCheck, JsWriteTake]);
      && s == OPEN.(rec := s.rec, accepted := chunk, written := chunk[..TCP_BUFFER_SIZE],
        current := chunk[TCP_BUFFER_SIZE..], writableLength := 0)
      && s.rec == OPEN.rec.(tx := chunk[..TCP_BUFFER_SIZE])
  {
    var a := Apply(OPEN, JsWrite(chunk));
    var b := Apply(a, JsWriteCheck);
    assert [JsWrite(chunk), JsWriteCheck, JsWriteTake] == [JsWrite(chunk)] + ([JsWriteCheck] + ([JsWriteTake] + []));
    RunOne(OPEN, JsWrite(chunk), [JsWriteCheck] + ([JsWriteTake] + []));
    RunOne(a, JsWriteCheck, [JsWriteTake] + []);
    RunOne(b, JsWriteTake, []);
    assert OPEN.accepted + chunk == chunk && OPEN.written + chunk[..TCP_BUFFER_SIZE] == chunk[..TCP_BUFFER_SIZE];
    assert OPEN.rec.tx + chunk[..TCP_BUFFER_SIZE] == chunk[..TCP_BUFFER_SIZE];
  }

  const ENDING := [JsClose, TaskTake, TaskLeave, TaskUnregister]
    + [TaskTrigger, TaskPost, JsDeliver, JsCallback(true)]

  /** From an idle connection, a close and what follows from it. */
  lemma EndingRun(s: State)
    requires s.live && s.hostData && s.registered && s.js.Idle? && s.task.Looping? && s.msgs == 0
    requires s.rec.pending == NOTHING && s.rec.error == 0
    ensures var t := Exec(s, ENDING);
      !t.live && t.current == s.current && t.writableLength == s.writableLength && t.accepted == s.accepted
  {
    var a := Apply(s, JsClose);
    var b := Apply(a, TaskTake);
    var c := Apply(b, TaskLeave);
    var d := Apply(c, TaskUnregister);
    assert [JsClose, TaskTake, TaskLeave, TaskUnregister] ==
      [JsClose] + ([TaskTake] + ([TaskLeave] + ([TaskUnregister] + [])));
    RunOne(s, JsClose, [TaskTake] + ([TaskLeave] + ([TaskUnregister] + [])));
    RunOne(a, TaskTake, [TaskLeave] + ([TaskUnregister] + []));
    RunOne(b, TaskLeave, [TaskUnregister] + []);
    RunOne(c, TaskUnregister, []);
    RunBoth(s, [JsClose, TaskTake, TaskLeave, TaskUnregister], [TaskTrigger, TaskPost, JsDeliver, JsCallback(true)]);
    FinalRun(d);
  }

  lemma FinalRun(d: State)
    requires d.live && d.hostData && d.js.Idle? && d.msgs == 0 && d.rec.pending == NOTHING
    requires d.task == Triggering(Events(false, false, false, true), ToGone)
    ensures var t := Exec(d, [TaskTrigger, TaskPost, JsDeliver, JsCallback(true)]);
      !t.live && t.current == d.current && t.writableLength == d.writableLength && t.accepted == d.accepted
  {
    var e := Apply(d, TaskTrigger);
    var f := Apply(e, TaskPost);
    var g := Apply(f, JsDeliver);
    assert [TaskTrigger, TaskPost, JsDeliver, JsCallback(true)]
        == [TaskTrigger] + ([TaskPost] + ([JsDeliver] + ([JsCallback(true)] + [])));
    RunOne(d, TaskTrigger, [TaskPost] + ([JsDeliver] + ([JsCallback(true)] + [])));
    RunOne(e, TaskPost, [JsDeliver] + ([JsCallback(true)] + []));
    RunOne(f, JsDeliver, [JsCallback(true)] + []);
    RunOne(g, JsCallback(true), []);
  }

  /** Such a writer: a chunk longer than the ring, written to an open connection that is
      then closed. Whatever happens later, the rest of it stays where it is. */
  lemma LongChunkIsStranded(wants: bool, chunk: seq<byte>, later: seq<Step>)
    requires |chunk| > TCP_BUFFER_SIZE
    ensures var steps := ToOpen(wants) + ([JsWrite(chunk), JsWriteCheck, JsWriteTake] + ENDING);
      var s := Exec(INITIAL, steps + later);
      !s.live && s.current == chunk[TCP_BUFFER_SIZE..] && Blocked(s)
  {
    var filling := [JsWrite(chunk), JsWriteCheck, JsWriteTake];
    var steps := ToOpen(wants) + (filling + ENDING);
    StrandingRun(wants, chunk);
    RunBoth(INITIAL, steps, later);
    Initially();
    RunKeepsInv(INITIAL, steps);
    BlockedAtTheEndStaysBlocked(Exec(INITIAL, steps), later);
  }

  lemma StrandingRun(wants: bool, chunk: seq<byte>)
    requires |chunk| > TCP_BUFFER_SIZE
    ensures var s := Exec(INITIAL, ToOpen(wants) + ([JsWrite(chunk), JsWriteCheck, JsWriteTake] + ENDING));
      !s.live && s.current == chunk[TCP_BUFFER_SIZE..] && Blocked(s) && s.accepted == chunk
  {
    var filling := [JsWrite(chunk), JsWriteCheck, JsWriteTake];
    OpeningRun(wants);
    FillingRun(chunk);
    RunBoth(INITIAL, ToOpen(wants), filling + ENDING);
    RunBoth(OPEN, filling, ENDING);
    EndingRun(Exec(OPEN, filling));
  }

  // ------------------------------------------------------------------ a close ends

  /** The connection is on its way out. */
  predicate Ending(s: State) {
    s.rec.closing || s.task.Exiting()
  }

  /** Worker steps before it is gone. */
  function StepsToGone(t: Task): nat {
    match t
    case Gone => 0
    case Posting(ToGone) => 1
    case Triggering(_, ToGone) => 2
    case Unregistering(_) => 3
    case Leaving => 4
    case Looping => 5
    case Opening => 5
    case Connecting => 6
    case Posting(ToLoop) => 6
    case Triggering(_, ToLoop) => 7
    case Storing(_) => 8
    case Receiving(_) => 9
    case Sizing => 10
    case Posting(ToReceive) => 11
    case Triggering(_, ToReceive) => 12
    case Sending(_) => 13
  }

  function CallbackTurns(events: Events): nat {
    (if events.readable then 3 else 0) + (if events.writable then 1 else 0)
    + (if events.error then 1 else 0) + (if events.final then 1 else 0)
  }

  /** JS turns before the machine is between two messages. */
  function TurnsToIdle(js: Js, readableLength: nat): nat {
    match js
    case Idle => if readableLength > 0 then 3 else 0
    case Callbacks(events, _, _) =>
      CallbackTurns(events) + 1 + (if readableLength > 0 || events.readable then 3 else 0)
    case Reading(_, events, _) => CallbackTurns(events) + 2
    case Writing(_) => if readableLength > 0 then 3 else 0
  }

  /** Bounds the turns before FINAL has been delivered. */
  function EndRank(s: State): nat {
    if !s.live then 0
    else if !s.task.Gone? then 40 + StepsToGone(s.task)
    else if Todo(s.js).final then
      (match s.js
       case Callbacks(events, _, _) => CallbackTurns(events)
       case Reading(_, events, _) => CallbackTurns(events) + 1
       case _ => 0)
    else 10 + TurnsToIdle(s.js, s.readableLength)
  }

  /** The worker's turns until it is gone, and then the deliveries, callbacks and reads of
      the machine. */
  predicate EndTurn(s: State, step: Step) {
    if !s.task.Gone? then ByTask(step) else step.JsDeliver? || step.JsCallback? || step.JsReadTake?
  }

  predicate Advances(s: State, t: State, step: Step) {
    && Ending(t) && EndRank(t) <= EndRank(s)
    && (s.live && EndTurn(s, step) ==> EndRank(t) < EndRank(s))
  }

  lemma {:induction false} TaskAdvances(s: State, step: Step)
    requires Inv(s) && Ending(s) && Enabled(s, step) && ByTask(step)
    ensures Advances(s, Apply(s, step), step)
  {
    if Transmits(step) {
      TransmitAdvances(s, step);
    } else if Receives(step) {
      ReceiveAdvances(s, step);
    } else {
      SignalAdvances(s, step);
    }
  }

  lemma {:induction false} TransmitAdvances(s: State, step: Step)
    requires Inv(s) && Ending(s) && Enabled(s, step) && Transmits(step)
    ensures Advances(s, Apply(s, step), step)
  {
  }

  lemma {:induction false} ReceiveAdvances(s: State, step: Step)
    requires Inv(s) && Ending(s) && Enabled(s, step) && Receives(step)
    ensures Advances(s, Apply(s, step), step)
  {
  }

  lemma {:induction false} SignalAdvances(s: State, step: Step)
    requires Inv(s) && Ending(s) && Enabled(s, step) && Signals(step)
    ensures Advances(s, Apply(s, step), step)
  {
    if step.TaskTrigger? {
      TriggerAdvances(s);
    } else if step.TaskPost? {
      PostAdvances(s);
    }
  }

  lemma {:induction false} TriggerAdvances(s: State)
    requires Inv(s) && Ending(s) && s.task.Triggering?
    ensures Advances(s, Apply(s, TaskTrigger), TaskTrigger)
  {
  }

  lemma {:induction false} PostAdvances(s: State)
    requires Inv(s) && Ending(s) && s.task.Posting?
    ensures Advances(s, Apply(s, TaskPost), TaskPost)
  {
  }

  lemma {:induction false} ReadableAdvances(s: State, wants: bool)
    requires Inv(s) && Ending(s) && s.js.Callbacks? && s.js.events.readable
    ensures Advances(s, Callback(s, wants), JsCallback(wants))
  {
    ReadableShape(s, wants);
  }

  lemma {:induction false} LaterAdvances(s: State, wants: bool)
    requires Inv(s) && Ending(s) && s.js.Callbacks? && !s.js.events.readable
    ensures Advances(s, Callback(s, wants), JsCallback(wants))
  {
    if s.js.events.writable {
      var t := CallWritable(s);
      assert t.rec == s.rec && t.task == s.task && t.live == s.live && t.readableLength == s.readableLength;
    }
  }

  lemma {:induction false} CallbackAdvances(s: State, wants: bool)
    requires Inv(s) && Ending(s) && s.js.Callbacks?
    ensures Advances(s, Callback(s, wants), JsCallback(wants))
  {
    if s.js.events.readable {
      ReadableAdvances(s, wants);
    } else {
      LaterAdvances(s, wants);
    }
  }

  lemma {:induction false} JsAdvances(s: State, step: Step)
    requires Inv(s) && Ending(s) && Enabled(s, step) && !ByTask(step)
    ensures Advances(s, Apply(s, step), step)
  {
    if step.JsCallback? {
      CallbackAdvances(s, step.wants);
    } else {
      var t := Apply(s, step);
      assert t.task == s.task && t.live == s.live;
    }
  }

  function EndTurns(s: State, steps: seq<Step>): nat
    decreases |steps|
  {
    if steps == [] || !s.live then 0
    else if !Enabled(s, steps[0]) then EndTurns(s, steps[1..])
    else (if EndTurn(s, steps[0]) then 1 else 0) + EndTurns(Apply(s, steps[0]), steps[1..])
  }

  /** A close ends: once it is requested, or the worker has failed, FINAL is delivered
      within 53 turns of the worker and then of the machine, in every interleaving. */
  lemma {:induction false} CloseEnds(s: State, steps: seq<Step>)
    requires Inv(s) && Ending(s)
    ensures EndTurns(s, steps) <= EndRank(s) <= 53
    decreases |steps|
  {
    if steps != [] && s.live {
      var step, rest := steps[0], steps[1..];
      if Enabled(s, step) {
        InvKept(s, step);
        if ByTask(step) {
          TaskAdvances(s, step);
        } else {
          JsAdvances(s, step);
        }
        CloseEnds(Apply(s, step), rest);
      } else {
        CloseEnds(s, rest);
      }
    }
  }

  /** While FINAL is to come, such a turn can be taken, or one write finished first. */
  lemma EndTurnIsEnabled(s: State)
    requires Inv(s) && Ending(s) && s.live
    ensures exists step :: Enabled(s, step) && (EndTurn(s, step) || step.JsWriteTake?)
  {
    if !s.task.Gone? {
      var step := match s.task
        case Connecting => TaskConnect(true)
        case Opening => TaskOpen
        case Looping => TaskTake
        case Sending(_) => TaskSend(true)
        case Sizing => TaskSize
        case Receiving(_) => TaskReceive(Quiet)
        case Storing(_) => TaskStore
        case Triggering(_, _) => TaskTrigger
        case Posting(_) => TaskPost
        case Leaving => TaskLeave
        case Unregistering(_) => TaskUnregister
        case Gone => TaskPost;
      assert Enabled(s, step) && EndTurn(s, step);
    } else if s.js.Writing? {
      assert Enabled(s, JsWriteTake);
    } else {
      var step := match s.js
        case Idle => JsDeliver
        case Callbacks(_, _, _) => JsCallback(true)
        case Reading(_, _, _) => JsReadTake
        case Writing(_) => JsWriteTake;
      assert Enabled(s, step) && EndTurn(s, step);
    }
  }
}
