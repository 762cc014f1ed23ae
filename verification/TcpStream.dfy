/** One TCP connection of the tailnet as a step system: the worker task of
    native/tailscale-native.c, the machine's delivery messages, the stream closure
    of modules/tailscale.js and the manager's close request, one step for each
    locked region, interleaved freely. */
module TcpStreams {
  import opened Basics
  import opened TcpRecords

  /** Where the worker goes once its trigger is done. */
  datatype Next = ToLoop | ToReceive | ToGone

  datatype Task =
    | Connecting
    | Opening
    | Looping
    | Sending(chunk: seq<byte>)
    | Sizing
    | Receiving(room: nat)
    | Storing(bytes: seq<byte>)
    | Triggering(events: Events, next: Next)
    | Posting(next: Next)
    | Leaving
    | Unregistering(explicitClose: bool)
    | Gone
  {
    /** The worker has left its loop for good. */
    predicate Exiting() {
      || Leaving? || Unregistering? || Gone?
      || (Triggering? && next.ToGone?) || (Posting? && next.ToGone?)
    }
  }

  /** The JS thread: `Callbacks` is a delivery in progress with the events it has
      not handled yet; `Reading` and `Writing` are between the size check of a
      native call and its ring operation. */
  datatype Js =
    | Idle
    | Callbacks(events: Events, readable: nat, writable: nat)
    | Reading(count: nat, events: Events, writable: nat)
    | Writing(count: nat)

  datatype Arrival = Got(bytes: seq<byte>) | Quiet | Broken

  datatype State = State(
    // the record and the pointers to it
    rec: Record, live: bool, registered: bool, hostData: bool,
    // the two threads and the message queue between them
    task: Task, js: Js, msgs: nat,
    // the variables of the stream closure; `current` is the unwritten rest of the chunk;
    // the user gets the streams when it is `ready`
    readableLength: nat, writableLength: nat, current: seq<byte>, ready: bool, writerBroken: bool,
    // history
    accepted: seq<byte>, written: seq<byte>, handed: seq<byte>,
    received: seq<byte>, enqueued: seq<byte>, finals: nat,
    // set by a step that would touch the freed record or overrun a ring, and by one
    // that "invalid read size" or "would block" answers
    fault: bool, refused: bool)
  {
    /** Every access to the record goes through here. */
    function Touch(): State {
      this.(fault := fault || !live)
    }
  }

  datatype Step =
    | TaskConnect(ok: bool)
    | TaskOpen
    | TaskTake
    | TaskSend(ok: bool)
    | TaskSize
    | TaskReceive(arrival: Arrival)
    | TaskStore
    | TaskTrigger
    | TaskPost
    | TaskLeave
    | TaskUnregister
    | JsDeliver
    | JsCallback(wants: bool)
    | JsReadTake
    | JsPull
    | JsWrite(chunk: seq<byte>)
    | JsWriteCheck
    | JsWriteTake
    | JsClose
    | ManagerClose

  const INITIAL := State(
    EMPTY_RECORD, true, true, true, Connecting, Idle, 0,
    0, 0, [], false, false, [], [], [], [], [], 0, false, false)

  predicate Enabled(s: State, step: Step) {
    match step
    case TaskConnect(_) => s.task.Connecting?
    case TaskOpen => s.task.Opening?
    case TaskTake => s.task.Looping?
    case TaskSend(_) => s.task.Sending?
    case TaskSize => s.task.Sizing?
    case TaskReceive(arrival) => s.task.Receiving? && (arrival.Got? ==> 0 < |arrival.bytes| <= s.task.room)
    case TaskStore => s.task.Storing?
    case TaskTrigger => s.task.Triggering?
    case TaskPost => s.task.Posting?
    case TaskLeave => s.task.Leaving?
    case TaskUnregister => s.task.Unregistering?
    case JsDeliver => s.js.Idle? && s.msgs > 0
    case JsCallback(_) => s.js.Callbacks?
    case JsReadTake => s.js.Reading?
    case JsPull => s.js.Idle? && s.readableLength > 0
    case JsWrite(_) => s.js.Idle? && s.ready && s.current == [] && !s.writerBroken
    case JsWriteCheck => s.js.Idle? && s.current != [] && s.writableLength > 0
    case JsWriteTake => s.js.Writing?
    case JsClose => s.js.Idle?
    case ManagerClose => s.registered
  }

  /** The size check of a native read of `readableLength` bytes; `events` and
      `writable` are what is left of the delivery it runs in. */
  function StartRead(s: State, events: Events, writable: nat): State {
    var rest := Callbacks(events, 0, writable);
    if !s.hostData then s.(readableLength := 0, js := rest)
    else
      match ReadCheck(s.rec, s.readableLength)
      case NothingThere => s.Touch().(readableLength := 0, js := rest)
      case BadSize => s.Touch().(refused := true, js := rest)
      case Fits => s.Touch().(js := Reading(s.readableLength, events, writable))
  }

  function CallReadable(s: State, wants: bool): State
    requires s.js.Callbacks?
  {
    var Callbacks(events, readable, writable) := s.js;
    var rest := events.(readable := false);
    if readable == 0 then s.(js := Callbacks(rest, 0, writable))
    else
      var told := s.(readableLength := readable);
      if wants then StartRead(told, rest, writable) else told.(js := Callbacks(rest, 0, writable))
  }

  function CallWritable(s: State): State
    requires s.js.Callbacks?
  {
    s.Touch().(js := Callbacks(s.js.events.(writable := false), 0, 0),
      writableLength := if s.rec.connected then s.js.writable else s.writableLength,
      ready := s.ready || s.rec.connected)
  }

  function CallError(s: State): State
    requires s.js.Callbacks?
  {
    s.Touch().(js := Callbacks(s.js.events.(error := false), 0, 0), writerBroken := true)
  }

  /** The host object lets go of the record, which is then freed. */
  function CallFinal(s: State): State
    requires s.js.Callbacks?
  {
    s.Touch().(js := Callbacks(NOTHING, 0, 0), live := false, hostData := false, finals := s.finals + 1)
  }

  /** The next callback of a delivery, in the order of `tcp_deliver`. */
  function Callback(s: State, wants: bool): State
    requires s.js.Callbacks?
  {
    if s.js.events.readable then CallReadable(s, wants)
    else if s.js.events.writable then CallWritable(s)
    else if s.js.events.error then CallError(s)
    else if s.js.events.final then CallFinal(s)
    else s.(js := Idle)
  }

  function TaskApply(s: State, step: Step): State
    requires Enabled(s, step)
  {
    match step
    case TaskConnect(ok) =>
      s.Touch().(task := if ok then Opening else Leaving, rec := s.rec.(error := if ok then s.rec.error else 1))
    case TaskOpen =>
      s.Touch().(rec := Opened(s.rec),
        task := if s.rec.closing then Leaving else Triggering(WRITABLE, ToLoop))
    case TaskTake =>
      var chunk := s.rec.tx[..ChunkSize(s.rec)];
      s.Touch().(rec := TookChunk(s.rec),
        task := if s.rec.closing then Leaving else if chunk == [] then Sizing else Sending(chunk))
    case TaskSend(ok) =>
      s.Touch().(handed := s.handed + s.task.chunk,
        rec := s.rec.(error := if ok then s.rec.error else 2),
        task := if ok then Triggering(WRITABLE, ToReceive) else Leaving)
    case TaskSize =>
      s.Touch().(task := if s.rec.RxFree() > 0 then Receiving(Min(s.rec.RxFree(), TCP_IO_CHUNK)) else Looping)
    case TaskReceive(arrival) =>
      (match arrival
       case Got(bytes) => s.Touch().(task := Storing(bytes), received := s.received + bytes)
       case Quiet => s.Touch().(task := Looping)
       case Broken => s.Touch().(task := Leaving, rec := s.rec.(error := 2)))
    case TaskStore =>
      if |s.task.bytes| > s.rec.RxFree() then s.(fault := true, task := Looping)
      else s.Touch().(rec := Stored(s.rec, s.task.bytes), task := Triggering(READABLE, ToLoop))
    case TaskTrigger =>
      var next := s.task.next;
      s.Touch().(rec := Triggered(s.rec, s.task.events),
        task := if !s.rec.pending.Any() then Posting(next) else After(next))
    case TaskPost =>
      s.Touch().(msgs := s.msgs + 1, task := After(s.task.next))
    case TaskLeave =>
      s.Touch().(rec := Left(s.rec), task := Unregistering(s.rec.closing))
    case TaskUnregister =>
      s.Touch().(registered := false,
        task := Triggering(Events(false, false, !s.task.explicitClose && s.rec.error != 0, true), ToGone))
    case _ => s
  }

  function After(next: Next): Task {
    match next
    case ToLoop => Looping
    case ToReceive => Sizing
    case ToGone => Gone
  }

  function Apply(s: State, step: Step): State
    requires Enabled(s, step)
  {
    match step
    case JsDeliver =>
      s.Touch().(msgs := s.msgs - 1, rec := Delivered(s.rec),
        js := Callbacks(s.rec.pending, |s.rec.rx|, if s.rec.TxFree() >= 0 then s.rec.TxFree() else 0))
    case JsCallback(wants) => Callback(s, wants)
    case JsReadTake =>
      var count := s.js.count;
      if count > |s.rec.rx| then s.(fault := true, js := Idle)
      else
        s.Touch().(rec := s.rec.(rx := s.rec.rx[count..]), enqueued := s.enqueued + s.rec.rx[..count],
          readableLength := 0, js := Callbacks(s.js.events, 0, s.js.writable))
    case JsPull => StartRead(s, NOTHING, 0)
    case JsWrite(chunk) => s.(current := chunk, accepted := s.accepted + chunk)
    case JsWriteCheck =>
      if !s.hostData then s.(writerBroken := true, current := [])
      else if !s.rec.connected then s.Touch().(writerBroken := true, current := [])
      else s.Touch().(js := Writing(Min(s.writableLength, |s.current|)))
    case JsWriteTake =>
      var count := s.js.count;
      if count > |s.current| then s.(fault := true, js := Idle)
      else if count > s.rec.TxFree() then s.Touch().(refused := true, writerBroken := true, current := [], js := Idle)
      else
        s.Touch().(rec := s.rec.(tx := s.rec.tx + s.current[..count]),
          written := s.written + s.current[..count], current := s.current[count..],
          writableLength := s.rec.TxFree() - count, js := Idle)
    case JsClose => if s.hostData then s.Touch().(rec := CloseRequested(s.rec)) else s
    case ManagerClose => s.Touch().(rec := CloseRequested(s.rec))
    case _ => TaskApply(s, step)
  }

  /** A run: steps that are not enabled when their turn comes are skipped, so every
      interleaving is some sequence of steps. */
  function Exec(s: State, steps: seq<Step>): State
    decreases |steps|
  {
    if steps == [] then s
    else Exec(if Enabled(s, steps[0]) then Apply(s, steps[0]) else s, steps[1..])
  }

  // ---------------------------------------------------------------- invariants

  /** What the worker holds between the transmit ring and the socket. */
  function InFlight(t: Task): seq<byte> {
    if t.Sending? then t.chunk else []
  }

  /** What the worker holds between the socket and the receive ring. */
  function InHand(t: Task): seq<byte> {
    if t.Storing? then t.bytes else []
  }

  ghost predicate Fifo(s: State) {
    && s.rec.Bounded()
    && s.written == s.handed + InFlight(s.task) + s.rec.tx
    && s.received == s.enqueued + s.rec.rx + InHand(s.task)
    && s.written + s.current <= s.accepted
    && (!s.writerBroken ==> s.accepted == s.written + s.current)
    && (s.task.Receiving? ==> s.task.room <= s.rec.RxFree())
    && (s.task.Storing? ==> 0 < |s.task.bytes| <= s.rec.RxFree())
    && (s.task.Sending? ==> s.task.chunk != [])
  }

  /** The cached lengths never promise more than the rings hold. */
  ghost predicate Credit(s: State) {
    && !s.refused
    && s.readableLength <= |s.rec.rx|
    && s.writableLength <= s.rec.TxFree()
    && (match s.js
        case Idle => true
        case Callbacks(events, readable, writable) =>
          readable <= |s.rec.rx| && writable <= s.rec.TxFree()
        case Reading(count, events, writable) =>
          !events.readable && 0 < count == s.readableLength && writable <= s.rec.TxFree()
        case Writing(count) => 0 < count <= |s.current| && count <= s.writableLength)
  }

  /** The events a delivery in progress has still to handle. */
  function Todo(js: Js): Events {
    match js
    case Callbacks(events, _, _) => events
    case Reading(_, events, _) => events
    case _ => NOTHING
  }

  predicate PostsOrTriggersFinal(t: Task) {
    (t.Triggering? || t.Posting?) && t.next.ToGone?
  }

  ghost predicate Lifetime(s: State) {
    && !s.fault
    && s.hostData == s.live
    && s.finals == (if s.live then 0 else 1)
    // one message, or one about to be posted, exactly while the mask is nonzero
    && s.msgs + (if s.task.Posting? then 1 else 0) == (if s.rec.pending.Any() then 1 else 0)
    // FINAL: not yet triggered, or pending, or being delivered, or delivered
    && (s.task.Triggering? ==> s.task.events.Any() && (s.task.events.final <==> s.task.next.ToGone?))
    && (s.rec.pending.final ==> s.task.Gone? || s.task == Posting(ToGone))
    && (s.task == Posting(ToGone) ==> s.rec.pending.final)
    && (Todo(s.js).final ==> s.task.Gone? && !s.rec.pending.Any() && s.live)
    && (!s.live ==> s.task.Gone? && !s.rec.pending.Any() && Todo(s.js) == NOTHING && !s.js.Reading? && !s.js.Writing?)
    && (s.task.Gone? && s.live ==> s.rec.pending.final || Todo(s.js).final)
    && (s.registered <==> !(s.task.Gone? || PostsOrTriggersFinal(s.task)))
    && (!s.rec.connected ==> s.task.Connecting? || s.task.Opening? || s.task.Exiting())
    && (s.task.Connecting? || s.task.Opening? ==> s.rec.pending == NOTHING && Todo(s.js) == NOTHING)
  }

  /** How much of the receive ring JS knows about, or is just being told. */
  function ToldReadable(s: State): nat {
    if s.js.Callbacks? && s.js.events.readable then s.js.readable else s.readableLength
  }

  function ToldWritable(s: State): nat {
    if s.js.Callbacks? && s.js.events.writable then s.js.writable
    else if s.js.Reading? && s.js.events.writable then s.js.writable
    else s.writableLength
  }

  /** No lost wakeup, in both directions. */
  ghost predicate Wakeup(s: State) {
    && (s.live && |s.rec.rx| > ToldReadable(s) ==>
        s.rec.pending.readable || (s.task.Triggering? && s.task.events.readable))
    && (s.rec.TxFree() > ToldWritable(s) ==>
        || s.rec.pending.writable
        || (s.task.Triggering? && s.task.events.writable)
        || s.task.Sending? || s.task.Connecting? || s.task.Opening?
        || s.task.Exiting())
  }

  ghost predicate Inv(s: State) {
    Fifo(s) && Credit(s) && Lifetime(s) && Wakeup(s)
  }

  // -------------------------------------------------------------------- proofs

  lemma Initially()
    ensures Inv(INITIAL)
  {
  }

  predicate Transmits(step: Step) {
    step.TaskConnect? || step.TaskOpen? || step.TaskTake? || step.TaskSend?
  }

  predicate Receives(step: Step) {
    step.TaskSize? || step.TaskReceive? || step.TaskStore?
  }

  predicate Signals(step: Step) {
    step.TaskTrigger? || step.TaskPost? || step.TaskLeave? || step.TaskUnregister?
  }

  predicate ByTask(step: Step) {
    Transmits(step) || Receives(step) || Signals(step)
  }

  lemma {:induction false} FifoKeptByTransmit(s: State, step: Step)
    requires Inv(s) && Enabled(s, step)
    requires step.TaskTake? || step.TaskSend?
    ensures Fifo(Apply(s, step))
  {
    if step.TaskTake? {
      var n := ChunkSize(s.rec);
      assert s.rec.tx == s.rec.tx[..n] + s.rec.tx[n..];
      assert s.handed + [] + s.rec.tx == s.handed + s.rec.tx[..n] + s.rec.tx[n..];
    }
  }

  lemma {:induction false} FifoKeptByReceive(s: State, step: Step)
    requires Inv(s) && Enabled(s, step)
    requires step.TaskReceive? || step.TaskStore?
    ensures Fifo(Apply(s, step))
  {
    if step.TaskStore? {
      FifoKeptByStore(s);
    }
  }

  lemma {:induction false} FifoKeptByStore(s: State)
    requires Inv(s) && s.task.Storing?
    ensures Fifo(Apply(s, TaskStore))
  {
    assert s.enqueued + s.rec.rx + s.task.bytes == s.enqueued + (s.rec.rx + s.task.bytes) + [];
  }

  lemma {:induction false} FifoKeptByTask(s: State, step: Step)
    requires Inv(s) && Enabled(s, step) && ByTask(step)
    ensures Fifo(Apply(s, step))
  {
    if step.TaskTake? || step.TaskSend? {
      FifoKeptByTransmit(s, step);
    } else if step.TaskReceive? || step.TaskStore? {
      FifoKeptByReceive(s, step);
    }
  }

  lemma {:induction false} FifoKeptByRead(s: State)
    requires Inv(s) && s.js.Reading?
    ensures Fifo(Apply(s, JsReadTake))
  {
    var n := s.js.count;
    assert s.rec.rx == s.rec.rx[..n] + s.rec.rx[n..];
  }

  lemma {:induction false} FifoKeptByWrite(s: State)
    requires Inv(s) && s.js.Writing?
    ensures Fifo(Apply(s, JsWriteTake))
  {
    var n := s.js.count;
    assert s.current == s.current[..n] + s.current[n..];
    assert s.written + s.current == s.written + s.current[..n] + s.current[n..];
  }

  /** Starting a read inside what is left of a delivery. */
  lemma {:induction false} ReadStartKept(s: State, events: Events, writable: nat)
    requires Inv(s.(js := Callbacks(events, 0, writable)))
    requires !events.readable && s.readableLength > 0
    ensures Inv(StartRead(s, events, writable))
  {
    var rest := s.(js := Callbacks(events, 0, writable));
    assert ToldWritable(rest) == ToldWritable(StartRead(s, events, writable));
  }

  lemma {:induction false} CallReadableKept(s: State, wants: bool)
    requires Inv(s) && s.js.Callbacks? && s.js.events.readable
    ensures Inv(CallReadable(s, wants))
  {
    var rest := s.js.events.(readable := false);
    var told := if s.js.readable == 0 then s else s.(readableLength := s.js.readable);
    assert Inv(told.(js := Callbacks(rest, 0, s.js.writable)));
    if s.js.readable > 0 && wants {
      ReadStartKept(told, rest, s.js.writable);
    }
  }

  /** Where the READABLE callback of a live connection leads. */
  lemma ReadableShape(s: State, wants: bool)
    requires Inv(s) && s.live && s.js.Callbacks? && s.js.events.readable
    ensures var t := CallReadable(s, wants);
      var Callbacks(events, readable, writable) := s.js;
      var rest := events.(readable := false);
      && t.rec == s.rec && t.task == s.task && t.live && t.enqueued == s.enqueued && t.current == s.current
      && t.writableLength == s.writableLength
      && t.readableLength == (if readable == 0 then s.readableLength else readable)
      && t.js == (if readable > 0 && wants then Reading(readable, rest, writable) else Callbacks(rest, 0, writable))
  {
  }

  lemma {:induction false} CallWritableKept(s: State)
    requires Inv(s) && s.js.Callbacks? && !s.js.events.readable && s.js.events.writable
    ensures Inv(CallWritable(s))
  {
  }

  lemma {:induction false} CallFinalKept(s: State)
    requires Inv(s) && s.js.Callbacks? && s.js.events.final
    requires !s.js.events.readable && !s.js.events.writable && !s.js.events.error
    ensures Inv(CallFinal(s))
  {
  }

  lemma {:induction false} CallbackKept(s: State, wants: bool)
    requires Inv(s) && s.js.Callbacks?
    ensures Inv(Callback(s, wants))
  {
    if s.js.events.readable {
      CallReadableKept(s, wants);
    } else if s.js.events.writable {
      CallWritableKept(s);
    } else if s.js.events.error {
      assert Inv(CallError(s));
    } else if s.js.events.final {
      CallFinalKept(s);
    }
  }

  lemma {:induction false} FifoKeptByOther(s: State, step: Step)
    requires Inv(s) && Enabled(s, step)
    requires step.JsDeliver? || step.JsClose? || step.ManagerClose? || step.JsWrite? || step.JsWriteCheck?
    ensures Fifo(Apply(s, step))
  {
    var t := Apply(s, step);
    assert t.task == s.task && t.rec.rx == s.rec.rx && t.rec.tx == s.rec.tx && t.written == s.written;
  }

  lemma {:induction false} FifoKept(s: State, step: Step)
    requires Inv(s) && Enabled(s, step)
    ensures Fifo(Apply(s, step))
  {
    if ByTask(step) {
      FifoKeptByTask(s, step);
    } else if step.JsReadTake? {
      FifoKeptByRead(s);
    } else if step.JsWriteTake? {
      FifoKeptByWrite(s);
    } else if step.JsCallback? {
      CallbackKept(s, step.wants);
    } else if step.JsPull? {
      ReadStartKept(s, NOTHING, 0);
    } else {
      FifoKeptByOther(s, step);
    }
  }

  // The worker only adds to the receive ring and takes from the transmit ring.

  lemma {:induction false} CreditKeptByTransmit(s: State, step: Step)
    requires Inv(s) && Enabled(s, step) && Transmits(step)
    ensures Credit(Apply(s, step))
  {
    var t := Apply(s, step);
    assert |t.rec.rx| >= |s.rec.rx| && |t.rec.tx| <= |s.rec.tx|;
  }

  lemma {:induction false} CreditKeptByReceive(s: State, step: Step)
    requires Inv(s) && Enabled(s, step) && Receives(step)
    ensures Credit(Apply(s, step))
  {
    if step.TaskStore? {
      CreditKeptByStore(s);
    } else {
      var t := Apply(s, step);
      assert |t.rec.rx| >= |s.rec.rx| && |t.rec.tx| <= |s.rec.tx|;
    }
  }

  lemma {:induction false} CreditKeptByStore(s: State)
    requires Inv(s) && s.task.Storing?
    ensures Credit(Apply(s, TaskStore))
  {
  }

  lemma {:induction false} CreditKeptBySignal(s: State, step: Step)
    requires Inv(s) && Enabled(s, step) && Signals(step)
    ensures Credit(Apply(s, step))
  {
    var t := Apply(s, step);
    assert |t.rec.rx| >= |s.rec.rx| && |t.rec.tx| <= |s.rec.tx|;
  }

  /** The second region of a native read or write. */
  predicate MovesBytes(step: Step) {
    step.JsReadTake? || step.JsWriteTake?
  }

  predicate Requests(step: Step) {
    step.JsWrite? || step.JsWriteCheck? || step.JsClose? || step.ManagerClose?
  }

  lemma {:induction false} CreditKeptByTask(s: State, step: Step)
    requires Inv(s) && Enabled(s, step) && ByTask(step)
    ensures Credit(Apply(s, step))
  {
    if Transmits(step) {
      CreditKeptByTransmit(s, step);
    } else if Receives(step) {
      CreditKeptByReceive(s, step);
    } else {
      CreditKeptBySignal(s, step);
    }
  }

  lemma {:induction false} CreditKeptByDeliver(s: State)
    requires Inv(s) && Enabled(s, JsDeliver)
    ensures Credit(Apply(s, JsDeliver))
  {
  }

  lemma {:induction false} CreditKeptByRing(s: State, step: Step)
    requires Inv(s) && Enabled(s, step) && MovesBytes(step)
    ensures Credit(Apply(s, step))
  {
    match step
    case JsReadTake =>
    case JsWriteTake =>
  }

  lemma {:induction false} CreditKeptByRequest(s: State, step: Step)
    requires Inv(s) && Enabled(s, step) && Requests(step)
    ensures Credit(Apply(s, step))
  {
  }

  lemma {:induction false} CreditKeptByJs(s: State, step: Step)
    requires Inv(s) && Enabled(s, step)
    requires !ByTask(step) && !step.JsCallback? && !step.JsPull?
    ensures Credit(Apply(s, step))
  {
    if step.JsDeliver? {
      CreditKeptByDeliver(s);
    } else if MovesBytes(step) {
      CreditKeptByRing(s, step);
    } else {
      CreditKeptByRequest(s, step);
    }
  }

  lemma {:induction false} CreditKept(s: State, step: Step)
    requires Inv(s) && Enabled(s, step)
    ensures Credit(Apply(s, step))
  {
    if ByTask(step) {
      CreditKeptByTask(s, step);
    } else if step.JsCallback? {
      CallbackKept(s, step.wants);
    } else if step.JsPull? {
      ReadStartKept(s, NOTHING, 0);
    } else {
      CreditKeptByJs(s, step);
    }
  }

  lemma {:induction false} LifetimeKeptByTransmit(s: State, step: Step)
    requires Inv(s) && Enabled(s, step) && Transmits(step)
    ensures Lifetime(Apply(s, step))
  {
  }

  lemma {:induction false} LifetimeKeptByReceive(s: State, step: Step)
    requires Inv(s) && Enabled(s, step) && Receives(step)
    ensures Lifetime(Apply(s, step))
  {
    if step.TaskStore? {
      LifetimeKeptByStore(s);
    }
  }

  lemma {:induction false} LifetimeKeptByStore(s: State)
    requires Inv(s) && s.task.Storing?
    ensures Lifetime(Apply(s, TaskStore))
  {
  }

  lemma {:induction false} LifetimeKeptBySignal(s: State, step: Step)
    requires Inv(s) && Enabled(s, step) && Signals(step)
    ensures Lifetime(Apply(s, step))
  {
  }

  lemma {:induction false} LifetimeKeptByTask(s: State, step: Step)
    requires Inv(s) && Enabled(s, step) && ByTask(step)
    ensures Lifetime(Apply(s, step))
  {
    if Transmits(step) {
      LifetimeKeptByTransmit(s, step);
    } else if Receives(step) {
      LifetimeKeptByReceive(s, step);
    } else {
      LifetimeKeptBySignal(s, step);
    }
  }

  lemma {:induction false} LifetimeKeptByDeliver(s: State)
    requires Inv(s) && Enabled(s, JsDeliver)
    ensures Lifetime(Apply(s, JsDeliver))
  {
  }

  lemma {:induction false} LifetimeKeptByRing(s: State, step: Step)
    requires Inv(s) && Enabled(s, step) && MovesBytes(step)
    ensures Lifetime(Apply(s, step))
  {
    match step
    case JsReadTake =>
    case JsWriteTake =>
  }

  lemma {:induction false} LifetimeKeptByRequest(s: State, step: Step)
    requires Inv(s) && Enabled(s, step) && Requests(step)
    ensures Lifetime(Apply(s, step))
  {
    LifetimeFrame(s, Apply(s, step));
  }

  lemma LifetimeFrame(s: State, t: State)
    requires Lifetime(s) && !t.fault && t.task == s.task && t.msgs == s.msgs && t.finals == s.finals
    requires t.live == s.live && t.hostData == s.hostData && t.registered == s.registered
    requires t.rec.pending == s.rec.pending && t.rec.connected == s.rec.connected
    requires Todo(t.js) == Todo(s.js) && t.js.Reading? == s.js.Reading? && (t.js.Writing? ==> t.live)
    ensures Lifetime(t)
  {
  }

  lemma {:induction false} LifetimeKeptByJs(s: State, step: Step)
    requires Inv(s) && Enabled(s, step)
    requires !ByTask(step) && !step.JsCallback? && !step.JsPull?
    ensures Lifetime(Apply(s, step))
  {
    if step.JsDeliver? {
      LifetimeKeptByDeliver(s);
    } else if MovesBytes(step) {
      LifetimeKeptByRing(s, step);
    } else {
      LifetimeKeptByRequest(s, step);
    }
  }

  lemma {:induction false} LifetimeKept(s: State, step: Step)
    requires Inv(s) && Enabled(s, step)
    ensures Lifetime(Apply(s, step))
  {
    if ByTask(step) {
      LifetimeKeptByTask(s, step);
    } else if step.JsCallback? {
      CallbackKept(s, step.wants);
    } else if step.JsPull? {
      ReadStartKept(s, NOTHING, 0);
    } else {
      LifetimeKeptByJs(s, step);
    }
  }

  lemma {:induction false} WakeupKeptByTransmit(s: State, step: Step)
    requires Inv(s) && Enabled(s, step) && Transmits(step)
    ensures Wakeup(Apply(s, step))
  {
    var t := Apply(s, step);
    assert t.js == s.js && t.readableLength == s.readableLength && t.writableLength == s.writableLength;
    assert ToldReadable(t) == ToldReadable(s) && ToldWritable(t) == ToldWritable(s);
    if step.TaskTake? {
      WakeupKeptByTake(s);
    }
  }

  lemma {:induction false} WakeupKeptByTake(s: State)
    requires Inv(s) && s.task.Looping?
    ensures Wakeup(Apply(s, TaskTake))
  {
    var t := Apply(s, TaskTake);
    assert t.js == s.js && t.readableLength == s.readableLength && t.writableLength == s.writableLength;
    assert t.rec.rx == s.rec.rx && t.rec.pending == s.rec.pending;
  }

  lemma {:induction false} WakeupKeptByReceive(s: State, step: Step)
    requires Inv(s) && Enabled(s, step) && Receives(step)
    ensures Wakeup(Apply(s, step))
  {
    if step.TaskStore? {
      WakeupKeptByStore(s);
    } else {
      var t := Apply(s, step);
      assert t.js == s.js;
      assert ToldReadable(t) == ToldReadable(s) && ToldWritable(t) == ToldWritable(s);
    }
  }

  lemma {:induction false} WakeupKeptByStore(s: State)
    requires Inv(s) && s.task.Storing?
    ensures Wakeup(Apply(s, TaskStore))
  {
    var t := Apply(s, TaskStore);
    assert t.js == s.js && t.task == Triggering(READABLE, ToLoop);
  }

  lemma {:induction false} WakeupKeptBySignal(s: State, step: Step)
    requires Inv(s) && Enabled(s, step) && Signals(step)
    ensures Wakeup(Apply(s, step))
  {
    var t := Apply(s, step);
    assert t.js == s.js;
    assert ToldReadable(t) == ToldReadable(s) && ToldWritable(t) == ToldWritable(s);
  }

  lemma {:induction false} WakeupKeptByTask(s: State, step: Step)
    requires Inv(s) && Enabled(s, step) && ByTask(step)
    ensures Wakeup(Apply(s, step))
  {
    if Transmits(step) {
      WakeupKeptByTransmit(s, step);
    } else if Receives(step) {
      WakeupKeptByReceive(s, step);
    } else {
      WakeupKeptBySignal(s, step);
    }
  }

  lemma {:induction false} WakeupKeptByJs(s: State, step: Step)
    requires Inv(s) && Enabled(s, step)
    requires !ByTask(step) && !step.JsCallback? && !step.JsPull?
    ensures Wakeup(Apply(s, step))
  {
  }

  lemma {:induction false} WakeupKept(s: State, step: Step)
    requires Inv(s) && Enabled(s, step)
    ensures Wakeup(Apply(s, step))
  {
    if ByTask(step) {
      WakeupKeptByTask(s, step);
    } else if step.JsCallback? {
      CallbackKept(s, step.wants);
    } else if step.JsPull? {
      ReadStartKept(s, NOTHING, 0);
    } else {
      WakeupKeptByJs(s, step);
    }
  }

  // -------------------------------------------------------------- main results

  lemma {:induction false} InvKept(s: State, step: Step)
    requires Inv(s) && Enabled(s, step)
    ensures Inv(Apply(s, step))
  {
    FifoKept(s, step);
    CreditKept(s, step);
    LifetimeKept(s, step);
    WakeupKept(s, step);
  }

  lemma {:induction false} RunKeepsInv(s: State, steps: seq<Step>)
    requires Inv(s)
    ensures Inv(Exec(s, steps))
    decreases |steps|
  {
    if steps != [] {
      if Enabled(s, steps[0]) {
        InvKept(s, steps[0]);
        RunKeepsInv(Apply(s, steps[0]), steps[1..]);
      } else {
        RunKeepsInv(s, steps[1..]);
      }
    }
  }

  /** Both directions deliver prefixes: of the chunks the writer accepted, and of
      the bytes the socket received. */
  lemma StreamsAreFifo(steps: seq<Step>)
    ensures var s := Exec(INITIAL, steps);
      && s.handed <= s.written <= s.accepted
      && s.enqueued <= s.received
  {
    Initially();
    RunKeepsInv(INITIAL, steps);
  }

  /** No stream read is ever an invalid size and no stream write would ever block,
      because the cached lengths stay below what the rings hold. */
  lemma CreditIsSafe(steps: seq<Step>)
    ensures var s := Exec(INITIAL, steps);
      && !s.refused
      && s.readableLength <= |s.rec.rx| && s.writableLength <= s.rec.TxFree()
      && |s.rec.rx| <= TCP_BUFFER_SIZE && |s.rec.tx| <= TCP_BUFFER_SIZE
  {
    Initially();
    RunKeepsInv(INITIAL, steps);
  }

  /** At most one delivery message is outstanding, FINAL is delivered once, and no
      step touches the record after that. */
  lemma RecordLifetime(steps: seq<Step>)
    ensures var s := Exec(INITIAL, steps);
      && !s.fault
      && s.msgs <= 1
      && s.finals <= 1 && (s.finals == 1 <==> !s.live)
      && (s.rec.pending.Any() <==> s.msgs == 1 || s.task.Posting?)
      && (!s.live ==> s.task.Gone? && !s.registered && !s.hostData && s.msgs == 0)
  {
    Initially();
    RunKeepsInv(INITIAL, steps);
  }

  /** No wakeup is lost: in every reachable state, when the receive ring holds more
      than JS knows or is being told, READABLE is pending or about to be triggered; and
      when the transmit ring has more room than that, WRITABLE is, or the worker is on
      its way to trigger it, or it has left its loop. */
  lemma NoLostWakeup(steps: seq<Step>)
    ensures var s := Exec(INITIAL, steps);
      && (s.live && |s.rec.rx| > ToldReadable(s) ==>
          s.rec.pending.readable || (s.task.Triggering? && s.task.events.readable))
      && (s.rec.TxFree() > ToldWritable(s) && !s.task.Exiting() ==>
          || s.rec.pending.writable
          || (s.task.Triggering? && s.task.events.writable)
          || s.task.Sending? || s.task.Connecting? || s.task.Opening?)
  {
    Initially();
    RunKeepsInv(INITIAL, steps);
  }

  /** Nothing happens to the connection after FINAL. */
  lemma {:induction false} FinalIsLast(s: State, steps: seq<Step>)
    requires Inv(s) && !s.live
    ensures var t := Exec(s, steps);
      && !t.live && t.finals == s.finals && t.msgs == 0 && t.rec == s.rec
      && t.handed == s.handed && t.enqueued == s.enqueued && t.written == s.written
    decreases |steps|
  {
    if steps != [] {
      if Enabled(s, steps[0]) {
        InvKept(s, steps[0]);
        FinalIsLast(Apply(s, steps[0]), steps[1..]);
      } else {
        FinalIsLast(s, steps[1..]);
      }
    }
  }
}
