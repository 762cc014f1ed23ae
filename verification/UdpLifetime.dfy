/** One UDP socket of the tailnet as a step system: its worker task, the receive callback
    on the task of MicroLink, the machine's delivery messages, the JS thread and the
    manager's close request (native/tailscale-native.c:185-192, 829-939, 1005-1073), one
    step for each locked region, interleaved freely. Of the two queues it has the
    lengths. `microlink_udp_close` returns only when no receive callback is running. */
module UdpLifetimes {
  import Q = UdpQueues

  const WAKE_MAX: nat := Q.UDP_QUEUE_SIZE + 1

  /** The event mask, one field a bit; there is no WRITABLE here. */
  datatype Events = Events(readable: bool, error: bool, final: bool) {
    predicate Any() { readable || error || final }

    function Or(other: Events): Events {
      Events(readable || other.readable, error || other.error, final || other.final)
    }
  }

  const NOTHING := Events(false, false, false)
  const READABLE := Events(true, false, false)
  const ERROR := Events(false, true, false)
  const FINAL := Events(false, false, true)

  datatype Next = ToLoop | ToUnregister | ToGone

  /** `Woken`: past the semaphore, by a token or by the time-out of 100 ms. */
  datatype Task =
    | Creating
    | Waiting
    | Woken(token: bool)
    | Sending
    | Triggering(events: Events, next: Next)
    | Posting(next: Next)
    | Unhooking
    | Unregistering
    | Gone
  {
    predicate Exiting() {
      || Unhooking? || Unregistering? || Gone?
      || ((Triggering? || Posting?) && !next.ToLoop?)
    }
  }

  /** The receive callback: at rest, or between its region and its trigger, or about to
      post. */
  datatype Callback = Quiet | Arrived | MustPost

  datatype Js = Idle | Callbacks(events: Events)

  /** `rx`, `tx`: packets queued; `news`: how many of `rx` the JS side was never told of.
      `jsGives`, `managerGives`: between a region and its give of the semaphore. */
  datatype State = State(
    pending: Events, msgs: nat, rx: nat, tx: nat, news: nat, closing: bool, wake: nat,
    live: bool, registered: bool, hooked: bool, finals: nat,
    task: Task, callback: Callback, js: Js, jsGives: bool, managerGives: bool,
    fault: bool, lateWrites: nat)
  {
    /** Every access to the record goes through here. */
    function Touch(): State {
      this.(fault := fault || !live)
    }
  }

  const INITIAL := State(
    NOTHING, 0, 0, 0, 0, false, 0, true, true, false, 0, Creating, Quiet, Idle, false, false, false, 0)

  datatype Step =
    | TaskCreate(ok: bool)
    | TaskTakeToken
    | TaskTimeout
    | TaskTake
    | TaskSend(ok: bool)
    | TaskTrigger
    | TaskPost
    | TaskUnhook
    | TaskUnregister
    | Receive
    | ReceiveTrigger
    | ReceivePost
    | JsDeliver
    | JsCallback
    | JsRead
    | JsWrite
    | JsClose
    | JsGive
    | ManagerClose
    | ManagerGive

  predicate Enabled(s: State, step: Step) {
    match step
    case TaskCreate(_) => s.task.Creating?
    case TaskTakeToken => s.task.Waiting? && s.wake > 0
    case TaskTimeout => s.task.Waiting?
    case TaskTake => s.task.Woken?
    case TaskSend(_) => s.task.Sending?
    case TaskTrigger => s.task.Triggering?
    case TaskPost => s.task.Posting?
    case TaskUnhook => s.task.Unhooking? && s.callback.Quiet?
    case TaskUnregister => s.task.Unregistering? && !s.managerGives
    case Receive => s.hooked && s.callback.Quiet?
    case ReceiveTrigger => s.callback.Arrived?
    case ReceivePost => s.callback.MustPost?
    case JsDeliver => s.js.Idle? && !s.jsGives && s.msgs > 0
    case JsCallback => s.js.Callbacks? && !s.jsGives
    case JsRead => !s.jsGives
    case JsWrite => !s.jsGives
    case JsClose => !s.jsGives
    case JsGive => s.jsGives
    case ManagerClose => s.registered && !s.managerGives
    case ManagerGive => s.managerGives
  }

  function After(next: Next): Task {
    match next
    case ToLoop => Waiting
    case ToUnregister => Unregistering
    case ToGone => Gone
  }

  function Min(a: nat, b: nat): nat {
    if a < b then a else b
  }

  /** `xSemaphoreGive` of a counting semaphore. */
  function Given(wake: nat): nat {
    Min(wake + 1, WAKE_MAX)
  }

  function TaskApply(s: State, step: Step): State
    requires Enabled(s, step)
  {
    match step
    case TaskCreate(ok) =>
      if ok then s.Touch().(task := Waiting, hooked := true)
      else s.Touch().(task := Triggering(ERROR, ToUnregister))
    case TaskTakeToken => s.Touch().(task := Woken(true), wake := s.wake - 1)
    case TaskTimeout => s.Touch().(task := Woken(false))
    case TaskTake =>
      s.Touch().(tx := if s.tx > 0 then s.tx - 1 else 0,
        task := if s.closing then Unhooking else if s.tx > 0 then Sending else Waiting)
    case TaskSend(ok) => s.Touch().(task := if ok then Waiting else Triggering(ERROR, ToLoop))
    case TaskTrigger =>
      s.Touch().(pending := s.pending.Or(s.task.events),
        task := if s.pending.Any() then After(s.task.next) else Posting(s.task.next))
    case TaskPost => s.Touch().(msgs := s.msgs + 1, task := After(s.task.next))
    case TaskUnhook => s.Touch().(hooked := false, task := Unregistering)
    case TaskUnregister => s.Touch().(registered := false, task := Triggering(FINAL, ToGone))
    case _ => s
  }

  /** A full queue loses its oldest packet. */
  function CallbackApply(s: State, step: Step): State
    requires Enabled(s, step)
  {
    match step
    case Receive =>
      if s.closing then s.Touch()
      else
        s.Touch().(rx := Min(s.rx + 1, Q.UDP_QUEUE_SIZE), news := Min(s.news + 1, Q.UDP_QUEUE_SIZE),
          callback := Arrived)
    case ReceiveTrigger =>
      s.Touch().(pending := s.pending.Or(READABLE), callback := if s.pending.Any() then Quiet else MustPost)
    case ReceivePost => s.Touch().(msgs := s.msgs + 1, callback := Quiet)
    case _ => s
  }

  /** The next callback of a delivery, in the order of `udp_deliver`. */
  function Called(s: State): State
    requires s.js.Callbacks?
  {
    var events := s.js.events;
    if events.readable then s.(js := Callbacks(events.(readable := false)))
    else if events.error then s.Touch().(js := Callbacks(events.(error := false)))
    else if events.final then s.Touch().(js := Callbacks(NOTHING), live := false, finals := s.finals + 1)
    else s.(js := Idle)
  }

  /** The native `write` is the one call that does not look whether there still is a
      record. */
  function JsApply(s: State, step: Step): State
    requires Enabled(s, step)
  {
    match step
    case JsDeliver =>
      s.Touch().(msgs := s.msgs - 1, pending := NOTHING, js := Callbacks(s.pending),
        news := if s.pending.readable then 0 else s.news)
    case JsCallback => Called(s)
    case JsRead =>
      if !s.live || s.rx == 0 then s else s.Touch().(rx := s.rx - 1, news := Min(s.news, s.rx - 1))
    case JsWrite =>
      if !s.live then s.Touch().(lateWrites := s.lateWrites + 1)
      else if s.closing || s.tx >= Q.UDP_QUEUE_SIZE then s.Touch()
      else s.Touch().(tx := s.tx + 1, jsGives := true)
    case JsClose => if s.live then s.Touch().(closing := true, jsGives := true) else s
    case JsGive => s.Touch().(wake := Given(s.wake), jsGives := false)
    case _ => s
  }

  predicate ByTask(step: Step) {
    || step.TaskCreate? || step.TaskTakeToken? || step.TaskTimeout? || step.TaskTake? || step.TaskSend?
    || step.TaskTrigger? || step.TaskPost? || step.TaskUnhook? || step.TaskUnregister?
  }

  predicate ByCallback(step: Step) {
    step.Receive? || step.ReceiveTrigger? || step.ReceivePost?
  }

  function Apply(s: State, step: Step): State
    requires Enabled(s, step)
  {
    if ByTask(step) then TaskApply(s, step)
    else if ByCallback(step) then CallbackApply(s, step)
    else if step.ManagerClose? then s.Touch().(closing := true, managerGives := true)
    else if step.ManagerGive? then s.Touch().(wake := Given(s.wake), managerGives := false)
    else JsApply(s, step)
  }

  function Exec(s: State, steps: seq<Step>): State
    decreases |steps|
  {
    if steps == [] then s
    else Exec(if Enabled(s, steps[0]) then Apply(s, steps[0]) else s, steps[1..])
  }

  // ---------------------------------------------------------------- invariants

  function One(b: bool): nat {
    if b then 1 else 0
  }

  /** A message is outstanding, or one of the two threads is about to post it, exactly
      while the mask is nonzero. */
  predicate OneMessage(s: State) {
    && s.msgs == (if s.pending.Any() && !s.task.Posting? && !s.callback.MustPost? then 1 else 0)
    && (s.task.Posting? || s.callback.MustPost? ==> s.pending.Any())
    && !(s.task.Posting? && s.callback.MustPost?)
  }

  function Todo(js: Js): Events {
    if js.Callbacks? then js.events else NOTHING
  }

  predicate FinalInv(s: State) {
    && (s.task.Triggering? ==> s.task.events.Any() && (s.task.events.final <==> s.task.next.ToGone?))
    && (s.pending.final ==> s.task.Gone? || s.task == Posting(ToGone))
    && (s.task == Posting(ToGone) ==> s.pending.final)
    && (Todo(s.js).final ==> s.task.Gone? && !s.pending.Any() && s.live)
    && (s.task.Gone? && s.live ==> s.pending.final || Todo(s.js).final)
    && s.finals == One(!s.live)
    && (!s.live ==> s.task.Gone? && !s.pending.Any() && Todo(s.js) == NOTHING && !s.jsGives)
  }

  /** Who may still reach the record. */
  predicate ReachInv(s: State) {
    && (!s.callback.Quiet? ==> s.hooked)
    && (s.hooked ==> !s.task.Creating? && (!s.task.Exiting() || s.task.Unhooking?))
    && (s.managerGives ==> s.registered)
    && (s.task.Gone? || ((s.task.Triggering? || s.task.Posting?) && s.task.next.ToGone?) ==> !s.registered)
    && (s.fault <==> s.lateWrites > 0)
    && (s.live ==> s.lateWrites == 0)
  }

  /** No packet is kept from the JS side. */
  predicate NewsInv(s: State) {
    s.news <= s.rx <= Q.UDP_QUEUE_SIZE && (s.news > 0 ==> s.pending.readable || s.callback.Arrived?)
  }

  /** A token for every packet to send and one for a close request. */
  predicate WakeInv(s: State) {
    && s.tx <= Q.UDP_QUEUE_SIZE && s.wake <= WAKE_MAX
    && (!s.task.Exiting() ==>
        s.tx + One(s.closing) <= s.wake + One(s.jsGives) + One(s.managerGives) + One(s.task == Woken(true)))
  }

  predicate Inv(s: State) {
    OneMessage(s) && FinalInv(s) && ReachInv(s) && NewsInv(s) && WakeInv(s)
  }

  lemma {:induction false} SignalKeepsInv(s: State, step: Step)
    requires Inv(s) && Enabled(s, step) && (step.TaskTrigger? || step.TaskPost?)
    ensures Inv(Apply(s, step))
  {
  }

  lemma {:induction false} WakingKeepsInv(s: State, step: Step)
    requires Inv(s) && Enabled(s, step) && (step.TaskTakeToken? || step.TaskTimeout? || step.TaskTake?)
    ensures Inv(Apply(s, step))
  {
    match step
    case TaskTake =>
    case TaskTakeToken =>
    case TaskTimeout =>
  }

  lemma {:induction false} SendKeepsInv(s: State, step: Step)
    requires Inv(s) && Enabled(s, step) && (step.TaskCreate? || step.TaskSend?)
    ensures Inv(Apply(s, step))
  {
    match step
    case TaskCreate(ok) =>
    case TaskSend(ok) =>
  }

  lemma {:induction false} UnregisterKeepsInv(s: State)
    requires Inv(s) && Enabled(s, TaskUnregister)
    ensures Inv(Apply(s, TaskUnregister))
  {
  }

  lemma {:induction false} TaskKeepsInv(s: State, step: Step)
    requires Inv(s) && Enabled(s, step) && ByTask(step)
    ensures Inv(Apply(s, step))
  {
    match step
    case TaskTrigger => SignalKeepsInv(s, step);
    case TaskPost => SignalKeepsInv(s, step);
    case TaskTake => WakingKeepsInv(s, step);
    case TaskTakeToken => WakingKeepsInv(s, step);
    case TaskTimeout => WakingKeepsInv(s, step);
    case TaskUnregister => UnregisterKeepsInv(s);
    case TaskSend(_) => SendKeepsInv(s, step);
    case TaskCreate(_) => SendKeepsInv(s, step);
    case TaskUnhook =>
  }

  lemma {:induction false} CallbackKeepsInv(s: State, step: Step)
    requires Inv(s) && Enabled(s, step) && ByCallback(step)
    ensures Inv(Apply(s, step))
  {
  }

  lemma {:induction false} DeliverKeepsInv(s: State)
    requires Inv(s) && Enabled(s, JsDeliver)
    ensures Inv(Apply(s, JsDeliver))
  {
  }

  lemma {:induction false} FinalKeepsInv(s: State)
    requires Inv(s) && Enabled(s, JsCallback) && s.js.events == FINAL
    ensures Inv(Called(s))
  {
  }

  /** Only the rest of the delivery changes. */
  lemma RestKeepsInv(s: State, js: Js)
    requires Inv(s) && (Todo(js).final <==> Todo(s.js).final) && (s.live || Todo(js) == NOTHING)
    ensures Inv(s.(js := js))
  {
  }

  lemma CalledShape(s: State)
    requires s.js.Callbacks? && s.js.events != FINAL && (s.js.events.Any() ==> s.live)
    ensures Called(s) == s.(js := Called(s).js)
    ensures Todo(Called(s).js).final <==> Todo(s.js).final
    ensures s.live || Todo(Called(s).js) == NOTHING
  {
  }

  lemma {:induction false} CalledKeepsInv(s: State)
    requires Inv(s) && Enabled(s, JsCallback)
    ensures Inv(Called(s))
  {
    if s.js.events == FINAL {
      FinalKeepsInv(s);
    } else {
      CalledShape(s);
      RestKeepsInv(s, Called(s).js);
    }
  }

  lemma {:induction false} CallKeepsInv(s: State, step: Step)
    requires Inv(s) && Enabled(s, step) && (step.JsRead? || step.JsWrite? || step.JsClose?)
    ensures Inv(Apply(s, step))
  {
    match step
    case JsRead =>
    case JsWrite =>
    case JsClose =>
  }

  lemma {:induction false} GiveKeepsInv(s: State, step: Step)
    requires Inv(s) && Enabled(s, step) && (step.JsGive? || step.ManagerClose? || step.ManagerGive?)
    ensures Inv(Apply(s, step))
  {
    match step
    case JsGive =>
    case ManagerClose =>
    case ManagerGive =>
  }

  lemma {:induction false} StepKeepsInv(s: State, step: Step)
    requires Inv(s) && Enabled(s, step)
    ensures Inv(Apply(s, step))
  {
    if ByTask(step) {
      TaskKeepsInv(s, step);
    } else if ByCallback(step) {
      CallbackKeepsInv(s, step);
    } else if step.JsDeliver? {
      DeliverKeepsInv(s);
    } else if step.JsCallback? {
      CalledKeepsInv(s);
    } else if step.JsRead? || step.JsWrite? || step.JsClose? {
      CallKeepsInv(s, step);
    } else {
      GiveKeepsInv(s, step);
    }
  }

  lemma {:induction false} RunKeepsInv(s: State, steps: seq<Step>)
    requires Inv(s)
    ensures Inv(Exec(s, steps))
    decreases |steps|
  {
    if steps != [] {
      if Enabled(s, steps[0]) {
        StepKeepsInv(s, steps[0]);
        RunKeepsInv(Apply(s, steps[0]), steps[1..]);
      } else {
        RunKeepsInv(s, steps[1..]);
      }
    }
  }

  lemma Initially()
    ensures Inv(INITIAL)
  {
  }

  lemma {:induction false} FromTheStart(steps: seq<Step>)
    ensures Inv(Exec(INITIAL, steps))
  {
    Initially();
    RunKeepsInv(INITIAL, steps);
  }

  // -------------------------------------------------------------- main results

  /** In every interleaving, although two threads trigger: at most one delivery message
      is outstanding; FINAL is delivered at most once, and the record is freed exactly
      then; from then on nobody can reach it, and nothing touches it but the native
      `write`, and that if and only if it is called. */
  lemma {:induction false} RecordLifetime(steps: seq<Step>)
    ensures var s := Exec(INITIAL, steps);
      && s.msgs <= 1 && (s.msgs == 1 ==> s.pending.Any())
      && (s.pending.Any() ==> s.msgs == 1 || s.task.Posting? || s.callback.MustPost?)
      && s.finals <= 1 && (s.live <==> s.finals == 0)
      && (!s.live ==> s.task.Gone? && s.callback.Quiet? && s.msgs == 0 && !s.registered && !s.hooked)
      && (s.fault <==> s.lateWrites > 0)
  {
    FromTheStart(steps);
  }

  /** No lost wakeup of the reader: a packet it was not told of means that READABLE is
      pending, or the receive callback is on its way to trigger it. */
  lemma {:induction false} NoLostDatagram(steps: seq<Step>)
    ensures var s := Exec(INITIAL, steps);
      && s.news <= s.rx
      && (s.news > 0 ==>
            || s.callback.Arrived?
            || (s.pending.readable && (s.msgs == 1 || s.task.Posting? || s.callback.MustPost?)))
  {
    FromTheStart(steps);
  }

  /** No lost wakeup of the worker: it never waits without a token, so until a time-out,
      while a packet is to be sent or a close is requested, unless the thread that made
      the request is about to give one. */
  lemma {:induction false} NoSleepOverWork(steps: seq<Step>)
    ensures var s := Exec(INITIAL, steps);
      s.task.Waiting? && (s.tx > 0 || s.closing) ==> s.wake > 0 || s.jsGives || s.managerGives
  {
    FromTheStart(steps);
  }

  /** Nothing happens to a freed record, whatever runs. */
  lemma {:induction false} FinalIsLast(s: State, steps: seq<Step>)
    requires Inv(s) && !s.live
    ensures var t := Exec(s, steps);
      !t.live && t.finals == s.finals && t.msgs == 0 && t.rx == s.rx && t.tx == s.tx && t.wake == s.wake
    decreases |steps|
  {
    if steps != [] {
      if Enabled(s, steps[0]) {
        StepKeepsInv(s, steps[0]);
        FinalIsLast(Apply(s, steps[0]), steps[1..]);
      } else {
        FinalIsLast(s, steps[1..]);
      }
    }
  }

  // --------------------------------------------------------------- the end comes

  /** A close is requested, or the socket could not be created. */
  predicate Ending(s: State) {
    s.closing || s.task.Exiting()
  }

  function StepsToGone(t: Task): nat {
    match t
    case Gone => 0
    case Posting(next) => (match next case ToGone => 1 case ToUnregister => 4 case ToLoop => 7)
    case Triggering(_, next) => (match next case ToGone => 2 case ToUnregister => 5 case ToLoop => 8)
    case Unregistering => 3
    case Unhooking => 4
    case Woken(_) => 5
    case Waiting => 6
    case Sending => 9
    case Creating => 10
  }

  function CallbackTurns(events: Events): nat {
    One(events.readable) + One(events.error) + One(events.final)
  }

  /** Bounds the turns before FINAL has been delivered. */
  function EndRank(s: State): nat {
    if !s.live then 0
    else if !s.task.Gone? then 7 + StepsToGone(s.task)
    else if Todo(s.js).final then CallbackTurns(s.js.events)
    else if s.js.Callbacks? then 5 + CallbackTurns(s.js.events)
    else 4
  }

  /** The worker's turns until it is gone, and then the deliveries and callbacks of the
      machine. */
  predicate EndTurn(s: State, step: Step) {
    if !s.task.Gone? then ByTask(step) else step.JsDeliver? || step.JsCallback?
  }

  predicate Advances(s: State, t: State, step: Step) {
    && Ending(t) && EndRank(t) <= EndRank(s)
    && (s.live && EndTurn(s, step) ==> EndRank(t) < EndRank(s))
  }

  lemma {:induction false} TriggerAdvances(s: State)
    requires Inv(s) && Ending(s) && s.task.Triggering?
    ensures Advances(s, Apply(s, TaskTrigger), TaskTrigger)
  {
  }

  lemma {:induction false} PostAdvances(s: State)
    requires Inv(s) && Ending(s) && s.task.Posting?
    ensures Advances(s, Apply(s, TaskPost), TaskPost)
  {
  }

  lemma {:induction false} ExitAdvances(s: State, step: Step)
    requires Inv(s) && Ending(s) && Enabled(s, step) && (step.TaskUnhook? || step.TaskUnregister?)
    ensures Advances(s, Apply(s, step), step)
  {
  }

  lemma {:induction false} TaskAdvances(s: State, step: Step)
    requires Inv(s) && Ending(s) && Enabled(s, step) && ByTask(step)
    ensures Advances(s, Apply(s, step), step)
  {
    match step
    case TaskTrigger => TriggerAdvances(s);
    case TaskPost => PostAdvances(s);
    case TaskUnhook => ExitAdvances(s, step);
    case TaskUnregister => ExitAdvances(s, step);
    case TaskTake =>
    case TaskCreate(_) =>
    case _ =>
  }

  lemma {:induction false} DeliveryAdvances(s: State, step: Step)
    requires Inv(s) && Ending(s) && Enabled(s, step) && (step.JsDeliver? || step.JsCallback?)
    ensures Advances(s, Apply(s, step), step)
  {
    match step
    case JsDeliver =>
    case JsCallback =>
  }

  lemma {:induction false} OthersAdvance(s: State, step: Step)
    requires Inv(s) && Ending(s) && Enabled(s, step) && !ByTask(step) && !step.JsDeliver? && !step.JsCallback?
    ensures Advances(s, Apply(s, step), step)
  {
    var t := Apply(s, step);
    assert t.task == s.task && t.js == s.js && t.live == s.live && (s.closing ==> t.closing);
  }

  function EndTurns(s: State, steps: seq<Step>): nat
    decreases |steps|
  {
    if steps == [] || !s.live then 0
    else if !Enabled(s, steps[0]) then EndTurns(s, steps[1..])
    else One(EndTurn(s, steps[0])) + EndTurns(Apply(s, steps[0]), steps[1..])
  }

  /** Once a close is requested, or the socket could not be created, FINAL is delivered
      within 17 turns of the worker and then of the machine, in every interleaving. */
  lemma {:induction false} CloseEnds(s: State, steps: seq<Step>)
    requires Inv(s) && Ending(s)
    ensures EndTurns(s, steps) <= EndRank(s) <= 17
    decreases |steps|
  {
    if steps != [] && s.live {
      var step, rest := steps[0], steps[1..];
      if Enabled(s, step) {
        StepKeepsInv(s, step);
        if ByTask(step) {
          TaskAdvances(s, step);
        } else if step.JsDeliver? || step.JsCallback? {
          DeliveryAdvances(s, step);
        } else {
          OthersAdvance(s, step);
        }
        CloseEnds(Apply(s, step), rest);
      } else {
        CloseEnds(s, rest);
      }
    }
  }

  /** While FINAL is to come, such a turn can be taken, or first a receive callback or a
      give of the semaphore that is under way finished. */
  lemma EndTurnIsEnabled(s: State)
    requires Inv(s) && Ending(s) && s.live
    ensures exists step ::
      && Enabled(s, step)
      && (EndTurn(s, step) || step.ReceiveTrigger? || step.ReceivePost? || step.JsGive? || step.ManagerGive?)
  {
    var step :=
      if s.task.Unhooking? && !s.callback.Quiet? then (if s.callback.Arrived? then ReceiveTrigger else ReceivePost)
      else if s.task.Unregistering? && s.managerGives then ManagerGive
      else if s.task.Gone? && s.jsGives then JsGive
      else
        match s.task
        case Creating => TaskCreate(true)
        case Waiting => TaskTimeout
        case Woken(_) => TaskTake
        case Sending => TaskSend(true)
        case Triggering(_, _) => TaskTrigger
        case Posting(_) => TaskPost
        case Unhooking => TaskUnhook
        case Unregistering => TaskUnregister
        case Gone => if s.js.Idle? then JsDeliver else JsCallback;
    assert Enabled(s, step);
  }

  // ------------------------------------------------------------------ a late write

  lemma RunOne(s: State, step: Step, rest: seq<Step>)
    requires Enabled(s, step)
    ensures Exec(s, [step] + rest) == Exec(Apply(s, step), rest)
  {
    assert ([step] + rest)[1..] == rest;
  }

  /** The socket cannot be created, and the worker goes. */
  lemma CreationFails(s: State, rest: seq<Step>)
    requires s == INITIAL
    ensures Exec(s, [TaskCreate(false)] + ([TaskTrigger] + ([TaskPost] + rest))) ==
      Exec(s.(task := Unregistering, pending := ERROR, msgs := 1), rest)
  {
    var a := Apply(s, TaskCreate(false));
    var b := Apply(a, TaskTrigger);
    RunOne(s, TaskCreate(false), [TaskTrigger] + ([TaskPost] + rest));
    RunOne(a, TaskTrigger, [TaskPost] + rest);
    RunOne(b, TaskPost, rest);
  }

  lemma WorkerGoes(s: State, rest: seq<Step>)
    requires s.live && s.task.Unregistering? && !s.managerGives && s.pending == ERROR
    ensures Exec(s, [TaskUnregister] + ([TaskTrigger] + rest)) ==
      Exec(s.(registered := false, task := Gone, pending := Events(false, true, true)), rest)
  {
    RunOne(s, TaskUnregister, [TaskTrigger] + rest);
    RunOne(Apply(s, TaskUnregister), TaskTrigger, rest);
  }

  /** The message is delivered, and then JS writes. */
  lemma WrittenTooLate(s: State)
    requires s.live && s.js.Idle? && !s.jsGives && s.msgs == 1 && s.pending == Events(false, true, true)
    ensures var t := Exec(s, [JsDeliver] + ([JsCallback] + ([JsCallback] + ([JsWrite] + []))));
      !t.live && t.fault
  {
    var a := Apply(s, JsDeliver);
    var b := Apply(a, JsCallback);
    var c := Apply(b, JsCallback);
    RunOne(s, JsDeliver, [JsCallback] + ([JsCallback] + ([JsWrite] + [])));
    RunOne(a, JsCallback, [JsCallback] + ([JsWrite] + []));
    RunOne(b, JsCallback, [JsWrite] + []);
    RunOne(c, JsWrite, []);
  }

  /** A run with a write after FINAL. */
  lemma {:induction false} LateWrite()
    ensures exists steps :: !Exec(INITIAL, steps).live && Exec(INITIAL, steps).fault
  {
    var end := [JsDeliver] + ([JsCallback] + ([JsCallback] + ([JsWrite] + [])));
    var leaving := [TaskUnregister] + ([TaskTrigger] + end);
    var steps := [TaskCreate(false)] + ([TaskTrigger] + ([TaskPost] + leaving));
    CreationFails(INITIAL, leaving);
    var s := INITIAL.(task := Unregistering, pending := ERROR, msgs := 1);
    WorkerGoes(s, end);
    WrittenTooLate(s.(registered := false, task := Gone, pending := Events(false, true, true)));
    assert !Exec(INITIAL, steps).live && Exec(INITIAL, steps).fault;
  }
}
