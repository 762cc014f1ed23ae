/** The stop path of native/tailscale-native.c: the manager task, the JS thread and
    any number of transport workers, with both kinds of mutex explicit. Taking a
    mutex is one step, the region it protects (which ends by giving it back) another. */
module Shutdown {
  import opened Basics

  datatype Kind = Tcp | Udp

  datatype Owner = Nobody | ManagerTask | JsThread | Worker(id: nat)

  datatype Manager =
    | Running
    | CloseLock
    | Look(kind: Kind)
    | WantRecord(kind: Kind, id: nat)
    | HoldRecord(kind: Kind, id: nat)
    | CloseUnlock
    | AwaitTcp
    | AwaitUdp
    | TakeLock
    | TakeEngine
    | Destroying
    | Closed
  {
    predicate HoldsLock() {
      Look? || WantRecord? || HoldRecord? || CloseUnlock? || TakeEngine?
    }
  }

  datatype Js =
    | Idle
    | WantRegister(id: nat)
    | Registering(id: nat)
    | Creating(id: nat)
    | WantWithdraw(id: nat)
    | Withdrawing(id: nat)
    | WantClose(id: nat)
    | Closing(id: nat)
  {
    predicate HoldsLock() {
      Registering? || Withdrawing?
    }
  }

  /** Engine calls and regions at most before a worker looks at `closing` again; and
      between its loop and the manager's pointer. */
  const LOOP_AHEAD: nat := 6
  const LEAVE_AHEAD: nat := 2

  /** `ahead`: how many of these may still come; `leaving`: the worker is out of its
      loop. */
  datatype Phase =
    | Fresh            // allocated, not yet in the manager
    | Registered       // in the manager, its task not yet created
    | WantEngine
    | ReadEngine
    | Using(engine: bool, ahead: nat, leaving: bool)
    | InRecord(engine: bool, ahead: nat, leaving: bool)
    | WantLeave
    | LeaveManager
    | Detached         // out of the manager, FINAL not yet posted
    | Finished
    | Discarded
  {
    predicate HoldsLock() {
      ReadEngine? || LeaveManager?
    }

    /** The transport is the one its manager points to. */
    predicate InManager() {
      Registered? || WantEngine? || ReadEngine? || Using? || InRecord? || WantLeave? || LeaveManager?
    }
  }

  datatype Record = Record(kind: Kind, phase: Phase, live: bool, closing: bool, lock: Owner)

  datatype PerKind<T> = PerKind(tcp: T, udp: T) {
    function Get(kind: Kind): T { if kind.Tcp? then tcp else udp }

    function Set(kind: Kind, value: T): PerKind<T> {
      if kind.Tcp? then this.(tcp := value) else this.(udp := value)
    }
  }

  /** `started`: `microlink_init` has run; `ml`: the manager points to the engine;
      `alive`: it has not been destroyed. `fault` records a use of a freed record or
      of a destroyed engine. */
  datatype State = State(
    manager: Manager, js: Js, lock: Owner, records: seq<Record>,
    slot: PerKind<Option<nat>>, active: PerKind<bool>,
    stop: bool, started: bool, ml: bool, alive: bool, fault: bool)
  {
    predicate Known(id: nat) { id < |records| }

    function With(id: nat, record: Record): State
      requires Known(id)
    {
      this.(records := records[id := record])
    }

    function Phased(id: nat, phase: Phase): State
      requires Known(id)
    {
      With(id, records[id].(phase := phase))
    }

    /** A dereference of a record. */
    function Deref(id: nat): State {
      this.(fault := fault || !Known(id) || !records[id].live)
    }
  }

  const INITIAL := State(
    Running, Idle, Nobody, [], PerKind(None, None), PerKind(false, false), false, false, false, false, false)

  datatype JsStep =
    | JsStop
    | JsConstruct(kind: Kind)
    | JsTakeLock
    | JsRegister
    | JsCreate(ok: bool)
    | JsWithdraw
    | JsClose(id: nat)
    | JsTakeRecord
    | JsCloseRegion
    | JsDeliverFinal(id: nat)

  datatype ManagerStep =
    | ManagerStart
    | ManagerStop
    | ManagerTakeLock
    | ManagerLook
    | ManagerTakeRecord
    | ManagerCloseRegion
    | ManagerUnlock
    | ManagerAwait
    | ManagerTakeEngine
    | ManagerDestroy

  datatype WorkerStep =
    | WorkerTakeLock
    | WorkerReadEngine
    | WorkerUse
    | WorkerTakeRecord
    | WorkerRegion(look: bool)
    | WorkerFail
    | WorkerLeave
    | WorkerUnregister
    | WorkerFinish

  datatype Step = ByJs(js: JsStep) | ByManager(manager: ManagerStep) | ByWorker(id: nat, worker: WorkerStep)

  predicate JsEnabled(s: State, step: JsStep) {
    match step
    case JsStop => s.js.Idle?
    case JsConstruct(_) => s.js.Idle? && !s.manager.Closed?
    case JsTakeLock => (s.js.WantRegister? || s.js.WantWithdraw?) && s.lock.Nobody?
    case JsRegister => s.js.Registering? && s.Known(s.js.id)
    case JsCreate(_) => s.js.Creating? && s.Known(s.js.id)
    case JsWithdraw => s.js.Withdrawing? && s.Known(s.js.id)
    case JsClose(id) => s.js.Idle? && s.Known(id) && s.records[id].live
    case JsTakeRecord => s.js.WantClose? && s.Known(s.js.id) && s.records[s.js.id].lock.Nobody?
    case JsCloseRegion => s.js.Closing? && s.Known(s.js.id)
    case JsDeliverFinal(id) => s.js.Idle? && s.Known(id) && s.records[id].phase.Finished? && s.records[id].live
  }

  predicate ManagerEnabled(s: State, step: ManagerStep) {
    match step
    case ManagerStart => s.manager.Running? && !s.started
    case ManagerStop => s.manager.Running? && s.stop
    case ManagerTakeLock => (s.manager.CloseLock? || s.manager.TakeLock?) && s.lock.Nobody?
    case ManagerLook => s.manager.Look?
    case ManagerTakeRecord =>
      s.manager.WantRecord? && (s.Known(s.manager.id) ==> s.records[s.manager.id].lock.Nobody?)
    case ManagerCloseRegion => s.manager.HoldRecord? && s.Known(s.manager.id)
    case ManagerUnlock => s.manager.CloseUnlock?
    case ManagerAwait => s.manager.AwaitTcp? || s.manager.AwaitUdp?
    case ManagerTakeEngine => s.manager.TakeEngine?
    case ManagerDestroy => s.manager.Destroying?
  }

  predicate WorkerEnabled(s: State, id: nat, step: WorkerStep) {
    s.Known(id) &&
    var r := s.records[id];
    match step
    case WorkerTakeLock => (r.phase.WantEngine? || r.phase.WantLeave?) && s.lock.Nobody?
    case WorkerReadEngine => r.phase.ReadEngine?
    case WorkerUse => r.phase.Using? && r.phase.ahead > 0
    case WorkerTakeRecord => r.phase.Using? && r.lock.Nobody? && (r.phase.ahead > 0 || !r.phase.leaving)
    case WorkerRegion(look) => r.phase.InRecord? && (if look then !r.phase.leaving else r.phase.ahead > 0)
    case WorkerFail => r.phase.Using? && !r.phase.leaving
    case WorkerLeave => r.phase.Using? && r.phase.leaving
    case WorkerUnregister => r.phase.LeaveManager?
    case WorkerFinish => r.phase.Detached?
  }

  predicate Enabled(s: State, step: Step) {
    match step
    case ByJs(js) => JsEnabled(s, js)
    case ByManager(manager) => ManagerEnabled(s, manager)
    case ByWorker(id, worker) => WorkerEnabled(s, id, worker)
  }

  /** After the TCP pointer the manager looks at the UDP pointer. */
  function AfterLook(kind: Kind): Manager {
    if kind.Tcp? then Look(Udp) else CloseUnlock
  }

  function JsApply(s: State, step: JsStep): State
    requires JsEnabled(s, step)
  {
    match step
    case JsStop => s.(stop := true)
    case JsConstruct(kind) =>
      s.(records := s.records + [Record(kind, Fresh, true, false, Nobody)], js := WantRegister(|s.records|))
    case JsTakeLock =>
      s.(lock := JsThread, js := if s.js.WantRegister? then Registering(s.js.id) else Withdrawing(s.js.id))
    case JsRegister =>
      var id := s.js.id;
      var kind := s.records[id].kind;
      if s.slot.Get(kind).Some? || s.stop then
        s.With(id, s.records[id].(phase := Discarded, live := false)).(lock := Nobody, js := Idle)
      else
        s.Phased(id, Registered).(slot := s.slot.Set(kind, Some(id)), active := s.active.Set(kind, true),
          lock := Nobody, js := Creating(id))
    case JsCreate(ok) =>
      if ok then s.Deref(s.js.id).Phased(s.js.id, WantEngine).(js := Idle) else s.(js := WantWithdraw(s.js.id))
    case JsWithdraw =>
      var id := s.js.id;
      var kind := s.records[id].kind;
      s.With(id, s.records[id].(phase := Discarded, live := false)).(
        slot := s.slot.Set(kind, None), active := s.active.Set(kind, false), lock := Nobody, js := Idle)
    case JsClose(id) => s.(js := WantClose(id))
    case JsTakeRecord =>
      s.Deref(s.js.id).With(s.js.id, s.records[s.js.id].(lock := JsThread)).(js := Closing(s.js.id))
    case JsCloseRegion =>
      s.Deref(s.js.id).With(s.js.id, s.records[s.js.id].(lock := Nobody, closing := true)).(js := Idle)
    case JsDeliverFinal(id) =>
      s.With(id, s.records[id].(live := false)).(fault := s.fault || !s.records[id].lock.Nobody?)
  }

  function ManagerApply(s: State, step: ManagerStep): State
    requires ManagerEnabled(s, step)
  {
    match step
    case ManagerStart => s.(started := true, ml := true, alive := true)
    case ManagerStop => s.(manager := CloseLock)
    case ManagerTakeLock => s.(lock := ManagerTask, manager := if s.manager.CloseLock? then Look(Tcp) else TakeEngine)
    case ManagerLook =>
      var kind := s.manager.kind;
      (match s.slot.Get(kind)
       case None => s.(manager := AfterLook(kind))
       case Some(id) => s.(manager := WantRecord(kind, id)))
    case ManagerTakeRecord =>
      var id := s.manager.id;
      var held := s.Deref(id).(manager := HoldRecord(s.manager.kind, id));
      if s.Known(id) then held.With(id, s.records[id].(lock := ManagerTask)) else held
    case ManagerCloseRegion =>
      var id := s.manager.id;
      s.Deref(id).With(id, s.records[id].(lock := Nobody, closing := true)).(manager := AfterLook(s.manager.kind))
    case ManagerUnlock => s.(lock := Nobody, manager := AwaitTcp)
    case ManagerAwait =>
      if s.manager.AwaitTcp? then (if s.active.tcp then s else s.(manager := AwaitUdp))
      else if s.active.udp then s.(manager := AwaitTcp)
      else s.(manager := TakeLock)
    case ManagerTakeEngine => s.(ml := false, lock := Nobody, manager := Destroying)
    case ManagerDestroy => s.(alive := false, manager := Closed)
  }

  /** Where a region of the record's mutex leads; at one that looks at `closing` the loop
      ends or goes round once more. */
  function AfterRegion(r: Record, look: bool): Phase
    requires r.phase.InRecord? && (!look ==> r.phase.ahead > 0)
  {
    var phase := r.phase;
    if !look then Using(phase.engine, phase.ahead - 1, phase.leaving)
    else if r.closing then Using(phase.engine, LEAVE_AHEAD, true)
    else Using(phase.engine, LOOP_AHEAD, false)
  }

  function WorkerApply(s: State, id: nat, step: WorkerStep): State
    requires WorkerEnabled(s, id, step)
  {
    match step
    case WorkerTakeLock =>
      s.Deref(id).Phased(id, if s.records[id].phase.WantEngine? then ReadEngine else LeaveManager).(lock := Worker(id))
    case WorkerReadEngine => s.Deref(id).Phased(id, Using(s.ml, LOOP_AHEAD, false)).(lock := Nobody)
    case WorkerUse =>
      var phase := s.records[id].phase;
      s.Deref(id).Phased(id, Using(phase.engine, phase.ahead - 1, phase.leaving)).(
        fault := s.Deref(id).fault || (phase.engine && !s.alive))
    case WorkerTakeRecord =>
      var phase := s.records[id].phase;
      s.Deref(id).With(id,
        s.records[id].(phase := InRecord(phase.engine, phase.ahead, phase.leaving), lock := Worker(id)))
    case WorkerRegion(look) =>
      s.Deref(id).With(id, s.records[id].(phase := AfterRegion(s.records[id], look), lock := Nobody))
    case WorkerFail => s.Deref(id).Phased(id, Using(s.records[id].phase.engine, LEAVE_AHEAD, true))
    case WorkerLeave => s.Deref(id).Phased(id, WantLeave)
    case WorkerUnregister =>
      var kind := s.records[id].kind;
      s.Deref(id).Phased(id, Detached).(
        slot := if s.slot.Get(kind) == Some(id) then s.slot.Set(kind, None) else s.slot,
        active := s.active.Set(kind, false), lock := Nobody)
    case WorkerFinish => s.Deref(id).Phased(id, Finished)
  }

  function Apply(s: State, step: Step): State
    requires Enabled(s, step)
  {
    match step
    case ByJs(js) => JsApply(s, js)
    case ByManager(manager) => ManagerApply(s, manager)
    case ByWorker(id, worker) => WorkerApply(s, id, worker)
  }

  function Exec(s: State, steps: seq<Step>): State
    decreases |steps|
  {
    if steps == [] then s
    else Exec(if Enabled(s, steps[0]) then Apply(s, steps[0]) else s, steps[1..])
  }

  // ---------------------------------------------------------------- invariants

  /** The manager mutex is held exactly by the party inside one of its regions. */
  ghost predicate LockInv(s: State) {
    && (s.lock == ManagerTask <==> s.manager.HoldsLock())
    && (s.lock == JsThread <==> s.js.HoldsLock())
    && (s.lock.Worker? ==> s.Known(s.lock.id) && s.records[s.lock.id].phase.HoldsLock())
  }

  /** A manager pointer in use stays what it was, because the manager holds its lock. */
  ghost predicate ManagerInv(s: State) {
    && (s.active.tcp <==> s.slot.tcp.Some?) && (s.active.udp <==> s.slot.udp.Some?)
    && (s.slot.tcp.Some? ==> Points(s, Tcp, s.slot.tcp.value))
    && (s.slot.udp.Some? ==> Points(s, Udp, s.slot.udp.value))
    && (s.manager.WantRecord? || s.manager.HoldRecord? ==> s.slot.Get(s.manager.kind) == Some(s.manager.id))
  }

  predicate Points(s: State, kind: Kind, id: nat) {
    s.Known(id) && s.records[id].kind == kind && s.records[id].phase.InManager()
  }

  ghost predicate JsInv(s: State) {
    match s.js
    case Idle => true
    case WantRegister(id) => s.Known(id) && s.records[id].phase.Fresh?
    case Registering(id) => s.Known(id) && s.records[id].phase.Fresh?
    case Creating(id) => s.Known(id) && s.records[id].phase.Registered?
    case WantWithdraw(id) => s.Known(id) && s.records[id].phase.Registered?
    case Withdrawing(id) => s.Known(id) && s.records[id].phase.Registered?
    case WantClose(id) => s.Known(id) && s.records[id].live
    case Closing(id) => s.Known(id) && s.records[id].live
  }

  /** After the stop no transport is registered behind the manager's back. */
  ghost predicate StopInv(s: State) {
    && !s.fault
    && (!s.manager.Running? ==> s.stop)
    && (s.manager.AwaitUdp? ==> !s.active.tcp)
    && (s.manager.TakeLock? || s.manager.TakeEngine? || s.manager.Destroying? || s.manager.Closed? ==>
        !s.active.tcp && !s.active.udp)
    && (s.ml ==> s.alive)
    && (s.manager.Destroying? || s.manager.Closed? ==> !s.ml)
  }

  ghost predicate Globals(s: State) {
    LockInv(s) && ManagerInv(s) && JsInv(s) && StopInv(s)
  }

  /** What holds of each transport. */
  ghost predicate RecordInv(s: State, id: nat)
    requires s.Known(id)
  {
    var r := s.records[id];
    && (s.lock == Worker(id) <==> r.phase.HoldsLock())
    && (r.lock == ManagerTask <==> s.manager.HoldRecord? && s.manager.id == id)
    && (r.lock == JsThread <==> s.js.Closing? && s.js.id == id)
    && (r.lock.Worker? <==> r.phase.InRecord?)
    && (r.phase.InManager() ==> s.slot.Get(r.kind) == Some(id))
    && (!r.live ==> r.phase.Finished? || r.phase.Discarded?)
    && (r.phase.Discarded? ==> !r.live)
    && (r.phase.Fresh? ==> (s.js.WantRegister? || s.js.Registering?) && s.js.id == id)
    && (r.phase.Registered? ==> (s.js.Creating? || s.js.WantWithdraw? || s.js.Withdrawing?) && s.js.id == id)
    && (r.phase.Using? || r.phase.InRecord? ==> (r.phase.engine ==> s.alive) && r.phase.ahead <= LOOP_AHEAD)
    && (r.phase.InRecord? && r.phase.leaving ==> r.phase.ahead > 0)
  }

  ghost predicate Inv(s: State) {
    && Globals(s)
    && forall id: nat | s.Known(id) :: RecordInv(s, id)
  }

  lemma Initially()
    ensures Inv(INITIAL)
  {
  }

  /** The part of the invariant a JS step needs for transport `id`. */
  ghost predicate JsContext(s: State, id: nat) {
    && Globals(s)
    && (s.Known(id) ==> RecordInv(s, id))
    && (!s.js.Idle? ==> RecordInv(s, s.js.id))
  }

  lemma {:induction false} RegisterKeepsRecord(s: State, id: nat)
    requires s.Known(id) && JsContext(s, id) && JsEnabled(s, JsRegister)
    ensures RecordInv(JsApply(s, JsRegister), id)
  {
    if id == s.js.id {
      RegisterKeepsOwnRecord(s);
    }
  }

  lemma {:induction false} RegisterKeepsOwnRecord(s: State)
    requires JsEnabled(s, JsRegister) && JsContext(s, s.js.id)
    ensures RecordInv(JsApply(s, JsRegister), s.js.id)
  {
  }

  lemma {:induction false} WithdrawKeepsRecord(s: State, id: nat)
    requires s.Known(id) && JsContext(s, id) && JsEnabled(s, JsWithdraw)
    ensures RecordInv(JsApply(s, JsWithdraw), id)
  {
  }

  lemma {:induction false} ConstructKeepsRecord(s: State, kind: Kind, id: nat)
    requires id <= |s.records| && JsContext(s, id) && JsEnabled(s, JsConstruct(kind))
    ensures RecordInv(JsApply(s, JsConstruct(kind)), id)
  {
  }

  lemma {:induction false} CreateKeepsRecord(s: State, ok: bool, id: nat)
    requires s.Known(id) && JsContext(s, id) && JsEnabled(s, JsCreate(ok))
    ensures RecordInv(JsApply(s, JsCreate(ok)), id)
  {
  }

  lemma {:induction false} TakeLockKeepsRecord(s: State, id: nat)
    requires s.Known(id) && JsContext(s, id) && JsEnabled(s, JsTakeLock)
    ensures RecordInv(JsApply(s, JsTakeLock), id)
  {
  }

  lemma {:induction false} IdleJsKeepsRecord(s: State, step: JsStep, id: nat)
    requires step.JsStop? || step.JsClose? || step.JsDeliverFinal?
    requires s.Known(id) && JsContext(s, id) && JsEnabled(s, step)
    ensures RecordInv(JsApply(s, step), id)
  {
  }

  lemma {:induction false} JsKeepsRecord(s: State, step: JsStep, id: nat)
    requires JsContext(s, id) && JsEnabled(s, step) && JsApply(s, step).Known(id)
    ensures RecordInv(JsApply(s, step), id)
  {
    match step
    case JsConstruct(kind) => ConstructKeepsRecord(s, kind, id);
    case JsRegister => RegisterKeepsRecord(s, id);
    case JsWithdraw => WithdrawKeepsRecord(s, id);
    case JsCreate(ok) => CreateKeepsRecord(s, ok, id);
    case JsTakeLock => TakeLockKeepsRecord(s, id);
    case JsTakeRecord =>
    case JsCloseRegion =>
    case _ => IdleJsKeepsRecord(s, step, id);
  }

  lemma {:induction false} ManagerRegionKeepsRecord(s: State, step: ManagerStep, id: nat)
    requires InRegion(step)
    requires s.Known(id) && Globals(s) && RecordInv(s, id) && ManagerEnabled(s, step)
    ensures RecordInv(ManagerApply(s, step), id)
  {
  }

  lemma {:induction false} EngineStepKeepsRecord(s: State, step: ManagerStep, id: nat)
    requires step.ManagerStart? || step.ManagerTakeEngine? || step.ManagerDestroy?
    requires s.Known(id) && Globals(s) && RecordInv(s, id) && ManagerEnabled(s, step)
    ensures RecordInv(ManagerApply(s, step), id)
  {
  }

  lemma {:induction false} ManagerKeepsRecord(s: State, step: ManagerStep, id: nat)
    requires s.Known(id) && Globals(s) && RecordInv(s, id) && ManagerEnabled(s, step)
    ensures RecordInv(ManagerApply(s, step), id)
  {
    if InRegion(step) {
      ManagerRegionKeepsRecord(s, step, id);
    } else if step.ManagerStart? || step.ManagerTakeEngine? || step.ManagerDestroy? {
      EngineStepKeepsRecord(s, step, id);
    } else {
      ManagerOnlyMoves(s, step);
      MovedRecord(s, ManagerApply(s, step).manager, ManagerApply(s, step).lock, id);
    }
  }

  predicate Moves(step: ManagerStep) {
    !InRegion(step) && !step.ManagerStart? && !step.ManagerTakeEngine? && !step.ManagerDestroy?
  }

  lemma {:induction false} ManagerOnlyLocks(s: State, step: ManagerStep)
    requires ManagerEnabled(s, step) && (step.ManagerTakeLock? || step.ManagerUnlock?) && LockInv(s)
    ensures var t := ManagerApply(s, step);
      && t == s.(manager := t.manager, lock := t.lock)
      && !s.manager.HoldRecord? && !t.manager.HoldRecord?
      && (t.lock == s.lock || (!s.lock.Worker? && !t.lock.Worker?))
  {
  }

  lemma ManagerOnlyLooks(s: State)
    requires ManagerEnabled(s, ManagerLook)
    ensures var t := ManagerApply(s, ManagerLook);
      && t == s.(manager := t.manager, lock := t.lock)
      && !s.manager.HoldRecord? && !t.manager.HoldRecord?
      && (t.lock == s.lock || (!s.lock.Worker? && !t.lock.Worker?))
  {
  }

  lemma {:induction false} ManagerOnlyMoves(s: State, step: ManagerStep)
    requires ManagerEnabled(s, step) && Moves(step) && LockInv(s)
    ensures var t := ManagerApply(s, step);
      && t == s.(manager := t.manager, lock := t.lock)
      && !s.manager.HoldRecord? && !t.manager.HoldRecord?
      && (t.lock == s.lock || (!s.lock.Worker? && !t.lock.Worker?))
  {
    match step
    case ManagerLook => ManagerOnlyLooks(s);
    case ManagerTakeLock => ManagerOnlyLocks(s, step);
    case ManagerUnlock => ManagerOnlyLocks(s, step);
    case ManagerStop =>
    case ManagerAwait =>
  }

  lemma MovedRecord(s: State, manager: Manager, lock: Owner, id: nat)
    requires s.Known(id) && RecordInv(s, id)
    requires !s.manager.HoldRecord? && !manager.HoldRecord?
    requires lock == s.lock || (!s.lock.Worker? && !lock.Worker?)
    ensures RecordInv(s.(manager := manager, lock := lock), id)
  {
  }

  /** A step that leaves transport `id` and what is said of it alone. */
  lemma RecordFrame(s: State, t: State, id: nat)
    requires s.Known(id) && t.Known(id) && RecordInv(s, id) && t.records[id] == s.records[id]
    requires t.manager == s.manager && t.js == s.js && t.alive == s.alive
    requires t.lock == Worker(id) <==> s.lock == Worker(id)
    requires s.slot.Get(s.records[id].kind) == Some(id) ==> t.slot.Get(s.records[id].kind) == Some(id)
    ensures RecordInv(t, id)
  {
  }

  /** A worker's step, for another transport than its own. */
  lemma {:induction false} WorkerKeepsOther(s: State, own: nat, step: WorkerStep, id: nat)
    requires s.Known(id) && RecordInv(s, id) && id != own
    requires WorkerEnabled(s, own, step) && RecordInv(s, own)
    ensures RecordInv(WorkerApply(s, own, step), id)
  {
    WorkerLeavesOther(s, own, step, id);
    RecordFrame(s, WorkerApply(s, own, step), id);
  }

  lemma {:induction false} WorkerLeavesOther(s: State, own: nat, step: WorkerStep, id: nat)
    requires s.Known(id) && id != own && WorkerEnabled(s, own, step)
    requires s.lock == Worker(own) <==> s.records[own].phase.HoldsLock()
    ensures var t := WorkerApply(s, own, step);
      && t.Known(id) && t.records[id] == s.records[id]
      && t.manager == s.manager && t.js == s.js && t.alive == s.alive
      && (t.lock == Worker(id) <==> s.lock == Worker(id))
      && (s.slot.Get(s.records[id].kind) == Some(id) ==> t.slot.Get(s.records[id].kind) == Some(id))
  {
  }

  /** For its own, when it takes or gives back the manager's mutex. */
  lemma {:induction false} LockKeepsOwnRecord(s: State, id: nat, step: WorkerStep)
    requires step.WorkerTakeLock? || step.WorkerReadEngine? || step.WorkerUnregister?
    requires s.Known(id) && Globals(s) && RecordInv(s, id) && WorkerEnabled(s, id, step)
    ensures RecordInv(WorkerApply(s, id, step), id)
  {
  }

  lemma {:induction false} RegionKeepsOwnRecord(s: State, id: nat, step: WorkerStep)
    requires step.WorkerTakeRecord? || step.WorkerRegion?
    requires s.Known(id) && Globals(s) && RecordInv(s, id) && WorkerEnabled(s, id, step)
    ensures RecordInv(WorkerApply(s, id, step), id)
  {
  }

  lemma {:induction false} UseKeepsOwnRecord(s: State, id: nat, step: WorkerStep)
    requires step.WorkerUse? || step.WorkerFail? || step.WorkerLeave? || step.WorkerFinish?
    requires s.Known(id) && Globals(s) && RecordInv(s, id) && WorkerEnabled(s, id, step)
    ensures RecordInv(WorkerApply(s, id, step), id)
  {
  }

  lemma {:induction false} WorkerKeepsRecord(s: State, own: nat, step: WorkerStep, id: nat)
    requires s.Known(id) && Globals(s) && RecordInv(s, id)
    requires WorkerEnabled(s, own, step) && RecordInv(s, own)
    ensures RecordInv(WorkerApply(s, own, step), id)
  {
    if id != own {
      WorkerKeepsOther(s, own, step, id);
    } else {
      match step
      case WorkerTakeLock => LockKeepsOwnRecord(s, id, step);
      case WorkerReadEngine => LockKeepsOwnRecord(s, id, step);
      case WorkerUnregister => LockKeepsOwnRecord(s, id, step);
      case WorkerTakeRecord => RegionKeepsOwnRecord(s, id, step);
      case WorkerRegion(_) => RegionKeepsOwnRecord(s, id, step);
      case _ => UseKeepsOwnRecord(s, id, step);
    }
  }

  lemma {:induction false} JsKeepsLockInv(s: State, step: JsStep)
    requires Globals(s) && (!s.js.Idle? ==> RecordInv(s, s.js.id)) && JsEnabled(s, step)
    ensures LockInv(JsApply(s, step))
  {
    if step.JsRegister? || step.JsWithdraw? {
      JsRegionKeepsLockInv(s, step);
    } else if step.JsConstruct? || step.JsTakeLock? {
      JsEntryKeepsLockInv(s, step);
    } else {
      JsMoveKeepsLockInv(s, step);
    }
  }

  lemma {:induction false} JsEntryKeepsLockInv(s: State, step: JsStep)
    requires step.JsConstruct? || step.JsTakeLock?
    requires Globals(s) && JsEnabled(s, step)
    ensures LockInv(JsApply(s, step))
  {
  }

  lemma {:induction false} JsMoveKeepsLockInv(s: State, step: JsStep)
    requires !step.JsRegister? && !step.JsWithdraw? && !step.JsConstruct? && !step.JsTakeLock?
    requires Globals(s) && (!s.js.Idle? ==> RecordInv(s, s.js.id)) && JsEnabled(s, step)
    ensures LockInv(JsApply(s, step))
  {
    var t := JsApply(s, step);
    assert t.manager == s.manager && t.lock == s.lock;
    assert s.lock.Worker? ==> t.records[s.lock.id].phase == s.records[s.lock.id].phase;
  }

  lemma {:induction false} JsRegionKeepsLockInv(s: State, step: JsStep)
    requires step.JsRegister? || step.JsWithdraw?
    requires Globals(s) && JsEnabled(s, step) && RecordInv(s, s.js.id)
    ensures LockInv(JsApply(s, step))
  {
  }

  lemma {:induction false} ManagerKeepsLockInv(s: State, step: ManagerStep)
    requires Globals(s) && ManagerEnabled(s, step)
    requires s.manager.WantRecord? || s.manager.HoldRecord? ==> RecordInv(s, s.manager.id)
    ensures LockInv(ManagerApply(s, step))
  {
  }

  lemma {:induction false} WorkerKeepsLockInv(s: State, own: nat, step: WorkerStep)
    requires Globals(s) && WorkerEnabled(s, own, step) && RecordInv(s, own)
    ensures LockInv(WorkerApply(s, own, step))
  {
  }

  lemma {:induction false} RegisterKeepsManagerInv(s: State)
    requires Globals(s) && JsEnabled(s, JsRegister) && RecordInv(s, s.js.id)
    ensures ManagerInv(JsApply(s, JsRegister))
  {
    var kind := s.records[s.js.id].kind;
    if s.slot.Get(kind).None? && !s.stop {
      var t := JsApply(s, JsRegister);
      assert Points(t, kind, s.js.id);
      assert s.slot.tcp.Some? ==> Points(t, Tcp, s.slot.tcp.value);
      assert s.slot.udp.Some? ==> Points(t, Udp, s.slot.udp.value);
    }
  }

  lemma {:induction false} WithdrawKeepsManagerInv(s: State)
    requires Globals(s) && JsEnabled(s, JsWithdraw) && RecordInv(s, s.js.id)
    ensures ManagerInv(JsApply(s, JsWithdraw))
  {
  }

  lemma {:induction false} JsKeepsManagerInv(s: State, step: JsStep)
    requires Globals(s) && (!s.js.Idle? ==> RecordInv(s, s.js.id)) && JsEnabled(s, step)
    ensures ManagerInv(JsApply(s, step))
  {
    if step.JsRegister? {
      RegisterKeepsManagerInv(s);
    } else if step.JsWithdraw? {
      WithdrawKeepsManagerInv(s);
    } else if step.JsCreate? {
      CreateKeepsManagerInv(s, step.ok);
    } else {
      var t := JsApply(s, step);
      assert t.slot == s.slot && t.active == s.active && t.manager == s.manager;
    }
  }

  lemma {:induction false} CreateKeepsManagerInv(s: State, ok: bool)
    requires Globals(s) && JsEnabled(s, JsCreate(ok)) && RecordInv(s, s.js.id)
    ensures ManagerInv(JsApply(s, JsCreate(ok)))
  {
    var t := JsApply(s, JsCreate(ok));
    assert s.slot.tcp.Some? ==> Points(t, Tcp, s.slot.tcp.value);
    assert s.slot.udp.Some? ==> Points(t, Udp, s.slot.udp.value);
  }

  lemma {:induction false} ManagerKeepsManagerInv(s: State, step: ManagerStep)
    requires Globals(s) && ManagerEnabled(s, step)
    requires s.manager.WantRecord? || s.manager.HoldRecord? ==> RecordInv(s, s.manager.id)
    ensures ManagerInv(ManagerApply(s, step))
  {
    ManagerKeepsPoints(s, step, Tcp);
    ManagerKeepsPoints(s, step, Udp);
    ManagerLooksAtSlot(s, step);
  }

  lemma {:induction false} RegionKeepsPointers(s: State, step: ManagerStep)
    requires ManagerEnabled(s, step) && InRegion(step)
    ensures var t := ManagerApply(s, step);
      t.js == s.js && t.slot == s.slot && t.active == s.active
  {
    match step
    case ManagerTakeRecord =>
    case ManagerCloseRegion =>
  }

  lemma {:induction false} ManagerKeepsPointers(s: State, step: ManagerStep)
    requires ManagerEnabled(s, step)
    ensures var t := ManagerApply(s, step);
      t.js == s.js && t.slot == s.slot && t.active == s.active
  {
    if InRegion(step) {
      RegionKeepsPointers(s, step);
    } else {
      assert ManagerApply(s, step).records == s.records;
    }
  }

  predicate InRegion(step: ManagerStep) {
    step.ManagerTakeRecord? || step.ManagerCloseRegion?
  }

  lemma {:induction false} RegionLeavesPhases(s: State, step: ManagerStep, id: nat)
    requires s.Known(id) && ManagerEnabled(s, step) && InRegion(step)
    ensures var t := ManagerApply(s, step);
      && t.Known(id) && t.records[id].phase == s.records[id].phase
      && t.records[id].live == s.records[id].live && t.records[id].kind == s.records[id].kind
  {
  }

  lemma {:induction false} ManagerLeavesPhases(s: State, step: ManagerStep, id: nat)
    requires s.Known(id) && ManagerEnabled(s, step)
    ensures var t := ManagerApply(s, step);
      && t.Known(id) && t.records[id].phase == s.records[id].phase
      && t.records[id].live == s.records[id].live && t.records[id].kind == s.records[id].kind
  {
    if InRegion(step) {
      RegionLeavesPhases(s, step, id);
    } else {
      assert ManagerApply(s, step).records == s.records;
    }
  }

  lemma {:induction false} ManagerKeepsPoints(s: State, step: ManagerStep, kind: Kind)
    requires ManagerEnabled(s, step) && (s.slot.Get(kind).Some? ==> Points(s, kind, s.slot.Get(kind).value))
    ensures var t := ManagerApply(s, step);
      && t.slot == s.slot && t.active == s.active
      && (t.slot.Get(kind).Some? ==> Points(t, kind, t.slot.Get(kind).value))
  {
    ManagerKeepsPointers(s, step);
    if s.slot.Get(kind).Some? {
      ManagerLeavesPhases(s, step, s.slot.Get(kind).value);
    }
  }

  lemma {:induction false} ManagerLooksAtSlot(s: State, step: ManagerStep)
    requires ManagerEnabled(s, step)
    requires s.manager.WantRecord? || s.manager.HoldRecord? ==> s.slot.Get(s.manager.kind) == Some(s.manager.id)
    ensures var t := ManagerApply(s, step);
      t.manager.WantRecord? || t.manager.HoldRecord? ==> t.slot.Get(t.manager.kind) == Some(t.manager.id)
  {
    ManagerKeepsPointers(s, step);
    match step
    case ManagerLook =>
    case ManagerTakeRecord =>
    case ManagerCloseRegion =>
    case _ =>
  }

  lemma {:induction false} WorkerKeepsManagerInv(s: State, own: nat, step: WorkerStep)
    requires Globals(s) && WorkerEnabled(s, own, step) && RecordInv(s, own)
    ensures ManagerInv(WorkerApply(s, own, step))
  {
    if step.WorkerUnregister? {
      UnregisterKeepsManagerInv(s, own);
    } else {
      var t := WorkerApply(s, own, step);
      assert t.slot == s.slot && t.active == s.active && t.manager == s.manager;
      assert s.slot.tcp.Some? ==> Points(t, Tcp, s.slot.tcp.value);
      assert s.slot.udp.Some? ==> Points(t, Udp, s.slot.udp.value);
    }
  }

  lemma {:induction false} UnregisterKeepsManagerInv(s: State, own: nat)
    requires Globals(s) && WorkerEnabled(s, own, WorkerUnregister) && RecordInv(s, own)
    ensures ManagerInv(WorkerApply(s, own, WorkerUnregister))
  {
  }

  lemma {:induction false} JsKeepsJsInv(s: State, step: JsStep)
    requires Globals(s) && (!s.js.Idle? ==> RecordInv(s, s.js.id)) && JsEnabled(s, step)
    ensures JsInv(JsApply(s, step))
  {
  }

  /** A step that leaves the transport of the JS thread alone. */
  lemma JsFrame(s: State, t: State)
    requires JsInv(s) && t.js == s.js
    requires !s.js.Idle? && s.Known(s.js.id) ==>
      && t.Known(s.js.id) && t.records[s.js.id].phase == s.records[s.js.id].phase
      && t.records[s.js.id].live == s.records[s.js.id].live
    ensures JsInv(t)
  {
  }

  lemma {:induction false} ManagerKeepsJsInv(s: State, step: ManagerStep)
    requires JsInv(s) && ManagerEnabled(s, step)
    ensures JsInv(ManagerApply(s, step))
  {
    if !s.js.Idle? {
      ManagerLeavesPhases(s, step, s.js.id);
    }
    ManagerKeepsPointers(s, step);
    JsFrame(s, ManagerApply(s, step));
  }

  /** A worker does not end what the JS thread is doing with its transport. */
  lemma {:induction false} WorkerKeepsJsInv(s: State, own: nat, step: WorkerStep)
    requires JsInv(s) && WorkerEnabled(s, own, step)
    ensures JsInv(WorkerApply(s, own, step))
  {
    var t := WorkerApply(s, own, step);
    WorkerStaysLive(s, own, step);
    if !s.js.Idle? && s.js.id != own {
      JsFrame(s, t);
    }
  }

  lemma {:induction false} WorkerStaysLive(s: State, own: nat, step: WorkerStep)
    requires WorkerEnabled(s, own, step)
    ensures var t := WorkerApply(s, own, step);
      && t.js == s.js && |t.records| == |s.records| && t.records[own].live == s.records[own].live
      && forall id: nat | s.Known(id) && id != own :: t.records[id] == s.records[id]
  {
    match step
    case WorkerTakeLock =>
    case WorkerReadEngine =>
    case WorkerUse =>
    case WorkerTakeRecord =>
    case WorkerRegion(_) =>
    case WorkerUnregister =>
    case _ =>
  }

  lemma {:induction false} JsKeepsStopInv(s: State, step: JsStep)
    requires Globals(s) && (!s.js.Idle? ==> RecordInv(s, s.js.id)) && JsEnabled(s, step)
    requires step.JsDeliverFinal? ==> RecordInv(s, step.id)
    ensures StopInv(JsApply(s, step))
  {
    if step.JsRegister? || step.JsWithdraw? {
      JsRegionKeepsStopInv(s, step);
    }
  }

  lemma {:induction false} JsRegionKeepsStopInv(s: State, step: JsStep)
    requires step.JsRegister? || step.JsWithdraw?
    requires Globals(s) && JsEnabled(s, step) && RecordInv(s, s.js.id)
    ensures StopInv(JsApply(s, step))
  {
  }

  lemma {:induction false} ManagerKeepsStopInv(s: State, step: ManagerStep)
    requires Globals(s) && ManagerEnabled(s, step)
    requires s.manager.WantRecord? || s.manager.HoldRecord? ==> RecordInv(s, s.manager.id)
    ensures StopInv(ManagerApply(s, step))
  {
  }

  lemma {:induction false} WorkerKeepsStopInv(s: State, own: nat, step: WorkerStep)
    requires Globals(s) && WorkerEnabled(s, own, step) && RecordInv(s, own)
    ensures StopInv(WorkerApply(s, own, step))
  {
  }

  lemma {:induction false} JsStepKeepsInv(s: State, step: JsStep)
    requires Inv(s) && JsEnabled(s, step)
    ensures Inv(JsApply(s, step))
  {
    var t := JsApply(s, step);
    assert !s.js.Idle? ==> RecordInv(s, s.js.id);
    assert step.JsDeliverFinal? ==> RecordInv(s, step.id);
    JsKeepsLockInv(s, step);
    JsKeepsManagerInv(s, step);
    JsKeepsJsInv(s, step);
    JsKeepsStopInv(s, step);
    forall id: nat | t.Known(id)
      ensures RecordInv(t, id)
    {
      assert s.Known(id) ==> RecordInv(s, id);
      JsKeepsRecord(s, step, id);
    }
  }

  lemma {:induction false} ManagerStepKeepsInv(s: State, step: ManagerStep)
    requires Inv(s) && ManagerEnabled(s, step)
    ensures Inv(ManagerApply(s, step))
  {
    var t := ManagerApply(s, step);
    assert s.manager.WantRecord? || s.manager.HoldRecord? ==> RecordInv(s, s.manager.id);
    ManagerKeepsLockInv(s, step);
    ManagerKeepsManagerInv(s, step);
    ManagerKeepsJsInv(s, step);
    ManagerKeepsStopInv(s, step);
    forall id: nat | t.Known(id)
      ensures RecordInv(t, id)
    {
      assert RecordInv(s, id);
      ManagerKeepsRecord(s, step, id);
    }
  }

  lemma {:induction false} WorkerStepKeepsInv(s: State, own: nat, step: WorkerStep)
    requires Inv(s) && WorkerEnabled(s, own, step)
    ensures Inv(WorkerApply(s, own, step))
  {
    var t := WorkerApply(s, own, step);
    assert RecordInv(s, own);
    WorkerKeepsLockInv(s, own, step);
    WorkerKeepsManagerInv(s, own, step);
    WorkerKeepsJsInv(s, own, step);
    WorkerKeepsStopInv(s, own, step);
    forall id: nat | t.Known(id)
      ensures RecordInv(t, id)
    {
      assert RecordInv(s, id);
      WorkerKeepsRecord(s, own, step, id);
    }
  }

  lemma {:induction false} StepKeepsInv(s: State, step: Step)
    requires Inv(s) && Enabled(s, step)
    ensures Inv(Apply(s, step))
  {
    match step
    case ByJs(js) => JsStepKeepsInv(s, js);
    case ByManager(manager) => ManagerStepKeepsInv(s, manager);
    case ByWorker(own, worker) => WorkerStepKeepsInv(s, own, worker);
  }

  lemma {:induction false} RunKeepsInv(s: State, steps: seq<Step>)
    requires Inv(s)
    ensures Inv(Exec(s, steps))
    decreases |steps|
  {
    if steps != [] {
      if Enabled(s, steps[0]) {
        StepKeepsInv(s, steps[0]);
        RunKeepsInv(Apply(s, steps[0]), steps[1..]);
      } else {
        RunKeepsInv(s, steps[1..]);
      }
    }
  }

  // -------------------------------------------------------------- main results

  /** Some worker of the state runs inside the engine. */
  predicate EngineInUse(s: State) {
    exists id: nat | id < |s.records| ::
      (s.records[id].phase.Using? || s.records[id].phase.InRecord?) && s.records[id].phase.engine
  }

  /** The engine is gone or going only with no worker inside it, and every manager
      pointer is live. */
  ghost predicate Safe(s: State) {
    && !s.fault
    && (s.manager.Destroying? || s.manager.Closed? ==>
        !EngineInUse(s) && s.slot == PerKind(None, None) && !s.ml)
    && (s.slot.tcp.Some? ==> s.Known(s.slot.tcp.value) && s.records[s.slot.tcp.value].live)
    && (s.slot.udp.Some? ==> s.Known(s.slot.udp.value) && s.records[s.slot.udp.value].live)
  }

  lemma InvIsSafe(s: State)
    requires Inv(s)
    ensures Safe(s)
  {
    if s.slot.tcp.Some? {
      assert RecordInv(s, s.slot.tcp.value);
    }
    if s.slot.udp.Some? {
      assert RecordInv(s, s.slot.udp.value);
    }
    if s.manager.Destroying? || s.manager.Closed? {
      forall id: nat | s.Known(id)
        ensures !s.records[id].phase.InManager()
      {
        assert RecordInv(s, id);
      }
    }
  }

  /** On the stop path the engine is destroyed only when no TCP or UDP worker uses
      it, and every dereference hits a live record, in every interleaving. */
  lemma ShutdownIsSafe(steps: seq<Step>)
    ensures Safe(Exec(INITIAL, steps))
  {
    Initially();
    RunKeepsInv(INITIAL, steps);
    InvIsSafe(Exec(INITIAL, steps));
  }

  /** No pointer is set that was not set before. */
  predicate OnlyReleases(s: State, t: State) {
    && (t.active.tcp ==> s.active.tcp) && (t.active.udp ==> s.active.udp)
    && (t.slot.tcp.Some? ==> t.slot.tcp == s.slot.tcp) && (t.slot.udp.Some? ==> t.slot.udp == s.slot.udp)
  }

  lemma {:induction false} JsOnlyReleases(s: State, step: JsStep)
    requires s.stop && JsEnabled(s, step)
    ensures JsApply(s, step).stop && OnlyReleases(s, JsApply(s, step))
  {
    if !step.JsRegister? && !step.JsWithdraw? {
      assert JsApply(s, step).slot == s.slot && JsApply(s, step).active == s.active;
    }
  }

  lemma {:induction false} ManagerOnlyReleases(s: State, step: ManagerStep)
    requires ManagerEnabled(s, step)
    ensures ManagerApply(s, step).stop == s.stop && OnlyReleases(s, ManagerApply(s, step))
  {
    assert ManagerApply(s, step).slot == s.slot && ManagerApply(s, step).active == s.active;
  }

  lemma {:induction false} WorkerOnlyReleases(s: State, id: nat, step: WorkerStep)
    requires WorkerEnabled(s, id, step)
    ensures WorkerApply(s, id, step).stop == s.stop && OnlyReleases(s, WorkerApply(s, id, step))
  {
    if !step.WorkerUnregister? {
      assert WorkerApply(s, id, step).slot == s.slot && WorkerApply(s, id, step).active == s.active;
    }
  }

  lemma {:induction false} StopIsFinal(s: State, step: Step)
    requires s.stop && Enabled(s, step)
    ensures Apply(s, step).stop && OnlyReleases(s, Apply(s, step))
  {
    match step
    case ByJs(js) => JsOnlyReleases(s, js);
    case ByManager(manager) => ManagerOnlyReleases(s, manager);
    case ByWorker(id, worker) => WorkerOnlyReleases(s, id, worker);
  }

  /** Once `stop_requested` is set no transport registers again, whatever runs. */
  lemma {:induction false} NoRegistrationAfterStop(s: State, steps: seq<Step>)
    requires s.stop
    ensures Exec(s, steps).stop && OnlyReleases(s, Exec(s, steps))
    decreases |steps|
  {
    if steps != [] {
      if Enabled(s, steps[0]) {
        StopIsFinal(s, steps[0]);
        NoRegistrationAfterStop(Apply(s, steps[0]), steps[1..]);
      } else {
        NoRegistrationAfterStop(s, steps[1..]);
      }
    }
  }

  /** A step of the party that holds the record's mutex. */
  function RecordHolderStep(s: State, id: nat): Step
    requires s.Known(id)
  {
    match s.records[id].lock
    case JsThread => ByJs(JsCloseRegion)
    case Worker(_) => ByWorker(id, WorkerRegion(s.records[id].phase.InRecord? && !s.records[id].phase.leaving))
    case _ => ByManager(ManagerCloseRegion)
  }

  /** A step of the party that holds the manager's mutex. */
  function ManagerLockHolderStep(s: State): Step {
    match s.lock
    case JsThread => ByJs(if s.js.Registering? then JsRegister else JsWithdraw)
    case Worker(id) =>
      ByWorker(id, if s.Known(id) && s.records[id].phase.ReadEngine? then WorkerReadEngine else WorkerUnregister)
    case _ =>
      ByManager(match s.manager
        case Look(_) => ManagerLook
        case WantRecord(_, _) => ManagerTakeRecord
        case HoldRecord(_, _) => ManagerCloseRegion
        case CloseUnlock => ManagerUnlock
        case _ => ManagerTakeEngine)
  }

  /** No deadlock: mutexes are taken manager first, then record, so the holder of a
      record mutex never waits, and the holder of the manager mutex waits at most for
      such a holder. */
  lemma LockOrderPreventsDeadlock(steps: seq<Step>)
    ensures var s := Exec(INITIAL, steps);
      && (forall id: nat | s.Known(id) && s.records[id].lock != Nobody :: Enabled(s, RecordHolderStep(s, id)))
      && (s.lock != Nobody ==>
          || Enabled(s, ManagerLockHolderStep(s))
          || (s.manager.WantRecord? && s.Known(s.manager.id) && s.records[s.manager.id].lock != Nobody))
  {
    Initially();
    RunKeepsInv(INITIAL, steps);
    var s := Exec(INITIAL, steps);
    forall id: nat | s.Known(id)
      ensures RecordInv(s, id)
    {
    }
    if s.lock.Worker? {
      assert RecordInv(s, s.lock.id);
    }
  }
}
