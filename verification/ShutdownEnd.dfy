/** The manager's close comes to an end: what it waits for can happen only so often. */
module ShutdownEnds {
  import opened Basics
  import opened Shutdown

  /** The manager has asked the transport of this kind to close, or found none. */
  predicate Asked(manager: Manager, kind: Kind) {
    match manager
    case Running => false
    case CloseLock => false
    case Look(at) => kind.Tcp? && at.Udp?
    case WantRecord(at, _) => kind.Tcp? && at.Udp?
    case HoldRecord(at, _) => kind.Tcp? && at.Udp?
    case _ => true
  }

  predicate Closes(s: State, kind: Kind) {
    s.slot.Get(kind).Some? ==>
      s.Known(s.slot.Get(kind).value) && s.records[s.slot.Get(kind).value].closing
  }

  /** Every transport that is left once the manager has asked knows it. */
  ghost predicate AskedInv(s: State) {
    && (Asked(s.manager, Tcp) ==> Closes(s, Tcp))
    && (Asked(s.manager, Udp) ==> Closes(s, Udp))
  }

  // ------------------------------------------------------------------ distances

  /** Turns of a worker that is to leave, or of the JS thread for one that has not been
      created, until the manager no longer points to the transport. */
  function Distance(phase: Phase, js: Js): nat {
    match phase
    case Registered => if js.Withdrawing? then 1 else if js.WantWithdraw? then 2 else 24
    case WantEngine => 23
    case ReadEngine => 22
    case Using(_, ahead, leaving) => if leaving then 3 + 2 * ahead else 9 + 2 * ahead
    case InRecord(_, ahead, leaving) => if leaving then 2 + 2 * ahead else 8 + 2 * ahead
    case WantLeave => 2
    case LeaveManager => 1
    case _ => 0
  }

  const FARTHEST: nat := 25

  function Cost(s: State, kind: Kind): nat {
    var slot := s.slot.Get(kind);
    if slot.None? || !s.Known(slot.value) then 0
    else if !s.records[slot.value].closing then FARTHEST
    else Distance(s.records[slot.value].phase, s.js)
  }

  predicate AnyActive(s: State) {
    s.active.tcp || s.active.udp
  }

  /** Turns of the manager itself. */
  function Base(s: State): nat {
    match s.manager
    case Running => if s.started then 20 else 21
    case CloseLock => 19
    case Look(kind) => if kind.Tcp? then 18 else 15
    case WantRecord(kind, _) => if kind.Tcp? then 17 else 14
    case HoldRecord(kind, _) => if kind.Tcp? then 16 else 13
    case CloseUnlock => 12
    case AwaitTcp => if AnyActive(s) then 7 else 6
    case AwaitUdp => if AnyActive(s) then 7 else 5
    case TakeLock => 4
    case TakeEngine => 3
    case Destroying => 2
    case Closed => 0
  }

  function Rank(s: State): nat {
    Base(s) + Cost(s, Tcp) + Cost(s, Udp)
  }

  /** The manager waits for the transports. */
  predicate Waits(s: State) {
    (s.manager.AwaitTcp? || s.manager.AwaitUdp?) && AnyActive(s)
  }

  predicate InSlot(s: State, id: nat) {
    s.slot.tcp == Some(id) || s.slot.udp == Some(id)
  }

  /** A turn of the party the close waits for: the manager, unless it waits for its
      transports; then their workers, or the JS thread that has yet to create one. */
  predicate Owed(s: State, step: Step) {
    match step
    case ByManager(_) => !Waits(s)
    case ByWorker(id, _) => Waits(s) && InSlot(s, id)
    case ByJs(js) =>
      Waits(s) && (js.JsCreate? || js.JsTakeLock? || js.JsWithdraw?)
      && (s.js.Creating? || s.js.WantWithdraw? || s.js.Withdrawing?) && InSlot(s, s.js.id)
  }

  // ------------------------------------------------------------------ invariant

  ghost predicate EndInv(s: State) {
    Inv(s) && AskedInv(s)
  }

  /** A transport in the manager is what its slot says. */
  lemma SlotIsOwn(s: State, kind: Kind)
    requires Inv(s) && s.slot.Get(kind).Some?
    ensures var id := s.slot.Get(kind).value;
      s.Known(id) && s.records[id].kind == kind && s.records[id].phase.InManager() && RecordInv(s, id)
  {
  }

  /** Closing is never taken back. */
  predicate StaysClosing(s: State, t: State) {
    forall id: nat | id < |s.records| && s.records[id].closing :: id < |t.records| && t.records[id].closing
  }

  lemma {:induction false} JsRegionStaysClosing(s: State, step: JsStep)
    requires JsEnabled(s, step) && (step.JsRegister? || step.JsCreate? || step.JsWithdraw?)
    ensures StaysClosing(s, JsApply(s, step)) && JsApply(s, step).manager == s.manager
  {
  }

  lemma {:induction false} JsStaysClosing(s: State, step: JsStep)
    requires JsEnabled(s, step)
    ensures StaysClosing(s, JsApply(s, step)) && JsApply(s, step).manager == s.manager
  {
    if step.JsRegister? || step.JsCreate? || step.JsWithdraw? {
      JsRegionStaysClosing(s, step);
    }
  }

  lemma {:induction false} ManagerStaysClosing(s: State, step: ManagerStep)
    requires ManagerEnabled(s, step)
    ensures StaysClosing(s, ManagerApply(s, step)) && ManagerApply(s, step).slot == s.slot
  {
  }

  lemma {:induction false} WorkerStaysClosing(s: State, id: nat, step: WorkerStep)
    requires WorkerEnabled(s, id, step)
    ensures StaysClosing(s, WorkerApply(s, id, step)) && WorkerApply(s, id, step).manager == s.manager
  {
  }

  lemma ClosesStays(s: State, t: State, kind: Kind)
    requires Closes(s, kind) && StaysClosing(s, t) && OnlyReleases(s, t)
    ensures Closes(t, kind)
  {
  }

  lemma {:induction false} ManagerKeepsAsked(s: State, step: ManagerStep)
    requires EndInv(s) && ManagerEnabled(s, step)
    ensures AskedInv(ManagerApply(s, step))
  {
    var t := ManagerApply(s, step);
    ManagerStaysClosing(s, step);
    if Asked(s.manager, Tcp) {
      assert Closes(t, Tcp);
    }
    if Asked(s.manager, Udp) {
      assert Closes(t, Udp);
    }
  }

  lemma {:induction false} StepKeepsEndInv(s: State, step: Step)
    requires EndInv(s) && Enabled(s, step)
    ensures EndInv(Apply(s, step))
  {
    StepKeepsInv(s, step);
    match step
    case ByJs(js) =>
      JsStaysClosing(s, js);
      if s.stop {
        JsOnlyReleases(s, js);
        AskedStays(s, JsApply(s, js));
      }
    case ByManager(manager) => ManagerKeepsAsked(s, manager);
    case ByWorker(id, worker) =>
      WorkerStaysClosing(s, id, worker);
      WorkerOnlyReleases(s, id, worker);
      AskedStays(s, WorkerApply(s, id, worker));
  }

  lemma AskedStays(s: State, t: State)
    requires AskedInv(s) && t.manager == s.manager && StaysClosing(s, t) && OnlyReleases(s, t)
    ensures AskedInv(t)
  {
    if Asked(s.manager, Tcp) {
      ClosesStays(s, t, Tcp);
    }
    if Asked(s.manager, Udp) {
      ClosesStays(s, t, Udp);
    }
  }

  lemma {:induction false} RunKeepsEndInv(s: State, steps: seq<Step>)
    requires EndInv(s)
    ensures EndInv(Exec(s, steps))
    decreases |steps|
  {
    if steps != [] {
      if Enabled(s, steps[0]) {
        StepKeepsEndInv(s, steps[0]);
        RunKeepsEndInv(Apply(s, steps[0]), steps[1..]);
      } else {
        RunKeepsEndInv(s, steps[1..]);
      }
    }
  }

  // ------------------------------------------------------------------- progress

  predicate Nearer(s: State, t: State, step: Step) {
    Rank(t) <= Rank(s) && (Owed(s, step) ==> Rank(t) < Rank(s))
  }

  lemma CostIsBounded(s: State, kind: Kind)
    requires Inv(s)
    ensures Cost(s, kind) <= FARTHEST
  {
    if s.slot.Get(kind).Some? {
      SlotIsOwn(s, kind);
    }
  }

  lemma RankIsBounded(s: State)
    requires Inv(s)
    ensures Rank(s) <= 71
  {
    CostIsBounded(s, Tcp);
    CostIsBounded(s, Udp);
  }

  lemma {:induction false} AwaitBase(s: State)
    requires (s.manager.AwaitTcp? || s.manager.AwaitUdp?) && (s.manager.AwaitUdp? ==> !s.active.tcp)
    ensures var t := ManagerApply(s, ManagerAwait);
      Base(t) <= Base(s) && (!Waits(s) ==> Base(t) < Base(s))
  {
    assert ManagerApply(s, ManagerAwait).active == s.active;
  }

  lemma {:induction false} ManagerBase(s: State, step: ManagerStep)
    requires ManagerEnabled(s, step) && (s.manager.AwaitUdp? ==> !s.active.tcp)
    ensures var t := ManagerApply(s, step);
      Base(t) <= Base(s) && (!Waits(s) ==> Base(t) < Base(s))
  {
    match step
    case ManagerAwait => AwaitBase(s);
    case ManagerTakeRecord =>
    case ManagerCloseRegion =>
    case _ =>
  }

  lemma {:induction false} ManagerIsNearer(s: State, step: ManagerStep)
    requires EndInv(s) && ManagerEnabled(s, step)
    ensures Nearer(s, ManagerApply(s, step), ByManager(step))
  {
    ManagerCost(s, step, Tcp);
    ManagerCost(s, step, Udp);
    ManagerBase(s, step);
  }

  lemma {:induction false} ManagerCost(s: State, step: ManagerStep, kind: Kind)
    requires EndInv(s) && ManagerEnabled(s, step)
    ensures Cost(ManagerApply(s, step), kind) <= Cost(s, kind)
  {
    if s.slot.Get(kind).Some? {
      SlotIsOwn(s, kind);
    }
  }

  lemma SameCost(s: State, t: State, kind: Kind)
    requires t.slot.Get(kind).Some? ==> t.slot.Get(kind) == s.slot.Get(kind)
    requires |t.records| == |s.records| && t.js == s.js
    requires s.slot.Get(kind).Some? && s.Known(s.slot.Get(kind).value) ==>
      t.records[s.slot.Get(kind).value] == s.records[s.slot.Get(kind).value]
    ensures Cost(t, kind) <= Cost(s, kind)
  {
  }

  /** A worker's step does not change what another transport costs. */
  lemma {:induction false} OtherCost(s: State, id: nat, step: WorkerStep, kind: Kind)
    requires WorkerEnabled(s, id, step) && s.slot.Get(kind) != Some(id)
    ensures Cost(WorkerApply(s, id, step), kind) <= Cost(s, kind)
  {
    WorkerOnlyReleases(s, id, step);
    SameCost(s, WorkerApply(s, id, step), kind);
  }

  lemma {:induction false} OwnCost(s: State, id: nat, step: WorkerStep, kind: Kind)
    requires EndInv(s) && WorkerEnabled(s, id, step) && s.slot.Get(kind) == Some(id)
    ensures var t := WorkerApply(s, id, step);
      Cost(t, kind) <= Cost(s, kind) && (s.records[id].closing ==> Cost(t, kind) < Cost(s, kind))
  {
    SlotIsOwn(s, kind);
  }

  lemma {:induction false} WorkerBase(s: State, id: nat, step: WorkerStep)
    requires WorkerEnabled(s, id, step)
    ensures Base(WorkerApply(s, id, step)) <= Base(s)
  {
    WorkerStaysClosing(s, id, step);
    WorkerOnlyReleases(s, id, step);
    assert WorkerApply(s, id, step).started == s.started;
  }

  /** Whoever the manager waits for knows that it is to close. */
  lemma AwaitedIsClosing(s: State, id: nat)
    requires EndInv(s) && Waits(s) && InSlot(s, id)
    ensures s.Known(id) && s.records[id].closing
  {
    if s.slot.tcp == Some(id) {
      assert Closes(s, Tcp);
    } else {
      assert Closes(s, Udp);
    }
  }

  lemma NotBoth(s: State, id: nat)
    requires Inv(s)
    ensures !(s.slot.tcp == Some(id) && s.slot.udp == Some(id))
  {
    if s.slot.tcp == Some(id) {
      SlotIsOwn(s, Tcp);
    }
    if s.slot.udp == Some(id) {
      SlotIsOwn(s, Udp);
    }
  }

  lemma {:induction false} WorkerIsNearer(s: State, id: nat, step: WorkerStep)
    requires EndInv(s) && WorkerEnabled(s, id, step)
    ensures Nearer(s, WorkerApply(s, id, step), ByWorker(id, step))
  {
    NotBoth(s, id);
    WorkerBase(s, id, step);
    if s.slot.tcp == Some(id) {
      OwnCost(s, id, step, Tcp);
    } else {
      OtherCost(s, id, step, Tcp);
    }
    if s.slot.udp == Some(id) {
      OwnCost(s, id, step, Udp);
    } else {
      OtherCost(s, id, step, Udp);
    }
    if Owed(s, ByWorker(id, step)) {
      AwaitedIsClosing(s, id);
    }
  }

  lemma {:induction false} JsBase(s: State, step: JsStep)
    requires s.stop && JsEnabled(s, step)
    ensures Base(JsApply(s, step)) <= Base(s)
  {
    JsStaysClosing(s, step);
    JsOnlyReleases(s, step);
    assert JsApply(s, step).started == s.started;
  }

  /** The JS thread's steps that create a transport's task or withdraw it. */
  predicate Creates(step: JsStep) {
    step.JsCreate? || step.JsTakeLock? || step.JsWithdraw?
  }

  lemma {:induction false} CreateCost(s: State, ok: bool, kind: Kind)
    requires Inv(s) && JsEnabled(s, JsCreate(ok)) && s.slot.Get(kind).Some?
    ensures var t := JsApply(s, JsCreate(ok));
      Cost(t, kind) <= Cost(s, kind)
      && (!s.js.WantRegister? && s.slot.Get(kind) == Some(s.js.id) && s.Known(s.js.id) && s.records[s.js.id].closing ==>
          Cost(t, kind) < Cost(s, kind))
  {
    SlotIsOwn(s, kind);
  }

  lemma {:induction false} TakeLockCost(s: State, kind: Kind)
    requires Inv(s) && JsEnabled(s, JsTakeLock) && s.slot.Get(kind).Some?
    ensures var t := JsApply(s, JsTakeLock);
      Cost(t, kind) <= Cost(s, kind)
      && (!s.js.WantRegister? && s.slot.Get(kind) == Some(s.js.id) && s.Known(s.js.id) && s.records[s.js.id].closing ==>
          Cost(t, kind) < Cost(s, kind))
  {
    SlotIsOwn(s, kind);
  }

  lemma {:induction false} WithdrawCost(s: State, kind: Kind)
    requires Inv(s) && JsEnabled(s, JsWithdraw) && s.slot.Get(kind).Some?
    ensures var t := JsApply(s, JsWithdraw);
      Cost(t, kind) <= Cost(s, kind)
      && (!s.js.WantRegister? && s.slot.Get(kind) == Some(s.js.id) && s.Known(s.js.id) && s.records[s.js.id].closing ==>
          Cost(t, kind) < Cost(s, kind))
  {
    SlotIsOwn(s, kind);
  }

  lemma {:induction false} JsCreateCost(s: State, step: JsStep, kind: Kind)
    requires Inv(s) && JsEnabled(s, step) && Creates(step) && s.slot.Get(kind).Some?
    ensures Cost(JsApply(s, step), kind) <= Cost(s, kind)
    ensures (!s.js.WantRegister? && s.slot.Get(kind) == Some(s.js.id) && s.Known(s.js.id)
             && s.records[s.js.id].closing) ==> Cost(JsApply(s, step), kind) < Cost(s, kind)
  {
    SlotIsOwn(s, kind);
    match step
    case JsCreate(ok) => CreateCost(s, ok, kind);
    case JsTakeLock => TakeLockCost(s, kind);
    case JsWithdraw => WithdrawCost(s, kind);
  }

  lemma {:induction false} JsOtherCost(s: State, step: JsStep, kind: Kind)
    requires EndInv(s) && s.stop && JsEnabled(s, step) && !Creates(step)
    ensures Cost(JsApply(s, step), kind) <= Cost(s, kind)
  {
    if s.slot.Get(kind).Some? {
      SlotIsOwn(s, kind);
    }
  }

  lemma {:induction false} JsCost(s: State, step: JsStep, kind: Kind)
    requires EndInv(s) && s.stop && JsEnabled(s, step)
    ensures Cost(JsApply(s, step), kind) <= Cost(s, kind)
    ensures Owed(s, ByJs(step)) && s.slot.Get(kind) == Some(s.js.id) ==>
      Cost(JsApply(s, step), kind) < Cost(s, kind)
  {
    if !Creates(step) {
      JsOtherCost(s, step, kind);
    } else if s.slot.Get(kind).Some? {
      JsCreateCost(s, step, kind);
      if Owed(s, ByJs(step)) && s.slot.Get(kind) == Some(s.js.id) {
        AwaitedIsClosing(s, s.js.id);
      }
    } else {
      JsOnlyReleases(s, step);
    }
  }

  lemma {:induction false} JsIsNearer(s: State, step: JsStep)
    requires EndInv(s) && s.stop && JsEnabled(s, step)
    ensures Nearer(s, JsApply(s, step), ByJs(step))
  {
    JsBase(s, step);
    JsCost(s, step, Tcp);
    JsCost(s, step, Udp);
  }

  function OwedTurns(s: State, steps: seq<Step>): nat
    decreases |steps|
  {
    if steps == [] then 0
    else if !Enabled(s, steps[0]) then OwedTurns(s, steps[1..])
    else (if Owed(s, steps[0]) then 1 else 0) + OwedTurns(Apply(s, steps[0]), steps[1..])
  }

  lemma {:induction false} OwedTurnsAreBounded(s: State, steps: seq<Step>)
    requires EndInv(s) && s.stop
    ensures OwedTurns(s, steps) + Rank(Exec(s, steps)) <= Rank(s)
    decreases |steps|
  {
    if steps != [] {
      if Enabled(s, steps[0]) {
        var t := Apply(s, steps[0]);
        StepKeepsEndInv(s, steps[0]);
        StopIsFinal(s, steps[0]);
        match steps[0] {
          case ByJs(js) => JsIsNearer(s, js);
          case ByManager(manager) => ManagerIsNearer(s, manager);
          case ByWorker(id, worker) => WorkerIsNearer(s, id, worker);
        }
        OwedTurnsAreBounded(t, steps[1..]);
      } else {
        OwedTurnsAreBounded(s, steps[1..]);
      }
    }
  }

  /** Once stop is requested, the manager has closed after at most 71 turns of whoever its
      close waits for, in every interleaving: its own, and while it waits for its
      transports, theirs. */
  lemma ManagerCloses(before: seq<Step>, steps: seq<Step>)
    ensures var s := Exec(INITIAL, before);
      s.stop ==>
        && OwedTurns(s, steps) <= 71
        && (OwedTurns(s, steps) >= Rank(s) ==> Exec(s, steps).manager.Closed?)
  {
    var s := Exec(INITIAL, before);
    Initially();
    RunKeepsEndInv(INITIAL, before);
    if s.stop {
      OwedTurnsAreBounded(s, steps);
      RankIsBounded(s);
    }
  }

  /** What such a turn may have to wait for: a mutex that somebody holds, and whose
      holder can step (`LockOrderPreventsDeadlock`). */
  lemma OwedTurnIsEnabled(before: seq<Step>)
    ensures var s := Exec(INITIAL, before);
      s.stop && !s.manager.Closed? ==>
        || (exists step :: Enabled(s, step) && Owed(s, step))
        || s.lock != Nobody
        || (exists id: nat :: id < |s.records| && s.records[id].lock != Nobody)
  {
    var s := Exec(INITIAL, before);
    Initially();
    RunKeepsEndInv(INITIAL, before);
    if s.stop && !s.manager.Closed? && s.lock == Nobody
      && (forall id: nat | id < |s.records| :: s.records[id].lock == Nobody)
    {
      if Waits(s) {
        AwaitedCanStep(s);
      } else {
        ManagerCanStep(s);
      }
    }
  }

  lemma ManagerCanStep(s: State)
    requires EndInv(s) && s.stop && !s.manager.Closed? && !Waits(s) && s.lock == Nobody
    requires forall id: nat | id < |s.records| :: s.records[id].lock == Nobody
    ensures exists step :: Enabled(s, step) && Owed(s, step)
  {
    var step := match s.manager
      case Running => ManagerStop
      case CloseLock => ManagerTakeLock
      case TakeLock => ManagerTakeLock
      case AwaitTcp => ManagerAwait
      case AwaitUdp => ManagerAwait
      case _ => ManagerDestroy;
    assert Enabled(s, ByManager(step)) && Owed(s, ByManager(step));
  }

  lemma AwaitedCanStep(s: State)
    requires EndInv(s) && Waits(s) && s.lock == Nobody
    requires forall id: nat | id < |s.records| :: s.records[id].lock == Nobody
    ensures exists step :: Enabled(s, step) && Owed(s, step)
  {
    var kind := if s.active.tcp then Tcp else Udp;
    SlotIsOwn(s, kind);
    var id := s.slot.Get(kind).value;
    var step := match s.records[id].phase
      case Registered => ByJs(if s.js.Creating? then JsCreate(true) else JsTakeLock)
      case Using(_, _, leaving) => ByWorker(id, if leaving then WorkerLeave else WorkerTakeRecord)
      case _ => ByWorker(id, WorkerTakeLock);
    assert Enabled(s, step) && Owed(s, step);
  }
}
