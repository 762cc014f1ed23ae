/** The rate the hub asks of a device follows its viewers (tools/camera-server.ts:329-459,
    521-529), over every run of hellos, reconnects, viewers and closing sockets. */
module StreamRate {
  import opened Basics
  import opened RegistryJson
  import opened CameraRegistry

  function Latest(sets: seq<nat>): Option<nat> {
    if sets == [] then None else Some(sets[|sets| - 1])
  }

  /** The cached rate, if any, is the last one asked over the record's own socket; and
      it is cached unless asking has thrown there. */
  predicate Linked(id: string, r: Record, sockets: seq<Socket>) {
    if r.socket.None? then r.requestedFps.None?
    else
      r.socket.value < |sockets| && sockets[r.socket.value].device == id
      && (r.requestedFps.Some? || !sockets[r.socket.value].failed ==>
          r.requestedFps == Latest(sockets[r.socket.value].sets))
  }

  predicate Agreed(r: Record, sockets: seq<Socket>) {
    && r.desiredFps == Demand(r.viewers)
    && (IsOpen(sockets, r.socket) && (r.requestedFps.Some? || !sockets[r.socket.value].failed) ==>
        r.requestedFps == Some(r.desiredFps))
  }

  predicate NoRepeat(sets: seq<nat>) {
    forall i | 0 < i < |sets| :: sets[i - 1] != sets[i]
  }

  /** All records but those of `pending` agree. */
  ghost predicate RateInvExcept(records: map<string, Record>, sockets: seq<Socket>, pending: set<string>) {
    && (forall id | id in records :: Linked(id, records[id], sockets))
    && (forall id | id in records && id !in pending :: Agreed(records[id], sockets))
    && (forall k | 0 <= k < |sockets| && !sockets[k].failed :: NoRepeat(sockets[k].sets))
  }

  ghost predicate RateInv(s: State) {
    RateInvExcept(s.records, s.sockets, {})
  }

  /** A record changed without touching its socket and cache. */
  lemma {:induction false} PutKeepsLinks(records: map<string, Record>, sockets: seq<Socket>, id: string, r: Record,
                                         pending: set<string>)
    requires RateInvExcept(records, sockets, pending) && id in records
    requires r.socket == records[id].socket && r.requestedFps == records[id].requestedFps
    ensures RateInvExcept(records[id := r], sockets, pending + {id})
    ensures Agreed(r, sockets) ==> RateInvExcept(records[id := r], sockets, pending - {id})
    ensures r.viewers == records[id].viewers && r.desiredFps == records[id].desiredFps ==>
      RateInvExcept(records[id := r], sockets, pending)
  {
    assert Linked(id, records[id], sockets);
    assert id !in pending ==> Agreed(records[id], sockets);
  }

  /** Asking for a new rate. */
  lemma {:induction false} AskingKeepsLinks(records: map<string, Record>, sockets: seq<Socket>, id: string, r: Record,
                                            fps: nat)
    requires RateInvExcept(records, sockets, {id}) && id in records && IsOpen(sockets, records[id].socket)
    requires records[id].requestedFps != Some(fps)
    requires r.socket == records[id].socket && r.requestedFps == Some(fps)
    requires r.desiredFps == Demand(r.viewers) == fps
    ensures var k := r.socket.value;
      RateInvExcept(records[id := r], sockets[k := sockets[k].(sets := sockets[k].sets + [fps])], {})
  {
    var k := r.socket.value;
    var after := sockets[k := sockets[k].(sets := sockets[k].sets + [fps])];
    assert Linked(id, records[id], sockets);
    var changed := records[id := r];
    forall other | other in changed
      ensures Linked(other, changed[other], after) && Agreed(changed[other], after)
    {
      if other != id {
        assert Linked(other, records[other], sockets) && Agreed(records[other], sockets);
      }
    }
    assert !sockets[k].failed ==> NoRepeat(sockets[k].sets);
  }

  /** Asking has thrown: nothing is cached, and the socket is known for it. */
  lemma {:induction false} ThrowingKeepsLinks(records: map<string, Record>, sockets: seq<Socket>, id: string,
                                              r: Record)
    requires RateInvExcept(records, sockets, {id}) && id in records && IsOpen(sockets, records[id].socket)
    requires r.socket == records[id].socket && r.requestedFps.None? && r.desiredFps == Demand(r.viewers)
    ensures var k := r.socket.value;
      RateInvExcept(records[id := r], sockets[k := sockets[k].(failed := true)], {})
  {
    var k := r.socket.value;
    var after := sockets[k := sockets[k].(failed := true)];
    assert Linked(id, records[id], sockets);
    var changed := records[id := r];
    forall other | other in changed
      ensures Linked(other, changed[other], after) && Agreed(changed[other], after)
    {
      if other != id {
        assert Linked(other, records[other], sockets) && Agreed(records[other], sockets);
      }
    }
  }

  lemma {:induction false} UpdateKeepsRates(s: State, id: string, uuid: string, now: string, throws: bool)
    requires RateInvExcept(s.records, s.sockets, {id}) && id in s.records
    ensures RateInv(UpdateStreamRate(s, id, uuid, now, throws))
  {
    var fps := Demand(s.records[id].viewers);
    var record := s.records[id].(desiredFps := fps);
    var c := NewCommand(uuid, StreamSet, ViewerSource, now);
    if !Asks(s.records[id], s.sockets) {
      PutKeepsLinks(s.records, s.sockets, id, record, {id});
      assert {id} - {id} == {};
    } else if throws {
      ThrowingKeepsLinks(s.records, s.sockets, id, Noted(record.(requestedFps := None), c));
    } else {
      var asked := record.(requestedFps := Some(fps));
      AskingKeepsLinks(s.records, s.sockets, id, Noted(asked, c), fps);
      assert s.records[id := asked][id := Noted(asked, c)] == s.records[id := Noted(asked, c)];
    }
  }

  lemma {:induction false} ViewersKeepRates(s: State, id: string, viewers: map<nat, Mode>, uuid: string, now: string,
                                            throws: bool)
    requires RateInv(s) && id in s.records
    ensures RateInv(ViewerChange(s, id, viewers, uuid, now, throws))
  {
    PutKeepsLinks(s.records, s.sockets, id, s.records[id].(viewers := viewers), {});
    UpdateKeepsRates(Put(s, id, s.records[id].(viewers := viewers)), id, uuid, now, throws);
  }

  lemma {:induction false} PublishKeepsRates(s: State, id: string, frame: Frame, failing: set<nat>, uuid: string,
                                             now: string, throws: bool)
    requires RateInv(s) && id in s.records
    ensures RateInv(PublishFrame(s, id, frame, failing, uuid, now, throws))
  {
    if Storable(frame) {
      var r := WithFrame(s.records[id], frame, now);
      PutKeepsLinks(s.records, s.sockets, id, r, {});
      if failing * s.records[id].viewers.Keys != {} {
        ViewersKeepRates(MarkFrameDirty(Put(s, id, r), id), id, r.viewers - failing, uuid, now, throws);
      }
    }
  }

  /** Closing sockets keeps the links and the agreement. */
  ghost predicate MoreClosed(a: seq<Socket>, b: seq<Socket>) {
    |a| == |b| && forall k | 0 <= k < |a| ::
      b[k].device == a[k].device && b[k].sets == a[k].sets && b[k].failed == a[k].failed
      && (b[k].open ==> a[k].open)
  }

  lemma {:induction false} ClosingKeepsRates(records: map<string, Record>, a: seq<Socket>, b: seq<Socket>,
                                             pending: set<string>)
    requires RateInvExcept(records, a, pending) && MoreClosed(a, b)
    ensures RateInvExcept(records, b, pending)
  {
    forall id | id in records
      ensures Linked(id, records[id], b) && (id !in pending ==> Agreed(records[id], b))
    {
      assert Linked(id, records[id], a);
      assert id !in pending ==> Agreed(records[id], a);
    }
  }

  lemma {:induction false} OfflineKeepsRates(records: map<string, Record>, sockets: seq<Socket>, id: string,
                                             now: string)
    requires RateInvExcept(records, sockets, {}) && id in records
    ensures RateInvExcept(records[id := GoOffline(records[id], now)], sockets, {})
  {
    var changed := records[id := GoOffline(records[id], now)];
    forall other | other in changed
      ensures Linked(other, changed[other], sockets) && Agreed(changed[other], sockets)
    {
      assert Linked(other, records[other], sockets) && Agreed(records[other], sockets);
    }
  }

  lemma {:induction false} OnCloseKeepsRates(s: State, k: nat, now: string)
    requires RateInv(s) && k < |s.sockets|
    ensures RateInv(SocketClosed(s, k, now))
  {
    var id := s.sockets[k].device;
    var sockets := CloseSocket(s.sockets, Some(k));
    ClosingKeepsRates(s.records, s.sockets, sockets, {});
    if id in s.records {
      OfflineKeepsRates(s.records, sockets, id, now);
    }
  }

  lemma {:induction false} CloseOneKeepsRates(s: State, id: string, now: string)
    requires RateInv(s) && id in s.records
    ensures RateInv(CloseOne(s, id, now))
  {
    var sockets := CloseSocket(s.sockets, s.records[id].socket);
    ClosingKeepsRates(s.records, s.sockets, sockets, {});
    OfflineKeepsRates(s.records, sockets, id, now);
  }

  lemma {:induction false} CloseEachKeepsRates(s: State, ids: seq<string>, now: string)
    requires RateInv(s)
    ensures RateInv(CloseEach(s, ids, now))
    decreases |ids|
  {
    if ids != [] {
      var init, last := ids[..|ids| - 1], ids[|ids| - 1];
      CloseEachKeepsRates(s, init, now);
      if last in CloseEach(s, init, now).records {
        CloseOneKeepsRates(CloseEach(s, init, now), last, now);
      }
    }
  }

  /** A hello: its record moves to a new socket over which nothing was asked. */
  lemma {:induction false} NewSocketKeepsRates(records: map<string, Record>, sockets: seq<Socket>, id: string,
                                               r: Record, open: bool)
    requires RateInvExcept(records, sockets, {})
    requires r.socket == Some(|sockets|) && r.requestedFps.None?
    ensures RateInvExcept(records[id := r], sockets + [Socket(open, id, [], false)], {id})
  {
    var after := sockets + [Socket(open, id, [], false)];
    var changed := records[id := r];
    forall other | other in changed
      ensures Linked(other, changed[other], after)
      ensures other != id ==> Agreed(records[other], after)
    {
      if other != id {
        assert Linked(other, records[other], sockets) && Agreed(records[other], sockets);
      }
    }
  }

  lemma {:induction false} HelloKeepsRates(s: State, hello: Json, open: bool, uuid: string, now: string, throws: bool)
    requires RateInv(s) && ValidHello(hello)
    ensures RateInv(AcceptHello(s, hello, open, uuid, now, throws))
  {
    var id := DeviceIdOf(hello);
    var replaced := if id in s.records then CloseSocket(s.sockets, s.records[id].socket) else s.sockets;
    var r := Greeted(s, id, hello, |s.sockets|, now);
    ClosingKeepsRates(s.records, s.sockets, replaced, {});
    NewSocketKeepsRates(s.records, replaced, id, r, open);
    UpdateKeepsRates(Noticed(s, hello, open, now), id, uuid, now, throws);
  }

  /** A record as a start makes it. */
  predicate Idle(r: Record) {
    r.socket.None? && r.requestedFps.None? && r.viewers == map[] && r.desiredFps == 1
  }

  ghost predicate AllIdle(records: map<string, Record>) {
    forall id | id in records :: Idle(records[id])
  }

  lemma {:induction false} LoadedIsIdle(items: seq<Json>, frames: map<string, Frame>, dates: Dates)
    ensures AllIdle(LoadDevices(items, frames, dates).records)
    decreases |items|
  {
    if items != [] {
      var init, last := items[..|items| - 1], items[|items| - 1];
      LoadedIsIdle(init, frames, dates);
      match ParseDevice(last, dates)
      case None =>
      case Some(device) =>
        assert Idle(Restored(device, frames));
        assert AllIdle(Registered(LoadDevices(init, frames, dates), device, frames).records);
    }
  }

  lemma CrashedIsIdle(s: State, written: set<string>, dates: Dates)
    ensures AllIdle(Crashed(s, written, dates).records)
  {
    if s.disk.registry.Some? && Supported(s.disk.registry.value) {
      LoadedIsIdle(Field(s.disk.registry.value, KDevices).value.items, WithFrames(s, written), dates);
    }
  }

  lemma {:induction false} CrashKeepsRates(s: State, written: set<string>, dates: Dates)
    requires RateInv(s)
    ensures RateInv(Crashed(s, written, dates))
  {
    var t := Crashed(s, written, dates);
    CrashedIsIdle(s, written, dates);
    forall id | id in t.records
      ensures Linked(id, t.records[id], t.sockets) && Agreed(t.records[id], t.sockets)
    {
      assert Idle(t.records[id]);
    }
  }

  lemma AckLeavesRates(r: Record, at: nat, ok: bool, result: Option<Json>, error: Option<Json>, now: string)
    requires at < |r.device.commands|
    ensures WithAck(r, at, ok, result, error, now) == r.(device := WithAck(r, at, ok, result, error, now).device)
  {
  }

  lemma {:induction false} AckKeepsRates(s: State, id: string, uuid: string, name: CommandName, ok: bool,
                                         result: Option<Json>, error: Option<Json>, now: string)
    requires RateInv(s) && id in s.records
    ensures RateInv(AcceptAck(s, id, uuid, name, ok, result, error, now))
  {
    var at := Find(s.records[id].device.commands, uuid, name);
    if at.Some? {
      var r := WithAck(s.records[id], at.value, ok, result, error, now);
      AckLeavesRates(s.records[id], at.value, ok, result, error, now);
      PutKeepsLinks(s.records, s.sockets, id, r, {});
    }
  }

  lemma {:induction false} ApiKeepsRates(s: State, id: string, c: Command, throws: bool)
    requires RateInv(s) && id in s.records && IsOpen(s.sockets, s.records[id].socket)
    ensures RateInv(SendCommand(s, id, c, None, throws))
  {
    PutKeepsLinks(s.records, s.sockets, id, Noted(s.records[id], c), {});
    var k := s.records[id].socket.value;
    assert s.sockets[k := s.sockets[k]] == s.sockets;
  }

  lemma {:induction false} StepKeepsRates(s: State, step: Step, dates: Dates)
    requires RateInv(s) && Enabled(s, step, dates)
    ensures RateInv(Apply(s, step, dates))
  {
    match step
    case Hello(hello, open, uuid, now, throws) => HelloKeepsRates(s, hello, open, uuid, now, throws);
    case FrameIn(id, frame, failing, uuid, now, throws) => PublishKeepsRates(s, id, frame, failing, uuid, now, throws);
    case Join(id, viewer, mode, uuid, now, throws) =>
      ViewersKeepRates(s, id, s.records[id].viewers[viewer := mode], uuid, now, throws);
    case Leave(id, viewer, uuid, now, throws) =>
      ViewersKeepRates(s, id, s.records[id].viewers - {viewer}, uuid, now, throws);
    case ApiCommand(id, name, uuid, now, throws) =>
      ApiKeepsRates(s, id, NewCommand(uuid, name, ApiSource, now), throws);
    case Ack(id, uuid, name, ok, result, error, now) => AckKeepsRates(s, id, uuid, name, ok, result, error, now);
    case Hangup(k) => ClosingKeepsRates(s.records, s.sockets, CloseSocket(s.sockets, Some(k)), {});
    case OnClose(k, now) => OnCloseKeepsRates(s, k, now);
    case CloseAll(now) => CloseEachKeepsRates(s, s.order, now);
    case Flush =>
    case FailingFlush(_, _) =>
    case Crash(written) => CrashKeepsRates(s, written, dates);
  }

  lemma {:induction false} RunKeepsRates(s: State, steps: seq<Step>, dates: Dates)
    requires RateInv(s)
    ensures RateInv(Exec(s, steps, dates))
    decreases |steps|
  {
    if steps != [] {
      if Enabled(s, steps[0], dates) {
        StepKeepsRates(s, steps[0], dates);
        RunKeepsRates(Apply(s, steps[0], dates), steps[1..], dates);
      } else {
        RunKeepsRates(s, steps[1..], dates);
      }
    }
  }

  /** In every reachable state: the desired rate is the demand of the viewers; the last
      rate asked for viewers over the OPEN current socket of a device is that one, and no
      two consecutive ones over a socket are equal, unless asking has thrown there. Even
      then the last one is right while a rate is cached. */
  lemma StreamRateAgreement(steps: seq<Step>, dates: Dates)
    ensures var s := Exec(EMPTY, steps, dates);
      && (forall id | id in s.records :: s.records[id].desiredFps == Demand(s.records[id].viewers))
      && (forall id | id in s.records && IsOpen(s.sockets, s.records[id].socket) ::
            (!s.sockets[s.records[id].socket.value].failed || s.records[id].requestedFps.Some? ==>
              Latest(s.sockets[s.records[id].socket.value].sets) == Some(s.records[id].desiredFps)))
      && (forall k | 0 <= k < |s.sockets| && !s.sockets[k].failed :: NoRepeat(s.sockets[k].sets))
  {
    RunKeepsRates(EMPTY, steps, dates);
    var s := Exec(EMPTY, steps, dates);
    forall id | id in s.records
      ensures s.records[id].desiredFps == Demand(s.records[id].viewers)
      ensures IsOpen(s.sockets, s.records[id].socket) ==>
        (!s.sockets[s.records[id].socket.value].failed || s.records[id].requestedFps.Some? ==>
          Latest(s.sockets[s.records[id].socket.value].sets) == Some(s.records[id].desiredFps))
    {
      assert Linked(id, s.records[id], s.sockets) && Agreed(s.records[id], s.sockets);
    }
  }

  // ------------------------------------------------------------ replaced sockets

  /** No record is on socket `k`. */
  ghost predicate Stale(s: State, k: nat) {
    k < |s.sockets| && forall id | id in s.records :: s.records[id].socket != Some(k)
  }

  /** A rate update leaves every record on its socket. */
  lemma UpdateKeepsSockets(s: State, id: string, uuid: string, now: string, throws: bool)
    requires id in s.records
    ensures var t := UpdateStreamRate(s, id, uuid, now, throws);
      && |t.sockets| == |s.sockets| && t.records == s.records[id := t.records[id]]
      && t.records[id].socket == s.records[id].socket
  {
    UpdatedRecords(s, id, uuid, now, throws);
  }

  lemma {:induction false} UpdateKeepsStale(s: State, id: string, uuid: string, now: string, throws: bool, k: nat)
    requires Stale(s, k) && id in s.records
    ensures Stale(UpdateStreamRate(s, id, uuid, now, throws), k)
  {
    UpdateKeepsSockets(s, id, uuid, now, throws);
  }

  lemma NewSocketKeepsStale(s: State, t: State, id: string, k: nat)
    requires k < |s.sockets| && |t.sockets| == |s.sockets| + 1
    requires forall other | other in s.records && other != id :: s.records[other].socket != Some(k)
    requires id in t.records && t.records == s.records[id := t.records[id]] && t.records[id].socket == Some(|s.sockets|)
    ensures Stale(t, k)
  {
  }

  lemma {:induction false} HelloKeepsStale(s: State, hello: Json, open: bool, uuid: string, now: string, throws: bool,
                                           k: nat)
    requires k < |s.sockets| && ValidHello(hello)
    requires forall other | other in s.records && other != DeviceIdOf(hello) :: s.records[other].socket != Some(k)
    ensures Stale(AcceptHello(s, hello, open, uuid, now, throws), k)
  {
    var id := DeviceIdOf(hello);
    var t := Noticed(s, hello, open, now);
    NewSocketKeepsStale(s, t, id, k);
    UpdateKeepsStale(t, id, uuid, now, throws, k);
  }

  lemma {:induction false} PublishKeepsStale(s: State, id: string, frame: Frame, failing: set<nat>, uuid: string,
                                             now: string, throws: bool, k: nat)
    requires Stale(s, k) && id in s.records
    ensures Stale(PublishFrame(s, id, frame, failing, uuid, now, throws), k)
  {
    if Storable(frame) && failing * s.records[id].viewers.Keys != {} {
      var stored := MarkFrameDirty(Put(s, id, WithFrame(s.records[id], frame, now)), id);
      UpdateKeepsStale(Put(stored, id, stored.records[id].(viewers := s.records[id].viewers - failing)), id, uuid,
        now, throws, k);
    }
  }

  lemma {:induction false} CrashKeepsStale(s: State, written: set<string>, dates: Dates, k: nat)
    requires Stale(s, k)
    ensures Stale(Crashed(s, written, dates), k)
  {
    var t := Crashed(s, written, dates);
    CrashedIsIdle(s, written, dates);
    forall id | id in t.records
      ensures t.records[id].socket != Some(k)
    {
      assert Idle(t.records[id]);
    }
  }

  lemma {:induction false} CloseEachKeepsStale(s: State, ids: seq<string>, now: string, k: nat)
    requires Stale(s, k)
    ensures Stale(CloseEach(s, ids, now), k)
    decreases |ids|
  {
    if ids != [] {
      var init, last := ids[..|ids| - 1], ids[|ids| - 1];
      CloseEachKeepsStale(s, init, now, k);
    }
  }

  lemma {:induction false} AckKeepsStale(s: State, id: string, uuid: string, name: CommandName, ok: bool,
                                         result: Option<Json>, error: Option<Json>, now: string, k: nat)
    requires Stale(s, k) && id in s.records
    ensures Stale(AcceptAck(s, id, uuid, name, ok, result, error, now), k)
  {
  }

  lemma {:induction false} ApiKeepsStale(s: State, id: string, c: Command, throws: bool, k: nat)
    requires Stale(s, k) && id in s.records && IsOpen(s.sockets, s.records[id].socket)
    ensures Stale(SendCommand(s, id, c, None, throws), k)
  {
  }

  lemma {:induction false} OnCloseKeepsStale(s: State, socket: nat, now: string, k: nat)
    requires Stale(s, k) && socket < |s.sockets|
    ensures Stale(SocketClosed(s, socket, now), k)
  {
  }

  lemma {:induction false} StepKeepsStale(s: State, step: Step, dates: Dates, k: nat)
    requires Stale(s, k) && Enabled(s, step, dates)
    ensures Stale(Apply(s, step, dates), k)
  {
    match step
    case Hello(hello, open, uuid, now, throws) => HelloKeepsStale(s, hello, open, uuid, now, throws, k);
    case FrameIn(id, frame, failing, uuid, now, throws) =>
      PublishKeepsStale(s, id, frame, failing, uuid, now, throws, k);
    case Join(id, viewer, mode, uuid, now, throws) =>
      var watched := s.records[id].(viewers := s.records[id].viewers[viewer := mode]);
      UpdateKeepsStale(Put(s, id, watched), id, uuid, now, throws, k);
    case Leave(id, viewer, uuid, now, throws) =>
      var watched := s.records[id].(viewers := s.records[id].viewers - {viewer});
      UpdateKeepsStale(Put(s, id, watched), id, uuid, now, throws, k);
    case ApiCommand(id, name, uuid, now, throws) =>
      ApiKeepsStale(s, id, NewCommand(uuid, name, ApiSource, now), throws, k);
    case Ack(id, uuid, name, ok, result, error, now) => AckKeepsStale(s, id, uuid, name, ok, result, error, now, k);
    case Hangup(_) =>
    case OnClose(socket, now) => OnCloseKeepsStale(s, socket, now, k);
    case CloseAll(now) => CloseEachKeepsStale(s, s.order, now, k);
    case Flush =>
    case FailingFlush(_, _) =>
    case Crash(written) => CrashKeepsStale(s, written, dates, k);
  }

  /** Once a device has reconnected, the close of its old socket changes no record and
      marks nothing dirty, however late it comes. */
  lemma {:induction false} ReplacedSocketIsHarmless(s: State, steps: seq<Step>, dates: Dates, k: nat, now: string)
    requires Stale(s, k)
    ensures var t := Exec(s, steps, dates);
      && Stale(t, k)
      && SocketClosed(t, k, now) == t.(sockets := CloseSocket(t.sockets, Some(k)))
    decreases |steps|
  {
    if steps != [] {
      if Enabled(s, steps[0], dates) {
        StepKeepsStale(s, steps[0], dates, k);
        ReplacedSocketIsHarmless(Apply(s, steps[0], dates), steps[1..], dates, k, now);
      } else {
        ReplacedSocketIsHarmless(s, steps[1..], dates, k, now);
      }
    }
  }

  lemma UpdateKeepsOpen(s: State, id: string, uuid: string, now: string, throws: bool, k: nat)
    requires id in s.records && k < |s.sockets|
    ensures k < |UpdateStreamRate(s, id, uuid, now, throws).sockets|
    ensures UpdateStreamRate(s, id, uuid, now, throws).sockets[k].open == s.sockets[k].open
  {
  }

  /** A hello of a known device makes its old socket such a socket. */
  lemma {:induction false} HelloReplaces(s: State, hello: Json, open: bool, uuid: string, now: string, throws: bool)
    requires RateInv(s) && ValidHello(hello) && DeviceIdOf(hello) in s.records
    requires s.records[DeviceIdOf(hello)].socket.Some?
    ensures var k := s.records[DeviceIdOf(hello)].socket.value;
      Stale(AcceptHello(s, hello, open, uuid, now, throws), k)
      && !AcceptHello(s, hello, open, uuid, now, throws).sockets[k].open
  {
    var id := DeviceIdOf(hello);
    var k := s.records[id].socket.value;
    assert Linked(id, s.records[id], s.sockets);
    forall other | other in s.records && other != id
      ensures s.records[other].socket != Some(k)
    {
      assert Linked(other, s.records[other], s.sockets);
    }
    HelloKeepsStale(s, hello, open, uuid, now, throws, k);
    var t := Put(s, id, Greeted(s, id, hello, |s.sockets|, now)).(
      order := s.order, sockets := CloseSocket(s.sockets, Some(k)) + [Socket(open, id, [], false)]);
    UpdateKeepsOpen(t, id, uuid, now, throws, k);
  }

  // -------------------------------------------------------------------- closing

  lemma {:induction false} CloseOneCloses(s: State, id: string, now: string)
    requires id in s.records
    ensures var t := CloseOne(s, id, now);
      && t.records.Keys == s.records.Keys && MoreClosed(s.sockets, t.sockets)
      && (forall other | other in s.records && !IsOpen(s.sockets, s.records[other].socket) ::
            !IsOpen(t.sockets, t.records[other].socket))
      && !IsOpen(t.sockets, t.records[id].socket)
  {
  }

  /** After the loop of `close` no listed device is on an OPEN socket. */
  lemma {:induction false} CloseLeavesNoneOpen(s: State, ids: seq<string>, now: string)
    requires forall i | 0 <= i < |ids| :: ids[i] in s.records
    ensures var t := CloseEach(s, ids, now);
      && t.records.Keys == s.records.Keys && MoreClosed(s.sockets, t.sockets)
      && forall i | 0 <= i < |ids| :: !IsOpen(t.sockets, t.records[ids[i]].socket)
    decreases |ids|
  {
    if ids != [] {
      var init, last := ids[..|ids| - 1], ids[|ids| - 1];
      CloseLeavesNoneOpen(s, init, now);
      var t := CloseEach(s, init, now);
      CloseOneCloses(t, last, now);
      forall i | 0 <= i < |init|
        ensures !IsOpen(CloseOne(t, last, now).sockets, CloseOne(t, last, now).records[init[i]].socket)
      {
        assert !IsOpen(t.sockets, t.records[init[i]].socket);
      }
    }
  }
}
