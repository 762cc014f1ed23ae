/** What one event does to the hub, for whoever causes it, and that both invariants of
    all runs survive it. */
module HubEvents {
  import opened Basics
  import opened RegistryJson
  import opened CameraRegistry
  import opened RegistryFiles
  import P = RegistryPersistence
  import R = StreamRate

  /** Files and memory agree as the persistence invariant says, and the rates asked are
      those the viewers want. */
  ghost predicate Sound(s: State, dates: Dates) {
    P.PersistInv(s, dates) && R.RateInv(s)
  }

  /** Files that a hub has written, in whatever order it was stopped. */
  ghost predicate HubFiles(disk: Disk, dates: Dates) {
    P.DiskOk(disk.registry, dates) && forall id | id in disk.frames :: Storable(disk.frames[id])
  }

  lemma LoadedIsSound(disk: Disk, dates: Dates)
    requires HubFiles(disk, dates)
    ensures var t := Load(disk, dates).(past := Past(true, true, false));
      Sound(t, dates)
  {
    var t := Load(disk, dates).(past := Past(true, true, false));
    if disk.registry.Some? {
      var order, kept :| P.Describes(disk.registry, order, kept, dates);
      LoadedAsDescribed(disk, order, kept, dates);
      R.LoadedIsIdle(Field(disk.registry.value, KDevices).value.items, disk.frames, dates);
      IdleIsAgreed(t);
    }
  }

  lemma LoadedAsDescribed(disk: Disk, order: seq<string>, kept: map<string, Record>, dates: Dates)
    requires HubFiles(disk, dates) && P.Describes(disk.registry, order, kept, dates)
    ensures P.PersistInv(Load(disk, dates).(past := Past(true, true, false)), dates)
    ensures Supported(disk.registry.value)
  {
    var t := Load(disk, dates).(past := Past(true, true, false));
    assert disk == Disk(Some(FileOf(order, kept)), disk.frames);
    LoadRestoresEveryDevice(order, kept, disk.frames, dates);
    FileIsSupported(order, kept);
    P.LoadedIsOk(order, kept, t, true, dates);
    assert P.Describes(t.disk.registry, t.order, kept, dates);
  }

  lemma {:induction false} IdleIsAgreed(t: State)
    requires R.AllIdle(t.records) && t.sockets == []
    ensures R.RateInv(t)
  {
    forall id | id in t.records
      ensures R.Linked(id, t.records[id], t.sockets) && R.Agreed(t.records[id], t.sockets)
    {
      assert R.Idle(t.records[id]);
    }
  }

  // --------------------------------------------------------------------- events

  /** The device is on the new socket, its old one is closed, and that is marked. */
  ghost predicate Welcomed(s: State, t: State, hello: Json)
    requires ValidHello(hello)
  {
    var id := DeviceIdOf(hello);
    && id in t.records && t.records[id].socket == Some(|s.sockets|) && |t.sockets| == |s.sockets| + 1
    && t.records[id].device.hello == hello && t.dirty && t.timer
    && (id in s.records ==> t.records[id].latestFrame == s.records[id].latestFrame)
    && (id in s.records && s.records[id].socket.Some? && s.records[id].socket.value < |s.sockets| ==>
        !t.sockets[s.records[id].socket.value].open)
  }

  lemma WelcomedFacts(s: State, hello: Json, open: bool, uuid: string, now: string, throws: bool)
    requires ValidHello(hello)
    ensures Welcomed(s, AcceptHello(s, hello, open, uuid, now, throws), hello)
  {
    var id := DeviceIdOf(hello);
    var t := Noticed(s, hello, open, now);
    UpdatedFacts(t, id, uuid, now, throws);
  }

  /** What a rate update leaves of the record. */
  predicate SameView(a: Record, b: Record) {
    && b.socket == a.socket && b.viewers == a.viewers && b.latestFrame == a.latestFrame
    && b.device.hello == a.device.hello
  }

  /** And of everything else. */
  ghost predicate KeptRest(s: State, t: State) {
    && |t.sockets| == |s.sockets| && (forall k | 0 <= k < |s.sockets| :: t.sockets[k].open == s.sockets[k].open)
    && t.dirtyFrames == s.dirtyFrames && (s.dirty ==> t.dirty) && (s.timer ==> t.timer)
  }

  ghost predicate KeptOthers(s: State, t: State, id: string) {
    && t.records.Keys == s.records.Keys
    && forall other | other in s.records && other != id :: t.records[other] == s.records[other]
  }

  lemma UpdatedFacts(s: State, id: string, uuid: string, now: string, throws: bool)
    requires id in s.records
    ensures var t := UpdateStreamRate(s, id, uuid, now, throws);
      KeptOthers(s, t, id) && SameView(s.records[id], t.records[id]) && KeptRest(s, t)
  {
    UpdatedRecord(s, id, uuid, now, throws);
    UpdatedRest(s, id, uuid, now, throws);
  }

  lemma RatedView(record: Record, sockets: seq<Socket>, uuid: string, now: string, throws: bool)
    ensures SameView(record, Rated(record, sockets, uuid, now, throws))
  {
  }

  lemma OneRecordPut(s: State, t: State, id: string, r: Record)
    requires id in s.records && t.records == s.records[id := r] && SameView(s.records[id], r)
    ensures KeptOthers(s, t, id) && SameView(s.records[id], t.records[id])
  {
  }

  lemma UpdatedRecord(s: State, id: string, uuid: string, now: string, throws: bool)
    requires id in s.records
    ensures var t := UpdateStreamRate(s, id, uuid, now, throws);
      KeptOthers(s, t, id) && SameView(s.records[id], t.records[id])
  {
    var r := Rated(s.records[id], s.sockets, uuid, now, throws);
    UpdatedRecords(s, id, uuid, now, throws);
    RatedView(s.records[id], s.sockets, uuid, now, throws);
    OneRecordPut(s, UpdateStreamRate(s, id, uuid, now, throws), id, r);
  }

  lemma UpdatedRest(s: State, id: string, uuid: string, now: string, throws: bool)
    requires id in s.records
    ensures KeptRest(s, UpdateStreamRate(s, id, uuid, now, throws))
  {
  }

  lemma HelloIsSound(s: State, hello: Json, open: bool, uuid: string, now: string, throws: bool, dates: Dates)
    requires Sound(s, dates) && ValidHello(hello) && dates(now)
    ensures var t := AcceptHello(s, hello, open, uuid, now, throws);
      Sound(t, dates) && Welcomed(s, t, hello)
  {
    P.HelloKeepsInv(s, hello, open, uuid, now, throws, dates);
    R.HelloKeepsRates(s, hello, open, uuid, now, throws);
    WelcomedFacts(s, hello, open, uuid, now, throws);
  }

  /** The frame is shown and marked, and exactly the failing viewers are gone. */
  ghost predicate Shown(s: State, t: State, id: string, frame: Frame, failing: set<nat>) {
    && id in s.records && id in t.records
    && t.records[id].latestFrame == Some(frame) && t.dirtyFrames == s.dirtyFrames + {id} && t.dirty && t.timer
    && t.records[id].viewers == s.records[id].viewers - failing
    && (forall other | other in s.records && other != id :: other in t.records && t.records[other] == s.records[other])
  }

  lemma NoneFails(viewers: map<nat, Mode>, failing: set<nat>)
    requires failing * viewers.Keys == {}
    ensures viewers - failing == viewers
  {
    forall v | v in viewers
      ensures v !in failing
    {
      assert v !in failing * viewers.Keys;
    }
  }

  lemma ShownFacts(s: State, id: string, frame: Frame, failing: set<nat>, uuid: string, now: string, throws: bool)
    requires id in s.records && Storable(frame)
    ensures Shown(s, PublishFrame(s, id, frame, failing, uuid, now, throws), id, frame, failing)
  {
    var viewers := s.records[id].viewers;
    var stored := MarkFrameDirty(Put(s, id, WithFrame(s.records[id], frame, now)), id);
    if failing * viewers.Keys == {} {
      NoneFails(viewers, failing);
    } else {
      UpdatedFacts(Put(stored, id, stored.records[id].(viewers := viewers - failing)), id, uuid, now, throws);
    }
  }

  lemma FrameIsSound(s: State, id: string, frame: Frame, failing: set<nat>, uuid: string, now: string, throws: bool,
                     dates: Dates)
    requires Sound(s, dates) && id in s.records && dates(now)
    ensures var t := PublishFrame(s, id, frame, failing, uuid, now, throws);
      Sound(t, dates) && (if Storable(frame) then Shown(s, t, id, frame, failing) else t == s)
  {
    P.PublishKeepsInv(s, id, frame, failing, uuid, now, throws, dates);
    R.PublishKeepsRates(s, id, frame, failing, uuid, now, throws);
    if Storable(frame) {
      ShownFacts(s, id, frame, failing, uuid, now, throws);
    }
  }

  predicate Names(c: Command, uuid: string, name: CommandName) {
    c.commandId == uuid && c.name == name
  }

  predicate NamesNone(commands: seq<Command>, uuid: string, name: CommandName) {
    forall i | 0 <= i < |commands| :: !Names(commands[i], uuid, name)
  }

  /** Entry `i` is the newest the answer names, and it alone has taken the outcome. */
  predicate TakesAnswer(before: seq<Command>, after: seq<Command>, i: nat, uuid: string, name: CommandName, ok: bool) {
    && |after| == |before| && i < |before|
    && Names(before[i], uuid, name) && NamesNone(before[..i], uuid, name)
    && after[i].status == (if ok then Acked else Refused)
    && after[..i] == before[..i] && after[i + 1..] == before[i + 1..]
  }

  /** The newest entry the answer names has its outcome; an answer that names none
      changes nothing. */
  ghost predicate Answered(s: State, t: State, id: string, uuid: string, name: CommandName, ok: bool)
    requires id in s.records
  {
    var before := s.records[id].device.commands;
    if NamesNone(before, uuid, name) then t == s
    else
      && id in t.records && t.dirty
      && exists i :: TakesAnswer(before, t.records[id].device.commands, i, uuid, name, ok)
  }

  lemma {:induction false} FindIsFirst(commands: seq<Command>, uuid: string, name: CommandName)
    ensures var at := Find(commands, uuid, name);
      if at.None? then NamesNone(commands, uuid, name)
      else Names(commands[at.value], uuid, name) && NamesNone(commands[..at.value], uuid, name)
    decreases |commands|
  {
    if commands != [] && !Names(commands[0], uuid, name) {
      FindIsFirst(commands[1..], uuid, name);
      assert commands == [commands[0]] + commands[1..];
    }
  }

  lemma AckIsSound(s: State, id: string, uuid: string, name: CommandName, ok: bool,
                   result: Option<Json>, error: Option<Json>, now: string, dates: Dates)
    requires Sound(s, dates) && id in s.records && dates(now) && ValidError(error)
    ensures var t := AcceptAck(s, id, uuid, name, ok, result, error, now);
      Sound(t, dates) && Answered(s, t, id, uuid, name, ok)
  {
    P.AckKeepsInv(s, id, uuid, name, ok, result, error, now, dates);
    R.AckKeepsRates(s, id, uuid, name, ok, result, error, now);
    AnsweredFacts(s, id, uuid, name, ok, result, error, now);
  }

  lemma AnsweredFacts(s: State, id: string, uuid: string, name: CommandName, ok: bool,
                      result: Option<Json>, error: Option<Json>, now: string)
    requires id in s.records
    ensures Answered(s, AcceptAck(s, id, uuid, name, ok, result, error, now), id, uuid, name, ok)
  {
    var r := s.records[id];
    FindIsFirst(r.device.commands, uuid, name);
    var at := Find(r.device.commands, uuid, name);
    if at.Some? {
      assert Names(r.device.commands[at.value], uuid, name) ==> !NamesNone(r.device.commands, uuid, name);
      EntryTakesAnswer(r, at.value, uuid, name, ok, result, error, now);
      AckShape(s, id, at.value, uuid, name, ok, result, error, now);
    }
  }

  lemma AckShape(s: State, id: string, at: nat, uuid: string, name: CommandName, ok: bool,
                 result: Option<Json>, error: Option<Json>, now: string)
    requires id in s.records && Find(s.records[id].device.commands, uuid, name) == Some(at)
    ensures var t := AcceptAck(s, id, uuid, name, ok, result, error, now);
      id in t.records && t.dirty && t.records[id] == WithAck(s.records[id], at, ok, result, error, now)
  {
  }

  lemma EntryTakesAnswer(r: Record, at: nat, uuid: string, name: CommandName, ok: bool,
                         result: Option<Json>, error: Option<Json>, now: string)
    requires at < |r.device.commands|
    requires Names(r.device.commands[at], uuid, name) && NamesNone(r.device.commands[..at], uuid, name)
    ensures TakesAnswer(r.device.commands, WithAck(r, at, ok, result, error, now).device.commands, at, uuid, name, ok)
  {
  }

  /** Socket `k` is closed; a record goes offline exactly if it was on it. */
  ghost predicate Gone(s: State, t: State, k: nat) {
    && k < |t.sockets| && !t.sockets[k].open && t.records.Keys == s.records.Keys
    && (forall id | id in s.records && s.records[id].socket == Some(k) :: t.records[id].socket.None? && t.dirty)
    && (forall id | id in s.records && s.records[id].socket != Some(k) :: t.records[id] == s.records[id])
    && ((forall id | id in s.records :: s.records[id].socket != Some(k)) ==>
        t.records == s.records && t.dirty == s.dirty)
  }

  lemma {:induction false} CloseIsSound(s: State, k: nat, now: string, dates: Dates)
    requires Sound(s, dates) && k < |s.sockets| && dates(now)
    ensures var t := SocketClosed(s, k, now);
      Sound(t, dates) && Gone(s, t, k)
  {
    P.OnCloseKeepsInv(s, k, now, dates);
    R.OnCloseKeepsRates(s, k, now);
    forall id | id in s.records && s.records[id].socket == Some(k)
      ensures s.sockets[k].device == id
    {
      OnOwnSocket(s, id, k);
    }
    GoneFacts(s, k, now);
  }

  /** Under the rate invariant a record is on its own sockets only. */
  lemma OnOwnSocket(s: State, id: string, k: nat)
    requires R.RateInv(s) && id in s.records && k < |s.sockets| && s.records[id].socket == Some(k)
    ensures s.sockets[k].device == id
  {
    assert R.Linked(id, s.records[id], s.sockets);
  }

  lemma {:induction false} GoneFacts(s: State, k: nat, now: string)
    requires k < |s.sockets|
    requires forall id | id in s.records && s.records[id].socket == Some(k) :: s.sockets[k].device == id
    ensures Gone(s, SocketClosed(s, k, now), k)
  {
    var id := s.sockets[k].device;
    if id in s.records && s.records[id].socket == Some(k) {
      LeftFacts(s, SocketClosed(s, k, now), k, id, GoOffline(s.records[id], now));
    }
  }

  lemma {:induction false} LeftFacts(s: State, t: State, k: nat, id: string, r: Record)
    requires id in s.records && s.records[id].socket == Some(k) && r.socket.None?
    requires forall other | other in s.records && s.records[other].socket == Some(k) :: other == id
    requires t.records == s.records[id := r] && t.dirty && k < |t.sockets| && !t.sockets[k].open
    ensures Gone(s, t, k)
  {
  }

  /** The viewers are the new ones and the rate is their demand; nobody else changes. */
  ghost predicate Watched(s: State, t: State, id: string, viewers: map<nat, Mode>) {
    && id in t.records && t.records[id].viewers == viewers
    && (forall other | other in s.records && other != id :: other in t.records && t.records[other] == s.records[other])
  }

  lemma ViewersAreSound(s: State, id: string, viewers: map<nat, Mode>, uuid: string, now: string, throws: bool,
                        dates: Dates)
    requires Sound(s, dates) && id in s.records && dates(now)
    ensures var t := ViewerChange(s, id, viewers, uuid, now, throws);
      Sound(t, dates) && Watched(s, t, id, viewers)
  {
    P.ViewersKeepInv(s, id, viewers, uuid, now, throws, dates);
    R.ViewersKeepRates(s, id, viewers, uuid, now, throws);
    UpdatedFacts(Put(s, id, s.records[id].(viewers := viewers)), id, uuid, now, throws);
  }

  /** The command heads the history. It is going to be saved, unless its `send` threw:
      then nothing else has changed. */
  ghost predicate Commanded(s: State, t: State, id: string, c: Command, throws: bool) {
    && id in t.records && 0 < |t.records[id].device.commands| <= MAX_COMMAND_HISTORY
    && t.records[id].device.commands[0] == c
    && (if throws then t.dirty == s.dirty && t.timer == s.timer && t.disk == s.disk && t.sockets == s.sockets
        else t.dirty && t.timer)
    && (forall other | other in s.records && other != id :: other in t.records && t.records[other] == s.records[other])
  }

  lemma CommandIsSound(s: State, id: string, c: Command, throws: bool, dates: Dates)
    requires Sound(s, dates) && id in s.records && IsOpen(s.sockets, s.records[id].socket) && WellFormed(c, dates)
    ensures var t := SendCommand(s, id, c, None, throws);
      Sound(t, dates) && Commanded(s, t, id, c, throws)
  {
    P.CommandKeepsInv(s, id, c, None, throws, dates);
    R.ApiKeepsRates(s, id, c, throws);
    CommandedFacts(s, id, c, throws);
  }

  lemma CommandedFacts(s: State, id: string, c: Command, throws: bool)
    requires id in s.records && IsOpen(s.sockets, s.records[id].socket)
    ensures Commanded(s, SendCommand(s, id, c, None, throws), id, c, throws)
  {
  }

  lemma FlushIsSound(s: State, written: set<string>, dates: Dates)
    requires Sound(s, dates)
    ensures Sound(Flushed(s), dates) && !Flushed(s).dirty && Flushed(s).dirtyFrames == {} && !Flushed(s).timer
    ensures s.dirty ==> Saved(Flushed(s))
    ensures Sound(FlushFailed(s, written, false), dates) && Sound(FlushFailed(s, written, true), dates)
  {
    P.FlushKeepsInv(s, dates);
    P.FailedFlushKeepsInv(s, written, false, dates);
    P.FailedFlushKeepsInv(s, written, true, dates);
  }

  lemma {:induction false} CloseAllIsSound(s: State, now: string, dates: Dates)
    requires Sound(s, dates) && dates(now)
    ensures var t := ClosedAll(s, now);
      Sound(t, dates) && forall id | id in t.records :: !IsOpen(t.sockets, t.records[id].socket)
  {
    P.CloseEachKeepsInv(s, s.order, now, dates);
    R.CloseEachKeepsRates(s, s.order, now);
    R.CloseLeavesNoneOpen(s, s.order, now);
  }
}
