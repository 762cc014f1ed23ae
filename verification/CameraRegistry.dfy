/** The hub's registry (tools/camera-server.ts): records in memory, what is marked
    dirty, the files on disk, the device sockets and the stream rate asked of them.
    Each step is one event handler, or the end of the process at any moment; the hub
    has a state directory. The `send` of a command may throw; that of `device.ready`
    does not. */
module CameraRegistry {
  import opened Basics
  import opened RegistryJson

  type Frame = seq<byte>

  const MAX_FRAME_BYTES: nat := 512 * 1024
  const MAX_COMMAND_HISTORY: nat := 20

  datatype Mode = Grid | Detail

  datatype Record = Record(
    device: Device, socket: Option<nat>, latestFrame: Option<Frame>,
    viewers: map<nat, Mode>, desiredFps: nat, requestedFps: Option<nat>)

  /** A device socket: whether it is OPEN, the device its hello named, the rates asked
      over it on behalf of viewers, and whether asking for one has ever thrown. */
  datatype Socket = Socket(open: bool, device: string, sets: seq<nat>, failed: bool)

  datatype Disk = Disk(registry: Option<Json>, frames: map<string, Frame>)

  /** `crashed`: the process was once killed with something unsaved; `stale`: since that
      no flush has succeeded, or the process has started again. `lost`: a history entry
      is not saved although nothing is marked dirty. */
  datatype Past = Past(crashed: bool, stale: bool, lost: bool)

  /** `order` is the insertion order of the registry map. `stalled`: an explicit flush
      has failed since the last change. */
  datatype State = State(
    order: seq<string>, records: map<string, Record>, sockets: seq<Socket>,
    dirty: bool, dirtyFrames: set<string>, timer: bool, stalled: bool, past: Past, disk: Disk)

  const EMPTY := State([], map[], [], false, {}, false, false, Past(false, false, false), Disk(None, map[]))

  predicate Storable(frame: Frame) {
    IsJpeg(frame) && |frame| <= MAX_FRAME_BYTES
  }

  /** `desiredViewerFps`. */
  function Demand(viewers: map<nat, Mode>): nat {
    if exists v | v in viewers :: viewers[v].Detail? then 8 else if viewers != map[] then 2 else 1
  }

  // ---------------------------------------------------------------- operations

  function Put(s: State, id: string, record: Record): State {
    s.(records := s.records[id := record])
  }

  function MarkDirty(s: State): State {
    s.(dirty := true, timer := true, stalled := false, past := s.past.(lost := false))
  }

  function MarkFrameDirty(s: State, id: string): State {
    MarkDirty(s).(dirtyFrames := s.dirtyFrames + {id})
  }

  predicate IsOpen(sockets: seq<Socket>, socket: Option<nat>) {
    socket.Some? && socket.value < |sockets| && sockets[socket.value].open
  }

  function Capped(commands: seq<Command>): seq<Command> {
    if |commands| <= MAX_COMMAND_HISTORY then commands else commands[..MAX_COMMAND_HISTORY]
  }

  function Noted(record: Record, command: Command): Record {
    record.(device := record.device.(commands := Capped([command] + record.device.commands)))
  }

  /** A history entry for which nothing is marked dirty. */
  function Unmarked(s: State): State {
    if s.dirty then s else s.(past := s.past.(lost := true))
  }

  /** The history entry and the message of `sendCommand`; a rate asked for viewers is
      remembered at its socket. When `send` throws, only the entry is left. */
  function SendCommand(s: State, id: string, command: Command, rate: Option<nat>, throws: bool): State
    requires id in s.records && IsOpen(s.sockets, s.records[id].socket)
  {
    var record := s.records[id];
    var k := record.socket.value;
    var asked := if rate.Some? then s.sockets[k].(sets := s.sockets[k].sets + [rate.value]) else s.sockets[k];
    if throws then Unmarked(Put(s, id, Noted(record, command)))
    else MarkDirty(Put(s, id, Noted(record, command)).(sockets := s.sockets[k := asked]))
  }

  function NewCommand(uuid: string, name: CommandName, source: Source, now: string): Command {
    Command(uuid, name, source, PendingAck, now, None, None, None)
  }

  /** A rate update whose `send` threw: caught, with the cached rate forgotten. */
  function RateThrew(s: State, id: string, record: Record, command: Command): State
    requires IsOpen(s.sockets, record.socket)
  {
    var k := record.socket.value;
    Unmarked(Put(s, id, Noted(record.(requestedFps := None), command)).(
      sockets := s.sockets[k := s.sockets[k].(failed := true)]))
  }

  /** The rate the viewers want has to be asked for. */
  predicate Asks(record: Record, sockets: seq<Socket>) {
    IsOpen(sockets, record.socket) && record.requestedFps != Some(Demand(record.viewers))
  }

  function UpdateStreamRate(s: State, id: string, uuid: string, now: string, throws: bool): State
    requires id in s.records
  {
    var fps := Demand(s.records[id].viewers);
    var record := s.records[id].(desiredFps := fps);
    var command := NewCommand(uuid, StreamSet, ViewerSource, now);
    if !Asks(s.records[id], s.sockets) then Put(s, id, record)
    else if throws then RateThrew(s, id, record, command)
    else SendCommand(Put(s, id, record.(requestedFps := Some(fps))), id, command, Some(fps), false)
  }

  /** What a rate update makes of the record. */
  function Rated(record: Record, sockets: seq<Socket>, uuid: string, now: string, throws: bool): Record {
    var fps := Demand(record.viewers);
    var told := record.(desiredFps := fps);
    if !Asks(record, sockets) then told
    else
      Noted(told.(requestedFps := if throws then None else Some(fps)), NewCommand(uuid, StreamSet, ViewerSource, now))
  }

  /** A rate update changes one record. */
  lemma UpdatedRecords(s: State, id: string, uuid: string, now: string, throws: bool)
    requires id in s.records
    ensures UpdateStreamRate(s, id, uuid, now, throws).records ==
      s.records[id := Rated(s.records[id], s.sockets, uuid, now, throws)]
  {
    var fps := Demand(s.records[id].viewers);
    var asked := s.records[id].(desiredFps := fps, requestedFps := Some(fps));
    var noted := Noted(asked, NewCommand(uuid, StreamSet, ViewerSource, now));
    assert s.records[id := asked][id := noted] == s.records[id := noted];
  }

  function CloseSocket(sockets: seq<Socket>, socket: Option<nat>): seq<Socket> {
    if socket.Some? && socket.value < |sockets| then sockets[socket.value := sockets[socket.value].(open := false)]
    else sockets
  }

  function DeviceIdOf(hello: Json): string
    requires ValidHello(hello)
  {
    Text(Field(hello, KDeviceId)).value
  }

  /** The record as `acceptHello` makes or refreshes it, on a new socket. */
  function Greeted(s: State, id: string, hello: Json, socket: nat, now: string): Record {
    if id !in s.records then
      Record(Device(id, hello, Some(now), None, now, 0, None, 0, []), Some(socket), None, map[], 1, None)
    else
      var record := s.records[id];
      record.(device := record.device.(hello := hello, connectedAt := Some(now), disconnectedAt := None,
        lastSeenAt := now),
        socket := Some(socket), requestedFps := None)
  }

  /** The hub once a hello is noted, before the rate update. */
  function Noticed(s: State, hello: Json, open: bool, now: string): State
    requires ValidHello(hello)
  {
    var id := DeviceIdOf(hello);
    var replaced := if id in s.records then CloseSocket(s.sockets, s.records[id].socket) else s.sockets;
    Put(s, id, Greeted(s, id, hello, |s.sockets|, now)).(
      order := if id in s.records then s.order else s.order + [id],
      sockets := replaced + [Socket(open, id, [], false)])
  }

  function AcceptHello(s: State, hello: Json, open: bool, uuid: string, now: string, throws: bool): State
    requires ValidHello(hello)
  {
    MarkDirty(UpdateStreamRate(Noticed(s, hello, open, now), DeviceIdOf(hello), uuid, now, throws))
  }

  function WithFrame(record: Record, frame: Frame, now: string): Record {
    record.(latestFrame := Some(frame),
      device := record.device.(frameCount := record.device.frameCount + 1, lastFrameAt := Some(now),
        lastSeenAt := now, lastFrameBytes := |frame|))
  }

  /** `failing`: the viewers whose `enqueue` throws. */
  function PublishFrame(s: State, id: string, frame: Frame, failing: set<nat>, uuid: string, now: string,
                        throws: bool): State
    requires id in s.records
  {
    if !Storable(frame) then s
    else
      var record := s.records[id];
      var stored := MarkFrameDirty(Put(s, id, WithFrame(record, frame, now)), id);
      if failing * record.viewers.Keys == {} then stored
      else
        UpdateStreamRate(Put(stored, id, stored.records[id].(viewers := record.viewers - failing)), id, uuid, now,
          throws)
  }

  function ViewerChange(s: State, id: string, viewers: map<nat, Mode>, uuid: string, now: string, throws: bool): State
    requires id in s.records
  {
    UpdateStreamRate(Put(s, id, s.records[id].(viewers := viewers)), id, uuid, now, throws)
  }

  /** Position of the command an ack names, newest first. */
  function Find(commands: seq<Command>, uuid: string, name: CommandName): (at: Option<nat>)
    ensures at.Some? ==> at.value < |commands|
  {
    if commands == [] then None
    else if commands[0].commandId == uuid && commands[0].name == name then Some(0)
    else
      var rest := Find(commands[1..], uuid, name);
      if rest.Some? then Some(rest.value + 1) else None
  }

  function AcceptAck(s: State, id: string, uuid: string, name: CommandName, ok: bool,
                     result: Option<Json>, error: Option<Json>, now: string): State
    requires id in s.records
  {
    var record := s.records[id];
    var at := Find(record.device.commands, uuid, name);
    if at.None? then s
    else
      MarkDirty(Put(s, id, WithAck(record, at.value, ok, result, error, now)))
  }

  function WithAck(record: Record, at: nat, ok: bool, result: Option<Json>, error: Option<Json>, now: string): Record
    requires at < |record.device.commands|
  {
    var entry := record.device.commands[at].(
      status := if ok then Acked else Refused, acknowledgedAt := Some(now), result := result, error := error);
    record.(device := record.device.(commands := record.device.commands[at := entry], lastSeenAt := now))
  }

  function GoOffline(record: Record, now: string): Record {
    record.(device := record.device.(disconnectedAt := Some(now), lastSeenAt := now), socket := None,
      requestedFps := None)
  }

  /** `onclose`, with the record its closure remembers. */
  function SocketClosed(s: State, k: nat, now: string): State
    requires k < |s.sockets|
  {
    var id := s.sockets[k].device;
    var closed := s.(sockets := CloseSocket(s.sockets, Some(k)));
    if id in s.records && s.records[id].socket == Some(k) then MarkDirty(Put(closed, id, GoOffline(s.records[id], now)))
    else closed
  }

  /** One turn of the loop in `close`. */
  function CloseOne(s: State, id: string, now: string): State
    requires id in s.records
  {
    if !IsOpen(s.sockets, s.records[id].socket) then s
    else
      MarkDirty(Put(s, id, GoOffline(s.records[id], now)).(sockets := CloseSocket(s.sockets, s.records[id].socket)))
  }

  function CloseEach(s: State, ids: seq<string>, now: string): State {
    if ids == [] then s
    else
      var t := CloseEach(s, ids[..|ids| - 1], now);
      if ids[|ids| - 1] in t.records then CloseOne(t, ids[|ids| - 1], now) else t
  }

  /** `close`: every OPEN device socket is closed and its record goes offline. */
  function ClosedAll(s: State, now: string): State {
    CloseEach(s, s.order, now)
  }

  // --------------------------------------------------------------- persistence

  /** The devices array, in insertion order. */
  function DevicesJson(order: seq<string>, records: map<string, Record>): seq<Json> {
    if order == [] then []
    else
      var id := order[|order| - 1];
      DevicesJson(order[..|order| - 1], records) + (if id in records then [DeviceJson(records[id].device)] else [])
  }

  function FileOf(order: seq<string>, records: map<string, Record>): Json {
    JObject(map[KVersion := JInt(1), KDevices := JArray(DevicesJson(order, records))])
  }

  /** The frame files after those of `written` have been replaced. */
  function WithFrames(s: State, written: set<string>): map<string, Frame> {
    s.disk.frames
    + map id | id in s.records && id in s.dirtyFrames && id in written && s.records[id].latestFrame.Some?
        :: s.records[id].latestFrame.value
  }

  function Flushed(s: State): State {
    if !s.dirty && s.dirtyFrames == {} then s
    else
      s.(timer := false, dirty := false, dirtyFrames := {}, past := s.past.(stale := false, lost := false),
        disk := Disk(Some(FileOf(s.order, s.records)), WithFrames(s, s.dirtyFrames)))
  }

  /** A flush that throws after it replaced the frame files of `written`; the timer's
      own flush catches that and arms the timer again. */
  function FlushFailed(s: State, written: set<string>, fromTimer: bool): State {
    if !s.dirty && s.dirtyFrames == {} then s
    else s.(timer := fromTimer, stalled := !fromTimer, disk := s.disk.(frames := WithFrames(s, written)))
  }

  datatype Table = Table(order: seq<string>, records: map<string, Record>)

  predicate Usable(id: string, frames: map<string, Frame>) {
    id in frames && Storable(frames[id])
  }

  /** A record as `loadState` makes it: offline, with the frame its file holds. */
  function Restored(device: Device, frames: map<string, Frame>): Record {
    if Usable(device.deviceId, frames) then
      var frame := frames[device.deviceId];
      Record(device.(lastFrameBytes := |frame|), None, Some(frame), map[], 1, None)
    else Record(device, None, None, map[], 1, None)
  }

  function Registered(table: Table, device: Device, frames: map<string, Frame>): Table {
    var id := device.deviceId;
    Table(if id in table.records then table.order else table.order + [id],
      table.records[id := Restored(device, frames)])
  }

  /** The loop over the persisted devices: invalid ones are ignored. */
  function LoadDevices(items: seq<Json>, frames: map<string, Frame>, dates: Dates): Table {
    if items == [] then Table([], map[])
    else
      var table := LoadDevices(items[..|items| - 1], frames, dates);
      match ParseDevice(items[|items| - 1], dates)
      case None => table
      case Some(device) => Registered(table, device, frames)
  }

  predicate Supported(file: Json) {
    Field(file, KVersion) == Some(JInt(1)) && Field(file, KDevices).Some? && Field(file, KDevices).value.JArray?
  }

  /** `loadState`. */
  function Load(disk: Disk, dates: Dates): State {
    if disk.registry.None? || !Supported(disk.registry.value) then EMPTY.(disk := disk)
    else
      var table := LoadDevices(Field(disk.registry.value, KDevices).value.items, disk.frames, dates);
      EMPTY.(order := table.order, records := table.records, disk := disk)
  }

  /** The process ends, after it replaced the frame files of `written` if it was
      flushing, and starts again; the sockets of the old one are closed. */
  function Crashed(s: State, written: set<string>, dates: Dates): State {
    var crashed := s.past.crashed || s.dirty || s.past.lost;
    Load(s.disk.(frames := WithFrames(s, written)), dates).(
      sockets := seq(|s.sockets|, k requires 0 <= k < |s.sockets| => s.sockets[k].(open := false)),
      past := Past(crashed, crashed, false))
  }

  // --------------------------------------------------------------------- steps

  /** `throws`: the `send` of the command throws, if there is one. */
  datatype Step =
    | Hello(hello: Json, open: bool, uuid: string, now: string, throws: bool)
    | FrameIn(id: string, frame: Frame, failing: set<nat>, uuid: string, now: string, throws: bool)
    | Join(id: string, viewer: nat, mode: Mode, uuid: string, now: string, throws: bool)
    | Leave(id: string, viewer: nat, uuid: string, now: string, throws: bool)
    | ApiCommand(id: string, name: CommandName, uuid: string, now: string, throws: bool)
    | Ack(id: string, uuid: string, name: CommandName, ok: bool, result: Option<Json>, error: Option<Json>, now: string)
    | Hangup(socket: nat)
    | OnClose(socket: nat, now: string)
    | CloseAll(now: string)
    | Flush
    | FailingFlush(written: set<string>, fromTimer: bool)
    | Crash(written: set<string>)

  predicate Enabled(s: State, step: Step, dates: Dates) {
    match step
    case Hello(hello, _, _, now, _) => ValidHello(hello) && dates(now)
    case FrameIn(id, _, _, _, now, _) => id in s.records && dates(now)
    case Join(id, viewer, _, _, now, _) => id in s.records && viewer !in s.records[id].viewers && dates(now)
    case Leave(id, _, _, now, _) => id in s.records && dates(now)
    case ApiCommand(id, _, _, now, _) => id in s.records && IsOpen(s.sockets, s.records[id].socket) && dates(now)
    case Ack(id, _, _, _, _, error, now) => id in s.records && dates(now) && ValidError(error)
    case Hangup(k) => k < |s.sockets|
    case OnClose(k, now) => k < |s.sockets| && dates(now)
    case CloseAll(now) => dates(now)
    case Flush => true
    case FailingFlush(_, fromTimer) => fromTimer ==> s.timer
    case Crash(_) => true
  }

  function Apply(s: State, step: Step, dates: Dates): State
    requires Enabled(s, step, dates)
  {
    match step
    case Hello(hello, open, uuid, now, throws) => AcceptHello(s, hello, open, uuid, now, throws)
    case FrameIn(id, frame, failing, uuid, now, throws) => PublishFrame(s, id, frame, failing, uuid, now, throws)
    case Join(id, viewer, mode, uuid, now, throws) =>
      ViewerChange(s, id, s.records[id].viewers[viewer := mode], uuid, now, throws)
    case Leave(id, viewer, uuid, now, throws) =>
      ViewerChange(s, id, s.records[id].viewers - {viewer}, uuid, now, throws)
    case ApiCommand(id, name, uuid, now, throws) =>
      SendCommand(s, id, NewCommand(uuid, name, ApiSource, now), None, throws)
    case Ack(id, uuid, name, ok, result, error, now) => AcceptAck(s, id, uuid, name, ok, result, error, now)
    case Hangup(k) => s.(sockets := CloseSocket(s.sockets, Some(k)))
    case OnClose(k, now) => SocketClosed(s, k, now)
    case CloseAll(now) => ClosedAll(s, now)
    case Flush => Flushed(s)
    case FailingFlush(written, fromTimer) => FlushFailed(s, written, fromTimer)
    case Crash(written) => Crashed(s, written, dates)
  }

  function Exec(s: State, steps: seq<Step>, dates: Dates): State
    decreases |steps|
  {
    if steps == [] then s
    else Exec(if Enabled(s, steps[0], dates) then Apply(s, steps[0], dates) else s, steps[1..], dates)
  }

  lemma RunOne(s: State, step: Step, rest: seq<Step>, dates: Dates)
    ensures Exec(s, [step] + rest, dates) == Exec(if Enabled(s, step, dates) then Apply(s, step, dates)
      else s, rest, dates)
  {
    assert ([step] + rest)[1..] == rest;
  }

  lemma {:induction false} RunLast(s: State, steps: seq<Step>, last: Step, dates: Dates)
    ensures var t := Exec(s, steps, dates);
      Exec(s, steps + [last], dates) == if Enabled(t, last, dates) then Apply(t, last, dates) else t
    decreases |steps|
  {
    if steps == [] {
      assert [last][1..] == [];
    } else {
      assert (steps + [last])[1..] == steps[1..] + [last];
      RunLast(if Enabled(s, steps[0], dates) then Apply(s, steps[0], dates) else s, steps[1..], last, dates);
    }
  }
}
