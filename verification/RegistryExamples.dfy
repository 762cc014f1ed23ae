/** Runs of the hub that end badly: a command that is not saved, and a start that does
    not notice an old frame size. */
module RegistryExamples {
  import opened Basics
  import opened RegistryJson
  import opened CameraRegistry
  import opened RegistryFiles
  import opened RegistryPersistence

  /** A device as it might say hello; the runs below are those of any device. */
  const HELLO := JObject(map[
    KType := JString("device.hello"), KProtocol := JInt(1), KDeviceId := JString("cam"),
    KName := JString("Camera"), KModel := JString("CoreS3"), KFirmware := JString("1.0"),
    KCapabilities := JArray([]),
    KCamera := JObject(map[KFormat := JString("jpeg"), KWidth := JInt(320), KHeight := JInt(240), KFps := JInt(8)])])

  lemma HelloIsValid()
    ensures ValidHello(HELLO) && DeviceIdOf(HELLO) == "cam"
  {
    var camera := Field(HELLO, KCamera).value;
    assert camera.fields[KFps] == JInt(8);
    assert ValidId("cam");
  }

  /** The hub after the first hello. */
  ghost predicate Greets(t: State, hello: Json, uuid: string, now: string)
    requires ValidHello(hello)
  {
    var id := DeviceIdOf(hello);
    && t.order == [id] && t.records.Keys == {id} && IsOpen(t.sockets, t.records[id].socket)
    && t.records[id].latestFrame.None?
    && t.records[id].device.commands == [NewCommand(uuid, StreamSet, ViewerSource, now)]
    && t.dirty && t.timer && t.dirtyFrames == {} && t.past == Past(false, false, false) && t.disk == Disk(None, map[])
  }

  lemma FirstHello(hello: Json, uuid: string, now: string)
    requires ValidHello(hello)
    ensures Greets(AcceptHello(EMPTY, hello, true, uuid, now, false), hello, uuid, now)
  {
    var t := Noticed(EMPTY, hello, true, now);
    assert t.records[DeviceIdOf(hello)] == Greeted(EMPTY, DeviceIdOf(hello), hello, 0, now);
    assert Asks(t.records[DeviceIdOf(hello)], t.sockets);
  }

  lemma ThreeSteps(a: Step, b: Step, c: Step, dates: Dates)
    requires Enabled(EMPTY, a, dates) && Enabled(Apply(EMPTY, a, dates), b, dates)
    requires Enabled(Apply(Apply(EMPTY, a, dates), b, dates), c, dates)
    ensures Exec(EMPTY, [a, b, c], dates) == Apply(Apply(Apply(EMPTY, a, dates), b, dates), c, dates)
  {
    var t := Apply(EMPTY, a, dates);
    assert [a, b, c] == [a] + ([b] + ([c] + []));
    RunOne(EMPTY, a, [b] + ([c] + []), dates);
    RunOne(t, b, [c] + [], dates);
    RunOne(Apply(t, b, dates), c, [], dates);
  }

  lemma UnsavedWhenSettled(s: State, id: string, c: Command, dates: Dates)
    requires PersistInv(s, dates) && Settled(s) && id in s.records && IsOpen(s.sockets, s.records[id].socket)
    requires WellFormed(c, dates) && c !in s.records[id].device.commands
    ensures var t := SendCommand(s, id, c, None, true);
      Heads(t, id, c) && !t.dirty && !SavedOrScheduled(t)
  {
    CommandThrewShape(s, id, c);
    LoadRestores(s, dates);
    assert Restored(s.records[id].device, s.disk.frames).device.commands == s.records[id].device.commands;
    ThrowingCommand(s, SendCommand(s, id, c, None, true), id, c, dates);
  }

  lemma HelloStep(hello: Json, uuid: string, now: string, dates: Dates) returns (a: Step, r: State)
    requires ValidHello(hello) && dates(now)
    ensures a == Hello(hello, true, uuid, now, false) && Enabled(EMPTY, a, dates) && r == Apply(EMPTY, a, dates)
    ensures Greets(r, hello, uuid, now) && PersistInv(r, dates)
  {
    a := Hello(hello, true, uuid, now, false);
    r := AcceptHello(EMPTY, hello, true, uuid, now, false);
    FirstHello(hello, uuid, now);
    HelloKeepsInv(EMPTY, hello, true, uuid, now, false, dates);
  }

  lemma FlushedHello(r: State, hello: Json, uuid: string, now: string, dates: Dates)
    requires ValidHello(hello) && Greets(r, hello, uuid, now) && PersistInv(r, dates)
    ensures var s, id := Flushed(r), DeviceIdOf(hello);
      && PersistInv(s, dates) && Settled(s) && id in s.records && IsOpen(s.sockets, s.records[id].socket)
      && s.records[id].device.commands == [NewCommand(uuid, StreamSet, ViewerSource, now)]
  {
    FlushKeepsInv(r, dates);
  }

  lemma EndsUnsaved(a: Step, b: Step, s: State, id: string, name: CommandName, uuid: string, now: string, dates: Dates)
    requires Enabled(EMPTY, a, dates) && Enabled(Apply(EMPTY, a, dates), b, dates)
    requires s == Apply(Apply(EMPTY, a, dates), b, dates) && dates(now)
    requires PersistInv(s, dates) && Settled(s) && id in s.records && IsOpen(s.sockets, s.records[id].socket)
    requires NewCommand(uuid, name, ApiSource, now) !in s.records[id].device.commands
    ensures var t := Exec(EMPTY, [a, b, ApiCommand(id, name, uuid, now, true)], dates);
      Heads(t, id, NewCommand(uuid, name, ApiSource, now)) && !t.dirty && !SavedOrScheduled(t)
  {
    ThreeSteps(a, b, ApiCommand(id, name, uuid, now, true), dates);
    UnsavedWhenSettled(s, id, NewCommand(uuid, name, ApiSource, now), dates);
  }

  /** A throwing command of the API right after a flush is neither saved nor going
      to be. */
  lemma UnsavedAfterFlush(hello: Json, uuid: string, name: CommandName, now: string, dates: Dates)
    requires ValidHello(hello) && dates(now)
    ensures var id := DeviceIdOf(hello);
      var t := Exec(EMPTY, [Hello(hello, true, uuid, now, false), Flush, ApiCommand(id, name, uuid, now, true)], dates);
      Heads(t, id, NewCommand(uuid, name, ApiSource, now)) && !t.dirty && !SavedOrScheduled(t)
  {
    var a, r := HelloStep(hello, uuid, now, dates);
    FlushedHello(r, hello, uuid, now, dates);
    EndsUnsaved(a, Flush, Flushed(r), DeviceIdOf(hello), name, uuid, now, dates);
  }

  lemma UnflushedHello(hello: Json, uuid: string, now: string, dates: Dates)
    requires ValidHello(hello) && dates(now)
    ensures var s := FlushFailed(AcceptHello(EMPTY, hello, true, uuid, now, false), {}, false);
      var id := DeviceIdOf(hello);
      && PersistInv(s, dates) && s.dirty && !s.timer && id in s.records && IsOpen(s.sockets, s.records[id].socket)
      && s.disk.registry.None?
  {
    FirstHello(hello, uuid, now);
    HelloKeepsInv(EMPTY, hello, true, uuid, now, false, dates);
    FailedFlushKeepsInv(AcceptHello(EMPTY, hello, true, uuid, now, false), {}, false, dates);
  }

  /** A throwing command after an explicit flush has failed: something is dirty, but no
      timer will write it. */
  lemma UnsavedAfterFailedFlush(hello: Json, uuid: string, name: CommandName, now: string, dates: Dates)
    requires ValidHello(hello) && dates(now)
    ensures var id := DeviceIdOf(hello);
      var t := Exec(EMPTY, [Hello(hello, true, uuid, now, false), FailingFlush({}, false),
        ApiCommand(id, name, uuid, now, true)], dates);
      Heads(t, id, NewCommand(uuid, name, ApiSource, now)) && t.dirty && !SavedOrScheduled(t)
  {
    var id, c := DeviceIdOf(hello), NewCommand(uuid, name, ApiSource, now);
    UnflushedHello(hello, uuid, now, dates);
    ThreeSteps(Hello(hello, true, uuid, now, false), FailingFlush({}, false), ApiCommand(id, name, uuid, now, true),
      dates);
    var s := FlushFailed(AcceptHello(EMPTY, hello, true, uuid, now, false), {}, false);
    CommandThrewShape(s, id, c);
    ThrowingCommand(s, SendCommand(s, id, c, None, true), id, c, dates);
  }

  /** A frame of another size, and a crash between the frame file and the registry
      file: the next start leaves a file that differs from memory, and marks nothing. */
  lemma {:induction false} CrashLeavesAnOldSize(s: State, id: string, frame: Frame, uuid: string, now: string,
                                                dates: Dates)
    requires PersistInv(s, dates) && Settled(s) && !s.past.stale && id in s.records && s.records[id].latestFrame.Some?
    requires Storable(frame) && |frame| != |s.records[id].latestFrame.value| && dates(now)
    ensures var u := Crashed(PublishFrame(s, id, frame, {}, uuid, now, false), {id}, dates);
      !u.dirty && !Saved(u)
  {
    var t := PublishFrame(s, id, frame, {}, uuid, now, false);
    PublishedFrame(s, id, frame, uuid, now);
    AllOkIsDevicesOk(s.records, dates);
    assert RecordOk(id, s.records[id], dates);
    assert s.disk.registry == Some(FileOf(s.order, s.records));
    CrashFrames(t, s.order, s.records, id, dates);
  }

  lemma CrashFrames(t: State, order: seq<string>, records: map<string, Record>, id: string, dates: Dates)
    requires Ordered(order, records) && DevicesOk(records, dates) && id in records
    requires t.disk.registry == Some(FileOf(order, records))
    requires id in t.records && t.records[id].latestFrame.Some? && id in t.dirtyFrames
    requires Storable(t.records[id].latestFrame.value)
    requires |t.records[id].latestFrame.value| != records[id].device.lastFrameBytes
    ensures !Crashed(t, {id}, dates).dirty && !Saved(Crashed(t, {id}, dates))
  {
    var frames := WithFrames(t, {id});
    assert Usable(id, frames) && |frames[id]| != records[id].device.lastFrameBytes;
    LoadedStateIsSaved(order, records, frames, dates);
    assert t.disk.(frames := frames) == Disk(Some(FileOf(order, records)), frames);
  }

  /** A frame without failing viewers. */
  lemma PublishedFrame(s: State, id: string, frame: Frame, uuid: string, now: string)
    requires id in s.records && Storable(frame)
    ensures var t := PublishFrame(s, id, frame, {}, uuid, now, false);
      && t == MarkFrameDirty(Put(s, id, WithFrame(s.records[id], frame, now)), id)
      && t.records[id].latestFrame == Some(frame) && t.dirty && t.disk == s.disk && t.past.stale == s.past.stale
      && t.dirtyFrames == s.dirtyFrames + {id} && t.records.Keys == s.records.Keys
  {
  }

  lemma {:induction false} FirstFrame(hello: Json, frame: Frame, uuid: string, now: string, dates: Dates)
    requires ValidHello(hello) && Storable(frame) && dates(now)
    ensures var id := DeviceIdOf(hello);
      var t := AcceptHello(EMPTY, hello, true, uuid, now, false);
      var s := Flushed(PublishFrame(t, id, frame, {}, uuid, now, false));
      && PersistInv(s, dates) && Settled(s) && !s.past.stale
      && id in s.records && s.records[id].latestFrame == Some(frame)
  {
    var id := DeviceIdOf(hello);
    var t := AcceptHello(EMPTY, hello, true, uuid, now, false);
    HelloKeepsInv(EMPTY, hello, true, uuid, now, false, dates);
    FirstHello(hello, uuid, now);
    PublishKeepsInv(t, id, frame, {}, uuid, now, false, dates);
    PublishedFrame(t, id, frame, uuid, now);
    FlushKeepsInv(PublishFrame(t, id, frame, {}, uuid, now, false), dates);
  }

  /** Such a crash is a run of the hub: a hello, two frames of different size with a
      flush between them, and the end of the process in the flush after them. */
  lemma {:induction false} OldSizesHappen(hello: Json, small: Frame, large: Frame, uuid: string, now: string,
                                          dates: Dates)
    requires ValidHello(hello) && dates(now)
    requires Storable(small) && Storable(large) && |small| != |large|
    ensures var id := DeviceIdOf(hello);
      var first := FrameIn(id, small, {}, uuid, now, false);
      var s := Exec(EMPTY, [Hello(hello, true, uuid, now, false), first, Flush], dates);
      && id in s.records
      && var u := Crashed(PublishFrame(s, id, large, {}, uuid, now, false), {id}, dates);
        !u.dirty && !Saved(u)
  {
    var id := DeviceIdOf(hello);
    FirstHello(hello, uuid, now);
    ThreeSteps(Hello(hello, true, uuid, now, false), FrameIn(id, small, {}, uuid, now, false), Flush, dates);
    FirstFrame(hello, small, uuid, now, dates);
    var s := Flushed(PublishFrame(AcceptHello(EMPTY, hello, true, uuid, now, false), id, small, {}, uuid, now, false));
    CrashLeavesAnOldSize(s, id, large, uuid, now, dates);
  }

  /** There are such frames. */
  lemma TwoFrames()
    ensures Storable([0xFF, 0xD8, 0xFF, 0xD9]) && Storable([0xFF, 0xD8, 0, 0xFF, 0xD9])
  {
  }
}
