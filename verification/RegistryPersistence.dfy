/** What the hub's files say about its memory (tools/camera-server.ts), in every run and
    across every end of the process: the registry file and the frame files of a clean
    hub are its memory, and a start from them restores it. */
module RegistryPersistence {
  import opened Basics
  import opened RegistryJson
  import opened CameraRegistry
  import opened RegistryFiles

  predicate RecordOk(id: string, r: Record, dates: Dates) {
    && Persistable(r.device, dates) && r.device.deviceId == id
    && (r.latestFrame.Some? ==> Storable(r.latestFrame.value) && r.device.lastFrameBytes == |r.latestFrame.value|)
  }

  /** The frame on disk is the record's, unless it is marked dirty; no device without
      a frame has one on disk, unless a crash has left it there. */
  predicate FrameOk(id: string, r: Record, dirtyFrames: set<string>, frames: map<string, Frame>, crashed: bool) {
    && (id !in dirtyFrames && r.latestFrame.Some? ==> id in frames && frames[id] == r.latestFrame.value)
    && (id in dirtyFrames || (id in frames && !crashed) ==> r.latestFrame.Some?)
  }

  ghost predicate FramesOk(records: map<string, Record>, dirtyFrames: set<string>, frames: map<string, Frame>,
                           crashed: bool) {
    && (forall id | id in records :: FrameOk(id, records[id], dirtyFrames, frames, crashed))
    && (forall id | id in dirtyFrames || (id in frames && !crashed) :: id in records)
    && (forall id | id in frames :: Storable(frames[id]))
  }

  ghost predicate AllOk(records: map<string, Record>, dates: Dates) {
    forall id | id in records :: RecordOk(id, records[id], dates)
  }

  ghost predicate Describes(registry: Option<Json>, order: seq<string>, records: map<string, Record>, dates: Dates) {
    Ordered(order, records) && DevicesOk(records, dates) && registry == Some(FileOf(order, records))
  }

  ghost predicate DiskOk(registry: Option<Json>, dates: Dates) {
    registry.Some? ==> exists order, records :: Describes(registry, order, records, dates)
  }

  ghost predicate Core(s: State, dates: Dates) {
    && Ordered(s.order, s.records) && AllOk(s.records, dates)
    && FramesOk(s.records, s.dirtyFrames, s.disk.frames, s.past.crashed)
    && DiskOk(s.disk.registry, dates)
  }

  /** The same device, but for the size of the frame it has. */
  predicate SameButSize(kept: Record, r: Record) {
    || r.device == kept.device
    || (r.latestFrame.Some? && r.device == kept.device.(lastFrameBytes := r.device.lastFrameBytes))
  }

  ghost predicate SameButSizes(kept: map<string, Record>, records: map<string, Record>) {
    kept.Keys == records.Keys && forall id | id in records :: SameButSize(kept[id], records[id])
  }

  /** The registry file is the projection of all records, but for frame sizes. */
  ghost predicate AlmostSaved(s: State, dates: Dates) {
    || (s.disk.registry.None? && s.order == [])
    || exists kept :: Describes(s.disk.registry, s.order, kept, dates) && SameButSizes(kept, s.records)
  }

  /** Nothing is marked dirty, and nothing should be. */
  predicate Settled(s: State) {
    !s.dirty && !s.past.lost
  }

  /** A dirty hub has its timer armed, unless an explicit flush has failed since. */
  predicate FlagsOk(s: State) {
    && (s.dirtyFrames != {} ==> s.dirty)
    && (s.dirty ==> s.timer || s.stalled)
    && (s.timer ==> s.dirty)
    && (s.past.stale ==> s.past.crashed)
    && (s.past.lost ==> !s.dirty)
  }

  /** A settled registry is on disk as it is; after a crash, until the next flush, the
      frame sizes in the file may be old. */
  ghost predicate Clean(s: State, dates: Dates) {
    FlagsOk(s) && (Settled(s) ==> if s.past.stale then AlmostSaved(s, dates) else Saved(s))
  }

  ghost predicate PersistInv(s: State, dates: Dates) {
    Core(s, dates) && Clean(s, dates)
  }

  // ------------------------------------------------------------- changed records

  lemma {:induction false} PutKeepsOrdered(order: seq<string>, records: map<string, Record>, id: string, r: Record)
    requires Ordered(order, records)
    ensures Ordered(if id in records then order else order + [id], records[id := r])
  {
  }

  lemma {:induction false} PutKeepsFrames(records: map<string, Record>, dirtyFrames: set<string>, frames: map<string,
                                          Frame>,
                                          crashed: bool, id: string, r: Record)
    requires FramesOk(records, dirtyFrames, frames, crashed)
    requires r.latestFrame == if id in records then records[id].latestFrame else None
    ensures FramesOk(records[id := r], dirtyFrames, frames, crashed)
  {
    if id in records {
      assert FrameOk(id, records[id], dirtyFrames, frames, crashed);
    }
  }

  lemma {:induction false} PutKeepsAllOk(records: map<string, Record>, id: string, r: Record, dates: Dates)
    requires AllOk(records, dates) && RecordOk(id, r, dates)
    ensures AllOk(records[id := r], dates)
  {
  }

  /** A changed record whose frame stayed. */
  lemma {:induction false} PutKeepsCore(s: State, id: string, r: Record, dates: Dates)
    requires Core(s, dates) && id in s.records
    requires RecordOk(id, r, dates) && r.latestFrame == s.records[id].latestFrame
    ensures Core(Put(s, id, r), dates)
  {
    PutKeepsOrdered(s.order, s.records, id, r);
    PutKeepsFrames(s.records, s.dirtyFrames, s.disk.frames, s.past.crashed, id, r);
    PutKeepsAllOk(s.records, id, r, dates);
  }

  lemma {:induction false} NewFrameIsDirty(records: map<string, Record>, dirtyFrames: set<string>, frames: map<string,
                                           Frame>,
                                           crashed: bool, id: string, r: Record)
    requires FramesOk(records, dirtyFrames, frames, crashed) && r.latestFrame.Some?
    ensures FramesOk(records[id := r], dirtyFrames + {id}, frames, crashed)
  {
    var changed := records[id := r];
    forall other | other in changed
      ensures FrameOk(other, changed[other], dirtyFrames + {id}, frames, crashed)
    {
      if other != id {
        assert FrameOk(other, records[other], dirtyFrames, frames, crashed);
      }
    }
  }

  /** A new frame of a record, marked dirty. */
  lemma {:induction false} FrameKeepsCore(s: State, id: string, r: Record, dates: Dates)
    requires Core(s, dates) && id in s.records
    requires RecordOk(id, r, dates) && r.latestFrame.Some?
    ensures Core(MarkFrameDirty(Put(s, id, r), id), dates)
  {
    PutKeepsOrdered(s.order, s.records, id, r);
    NewFrameIsDirty(s.records, s.dirtyFrames, s.disk.frames, s.past.crashed, id, r);
    PutKeepsAllOk(s.records, id, r, dates);
  }

  lemma {:induction false} PutKeepsSizes(kept: map<string, Record>, records: map<string, Record>, id: string, r: Record)
    requires SameButSizes(kept, records) && id in records
    requires r.device == records[id].device && r.latestFrame == records[id].latestFrame
    ensures SameButSizes(kept, records[id := r])
  {
    assert SameButSize(kept[id], records[id]);
  }

  lemma {:induction false} PutKeepsAlmostSaved(s: State, id: string, r: Record, dates: Dates)
    requires AlmostSaved(s, dates) && id in s.records
    requires r.device == s.records[id].device && r.latestFrame == s.records[id].latestFrame
    ensures AlmostSaved(Put(s, id, r), dates)
  {
    if !(s.disk.registry.None? && s.order == []) {
      var kept: map<string, Record> :| Describes(s.disk.registry, s.order, kept, dates) &&
        SameButSizes(kept, s.records);
      PutKeepsSizes(kept, s.records, id, r);
      assert Describes(Put(s, id, r).disk.registry, Put(s, id, r).order, kept, dates);
    }
  }

  lemma {:induction false} PutKeepsSaved(s: State, id: string, r: Record)
    requires Saved(s) && Ordered(s.order, s.records) && id in s.records && r.device == s.records[id].device
    ensures Saved(Put(s, id, r))
  {
    SameDevices(s.order, s.records, s.records[id := r]);
  }

  lemma {:induction false} PutKeepsClean(s: State, id: string, r: Record, dates: Dates)
    requires PersistInv(s, dates) && id in s.records
    requires r.device == s.records[id].device && r.latestFrame == s.records[id].latestFrame
    ensures Clean(Put(s, id, r), dates)
  {
    if Settled(s) {
      if s.past.stale {
        PutKeepsAlmostSaved(s, id, r, dates);
      } else {
        PutKeepsSaved(s, id, r);
      }
    }
  }

  // ------------------------------------------------------------ changed devices

  lemma CappedIsWellFormed(commands: seq<Command>, c: Command, dates: Dates)
    requires forall i | 0 <= i < |commands| :: WellFormed(commands[i], dates)
    requires WellFormed(c, dates)
    ensures forall i | 0 <= i < |Capped([c] + commands)| :: WellFormed(Capped([c] + commands)[i], dates)
  {
  }

  lemma NotedIsOk(id: string, r: Record, c: Command, dates: Dates)
    requires RecordOk(id, r, dates) && WellFormed(c, dates)
    ensures RecordOk(id, Noted(r, c), dates)
  {
    CappedIsWellFormed(r.device.commands, c, dates);
  }

  lemma GreetedIsOk(s: State, id: string, hello: Json, now: string, dates: Dates)
    requires AllOk(s.records, dates) && ValidHello(hello) && id == DeviceIdOf(hello) && dates(now)
    ensures RecordOk(id, Greeted(s, id, hello, |s.sockets|, now), dates)
    ensures Greeted(s, id, hello, |s.sockets|, now).latestFrame ==
      if id in s.records then s.records[id].latestFrame else None
  {
    if id in s.records {
      assert RecordOk(id, s.records[id], dates);
    }
  }

  lemma FrameIsOk(id: string, r: Record, frame: Frame, now: string, dates: Dates)
    requires RecordOk(id, r, dates) && Storable(frame) && dates(now)
    ensures RecordOk(id, WithFrame(r, frame, now), dates)
  {
  }

  lemma OfflineIsOk(id: string, r: Record, now: string, dates: Dates)
    requires RecordOk(id, r, dates) && dates(now)
    ensures RecordOk(id, GoOffline(r, now), dates)
  {
  }

  lemma AckedIsOk(id: string, r: Record, at: nat, ok: bool, result: Option<Json>, error: Option<Json>, now: string,
                  dates: Dates)
    requires RecordOk(id, r, dates) && at < |r.device.commands| && dates(now) && ValidError(error)
    ensures RecordOk(id, WithAck(r, at, ok, result, error, now), dates)
  {
    assert WellFormed(r.device.commands[at], dates);
  }

  // ----------------------------------------------------------------- the steps

  lemma {:induction false} DirtyChangeKeepsInv(s: State, id: string, r: Record, dates: Dates)
    requires Core(s, dates) && (s.past.stale ==> s.past.crashed) && id in s.records
    requires RecordOk(id, r, dates) && r.latestFrame == s.records[id].latestFrame
    ensures PersistInv(MarkDirty(Put(s, id, r)), dates)
  {
    PutKeepsCore(s, id, r, dates);
  }

  /** An entry for which nothing was marked. */
  lemma {:induction false} UnmarkedKeepsInv(s: State, id: string, r: Record, dates: Dates)
    requires Core(s, dates) && FlagsOk(s) && id in s.records
    requires RecordOk(id, r, dates) && r.latestFrame == s.records[id].latestFrame
    ensures PersistInv(Unmarked(Put(s, id, r)), dates)
  {
    PutKeepsCore(s, id, r, dates);
  }

  lemma {:induction false} CommandKeepsInv(s: State, id: string, c: Command, rate: Option<nat>, throws: bool,
                                           dates: Dates)
    requires Core(s, dates) && FlagsOk(s)
    requires id in s.records && IsOpen(s.sockets, s.records[id].socket) && WellFormed(c, dates)
    ensures PersistInv(SendCommand(s, id, c, rate, throws), dates)
  {
    NotedIsOk(id, s.records[id], c, dates);
    if throws {
      UnmarkedKeepsInv(s, id, Noted(s.records[id], c), dates);
    } else {
      DirtyChangeKeepsInv(s, id, Noted(s.records[id], c), dates);
    }
  }

  lemma {:induction false} RateKeepsInv(s: State, id: string, uuid: string, now: string, throws: bool, dates: Dates)
    requires PersistInv(s, dates) && id in s.records && dates(now)
    ensures PersistInv(UpdateStreamRate(s, id, uuid, now, throws), dates)
  {
    var fps := Demand(s.records[id].viewers);
    var record := s.records[id].(desiredFps := fps);
    var c := NewCommand(uuid, StreamSet, ViewerSource, now);
    assert RecordOk(id, s.records[id], dates);
    if !Asks(s.records[id], s.sockets) {
      PutKeepsCore(s, id, record, dates);
      PutKeepsClean(s, id, record, dates);
    } else if throws {
      NotedIsOk(id, record.(requestedFps := None), c, dates);
      UnmarkedKeepsInv(s, id, Noted(record.(requestedFps := None), c), dates);
    } else {
      var asked := record.(requestedFps := Some(fps));
      PutKeepsCore(s, id, asked, dates);
      CommandKeepsInv(Put(s, id, asked), id, c, Some(fps), false, dates);
    }
  }

  /** One record put in, known or new, and nothing else of these. */
  lemma {:induction false} PuttingKeepsCore(s: State, t: State, id: string, r: Record, dates: Dates)
    requires Core(s, dates) && RecordOk(id, r, dates)
    requires r.latestFrame == if id in s.records then s.records[id].latestFrame else None
    requires t.records == s.records[id := r] && t.order == (if id in s.records then s.order else s.order + [id])
    requires t.dirtyFrames == s.dirtyFrames && t.disk == s.disk && t.past.crashed == s.past.crashed
    ensures Core(t, dates)
  {
    PutKeepsOrdered(s.order, s.records, id, r);
    PutKeepsFrames(s.records, s.dirtyFrames, s.disk.frames, s.past.crashed, id, r);
    PutKeepsAllOk(s.records, id, r, dates);
  }

  lemma {:induction false} NoticedKeepsCore(s: State, hello: Json, open: bool, now: string, dates: Dates)
    requires Core(s, dates) && ValidHello(hello) && dates(now)
    ensures Core(Noticed(s, hello, open, now), dates)
  {
    var id := DeviceIdOf(hello);
    GreetedIsOk(s, id, hello, now, dates);
    PuttingKeepsCore(s, Noticed(s, hello, open, now), id, Greeted(s, id, hello, |s.sockets|, now), dates);
  }

  lemma {:induction false} HelloKeepsInv(s: State, hello: Json, open: bool, uuid: string, now: string, throws: bool,
                                         dates: Dates)
    requires PersistInv(s, dates) && ValidHello(hello) && dates(now)
    ensures PersistInv(AcceptHello(s, hello, open, uuid, now, throws), dates)
  {
    var id := DeviceIdOf(hello);
    var t := Noticed(s, hello, open, now);
    NoticedKeepsCore(s, hello, open, now, dates);
    RateKeepsInv(MarkDirty(t), id, uuid, now, throws, dates);
    MarkingLaterIsTheSame(t, id, uuid, now, throws);
  }

  /** Marking before or after the rate update gives the same state. */
  lemma MarkingLaterIsTheSame(s: State, id: string, uuid: string, now: string, throws: bool)
    requires id in s.records
    ensures MarkDirty(UpdateStreamRate(MarkDirty(s), id, uuid, now, throws)) ==
      MarkDirty(UpdateStreamRate(s, id, uuid, now, throws))
  {
    var fps := Demand(s.records[id].viewers);
    var asked := s.records[id].(desiredFps := fps, requestedFps := Some(fps));
    if Asks(s.records[id], s.sockets) && !throws {
      CommandLater(Put(s, id, asked), id, NewCommand(uuid, StreamSet, ViewerSource, now), fps);
    }
  }

  lemma CommandLater(s: State, id: string, c: Command, fps: nat)
    requires id in s.records && IsOpen(s.sockets, s.records[id].socket)
    ensures SendCommand(MarkDirty(s), id, c, Some(fps), false) == SendCommand(s, id, c, Some(fps), false)
  {
  }

  lemma {:induction false} ViewersKeepInv(s: State, id: string, viewers: map<nat, Mode>, uuid: string, now: string,
                                          throws: bool, dates: Dates)
    requires PersistInv(s, dates) && id in s.records && dates(now)
    ensures PersistInv(ViewerChange(s, id, viewers, uuid, now, throws), dates)
  {
    var r := s.records[id].(viewers := viewers);
    assert RecordOk(id, s.records[id], dates);
    PutKeepsCore(s, id, r, dates);
    PutKeepsClean(s, id, r, dates);
    RateKeepsInv(Put(s, id, r), id, uuid, now, throws, dates);
  }

  lemma {:induction false} PublishKeepsInv(s: State, id: string, frame: Frame, failing: set<nat>, uuid: string,
                                           now: string, throws: bool, dates: Dates)
    requires PersistInv(s, dates) && id in s.records && dates(now)
    ensures PersistInv(PublishFrame(s, id, frame, failing, uuid, now, throws), dates)
  {
    if Storable(frame) {
      var record := s.records[id];
      FrameIsOk(id, record, frame, now, dates);
      FrameKeepsCore(s, id, WithFrame(record, frame, now), dates);
      if failing * record.viewers.Keys != {} {
        var stored := MarkFrameDirty(Put(s, id, WithFrame(record, frame, now)), id);
        ViewersKeepInv(stored, id, record.viewers - failing, uuid, now, throws, dates);
      }
    }
  }

  lemma {:induction false} AckKeepsInv(s: State, id: string, uuid: string, name: CommandName, ok: bool,
                                       result: Option<Json>, error: Option<Json>, now: string, dates: Dates)
    requires PersistInv(s, dates) && id in s.records && dates(now) && ValidError(error)
    ensures PersistInv(AcceptAck(s, id, uuid, name, ok, result, error, now), dates)
  {
    var record := s.records[id];
    var at := Find(record.device.commands, uuid, name);
    if at.Some? {
      AckedIsOk(id, record, at.value, ok, result, error, now, dates);
      DirtyChangeKeepsInv(s, id, WithAck(record, at.value, ok, result, error, now), dates);
    }
  }

  lemma {:induction false} OnCloseKeepsInv(s: State, k: nat, now: string, dates: Dates)
    requires PersistInv(s, dates) && k < |s.sockets| && dates(now)
    ensures PersistInv(SocketClosed(s, k, now), dates)
  {
    var id := s.sockets[k].device;
    if id in s.records && s.records[id].socket == Some(k) {
      OfflineIsOk(id, s.records[id], now, dates);
      DirtyChangeKeepsInv(s, id, GoOffline(s.records[id], now), dates);
    }
  }

  lemma {:induction false} CloseOneKeepsInv(s: State, id: string, now: string, dates: Dates)
    requires PersistInv(s, dates) && id in s.records && dates(now)
    ensures PersistInv(CloseOne(s, id, now), dates)
  {
    OfflineIsOk(id, s.records[id], now, dates);
    DirtyChangeKeepsInv(s, id, GoOffline(s.records[id], now), dates);
  }

  lemma {:induction false} CloseEachKeepsInv(s: State, ids: seq<string>, now: string, dates: Dates)
    requires PersistInv(s, dates) && dates(now)
    ensures PersistInv(CloseEach(s, ids, now), dates)
    decreases |ids|
  {
    if ids != [] {
      var init, last := ids[..|ids| - 1], ids[|ids| - 1];
      CloseEachKeepsInv(s, init, now, dates);
      if last in CloseEach(s, init, now).records {
        CloseOneKeepsInv(CloseEach(s, init, now), last, now, dates);
      }
    }
  }

  lemma {:induction false} WrittenAreStorable(s: State, written: set<string>, dates: Dates)
    requires (forall id | id in s.disk.frames :: Storable(s.disk.frames[id])) && AllOk(s.records, dates)
    ensures forall id | id in WithFrames(s, written) :: Storable(WithFrames(s, written)[id])
  {
    forall id | id in WithFrames(s, written)
      ensures Storable(WithFrames(s, written)[id])
    {
      if id in s.records {
        assert RecordOk(id, s.records[id], dates);
      }
    }
  }

  /** The frame files of `written` are replaced, all others stay. */
  lemma {:induction false} WritingKeepsFrames(s: State, written: set<string>, left: set<string>, dates: Dates)
    requires FramesOk(s.records, s.dirtyFrames, s.disk.frames, s.past.crashed) && AllOk(s.records, dates)
    requires s.dirtyFrames - written <= left <= s.dirtyFrames
    ensures FramesOk(s.records, left, WithFrames(s, written), s.past.crashed)
  {
    var frames := WithFrames(s, written);
    WrittenAreStorable(s, written, dates);
    forall id | id in s.records
      ensures FrameOk(id, s.records[id], left, frames, s.past.crashed)
    {
      assert FrameOk(id, s.records[id], s.dirtyFrames, s.disk.frames, s.past.crashed);
    }
  }

  /** A flush that succeeds leaves nothing dirty and the registry file exact. */
  lemma {:induction false} FlushKeepsInv(s: State, dates: Dates)
    requires PersistInv(s, dates)
    ensures var t := Flushed(s);
      && PersistInv(t, dates) && !t.dirty && t.dirtyFrames == {} && !t.timer
      && (s.dirty ==> Saved(t) && !t.past.stale && !t.past.lost)
  {
    if s.dirty {
      WritingKeepsFrames(s, s.dirtyFrames, {}, dates);
      AllOkIsDevicesOk(s.records, dates);
      assert Describes(Flushed(s).disk.registry, s.order, s.records, dates);
    }
  }

  lemma {:induction false} FailedFlushKeepsInv(s: State, written: set<string>, fromTimer: bool, dates: Dates)
    requires PersistInv(s, dates)
    ensures PersistInv(FlushFailed(s, written, fromTimer), dates)
  {
    if s.dirty {
      WritingKeepsFrames(s, written, s.dirtyFrames, dates);
    }
  }

  // ----------------------------------------------------------- starts and crashes

  /** The record of a device after a start. */
  function Offline(r: Record): Record {
    Record(r.device, None, r.latestFrame, map[], 1, None)
  }

  lemma AllOkIsDevicesOk(records: map<string, Record>, dates: Dates)
    requires AllOk(records, dates)
    ensures DevicesOk(records, dates)
  {
    forall id | id in records
      ensures Persistable(records[id].device, dates) && records[id].device.deviceId == id
    {
      assert RecordOk(id, records[id], dates);
    }
  }

  /** A start from a registry file with old sizes gives the same record. */
  lemma ReloadedRecord(id: string, kept: Record, r: Record, frames: map<string, Frame>, crashed: bool, dates: Dates)
    requires SameButSize(kept, r) && RecordOk(id, r, dates) && FrameOk(id, r, {}, frames, crashed)
    ensures Restored(kept.device, frames) == Restored(r.device, frames)
    ensures r.latestFrame.Some? || !crashed ==> Restored(r.device, frames) == Offline(r)
  {
  }

  lemma SavedIsAlmostSaved(s: State, dates: Dates)
    requires Core(s, dates) && Saved(s)
    ensures AlmostSaved(s, dates)
  {
    if s.disk.registry.Some? {
      AllOkIsDevicesOk(s.records, dates);
      assert Describes(s.disk.registry, s.order, s.records, dates);
      assert SameButSizes(s.records, s.records);
    }
  }

  /** A start from the files of a settled hub restores every record, with its commands
      and its frame; after a crash a device without a frame may find an orphaned one. */
  lemma {:induction false} LoadRestores(s: State, dates: Dates)
    requires PersistInv(s, dates) && Settled(s)
    ensures var t := Load(s.disk, dates);
      && t.order == s.order && t.records.Keys == s.records.Keys
      && (forall id | id in s.records :: t.records[id] == Restored(s.records[id].device, s.disk.frames))
      && (forall id | id in s.records && (s.records[id].latestFrame.Some? || !s.past.crashed) ::
            t.records[id] == Offline(s.records[id]))
  {
    if s.disk.registry.Some? {
      if !s.past.stale {
        SavedIsAlmostSaved(s, dates);
      }
      var kept: map<string, Record> :| Describes(s.disk.registry, s.order, kept, dates) &&
        SameButSizes(kept, s.records);
      LoadRestoresEveryDevice(s.order, kept, s.disk.frames, dates);
      assert s.disk == Disk(Some(FileOf(s.order, kept)), s.disk.frames);
      forall id | id in s.records
        ensures Restored(kept[id].device, s.disk.frames) == Restored(s.records[id].device, s.disk.frames)
        ensures s.records[id].latestFrame.Some? || !s.past.crashed ==>
          Restored(s.records[id].device, s.disk.frames) == Offline(s.records[id])
      {
        assert SameButSize(kept[id], s.records[id]);
        assert FrameOk(id, s.records[id], s.dirtyFrames, s.disk.frames, s.past.crashed);
        assert s.dirtyFrames == {};
        ReloadedRecord(id, kept[id], s.records[id], s.disk.frames, s.past.crashed, dates);
      }
    } else {
      assert s.records.Keys == {};
    }
  }

  lemma RestoredIsOk(id: string, device: Device, frames: map<string, Frame>, crashed: bool, dates: Dates)
    requires Persistable(device, dates) && device.deviceId == id
    requires id in frames ==> Storable(frames[id])
    ensures var r := Restored(device, frames);
      RecordOk(id, r, dates) && FrameOk(id, r, {}, frames, crashed)
      && r.device == device.(lastFrameBytes := r.device.lastFrameBytes) && (r.latestFrame.None? ==> r.device == device)
  {
  }

  /** A start from any registry the hub has written satisfies the invariant. */
  lemma {:induction false} LoadedIsOk(order: seq<string>, kept: map<string, Record>, t: State, crashed: bool,
                                      dates: Dates)
    requires Ordered(order, kept) && DevicesOk(kept, dates)
    requires t.order == order && t.records.Keys == kept.Keys
    requires forall id | id in kept :: t.records[id] == Restored(kept[id].device, t.disk.frames)
    requires forall id | id in t.disk.frames :: Storable(t.disk.frames[id]) && (crashed || id in kept)
    ensures Ordered(t.order, t.records) && AllOk(t.records, dates)
    ensures FramesOk(t.records, {}, t.disk.frames, crashed) && SameButSizes(kept, t.records)
  {
    forall id | id in t.records
      ensures RecordOk(id, t.records[id], dates) && FrameOk(id, t.records[id], {}, t.disk.frames, crashed)
      ensures SameButSize(kept[id], t.records[id])
    {
      RestoredIsOk(id, kept[id].device, t.disk.frames, crashed, dates);
    }
  }

  lemma {:induction false} CleanSizesAgree(s: State, dates: Dates)
    requires PersistInv(s, dates) && Settled(s) && !s.past.crashed
    ensures SizesAgree(s.records, s.disk.frames)
  {
    forall id | id in s.records && Usable(id, s.disk.frames)
      ensures |s.disk.frames[id]| == s.records[id].device.lastFrameBytes
    {
      assert RecordOk(id, s.records[id], dates);
      assert FrameOk(id, s.records[id], s.dirtyFrames, s.disk.frames, s.past.crashed);
    }
  }

  lemma CleanDisk(s: State, written: set<string>)
    requires s.dirtyFrames == {}
    ensures s.disk.(frames := WithFrames(s, written)) == s.disk
  {
    assert WithFrames(s, written) == s.disk.frames;
  }

  lemma CleanEndIsALoad(s: State, written: set<string>, dates: Dates)
    requires s.dirtyFrames == {} && Settled(s) && !s.past.crashed
    ensures var t, l := Crashed(s, written, dates), Load(s.disk, dates);
      && t.disk == s.disk && t.order == l.order && t.records == l.records
      && !t.past.crashed && !t.past.stale && !t.dirty && !t.timer && t.dirtyFrames == {}
  {
    CleanDisk(s, written);
  }

  lemma {:induction false} CleanEndIsSaved(s: State, dates: Dates)
    requires PersistInv(s, dates) && Settled(s) && !s.past.crashed && s.disk.registry.Some?
    ensures Saved(Load(s.disk, dates))
  {
    AllOkIsDevicesOk(s.records, dates);
    CleanSizesAgree(s, dates);
    LoadedStateIsSaved(s.order, s.records, s.disk.frames, dates);
    assert s.disk == Disk(Some(FileOf(s.order, s.records)), s.disk.frames);
  }

  /** The start after the process ended with everything saved. */
  lemma {:induction false} CleanEndKeepsInv(s: State, written: set<string>, dates: Dates)
    requires PersistInv(s, dates) && Settled(s) && !s.past.crashed && s.disk.registry.Some?
    ensures PersistInv(Crashed(s, written, dates), dates)
  {
    var t := Crashed(s, written, dates);
    AllOkIsDevicesOk(s.records, dates);
    CleanEndIsALoad(s, written, dates);
    CleanEndIsSaved(s, dates);
    LoadRestores(s, dates);
    LoadedIsOk(s.order, s.records, t, false, dates);
  }

  /** The start after a crash, this one or an earlier one. */
  lemma {:induction false} DirtyEndKeepsInv(s: State, written: set<string>, dates: Dates)
    requires PersistInv(s, dates) && (!Settled(s) || s.past.crashed) && s.disk.registry.Some?
    ensures PersistInv(Crashed(s, written, dates), dates)
  {
    var t := Crashed(s, written, dates);
    var order, kept :| Describes(s.disk.registry, order, kept, dates);
    WritingKeepsFrames(s, written, s.dirtyFrames, dates);
    assert t.disk == Disk(Some(FileOf(order, kept)), WithFrames(s, written));
    LoadRestoresEveryDevice(order, kept, WithFrames(s, written), dates);
    LoadedIsOk(order, kept, t, true, dates);
    assert Describes(t.disk.registry, t.order, kept, dates);
  }

  lemma {:induction false} CrashKeepsInv(s: State, written: set<string>, dates: Dates)
    requires PersistInv(s, dates)
    ensures PersistInv(Crashed(s, written, dates), dates)
  {
    if s.disk.registry.Some? {
      if !Settled(s) || s.past.crashed {
        DirtyEndKeepsInv(s, written, dates);
      } else {
        CleanEndKeepsInv(s, written, dates);
      }
    } else {
      WritingKeepsFrames(s, written, s.dirtyFrames, dates);
      assert Settled(s) && !s.past.crashed ==> s.records.Keys == {};
    }
  }

  // ------------------------------------------------------------------- the runs

  lemma {:induction false} StepKeepsPersistInv(s: State, step: Step, dates: Dates)
    requires PersistInv(s, dates) && Enabled(s, step, dates)
    ensures PersistInv(Apply(s, step, dates), dates)
  {
    match step
    case Hello(hello, open, uuid, now, throws) => HelloKeepsInv(s, hello, open, uuid, now, throws, dates);
    case FrameIn(id, frame, failing, uuid, now, throws) =>
      PublishKeepsInv(s, id, frame, failing, uuid, now, throws, dates);
    case Join(id, viewer, mode, uuid, now, throws) =>
      ViewersKeepInv(s, id, s.records[id].viewers[viewer := mode], uuid, now, throws, dates);
    case Leave(id, viewer, uuid, now, throws) =>
      ViewersKeepInv(s, id, s.records[id].viewers - {viewer}, uuid, now, throws, dates);
    case ApiCommand(id, name, uuid, now, throws) =>
      CommandKeepsInv(s, id, NewCommand(uuid, name, ApiSource, now), None, throws, dates);
    case Ack(id, uuid, name, ok, result, error, now) => AckKeepsInv(s, id, uuid, name, ok, result, error, now, dates);
    case Hangup(k) =>
    case OnClose(k, now) => OnCloseKeepsInv(s, k, now, dates);
    case CloseAll(now) => CloseEachKeepsInv(s, s.order, now, dates);
    case Flush => FlushKeepsInv(s, dates);
    case FailingFlush(written, fromTimer) => FailedFlushKeepsInv(s, written, fromTimer, dates);
    case Crash(written) => CrashKeepsInv(s, written, dates);
  }

  lemma {:induction false} RunKeepsPersistInv(s: State, steps: seq<Step>, dates: Dates)
    requires PersistInv(s, dates)
    ensures PersistInv(Exec(s, steps, dates), dates)
    decreases |steps|
  {
    if steps != [] {
      if Enabled(s, steps[0], dates) {
        StepKeepsPersistInv(s, steps[0], dates);
        RunKeepsPersistInv(Apply(s, steps[0], dates), steps[1..], dates);
      } else {
        RunKeepsPersistInv(s, steps[1..], dates);
      }
    }
  }

  /** In every reachable state, whatever the process and the sends went through: when
      nothing is marked dirty, and no throwing send has left an entry behind, the file on
      disk is the projection of all records (after a crash, until the next flush, but for
      sizes of frames), and every device with a frame that is not marked dirty has that
      exact frame on disk. A dirty registry has its timer armed unless an explicit flush
      has failed since the last change. */
  lemma PersistenceInvariant(steps: seq<Step>, dates: Dates)
    ensures var s := Exec(EMPTY, steps, dates);
      && (Settled(s) && !s.past.stale ==> s.order == [] || s.disk.registry == Some(FileOf(s.order, s.records)))
      && (Settled(s) ==> AlmostSaved(s, dates))
      && (forall id | id in s.records && id !in s.dirtyFrames && s.records[id].latestFrame.Some? ::
            id in s.disk.frames && s.disk.frames[id] == s.records[id].latestFrame.value)
      && (s.dirty ==> s.timer || s.stalled)
  {
    RunKeepsPersistInv(EMPTY, steps, dates);
    var s := Exec(EMPTY, steps, dates);
    if Settled(s) && !s.past.stale {
      SavedIsAlmostSaved(s, dates);
    }
    forall id | id in s.records && id !in s.dirtyFrames && s.records[id].latestFrame.Some?
      ensures id in s.disk.frames && s.disk.frames[id] == s.records[id].latestFrame.value
    {
      assert FrameOk(id, s.records[id], s.dirtyFrames, s.disk.frames, s.past.crashed);
    }
  }

  /** However the hub got there: once it has flushed, a start gives every device back,
      offline, with the same history, commands and frame; only a device without a frame
      may get one that a crash has left on disk. What a throwing send has left behind is
      not flushed until something else is marked. */
  lemma FlushThenLoadRestores(steps: seq<Step>, dates: Dates)
    ensures var s := Exec(EMPTY, steps, dates);
      var t := Load(Flushed(s).disk, dates);
      !s.past.lost ==>
        && t.order == s.order && t.records.Keys == s.records.Keys
        && (forall id | id in s.records :: t.records[id] == Restored(s.records[id].device, Flushed(s).disk.frames))
        && (forall id | id in s.records && (s.records[id].latestFrame.Some? || !s.past.crashed) ::
              t.records[id] == Offline(s.records[id]))
  {
    var s := Exec(EMPTY, steps, dates);
    RunKeepsPersistInv(EMPTY, steps, dates);
    FlushKeepsInv(s, dates);
    if !s.past.lost {
      LoadRestores(Flushed(s), dates);
    }
  }

  /** What `crashed` means: the process ended at some point with something unsaved. */
  lemma {:induction false} CrashedWhileDirty(steps: seq<Step>, dates: Dates) returns (n: nat)
    ensures Exec(EMPTY, steps, dates).past.crashed ==>
      n < |steps| && steps[n].Crash? && !Settled(Exec(EMPTY, steps[..n], dates))
    decreases |steps|
  {
    n := 0;
    if steps != [] {
      var init, last := steps[..|steps| - 1], steps[|steps| - 1];
      assert steps == init + [last];
      RunLast(EMPTY, init, last, dates);
      var before := Exec(EMPTY, init, dates);
      if before.past.crashed {
        n := CrashedWhileDirty(init, dates);
        assert init[..n] == steps[..n];
      } else if Enabled(before, last, dates) && Apply(before, last, dates).past.crashed {
        OnlyCrashesCrash(before, last, dates);
        n := |init|;
      }
    }
  }

  lemma {:induction false} OnlyCrashesCrash(s: State, step: Step, dates: Dates)
    requires Enabled(s, step, dates) && !s.past.crashed && Apply(s, step, dates).past.crashed
    ensures step.Crash? && !Settled(s)
  {
    if !TouchesDisk(step) {
      HandlersKeepDisk(s, step, dates);
    }
  }

  predicate TouchesDisk(step: Step) {
    step.Flush? || step.FailingFlush? || step.Crash?
  }

  predicate SameDisk(s: State, t: State) {
    t.disk == s.disk && t.past.crashed == s.past.crashed
  }

  lemma RateKeepsDisk(s: State, id: string, uuid: string, now: string, throws: bool)
    requires id in s.records
    ensures SameDisk(s, UpdateStreamRate(s, id, uuid, now, throws))
  {
  }

  lemma HelloKeepsDisk(s: State, hello: Json, open: bool, uuid: string, now: string, throws: bool)
    requires ValidHello(hello)
    ensures SameDisk(s, AcceptHello(s, hello, open, uuid, now, throws))
  {
  }

  lemma PublishKeepsDisk(s: State, id: string, frame: Frame, failing: set<nat>, uuid: string, now: string,
                         throws: bool)
    requires id in s.records
    ensures SameDisk(s, PublishFrame(s, id, frame, failing, uuid, now, throws))
  {
    var stored := MarkFrameDirty(Put(s, id, WithFrame(s.records[id], frame, now)), id);
    RateKeepsDisk(Put(stored, id, stored.records[id].(viewers := s.records[id].viewers - failing)), id, uuid, now,
      throws);
  }

  lemma {:induction false} CloseEachKeepsDisk(s: State, ids: seq<string>, now: string)
    ensures SameDisk(s, CloseEach(s, ids, now))
    decreases |ids|
  {
    if ids != [] {
      CloseEachKeepsDisk(s, ids[..|ids| - 1], now);
    }
  }

  /** No other handler writes a file. */
  lemma {:induction false} HandlersKeepDisk(s: State, step: Step, dates: Dates)
    requires Enabled(s, step, dates) && !TouchesDisk(step)
    ensures SameDisk(s, Apply(s, step, dates))
  {
    match step
    case Hello(hello, open, uuid, now, throws) => HelloKeepsDisk(s, hello, open, uuid, now, throws);
    case FrameIn(id, frame, failing, uuid, now, throws) => PublishKeepsDisk(s, id, frame, failing, uuid, now, throws);
    case Join(id, viewer, mode, uuid, now, throws) =>
      RateKeepsDisk(Put(s, id, s.records[id].(viewers := ViewersAfter(s, step))), id, uuid, now, throws);
    case Leave(id, viewer, uuid, now, throws) =>
      RateKeepsDisk(Put(s, id, s.records[id].(viewers := ViewersAfter(s, step))), id, uuid, now, throws);
    case CloseAll(now) => CloseEachKeepsDisk(s, s.order, now);
    case _ =>
  }

  // -------------------------------------------------------------------- crashes

  /** Only a flush writes the registry file. */
  lemma {:induction false} OnlyFlushWritesRegistry(s: State, step: Step, dates: Dates)
    requires Enabled(s, step, dates) && Apply(s, step, dates).disk.registry != s.disk.registry
    ensures step.Flush?
    ensures Apply(s, step, dates).disk.registry == Some(FileOf(s.order, s.records))
  {
    if !TouchesDisk(step) {
      HandlersKeepDisk(s, step, dates);
    }
  }

  /** The registry file is that of the state after the first `k` steps. */
  ghost predicate WrittenAt(steps: seq<Step>, k: nat, registry: Option<Json>, dates: Dates) {
    k <= |steps| &&
    var f := Exec(EMPTY, steps[..k], dates);
    registry == Some(FileOf(f.order, f.records))
  }

  lemma {:induction false} RegistryIsOfSomeFlush(steps: seq<Step>, dates: Dates) returns (k: nat)
    ensures var registry := Exec(EMPTY, steps, dates).disk.registry;
      registry.Some? ==> WrittenAt(steps, k, registry, dates)
    decreases |steps|
  {
    k := 0;
    if steps != [] {
      var init, last := steps[..|steps| - 1], steps[|steps| - 1];
      assert steps == init + [last];
      var before, after := Exec(EMPTY, init, dates), Exec(EMPTY, steps, dates);
      RunLast(EMPTY, init, last, dates);
      if after.disk.registry == before.disk.registry {
        k := RegistryIsOfSomeFlush(init, dates);
        assert k <= |init| ==> init[..k] == steps[..k];
      } else {
        OnlyFlushWritesRegistry(before, last, dates);
        k := |init|;
        assert steps[..k] == init;
      }
    }
  }

  /** A process killed at any moment, also in the middle of a flush, loses no device of
      the last successful flush: the next start gives back the devices of an earlier
      state of the run, in their order and with their commands, each with the frame
      its file now holds. */
  lemma {:induction false} CrashRestoresAnEarlierState(steps: seq<Step>, written: set<string>, dates: Dates)
    ensures var s := Exec(EMPTY, steps, dates);
      var disk := s.disk.(frames := WithFrames(s, written));
      var t := Load(disk, dates);
      if disk.registry.None? then t.order == []
      else
        exists k: nat :: WrittenAt(steps, k, disk.registry, dates) &&
          Revives(t, Exec(EMPTY, steps[..k], dates), disk.frames)
  {
    var s := Exec(EMPTY, steps, dates);
    if s.disk.registry.Some? {
      var k := RegistryIsOfSomeFlush(steps, dates);
      var f := Exec(EMPTY, steps[..k], dates);
      RunKeepsPersistInv(EMPTY, steps[..k], dates);
      AllOkIsDevicesOk(f.records, dates);
      LoadRestoresEveryDevice(f.order, f.records, WithFrames(s, written), dates);
      assert Revives(Load(s.disk.(frames := WithFrames(s, written)), dates), f, WithFrames(s, written));
    }
  }

  ghost predicate Revives(t: State, f: State, frames: map<string, Frame>) {
    && t.order == f.order && t.records.Keys == f.records.Keys
    && forall id | id in f.records :: t.records[id] == Restored(f.records[id].device, frames)
  }

  // ----------------------------------------------------------- a send that throws

  /** A start from these files finds the command in the history of the device. */
  predicate OnFile(disk: Disk, id: string, c: Command, dates: Dates) {
    var t := Load(disk, dates);
    id in t.records && c in t.records[id].device.commands
  }

  lemma {:induction false} SavedIsOnFile(s: State, id: string, c: Command, dates: Dates)
    requires Core(s, dates) && Saved(s) && id in s.records && c in s.records[id].device.commands
    ensures OnFile(s.disk, id, c, dates)
  {
    AllOkIsDevicesOk(s.records, dates);
    LoadRestoresEveryDevice(s.order, s.records, s.disk.frames, dates);
    assert s.disk == Disk(Some(FileOf(s.order, s.records)), s.disk.frames);
  }

  /** The newest entry of the device. */
  predicate Heads(s: State, id: string, c: Command) {
    id in s.records && s.records[id].device.commands != [] && s.records[id].device.commands[0] == c
  }

  /** Its entry is saved, or a flush is to come. */
  ghost predicate SavedOrScheduled(s: State) {
    Saved(s) || s.timer
  }

  /** An entry that heads the history and is not on file. */
  lemma {:induction false} NewEntryIsUnsaved(s: State, id: string, c: Command, dates: Dates)
    requires Core(s, dates) && Heads(s, id, c) && !OnFile(s.disk, id, c, dates)
    ensures SavedOrScheduled(s) <==> s.timer
  {
    if Saved(s) {
      SavedIsOnFile(s, id, c, dates);
    }
  }

  /** A command of the API whose `send` throws. */
  lemma CommandThrewShape(s: State, id: string, c: Command)
    requires id in s.records && IsOpen(s.sockets, s.records[id].socket)
    ensures var t := SendCommand(s, id, c, None, true);
      Heads(t, id, c) && t.timer == s.timer && t.dirty == s.dirty && t.disk == s.disk
  {
  }

  lemma ThrowingCommand(s: State, t: State, id: string, c: Command, dates: Dates)
    requires PersistInv(s, dates) && id in s.records && IsOpen(s.sockets, s.records[id].socket)
    requires WellFormed(c, dates) && !OnFile(s.disk, id, c, dates)
    requires t == SendCommand(s, id, c, None, true)
    ensures Heads(t, id, c) && (SavedOrScheduled(t) <==> s.timer)
  {
    CommandThrewShape(s, id, c);
    CommandKeepsInv(s, id, c, None, true, dates);
    NewEntryIsUnsaved(t, id, c, dates);
  }

  /** In every reachable state, for a command of the API that is not on file and whose
      `send` throws: its entry is saved or has a flush to come if and only if the
      persistence timer was armed before. */
  lemma ThrowingApiCommand(steps: seq<Step>, id: string, name: CommandName, uuid: string, now: string, dates: Dates)
    ensures var s := Exec(EMPTY, steps, dates);
      var step := ApiCommand(id, name, uuid, now, true);
      var c := NewCommand(uuid, name, ApiSource, now);
      Enabled(s, step, dates) && !OnFile(s.disk, id, c, dates) ==>
        var t := Apply(s, step, dates);
        Heads(t, id, c) && (SavedOrScheduled(t) <==> s.timer)
  {
    var s := Exec(EMPTY, steps, dates);
    var step := ApiCommand(id, name, uuid, now, true);
    RunKeepsPersistInv(EMPTY, steps, dates);
    if Enabled(s, step, dates) && !OnFile(s.disk, id, NewCommand(uuid, name, ApiSource, now), dates) {
      ThrowingCommand(s, Apply(s, step, dates), id, NewCommand(uuid, name, ApiSource, now), dates);
    }
  }

  /** A rate update that asks and whose `send` throws. */
  lemma RateThrewShape(s: State, id: string, uuid: string, now: string)
    requires id in s.records && Asks(s.records[id], s.sockets)
    ensures var t := UpdateStreamRate(s, id, uuid, now, true);
      && Heads(t, id, NewCommand(uuid, StreamSet, ViewerSource, now))
      && t.timer == s.timer && t.dirty == s.dirty && t.disk == s.disk
  {
  }

  /** The same for a viewer that joins or leaves. */
  lemma ThrowingViewerChange(s: State, id: string, viewers: map<nat, Mode>, uuid: string, now: string, dates: Dates)
    requires PersistInv(s, dates) && id in s.records && dates(now)
    requires Asks(s.records[id].(viewers := viewers), s.sockets)
    requires !OnFile(s.disk, id, NewCommand(uuid, StreamSet, ViewerSource, now), dates)
    ensures var t := ViewerChange(s, id, viewers, uuid, now, true);
      Heads(t, id, NewCommand(uuid, StreamSet, ViewerSource, now)) && (SavedOrScheduled(t) <==> s.timer)
  {
    var t := ViewerChange(s, id, viewers, uuid, now, true);
    ViewersKeepInv(s, id, viewers, uuid, now, true, dates);
    RateThrewShape(Put(s, id, s.records[id].(viewers := viewers)), id, uuid, now);
    NewEntryIsUnsaved(t, id, NewCommand(uuid, StreamSet, ViewerSource, now), dates);
  }

  lemma ThrowingViewer(steps: seq<Step>, step: Step, dates: Dates)
    requires (step.Join? || step.Leave?) && step.throws
    ensures var s := Exec(EMPTY, steps, dates);
      var c := NewCommand(step.uuid, StreamSet, ViewerSource, step.now);
      Enabled(s, step, dates) && AsksFor(s, step) && !OnFile(s.disk, step.id, c, dates) ==>
        var t := Apply(s, step, dates);
        Heads(t, step.id, c) && (SavedOrScheduled(t) <==> s.timer)
  {
    var s := Exec(EMPTY, steps, dates);
    RunKeepsPersistInv(EMPTY, steps, dates);
    if Enabled(s, step, dates) && AsksFor(s, step)
      && !OnFile(s.disk, step.id, NewCommand(step.uuid, StreamSet, ViewerSource, step.now), dates)
    {
      ThrowingViewerChange(s, step.id, ViewersAfter(s, step), step.uuid, step.now, dates);
    }
  }

  function ViewersAfter(s: State, step: Step): map<nat, Mode>
    requires (step.Join? || step.Leave?) && step.id in s.records
  {
    if step.Join? then s.records[step.id].viewers[step.viewer := step.mode]
    else s.records[step.id].viewers - {step.viewer}
  }

  /** The change of viewers has to be asked of the device. */
  predicate AsksFor(s: State, step: Step)
    requires step.Join? || step.Leave?
  {
    step.id in s.records && Asks(s.records[step.id].(viewers := ViewersAfter(s, step)), s.sockets)
  }

  /** After a hello, or a stored frame that removed a viewer, the entry of a throwing
      `send` always has a flush to come: the event itself marks the hub. */
  lemma ThrowingHello(s: State, hello: Json, uuid: string, now: string)
    requires ValidHello(hello)
    ensures var t := AcceptHello(s, hello, true, uuid, now, true);
      t.dirty && t.timer && Heads(t, DeviceIdOf(hello), NewCommand(uuid, StreamSet, ViewerSource, now))
  {
    var id := DeviceIdOf(hello);
    var t := Noticed(s, hello, true, now);
    assert Asks(t.records[id], t.sockets);
    RateThrewShape(t, id, uuid, now);
  }

  lemma ThrowingFrame(s: State, id: string, frame: Frame, failing: set<nat>, uuid: string, now: string)
    requires id in s.records && Storable(frame) && failing * s.records[id].viewers.Keys != {}
    requires Asks(s.records[id].(viewers := s.records[id].viewers - failing), s.sockets)
    ensures var t := PublishFrame(s, id, frame, failing, uuid, now, true);
      t.dirty && t.timer && Heads(t, id, NewCommand(uuid, StreamSet, ViewerSource, now))
  {
    var stored := MarkFrameDirty(Put(s, id, WithFrame(s.records[id], frame, now)), id);
    RateThrewShape(Put(stored, id, stored.records[id].(viewers := s.records[id].viewers - failing)), id, uuid, now);
  }

  // ------------------------------------------------------- runs in which none throws

  predicate Throws(step: Step) {
    (step.Hello? || step.FrameIn? || step.Join? || step.Leave? || step.ApiCommand?) && step.throws
  }

  /** Nothing is lost and no socket has failed. */
  predicate Calm(s: State) {
    !s.past.lost && forall k | 0 <= k < |s.sockets| :: !s.sockets[k].failed
  }

  lemma RateIsCalm(s: State, id: string, uuid: string, now: string)
    requires Calm(s) && id in s.records
    ensures Calm(UpdateStreamRate(s, id, uuid, now, false))
  {
  }

  lemma HelloIsCalm(s: State, hello: Json, open: bool, uuid: string, now: string)
    requires Calm(s) && ValidHello(hello)
    ensures Calm(AcceptHello(s, hello, open, uuid, now, false))
  {
    RateIsCalm(Noticed(s, hello, open, now), DeviceIdOf(hello), uuid, now);
  }

  lemma FrameIsCalm(s: State, id: string, frame: Frame, failing: set<nat>, uuid: string, now: string)
    requires Calm(s) && id in s.records
    ensures Calm(PublishFrame(s, id, frame, failing, uuid, now, false))
  {
    var stored := MarkFrameDirty(Put(s, id, WithFrame(s.records[id], frame, now)), id);
    RateIsCalm(Put(stored, id, stored.records[id].(viewers := s.records[id].viewers - failing)), id, uuid, now);
  }

  lemma {:induction false} CloseEachIsCalm(s: State, ids: seq<string>, now: string)
    requires Calm(s)
    ensures Calm(CloseEach(s, ids, now))
    decreases |ids|
  {
    if ids != [] {
      CloseEachIsCalm(s, ids[..|ids| - 1], now);
    }
  }

  lemma {:induction false} StepIsCalm(s: State, step: Step, dates: Dates)
    requires Calm(s) && Enabled(s, step, dates) && !Throws(step)
    ensures Calm(Apply(s, step, dates))
  {
    match step
    case Hello(hello, open, uuid, now, _) => HelloIsCalm(s, hello, open, uuid, now);
    case FrameIn(id, frame, failing, uuid, now, _) => FrameIsCalm(s, id, frame, failing, uuid, now);
    case Join(id, _, _, uuid, now, _) =>
      RateIsCalm(Put(s, id, s.records[id].(viewers := ViewersAfter(s, step))), id, uuid, now);
    case Leave(id, _, uuid, now, _) =>
      RateIsCalm(Put(s, id, s.records[id].(viewers := ViewersAfter(s, step))), id, uuid, now);
    case CloseAll(now) => CloseEachIsCalm(s, s.order, now);
    case _ =>
  }

  /** The exceptions that `lost` and `failed` make need a `send` that throws. */
  lemma {:induction false} CalmRuns(s: State, steps: seq<Step>, dates: Dates)
    requires Calm(s) && forall step | step in steps :: !Throws(step)
    ensures Calm(Exec(s, steps, dates))
    decreases |steps|
  {
    if steps != [] {
      if Enabled(s, steps[0], dates) {
        StepIsCalm(s, steps[0], dates);
        CalmRuns(Apply(s, steps[0], dates), steps[1..], dates);
      } else {
        CalmRuns(s, steps[1..], dates);
      }
    }
  }
}
