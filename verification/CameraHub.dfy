/** The closures of `createCameraRegistry` (tools/camera-server.ts), over the state they
    share. Each event handler is tied to its step, keeps what is proved of every run
    (`Valid`), and states what it promises its caller. */
module CameraHubs {
  import opened Basics
  import opened RegistryJson
  import opened CameraRegistry
  import opened RegistryFiles
  import opened HubEvents

  lemma LoadOneMore(items: seq<Json>, i: nat, frames: map<string, Frame>, dates: Dates)
    requires i < |items|
    ensures LoadDevices(items[..i + 1], frames, dates) ==
      var table := LoadDevices(items[..i], frames, dates);
      match ParseDevice(items[i], dates)
      case None => table
      case Some(device) => Registered(table, device, frames)
  {
    assert items[..i + 1][..i] == items[..i] && items[..i + 1][i] == items[i];
  }

  lemma FindSkips(commands: seq<Command>, i: nat, uuid: string, name: CommandName)
    requires i < |commands| && !(commands[i].commandId == uuid && commands[i].name == name)
    ensures var rest := Find(commands[i + 1..], uuid, name);
      Find(commands[i..], uuid, name) == if rest.Some? then Some(rest.value + 1) else None
  {
    assert commands[i..][1..] == commands[i + 1..];
  }

  lemma NothingWritten(s: State)
    ensures WithFrames(s, {}) == s.disk.frames
  {
  }

  lemma SameFrames(s: State, t: State, written: set<string>)
    requires t == s.(timer := t.timer)
    ensures WithFrames(t, written) == WithFrames(s, written)
  {
  }

  lemma OneMoreWritten(s: State, written: set<string>, id: string)
    requires id in s.dirtyFrames
    ensures WithFrames(s, written + {id}) ==
      if id in s.records && s.records[id].latestFrame.Some? then WithFrames(s,
        written)[id := s.records[id].latestFrame.value]
      else WithFrames(s, written)
  {
  }

  lemma DroppedViewer(viewers: map<nat, Mode>, failing: set<nat>, remaining: set<nat>, v: nat)
    requires v in remaining && remaining <= viewers.Keys
    ensures var visited := failing * (viewers.Keys - remaining);
      failing * (viewers.Keys - (remaining - {v})) == (if v in failing then visited + {v} else visited)
      && viewers - visited - {v} == viewers - (visited + {v})
  {
  }

  /** The record of a command that threw, with its cached rate forgotten. */
  lemma ForgottenRate(s: State, id: string, command: Command)
    requires id in s.records && IsOpen(s.sockets, s.records[id].socket)
    ensures var t := CameraRegistry.SendCommand(s, id, command, None, true);
      var k := s.records[id].socket.value;
      RateThrew(s, id, s.records[id], command) ==
        Put(t, id, t.records[id].(requestedFps := None)).(sockets := s.sockets[k := s.sockets[k].(failed := true)])
  {
    var r := s.records[id];
    assert Noted(r, command).(requestedFps := None) == Noted(r.(requestedFps := None), command);
    assert s.records[id := Noted(r, command)][id := Noted(r, command).(requestedFps := None)]
        == s.records[id := Noted(r.(requestedFps := None), command)];
  }

  /** The two assignments before the rate is asked. */
  lemma RatePutTwice(s: State, id: string, fps: nat, command: Command)
    requires id in s.records && IsOpen(s.sockets, s.records[id].socket)
    ensures var told := s.records[id].(desiredFps := fps);
      var t := Put(Put(s, id, told), id, told.(requestedFps := Some(fps)));
      && t == Put(s, id, told.(requestedFps := Some(fps)))
      && RateThrew(t, id, t.records[id], command) == RateThrew(s, id, told, command)
  {
    var told := s.records[id].(desiredFps := fps);
    var asked := told.(requestedFps := Some(fps));
    assert s.records[id := told][id := asked] == s.records[id := asked];
    var noted := Noted(told.(requestedFps := None), command);
    assert s.records[id := asked][id := noted] == s.records[id := noted];
  }

  /** What the API answers to a command. */
  datatype Outcome = Offline | Threw | Sent

  class CameraHub {
    const dates: Dates
    var order: seq<string>
    var records: map<string, Record>
    var sockets: seq<Socket>
    var dirty: bool
    var dirtyFrames: set<string>
    var timer: bool
    var disk: Disk
    ghost var stalled: bool
    ghost var past: Past

    ghost function View(): State
      reads this
    {
      State(order, records, sockets, dirty, dirtyFrames, timer, stalled, past, disk)
    }

    /** Between two events: files and memory agree as the persistence invariant says,
        and the rates asked are those the viewers want. */
    ghost predicate Valid()
      reads this
    {
      Sound(View(), dates)
    }

    constructor (disk: Disk, dates: Dates)
      ensures this.dates == dates && View() == Load(disk, dates).(past := Past(true, true, false))
      ensures HubFiles(disk, dates) ==> Valid()
    {
      order, records, sockets, dirty, dirtyFrames, timer, stalled := [], map[], [], false, {}, false, false;
      this.disk, this.dates := disk, dates;
      past := Past(true, true, false);
      new;
      LoadState();
      if HubFiles(disk, dates) {
        LoadedIsSound(disk, dates);
      }
    }

    /** The loop over the persisted devices. */
    method LoadState()
      requires View() == EMPTY.(disk := disk, past := past)
      modifies `order, `records
      ensures View() == Load(disk, dates).(past := past)
    {
      if disk.registry.None? || !Supported(disk.registry.value) {
        return;
      }
      var items := Field(disk.registry.value, KDevices).value.items;
      for i := 0 to |items|
        invariant Table(order, records) == LoadDevices(items[..i], disk.frames, dates)
      {
        LoadOneMore(items, i, disk.frames, dates);
        var device := ParseDevice(items[i], dates);
        if device.Some? {
          var id := device.value.deviceId;
          var record := Record(device.value, None, None, map[], 1, None);
          if id in disk.frames && |disk.frames[id]| <= MAX_FRAME_BYTES && IsJpeg(disk.frames[id]) {
            record := record.(latestFrame := Some(disk.frames[id]),
              device := record.device.(lastFrameBytes := |disk.frames[id]|));
          }
          if id !in records {
            order := order + [id];
          }
          records := records[id := record];
        }
      }
      assert items[..|items|] == items;
    }

    method NoteChange()
      modifies `dirty, `timer, `stalled, `past
      ensures View() == MarkDirty(old(View()))
    {
      dirty, stalled, past := true, false, past.(lost := false);
      if !timer {
        timer := true;
      }
    }

    /** The loop of `flush` over the dirty frames. `broken`: the devices whose frame file
        cannot be replaced. */
    method WriteFrames(broken: set<string>) returns (ok: bool, ghost written: set<string>)
      modifies `disk
      ensures disk == old(disk).(frames := WithFrames(old(View()), written)) && written <= dirtyFrames
      ensures if ok then written == dirtyFrames else dirtyFrames * broken != {}
      ensures forall id | id in broken && id in written :: id !in records || records[id].latestFrame.None?
    {
      written := {};
      ghost var before := View();
      var remaining := dirtyFrames;
      NothingWritten(before);
      while remaining != {}
        invariant remaining <= dirtyFrames && written == dirtyFrames - remaining
        invariant forall id | id in broken && id in written :: id !in records || records[id].latestFrame.None?
        invariant disk == before.disk.(frames := WithFrames(before, written))
        decreases remaining
      {
        var id :| id in remaining;
        if id in records && records[id].latestFrame.Some? {
          if id in broken {
            assert id in dirtyFrames * broken;
            return false, written;
          }
          disk := disk.(frames := disk.frames[id := records[id].latestFrame.value]);
        }
        OneMoreWritten(before, written, id);
        remaining := remaining - {id};
        written := written + {id};
      }
      assert written == dirtyFrames;
      ok := true;
    }

    /** Writes the dirty frames, then the registry. */
    method Flush(broken: set<string>, registryFails: bool) returns (done: bool, ghost written: set<string>)
      modifies `dirty, `dirtyFrames, `timer, `disk, `stalled, `past
      ensures done ==> View() == Flushed(old(View()))
      ensures !done ==> View() == FlushFailed(old(View()), written, false) && written <= old(dirtyFrames)
      ensures !done ==> old(dirty || dirtyFrames != {}) && (registryFails || old(dirtyFrames) * broken != {})
      ensures forall id | id in broken && id in written :: id !in records || records[id].latestFrame.None?
    {
      if !dirty && dirtyFrames == {} {
        return true, {};
      }
      ghost var before := View();
      timer := false;
      done, written := WriteFrames(broken);
      SameFrames(before, before.(timer := false), written);
      if !done || registryFails {
        stalled := true;
        return false, written;
      }
      disk := disk.(registry := Some(FileOf(order, records)));
      dirtyFrames, dirty := {}, false;
      past := past.(stale := false, lost := false);
    }

    /** The persistence timer: it flushes, and arms itself again when that fails. */
    method TimerFired(broken: set<string>, registryFails: bool) returns (done: bool, ghost written: set<string>)
      requires timer && dirty
      modifies `dirty, `dirtyFrames, `timer, `disk, `stalled, `past
      ensures done ==> View() == Flushed(old(View()))
      ensures !done ==> View() == FlushFailed(old(View()), written, true) && written <= old(dirtyFrames)
      ensures timer <==> !done
    {
      timer := false;
      ghost var before := View();
      done, written := Flush(broken, registryFails);
      SameFrames(old(View()), before, written);
      SameFrames(old(View()), before, before.dirtyFrames);
      if !done {
        timer, stalled := true, false;
      }
    }

    method DesiredViewerFps(viewers: map<nat, Mode>) returns (fps: nat)
      ensures fps == Demand(viewers)
    {
      var remaining := viewers.Keys;
      while remaining != {}
        invariant remaining <= viewers.Keys
        invariant forall v | v in viewers && v !in remaining :: !viewers[v].Detail?
        decreases remaining
      {
        var v :| v in remaining;
        if viewers[v].Detail? {
          return 8;
        }
        remaining := remaining - {v};
      }
      fps := if |viewers| > 0 then 2 else 1;
    }

    /** `sendCommand`. `rate`: the rate a command asks for viewers. Not `sent`: the
        exception of `send`. */
    method SendCommand(id: string, command: Command, rate: Option<nat>, throws: bool) returns (sent: bool)
      requires id in records && IsOpen(sockets, records[id].socket)
      modifies `records, `sockets, `dirty, `timer, `stalled, `past
      ensures View() == CameraRegistry.SendCommand(old(View()), id, command, rate, throws)
      ensures records[id].device.commands[0] == command && |records[id].device.commands| <= MAX_COMMAND_HISTORY
      ensures sent == !throws && (sent ==> dirty && timer)
    {
      var record := records[id];
      var commands := [command] + record.device.commands;
      if |commands| > MAX_COMMAND_HISTORY {
        commands := commands[..MAX_COMMAND_HISTORY];
      }
      records := records[id := record.(device := record.device.(commands := commands))];
      if throws {
        past := if dirty then past else past.(lost := true);
        return false;
      }
      var k := record.socket.value;
      if rate.Some? {
        sockets := sockets[k := sockets[k].(sets := sockets[k].sets + [rate.value])];
      } else {
        assert sockets[k := sockets[k]] == sockets;
      }
      NoteChange();
      sent := true;
    }

    /** The `try` of `updateStreamRate`: an exception is caught, and the cached rate
        forgotten. */
    method AskRate(id: string, fps: nat, command: Command, throws: bool)
      requires id in records && IsOpen(sockets, records[id].socket)
      modifies `records, `sockets, `dirty, `timer, `stalled, `past
      ensures View() == if throws then RateThrew(old(View()), id, old(records[id]), command)
        else CameraRegistry.SendCommand(old(View()), id, command, Some(fps), false)
    {
      var sent := SendCommand(id, command, Some(fps), throws);
      if !sent {
        ForgottenRate(old(View()), id, command);
        var k := records[id].socket.value;
        records := records[id := records[id].(requestedFps := None)];
        sockets := sockets[k := sockets[k].(failed := true)];
      }
    }

    method UpdateStreamRate(id: string, uuid: string, now: string, throws: bool)
      requires id in records
      modifies `records, `sockets, `dirty, `timer, `stalled, `past
      ensures View() == CameraRegistry.UpdateStreamRate(old(View()), id, uuid, now, throws)
    {
      var fps := DesiredViewerFps(records[id].viewers);
      records := records[id := records[id].(desiredFps := fps)];
      if !IsOpen(sockets, records[id].socket) || records[id].requestedFps == Some(fps) {
        return;
      }
      records := records[id := records[id].(requestedFps := Some(fps))];
      var command := NewCommand(uuid, StreamSet, ViewerSource, now);
      RatePutTwice(old(View()), id, fps, command);
      AskRate(id, fps, command, throws);
    }

    /** `failing`: the viewers whose `enqueue` throws. */
    method PublishFrame(id: string, frame: Frame, failing: set<nat>, uuid: string, now: string, throws: bool)
      requires id in records
      modifies `records, `sockets, `dirty, `dirtyFrames, `timer, `stalled, `past
      ensures View() == CameraRegistry.PublishFrame(old(View()), id, frame, failing, uuid, now, throws)
    {
      if !IsJpeg(frame) || |frame| > MAX_FRAME_BYTES {
        return;
      }
      ghost var viewers := records[id].viewers;
      var record := records[id].(latestFrame := Some(frame));
      record := record.(device := record.device.(frameCount := record.device.frameCount + 1));
      record := record.(device := record.device.(lastFrameAt := Some(now), lastSeenAt := now));
      record := record.(device := record.device.(lastFrameBytes := |frame|));
      records := records[id := record];
      dirtyFrames := dirtyFrames + {id};
      NoteChange();
      ghost var stored := View();
      var remaining := record.viewers.Keys;
      var viewerRemoved := false;
      while remaining != {}
        invariant View() == stored
        invariant remaining <= viewers.Keys
        invariant record == stored.records[id].(viewers := viewers - failing * (viewers.Keys - remaining))
        invariant viewerRemoved <==> failing * (viewers.Keys - remaining) != {}
        decreases remaining
      {
        var v :| v in remaining;
        DroppedViewer(viewers, failing, remaining, v);
        if v in failing {
          record := record.(viewers := record.viewers - {v});
          viewerRemoved := true;
        }
        remaining := remaining - {v};
      }
      assert viewers.Keys - remaining == viewers.Keys;
      assert viewers - failing * viewers.Keys == viewers - failing;
      records := records[id := record];
      if viewerRemoved {
        UpdateStreamRate(id, uuid, now, throws);
      } else {
        assert viewers - failing * viewers.Keys == viewers;
        assert record == stored.records[id];
        assert records == stored.records;
      }
    }

    method AcceptHello(hello: Json, open: bool, uuid: string, now: string, throws: bool)
      requires ValidHello(hello)
      modifies `order, `records, `sockets, `dirty, `timer, `stalled, `past
      ensures View() == CameraRegistry.AcceptHello(old(View()), hello, open, uuid, now, throws)
    {
      NoteHello(hello, open, now);
      UpdateStreamRate(DeviceIdOf(hello), uuid, now, throws);
      NoteChange();
    }

    /** The part of `acceptHello` before it tells the device. */
    method NoteHello(hello: Json, open: bool, now: string)
      requires ValidHello(hello)
      modifies `order, `records, `sockets
      ensures View() == Noticed(old(View()), hello, open, now)
    {
      var id := DeviceIdOf(hello);
      var socket := |sockets|;
      if id !in records {
        var device := Device(id, hello, Some(now), None, now, 0, None, 0, []);
        order := order + [id];
        records := records[id := Record(device, Some(socket), None, map[], 1, None)];
      } else {
        var record := records[id];
        if record.socket.Some? && record.socket.value < |sockets| {
          sockets := sockets[record.socket.value := sockets[record.socket.value].(open := false)];
        }
        var device := record.device.(hello := hello, connectedAt := Some(now), disconnectedAt := None,
          lastSeenAt := now);
        records := records[id := record.(device := device, requestedFps := None, socket := Some(socket))];
      }
      sockets := sockets + [Socket(open, id, [], false)];
    }

    method FindEntry(commands: seq<Command>, uuid: string, name: CommandName) returns (at: nat)
      ensures at <= |commands|
      ensures Find(commands, uuid, name) == if at < |commands| then Some(at) else None
    {
      at := 0;
      while at < |commands| && !(commands[at].commandId == uuid && commands[at].name == name)
        invariant 0 <= at <= |commands|
        invariant Find(commands, uuid, name) ==
          var rest := Find(commands[at..], uuid, name); if rest.Some? then Some(rest.value + at) else None
      {
        FindSkips(commands, at, uuid, name);
        at := at + 1;
      }
      assert Find(commands[at..], uuid, name) == if at == |commands| then None else Some(0);
    }

    /** The newest matching history entry takes the answer. */
    method AcceptAck(id: string, uuid: string, name: CommandName, ok: bool,
                     result: Option<Json>, error: Option<Json>, now: string)
      requires id in records
      modifies `records, `dirty, `timer, `stalled, `past
      ensures View() == CameraRegistry.AcceptAck(old(View()), id, uuid, name, ok, result, error, now)
    {
      var record := records[id];
      var commands := record.device.commands;
      var i := FindEntry(commands, uuid, name);
      if i == |commands| {
        return;
      }
      var entry := commands[i].(status := if ok then Acked else Refused);
      entry := entry.(acknowledgedAt := Some(now));
      entry := entry.(result := result, error := error);
      record := record.(device := record.device.(commands := commands[i := entry]));
      record := record.(device := record.device.(lastSeenAt := now));
      records := records[id := record];
      NoteChange();
    }

    /** The loop of `close`, before it flushes. */
    method CloseSockets(now: string)
      modifies `records, `sockets, `dirty, `timer, `stalled, `past
      ensures View() == ClosedAll(old(View()), now)
    {
      for i := 0 to |order|
        invariant View() == CloseEach(old(View()), order[..i], now)
      {
        assert order[..i + 1][..i] == order[..i];
        var id := order[i];
        if id in records && IsOpen(sockets, records[id].socket) {
          var record := records[id];
          sockets := sockets[record.socket.value := sockets[record.socket.value].(open := false)];
          record := record.(socket := None, requestedFps := None);
          record := record.(device := record.device.(disconnectedAt := Some(now), lastSeenAt := now));
          records := records[id := record];
          NoteChange();
        }
      }
      assert order[..|order|] == order;
    }

    /** The body of `onclose`. */
    method LeaveSocket(k: nat, now: string)
      requires k < |sockets|
      modifies `records, `sockets, `dirty, `timer, `stalled, `past
      ensures View() == SocketClosed(old(View()), k, now)
    {
      sockets := sockets[k := sockets[k].(open := false)];
      var id := sockets[k].device;
      if id in records && records[id].socket == Some(k) {
        var record := records[id].(socket := None, requestedFps := None);
        record := record.(device := record.device.(disconnectedAt := Some(now), lastSeenAt := now));
        records := records[id := record];
        NoteChange();
      }
    }

    /** The bodies of a viewer's `start` and `cancel`. */
    method SetViewers(id: string, viewers: map<nat, Mode>, uuid: string, now: string, throws: bool)
      requires id in records
      modifies `records, `sockets, `dirty, `timer, `stalled, `past
      ensures View() == ViewerChange(old(View()), id, viewers, uuid, now, throws)
    {
      records := records[id := records[id].(viewers := viewers)];
      UpdateStreamRate(id, uuid, now, throws);
    }

    // ---------------------------------------------------------- event handlers

    /** `onmessage` with a hello. */
    method HelloArrived(hello: Json, open: bool, uuid: string, now: string, throws: bool)
      requires Valid() && ValidHello(hello) && dates(now)
      modifies `order, `records, `sockets, `dirty, `timer, `stalled, `past
      ensures Valid()
      ensures Welcomed(old(View()), View(), hello)
    {
      HelloIsSound(View(), hello, open, uuid, now, throws, dates);
      AcceptHello(hello, open, uuid, now, throws);
    }

    /** `onmessage` with binary data. */
    method FrameArrived(id: string, frame: Frame, failing: set<nat>, uuid: string, now: string, throws: bool)
      requires Valid() && id in records && dates(now)
      modifies `records, `sockets, `dirty, `dirtyFrames, `timer, `stalled, `past
      ensures Valid()
      ensures if Storable(frame) then Shown(old(View()), View(), id, frame, failing) else View() == old(View())
    {
      FrameIsSound(View(), id, frame, failing, uuid, now, throws, dates);
      PublishFrame(id, frame, failing, uuid, now, throws);
    }

    /** `onmessage` with an answer to a command. */
    method AckArrived(id: string, uuid: string, name: CommandName, ok: bool,
                      result: Option<Json>, error: Option<Json>, now: string)
      requires Valid() && id in records && dates(now) && ValidError(error)
      modifies `records, `dirty, `timer, `stalled, `past
      ensures Valid()
      ensures Answered(old(View()), View(), id, uuid, name, ok)
    {
      AckIsSound(View(), id, uuid, name, ok, result, error, now, dates);
      AcceptAck(id, uuid, name, ok, result, error, now);
    }

    /** `onclose`; only the current socket's close takes its record offline. */
    method SocketGone(k: nat, now: string)
      requires Valid() && k < |sockets| && dates(now)
      modifies `records, `sockets, `dirty, `timer, `stalled, `past
      ensures Valid()
      ensures Gone(old(View()), View(), k)
    {
      CloseIsSound(View(), k, now, dates);
      LeaveSocket(k, now);
    }

    /** `start` and `cancel` of a viewer's stream. */
    method ViewersChanged(id: string, viewers: map<nat, Mode>, uuid: string, now: string, throws: bool)
      requires Valid() && id in records && dates(now)
      modifies `records, `sockets, `dirty, `timer, `stalled, `past
      ensures Valid()
      ensures Watched(old(View()), View(), id, viewers)
    {
      ViewersAreSound(View(), id, viewers, uuid, now, throws, dates);
      SetViewers(id, viewers, uuid, now, throws);
    }

    /** A command of the API: refused while the device is offline. */
    method CommandRequest(id: string, name: CommandName, uuid: string, now: string, throws: bool)
      returns (outcome: Outcome)
      requires Valid() && id in records && dates(now)
      modifies `records, `sockets, `dirty, `timer, `stalled, `past
      ensures Valid() && (outcome.Offline? <==> !old(IsOpen(sockets, records[id].socket)))
      ensures if outcome.Offline? then View() == old(View())
        else Commanded(old(View()), View(), id, NewCommand(uuid, name, ApiSource, now), outcome.Threw?)
      ensures outcome.Threw? ==> throws
      ensures outcome.Sent? ==> !throws
    {
      if !IsOpen(sockets, records[id].socket) {
        return Offline;
      }
      CommandIsSound(View(), id, NewCommand(uuid, name, ApiSource, now), throws, dates);
      var sent := SendCommand(id, NewCommand(uuid, name, ApiSource, now), None, throws);
      outcome := if sent then Sent else Threw;
    }

    /** `flush`, called from outside. */
    method FlushNow(broken: set<string>, registryFails: bool) returns (done: bool)
      requires Valid()
      modifies `dirty, `dirtyFrames, `timer, `disk, `stalled, `past
      ensures Valid() && (done ==> !dirty && dirtyFrames == {} && !timer)
      ensures done && old(dirty) ==> Saved(View())
      ensures !done ==> registryFails || old(dirtyFrames) * broken != {}
    {
      ghost var before := View();
      ghost var written;
      done, written := Flush(broken, registryFails);
      FlushIsSound(before, written, dates);
    }

    /** The persistence timer. */
    method TimerEvent(broken: set<string>, registryFails: bool) returns (done: bool)
      requires Valid() && timer
      modifies `dirty, `dirtyFrames, `timer, `disk, `stalled, `past
      ensures Valid() && (done ==> !dirty && Saved(View())) && (!done ==> dirty && timer)
    {
      ghost var before := View();
      ghost var written;
      done, written := TimerFired(broken, registryFails);
      FlushIsSound(before, written, dates);
    }

    /** `close`. */
    method CloseHub(broken: set<string>, registryFails: bool, now: string) returns (done: bool)
      requires Valid() && dates(now)
      modifies `records, `sockets, `dirty, `dirtyFrames, `timer, `disk, `stalled, `past
      ensures Valid() && (done ==> !dirty && !timer)
      ensures forall id | id in records :: !IsOpen(sockets, records[id].socket)
    {
      CloseAllIsSound(View(), now, dates);
      CloseSockets(now);
      done := FlushNow(broken, registryFails);
    }
  }
}
