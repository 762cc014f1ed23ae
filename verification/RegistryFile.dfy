/** What `loadState` makes of a registry file the hub has written, with whatever frame
    files are beside it (tools/camera-server.ts:200-257). */
module RegistryFiles {
  import opened Basics
  import opened RegistryJson
  import opened CameraRegistry

  /** The insertion order lists exactly the registered devices, each once. */
  ghost predicate Ordered(order: seq<string>, records: map<string, Record>) {
    && (forall i | 0 <= i < |order| :: order[i] in records)
    && (forall id | id in records :: id in order)
    && (forall i, j | 0 <= i < j < |order| :: order[i] != order[j])
  }

  ghost predicate DevicesOk(records: map<string, Record>, dates: Dates) {
    forall id | id in records :: Persistable(records[id].device, dates) && records[id].device.deviceId == id
  }

  ghost predicate Saved(s: State) {
    s.disk.registry == Some(FileOf(s.order, s.records)) || (s.disk.registry.None? && s.order == [])
  }

  /** The file depends on the persisted part of the records only. */
  lemma {:induction false} SameDevices(order: seq<string>, a: map<string, Record>, b: map<string, Record>)
    requires forall i | 0 <= i < |order| :: order[i] in a && order[i] in b && a[order[i]].device == b[order[i]].device
    ensures DevicesJson(order, a) == DevicesJson(order, b)
    decreases |order|
  {
    if order != [] {
      SameDevices(order[..|order| - 1], a, b);
    }
  }

  /** What a start makes of a registry: the records of `ids`, restored. */
  ghost predicate IsRestored(table: Table, ids: seq<string>, records: map<string, Record>, frames: map<string, Frame>) {
    && table.order == ids
    && (forall id :: id in table.records <==> id in ids)
    && (forall id | id in table.records :: id in records && table.records[id] == Restored(records[id].device, frames))
  }

  lemma {:induction false} RegisteredIsRestored(table: Table, ids: seq<string>, id: string, records: map<string,
                                                Record>,
                                                frames: map<string, Frame>)
    requires IsRestored(table, ids, records, frames) && id !in ids
    requires id in records && records[id].device.deviceId == id
    ensures IsRestored(Registered(table, records[id].device, frames), ids + [id], records, frames)
  {
  }

  lemma LoadDevicesOne(items: seq<Json>, last: Json, device: Device, frames: map<string, Frame>, dates: Dates)
    requires ParseDevice(last, dates) == Some(device)
    ensures LoadDevices(items + [last], frames, dates) == Registered(LoadDevices(items, frames, dates), device, frames)
  {
    assert (items + [last])[..|items|] == items;
  }

  lemma {:induction false} LoadRestoresOneMore(ids: seq<string>, id: string, records: map<string, Record>,
                                               frames: map<string, Frame>, dates: Dates)
    requires IsRestored(LoadDevices(DevicesJson(ids, records), frames, dates), ids, records, frames)
    requires id !in ids && id in records
    requires Persistable(records[id].device, dates) && records[id].device.deviceId == id
    ensures IsRestored(LoadDevices(DevicesJson(ids + [id], records), frames, dates), ids + [id], records, frames)
  {
    var device := records[id].device;
    assert (ids + [id])[..|ids|] == ids;
    DeviceRoundTrip(device, dates);
    LoadDevicesOne(DevicesJson(ids, records), DeviceJson(device), device, frames, dates);
    RegisteredIsRestored(LoadDevices(DevicesJson(ids, records), frames, dates), ids, id, records, frames);
  }

  lemma {:induction false} LoadRestoresPrefix(ids: seq<string>, records: map<string, Record>, frames: map<string,
                                              Frame>, dates: Dates)
    requires DevicesOk(records, dates)
    requires forall i | 0 <= i < |ids| :: ids[i] in records
    requires forall i, j | 0 <= i < j < |ids| :: ids[i] != ids[j]
    ensures IsRestored(LoadDevices(DevicesJson(ids, records), frames, dates), ids, records, frames)
    decreases |ids|
  {
    if ids != [] {
      var n := |ids| - 1;
      var init, last := ids[..n], ids[n];
      assert ids == init + [last];
      assert last !in init;
      LoadRestoresPrefix(init, records, frames, dates);
      LoadRestoresOneMore(init, last, records, frames, dates);
    }
  }

  lemma FileIsSupported(order: seq<string>, records: map<string, Record>)
    ensures var file := FileOf(order, records);
      Supported(file) && Field(file, KDevices).value.items == DevicesJson(order, records)
  {
  }

  lemma LoadOfFile(order: seq<string>, records: map<string, Record>, frames: map<string, Frame>, dates: Dates)
    ensures var t := Load(Disk(Some(FileOf(order, records)), frames), dates);
      Table(t.order, t.records) == LoadDevices(DevicesJson(order, records), frames, dates)
  {
    FileIsSupported(order, records);
  }

  lemma {:induction false} AllAreRestored(table: Table, order: seq<string>, records: map<string, Record>,
                                          frames: map<string, Frame>)
    requires Ordered(order, records) && IsRestored(table, order, records, frames)
    ensures table.records.Keys == records.Keys
    ensures forall id | id in records :: table.records[id] == Restored(records[id].device, frames)
  {
    assert forall id :: id in table.records <==> id in records;
  }

  /** A start from a registry the hub has written, with whatever frame files: every
      record comes back, in its place, with the frame its file holds. */
  lemma LoadRestoresEveryDevice(order: seq<string>, records: map<string, Record>, frames: map<string, Frame>,
                                dates: Dates)
    requires Ordered(order, records) && DevicesOk(records, dates)
    ensures var t := Load(Disk(Some(FileOf(order, records)), frames), dates);
      && t.order == order && t.records.Keys == records.Keys
      && forall id | id in records :: t.records[id] == Restored(records[id].device, frames)
  {
    LoadOfFile(order, records, frames, dates);
    LoadRestoresPrefix(order, records, frames, dates);
    AllAreRestored(LoadDevices(DevicesJson(order, records), frames, dates), order, records, frames);
  }

  lemma DeviceIsItsJson(a: Device, b: Device, dates: Dates)
    requires Persistable(a, dates) && Persistable(b, dates) && DeviceJson(a) == DeviceJson(b)
    ensures a == b
  {
    DeviceRoundTrip(a, dates);
    DeviceRoundTrip(b, dates);
  }

  lemma {:induction false} FileShowsEveryDevice(order: seq<string>, a: map<string, Record>, b: map<string, Record>,
                                                at: nat, dates: Dates)
    requires forall i | 0 <= i < |order| :: order[i] in a && order[i] in b
    requires forall i | 0 <= i < |order| ::
      Persistable(a[order[i]].device, dates) && Persistable(b[order[i]].device, dates)
    requires at < |order| && DevicesJson(order, a) == DevicesJson(order, b)
    ensures a[order[at]].device == b[order[at]].device
    decreases |order|
  {
    var n := |order| - 1;
    var x, y := DevicesJson(order[..n], a), DevicesJson(order[..n], b);
    var v, w := DeviceJson(a[order[n]].device), DeviceJson(b[order[n]].device);
    assert x + [v] == y + [w];
    assert (x + [v])[|x|] == v && (y + [w])[|y|] == w;
    assert |x| == |y| && (x + [v])[..|x|] == x && (y + [w])[..|y|] == y;
    if at == n {
      DeviceIsItsJson(a[order[n]].device, b[order[n]].device, dates);
    } else {
      FileShowsEveryDevice(order[..n], a, b, at, dates);
    }
  }

  /** The sizes in the registry are those of the frame files. */
  ghost predicate SizesAgree(records: map<string, Record>, frames: map<string, Frame>) {
    forall id | id in records && Usable(id, frames) :: |frames[id]| == records[id].device.lastFrameBytes
  }

  lemma RestoredDevice(id: string, device: Device, frames: map<string, Frame>, dates: Dates)
    requires Persistable(device, dates) && device.deviceId == id
    ensures Persistable(Restored(device, frames).device, dates)
    ensures Restored(device, frames).device == device <==>
      (Usable(id, frames) ==> |frames[id]| == device.lastFrameBytes)
  {
  }

  /** A start never marks anything dirty, so it may leave a file that differs from
      memory, for instance after a crash between the writing of the frames and of the
      registry. It leaves none exactly when the registry's frame sizes are those of
      the frame files. */
  lemma {:induction false} LoadedStateIsSaved(order: seq<string>, records: map<string, Record>, frames: map<string,
                                              Frame>, dates: Dates)
    requires Ordered(order, records) && DevicesOk(records, dates)
    ensures Saved(Load(Disk(Some(FileOf(order, records)), frames), dates)) <==> SizesAgree(records, frames)
  {
    var t := Load(Disk(Some(FileOf(order, records)), frames), dates);
    LoadRestoresEveryDevice(order, records, frames, dates);
    forall id | id in records
      ensures Persistable(t.records[id].device, dates)
      ensures t.records[id].device == records[id].device <==>
        (Usable(id, frames) ==> |frames[id]| == records[id].device.lastFrameBytes)
    {
      RestoredDevice(id, records[id].device, frames, dates);
    }
    if SizesAgree(records, frames) {
      SameDevices(order, records, t.records);
    }
    if Saved(t) {
      assert DevicesJson(order, records) == DevicesJson(order, t.records) by {
        FileIsSupported(order, records);
        FileIsSupported(order, t.records);
      }
      forall id | id in records && Usable(id, frames)
        ensures |frames[id]| == records[id].device.lastFrameBytes
      {
        var at :| 0 <= at < |order| && order[at] == id;
        FileShowsEveryDevice(order, records, t.records, at, dates);
      }
    }
  }
}
