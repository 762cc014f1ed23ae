/** The closure of `createStreams` in modules/tailscale.js, run between two
    deliveries: it owns the cached lengths and drives the native record. The
    interleaving with the worker is the subject of `TcpStreams`. */
module StreamBridges {
  import opened Basics
  import opened TcpRecords

  class StreamBridge {
    const socket: TcpRecord
    var readableLength: nat
    var writableLength: nat
    var enqueued: seq<byte>
    var ready: bool
    var failed: bool

    ghost function Repr(): set<object>
      reads this, socket
    {
      {this} + socket.Repr()
    }

    ghost predicate Valid()
      reads Repr()
    {
      && this !in socket.Repr()
      && socket.Valid() && !socket.numberFormat
      && readableLength <= |socket.View().rx|
      && writableLength <= socket.View().TxFree()
    }

    constructor (record: TcpRecord)
      requires record.Valid() && record.View() == EMPTY_RECORD && !record.numberFormat
      ensures Valid() && socket == record
      ensures enqueued == [] && !ready && !failed
    {
      socket := record;
      readableLength, writableLength := 0, 0;
      enqueued, ready, failed := [], false, false;
    }

    /** `drainReadable`: all or nothing of the announced bytes, and only while the
        stream wants some. */
    method DrainReadable(desiredSize: int)
      requires Valid()
      modifies this, socket.rx
      ensures Valid()
      ensures writableLength == old(writableLength) && ready == old(ready) && failed == old(failed)
      ensures var moves := if desiredSize > 0 then old(readableLength) else 0;
        && enqueued == old(enqueued) + old(socket.View()).rx[..moves]
        && socket.View() == old(socket.View()).(rx := old(socket.View()).rx[moves..])
        && readableLength == old(readableLength) - moves
    {
      if readableLength == 0 || desiredSize <= 0 {
        return;
      }
      var outcome := socket.ReadBytes(Count(readableLength));
      readableLength := 0;
      enqueued := enqueued + outcome.bytes;
    }

    method OnReadable(count: nat, desiredSize: int)
      requires Valid() && 0 < count <= |socket.View().rx|
      modifies this, socket.rx
      ensures Valid()
      ensures enqueued + socket.View().rx == old(enqueued) + old(socket.View()).rx
      ensures readableLength == if desiredSize > 0 then 0 else count
    {
      ghost var rx, seen := socket.View().rx, enqueued;
      readableLength := count;
      DrainReadable(desiredSize);
      if desiredSize > 0 {
        assert rx == rx[..count] + rx[count..];
        assert seen + rx == seen + rx[..count] + rx[count..];
      } else {
        assert rx[..0] == [] && rx[0..] == rx;
      }
    }

    /** The first WRITABLE opens the pair of streams. */
    method OnWritable(count: nat) returns (opens: bool)
      requires Valid() && count <= socket.View().TxFree()
      modifies this
      ensures Valid()
      ensures writableLength == count && ready && opens == !old(ready)
      ensures readableLength == old(readableLength) && enqueued == old(enqueued) && failed == old(failed)
    {
      writableLength := count;
      opens := !ready;
      ready := true;
    }

    /** `fail`: the first error wins, and rejects `opened` only before it opened. */
    method OnError() returns (rejectsOpened: bool)
      requires Valid()
      modifies this
      ensures Valid() && failed
      ensures rejectsOpened == (!old(failed) && !old(ready))
      ensures readableLength == old(readableLength) && writableLength == old(writableLength)
      ensures enqueued == old(enqueued) && ready == old(ready)
    {
      rejectsOpened := !failed && !ready;
      failed := true;
    }

    /** The write loop up to the point where it would wait for credit. It fills the
        ring with the next bytes of the chunk and never sees "would block"; it throws
        exactly when it has credit for a connection that is gone. */
    method WriteChunk(bytes: seq<byte>, start: nat) returns (offset: nat, throws: bool)
      requires Valid() && start <= |bytes|
      modifies this, socket.tx, socket.tx.data
      ensures Valid()
      ensures start <= offset <= |bytes|
      ensures socket.View() == old(socket.View()).(tx := old(socket.View()).tx + bytes[start..offset])
      ensures throws <==> !socket.connected && start < |bytes| && old(writableLength) > 0
      ensures !throws && offset < |bytes| ==> writableLength == 0
      ensures offset - start ==
        if throws || old(writableLength) == 0 then 0 else Min(|bytes| - start, old(socket.View()).TxFree())
      ensures readableLength == old(readableLength) && enqueued == old(enqueued)
      ensures ready == old(ready) && failed == old(failed)
    {
      offset, throws := start, false;
      ghost var before := socket.View();
      while offset < |bytes| && writableLength > 0
        invariant Valid()
        invariant start <= offset <= |bytes|
        invariant socket.View() == before.(tx := before.tx + bytes[start..offset])
        invariant if offset == start then writableLength == old(writableLength)
                  else old(writableLength) > 0 && socket.connected && writableLength == socket.View().TxFree()
        invariant readableLength == old(readableLength) && enqueued == old(enqueued)
        invariant ready == old(ready) && failed == old(failed)
        decreases |bytes| - offset
      {
        var count := Min(writableLength, |bytes| - offset);
        var outcome := socket.WriteBytes(Data(bytes[offset..offset + count]));
        if outcome.NotConnected? {
          throws := true;
          return;
        }
        Joined(before.tx, bytes, start, offset, count);
        writableLength := outcome.writable;
        offset := offset + count;
      }
    }
  }

  lemma Joined(tx: seq<byte>, bytes: seq<byte>, start: nat, offset: nat, count: nat)
    requires start <= offset && offset + count <= |bytes|
    ensures tx + bytes[start..offset] + bytes[offset..offset + count] == tx + bytes[start..offset + count]
  {
  }
}
