/** The byte ring of native/tailscale-native.c: an array, two indices and a fill
    count. `Contents` is the bounded FIFO sequence the ring stands for; every
    client of the ring is specified by that sequence alone. */
module ByteRings {
  import opened Basics

  class ByteRing {
    const data: array<byte>
    var read: nat
    var write: nat
    var used: nat

    ghost predicate Valid()
      reads this
    {
      && 0 < data.Length
      && read < data.Length
      && used <= data.Length
      && write == (read + used) % data.Length
    }

    /** Where the k-th unread byte lives. */
    ghost function Slot(k: nat): (slot: nat)
      reads this
      requires Valid() && k < data.Length
      ensures slot < data.Length
    {
      if read + k < data.Length then read + k else read + k - data.Length
    }

    ghost function Contents(): (s: seq<byte>)
      reads this, data
      requires Valid()
      ensures |s| == used
    {
      seq(used, k requires 0 <= k < used reads this, data requires Valid() => data[Slot(k)])
    }

    constructor (capacity: nat)
      requires 0 < capacity
      ensures Valid() && fresh(data)
      ensures data.Length == capacity && Contents() == []
    {
      data := new byte[capacity];
      read, write, used := 0, 0, 0;
    }

    function Free(): (n: nat)
      reads this
      requires Valid()
      ensures n == data.Length - |Contents()|
    {
      data.Length - used
    }

    /** `ring_write`: at most two block copies, one on each side of the wrap.
        Every caller checks or already knows that the bytes fit. */
    method Write(source: seq<byte>)
      requires Valid() && |source| <= Free()
      modifies this, data
      ensures Valid()
      ensures Contents() == old(Contents()) + source
    {
      var capacity := data.Length;
      var count := |source|;
      var first := capacity - write;
      if first > count {
        first := count;
      }
      ghost var before := Contents();
      WrapIndex(read + used, capacity);
      CopyIn(source, first);
      WrapIndex(write + count, capacity);
      write := (write + count) % capacity;
      used := used + count;
      WrapIndex(read + used, capacity);
      assert Contents() == before + source by {
        forall k | 0 <= k < used
          ensures Contents()[k] == (before + source)[k]
        {
          if k < |before| {
            assert data[Slot(k)] == before[k];
          }
        }
      }
    }

    /** The two block copies of a write; no unread byte is overwritten. */
    method CopyIn(source: seq<byte>, first: nat)
      requires Valid() && |source| <= Free()
      requires first <= |source| && write + first <= data.Length
      requires first == |source| || write + first == data.Length
      modifies data
      ensures Valid()
      ensures forall k | 0 <= k < used :: data[Slot(k)] == old(data[Slot(k)])
      ensures forall k | used <= k < used + |source| :: data[Slot(k)] == source[k - used]
    {
      WrapIndex(read + used, data.Length);
      forall i | 0 <= i < first {
        data[write + i] := source[i];
      }
      forall i | 0 <= i < |source| - first {
        data[i] := source[first + i];
      }
    }

    /** `ring_read`: the oldest `count` bytes leave the ring in order. */
    method Read(count: nat) returns (destination: seq<byte>)
      requires Valid() && count <= used
      modifies this
      ensures Valid()
      ensures destination == old(Contents())[..count]
      ensures Contents() == old(Contents())[count..]
    {
      var capacity := data.Length;
      var first := capacity - read;
      if first > count {
        first := count;
      }
      destination := data[read..read + first] + data[..count - first];
      ghost var before := Contents();
      assert destination == before[..count];
      WrapIndex(read + count, capacity);
      WrapIndex(read + used, capacity);
      var wrapped := (read + count) % capacity;
      WrapIndex(wrapped + (used - count), capacity);
      read := wrapped;
      used := used - count;
      assert forall k | 0 <= k < used :: Contents()[k] == before[count + k];
    }
  }

  /** `%` on an index below two capacities is one conditional subtraction. */
  lemma WrapIndex(index: nat, capacity: nat)
    requires 0 < capacity && index < 2 * capacity
    ensures index % capacity == if index < capacity then index else index - capacity
  {
    var q, r := index / capacity, index % capacity;
    assert index == q * capacity + r;
    if q == 1 {
      assert q * capacity == capacity;
    } else if q == 0 {
      assert q * capacity == 0;
    }
  }
}
