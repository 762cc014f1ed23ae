/** The two packet queues of the native UDP record: four slots each, circular, under
    one mutex. Arrivals overwrite the oldest unread packet; writes are refused. */
module UdpQueues {
  import opened Basics

  const UDP_QUEUE_SIZE: nat := 4
  const UDP_PACKET_SIZE: nat := 1400
  const UINT32: nat := 0x1_0000_0000

  datatype Packet = Packet(address: nat, port: nat, data: seq<byte>)

  /** The abstract record: the unread and the unsent packets, oldest first. */
  datatype Udp = Udp(rx: seq<Packet>, tx: seq<Packet>, closing: bool, dropped: nat)

  const EMPTY_UDP := Udp([], [], false, 0)

  function Clip(packet: Packet): Packet {
    if |packet.data| > UDP_PACKET_SIZE then packet.(data := packet.data[..UDP_PACKET_SIZE]) else packet
  }

  function Received(u: Udp, packet: Packet): Udp {
    if u.closing then u
    else if |u.rx| == UDP_QUEUE_SIZE then
      u.(rx := u.rx[1..] + [Clip(packet)], dropped := (u.dropped + 1) % UINT32)
    else u.(rx := u.rx + [Clip(packet)])
  }

  /** 100.64.0.0/10. */
  predicate InTailnet(address: nat) {
    address < UINT32 && address / 0x40_0000 == 0x6440_0000 / 0x40_0000
  }

  datatype WriteOutcome = InvalidSize | OutsideTailnet | InvalidPort | Refused | Queued

  function WriteResult(u: Udp, packet: Packet): WriteOutcome {
    if |packet.data| == 0 || |packet.data| > UDP_PACKET_SIZE then InvalidSize
    else if !InTailnet(packet.address) then OutsideTailnet
    else if packet.port == 0 || packet.port > 65535 then InvalidPort
    else if u.closing || |u.tx| == UDP_QUEUE_SIZE then Refused
    else Queued
  }

  predicate Accepts(u: Udp, packet: Packet) {
    WriteResult(u, packet).Queued?
  }

  function Written(u: Udp, packet: Packet): Udp {
    if Accepts(u, packet) then u.(tx := u.tx + [packet]) else u
  }

  class UdpRecord {
    const rx: array<Packet>
    const tx: array<Packet>
    var rxRead: nat
    var rxWrite: nat
    var rxCount: nat
    var txRead: nat
    var txWrite: nat
    var txCount: nat
    var closing: bool
    var dropped: nat

    ghost predicate Valid()
      reads this
    {
      && rx != tx && rx.Length == UDP_QUEUE_SIZE && tx.Length == UDP_QUEUE_SIZE
      && rxRead < UDP_QUEUE_SIZE && rxCount <= UDP_QUEUE_SIZE
      && rxWrite == (rxRead + rxCount) % UDP_QUEUE_SIZE
      && txRead < UDP_QUEUE_SIZE && txCount <= UDP_QUEUE_SIZE
      && txWrite == (txRead + txCount) % UDP_QUEUE_SIZE
      && dropped < UINT32
    }

    ghost function View(): (u: Udp)
      reads this, rx, tx
      requires Valid()
      ensures |u.rx| == rxCount && |u.tx| == txCount
    {
      Udp(Window(rx, rxRead, rxCount), Window(tx, txRead, txCount), closing, dropped)
    }

    constructor ()
      ensures Valid() && fresh(rx) && fresh(tx)
      ensures View() == EMPTY_UDP
    {
      rx := new Packet[UDP_QUEUE_SIZE](_ => Packet(0, 0, []));
      tx := new Packet[UDP_QUEUE_SIZE](_ => Packet(0, 0, []));
      rxRead, rxWrite, rxCount := 0, 0, 0;
      txRead, txWrite, txCount := 0, 0, 0;
      closing, dropped := false, 0;
    }

    /** `udp_receive`. */
    method Receive(packet: Packet)
      requires Valid()
      modifies this, rx
      ensures Valid()
      ensures View() == Received(old(View()), packet)
    {
      if closing {
        return;
      }
      if rxCount == UDP_QUEUE_SIZE {
        DropOldest();
      }
      Put(rx, rxRead, rxCount, rxWrite, Clip(packet));
      NextSlot(rxRead, rxCount);
      rxWrite := (rxWrite + 1) % UDP_QUEUE_SIZE;
      rxCount := rxCount + 1;
    }

    method DropOldest()
      requires Valid() && rxCount == UDP_QUEUE_SIZE
      modifies this
      ensures Valid()
      ensures View() == old(View()).(rx := old(View()).rx[1..], dropped := (old(View()).dropped + 1) % UINT32)
      ensures rxCount == UDP_QUEUE_SIZE - 1 && rxWrite == old(rxWrite) && txCount == old(txCount)
    {
      rxRead := (rxRead + 1) % UDP_QUEUE_SIZE;
      rxCount := rxCount - 1;
      dropped := (dropped + 1) % UINT32;
    }

    method ReadPacket() returns (packet: Option<Packet>)
      requires Valid()
      modifies this
      ensures Valid()
      ensures packet == if old(View()).rx == [] then None else Some(old(View()).rx[0])
      ensures View() == if old(View()).rx == [] then old(View()) else old(View()).(rx := old(View()).rx[1..])
    {
      if rxCount == 0 {
        return None;
      }
      packet := Some(rx[rxRead]);
      rxRead := (rxRead + 1) % UDP_QUEUE_SIZE;
      rxCount := rxCount - 1;
    }

    /** Illegal packets throw, whatever the queue; a full or closing record refuses. */
    method WritePacket(packet: Packet) returns (outcome: WriteOutcome)
      requires Valid()
      modifies this, tx
      ensures Valid()
      ensures outcome == WriteResult(old(View()), packet)
      ensures View() == if outcome.Queued? then old(View()).(tx := old(View()).tx + [packet]) else old(View())
    {
      if |packet.data| == 0 || |packet.data| > UDP_PACKET_SIZE {
        return InvalidSize;
      }
      if !InTailnet(packet.address) {
        return OutsideTailnet;
      }
      if packet.port == 0 || packet.port > 65535 {
        return InvalidPort;
      }
      if closing || txCount == UDP_QUEUE_SIZE {
        return Refused;
      }
      Put(tx, txRead, txCount, txWrite, packet);
      NextSlot(txRead, txCount);
      txWrite := (txWrite + 1) % UDP_QUEUE_SIZE;
      txCount := txCount + 1;
      outcome := Queued;
    }

    /** The locked region of the worker: it takes a packet even when it then finds
        that it has to close. */
    method Take() returns (wasClosing: bool, packet: Option<Packet>)
      requires Valid()
      modifies this
      ensures Valid()
      ensures wasClosing == old(View()).closing
      ensures packet == if old(View()).tx == [] then None else Some(old(View()).tx[0])
      ensures View() == if old(View()).tx == [] then old(View()) else old(View()).(tx := old(View()).tx[1..])
    {
      wasClosing, packet := closing, None;
      if txCount > 0 {
        packet := Some(tx[txRead]);
        txRead := (txRead + 1) % UDP_QUEUE_SIZE;
        txCount := txCount - 1;
      }
    }

    method RequestClose()
      requires Valid()
      modifies this
      ensures Valid()
      ensures View() == old(View()).(closing := true)
    {
      closing := true;
    }
  }

  lemma NextSlot(start: nat, count: nat)
    requires start < UDP_QUEUE_SIZE && count <= UDP_QUEUE_SIZE
    ensures ((start + count) % UDP_QUEUE_SIZE + 1) % UDP_QUEUE_SIZE == (start + (count + 1)) % UDP_QUEUE_SIZE
  {
  }

  /** `count` slots of a four-slot circle, from `start`. */
  ghost function Window(slots: array<Packet>, start: nat, count: nat): (s: seq<Packet>)
    reads slots
    requires slots.Length == UDP_QUEUE_SIZE && start < UDP_QUEUE_SIZE && count <= UDP_QUEUE_SIZE
    ensures |s| == count
  {
    seq(count, k requires 0 <= k < count reads slots requires slots.Length == UDP_QUEUE_SIZE
               => slots[(start + k) % UDP_QUEUE_SIZE])
  }

  /** Filling the write slot appends to the window. */
  method Put(slots: array<Packet>, start: nat, count: nat, write: nat, packet: Packet)
    requires slots.Length == UDP_QUEUE_SIZE && start < UDP_QUEUE_SIZE && count < UDP_QUEUE_SIZE
    requires write == (start + count) % UDP_QUEUE_SIZE
    modifies slots
    ensures Window(slots, start, count + 1) == old(Window(slots, start, count)) + [packet]
  {
    slots[write] := packet;
  }

  // ------------------------------------------------------------- over all runs

  datatype Step = Arrive(packet: Packet) | Read | Write(packet: Packet) | Pass | Close

  /** The record with its history. `arrivals` are the packets accepted from the
      network; `readAt` and `dropAt` are positions in it, oldest first. `writes` are
      the packets accepted from JS and `attempts` those given to the engine.
      `stopped` says that the worker has left its loop. */
  datatype State = State(
    udp: Udp, arrivals: seq<Packet>, readAt: seq<nat>, dropAt: seq<nat>,
    writes: seq<Packet>, attempts: seq<Packet>, stopped: bool)

  const INITIAL := State(EMPTY_UDP, [], [], [], [], [], false)

  /** Position in `arrivals` of the oldest packet still queued. */
  function Oldest(s: State): int {
    |s.arrivals| - |s.udp.rx|
  }

  function Apply(s: State, step: Step): State {
    match step
    case Arrive(packet) =>
      if s.udp.closing then s.(udp := Received(s.udp, packet))
      else
        s.(udp := Received(s.udp, packet), arrivals := s.arrivals + [Clip(packet)],
          dropAt := if |s.udp.rx| == UDP_QUEUE_SIZE && Oldest(s) >= 0 then s.dropAt + [Oldest(s)] else s.dropAt)
    case Read =>
      if s.udp.rx == [] then s
      else
        s.(udp := s.udp.(rx := s.udp.rx[1..]), readAt := if Oldest(s) >= 0 then s.readAt + [Oldest(s)] else s.readAt)
    case Write(packet) =>
      s.(udp := Written(s.udp, packet), writes := if Accepts(s.udp, packet) then s.writes + [packet] else s.writes)
    case Pass =>
      if s.stopped then s
      else
        var rest := if s.udp.tx == [] then s else s.(udp := s.udp.(tx := s.udp.tx[1..]));
        if s.udp.closing then rest.(stopped := true)
        else if s.udp.tx == [] then rest
        else rest.(attempts := s.attempts + [s.udp.tx[0]])
    case Close => s.(udp := s.udp.(closing := true))
  }

  function Exec(s: State, steps: seq<Step>): State
    decreases |steps|
  {
    if steps == [] then s else Exec(Apply(s, steps[0]), steps[1..])
  }

  predicate Increasing(positions: seq<nat>, bound: int) {
    && (forall i | 0 <= i < |positions| :: positions[i] < bound)
    && (forall i, j | 0 <= i < j < |positions| :: positions[i] < positions[j])
  }

  /** The receive queue is a suffix of the arrivals, and every older arrival was
      either read or dropped, once and in order. */
  ghost predicate ReceiveInv(s: State) {
    && |s.udp.rx| <= UDP_QUEUE_SIZE && |s.udp.rx| <= |s.arrivals|
    && s.udp.rx == s.arrivals[Oldest(s)..]
    && |s.readAt| + |s.dropAt| == Oldest(s)
    && Increasing(s.readAt, Oldest(s)) && Increasing(s.dropAt, Oldest(s))
    && (forall p | 0 <= p < Oldest(s) :: p in s.readAt <==> p !in s.dropAt)
    && s.udp.dropped == |s.dropAt| % UINT32
  }

  ghost predicate TransmitInv(s: State) {
    && |s.udp.tx| <= UDP_QUEUE_SIZE
    && (s.stopped ==> s.udp.closing)
    && s.attempts <= s.writes
    && (!s.stopped ==> s.writes == s.attempts + s.udp.tx)
  }

  ghost predicate Inv(s: State) {
    ReceiveInv(s) && TransmitInv(s)
  }

  lemma {:induction false} ArriveKept(s: State, packet: Packet)
    requires Inv(s)
    ensures ReceiveInv(Apply(s, Arrive(packet)))
  {
    if !s.udp.closing {
      var t := Apply(s, Arrive(packet));
      assert t.udp.rx == t.arrivals[Oldest(t)..];
      if |s.udp.rx| == UDP_QUEUE_SIZE {
        CountStep(|s.dropAt|);
        assert forall p | p in t.dropAt :: p in s.dropAt || p == Oldest(s);
        assert Oldest(s) in t.dropAt && Oldest(s) !in s.readAt;
        assert forall p | p in s.dropAt :: p in t.dropAt;
      }
    }
  }

  lemma CountStep(n: nat)
    ensures (n + 1) % UINT32 == (n % UINT32 + 1) % UINT32
  {
  }

  lemma {:induction false} ReadKept(s: State)
    requires Inv(s)
    ensures ReceiveInv(Apply(s, Read))
  {
    if s.udp.rx != [] {
      var t := Apply(s, Read);
      assert t.udp.rx == t.arrivals[Oldest(t)..];
      assert Oldest(s) in t.readAt && Oldest(s) !in s.dropAt;
      assert forall p | p in t.readAt :: p in s.readAt || p == Oldest(s);
      assert forall p | p in s.readAt :: p in t.readAt;
    }
  }

  lemma {:induction false} StepKeepsInv(s: State, step: Step)
    requires Inv(s)
    ensures Inv(Apply(s, step))
  {
    match step
    case Arrive(packet) => ArriveKept(s, packet);
    case Read => ReadKept(s);
    case Pass =>
      if s.udp.tx != [] {
        assert s.udp.tx == [s.udp.tx[0]] + s.udp.tx[1..];
      }
    case _ =>
  }

  lemma {:induction false} RunKeepsInv(s: State, steps: seq<Step>)
    requires Inv(s)
    ensures Inv(Exec(s, steps))
    decreases |steps|
  {
    if steps != [] {
      StepKeepsInv(s, steps[0]);
      RunKeepsInv(Apply(s, steps[0]), steps[1..]);
    }
  }

  /** After any interleaving the receive queue is exactly the newest unread
      arrivals in order, no arrival is read twice or out of order, and
      accepted == read + queued + dropped, with `dropped` counted modulo 2^32. */
  lemma NewestUnreadPackets(steps: seq<Step>)
    ensures var s := Exec(INITIAL, steps);
      && |s.udp.rx| <= UDP_QUEUE_SIZE <= UINT32
      && |s.udp.rx| <= |s.arrivals|
      && s.udp.rx == s.arrivals[|s.arrivals| - |s.udp.rx|..]
      && Increasing(s.readAt, |s.arrivals| - |s.udp.rx|)
      && |s.arrivals| == |s.readAt| + |s.udp.rx| + |s.dropAt|
      && (forall p | 0 <= p < |s.arrivals| - |s.udp.rx| :: p in s.readAt <==> p !in s.dropAt)
      && s.udp.dropped == |s.dropAt| % UINT32
  {
    RunKeepsInv(INITIAL, steps);
  }

  /** Transmit attempts are a prefix of the accepted writes. */
  lemma AttemptsArePrefix(steps: seq<Step>)
    ensures Exec(INITIAL, steps).attempts <= Exec(INITIAL, steps).writes
  {
    RunKeepsInv(INITIAL, steps);
  }

  /** A packet is dropped only by an arrival that finds four newer or equal ones
      unread, and what goes is the oldest of them. */
  lemma DropsOnlyWhenFull(s: State, step: Step)
    requires Inv(s)
    ensures Apply(s, step).dropAt != s.dropAt <==> step.Arrive? && !s.udp.closing && |s.udp.rx| == UDP_QUEUE_SIZE
    ensures Apply(s, step).dropAt != s.dropAt ==> Apply(s, step).dropAt == s.dropAt + [|s.arrivals| - UDP_QUEUE_SIZE]
  {
  }
}
