/** The native TCP record of native/tailscale-native.c. Each function below is one
    region between `lock(tcp->mutex)` and `unlock(tcp->mutex)`, written on the
    abstract record; the class runs the same regions on two byte rings. */
module TcpRecords {
  import opened Basics
  import opened ByteRings

  const TCP_BUFFER_SIZE: nat := 16 * 1024
  const TCP_IO_CHUNK: nat := 1400

  /** The event mask, one field a bit. */
  datatype Events = Events(readable: bool, writable: bool, error: bool, final: bool) {
    predicate Any() {
      readable || writable || error || final
    }

    function Join(other: Events): Events {
      Events(readable || other.readable, writable || other.writable, error || other.error, final || other.final)
    }
  }

  const NOTHING := Events(false, false, false, false)
  const READABLE := Events(true, false, false, false)
  const WRITABLE := Events(false, true, false, false)

  datatype Record = Record(
    rx: seq<byte>, tx: seq<byte>,
    pending: Events, error: nat, connected: bool, closing: bool)
  {
    ghost predicate Bounded() {
      |rx| <= TCP_BUFFER_SIZE && |tx| <= TCP_BUFFER_SIZE
    }

    function RxFree(): int { TCP_BUFFER_SIZE - |rx| }

    function TxFree(): int { TCP_BUFFER_SIZE - |tx| }
  }

  const EMPTY_RECORD := Record([], [], NOTHING, 0, false, false)

  function Min(a: int, b: int): int {
    if a < b then a else b
  }

  /** What the take region of the worker found. */
  datatype Taken = Taken(closing: bool, chunk: seq<byte>)

  /** The argument of a native read: none, a number, or a buffer to fill. */
  datatype ReadArgument = NoArgument | Count(n: int) | Buffer(length: nat)

  datatype ReadOutcome = Empty | InvalidSize | InvalidBuffer | Byte(value: byte) | Bytes(bytes: seq<byte>)

  /** The argument of a native write. */
  datatype WriteArgument = Number(n: int) | Data(bytes: seq<byte>)

  datatype WriteOutcome = NotConnected | NotABuffer | WouldBlock | Wrote(writable: int)

  /** How many bytes one pass of the worker moves out of the transmit ring. */
  function ChunkSize(r: Record): (n: nat)
    ensures n <= |r.tx| && n <= TCP_IO_CHUNK
  {
    if r.closing then 0 else Min(|r.tx|, TCP_IO_CHUNK)
  }

  function Opened(r: Record): Record {
    r.(connected := true)
  }

  function TookChunk(r: Record): Record {
    r.(tx := r.tx[ChunkSize(r)..])
  }

  function Stored(r: Record, bytes: seq<byte>): Record {
    r.(rx := r.rx + bytes)
  }

  function Triggered(r: Record, events: Events): Record {
    r.(pending := r.pending.Join(events))
  }

  function Delivered(r: Record): Record {
    r.(pending := NOTHING)
  }

  function CloseRequested(r: Record): Record {
    r.(closing := true)
  }

  function Left(r: Record): Record {
    r.(connected := false)
  }

  datatype SizeCheck = NothingThere | BadSize | Fits

  /** The checks of a read of a number of bytes, as the streams make it. */
  function ReadCheck(r: Record, requested: nat): SizeCheck {
    if r.rx == [] then NothingThere
    else if requested == 0 || requested > |r.rx| then BadSize
    else Fits
  }

  /** What `xs_tailscale_tcp_read` finds after its first locked region. */
  function ReadResult(r: Record, numberFormat: bool, argument: ReadArgument): ReadOutcome {
    if r.rx == [] then Empty
    else if numberFormat then Byte(r.rx[0])
    else
      match argument
      case NoArgument => Bytes(r.rx)
      case Count(n) => if n < 0 || ReadCheck(r, n).BadSize? then InvalidSize else Bytes(r.rx[..n])
      case Buffer(length) => if length == 0 || length > |r.rx| then InvalidBuffer else Bytes(r.rx[..length])
  }

  /** How many bytes such a read takes. */
  function Consumed(outcome: ReadOutcome): nat {
    match outcome
    case Byte(_) => 1
    case Bytes(bytes) => |bytes|
    case _ => 0
  }

  /** The bytes of a native write: in number format the argument is a number, taken as
      one byte (a buffer counts as 0); otherwise it must be a buffer. */
  function Payload(numberFormat: bool, argument: WriteArgument): Option<seq<byte>> {
    if numberFormat then Some([if argument.Number? then argument.n % 256 else 0])
    else if argument.Data? then Some(argument.bytes)
    else None
  }

  function WriteResult(r: Record, numberFormat: bool, argument: WriteArgument): WriteOutcome {
    var payload := Payload(numberFormat, argument);
    if !r.connected then NotConnected
    else if payload.None? then NotABuffer
    else WriteCheck(r, |payload.value|)
  }

  function WriteCheck(r: Record, length: nat): WriteOutcome {
    if !r.connected then NotConnected
    else if length > r.TxFree() then WouldBlock
    else Wrote(r.TxFree() - length)
  }

  class TcpRecord {
    const rx: ByteRing
    const tx: ByteRing
    var pending: Events
    var error: nat
    var connected: bool
    var closing: bool
    var numberFormat: bool

    ghost function Repr(): set<object>
      reads this
    {
      {this, rx, tx, rx.data, tx.data}
    }

    ghost predicate Valid()
      reads Repr()
    {
      && rx != tx && rx.data != tx.data
      && rx.data.Length == TCP_BUFFER_SIZE && tx.data.Length == TCP_BUFFER_SIZE
      && rx.Valid() && tx.Valid()
    }

    ghost function View(): (r: Record)
      reads Repr()
      requires Valid()
      ensures r.Bounded()
    {
      Record(rx.Contents(), tx.Contents(), pending, error, connected, closing)
    }

    constructor ()
      ensures Valid() && fresh(Repr())
      ensures View() == EMPTY_RECORD && !numberFormat
    {
      rx := new ByteRing(TCP_BUFFER_SIZE);
      tx := new ByteRing(TCP_BUFFER_SIZE);
      pending, error, connected, closing, numberFormat := NOTHING, 0, false, false, false;
    }

    method Open() returns (wasClosing: bool)
      requires Valid()
      modifies this
      ensures Valid()
      ensures View() == Opened(old(View())) && wasClosing == old(View()).closing
    {
      connected := true;
      wasClosing := closing;
    }

    /** The first locked region of the worker's loop, with its 1400-byte buffer. */
    method TakeChunk() returns (taken: Taken)
      requires Valid()
      modifies tx
      ensures Valid()
      ensures View() == TookChunk(old(View()))
      ensures taken == Taken(old(View()).closing, old(View()).tx[..ChunkSize(old(View()))])
    {
      var chunk := [];
      if !closing && tx.used > 0 {
        var count := tx.used;
        if count > TCP_IO_CHUNK {
          count := TCP_IO_CHUNK;
        }
        chunk := tx.Read(count);
      }
      taken := Taken(closing, chunk);
    }

    method Store(bytes: seq<byte>)
      requires Valid() && |bytes| <= View().RxFree()
      modifies rx, rx.data
      ensures Valid()
      ensures View() == Stored(old(View()), bytes)
    {
      rx.Write(bytes);
    }

    /** `tcp_trigger`: a message is posted only when the mask was empty. */
    method Trigger(events: Events) returns (post: bool)
      requires Valid()
      modifies this
      ensures Valid()
      ensures View() == Triggered(old(View()), events) && post == !old(View()).pending.Any()
    {
      post := !pending.Any();
      pending := pending.Join(events);
    }

    /** The locked region of `tcp_deliver`. */
    method Deliver() returns (events: Events, readable: nat, writable: nat)
      requires Valid()
      modifies this
      ensures Valid()
      ensures View() == Delivered(old(View()))
      ensures events == old(View()).pending
      ensures readable == |old(View()).rx| && writable == old(View()).TxFree()
    {
      events := pending;
      pending := NOTHING;
      readable := rx.used;
      writable := tx.Free();
    }

    method RequestClose()
      requires Valid()
      modifies this
      ensures Valid()
      ensures View() == CloseRequested(old(View()))
    {
      closing := true;
    }

    method Leave() returns (explicitClose: bool)
      requires Valid()
      modifies this
      ensures Valid()
      ensures View() == Left(old(View())) && explicitClose == old(View()).closing
    {
      explicitClose := closing;
      connected := false;
    }

    /** `xs_tailscale_tcp_read`. */
    method ReadBytes(argument: ReadArgument) returns (outcome: ReadOutcome)
      requires Valid()
      modifies rx
      ensures Valid()
      ensures outcome == ReadResult(old(View()), numberFormat, argument)
      ensures View() == old(View()).(rx := old(View()).rx[Consumed(outcome)..])
    {
      var available := rx.used;
      if available == 0 {
        return Empty;
      }
      if numberFormat {
        var one := rx.Read(1);
        return Byte(one[0]);
      }
      var requested: int := available;
      match argument {
        case NoArgument =>
        case Count(n) =>
          if n <= 0 || n > available {
            return InvalidSize;
          }
          requested := n;
        case Buffer(length) =>
          if length == 0 || length > available {
            return InvalidBuffer;
          }
          requested := length;
      }
      var bytes := rx.Read(requested);
      outcome := Bytes(bytes);
    }

    /** `xs_tailscale_tcp_write`. */
    method WriteBytes(argument: WriteArgument) returns (outcome: WriteOutcome)
      requires Valid()
      modifies tx, tx.data
      ensures Valid()
      ensures outcome == WriteResult(old(View()), numberFormat, argument)
      ensures outcome.Wrote? ==> Payload(numberFormat, argument).Some?
      ensures View() ==
        if outcome.Wrote? then old(View()).(tx := old(View()).tx + Payload(numberFormat, argument).value)
          else old(View())
    {
      if !connected {
        return NotConnected;
      }
      var payload := Payload(numberFormat, argument);
      if payload.None? {
        return NotABuffer;
      }
      if |payload.value| > tx.Free() {
        return WouldBlock;
      }
      tx.Write(payload.value);
      outcome := Wrote(tx.Free());
    }
  }
}
