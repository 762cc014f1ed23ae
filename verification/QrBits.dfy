/** The QR bit matrix of `provision.get`: packed and printed by the device
    (examples/cores3-websocket/main.js), parsed and drawn by the provisioning page
    (tools/camera-server.ts). */
module QrBits {
  type octet = bv8

  /** `0x80 >> (index & 7)`. */
  function Mask(index: nat): octet {
    0x80 >> (index % 8)
  }

  predicate BitAt(bytes: seq<octet>, index: nat)
    requires index / 8 < |bytes|
  {
    bytes[index / 8] & Mask(index) != 0
  }

  /** The bytes hold the cells, most significant bit first, and padding is clear. */
  ghost predicate Holds(bytes: seq<octet>, cells: seq<octet>) {
    && |bytes| == (|cells| + 7) / 8
    && (forall k: nat | k < 8 * |bytes| :: BitAt(bytes, k) <==> k < |cells| && cells[k] != 0)
  }

  lemma MaskTable(index: nat)
    ensures Mask(index) ==
      [0x80, 0x40, 0x20, 0x10, 0x08, 0x04, 0x02, 0x01][index % 8]
  {
    var k := index % 8;
    if k == 0 {} else if k == 1 {} else if k == 2 {} else if k == 3 {}
    else if k == 4 {} else if k == 5 {} else if k == 6 {} else {}
  }

  /** Setting one bit of a byte sets that bit and no other. */
  lemma SetBit(b: octet, i: nat, k: nat)
    ensures (b | Mask(i)) & Mask(k) != 0 <==> b & Mask(k) != 0 || i % 8 == k % 8
  {
    MaskTable(i);
    MaskTable(k);
  }

  /** The packing loop. */
  method Pack(cells: seq<octet>) returns (bytes: seq<octet>)
    ensures Holds(bytes, cells)
  {
    var count := (|cells| + 7) / 8;
    var packed := new octet[count](_ => 0);
    for index := 0 to |cells|
      invariant forall k: nat | k < 8 * count :: BitAt(packed[..], k) <==> k < index && cells[k] != 0
    {
      if cells[index] != 0 {
        ghost var before := packed[..];
        packed[index / 8] := packed[index / 8] | Mask(index);
        forall k: nat | k < 8 * count
          ensures BitAt(packed[..], k) <==> k < index + 1 && cells[k] != 0
        {
          assert BitAt(before, k) <==> k < index && cells[k] != 0;
          SetBit(before[index / 8], index, k);
        }
      }
    }
    bytes := packed[..];
  }

  // ------------------------------------------------------------------------- hex

  function DigitOf(nibble: octet): char {
    match nibble
    case 0 => '0' case 1 => '1' case 2 => '2' case 3 => '3'
    case 4 => '4' case 5 => '5' case 6 => '6' case 7 => '7'
    case 8 => '8' case 9 => '9' case 10 => 'a' case 11 => 'b'
    case 12 => 'c' case 13 => 'd' case 14 => 'e' case _ => 'f'
  }

  /** `toString(16)` of one byte. */
  function ToString16(b: octet): string {
    if b < 16 then [DigitOf(b)] else [DigitOf(b >> 4), DigitOf(b & 0x0F)]
  }

  /** `padStart(2, "0")`. */
  function PadStart2(s: string): string {
    if |s| == 0 then "00" else if |s| == 1 then "0" + s else s
  }

  function HexOf(b: octet): (s: string)
    ensures s == [DigitOf(b >> 4), DigitOf(b & 0x0F)]
  {
    PadStart2(ToString16(b))
  }

  predicate IsHex(c: char) {
    '0' <= c <= '9' || 'a' <= c <= 'f' || 'A' <= c <= 'F'
  }

  /** One digit as `parseInt` reads it in base 16. */
  function Value(c: char): octet {
    match c
    case '0' => 0 case '1' => 1 case '2' => 2 case '3' => 3
    case '4' => 4 case '5' => 5 case '6' => 6 case '7' => 7
    case '8' => 8 case '9' => 9
    case 'a' => 10 case 'b' => 11 case 'c' => 12 case 'd' => 13 case 'e' => 14 case 'f' => 15
    case 'A' => 10 case 'B' => 11 case 'C' => 12 case 'D' => 13 case 'E' => 14 case 'F' => 15
    case _ => 0
  }

  lemma DigitValue(nibble: octet)
    requires nibble < 16
    ensures IsHex(DigitOf(nibble)) && Value(DigitOf(nibble)) == nibble
  {
  }

  /** Two digits read back as the byte they print. */
  lemma TwoDigits(b: octet)
    ensures IsHex(DigitOf(b >> 4)) && IsHex(DigitOf(b & 0x0F))
    ensures (Value(DigitOf(b >> 4)) << 4) | Value(DigitOf(b & 0x0F)) == b
  {
    DigitValue(b >> 4);
    DigitValue(b & 0x0F);
  }

  /** All bytes printed. */
  function Hex(bytes: seq<octet>): string {
    if bytes == [] then "" else Hex(bytes[..|bytes| - 1]) + HexOf(bytes[|bytes| - 1])
  }

  /** Digits `2 * i` and `2 * i + 1` are those of byte `i`. */
  predicate DigitsAt(hex: string, bytes: seq<octet>, i: nat)
    requires i < |bytes| && |hex| == 2 * |bytes|
  {
    hex[2 * i] == DigitOf(bytes[i] >> 4) && hex[2 * i + 1] == DigitOf(bytes[i] & 0x0F)
  }

  lemma {:induction false} HexDigits(bytes: seq<octet>)
    ensures |Hex(bytes)| == 2 * |bytes|
    ensures forall i: nat | i < |bytes| :: DigitsAt(Hex(bytes), bytes, i)
    decreases |bytes|
  {
    if bytes != [] {
      var init, last := bytes[..|bytes| - 1], bytes[|bytes| - 1];
      HexDigits(init);
      var hex := Hex(bytes);
      assert hex == Hex(init) + HexOf(last);
      forall i: nat | i < |bytes|
        ensures DigitsAt(hex, bytes, i)
      {
        if i < |init| {
          assert DigitsAt(Hex(init), init, i);
        }
      }
    }
  }

  /** The printing loop. */
  method Print(bytes: seq<octet>) returns (bits: string)
    ensures bits == Hex(bytes)
  {
    bits := "";
    for i := 0 to |bytes|
      invariant bits == Hex(bytes[..i])
    {
      assert bytes[..i + 1][..i] == bytes[..i];
      bits := bits + HexOf(bytes[i]);
    }
    assert bytes[..|bytes|] == bytes;
  }

  /** The page's test of `bits` before it uses them. */
  predicate HexText(bits: string) {
    bits != "" && forall i | 0 <= i < |bits| :: IsHex(bits[i])
  }

  /** `parseInt(bits.slice(2 * i, 2 * i + 2), 16)`. */
  function ByteAt(bits: string, i: nat): octet
    requires 2 * i + 1 < |bits|
  {
    (Value(bits[2 * i]) << 4) | Value(bits[2 * i + 1])
  }

  /** What the page makes of the text. */
  ghost predicate Decodes(bits: string, bytes: seq<octet>) {
    && |bytes| == |bits| / 2
    && forall i: nat | i < |bytes| :: bytes[i] == ByteAt(bits, i)
  }

  /** The page's parsing loop. */
  method Parse(bits: string) returns (bytes: seq<octet>)
    ensures Decodes(bits, bytes)
  {
    bytes := [];
    while |bytes| < |bits| / 2
      invariant |bytes| <= |bits| / 2
      invariant forall i: nat | i < |bytes| :: bytes[i] == ByteAt(bits, i)
    {
      bytes := bytes + [ByteAt(bits, |bytes|)];
    }
  }

  lemma HexIsText(bytes: seq<octet>)
    requires bytes != []
    ensures HexText(Hex(bytes)) && |Hex(bytes)| == 2 * |bytes|
  {
    HexDigits(bytes);
    var bits := Hex(bytes);
    forall i | 0 <= i < |bits|
      ensures IsHex(bits[i])
    {
      var k := i / 2;
      HexPair(bytes, k);
      assert i == 2 * k || i == 2 * k + 1;
    }
  }

  lemma HexPair(bytes: seq<octet>, k: nat)
    requires k < |bytes|
    ensures |Hex(bytes)| == 2 * |bytes|
    ensures IsHex(Hex(bytes)[2 * k]) && IsHex(Hex(bytes)[2 * k + 1])
  {
    HexDigits(bytes);
    assert DigitsAt(Hex(bytes), bytes, k);
    TwoDigits(bytes[k]);
  }

  /** Printed bytes parse back to themselves. */
  lemma HexRoundTrip(bytes: seq<octet>, parsed: seq<octet>)
    requires bytes != []
    ensures HexText(Hex(bytes))
    ensures Decodes(Hex(bytes), parsed) <==> parsed == bytes
  {
    HexIsText(bytes);
    forall i: nat | i < |bytes|
      ensures ByteAt(Hex(bytes), i) == bytes[i]
    {
      HexDigits(bytes);
      assert DigitsAt(Hex(bytes), bytes, i);
      TwoDigits(bytes[i]);
    }
  }

  // ------------------------------------------------------------------------ grid

  function Position(size: nat, row: nat, column: nat): nat {
    row * size + column
  }

  lemma InGrid(size: nat, row: nat, column: nat)
    requires row < size && column < size
    ensures Position(size, row, column) < size * size
  {
    Product(row + 1, size, size);
  }

  lemma {:induction false} Product(a: nat, b: nat, c: nat)
    requires a <= b
    ensures a * c <= b * c
    decreases b
  {
    if a < b {
      Product(a, b - 1, c);
      assert b * c == (b - 1) * c + c;
    }
  }

  /** The page's `isDark`. */
  predicate IsDark(bytes: seq<octet>, size: nat, row: nat, column: nat)
    requires Position(size, row, column) / 8 < |bytes|
  {
    BitAt(bytes, Position(size, row, column))
  }

  /** For every n and every n-by-n grid, whatever the page parses from what the device
      prints draws exactly the dark cells. */
  lemma GridRoundTrip(size: nat, cells: seq<octet>, packed: seq<octet>, parsed: seq<octet>, row: nat, column: nat)
    requires |cells| == size * size && Holds(packed, cells)
    requires Decodes(Hex(packed), parsed)
    requires row < size && column < size
    ensures Position(size, row, column) < |cells| <= 8 * |parsed|
    ensures IsDark(parsed, size, row, column) <==> cells[Position(size, row, column)] != 0
  {
    InGrid(size, row, column);
    assert packed != [];
    HexRoundTrip(packed, parsed);
  }

  /** The whole way of a grid from the device to the page. */
  method Transfer(size: nat, cells: seq<octet>) returns (parsed: seq<octet>)
    requires 0 < size && |cells| == size * size
    ensures Holds(parsed, cells)
  {
    var packed := Pack(cells);
    InGrid(size, 0, 0);
    HexIsText(packed);
    var bits := Print(packed);
    parsed := Parse(bits);
    HexRoundTrip(packed, parsed);
  }
}
