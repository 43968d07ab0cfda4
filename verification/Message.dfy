/** The bit stream of a byte-mode message, and a reader for it (section 7.4 of ISO/IEC 18004:2015). */
module Message {
  import opened Options
  import opened BitOps
  import opened Gf256


  /** The digits of a row of bytes, eight for each. */
  function ByteBits(bytes: seq<byte>): (r: seq<bool>)
    ensures |r| == 8 * |bytes|
  {
    if bytes == [] then [] else ByteBits(bytes[..|bytes| - 1]) + BitRow(bytes[|bytes| - 1], 8)
  }

  lemma {:induction false} ByteBitsAt(bytes: seq<byte>, i: nat)
    requires i < |bytes|
    ensures ByteBits(bytes)[8 * i..8 * i + 8] == BitRow(bytes[i], 8)
  {
    hide BitRow;
    var n := |bytes| - 1;
    var front, last := ByteBits(bytes[..n]), BitRow(bytes[n], 8);
    if i < n {
      ByteBitsAt(bytes[..n], i);
      assert (front + last)[8 * i..8 * i + 8] == front[8 * i..8 * i + 8];
    } else {
      assert (front + last)[8 * n..] == last;
    }
  }

  /** The filler 0xec, 0x11, 0xec, ... */
  function Filler(n: nat): (r: seq<byte>)
    ensures |r| == n
  {
    seq(n, i => if i % 2 == 0 then 0xec else 0x11)
  }

  /** The mode indicator for bytes, then how many there are. */
  function Header(bytes: seq<byte>, countBits: nat): (r: seq<bool>)
    ensures |r| == 4 + countBits
  {
    BitRow(4, 4) + BitRow(|bytes|, countBits)
  }

  function Min(a: int, b: int): int { if a < b then a else b }

  /** Header, bytes, up to four zeros, zeros to the next byte border, filler up to the capacity. */
  function MessageBits(bytes: seq<byte>, countBits: nat, capacity: nat): (r: seq<bool>)
    requires 4 + countBits + 8 * |bytes| <= 8 * capacity
    ensures |r| == 8 * capacity
  {
    var body := Header(bytes, countBits) + ByteBits(bytes);
    PadArithmetic(|body|, capacity);
    body + Padding(|body|, capacity)
  }

  function Padding(used: nat, capacity: nat): (r: seq<bool>)
    requires used <= 8 * capacity
    ensures |r| == 8 * capacity - used
  {
    var ended := used + Min(4, 8 * capacity - used);
    var aligned := ended + (8 - ended % 8) % 8;
    PadArithmetic(used, capacity);
    BitRow(0, ended - used) + BitRow(0, aligned - ended) + ByteBits(Filler((8 * capacity - aligned) / 8))
  }

  lemma PadArithmetic(used: nat, capacity: nat)
    requires used <= 8 * capacity
    ensures var ended := used + Min(4, 8 * capacity - used);
      var aligned := ended + (8 - ended % 8) % 8;
      used <= ended <= aligned <= 8 * capacity && aligned % 8 == 0
      && 8 * ((8 * capacity - aligned) / 8) == 8 * capacity - aligned
  {
  }

  // ----- the reader ------------------------------------------------------------------------------------

  function ReadMessage(bits: seq<bool>, countBits: nat): Option<seq<byte>> {
    var head := 4 + countBits;
    if |bits| < head || Number(bits[..4]) != 4 then None
    else
      var count := Number(bits[4..head]);
      if |bits| < head + 8 * count then None
      else Some(seq(count, i requires 0 <= i < count => ReadByte(bits, head + 8 * i)))
  }

  function ReadByte(bits: seq<bool>, at: nat): byte
    requires at + 8 <= |bits|
  {
    BitRowOfNumber(bits[at..at + 8]);
    assert Pow2(8) == 256;
    Number(bits[at..at + 8])
  }

  lemma SmallPowers()
    ensures Pow2(4) == 16 && Pow2(8) == 256
  {
  }

  lemma ReadPrefix(bytes: seq<byte>, countBits: nat, rest: seq<bool>)
    requires |bytes| < Pow2(countBits)
    ensures ReadMessage(Header(bytes, countBits) + ByteBits(bytes) + rest, countBits) == Some(bytes)
  {
    hide Number, BitRow, ByteBits, Pow2, ReadByte, Header;
    var head := 4 + countBits;
    var bits := Header(bytes, countBits) + ByteBits(bytes) + rest;
    ReadHeader(bytes, countBits, ByteBits(bytes) + rest);
    assert bits == Header(bytes, countBits) + (ByteBits(bytes) + rest);
    forall i: nat | i < |bytes| ensures ReadByte(bits, head + 8 * i) == bytes[i] {
      ReadByteAfter(Header(bytes, countBits), bytes, rest, i);
    }
    assert seq(|bytes|, i requires 0 <= i < |bytes| => ReadByte(bits, head + 8 * i)) == bytes;
  }

  lemma ReadHeader(bytes: seq<byte>, countBits: nat, rest: seq<bool>)
    requires |bytes| < Pow2(countBits)
    ensures var bits := Header(bytes, countBits) + rest;
      |bits| >= 4 + countBits && Number(bits[..4]) == 4 && Number(bits[4..4 + countBits]) == |bytes|
  {
    hide Number, BitRow, Pow2;
    var bits := Header(bytes, countBits) + rest;
    SmallPowers();
    NumberOfBitRow(4, 4);
    NumberOfBitRow(|bytes|, countBits);
    assert bits[..4] == BitRow(4, 4);
    assert bits[4..4 + countBits] == BitRow(|bytes|, countBits);
  }

  lemma ReadByteAfter(before: seq<bool>, bytes: seq<byte>, rest: seq<bool>, i: nat)
    requires i < |bytes|
    ensures ReadByte(before + ByteBits(bytes) + rest, |before| + 8 * i) == bytes[i]
  {
    hide Number, BitRow, ByteBits, Pow2;
    var bits := before + ByteBits(bytes) + rest;
    var at := |before| + 8 * i;
    ByteBitsAt(bytes, i);
    assert bits[at..at + 8] == ByteBits(bytes)[8 * i..8 * i + 8];
    SmallPowers();
    NumberOfBitRow(bytes[i], 8);
  }

  /** Whatever follows the bytes, reading the message gives them back. */
  lemma MessageRoundTrip(bytes: seq<byte>, countBits: nat, capacity: nat)
    requires 4 + countBits + 8 * |bytes| <= 8 * capacity && |bytes| < Pow2(countBits)
    ensures ReadMessage(MessageBits(bytes, countBits, capacity), countBits) == Some(bytes)
  {
    hide ReadMessage, Pow2;
    ReadPrefix(bytes, countBits, Padding(|Header(bytes, countBits) + ByteBits(bytes)|, capacity));
  }

  // ----- writing the bits -----------------------------------------------------------------------------

  method Push(bits: seq<bool>, value: nat, length: nat) returns (r: seq<bool>)
    ensures r == bits + BitRow(value, length)
  {
    r := bits;
    var i: int := length - 1;
    while i >= 0
      invariant -1 <= i < length
      invariant r == bits + BitRow(Shr(value, i + 1), length - 1 - i)
    {
      ShrHalf(value, i);
      r := r + [Shr(value, i) % 2 == 1];
      i := i - 1;
    }
  }

  lemma BitRowShift(value: nat, length: nat)
    ensures BitRow(Shr(value, length), 0) == []
  {
  }

  lemma FillerPush(n: nat)
    ensures ByteBits(Filler(n + 1)) == ByteBits(Filler(n)) + BitRow(if n % 2 == 0 then 0xec else 0x11, 8)
  {
    assert Filler(n + 1)[..n] == Filler(n);
  }

  method BuildBits(bytes: seq<byte>, countBits: nat, capacity: nat) returns (bits: seq<bool>)
    requires 4 + countBits + 8 * |bytes| <= 8 * capacity
    ensures bits == MessageBits(bytes, countBits, capacity)
  {
    hide BitRow, ByteBits, Filler;
    bits := Push([], 4, 4);
    bits := Push(bits, |bytes|, countBits);
    bits := PushBytes(bits, bytes);
    ghost var body := bits;
    PadArithmetic(|bits|, capacity);
    bits := Push(bits, 0, Min(4, capacity * 8 - |bits|));
    bits := Push(bits, 0, (8 - |bits| % 8) % 8);
    bits := PushFiller(bits, capacity);
    assert bits == body + Padding(|body|, capacity);
  }

  method PushBytes(start: seq<bool>, bytes: seq<byte>) returns (bits: seq<bool>)
    ensures bits == start + ByteBits(bytes)
  {
    hide BitRow;
    bits := start;
    var n := 0;
    while n < |bytes|
      invariant n <= |bytes|
      invariant bits == start + ByteBits(bytes[..n])
    {
      assert bytes[..n + 1][..n] == bytes[..n];
      bits := Push(bits, bytes[n], 8);
      n := n + 1;
    }
    assert bytes[..n] == bytes;
  }

  lemma TogglePad()
    ensures Xor(0xec, Xor(0xec, 0x11)) == 0x11 && Xor(0x11, Xor(0xec, 0x11)) == 0xec
  {
    hide Xor;
    XorAssoc(0xec, 0xec, 0x11);
    XorSelf(0xec);
    XorZero(0x11);
    XorComm(0xec, 0x11);
    XorAssoc(0x11, 0x11, 0xec);
    XorSelf(0x11);
    XorZero(0xec);
  }

  method PushFiller(aligned: seq<bool>, capacity: nat) returns (bits: seq<bool>)
    requires |aligned| % 8 == 0 && |aligned| <= 8 * capacity
    ensures bits == aligned + ByteBits(Filler((8 * capacity - |aligned|) / 8))
  {
    hide BitRow, ByteBits, Filler, Xor;
    bits := aligned;
    var pad: nat := 0xec;
    ghost var n := 0;
    TogglePad();
    while |bits| < capacity * 8
      invariant |bits| == |aligned| + 8 * n <= capacity * 8
      invariant bits == aligned + ByteBits(Filler(n))
      invariant pad == if n % 2 == 0 then 0xec else 0x11
      decreases capacity * 8 - |bits|
    {
      FillerPush(n);
      bits := Push(bits, pad, 8);
      pad := Xor(pad, Xor(0xec, 0x11));
      n := n + 1;
    }
  }

  // ----- eight bits to a codeword ----------------------------------------------------------------------

  function Packed(bits: seq<bool>): (r: seq<byte>)
    ensures |r| == |bits| / 8
    ensures forall i :: 0 <= i < |r| ==> r[i] == ReadByte(bits, 8 * i)
  {
    seq(|bits| / 8, i requires 0 <= i < |bits| / 8 => ReadByte(bits, 8 * i))
  }

  /** The last eight bits make the last codeword. */
  lemma PackedFront(bits: seq<bool>)
    requires |bits| % 8 == 0 && bits != []
    ensures Packed(bits) == Packed(bits[..|bits| - 8]) + [ReadByte(bits, |bits| - 8)]
  {
    hide Number;
    var n := |bits| - 8;
    forall i | 0 <= i < n / 8 ensures ReadByte(bits, 8 * i) == ReadByte(bits[..n], 8 * i) {
      assert bits[8 * i..8 * i + 8] == bits[..n][8 * i..8 * i + 8];
    }
  }

  lemma LastByteBits(bytes: seq<byte>, last: byte)
    ensures ByteBits(bytes + [last]) == ByteBits(bytes) + BitRow(last, 8)
  {
    assert (bytes + [last])[..|bytes|] == bytes;
  }

  lemma {:induction false} UnpackPacked(bits: seq<bool>)
    requires |bits| % 8 == 0
    ensures ByteBits(Packed(bits)) == bits
    decreases |bits|
  {
    hide Number, BitRow, Packed;
    if bits == [] {
      assert Packed(bits) == [];
    } else {
      var n := |bits| - 8;
      UnpackPacked(bits[..n]);
      PackedFront(bits);
      LastByteBits(Packed(bits[..n]), ReadByte(bits, n));
      BitRowOfNumber(bits[n..]);
      assert bits[n..n + 8] == bits[n..];
    }
  }

  method PackByte(bits: seq<bool>, at: nat) returns (value: nat)
    requires at + 8 <= |bits|
    ensures value == Number(bits[at..at + 8])
  {
    hide Number;
    value := 0;
    var j := 0;
    NumberNone();
    assert bits[at..at] == [];
    while j < 8
      invariant j <= 8
      invariant value == Number(bits[at..at + j])
    {
      NumberPush(bits[at..at + j], bits[at + j]);
      assert bits[at..at + j] + [bits[at + j]] == bits[at..at + j + 1];
      value := 2 * value + (if bits[at + j] then 1 else 0);
      j := j + 1;
    }
  }

  lemma NumberNone()
    ensures Number([]) == 0
  {
  }

  method Pack(bits: seq<bool>) returns (data: seq<byte>)
    requires |bits| % 8 == 0
    ensures data == Packed(bits)
  {
    hide Number;
    data := [];
    var i := 0;
    while i < |bits|
      invariant i % 8 == 0 && i <= |bits|
      invariant |data| == i / 8
      invariant forall k :: 0 <= k < i / 8 ==> data[k] == ReadByte(bits, 8 * k)
    {
      var value := PackByte(bits, i);
      assert value == ReadByte(bits, 8 * (i / 8));
      data := data + [value];
      i := i + 8;
    }
  }
}
