/** Splitting the data into blocks, protecting each and interleaving them (sections 7.5 and 7.6 of ISO/IEC 18004:2015). */
module Blocks {
  import opened Gf256
  import opened ReedSolomon
  import opened QrTables

  // ----- places -----------------------------------------------------------------------------------------

  lemma Times(a: nat, b: nat, k: nat)
    requires a <= b
    ensures a * k <= b * k
  {
  }

  lemma OffsetStep(l: Layout, b: nat)
    requires b < l.blocks
    ensures l.Offset(b) + l.Length(b) == l.Offset(b + 1) <= l.DataLength()
  {
    Times(b + 1, l.blocks, l.shortLength);
  }

  lemma DataPlaceFits(l: Layout, c: nat, b: nat)
    requires b < l.blocks && c < l.Length(b) && l.shortBlocks <= l.blocks
    ensures l.DataPlace(c, b) < l.DataLength()
  {
    if c < l.shortLength { Times(c + 1, l.shortLength, l.blocks); }
  }

  lemma EccPlaceFits(l: Layout, e: nat, b: nat)
    requires b < l.blocks && e < l.ecc
    ensures l.EccPlace(e, b) < l.DataLength() + l.ecc * l.blocks
  {
    Times(e + 1, l.ecc, l.blocks);
  }

  lemma DataPlaceStep(l: Layout, c: nat, b: nat)
    requires c <= l.shortLength && b < l.blocks
    ensures l.DataPlace(c, b + 1) == l.DataPlace(c, b) + (if c < l.Length(b) then 1 else 0)
  {
  }

  lemma DataRowEnd(l: Layout, c: nat)
    requires c <= l.shortLength && l.shortBlocks <= l.blocks
    ensures l.DataPlace(c, l.blocks) == if c < l.shortLength then l.DataPlace(c + 1, 0) else l.DataLength()
    ensures l.DataPlace(0, 0) == 0
  {
    if l.shortLength == 0 { assert l.shortLength * l.blocks == 0; }
  }

  // ----- the blocks of the data ---------------------------------------------------------------------

  function Block(data: Poly, l: Layout, b: nat): (r: Poly)
    requires |data| == l.DataLength() && b < l.blocks
    ensures |r| == l.Length(b)
  {
    OffsetStep(l, b);
    data[l.Offset(b)..l.Offset(b) + l.Length(b)]
  }

  /** Block b as a reader collects it from the symbol: its data symbols, then its error-correction symbols. */
  function ReceivedBlock(codewords: seq<byte>, l: Layout, b: nat): (r: Poly)
    requires l.shortBlocks <= l.blocks && b < l.blocks
    requires |codewords| == l.DataLength() + l.ecc * l.blocks
    ensures |r| == l.Length(b) + l.ecc
  {
    seq(l.Length(b) + l.ecc, i requires 0 <= i < l.Length(b) + l.ecc =>
      if i < l.Length(b) then
        DataPlaceFits(l, i, b);
        codewords[l.DataPlace(i, b)]
      else
        EccPlaceFits(l, i - l.Length(b), b);
        codewords[l.EccPlace(i - l.Length(b), b)])
  }

  /** The data symbols of the first n blocks, joined. */
  function ReceivedData(codewords: seq<byte>, l: Layout, n: nat): (r: Poly)
    requires l.shortBlocks <= l.blocks && n <= l.blocks
    requires |codewords| == l.DataLength() + l.ecc * l.blocks
    ensures |r| == l.Offset(n)
  {
    if n == 0 then []
    else
      OffsetStep(l, n - 1);
      ReceivedData(codewords, l, n - 1) + ReceivedBlock(codewords, l, n - 1)[..l.Length(n - 1)]
  }

  /** The codewords carry the data, block by block, each block followed by its remainder. */
  ghost predicate Interleaves(codewords: seq<byte>, data: Poly, l: Layout) {
    && l.shortBlocks <= l.blocks
    && |data| == l.DataLength()
    && |codewords| == l.DataLength() + l.ecc * l.blocks
    && l.ecc > 0
    && forall b: nat :: b < l.blocks ==>
      ReceivedBlock(codewords, l, b) == Block(data, l, b) + Remainder(Block(data, l, b), Divisor(l.ecc))
  }

  lemma {:induction false} CollectsData(codewords: seq<byte>, data: Poly, l: Layout, n: nat)
    requires Interleaves(codewords, data, l) && n <= l.blocks
    ensures l.Offset(n) <= |data|
    ensures ReceivedData(codewords, l, n) == data[..l.Offset(n)]
  {
    hide Divisor, Remainder, ReceivedBlock;
    if n > 0 {
      CollectsData(codewords, data, l, n - 1);
      OffsetStep(l, n - 1);
      assert ReceivedBlock(codewords, l, n - 1)[..l.Length(n - 1)] == Block(data, l, n - 1);
    }
  }

  /** De-interleaving gives the data back, and every block is a codeword. */
  lemma Deinterleave(codewords: seq<byte>, data: Poly, l: Layout)
    requires Interleaves(codewords, data, l)
    ensures ReceivedData(codewords, l, l.blocks) == data
    ensures forall b: nat :: b < l.blocks ==> IsCodeword(ReceivedBlock(codewords, l, b), l.ecc)
  {
    CollectsData(codewords, data, l, l.blocks);
    assert data[..l.Offset(l.blocks)] == data;
    forall b: nat | b < l.blocks ensures IsCodeword(ReceivedBlock(codewords, l, b), l.ecc) {
      RemainderRoots(Block(data, l, b), l.ecc);
    }
  }

  // ----- building -----------------------------------------------------------------------------------------

  method SplitBlocks(data: Poly, l: Layout) returns (dataBlocks: seq<Poly>, eccBlocks: seq<Poly>)
    requires |data| == l.DataLength() && l.ecc > 0
    ensures |dataBlocks| == |eccBlocks| == l.blocks
    ensures forall b :: 0 <= b < l.blocks ==> dataBlocks[b] == Block(data, l, b)
    ensures forall b :: 0 <= b < l.blocks ==> eccBlocks[b] == Remainder(Block(data, l, b), Divisor(l.ecc))
  {
    hide Remainder, Divisor;
    var divisor := ReedSolomonDivisor(l.ecc);
    dataBlocks, eccBlocks := [], [];
    var offset := 0;
    var b := 0;
    while b < l.blocks
      invariant b <= l.blocks
      invariant offset == l.Offset(b)
      invariant divisor[..] == Divisor(l.ecc)
      invariant |dataBlocks| == |eccBlocks| == b
      invariant forall t :: 0 <= t < b ==> dataBlocks[t] == Block(data, l, t)
      invariant forall t :: 0 <= t < b ==> eccBlocks[t] == Remainder(Block(data, l, t), Divisor(l.ecc))
    {
      OffsetStep(l, b);
      var length := l.shortLength + (if b < l.shortBlocks then 0 else 1);
      var block := data[offset..offset + length];
      offset := offset + length;
      var remainder := ReedSolomonRemainder(block, divisor);
      dataBlocks := dataBlocks + [block];
      eccBlocks := eccBlocks + [remainder];
      b := b + 1;
    }
  }

  ghost predicate DataWritten(result: seq<byte>, blocks: seq<Poly>, l: Layout, c: nat, b: nat)
    requires |blocks| == l.blocks
    requires forall t :: 0 <= t < l.blocks ==> |blocks[t]| == l.Length(t)
  {
    b < l.blocks && c < l.Length(b) ==>
      l.DataPlace(c, b) < |result| && result[l.DataPlace(c, b)] == blocks[b][c]
  }

  method WriteData(blocks: seq<Poly>, l: Layout) returns (result: seq<byte>)
    requires |blocks| == l.blocks && l.shortBlocks <= l.blocks
    requires forall t :: 0 <= t < l.blocks ==> |blocks[t]| == l.Length(t)
    ensures |result| == l.DataLength()
    ensures forall c: nat, b: nat :: c <= l.shortLength ==> DataWritten(result, blocks, l, c, b)
  {
    result := [];
    var column := 0;
    DataRowEnd(l, 0);
    while column <= l.shortLength
      invariant column <= l.shortLength + 1
      invariant |result| == if column <= l.shortLength then l.DataPlace(column, 0) else l.DataLength()
      invariant forall c: nat, b: nat :: c < column ==> DataWritten(result, blocks, l, c, b)
    {
      result := WriteColumn(result, blocks, l, column);
      column := column + 1;
    }
  }

  method WriteColumn(start: seq<byte>, blocks: seq<Poly>, l: Layout, column: nat) returns (result: seq<byte>)
    requires |blocks| == l.blocks && l.shortBlocks <= l.blocks && column <= l.shortLength
    requires forall t :: 0 <= t < l.blocks ==> |blocks[t]| == l.Length(t)
    requires |start| == l.DataPlace(column, 0)
    requires forall c: nat, b: nat :: c < column ==> DataWritten(start, blocks, l, c, b)
    ensures |result| == if column < l.shortLength then l.DataPlace(column + 1, 0) else l.DataLength()
    ensures forall c: nat, b: nat :: c <= column ==> DataWritten(result, blocks, l, c, b)
  {
    result := start;
    var b := 0;
    DataRowEnd(l, column);
    while b < l.blocks
      invariant b <= l.blocks
      invariant |result| == l.DataPlace(column, b)
      invariant start <= result
      invariant forall t: nat :: t < b ==> DataWritten(result, blocks, l, column, t)
    {
      ghost var before := result;
      DataPlaceStep(l, column, b);
      if column < |blocks[b]| { result := result + [blocks[b][column]]; }
      forall t: nat | t < b ensures DataWritten(result, blocks, l, column, t) {
        assert DataWritten(before, blocks, l, column, t);
      }
      b := b + 1;
    }
    forall c: nat, t: nat | c < column ensures DataWritten(result, blocks, l, c, t) {
      assert DataWritten(start, blocks, l, c, t);
    }
  }

  ghost predicate EccWritten(result: seq<byte>, blocks: seq<Poly>, l: Layout, e: nat, b: nat) {
    b < |blocks| && e < |blocks[b]| ==> l.EccPlace(e, b) < |result| && result[l.EccPlace(e, b)] == blocks[b][e]
  }

  lemma EccRowEnd(l: Layout, e: nat)
    ensures l.EccPlace(e, l.blocks) == l.EccPlace(e + 1, 0)
  {
  }

  method WriteEccRow(start: seq<byte>, blocks: seq<Poly>, l: Layout, e: nat) returns (result: seq<byte>)
    requires |blocks| == l.blocks && e < l.ecc && |start| == l.EccPlace(e, 0)
    requires forall t :: 0 <= t < l.blocks ==> |blocks[t]| == l.ecc
    requires forall f: nat, t: nat :: f < e ==> EccWritten(start, blocks, l, f, t)
    ensures |result| == l.EccPlace(e + 1, 0) && start <= result
    ensures forall f: nat, t: nat :: f < e + 1 ==> EccWritten(result, blocks, l, f, t)
  {
    result := start;
    var b := 0;
    while b < l.blocks
      invariant b <= l.blocks
      invariant |result| == l.EccPlace(e, b)
      invariant start <= result
      invariant forall t: nat :: t < b ==> EccWritten(result, blocks, l, e, t)
    {
      ghost var before := result;
      result := result + [blocks[b][e]];
      forall t: nat | t < b ensures EccWritten(result, blocks, l, e, t) {
        assert EccWritten(before, blocks, l, e, t);
      }
      b := b + 1;
    }
    EccRowEnd(l, e);
    forall f: nat, t: nat | f < e ensures EccWritten(result, blocks, l, f, t) {
      assert EccWritten(start, blocks, l, f, t);
    }
  }

  method WriteEcc(data: seq<byte>, blocks: seq<Poly>, l: Layout) returns (result: seq<byte>)
    requires |blocks| == l.blocks && |data| == l.DataLength()
    requires forall t :: 0 <= t < l.blocks ==> |blocks[t]| == l.ecc
    ensures |result| == l.DataLength() + l.ecc * l.blocks
    ensures data <= result
    ensures forall e: nat, b: nat :: e < l.ecc ==> EccWritten(result, blocks, l, e, b)
  {
    hide EccWritten;
    result := data;
    var e := 0;
    while e < l.ecc
      invariant e <= l.ecc
      invariant |result| == l.EccPlace(e, 0)
      invariant data <= result
      invariant forall f: nat, t: nat :: f < e ==> EccWritten(result, blocks, l, f, t)
    {
      result := WriteEccRow(result, blocks, l, e);
      e := e + 1;
    }
  }

  method Interleave(data: Poly, l: Layout) returns (codewords: seq<byte>)
    requires l.Valid() && |data| == l.DataLength()
    ensures Interleaves(codewords, data, l)
  {
    var dataBlocks, eccBlocks := SplitBlocks(data, l);
    hide Remainder, Divisor;
    var written := WriteData(dataBlocks, l);
    codewords := WriteEcc(written, eccBlocks, l);
    forall b: nat | b < l.blocks
      ensures ReceivedBlock(codewords, l, b) == dataBlocks[b] + eccBlocks[b]
    {
      WrittenBlock(written, codewords, dataBlocks, eccBlocks, l, b);
    }
  }

  lemma WrittenBlock(written: seq<byte>, codewords: seq<byte>, dataBlocks: seq<Poly>, eccBlocks: seq<Poly>, l: Layout, b: nat)
    requires b < l.blocks == |dataBlocks| == |eccBlocks| && l.shortBlocks <= l.blocks
    requires forall t :: 0 <= t < l.blocks ==> |dataBlocks[t]| == l.Length(t) && |eccBlocks[t]| == l.ecc
    requires |written| == l.DataLength() && written <= codewords
    requires |codewords| == l.DataLength() + l.ecc * l.blocks
    requires forall c: nat, t: nat :: c <= l.shortLength ==> DataWritten(written, dataBlocks, l, c, t)
    requires forall e: nat, t: nat :: e < l.ecc ==> EccWritten(codewords, eccBlocks, l, e, t)
    ensures ReceivedBlock(codewords, l, b) == dataBlocks[b] + eccBlocks[b]
  {
    var received := ReceivedBlock(codewords, l, b);
    var length := l.Length(b);
    forall i: nat | i < length ensures received[i] == dataBlocks[b][i] {
      assert DataWritten(written, dataBlocks, l, i, b);
    }
    forall e: nat | e < l.ecc ensures received[length + e] == eccBlocks[b][e] {
      assert EccWritten(codewords, eccBlocks, l, e, b);
    }
    assert received == dataBlocks[b] + eccBlocks[b];
  }
}
