/** Placing the codewords along the zigzag, and masking (`drawCodewords`, `applyMask`, design/assets/qrcode.js). */
module Placement {
  import opened BitOps
  import opened Gf256
  import opened Message
  import opened Zigzag
  import opened Symbol

  lemma {:induction false} BitRowAt(value: nat, n: nat, k: nat)
    requires k < n
    ensures BitRow(value, n)[k] == (Shr(value, n - 1 - k) % 2 == 1)
  {
    if k == n - 1 {
    } else {
      BitRowAt(value / 2, n - 1, k);
      ShrHalfFirst(value, n - 1 - k);
    }
  }

  lemma {:induction false} ShrHalfFirst(value: nat, n: nat)
    requires n > 0
    ensures Shr(value, n) == Shr(value / 2, n - 1)
  {
    if n > 1 { ShrHalf(value, n - 1); ShrHalf(value / 2, n - 2); ShrHalfFirst(value, n - 1); } else { ShrHalf(value, 0); }
  }

  /** The bit that `drawCodewords` extracts is the bit of the stream. */
  lemma StreamBit(codewords: seq<byte>, i: nat)
    requires i < 8 * |codewords|
    ensures ByteBits(codewords)[i] == (Shr(codewords[i / 8], 7 - i % 8) % 2 == 1)
  {
    hide BitRow, ByteBits, Shr;
    ByteBitsAt(codewords, i / 8);
    BitRowAt(codewords[i / 8], 8, i % 8);
    assert ByteBits(codewords)[8 * (i / 8)..8 * (i / 8) + 8][i % 8] == ByteBits(codewords)[i];
  }

  function Least(a: int, b: int): int { if a < b then a else b }

  lemma PlacedStep(g: Grid, reserved: Grid, cells: seq<Cell>, c: Cell, bits: seq<bool>)
    requires Within(cells + [c], g)
    requires Within(cells + [c], reserved)
    ensures Within(cells, g) && Within(cells, reserved)
    ensures var k := FreeCount(reserved, cells);
      var before := Placed(g, reserved, cells, bits);
      && FreeCount(reserved, cells + [c]) == k + (if At(reserved, c) then 0 else 1)
      && Placed(g, reserved, cells + [c], bits)
         == if At(reserved, c) || k >= |bits| then before else Put(before, c, bits[k])
  {
    assert c in cells + [c];
    forall d | d in cells ensures d in cells + [c] { }
    assert (cells + [c])[..|cells|] == cells;
  }

  lemma WithinSquare(cells: seq<Cell>, g: Grid, size: nat)
    requires Square(g, size) && forall c :: c in cells ==> Inside(c, size)
    ensures Within(cells, g)
  {
  }

  /** The modules and the index after the given part of the walk. */
  ghost predicate PlacedUpTo(g: Grid, modules: Grid, reserved: Grid, size: nat, done: seq<Cell>, bits: seq<bool>, index: nat) {
    && Square(g, size) && Square(modules, size) && Square(reserved, size) && (forall c :: c in done ==> Inside(c, size))
    && (WithinSquare(done, g, size); WithinSquare(done, reserved, size);
        modules == Placed(g, reserved, done, bits) && index == Least(FreeCount(reserved, done), |bits|))
  }

  lemma PlacedStart(g: Grid, reserved: Grid, size: nat, bits: seq<bool>)
    requires Square(g, size) && Square(reserved, size)
    ensures PlacedUpTo(g, g, reserved, size, [], bits, 0)
  {
  }

  lemma PlacedEnd(g: Grid, modules: Grid, reserved: Grid, size: nat, done: seq<Cell>, bits: seq<bool>, index: nat)
    requires PlacedUpTo(g, modules, reserved, size, done, bits, index)
    ensures Square(g, size) && Square(modules, size) && Square(reserved, size)
    ensures Within(done, g) && Within(done, reserved)
    ensures modules == Placed(g, reserved, done, bits)
  {
    WithinSquare(done, g, size);
    WithinSquare(done, reserved, size);
  }

  lemma PlacedNext(g: Grid, modules: Grid, reserved: Grid, size: nat, done: seq<Cell>, bits: seq<bool>, index: nat, c: Cell)
    requires PlacedUpTo(g, modules, reserved, size, done, bits, index) && Inside(c, size)
    ensures index < |bits| && !At(reserved, c) ==> PlacedUpTo(g, Put(modules, c, bits[index]), reserved, size, done + [c], bits, index + 1)
    ensures index >= |bits| || At(reserved, c) ==> PlacedUpTo(g, modules, reserved, size, done + [c], bits, index)
  {
    WithinSquare(done, g, size);
    WithinSquare(done, reserved, size);
    WithinSquare(done + [c], g, size);
    WithinSquare(done + [c], reserved, size);
    PlacedStep(g, reserved, done, c, bits);
    hide Placed, FreeCount, Within;
  }

  /** The body of the innermost loop. */
  method PlaceOne(m: Matrix, codewords: seq<byte>, x: nat, y: nat, index: nat, ghost g: Grid, ghost done: seq<Cell>) returns (next: nat)
    requires m.Valid() && x < m.size && y < m.size
    requires PlacedUpTo(g, m.modules, m.reserved, m.size, done, ByteBits(codewords), index)
    modifies m`modules
    ensures m.Valid() && PlacedUpTo(g, m.modules, m.reserved, m.size, done + [Cell(x, y)], ByteBits(codewords), next)
  {
    hide ByteBits, Shr, PlacedUpTo;
    PlacedNext(g, m.modules, m.reserved, m.size, done, ByteBits(codewords), index, Cell(x, y));
    if m.reserved[y][x] || index >= |codewords| * 8 {
      next := index;
    } else {
      StreamBit(codewords, index);
      m.modules := Put(m.modules, Cell(x, y), Shr(codewords[index / 8], 7 - index % 8) % 2 == 1);
      next := index + 1;
    }
  }

  lemma StripsStart(done: seq<Cell>, right: int, size: nat)
    requires right >= 1 && StripStart(right)
    ensures var r := if right == 6 then 5 else right;
      && StripStart(r - 2) && StripStart(r)
      && done + Strips(right, size) == (done + Strip(r, size)) + Strips(r - 2, size)
  {
    hide Strip;
  }

  /** `drawCodewords` */
  method DrawCodewords(m: Matrix, codewords: seq<byte>)
    requires m.Valid() && m.size % 2 == 1
    modifies m`modules
    ensures m.Valid() && Within(Walk(m.size), m.reserved) && Within(Walk(m.size), old(m.modules))
    ensures m.modules == Placed(old(m.modules), m.reserved, Walk(m.size), ByteBits(codewords))
  {
    ghost var g := m.modules;
    ghost var done: seq<Cell> := [];
    PlacedStart(g, m.reserved, m.size, ByteBits(codewords));
    assert done + Strips(m.size - 1, m.size) == Walk(m.size);
    hide ByteBits, PlacedUpTo, Strip, Strips, Walk, Placed, Within, Part;
    var index: nat := 0;
    var right := m.size - 1;
    while right >= 1
      invariant m.Valid() && StripStart(right) && -1 <= right < m.size
      invariant done + Strips(right, m.size) == Walk(m.size)
      invariant PlacedUpTo(g, m.modules, m.reserved, m.size, done, ByteBits(codewords), index)
      decreases right
    {
      StripsStart(done, right, m.size);
      if right == 6 { right := 5; }
      PartEnds(done, right, m.size);
      index := DrawStrip(m, codewords, right, index, g, done);
      done := done + Strip(right, m.size);
      right := right - 2;
    }
    NoStrips(done, right, m.size);
    PlacedEnd(g, m.modules, m.reserved, m.size, done, ByteBits(codewords), index);
  }

  lemma NoStrips(done: seq<Cell>, right: int, size: nat)
    requires right < 1
    ensures done + Strips(right, size) == done
  {
  }

  /** The walk so far, then the first k cells of a strip. */
  ghost function Part(done: seq<Cell>, right: nat, size: nat, k: nat): seq<Cell>
    requires right > 0 && k <= 2 * size
  {
    done + Strip(right, size)[..k]
  }

  lemma PartEnds(done: seq<Cell>, right: nat, size: nat)
    requires right > 0
    ensures Part(done, right, size, 0) == done
    ensures Part(done, right, size, 2 * size) == done + Strip(right, size)
  {
  }

  lemma PartNext(done: seq<Cell>, right: nat, size: nat, vertical: nat, j: nat)
    requires 1 <= right && vertical < size && j < 2
    ensures var k := 2 * vertical + j;
      var y := if Upward(right) then size - 1 - vertical else vertical;
      Part(done, right, size, k + 1) == Part(done, right, size, k) + [Cell(right - j, y)]
  {
    var k := 2 * vertical + j;
    assert Strip(right, size)[..k + 1] == Strip(right, size)[..k] + [Strip(right, size)[k]];
  }

  /** One row of a strip, right cell first. */
  method DrawRow(m: Matrix, codewords: seq<byte>, right: nat, vertical: nat, start: nat, ghost g: Grid, ghost done: seq<Cell>) returns (index: nat)
    requires m.Valid() && 1 <= right < m.size && vertical < m.size
    requires PlacedUpTo(g, m.modules, m.reserved, m.size, Part(done, right, m.size, 2 * vertical), ByteBits(codewords), start)
    modifies m`modules
    ensures m.Valid()
    ensures PlacedUpTo(g, m.modules, m.reserved, m.size, Part(done, right, m.size, 2 * vertical + 2), ByteBits(codewords), index)
  {
    hide ByteBits, PlacedUpTo, Strip, Part, Upward, Square;
    index := start;
    var j := 0;
    while j < 2
      invariant j <= 2 && m.Valid()
      invariant PlacedUpTo(g, m.modules, m.reserved, m.size, Part(done, right, m.size, 2 * vertical + j), ByteBits(codewords), index)
    {
      var x := right - j;
      var upward := Upward(right);
      var y := if upward then m.size - 1 - vertical else vertical;
      PartNext(done, right, m.size, vertical, j);
      index := PlaceOne(m, codewords, x, y, index, g, Part(done, right, m.size, 2 * vertical + j));
      j := j + 1;
    }
  }

  /** Both columns of a strip, row by row. */
  method DrawStrip(m: Matrix, codewords: seq<byte>, right: nat, start: nat, ghost g: Grid, ghost done: seq<Cell>) returns (index: nat)
    requires m.Valid() && 1 <= right < m.size
    requires PlacedUpTo(g, m.modules, m.reserved, m.size, done, ByteBits(codewords), start)
    modifies m`modules
    ensures m.Valid() && PlacedUpTo(g, m.modules, m.reserved, m.size, Part(done, right, m.size, 2 * m.size), ByteBits(codewords), index)
  {
    hide ByteBits, PlacedUpTo, Strip, Part, Square;
    PartEnds(done, right, m.size);
    index := start;
    var vertical := 0;
    ghost var k := 0;
    while vertical < m.size
      invariant vertical <= m.size && m.Valid() && k == 2 * vertical
      invariant PlacedUpTo(g, m.modules, m.reserved, m.size, Part(done, right, m.size, k), ByteBits(codewords), index)
    {
      index := DrawRow(m, codewords, right, vertical, index, g, done);
      k := k + 2;
      vertical := vertical + 1;
    }
  }

  // ----- masks -----------------------------------------------------------------------------------------------------

  /** h is g with the free cells flipped that the mask applies to. */
  ghost predicate Masked(g: Grid, h: Grid, reserved: Grid, size: nat, mask: nat) {
    && Square(g, size) && Square(h, size) && Square(reserved, size)
    && forall c: Cell :: Inside(c, size) ==> At(h, c) == (At(g, c) != (!At(reserved, c) && MaskApplies(mask, c.x, c.y)))
  }

  ghost predicate MaskedBefore(g: Grid, h: Grid, reserved: Grid, size: nat, mask: nat, x: nat, y: nat) {
    && Square(g, size) && Square(h, size) && Square(reserved, size)
    && forall c: Cell :: Inside(c, size) ==>
      At(h, c) == (At(g, c) != (Before(c, x, y) && !At(reserved, c) && MaskApplies(mask, c.x, c.y)))
  }

  /** `applyMask` */
  method ApplyMask(m: Matrix, mask: nat)
    requires m.Valid()
    modifies m`modules
    ensures Masked(old(m.modules), m.modules, m.reserved, m.size, mask)
  {
    hide MaskApplies;
    ghost var g := m.modules;
    var y := 0;
    while y < m.size
      invariant y <= m.size
      invariant MaskedBefore(g, m.modules, m.reserved, m.size, mask, 0, y)
    {
      var x := 0;
      while x < m.size
        invariant x <= m.size
        invariant MaskedBefore(g, m.modules, m.reserved, m.size, mask, x, y)
      {
        if !m.reserved[y][x] && MaskApplies(mask, x, y) { m.modules := Put(m.modules, Cell(x, y), !m.modules[y][x]); }
        x := x + 1;
      }
      y := y + 1;
    }
  }

  /** Masking twice with the same mask changes nothing. */
  lemma MaskTwice(g: Grid, h: Grid, k: Grid, reserved: Grid, size: nat, mask: nat)
    requires Masked(g, h, reserved, size, mask) && Masked(h, k, reserved, size, mask)
    ensures k == g
  {
    hide MaskApplies;
    forall y, x | 0 <= y < size && 0 <= x < size ensures k[y][x] == g[y][x] {
      assert Inside(Cell(x, y), size);
      assert At(k, Cell(x, y)) == At(g, Cell(x, y));
    }
    forall y | 0 <= y < size ensures k[y] == g[y] { }
  }
}
