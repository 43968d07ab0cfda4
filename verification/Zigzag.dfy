/** The zigzag over the symbol along which the codeword bits are placed (`drawCodewords`, design/assets/qrcode.js). */
module Zigzag {

  /** modules[y][x]; true is dark. */
  type Grid = seq<seq<bool>>

  ghost predicate Square(g: Grid, size: nat) {
    |g| == size && forall y :: 0 <= y < size ==> |g[y]| == size
  }

  datatype Cell = Cell(x: nat, y: nat)

  predicate Inside(c: Cell, size: nat) { c.x < size && c.y < size }

  function At(g: Grid, c: Cell): bool
    requires c.y < |g| && c.x < |g[c.y]|
  {
    g[c.y][c.x]
  }

  ghost predicate Within(cells: seq<Cell>, g: Grid) {
    forall c :: c in cells ==> c.y < |g| && c.x < |g[c.y]|
  }

  function Put(g: Grid, c: Cell, v: bool): Grid
    requires c.y < |g| && c.x < |g[c.y]|
  {
    g[c.y := g[c.y][c.x := v]]
  }

  // ----- the walk -------------------------------------------------------------------------------------------

  function Upward(right: nat): bool { (right + 1) / 2 % 2 == 0 }

  /** The k-th cell of the strip of columns right and right - 1. */
  function StripCell(right: nat, size: nat, k: nat): Cell
    requires right > 0 && k < 2 * size
  {
    Cell(right - k % 2, if Upward(right) then size - 1 - k / 2 else k / 2)
  }

  function Strip(right: nat, size: nat): (s: seq<Cell>)
    requires right > 0
    ensures |s| == 2 * size
    ensures forall k :: 0 <= k < 2 * size ==> s[k] == StripCell(right, size, k)
  {
    seq(2 * size, k requires 0 <= k < 2 * size => StripCell(right, size, k))
  }

  /** All strips from column `right` to the left; column 6 is jumped. */
  function Strips(right: int, size: nat): seq<Cell>
    decreases right
  {
    if right < 1 then []
    else
      var r := if right == 6 then 5 else right;
      Strip(r, size) + Strips(r - 2, size)
  }

  function Walk(size: nat): seq<Cell> { Strips(size - 1, size) }

  ghost predicate Distinct(s: seq<Cell>) { forall i, j :: 0 <= i < j < |s| ==> s[i] != s[j] }

  /** The values `right` takes: even down to 6, odd from 5 on. */
  ghost predicate StripStart(right: int) { right % 2 == if right > 5 then 0 else 1 }

  lemma StripFacts(right: nat, size: nat)
    requires right > 0
    ensures Distinct(Strip(right, size))
    ensures forall c: Cell :: c in Strip(right, size) <==> (right - 1 <= c.x <= right && c.y < size)
  {
    forall c: Cell | right - 1 <= c.x <= right && c.y < size ensures c in Strip(right, size) {
      var k := 2 * (if Upward(right) then size - 1 - c.y else c.y) + (right - c.x);
      assert Strip(right, size)[k] == c;
    }
  }

  lemma DistinctConcat(a: seq<Cell>, b: seq<Cell>)
    requires Distinct(a) && Distinct(b) && forall c :: c in a ==> c !in b
    ensures Distinct(a + b)
  {
    forall i, j | 0 <= i < j < |a + b| ensures (a + b)[i] != (a + b)[j] {
      if i < |a| <= j {
        assert a[i] in a && b[j - |a|] in b;
      }
    }
  }

  /** Every cell outside column 6 is visited exactly once, and no other. */
  lemma {:induction false} StripsFacts(right: int, size: nat)
    requires StripStart(right)
    ensures Distinct(Strips(right, size))
    ensures forall c: Cell :: c in Strips(right, size) <==> (c.x <= right && c.x != 6 && c.y < size)
    decreases right
  {
    hide Distinct, Strip;
    if right < 1 {
      NoneDistinct();
    } else {
      var r := if right == 6 then 5 else right;
      var first, rest := Strip(r, size), Strips(r - 2, size);
      StripFacts(r, size);
      StripsFacts(r - 2, size);
      assert Strips(right, size) == first + rest;
      DistinctConcat(first, rest);
    }
  }

  lemma NoneDistinct()
    ensures Distinct([])
  {
  }

  lemma WalkFacts(size: nat)
    requires size % 2 == 1 && size > 6
    ensures Distinct(Walk(size))
    ensures forall c: Cell :: c in Walk(size) <==> (Inside(c, size) && c.x != 6)
  {
    StripsFacts(size - 1, size);
  }

  // ----- placing and reading ----------------------------------------------------------------------------------

  /** How many of the cells are not reserved. */
  function FreeCount(reserved: Grid, cells: seq<Cell>): (n: nat)
    requires Within(cells, reserved)
    ensures n <= |cells|
  {
    if cells == [] then 0
    else
      var n := |cells| - 1;
      FreeCount(reserved, cells[..n]) + (if At(reserved, cells[n]) then 0 else 1)
  }

  /** Bits written one after the other into the free cells, until either runs out. */
  function Placed(g: Grid, reserved: Grid, cells: seq<Cell>, bits: seq<bool>): (r: Grid)
    requires Within(cells, g)
    requires Within(cells, reserved)
    ensures |r| == |g| && forall y :: 0 <= y < |g| ==> |r[y]| == |g[y]|
  {
    if cells == [] then g
    else
      var n := |cells| - 1;
      var before := Placed(g, reserved, cells[..n], bits);
      var k := FreeCount(reserved, cells[..n]);
      if At(reserved, cells[n]) || k >= |bits| then before else Put(before, cells[n], bits[k])
  }

  /** What a reader collects from the free cells. */
  function Collected(g: Grid, reserved: Grid, cells: seq<Cell>): (r: seq<bool>)
    requires Within(cells, g)
    requires Within(cells, reserved)
    ensures |r| == FreeCount(reserved, cells)
  {
    if cells == [] then []
    else
      var n := |cells| - 1;
      Collected(g, reserved, cells[..n]) + (if At(reserved, cells[n]) then [] else [At(g, cells[n])])
  }

  lemma {:induction false} CollectedAgree(g: Grid, h: Grid, reserved: Grid, cells: seq<Cell>)
    requires Within(cells, g)
    requires Within(cells, h)
    requires Within(cells, reserved)
    requires forall c :: c in cells && !At(reserved, c) ==> At(g, c) == At(h, c)
    ensures Collected(g, reserved, cells) == Collected(h, reserved, cells)
  {
    if cells != [] { CollectedAgree(g, h, reserved, cells[..|cells| - 1]); }
  }

  /** Reading along the same cells gives back the bits that found room. */
  lemma {:induction false} CollectPlaced(g: Grid, reserved: Grid, cells: seq<Cell>, bits: seq<bool>)
    requires Within(cells, g)
    requires Within(cells, reserved)
    requires Distinct(cells)
    ensures var n := FreeCount(reserved, cells);
      var room := if n < |bits| then n else |bits|;
      Collected(Placed(g, reserved, cells, bits), reserved, cells)[..room] == bits[..room]
  {
    hide At, Put;
    if cells != [] {
      var m := |cells| - 1;
      CollectPlaced(g, reserved, cells[..m], bits);
      CollectLast(g, reserved, cells, bits);
    }
  }

  /** The last cell keeps what the others hold, and takes its bit when it is free. */
  lemma CollectLast(g: Grid, reserved: Grid, cells: seq<Cell>, bits: seq<bool>)
    requires Within(cells, g)
    requires Within(cells, reserved)
    requires Distinct(cells) && cells != []
    ensures var m := |cells| - 1;
      var k := FreeCount(reserved, cells[..m]);
      var before := Collected(Placed(g, reserved, cells[..m], bits), reserved, cells[..m]);
      var after := Collected(Placed(g, reserved, cells, bits), reserved, cells);
      && |before| == k
      && (At(reserved, cells[m]) ==> after == before)
      && (!At(reserved, cells[m]) ==> |after| == k + 1 && after[..k] == before && (k < |bits| ==> after[k] == bits[k]))
  {
    hide At, Put;
    var m := |cells| - 1;
    var before, after := Placed(g, reserved, cells[..m], bits), Placed(g, reserved, cells, bits);
    PutFrame(before, cells[..m], cells[m]);
    CollectedAgree(before, after, reserved, cells[..m]);
  }

  lemma PutFrame(g: Grid, cells: seq<Cell>, c: Cell)
    requires Within(cells, g) && Within([c], g) && c !in cells
    ensures forall v: bool :: (forall d | d in cells :: Within([d], Put(g, c, v)) && At(Put(g, c, v), d) == At(g, d)) && At(Put(g, c, v), c) == v
  {
  }

  /** Placing changes free cells of the walk only. */
  lemma {:induction false} PlacedFrame(g: Grid, reserved: Grid, cells: seq<Cell>, bits: seq<bool>, c: Cell)
    requires Within(cells, g)
    requires Within(cells, reserved)
    requires c.y < |g| && c.x < |g[c.y]| && c.y < |reserved| && c.x < |reserved[c.y]|
    requires At(reserved, c) || c !in cells
    ensures At(Placed(g, reserved, cells, bits), c) == At(g, c)
  {
    if cells != [] { PlacedFrame(g, reserved, cells[..|cells| - 1], bits, c); }
  }
}
