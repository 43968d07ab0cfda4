/** Drawing the function patterns of an empty symbol (`alignmentPositions`, `createMatrix`, design/assets/qrcode.js). */
module Create {
  import opened QrTables
  import opened Zigzag
  import opened Patterns
  import opened Symbol

  /** The positions inserted so far, from the far end of the symbol. */
  ghost predicate Inserted(positions: seq<nat>, last: int, step: int) {
    && 1 <= |positions| <= 4
    && (|positions| == 1 ==> positions == [6])
    && (|positions| == 2 ==> positions == [6, last])
    && (|positions| == 3 ==> positions == [6, last - step, last])
    && (|positions| == 4 ==> positions == [6, last - 2 * step, last - step, last])
  }

  lemma InsertSecond(positions: seq<nat>, position: nat, last: int, step: int)
    requires Inserted(positions, last, step) && |positions| < 4
    requires position == last - (|positions| - 1) * step
    ensures Inserted(positions[..1] + [position] + positions[1..], last, step)
  {
    var next := positions[..1] + [position] + positions[1..];
    assert |next| == |positions| + 1 && next[0] == 6 && next[1] == position;
    assert forall i :: 2 <= i < |next| ==> next[i] == positions[i - 1];
  }

  /** The inserting loop of `alignmentPositions` yields the positions in ascending order. */
  method ComputeAlignment(version: Version) returns (positions: seq<nat>)
    ensures positions == AlignmentPositions(version)
  {
    hide Inserted, AlignmentPositions;
    if version == 1 {
      AlignmentTable(version, [], 0, 0);
      return [];
    }
    AlignmentStep(version);
    var count := version / 7 + 2;
    var step := (version * 8 + count * 3 + 5) / (count * 4 - 4) * 2;
    ghost var last := version * 4 + 10;
    positions := [6];
    FirstInserted(last, step);
    var position := version * 4 + 10;
    while |positions| < count
      invariant 1 <= |positions| <= count <= 4
      invariant position == last - (|positions| - 1) * step
      invariant Inserted(positions, last, step)
    {
      StepsLeft(|positions| - 1, count - 1, step, last);
      InsertSecond(positions, position, last, step);
      positions := positions[..1] + [position] + positions[1..];
      position := position - step;
    }
    AlignmentTable(version, positions, last, step);
  }

  lemma FirstInserted(last: int, step: int)
    ensures Inserted([6], last, step)
  {
  }

  lemma StepsLeft(n: nat, count: nat, step: nat, last: int)
    requires n <= count && last >= count * step
    ensures last - n * step >= 0 && last - n * step - step == last - (n + 1) * step
  {
    assert count * step == n * step + (count - n) * step;
  }

  lemma AlignmentTable(version: Version, positions: seq<nat>, last: int, step: int)
    requires if version == 1 then positions == []
      else
        && |positions| == version / 7 + 2 && Inserted(positions, last, step) && last == version * 4 + 10
        && step == (version * 8 + |positions| * 3 + 5) / (|positions| * 4 - 4) * 2
    ensures positions == AlignmentPositions(version)
  {
    if version == 1 {
    } else if version < 7 {
      assert version / 7 == 0;
    } else if version < 14 {
      assert version / 7 == 1;
    } else {
      assert version / 7 == 2;
    }
  }

  lemma AlignmentStep(version: Version)
    requires version > 1
    ensures var count := version / 7 + 2;
      var step := (version * 8 + count * 3 + 5) / (count * 4 - 4) * 2;
      2 <= count <= 4 && version * 4 + 10 >= (count - 1) * step
  {
    if version < 7 {
      assert version / 7 == 0;
    } else if version < 14 {
      assert version / 7 == 1;
    } else {
      assert version / 7 == 2;
    }
  }

  // ----- the stages of the drawing ---------------------------------------------------------------------------

  lemma PaintMore(p: Picture, q: Picture, r: Picture, size: nat,
                  region: Cell -> bool, shade: Cell -> bool, more: Cell -> bool, over: Cell -> bool,
                  all: Cell -> bool, total: Cell -> bool)
    requires Painted(p, q, size, region, shade) && Painted(q, r, size, more, over)
    requires forall c: Cell :: Inside(c, size) ==> all(c) == (region(c) || more(c))
    requires forall c: Cell :: Inside(c, size) && all(c) ==> total(c) == if more(c) then over(c) else shade(c)
    ensures Painted(p, r, size, all, total)
  {
    hide At, Put;
  }

  /** The finder areas drawn so far: upper left, upper right, lower left. */
  predicate Corner(size: nat, k: nat, c: Cell) {
    (k > 0 && Ring(c, 3, 3) <= 4) || (k > 1 && Ring(c, size - 4, 3) <= 4) || (k > 2 && Ring(c, 3, size - 4) <= 4)
  }

  predicate CornerRegion(size: nat, k: nat, c: Cell) { InTiming(c) || Corner(size, k, c) }

  predicate CornerShade(size: nat, k: nat, c: Cell) {
    if k > 2 && Ring(c, 3, size - 4) <= 4 then RingDark(c, 3, size - 4)
    else if k > 1 && Ring(c, size - 4, 3) <= 4 then RingDark(c, size - 4, 3)
    else if k > 0 && Ring(c, 3, 3) <= 4 then RingDark(c, 3, 3)
    else TimingDark(c)
  }

  /** Timing and finder patterns, then the first k alignment squares. */
  predicate SquaresRegion(size: nat, positions: seq<nat>, k: nat, c: Cell) {
    InTiming(c) || InFinder(size, c) || (k <= |positions| * |positions| && LastSquare(positions, k, c) >= 0)
  }

  predicate SquaresShade(size: nat, positions: seq<nat>, k: nat, c: Cell) {
    if k <= |positions| * |positions| && LastSquare(positions, k, c) >= 0
    then SquareShade(positions, LastSquare(positions, k, c), c)
    else if size >= 21 && InFinder(size, c) then FinderDark(size, c)
    else TimingDark(c)
  }

  predicate SquareShade(positions: seq<nat>, k: nat, c: Cell)
    requires k < |positions| * |positions|
  {
    SquareIndex(|positions|, k);
    Ring(c, positions[k % |positions|], positions[k / |positions|]) != 1
  }

  predicate FormatRegion(size: nat, positions: seq<nat>, c: Cell) {
    SquaresRegion(size, positions, |positions| * |positions|, c) || InFormat(size, c)
  }

  predicate FormatShade(size: nat, positions: seq<nat>, c: Cell) {
    if size >= 21 && InFormat(size, c) then FormatDark(size, 0, c)
    else SquaresShade(size, positions, |positions| * |positions|, c)
  }

  function CornerX(size: nat, k: nat): int { if k == 1 then size - 4 else 3 }
  function CornerY(size: nat, k: nat): int { if k == 2 then size - 4 else 3 }

  lemma CornerStep(size: nat, k: nat, c: Cell)
    requires k < 3
    ensures CornerRegion(size, k + 1, c) == (CornerRegion(size, k, c) || Ring(c, CornerX(size, k), CornerY(size, k)) <= 4)
    ensures CornerShade(size, k + 1, c)
         == if Ring(c, CornerX(size, k), CornerY(size, k)) <= 4 then RingDark(c, CornerX(size, k), CornerY(size, k))
            else CornerShade(size, k, c)
  {
  }

  lemma CornersDone(size: nat, positions: seq<nat>, c: Cell)
    requires size >= 21 && Inside(c, size)
    ensures CornerRegion(size, 3, c) == SquaresRegion(size, positions, 0, c)
    ensures CornerShade(size, 3, c) == SquaresShade(size, positions, 0, c)
  {
  }

  lemma SquaresStep(size: nat, positions: seq<nat>, row: nat, column: nat, c: Cell)
    requires row < |positions| && column < |positions|
    ensures var k := row * |positions| + column;
      var more := InAlignmentSquare(positions, row, column, c);
      && k < |positions| * |positions|
      && SquaresRegion(size, positions, k + 1, c) == (SquaresRegion(size, positions, k, c) || more)
      && SquaresShade(size, positions, k + 1, c)
         == if more then Ring(c, positions[column], positions[row]) != 1 else SquaresShade(size, positions, k, c)
  {
    hide InAlignmentSquare, Ring, InFinder, FinderDark;
    RowColumn(|positions|, row, column);
  }

  /** After the last stage exactly the function cells are reserved, each with its own shade. */
  lemma FormatDone(version: Version, c: Cell)
    requires Inside(c, SizeOf(version))
    ensures var size, positions := SizeOf(version), AlignmentPositions(version);
      && IsFunction(version, c) == (FormatRegion(size, positions, c) || InVersion(version, c))
      && FunctionDark(version, 0, c)
         == if InVersion(version, c) then VersionShows(version, c) else FormatShade(size, positions, c)
  {
    AlignmentIsLast(AlignmentPositions(version), c);
    hide InAlignment, LastSquare, AlignmentPositions, Ring, InFinder, FinderDark, FormatDark, TimingDark, VersionDark;
  }

  lemma {:induction false} LastSquareExists(positions: seq<nat>, k: nat, c: Cell)
    requires k <= |positions| * |positions|
    ensures LastSquare(positions, k, c) >= 0 ==> InAlignment(positions, c)
  {
    if k > 0 {
      SquareIndex(|positions|, k - 1);
      if !InAlignmentSquare(positions, (k - 1) / |positions|, (k - 1) % |positions|, c) {
        LastSquareExists(positions, k - 1, c);
      }
    }
  }

  lemma {:induction false} LastSquareFinds(positions: seq<nat>, k: nat, row: nat, column: nat, c: Cell)
    requires row < |positions| && column < |positions| && InAlignmentSquare(positions, row, column, c)
    requires row * |positions| + column < k <= |positions| * |positions|
    ensures LastSquare(positions, k, c) >= 0
  {
    SquareIndex(|positions|, k - 1);
    if k - 1 == row * |positions| + column {
      RowColumn(|positions|, row, column);
    } else {
      LastSquareFinds(positions, k - 1, row, column, c);
    }
  }

  lemma RowColumn(n: nat, row: nat, column: nat)
    requires row < n && column < n
    ensures (row * n + column) / n == row && (row * n + column) % n == column
    ensures row * n + column < n * n
  {
    var k := row * n + column;
    TimesMonotone(row + 1, n, n);
    assert k == n * (k / n) + k % n;
    if k / n < row {
      TimesMonotone(k / n + 1, row, n);
      assert false;
    }
    if k / n > row {
      TimesMonotone(row + 1, k / n, n);
      assert false;
    }
  }

  lemma AlignmentIsLast(positions: seq<nat>, c: Cell)
    ensures InAlignment(positions, c) <==> LastSquare(positions, |positions| * |positions|, c) >= 0
  {
    LastSquareExists(positions, |positions| * |positions|, c);
    if InAlignment(positions, c) {
      var row: nat, column: nat :| row < |positions| && column < |positions| && InAlignmentSquare(positions, row, column, c);
      RowColumn(|positions|, row, column);
      LastSquareFinds(positions, |positions| * |positions|, row, column, c);
    }
  }

  // ----- createMatrix ----------------------------------------------------------------------------------------------

  lemma PositionInside(version: Version, i: nat)
    requires i < |AlignmentPositions(version)|
    ensures 6 <= AlignmentPositions(version)[i] && AlignmentPositions(version)[i] + 7 <= SizeOf(version)
  {
    PositionFacts(version);
    var p := AlignmentPositions(version);
    hide AlignmentPositions;
    assert |p| <= 4;
    if |p| > 1 { assert p[0] + 12 <= p[1]; }
    if |p| > 2 { assert p[1] + 12 <= p[2]; }
    if |p| > 3 { assert p[2] + 12 <= p[3]; }
  }

  /** The function patterns of a version: mask 0 in the format cells, everything else light. */
  ghost predicate Blank(p: Picture, version: Version) {
    var size := SizeOf(version);
    && p.Valid(size) && Reserves(p.reserved, version)
    && forall c: Cell :: Inside(c, size) ==> At(p.modules, c) == (IsFunction(version, c) && FunctionDark(version, 0, c))
  }

  method DrawCorner(m: Matrix, ghost p: Picture, cx: int, cy: int, ghost k: nat)
    requires m.Valid() && k < 3 && cx == CornerX(m.size, k) && cy == CornerY(m.size, k)
    requires Painted(p, m.View(), m.size, c => CornerRegion(m.size, k, c), c => CornerShade(m.size, k, c))
    modifies m
    ensures m.Valid()
    ensures Painted(p, m.View(), m.size, c => CornerRegion(m.size, k + 1, c), c => CornerShade(m.size, k + 1, c))
  {
    ghost var size := m.size;
    ghost var q := m.View();
    m.DrawFinder(cx, cy);
    hide Painted;
    forall c: Cell { CornerStep(size, k, c); }
    hide CornerRegion, CornerShade, Ring, RingDark, CornerX, CornerY;
    PaintMore(p, q, m.View(), size, c => CornerRegion(size, k, c), c => CornerShade(size, k, c),
              c => Ring(c, cx, cy) <= 4, c => RingDark(c, cx, cy),
              c => CornerRegion(size, k + 1, c), c => CornerShade(size, k + 1, c));
  }

  lemma PaintAgain(p: Picture, q: Picture, size: nat,
                   region: Cell -> bool, shade: Cell -> bool, all: Cell -> bool, total: Cell -> bool)
    requires Painted(p, q, size, region, shade)
    requires forall c: Cell :: Inside(c, size) ==> all(c) == region(c) && (all(c) ==> total(c) == shade(c))
    ensures Painted(p, q, size, all, total)
  {
  }

  method DrawBasics(m: Matrix)
    requires m.Valid()
    modifies m
    ensures m.Valid()
    ensures Painted(old(m.View()), m.View(), m.size, c => CornerRegion(m.size, 3, c), c => CornerShade(m.size, 3, c))
  {
    ghost var p := m.View();
    m.DrawTiming();
    assert Painted(p, m.View(), m.size, c => CornerRegion(m.size, 0, c), c => CornerShade(m.size, 0, c)) by {
      hide Painted;
      PaintAgain(p, m.View(), m.size, c => InTiming(c), TimingDark, c => CornerRegion(m.size, 0, c), c => CornerShade(m.size, 0, c));
    }
    hide Painted, CornerRegion, CornerShade;
    DrawCorner(m, p, 3, 3, 0);
    DrawCorner(m, p, m.size - 4, 3, 1);
    DrawCorner(m, p, 3, m.size - 4, 2);
  }

  ghost predicate SquaresDone(p: Picture, q: Picture, size: nat, positions: seq<nat>, k: nat) {
    Painted(p, q, size, c => SquaresRegion(size, positions, k, c), c => SquaresShade(size, positions, k, c))
  }

  lemma SquaresSkip(p: Picture, q: Picture, size: nat, positions: seq<nat>, row: nat, column: nat)
    requires row < |positions| && column < |positions| && OverlapsFinder(row, column, |positions|)
    requires SquaresDone(p, q, size, positions, row * |positions| + column)
    ensures SquaresDone(p, q, size, positions, row * |positions| + column + 1)
  {
    var k := row * |positions| + column;
    hide Painted, SquaresRegion, SquaresShade, Ring;
    forall c: Cell
      ensures SquaresRegion(size, positions, k + 1, c) == SquaresRegion(size, positions, k, c)
      ensures SquaresShade(size, positions, k + 1, c) == SquaresShade(size, positions, k, c)
    {
      SquaresStep(size, positions, row, column, c);
    }
    PaintAgain(p, q, size, c => SquaresRegion(size, positions, k, c), c => SquaresShade(size, positions, k, c),
               c => SquaresRegion(size, positions, k + 1, c), c => SquaresShade(size, positions, k + 1, c));
  }

  lemma SquaresDrawn(p: Picture, q: Picture, r: Picture, size: nat, positions: seq<nat>, row: nat, column: nat)
    requires row < |positions| && column < |positions| && !OverlapsFinder(row, column, |positions|)
    requires SquaresDone(p, q, size, positions, row * |positions| + column)
    requires Painted(q, r, size, c => Ring(c, positions[column], positions[row]) <= 2,
                     c => Ring(c, positions[column], positions[row]) != 1)
    ensures SquaresDone(p, r, size, positions, row * |positions| + column + 1)
  {
    var k := row * |positions| + column;
    forall c: Cell { SquaresStep(size, positions, row, column, c); }
    hide Painted, SquaresRegion, SquaresShade, Ring;
    PaintMore(p, q, r, size, c => SquaresRegion(size, positions, k, c), c => SquaresShade(size, positions, k, c),
              c => Ring(c, positions[column], positions[row]) <= 2, c => Ring(c, positions[column], positions[row]) != 1,
              c => SquaresRegion(size, positions, k + 1, c), c => SquaresShade(size, positions, k + 1, c));
  }

  /** The alignment patterns, row by row, without the three at the finders. */
  method DrawAlignments(m: Matrix, version: Version, ghost p: Picture)
    requires m.Valid() && m.size == SizeOf(version)
    requires SquaresDone(p, m.View(), m.size, AlignmentPositions(version), 0)
    modifies m
    ensures m.Valid()
    ensures var positions := AlignmentPositions(version);
      SquaresDone(p, m.View(), m.size, positions, |positions| * |positions|)
  {
    hide SquaresDone, Painted, Ring, AlignmentPositions;
    var aligns := ComputeAlignment(version);
    var row := 0;
    while row < |aligns|
      invariant row <= |aligns| && m.Valid()
      invariant SquaresDone(p, m.View(), m.size, aligns, row * |aligns|)
    {
      var column := 0;
      while column < |aligns|
        invariant column <= |aligns| && m.Valid()
        invariant SquaresDone(p, m.View(), m.size, aligns, row * |aligns| + column)
      {
        ghost var q := m.View();
        if (row == 0 && column == 0) || (row == 0 && column == |aligns| - 1) || (row == |aligns| - 1 && column == 0) {
          SquaresSkip(p, q, m.size, aligns, row, column);
        } else {
          PositionInside(version, row);
          PositionInside(version, column);
          m.DrawAlignmentSquare(aligns[column], aligns[row]);
          SquaresDrawn(p, q, m.View(), m.size, aligns, row, column);
        }
        column := column + 1;
      }
      row := row + 1;
    }
  }

  lemma BlankDone(p: Picture, q: Picture, version: Version)
    requires var size := SizeOf(version);
      p.Valid(size) && forall c: Cell :: Inside(c, size) ==> !At(p.modules, c) && !At(p.reserved, c)
    requires Painted(p, q, SizeOf(version), c => IsFunction(version, c), c => FunctionDark(version, 0, c))
    ensures Blank(q, version)
  {
    hide IsFunction, FunctionDark;
  }

  method DrawFormatAndVersion(m: Matrix, version: Version, ghost p: Picture)
    requires m.Valid() && m.size == SizeOf(version)
    requires var positions := AlignmentPositions(version);
      SquaresDone(p, m.View(), m.size, positions, |positions| * |positions|)
    modifies m
    ensures m.Valid() && Painted(p, m.View(), m.size, c => IsFunction(version, c), c => FunctionDark(version, 0, c))
  {
    ghost var size, positions := m.size, AlignmentPositions(version);
    ghost var last := |positions| * |positions|;
    hide Painted, SquaresRegion, SquaresShade, InFormat, AlignmentPositions;
    ghost var q := m.View();
    m.DrawFormatBits(0);
    PaintMore(p, q, m.View(), size, c => SquaresRegion(size, positions, last, c), c => SquaresShade(size, positions, last, c),
              c => InFormat(size, c), c => FormatShows(size, 0, c),
              c => FormatRegion(size, positions, c), c => FormatShade(size, positions, c));
    forall c: Cell | Inside(c, size) { FormatDone(version, c); }
    hide FormatRegion, FormatShade, IsFunction, FunctionDark, FormatShows, VersionShows;
    if version >= 7 {
      ghost var r := m.View();
      m.DrawVersion(version);
      PaintMore(p, r, m.View(), size, c => FormatRegion(size, positions, c), c => FormatShade(size, positions, c),
                c => InVersion(version, c), c => VersionShows(version, c),
                c => IsFunction(version, c), c => FunctionDark(version, 0, c));
    } else {
      PaintAgain(p, m.View(), size, c => FormatRegion(size, positions, c), c => FormatShade(size, positions, c),
                 c => IsFunction(version, c), c => FunctionDark(version, 0, c));
    }
  }

  /** `createMatrix` */
  method CreateMatrix(version: Version) returns (m: Matrix)
    ensures fresh(m) && m.size == SizeOf(version) && m.Valid() && Blank(m.View(), version)
  {
    m := new Matrix(SizeOf(version));
    ghost var p := m.View();
    DrawBasics(m);
    ghost var positions := AlignmentPositions(version);
    assert SquaresDone(p, m.View(), m.size, positions, 0) by {
      forall c: Cell | Inside(c, m.size) { CornersDone(m.size, positions, c); }
      hide Painted, CornerRegion, CornerShade, SquaresRegion, SquaresShade;
      PaintAgain(p, m.View(), m.size, c => CornerRegion(m.size, 3, c), c => CornerShade(m.size, 3, c),
                 c => SquaresRegion(m.size, positions, 0, c), c => SquaresShade(m.size, positions, 0, c));
    }
    hide SquaresDone, Painted;
    DrawAlignments(m, version, p);
    DrawFormatAndVersion(m, version, p);
    BlankDone(p, m.View(), version);
  }
}
