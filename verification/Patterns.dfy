/** The function patterns of a symbol: which cells they reserve and what they show (sections 6.3, 7.9 and 7.10 of ISO/IEC 18004:2015). */
module Patterns {
  import opened BitOps
  import opened QrTables
  import opened Zigzag

  function SizeOf(version: Version): nat { version * 4 + 17 }

  // ----- format information --------------------------------------------------------------------------------

  /** The remainder loop of `drawFormatBits`, n rounds. */
  function FormatRemainder(data: nat, n: nat): nat {
    if n == 0 then data
    else
      var r := FormatRemainder(data, n - 1);
      Xor(2 * r, (r / 512) * 0x537)
  }

  /** The 15 format bits for level M, whose indicator is 00, so the data is the mask number alone. */
  function FormatWord(mask: nat): nat {
    Xor(mask * 1024 + FormatRemainder(mask, 10), 0x5412)
  }

  /** The cells of the two format copies and the dark module. */
  predicate InFormat(size: nat, c: Cell) {
    || (c.x == 8 && (c.y <= 8 || size <= c.y + 8) && c.y != 6)
    || (c.y == 8 && (c.x <= 8 || size <= c.x + 8) && c.x != 6)
  }

  /** Which format bit a cell shows; the dark module shows none. */
  function FormatBit(size: nat, c: Cell): int
    requires InFormat(size, c) && size >= 21
  {
    if c.x == 8 then
      if c.y <= 5 then c.y
      else if c.y == 7 then 6
      else if c.y == 8 then 7
      else if c.y + 8 == size then -1
      else c.y + 15 - size
    else
      if c.x == 7 then 8
      else if c.x <= 5 then 14 - c.x
      else size - 1 - c.x
  }

  function FormatDark(size: nat, mask: nat, c: Cell): bool
    requires InFormat(size, c) && size >= 21
  {
    var bit := FormatBit(size, c);
    bit < 0 || Shr(FormatWord(mask), bit) % 2 == 1
  }

  // ----- the other patterns ----------------------------------------------------------------------------------

  function Abs(n: int): nat { if n < 0 then -n else n }

  function Ring(c: Cell, cx: int, cy: int): nat {
    if Abs(c.x - cx) > Abs(c.y - cy) then Abs(c.x - cx) else Abs(c.y - cy)
  }

  predicate InTiming(c: Cell) { c.x == 6 || c.y == 6 }

  function TimingDark(c: Cell): bool { if c.y == 6 then c.x % 2 == 0 else c.y % 2 == 0 }

  predicate InFinder(size: nat, c: Cell) {
    (c.x < 8 && c.y < 8) || (size <= c.x + 8 && c.y < 8) || (c.x < 8 && size <= c.y + 8)
  }

  function FinderDark(size: nat, c: Cell): bool
    requires InFinder(size, c) && size >= 21
  {
    var ring := Ring(c, if c.x < 8 then 3 else size - 4, if c.y < 8 then 3 else size - 4);
    ring != 2 && ring != 4
  }

  /** Where the alignment patterns are centred, in both directions. */
  function AlignmentPositions(version: Version): seq<nat> {
    var last := version * 4 + 10;
    if version == 1 then []
    else if version < 7 then [6, last]
    else
      var count := version / 7 + 2;
      var step := (version * 8 + count * 3 + 5) / (count * 4 - 4) * 2;
      if version < 14 then [6, last - step, last] else [6, last - 2 * step, last - step, last]
  }

  /** The three alignment patterns that would overlap a finder are not drawn. */
  predicate OverlapsFinder(row: nat, column: nat, count: nat) {
    (row == 0 && column == 0) || (row == 0 && column == count - 1) || (row == count - 1 && column == 0)
  }

  predicate InAlignmentSquare(positions: seq<nat>, row: nat, column: nat, c: Cell)
    requires row < |positions| && column < |positions|
  {
    !OverlapsFinder(row, column, |positions|) && Ring(c, positions[column], positions[row]) <= 2
  }

  predicate InAlignment(positions: seq<nat>, c: Cell) {
    exists row: nat, column: nat | row < |positions| && column < |positions| ::
      InAlignmentSquare(positions, row, column, c)
  }

  predicate InVersion(version: Version, c: Cell) {
    var size := SizeOf(version);
    version >= 7 && ((size - 11 <= c.x < size - 8 && c.y < 6) || (size - 11 <= c.y < size - 8 && c.x < 6))
  }

  /** All cells that carry no data. */
  predicate IsFunction(version: Version, c: Cell) {
    var size := SizeOf(version);
    || InTiming(c) || InFinder(size, c) || InAlignment(AlignmentPositions(version), c)
    || InFormat(size, c) || InVersion(version, c)
  }

  // ----- version information and the whole picture -------------------------------------------------------------

  /** The remainder loop for the version number, n rounds. */
  function VersionRemainder(version: nat, n: nat): nat {
    if n == 0 then version
    else
      var r := VersionRemainder(version, n - 1);
      Xor(2 * r, (r / 2048) * 0x1f25)
  }

  function VersionWord(version: nat): nat { version * 4096 + VersionRemainder(version, 12) }

  function VersionDark(version: Version, c: Cell): bool
    requires InVersion(version, c)
  {
    Shr(VersionWord(version), VersionBit(version, c)) % 2 == 1
  }

  function VersionBit(version: Version, c: Cell): nat
    requires InVersion(version, c)
  {
    var corner := SizeOf(version) - 11;
    if c.y < 6 then 3 * c.y + (c.x - corner) else 3 * c.x + (c.y - corner)
  }

  /** The last of the first k alignment squares, row by row, that holds c; -1 when none does. */
  function LastSquare(positions: seq<nat>, k: nat, c: Cell): (r: int)
    requires k <= |positions| * |positions|
    ensures -1 <= r < k
  {
    if k == 0 then -1
    else
      SquareIndex(|positions|, k - 1);
      if InAlignmentSquare(positions, (k - 1) / |positions|, (k - 1) % |positions|, c) then k - 1
      else LastSquare(positions, k - 1, c)
  }

  lemma SquareIndex(n: nat, k: nat)
    requires k < n * n
    ensures n > 0 && k / n < n && k % n < n
  {
    if n <= k / n {
      TimesMonotone(n, k / n, n);
      assert false;
    }
  }

  lemma TimesMonotone(a: nat, b: nat, n: nat)
    requires a <= b
    ensures a * n <= b * n
  {
  }

  /** What the k-th alignment square shows. */
  function SquareDark(positions: seq<nat>, k: nat, c: Cell): bool
    requires k < |positions| * |positions|
  {
    SquareIndex(|positions|, k);
    Ring(c, positions[k % |positions|], positions[k / |positions|]) != 1
  }

  function AlignmentDark(positions: seq<nat>, c: Cell): bool
    requires LastSquare(positions, |positions| * |positions|, c) >= 0
  {
    SquareDark(positions, LastSquare(positions, |positions| * |positions|, c), c)
  }

  /** What a function cell shows, later drawings over earlier ones. */
  function FunctionDark(version: Version, mask: nat, c: Cell): bool {
    var size := SizeOf(version);
    var positions := AlignmentPositions(version);
    if InVersion(version, c) then VersionDark(version, c)
    else if InFormat(size, c) then FormatDark(size, mask, c)
    else if LastSquare(positions, |positions| * |positions|, c) >= 0 then AlignmentDark(positions, c)
    else if InFinder(size, c) then FinderDark(size, c)
    else TimingDark(c)
  }

  // ----- counting cells with rectangles ---------------------------------------------------------------------

  /** x0 <= x < x0 + w, y0 <= y < y0 + h */
  datatype Rect = Rect(x0: nat, y0: nat, w: nat, h: nat) {
    predicate Has(c: Cell) { x0 <= c.x < x0 + w && y0 <= c.y < y0 + h }
  }

  ghost function RowOf(x0: nat, y: nat, w: nat): set<Cell> {
    if w == 0 then {} else RowOf(x0, y, w - 1) + {Cell(x0 + w - 1, y)}
  }

  ghost function CellsOf(r: Rect): set<Cell>
    decreases r.h
  {
    if r.h == 0 then {} else CellsOf(r.(h := r.h - 1)) + RowOf(r.x0, r.y0 + r.h - 1, r.w)
  }

  lemma {:induction false} RowSize(x0: nat, y: nat, w: nat)
    ensures |RowOf(x0, y, w)| == w
    ensures forall c: Cell :: c in RowOf(x0, y, w) <==> (c.y == y && x0 <= c.x < x0 + w)
  {
    if w > 0 { RowSize(x0, y, w - 1); }
  }

  lemma {:induction false} RectCells(r: Rect)
    ensures forall c: Cell :: c in CellsOf(r) <==> r.Has(c)
    decreases r.h
  {
    if r.h > 0 {
      RectCells(r.(h := r.h - 1));
      RowSize(r.x0, r.y0 + r.h - 1, r.w);
    }
  }

  function Product(w: nat, h: nat): nat { w * h }

  lemma ProductStep(w: nat, h: nat)
    ensures Product(w, 0) == 0 && Product(w, h + 1) == Product(w, h) + w
  {
  }

  lemma CellsStep(r: Rect)
    ensures r.h == 0 ==> CellsOf(r) == {}
    ensures r.h > 0 ==> CellsOf(r) == CellsOf(r.(h := r.h - 1)) + RowOf(r.x0, r.y0 + r.h - 1, r.w)
  {
    hide RowOf;
  }

  lemma ApartSize(a: set<Cell>, b: set<Cell>)
    requires a !! b
    ensures |a + b| == |a| + |b|
  {
  }

  lemma {:induction false} RectSize(r: Rect)
    ensures |CellsOf(r)| == Product(r.w, r.h)
    decreases r.h
  {
    hide Product, RowOf, CellsOf;
    CellsStep(r);
    if r.h == 0 {
      ProductStep(r.w, 0);
    } else {
      var top := r.(h := r.h - 1);
      RectSize(top);
      RowApart(r);
      RowSize(r.x0, r.y0 + r.h - 1, r.w);
      ProductStep(r.w, r.h - 1);
      ApartSize(CellsOf(top), RowOf(r.x0, r.y0 + r.h - 1, r.w));
    }
  }

  lemma RowApart(r: Rect)
    requires r.h > 0
    ensures CellsOf(r.(h := r.h - 1)) !! RowOf(r.x0, r.y0 + r.h - 1, r.w)
  {
    hide CellsOf, RowOf;
    RectCells(r.(h := r.h - 1));
    RowSize(r.x0, r.y0 + r.h - 1, r.w);
  }

  function Area(rs: seq<Rect>): nat {
    if rs == [] then 0 else Product(rs[0].w, rs[0].h) + Area(rs[1..])
  }

  predicate Covers(rs: seq<Rect>, c: Cell) { exists i | 0 <= i < |rs| :: rs[i].Has(c) }

  /** A set of cells covered by rectangles is no larger than their total area. */
  lemma {:induction false} CoveredSize(cells: set<Cell>, rs: seq<Rect>)
    requires forall c :: c in cells ==> Covers(rs, c)
    ensures |cells| <= Area(rs)
  {
    if rs == [] {
      assert forall c: Cell :: !Covers(rs, c);
      assert cells == {};
    } else {
      var rest := cells - CellsOf(rs[0]);
      RectSize(rs[0]);
      RectCells(rs[0]);
      forall c | c in rest ensures Covers(rs[1..], c) {
        assert Covers(rs, c);
        var i :| 0 <= i < |rs| && rs[i].Has(c);
        assert rs[1..][i - 1].Has(c);
      }
      CoveredSize(rest, rs[1..]);
      assert cells == rest + cells * CellsOf(rs[0]);
      assert |cells| == |rest| + |cells * CellsOf(rs[0])|;
      SubsetSize(cells * CellsOf(rs[0]), CellsOf(rs[0]));
    }
  }

  lemma SubsetSize(a: set<Cell>, b: set<Cell>)
    requires a <= b
    ensures |a| <= |b|
  {
    assert b == a + (b - a);
  }

  // ----- the reserved cells, covered exactly -----------------------------------------------------------------

  function BasicRects(size: nat): seq<Rect>
    requires size >= 21
  {
    [Rect(0, 0, 8, 8), Rect(size - 8, 0, 8, 8), Rect(0, size - 8, 8, 8),
     Rect(6, 8, 1, size - 16), Rect(8, 6, size - 16, 1),
     Rect(8, 0, 1, 6), Rect(8, 7, 1, 2), Rect(0, 8, 6, 1), Rect(7, 8, 1, 1),
     Rect(8, size - 8, 1, 8), Rect(size - 8, 8, 8, 1)]
  }

  function VersionRects(version: Version): seq<Rect> {
    var size := SizeOf(version);
    if version < 7 then [] else [Rect(size - 11, 0, 3, 6), Rect(0, size - 11, 6, 3)]
  }

  /** A pattern centred on a timing line, without the line. */
  function OnRow(p: nat): seq<Rect> requires p >= 2 { [Rect(p - 2, 4, 5, 2), Rect(p - 2, 7, 5, 2)] }
  function OnColumn(p: nat): seq<Rect> requires p >= 2 { [Rect(4, p - 2, 2, 5), Rect(7, p - 2, 2, 5)] }
  function Free(px: nat, py: nat): seq<Rect> requires px >= 2 && py >= 2 { [Rect(px - 2, py - 2, 5, 5)] }

  function AlignmentRects(version: Version): seq<Rect> {
    var p := AlignmentPositions(version);
    if version == 1 then []
    else if version < 7 then Free(p[1], p[1])
    else if version < 14 then
      OnRow(p[1]) + OnColumn(p[1]) + Free(p[1], p[1]) + Free(p[2], p[1]) + Free(p[1], p[2]) + Free(p[2], p[2])
    else
      (OnRow(p[1]) + OnRow(p[2]) + OnColumn(p[1]) + OnColumn(p[2]) + Free(p[1], p[1]) + Free(p[2], p[1]))
      + (Free(p[3], p[1]) + Free(p[1], p[2]) + Free(p[2], p[2]) + Free(p[3], p[2]) + Free(p[1], p[3]) + Free(p[2], p[3]))
      + Free(p[3], p[3])
  }

  function FunctionRects(version: Version): seq<Rect> {
    BasicRects(SizeOf(version)) + VersionRects(version) + AlignmentRects(version)
  }

  lemma {:induction false} AreaConcat(a: seq<Rect>, b: seq<Rect>)
    ensures Area(a + b) == Area(a) + Area(b)
  {
    if a == [] {
      assert a + b == b;
    } else {
      AreaConcat(a[1..], b);
      assert (a + b)[1..] == a[1..] + b;
    }
  }

  lemma AreaFrom(s: seq<Rect>, i: nat)
    requires i < |s|
    ensures Area(s[i..]) == s[i].w * s[i].h + Area(s[i + 1..])
    ensures Area(s[|s|..]) == 0
  {
    assert s[i..][1..] == s[i + 1..];
  }

  lemma BasicArea(size: nat)
    requires size >= 21
    ensures Area(BasicRects(size)) == 192 + 2 * (size - 16) + 31
  {
    var s := BasicRects(size);
    assert s[0..] == s;
    hide Area;
    AreaFrom(s, 0);
    AreaFrom(s, 1);
    AreaFrom(s, 2);
    AreaFrom(s, 3);
    AreaFrom(s, 4);
    AreaFrom(s, 5);
    AreaFrom(s, 6);
    AreaFrom(s, 7);
    AreaFrom(s, 8);
    AreaFrom(s, 9);
    AreaFrom(s, 10);
  }

  lemma PairArea(a: Rect, b: Rect)
    ensures Area([a]) == a.w * a.h && Area([a, b]) == a.w * a.h + b.w * b.h
  {
    assert [a][0..] == [a] && [a, b][0..] == [a, b];
    hide Area;
    AreaFrom([a], 0);
    AreaFrom([a, b], 0);
    AreaFrom([a, b], 1);
  }

  lemma SmallAreas(p: nat, q: nat)
    requires p >= 2 && q >= 2
    ensures Area(OnRow(p)) == 20 && Area(OnColumn(p)) == 20 && Area(Free(p, q)) == 25
  {
    hide Area;
    PairArea(OnRow(p)[0], OnRow(p)[1]);
    PairArea(OnColumn(p)[0], OnColumn(p)[1]);
    PairArea(Free(p, q)[0], Free(p, q)[0]);
  }

  lemma VersionArea(version: Version)
    ensures Area(VersionRects(version)) == if version < 7 then 0 else 36
  {
    if version >= 7 {
      hide Area;
      PairArea(VersionRects(version)[0], VersionRects(version)[1]);
    }
  }

  /** The centres are 6, ..., size - 7, at least 12 apart. */
  lemma PositionFacts(version: Version)
    ensures var p := AlignmentPositions(version);
      && |p| == (if version == 1 then 0 else version / 7 + 2)
      && (version > 1 ==> p[0] == 6 && p[|p| - 1] == SizeOf(version) - 7)
      && (forall i :: 0 <= i < |p| - 1 ==> p[i] + 12 <= p[i + 1])
      && (forall i :: 0 <= i < |p| ==> p[i] >= 6)
  {
    if 7 <= version < 14 {
      assert (version * 8 + 3 * 3 + 5) / 8 == version + 1;
    } else if version == 14 {
      assert (14 * 8 + 4 * 3 + 5) / 12 == 10;
    } else if version == 15 {
      assert (15 * 8 + 4 * 3 + 5) / 12 == 11;
    }
  }

  lemma SixAreas(a: seq<Rect>, b: seq<Rect>, c: seq<Rect>, d: seq<Rect>, e: seq<Rect>, f: seq<Rect>)
    ensures Area(a + b + c + d + e + f) == Area(a) + Area(b) + Area(c) + Area(d) + Area(e) + Area(f)
  {
    hide Area;
    AreaConcat(a, b);
    AreaConcat(a + b, c);
    AreaConcat(a + b + c, d);
    AreaConcat(a + b + c + d, e);
    AreaConcat(a + b + c + d + e, f);
  }

  lemma AlignmentArea(version: Version)
    ensures Area(AlignmentRects(version))
         == if version == 1 then 0 else if version < 7 then 25 else if version < 14 then 140 else 305
  {
    hide OnRow, OnColumn, Free;
    PositionFacts(version);
    var p := AlignmentPositions(version);
    if version > 1 {
      hide Area, AlignmentPositions;
      SmallAreas(p[1], p[1]);
      if version >= 7 {
        SmallAreas(p[2], p[1]);
        SmallAreas(p[1], p[2]);
        SmallAreas(p[2], p[2]);
        if version < 14 {
          SixAreas(OnRow(p[1]), OnColumn(p[1]), Free(p[1], p[1]), Free(p[2], p[1]), Free(p[1], p[2]), Free(p[2], p[2]));
        } else {
          SmallAreas(p[3], p[1]);
          SmallAreas(p[3], p[2]);
          SmallAreas(p[1], p[3]);
          SmallAreas(p[2], p[3]);
          SmallAreas(p[3], p[3]);
          var first := OnRow(p[1]) + OnRow(p[2]) + OnColumn(p[1]) + OnColumn(p[2]) + Free(p[1], p[1]) + Free(p[2], p[1]);
          var second := Free(p[3], p[1]) + Free(p[1], p[2]) + Free(p[2], p[2]) + Free(p[3], p[2]) + Free(p[1], p[3]) + Free(p[2], p[3]);
          SixAreas(OnRow(p[1]), OnRow(p[2]), OnColumn(p[1]), OnColumn(p[2]), Free(p[1], p[1]), Free(p[2], p[1]));
          SixAreas(Free(p[3], p[1]), Free(p[1], p[2]), Free(p[2], p[2]), Free(p[3], p[2]), Free(p[1], p[3]), Free(p[2], p[3]));
          AreaConcat(first, second);
          AreaConcat(first + second, Free(p[3], p[3]));
        }
      }
    }
  }

  /** The rectangles leave exactly the raw codeword bits uncovered, were they disjoint. */
  lemma FunctionArea(version: Version)
    ensures Area(FunctionRects(version)) == Product(SizeOf(version), SizeOf(version)) - RawCodewordBits(version)
  {
    hide Area, BasicRects, VersionRects, AlignmentRects;
    BasicArea(SizeOf(version));
    VersionArea(version);
    AlignmentArea(version);
    AreaConcat(BasicRects(SizeOf(version)), VersionRects(version));
    AreaConcat(BasicRects(SizeOf(version)) + VersionRects(version), AlignmentRects(version));
    assert SizeOf(version) * SizeOf(version) == 16 * version * version + 136 * version + 289;
    if version < 2 {
    } else if version < 7 {
      assert version / 7 == 0;
    } else if version < 14 {
      assert version / 7 == 1;
    } else {
      assert version / 7 == 2;
    }
  }

  lemma CoversConcat(a: seq<Rect>, b: seq<Rect>, c: Cell)
    ensures Covers(a + b, c) <==> Covers(a, c) || Covers(b, c)
  {
    if Covers(a, c) {
      var i :| 0 <= i < |a| && a[i].Has(c);
      assert (a + b)[i].Has(c);
    }
    if Covers(b, c) {
      var i :| 0 <= i < |b| && b[i].Has(c);
      assert (a + b)[|a| + i].Has(c);
    }
  }

  lemma BasicCover(size: nat, c: Cell)
    requires size >= 21 && Inside(c, size)
    requires InTiming(c) || InFinder(size, c) || InFormat(size, c)
    ensures Covers(BasicRects(size), c)
  {
    var s := BasicRects(size);
    var i := if s[0].Has(c) then 0 else if s[1].Has(c) then 1 else if s[2].Has(c) then 2
      else if s[3].Has(c) then 3 else if s[4].Has(c) then 4 else if s[5].Has(c) then 5
      else if s[6].Has(c) then 6 else if s[7].Has(c) then 7 else if s[8].Has(c) then 8
      else if s[9].Has(c) then 9 else 10;
    assert s[i].Has(c);
  }

  lemma VersionCover(version: Version, c: Cell)
    requires InVersion(version, c)
    ensures Covers(VersionRects(version), c)
  {
    var s := VersionRects(version);
    assert s[0].Has(c) || s[1].Has(c);
  }

  lemma SquareCover(px: nat, py: nat, c: Cell)
    requires px >= 2 && py >= 2 && Ring(c, px, py) <= 2
    ensures Covers(Free(px, py), c)
    ensures py == 6 && c.y != 6 ==> Covers(OnRow(px), c)
    ensures px == 6 && c.x != 6 ==> Covers(OnColumn(py), c)
  {
    assert Free(px, py)[0].Has(c);
    if py == 6 && c.y != 6 { assert OnRow(px)[0].Has(c) || OnRow(px)[1].Has(c); }
    if px == 6 && c.x != 6 { assert OnColumn(py)[0].Has(c) || OnColumn(py)[1].Has(c); }
  }

  lemma SixCover(a: seq<Rect>, b: seq<Rect>, c: seq<Rect>, d: seq<Rect>, e: seq<Rect>, f: seq<Rect>, x: Cell)
    ensures Covers(a + b + c + d + e + f, x)
       <==> Covers(a, x) || Covers(b, x) || Covers(c, x) || Covers(d, x) || Covers(e, x) || Covers(f, x)
  {
    hide Covers;
    CoversConcat(a, b, x);
    CoversConcat(a + b, c, x);
    CoversConcat(a + b + c, d, x);
    CoversConcat(a + b + c + d, e, x);
    CoversConcat(a + b + c + d + e, f, x);
  }

  lemma AlignmentCover(version: Version, row: nat, column: nat, c: Cell)
    requires var p := AlignmentPositions(version); row < |p| && column < |p| && InAlignmentSquare(p, row, column, c)
    ensures InTiming(c) || Covers(AlignmentRects(version), c)
  {
    hide OnRow, OnColumn, Free, Covers, Ring;
    PositionFacts(version);
    var p := AlignmentPositions(version);
    hide AlignmentPositions;
    SquareCover(p[column], p[row], c);
    if 7 <= version < 14 {
      SixCover(OnRow(p[1]), OnColumn(p[1]), Free(p[1], p[1]), Free(p[2], p[1]), Free(p[1], p[2]), Free(p[2], p[2]), c);
    } else if version >= 14 {
      var first := OnRow(p[1]) + OnRow(p[2]) + OnColumn(p[1]) + OnColumn(p[2]) + Free(p[1], p[1]) + Free(p[2], p[1]);
      var second := Free(p[3], p[1]) + Free(p[1], p[2]) + Free(p[2], p[2]) + Free(p[3], p[2]) + Free(p[1], p[3]) + Free(p[2], p[3]);
      SixCover(OnRow(p[1]), OnRow(p[2]), OnColumn(p[1]), OnColumn(p[2]), Free(p[1], p[1]), Free(p[2], p[1]), c);
      SixCover(Free(p[3], p[1]), Free(p[1], p[2]), Free(p[2], p[2]), Free(p[3], p[2]), Free(p[1], p[3]), Free(p[2], p[3]), c);
      CoversConcat(first, second, c);
      CoversConcat(first + second, Free(p[3], p[3]), c);
    }
  }

  lemma FunctionCover(version: Version, c: Cell)
    requires Inside(c, SizeOf(version)) && IsFunction(version, c)
    ensures Covers(FunctionRects(version), c)
  {
    hide BasicRects, VersionRects, AlignmentRects, Covers;
    var size := SizeOf(version);
    CoversConcat(BasicRects(size), VersionRects(version), c);
    CoversConcat(BasicRects(size) + VersionRects(version), AlignmentRects(version), c);
    if InTiming(c) || InFinder(size, c) || InFormat(size, c) {
      BasicCover(size, c);
    } else if InVersion(version, c) {
      VersionCover(version, c);
    } else {
      var p := AlignmentPositions(version);
      var row: nat, column: nat :| row < |p| && column < |p| && InAlignmentSquare(p, row, column, c);
      AlignmentCover(version, row, column, c);
    }
  }

  // ----- the capacity of a symbol ------------------------------------------------------------------------------

  /** The grid of reserved cells of a version. */
  ghost predicate Reserves(reserved: Grid, version: Version) {
    var size := SizeOf(version);
    Square(reserved, size) && forall c: Cell :: Inside(c, size) ==> At(reserved, c) == IsFunction(version, c)
  }

  ghost function FreeSet(reserved: Grid, cells: seq<Cell>): set<Cell>
    requires Within(cells, reserved)
  {
    if cells == [] then {}
    else
      var n := |cells| - 1;
      FreeSet(reserved, cells[..n]) + (if At(reserved, cells[n]) then {} else {cells[n]})
  }

  lemma {:induction false} FreeSetCells(reserved: Grid, cells: seq<Cell>)
    requires Within(cells, reserved)
    ensures forall c :: c in FreeSet(reserved, cells) <==> c in cells && !At(reserved, c)
  {
    if cells != [] {
      var n := |cells| - 1;
      FreeSetCells(reserved, cells[..n]);
      assert cells == cells[..n] + [cells[n]];
    }
  }

  lemma {:induction false} FreeSetSize(reserved: Grid, cells: seq<Cell>)
    requires Within(cells, reserved)
    requires Distinct(cells)
    ensures |FreeSet(reserved, cells)| == FreeCount(reserved, cells)
  {
    if cells != [] {
      var n := |cells| - 1;
      var front := cells[..n];
      FreeSetCells(reserved, front);
      FreeSetSize(reserved, front);
      hide Within, At;
      assert cells[n] !in front;
    }
  }

  ghost function AllCells(size: nat): set<Cell> { CellsOf(Rect(0, 0, size, size)) }

  ghost function FunctionCells(version: Version): set<Cell> {
    set c | c in AllCells(SizeOf(version)) && IsFunction(version, c)
  }

  lemma AllCellsFacts(size: nat)
    ensures |AllCells(size)| == Product(size, size)
    ensures forall c :: c in AllCells(size) <==> Inside(c, size)
  {
    hide Product, CellsOf;
    RectCells(Rect(0, 0, size, size));
    RectSize(Rect(0, 0, size, size));
  }

  lemma FunctionCellsSize(version: Version)
    ensures |FunctionCells(version)| <= Area(FunctionRects(version))
  {
    hide IsFunction, AllCells, FunctionRects, Area, Covers;
    AllCellsFacts(SizeOf(version));
    forall c | c in FunctionCells(version) ensures Covers(FunctionRects(version), c) { FunctionCover(version, c); }
    CoveredSize(FunctionCells(version), FunctionRects(version));
  }

  lemma DifferenceSize(a: set<Cell>, b: set<Cell>)
    requires b <= a
    ensures |a - b| == |a| - |b|
  {
    assert a == (a - b) + b;
  }

  /** A version has at least as many data cells as `rawCodewordBits` says. */
  lemma DataCellCount(version: Version)
    ensures |AllCells(SizeOf(version)) - FunctionCells(version)| >= RawCodewordBits(version)
  {
    assert FunctionCells(version) <= AllCells(SizeOf(version));
    hide *;
    AllCellsFacts(SizeOf(version));
    FunctionArea(version);
    FunctionCellsSize(version);
    DifferenceSize(AllCells(SizeOf(version)), FunctionCells(version));
  }

  lemma WalkWithin(reserved: Grid, version: Version)
    requires Reserves(reserved, version)
    ensures Within(Walk(SizeOf(version)), reserved)
  {
    WalkFacts(SizeOf(version));
  }

  /** Every version has room for all of its raw codeword bits along the walk. */
  lemma Capacity(reserved: Grid, version: Version)
    requires Reserves(reserved, version)
    ensures Within(Walk(SizeOf(version)), reserved)
    ensures FreeCount(reserved, Walk(SizeOf(version))) >= RawCodewordBits(version)
  {
    var size := SizeOf(version);
    var walk := Walk(size);
    WalkWithin(reserved, version);
    WalkFacts(size);
    FreeSetCells(reserved, walk);
    FreeSetSize(reserved, walk);
    DataCellCount(version);
    AllCellsFacts(size);
    hide Walk, FreeSet, FreeCount, IsFunction, RawCodewordBits, AllCells;
    var data := AllCells(size) - FunctionCells(version);
    forall c | c in data ensures c in FreeSet(reserved, walk) { ColumnSix(version, c); }
    SubsetSize(data, FreeSet(reserved, walk));
  }

  lemma ColumnSix(version: Version, c: Cell)
    requires !IsFunction(version, c)
    ensures c.x != 6
  {
  }
}
