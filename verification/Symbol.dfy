/** The matrix and its drawing routines (`createMatrix`, `drawCodewords`, `applyMask`, `drawFormatBits`, design/assets/qrcode.js). */
module Symbol {
  import opened BitOps
  import opened QrTables
  import opened Zigzag
  import opened Patterns
  import opened Message

  function MaskApplies(mask: nat, x: nat, y: nat): bool {
    if mask == 0 then (x + y) % 2 == 0
    else if mask == 1 then y % 2 == 0
    else if mask == 2 then x % 3 == 0
    else if mask == 3 then (x + y) % 3 == 0
    else if mask == 4 then (x / 3 + y / 2) % 2 == 0
    else if mask == 5 then (x * y) % 2 + (x * y) % 3 == 0
    else if mask == 6 then ((x * y) % 2 + (x * y) % 3) % 2 == 0
    else ((x + y) % 2 + (x * y) % 3) % 2 == 0
  }

  /** The cells before (x, y) when rows are scanned from the top. */
  predicate Before(c: Cell, x: int, y: int) { c.y < y || (c.y == y && c.x < x) }

  /** The cells of a square of the given radius that are scanned before offset (dx, dy). */
  predicate SquareBefore(c: Cell, cx: int, cy: int, radius: nat, dx: int, dy: int) {
    Ring(c, cx, cy) <= radius && Before(c, cx + dx, cy + dy)
  }

  predicate TimingBefore(c: Cell, i: int) { (c.x == 6 && c.y < i) || (c.y == 6 && c.x < i) }

  function RingDark(c: Cell, cx: int, cy: int): bool { Ring(c, cx, cy) != 2 && Ring(c, cx, cy) != 4 }

  predicate FormatShows(size: nat, mask: nat, c: Cell) { size >= 21 && InFormat(size, c) && FormatDark(size, mask, c) }

  predicate VersionShows(version: Version, c: Cell) { InVersion(version, c) && VersionDark(version, c) }

  /** The order in which `drawFormatBits` sets its 31 cells. */
  function FormatStep(size: nat, c: Cell): int
    requires InFormat(size, c)
  {
    if c.x == 8 then
      if c.y <= 5 then c.y
      else if c.y <= 8 then c.y - 1
      else if c.y + 8 == size then 30
      else c.y + 30 - size
    else
      if c.x == 7 then 8
      else if c.x <= 5 then 14 - c.x
      else 14 + size - c.x
  }

  predicate FormatBefore(size: nat, n: int, c: Cell) { InFormat(size, c) && FormatStep(size, c) < n }

  /** The order in which the version information is drawn: bit by bit, first the upper copy. */
  predicate VersionBefore(version: Version, bit: int, c: Cell) {
    InVersion(version, c) && VersionBit(version, c) < bit
  }

  /** A picture: which cells are dark and which are reserved. */
  datatype Picture = Picture(modules: Grid, reserved: Grid) {
    ghost predicate Valid(size: nat) { size >= 21 && Square(modules, size) && Square(reserved, size) }
  }

  /** From p to q the cells of the region were reserved and shaded, and nothing else changed. */
  ghost predicate Painted(p: Picture, q: Picture, size: nat, region: Cell -> bool, shade: Cell -> bool) {
    && p.Valid(size) && q.Valid(size)
    && (forall c: Cell :: Inside(c, size) ==> At(q.modules, c) == if region(c) then shade(c) else At(p.modules, c))
    && (forall c: Cell :: Inside(c, size) ==> At(q.reserved, c) == (region(c) || At(p.reserved, c)))
  }

  function Set(p: Picture, c: Cell, dark: bool): Picture
    requires c.y < |p.modules| && c.x < |p.modules[c.y]| && c.y < |p.reserved| && c.x < |p.reserved[c.y]|
  {
    Picture(Put(p.modules, c, dark), Put(p.reserved, c, true))
  }

  lemma PaintCell(p: Picture, q: Picture, size: nat, region: Cell -> bool, next: Cell -> bool, shade: Cell -> bool, c: Cell)
    requires Painted(p, q, size, region, shade) && Inside(c, size)
    requires forall d: Cell :: Inside(d, size) ==> next(d) == (region(d) || d == c)
    ensures Painted(p, Set(q, c, shade(c)), size, next, shade)
  {
  }

  lemma PaintSame(p: Picture, q: Picture, size: nat, region: Cell -> bool, next: Cell -> bool, shade: Cell -> bool)
    requires Painted(p, q, size, region, shade)
    requires forall d: Cell :: Inside(d, size) ==> next(d) == region(d)
    ensures Painted(p, q, size, next, shade)
  {
  }

  lemma PaintNothing(p: Picture, size: nat, region: Cell -> bool, shade: Cell -> bool)
    requires p.Valid(size) && forall d: Cell :: Inside(d, size) ==> !region(d)
    ensures Painted(p, p, size, region, shade)
  {
  }

  /** The n-th format cell shows the given bit. */
  predicate IsFormatPlace(size: nat, c: Cell, n: nat, bit: nat) {
    size >= 21 && Inside(c, size) && InFormat(size, c) && FormatStep(size, c) == n && FormatBit(size, c) == bit
  }

  function FormatCell(size: nat, n: nat): Cell
    requires size >= 21 && n < 30
  {
    if n <= 5 then Cell(8, n)
    else if n <= 7 then Cell(8, n + 1)
    else if n == 8 then Cell(7, 8)
    else if n < 15 then Cell(14 - n, 8)
    else if n < 23 then Cell(size + 14 - n, 8)
    else Cell(8, size + n - 30)
  }

  /** Bits 0 to 14 go to the copy at the upper left finder first, then to the copy at the other two. */
  lemma FormatPlace(size: nat, n: nat)
    requires size >= 21 && n < 30
    ensures IsFormatPlace(size, FormatCell(size, n), n, if n < 15 then n else n - 15)
  {
  }

  lemma FormatPlaceUnique(size: nat, c: Cell, n: nat, bit: nat)
    requires IsFormatPlace(size, c, n, bit)
    ensures forall d: Cell :: Inside(d, size) && InFormat(size, d) && FormatStep(size, d) == n ==> d == c
  {
  }

  lemma FormatEnds(size: nat, p: Picture, mask: nat)
    requires p.Valid(size)
    ensures Painted(p, p, size, c => FormatBefore(size, 0, c), c => FormatShows(size, mask, c))
  {
  }

  lemma VersionStart(version: Version, p: Picture)
    requires p.Valid(SizeOf(version))
    ensures Painted(p, p, SizeOf(version), c => VersionBefore(version, 0, c), c => VersionShows(version, c))
  {
  }

  lemma VersionPlaces(version: Version, bit: nat)
    requires version >= 7 && bit < 18
    ensures var near, far := SizeOf(version) - 11 + bit % 3, bit / 3;
      && near != far && InVersion(version, Cell(near, far)) && InVersion(version, Cell(far, near))
      && forall d: Cell :: InVersion(version, d) && VersionBit(version, d) == bit <==> d == Cell(near, far) || d == Cell(far, near)
  {
    assert bit == 3 * (bit / 3) + bit % 3;
  }

  class Matrix {
    const size: nat
    var modules: Grid
    var reserved: Grid

    ghost function View(): Picture
      reads this
    {
      Picture(modules, reserved)
    }

    ghost predicate Valid()
      reads this
    {
      View().Valid(size)
    }

    /** All cells light, none reserved. */
    constructor (size: nat)
      requires size >= 21
      ensures Valid() && this.size == size
      ensures forall c: Cell :: Inside(c, size) ==> !At(modules, c) && !At(reserved, c)
    {
      this.size := size;
      modules := seq(size, _ => seq(size, _ => false));
      reserved := seq(size, _ => seq(size, _ => false));
    }

    method SetFunction(x: nat, y: nat, dark: bool)
      requires Valid() && x < size && y < size
      modifies this
      ensures Valid() && View() == Set(old(View()), Cell(x, y), dark)
    {
      modules := Put(modules, Cell(x, y), dark);
      reserved := Put(reserved, Cell(x, y), true);
    }

    method DrawTiming()
      requires Valid()
      modifies this
      ensures Painted(old(View()), View(), size, c => InTiming(c), TimingDark)
    {
      hide Put, At;
      ghost var p := View();
      var i := 0;
      while i < size
        invariant i <= size && Valid() && Painted(p, View(), size, c => TimingBefore(c, i), TimingDark)
      {
        hide Painted;
        ghost var half := c => TimingBefore(c, i) || c == Cell(6, i);
        PaintCell(p, View(), size, c => TimingBefore(c, i), half, TimingDark, Cell(6, i));
        SetFunction(6, i, i % 2 == 0);
        PaintCell(p, View(), size, half, c => TimingBefore(c, i + 1), TimingDark, Cell(i, 6));
        SetFunction(i, 6, i % 2 == 0);
        i := i + 1;
      }
      PaintSame(p, View(), size, c => TimingBefore(c, i), c => InTiming(c), TimingDark);
    }

    /** A finder and its light border, clipped to the symbol. */
    method DrawFinder(cx: int, cy: int)
      requires Valid()
      modifies this
      ensures Valid()
      ensures Painted(old(View()), View(), size, c => Ring(c, cx, cy) <= 4, c => RingDark(c, cx, cy))
    {
      hide Put, At, Painted;
      ghost var p := View();
      ghost var shade := c => RingDark(c, cx, cy);
      PaintNothing(p, size, c => SquareBefore(c, cx, cy, 4, -4, -4), shade);
      var dy := -4;
      while dy <= 4
        invariant -4 <= dy <= 5 && Valid()
        invariant Painted(p, View(), size, c => SquareBefore(c, cx, cy, 4, -4, dy), shade)
      {
        var dx := -4;
        while dx <= 4
          invariant -4 <= dx <= 5 && Valid()
          invariant Painted(p, View(), size, c => SquareBefore(c, cx, cy, 4, dx, dy), shade)
        {
          var x, y := cx + dx, cy + dy;
          var distance := if Abs(dx) > Abs(dy) then Abs(dx) else Abs(dy);
          if x >= 0 && x < size && y >= 0 && y < size {
            PaintCell(p, View(), size, c => SquareBefore(c, cx, cy, 4, dx, dy), c => SquareBefore(c, cx, cy, 4, dx + 1, dy), shade, Cell(x, y));
            SetFunction(x, y, distance != 2 && distance != 4);
          } else {
            PaintSame(p, View(), size, c => SquareBefore(c, cx, cy, 4, dx, dy), c => SquareBefore(c, cx, cy, 4, dx + 1, dy), shade);
          }
          dx := dx + 1;
        }
        PaintSame(p, View(), size, c => SquareBefore(c, cx, cy, 4, dx, dy), c => SquareBefore(c, cx, cy, 4, -4, dy + 1), shade);
        dy := dy + 1;
      }
      PaintSame(p, View(), size, c => SquareBefore(c, cx, cy, 4, -4, dy), c => Ring(c, cx, cy) <= 4, shade);
    }

    method DrawAlignmentSquare(ax: nat, ay: nat)
      requires Valid() && 2 <= ax && ax + 2 < size && 2 <= ay && ay + 2 < size
      modifies this
      ensures Valid()
      ensures Painted(old(View()), View(), size, c => Ring(c, ax, ay) <= 2, c => Ring(c, ax, ay) != 1)
    {
      hide Put, At, Painted;
      ghost var p := View();
      ghost var shade := c => Ring(c, ax, ay) != 1;
      PaintNothing(p, size, c => SquareBefore(c, ax, ay, 2, -2, -2), shade);
      var dy := -2;
      while dy <= 2
        invariant -2 <= dy <= 3 && Valid()
        invariant Painted(p, View(), size, c => SquareBefore(c, ax, ay, 2, -2, dy), shade)
      {
        var dx := -2;
        while dx <= 2
          invariant -2 <= dx <= 3 && Valid()
          invariant Painted(p, View(), size, c => SquareBefore(c, ax, ay, 2, dx, dy), shade)
        {
          var distance := if Abs(dx) > Abs(dy) then Abs(dx) else Abs(dy);
          PaintCell(p, View(), size, c => SquareBefore(c, ax, ay, 2, dx, dy), c => SquareBefore(c, ax, ay, 2, dx + 1, dy), shade, Cell(ax + dx, ay + dy));
          SetFunction(ax + dx, ay + dy, distance != 1);
          dx := dx + 1;
        }
        PaintSame(p, View(), size, c => SquareBefore(c, ax, ay, 2, dx, dy), c => SquareBefore(c, ax, ay, 2, -2, dy + 1), shade);
        dy := dy + 1;
      }
      PaintSame(p, View(), size, c => SquareBefore(c, ax, ay, 2, -2, dy), c => Ring(c, ax, ay) <= 2, shade);
    }

    /** The first n format cells show their bits. */
    ghost predicate FormatDone(p: Picture, mask: nat, n: nat)
      reads this
    {
      Valid() && Painted(p, View(), size, c => FormatBefore(size, n, c), c => FormatShows(size, mask, c))
    }

    /** `set` inside `drawFormatBits`: the n-th format cell. */
    method SetFormat(ghost p: Picture, mask: nat, c: Cell, bits: nat, bit: nat, ghost n: nat)
      requires FormatDone(p, mask, n)
      requires size >= 21 && bits == FormatWord(mask)
      requires n < 30 && c == FormatCell(size, n) && bit == if n < 15 then n else n - 15
      modifies this
      ensures FormatDone(p, mask, n + 1)
    {
      FormatPlace(size, n);
      FormatPlaceUnique(size, c, n, bit);
      hide Put, At, Painted, FormatWord, Shr, InFormat, FormatStep;
      PaintCell(p, View(), size, c => FormatBefore(size, n, c), c => FormatBefore(size, n + 1, c),
                c => FormatShows(size, mask, c), c);
      SetFunction(c.x, c.y, Shr(bits, bit) % 2 == 1);
    }

    /** `drawFormatBits` */
    method DrawFormatBits(mask: nat)
      requires Valid()
      modifies this
      ensures Valid() && Painted(old(View()), View(), size, c => InFormat(size, c), c => FormatShows(size, mask, c))
    {
      var bits := ComputeFormat(mask);
      ghost var p := View();
      FormatEnds(size, p, mask);
      assert FormatDone(p, mask, 0);
      hide FormatDone, View, Valid, FormatWord, Painted, FormatBefore, FormatShows;
      var a := 0;
      while a <= 5
        invariant 0 <= a <= 6 && FormatDone(p, mask, a)
      {
        SetFormat(p, mask, Cell(8, a), bits, a, a);
        a := a + 1;
      }
      SetFormat(p, mask, Cell(8, 7), bits, 6, 6);
      SetFormat(p, mask, Cell(8, 8), bits, 7, 7);
      SetFormat(p, mask, Cell(7, 8), bits, 8, 8);
      var b := 9;
      while b < 15
        invariant 9 <= b <= 15 && FormatDone(p, mask, b)
      {
        SetFormat(p, mask, Cell(14 - b, 8), bits, b, b);
        b := b + 1;
      }
      var k := 0;
      while k < 8
        invariant 0 <= k <= 8 && FormatDone(p, mask, 15 + k)
      {
        SetFormat(p, mask, Cell(size - 1 - k, 8), bits, k, 15 + k);
        k := k + 1;
      }
      var d := 8;
      while d < 15
        invariant 8 <= d <= 15 && FormatDone(p, mask, 15 + d)
      {
        SetFormat(p, mask, Cell(8, size - 15 + d), bits, d, 15 + d);
        d := d + 1;
      }
      FinishFormat(p, mask);
    }

    /** The module below the second copy is always dark. */
    method FinishFormat(ghost p: Picture, mask: nat)
      requires FormatDone(p, mask, 30)
      modifies this
      ensures Valid() && Painted(p, View(), size, c => InFormat(size, c), c => FormatShows(size, mask, c))
    {
      hide Put, At, FormatWord, Shr, Painted;
      PaintCell(p, View(), size, c => FormatBefore(size, 30, c), c => InFormat(size, c), c => FormatShows(size, mask, c), Cell(8, size - 8));
      SetFunction(8, size - 8, true);
    }

    method DrawVersion(version: Version)
      requires Valid() && version >= 7 && size == SizeOf(version)
      modifies this
      ensures Painted(old(View()), View(), size, c => InVersion(version, c), c => VersionShows(version, c))
    {
      var bits := ComputeVersion(version);
      ghost var p := View();
      ghost var shade := c => VersionShows(version, c);
      VersionStart(version, p);
      hide Put, At, VersionWord, Shr, Painted;
      var bit := 0;
      while bit < 18
        invariant 0 <= bit <= 18 && Valid()
        invariant Painted(p, View(), size, c => VersionBefore(version, bit, c), shade)
      {
        VersionPlaces(version, bit);
        hide InVersion, VersionBit;
        var dark := Shr(bits, bit) % 2 == 1;
        var near := size - 11 + bit % 3;
        var far := bit / 3;
        ghost var half := c => VersionBefore(version, bit, c) || c == Cell(near, far);
        PaintCell(p, View(), size, c => VersionBefore(version, bit, c), half, shade, Cell(near, far));
        SetFunction(near, far, dark);
        PaintCell(p, View(), size, half, c => VersionBefore(version, bit + 1, c), shade, Cell(far, near));
        SetFunction(far, near, dark);
        bit := bit + 1;
      }
      PaintSame(p, View(), size, c => VersionBefore(version, bit, c), c => InVersion(version, c), shade);
    }
  }

  method ComputeFormat(mask: nat) returns (bits: nat)
    ensures bits == FormatWord(mask)
  {
    var remainder := mask;
    var i := 0;
    while i < 10
      invariant i <= 10 && remainder == FormatRemainder(mask, i)
    {
      remainder := Xor(2 * remainder, (remainder / 512) * 0x537);
      i := i + 1;
    }
    bits := Xor(mask * 1024 + remainder, 0x5412);
  }

  method ComputeVersion(version: nat) returns (bits: nat)
    ensures bits == VersionWord(version)
  {
    var remainder := version;
    var r := 0;
    while r < 12
      invariant r <= 12 && remainder == VersionRemainder(version, r)
    {
      remainder := Xor(2 * remainder, (remainder / 2048) * 0x1f25);
      r := r + 1;
    }
    bits := version * 4096 + remainder;
  }
}
