/** The tables, places and pictures of ISO/IEC 18004:2015 that a symbol of level M must show, written out apart from the
    formulas and loops that compute them (design/assets/qrcode.js). */
module SymbolStandard {
  import opened BitOps
  import opened Gf256
  import opened QrTables
  import opened Message
  import opened Blocks
  import opened Zigzag
  import opened Patterns
  import opened Symbol
  import opened Placement
  import opened Create
  import opened Encoder
  import FormatCode

  // ----- the field ---------------------------------------------------------------------------------------------------------

  /** The product of the field is the product without carries, up to a multiple of the field polynomial. */
  lemma {:induction false} ProductReduced(x: byte, y: byte) returns (q: nat)
    ensures Xor(FormatCode.Product(y, x), Mul(x, y)) == FormatCode.Product(q, 0x11d)
    decreases y
  {
    hide Xor, Mul, FormatCode.Product;
    if y == 0 {
      q := 0;
      ProductsOfZero(x);
      XorZero(0);
    } else {
      q := ProductReduced(x, y / 2);
      var m: nat, d := Mul(x, y / 2), y % 2;
      var r := Doubled(m);
      MulAsXor(x, y, m, d);
      FormatCode.ProductDigit(y / 2, d, x);
      XorSwap(2 * FormatCode.Product(y / 2, x), d * x, r, d * x);
      XorSelf(d * x);
      XorZero(Xor(2 * FormatCode.Product(y / 2, x), r));
      FormatCode.RoundDivides(FormatCode.Product(y / 2, x), q, m, m / 128, 0x11d);
      q := 2 * q + m / 128;
    }
  }

  lemma ProductsOfZero(x: byte)
    ensures Mul(x, 0) == 0 && FormatCode.Product(0, x) == 0 && FormatCode.Product(0, 0x11d) == 0
  {
  }

  /** One round of the multiplication, in plain numbers. */
  function Doubled(m: nat): nat { Xor(2 * m, (m / 128) * 0x11d) }

  function DigitTimes(d: nat, x: nat): nat { d * x }

  lemma MulAsXor(x: byte, y: byte, m: byte, d: nat)
    requires m == Mul(x, y / 2) && d == y % 2
    ensures Mul(x, y) == Xor(Doubled(m), DigitTimes(d, x))
  {
    hide Mul, Xor;
    MulStep(x, y);
  }

  lemma FieldPolynomial()
    ensures FormatCode.Poly([8, 4, 3, 2, 0]) == 0x11d
  {
    FormatCode.Powers();
    EightIsPower();
    hide Pow2, FormatCode.Poly;
    FormatCode.NoTerms();
    FormatCode.PolyFirst(0, []);
    FormatCode.PolyFirst(2, [0]);
    FormatCode.PolyFirst(3, [2, 0]);
    FormatCode.PolyFirst(4, [3, 2, 0]);
    FormatCode.PolyFirst(8, [4, 3, 2, 0]);
    assert [8, 4, 3, 2, 0] == [8] + [4, 3, 2, 0] && [4, 3, 2, 0] == [4] + [3, 2, 0] && [3, 2, 0] == [3] + [2, 0] && [2, 0] == [2] + [0] && [0] == [0] + [];
  }

  lemma EightIsPower()
    ensures Pow2(3) == 8
  {
  }

  /** Multiplication is that of binary polynomials modulo x^8 + x^4 + x^3 + x^2 + 1. */
  lemma FieldProduct(x: byte, y: byte)
    ensures FormatCode.Divides(FormatCode.Poly([8, 4, 3, 2, 0]), Xor(FormatCode.Product(y, x), Mul(x, y)))
  {
    var q := ProductReduced(x, y);
    FieldPolynomial();
  }

  // ----- the masks ---------------------------------------------------------------------------------------------------------

  lemma SumMasks(x: nat, y: nat)
    ensures MaskApplies(0, x, y) <==> x % 2 == y % 2
    ensures MaskApplies(1, x, y) <==> y % 2 == 0
    ensures MaskApplies(2, x, y) <==> x % 3 == 0
    ensures MaskApplies(3, x, y) <==> (x + y) % 3 == 0
    ensures MaskApplies(4, x, y) <==> (x % 6 < 3 <==> y % 4 < 2)
  {
    SameParity(x, y);
    Parts(x, 6);
    Parts(y, 4);
    ThirdsAndHalves(x / 6, x % 6, y / 4, y % 4);
  }

  lemma Parts(v: nat, m: nat)
    requires m > 0
    ensures v == m * (v / m) + v % m && v % m < m
  {
  }

  /** The three masks that look at a product. */
  lemma ProductIs(x: nat, y: nat, v: nat)
    requires v == x * y
    ensures MaskApplies(5, x, y) <==> v % 2 + v % 3 == 0
    ensures MaskApplies(6, x, y) <==> (v % 2 + v % 3) % 2 == 0
    ensures MaskApplies(7, x, y) <==> ((x + y) % 2 + v % 3) % 2 == 0
  {
  }

  lemma ProductMasks(v: nat)
    ensures v % 2 + v % 3 == 0 <==> v % 6 == 0
    ensures (v % 2 + v % 3) % 2 == 0 <==> v % 6 < 3
  {
    Parts(v, 6);
    SixthParts(v / 6, v % 6);
  }

  lemma ParityMask(d: nat, r: nat)
    requires d < 2 && r < 3
    ensures (d + r) % 2 == 0 <==> (if d == 0 then r != 1 else r == 1)
  {
  }

  /** Where each of the eight masks flips a module (table 10 of the standard), the composite ones by their residues. */
  lemma MaskMeaning(x: nat, y: nat)
    ensures MaskApplies(0, x, y) <==> x % 2 == y % 2
    ensures MaskApplies(1, x, y) <==> y % 2 == 0
    ensures MaskApplies(2, x, y) <==> x % 3 == 0
    ensures MaskApplies(3, x, y) <==> (x + y) % 3 == 0
    ensures MaskApplies(4, x, y) <==> (x % 6 < 3 <==> y % 4 < 2)
    ensures MaskApplies(5, x, y) <==> x * y % 6 == 0
    ensures MaskApplies(6, x, y) <==> x * y % 6 < 3
    ensures MaskApplies(7, x, y) <==> (if x % 2 == y % 2 then x * y % 3 != 1 else x * y % 3 == 1)
  {
    hide MaskApplies;
    var v := x * y;
    SumMasks(x, y);
    ProductIs(x, y, v);
    ProductMasks(v);
    SameParity(x, y);
    ParityMask((x + y) % 2, v % 3);
  }

  lemma SameParity(x: nat, y: nat)
    ensures (x + y) % 2 == if x % 2 == y % 2 then 0 else 1
  {
  }

  lemma ThirdsAndHalves(a: nat, r: nat, b: nat, t: nat)
    requires r < 6 && t < 4
    ensures (((6 * a + r) / 3 + (4 * b + t) / 2) % 2 == 0) <==> (r < 3 <==> t < 2)
  {
    Thirds(a, r);
    Halves(b, t);
  }

  lemma Thirds(a: nat, r: nat)
    requires r < 6
    ensures (6 * a + r) / 3 == 2 * a + if r < 3 then 0 else 1
  {
  }

  lemma Halves(b: nat, t: nat)
    requires t < 4
    ensures (4 * b + t) / 2 == 2 * b + if t < 2 then 0 else 1
  {
  }

  lemma SixthParts(q: nat, r: nat)
    requires r < 6
    ensures (6 * q + r) % 2 + (6 * q + r) % 3 == 0 <==> r == 0
    ensures ((6 * q + r) % 2 + (6 * q + r) % 3) % 2 == 0 <==> r < 3
  {
    MultipleAway(3 * q, r, 2);
    MultipleAway(2 * q, r, 3);
  }

  lemma MultipleAway(q: nat, r: nat, m: nat)
    requires m == 2 || m == 3
    ensures (m * q + r) % m == r % m
  {
    if m == 2 { assert (2 * q + r) % 2 == r % 2; } else { assert (3 * q + r) % 3 == r % 3; }
  }

  // ----- the zigzag --------------------------------------------------------------------------------------------------------

  /** How many cells come before a pair of columns. */
  function FirstOf(pair: nat, size: nat): nat { pair * (2 * size) }

  /** Column 6 does not count; the columns are taken in pairs from the right, upwards first and then in turns, the right cell of a
      row before the left one (section 7.7.3). */
  ghost predicate VisitedAt(size: nat, c: Cell, k: nat)
    requires Inside(c, size) && c.x != 6 && size > 8
  {
    var column := if c.x < 6 then c.x else c.x - 1;
    var pair, side := (size - 2 - column) / 2, (size - 2 - column) % 2;
    k == FirstOf(pair, size) + 2 * (if pair % 2 == 0 then size - 1 - c.y else c.y) + side
  }

  lemma StripVisits(size: nat, right: nat, c: Cell)
    requires right > 0 && right - 1 <= c.x <= right && c.y < size
    ensures var k := 2 * (if Upward(right) then size - 1 - c.y else c.y) + (right - c.x);
      k < 2 * size && Strip(right, size)[k] == c
  {
  }

  lemma PairParity(size: nat, right: nat, pair: nat)
    requires size % 4 == 1 && 0 < right && (if right < 6 then right else right - 1) + 2 * pair == size - 2
    ensures Upward(right) <==> pair % 2 == 0
  {
  }

  lemma InPair(size: nat, right: nat, pair: nat, base: nat, c: Cell, k: nat)
    requires size % 4 == 1 && size > 8 && 0 < right && (if right < 6 then right else right - 1) + 2 * pair == size - 2
    requires right != 6 && base == FirstOf(pair, size)
    requires right - 1 <= c.x <= right && c.x != 6 && c.y < size && VisitedAt(size, c, k)
    ensures base <= k < base + 2 * size && Strip(right, size)[k - base] == c
  {
    PairParity(size, right, pair);
    var column := if c.x < 6 then c.x else c.x - 1;
    assert size - 2 - column == 2 * pair + (right - c.x);
    assert (size - 2 - column) / 2 == pair && (size - 2 - column) % 2 == right - c.x;
    StripVisits(size, right, c);
  }

  lemma {:induction false} StripsVisit(size: nat, right: int, pair: nat, base: nat, c: Cell, k: nat)
    requires size % 4 == 1 && size > 8 && StripStart(right) && right <= size - 1 && base == FirstOf(pair, size)
    requires 2 * pair + right == if right <= 5 then size - 2 else size - 1
    requires c.x <= right && c.x != 6 && c.y < size && VisitedAt(size, c, k)
    ensures base <= k < base + |Strips(right, size)|
    ensures Strips(right, size)[k - base] == c
    decreases right
  {
    hide Strip, VisitedAt, Strips, FirstOf;
    var r := if right == 6 then 5 else right;
    StripsStep(right, size);
    if r - 1 <= c.x {
      InPair(size, r, pair, base, c, k);
    } else {
      NextBase(pair, size);
      StripsVisit(size, r - 2, pair + 1, base + 2 * size, c, k);
    }
  }

  lemma StripsStep(right: nat, size: nat)
    requires right > 0
    ensures var r := if right == 6 then 5 else right;
      |Strip(r, size)| == 2 * size && Strips(right, size) == Strip(r, size) + Strips(r - 2, size)
  {
  }

  lemma NextBase(pair: nat, size: nat)
    ensures FirstOf(pair + 1, size) == FirstOf(pair, size) + 2 * size
    ensures FirstOf(0, size) == 0
  {
  }

  /** The walk meets every cell at its place in the standard's order. */
  lemma WalkOrder(version: Version, c: Cell, k: nat)
    requires Inside(c, SizeOf(version)) && c.x != 6
    requires VisitedAt(SizeOf(version), c, k)
    ensures k < |Walk(SizeOf(version))| && Walk(SizeOf(version))[k] == c
  {
    hide Strips, FirstOf;
    NextBase(0, SizeOf(version));
    StripsVisit(SizeOf(version), SizeOf(version) - 1, 0, 0, c, k);
  }

  // ----- where the format and version bits are ------------------------------------------------------------------------------

  /** Figure 25 of the standard: the copy around the upper left finder, the most significant bit first. */
  function FirstCopy(): (r: seq<Cell>)
    ensures |r| == 15
  {
    [Cell(0, 8), Cell(1, 8), Cell(2, 8), Cell(3, 8), Cell(4, 8), Cell(5, 8), Cell(7, 8), Cell(8, 8),
     Cell(8, 7), Cell(8, 5), Cell(8, 4), Cell(8, 3), Cell(8, 2), Cell(8, 1), Cell(8, 0)]
  }

  /** The other copy: up the column beside the lower left finder, then along the row below the upper right one. */
  function SecondCopy(size: nat): (r: seq<Cell>)
    requires size >= 21
    ensures |r| == 15
  {
    [Cell(8, size - 1), Cell(8, size - 2), Cell(8, size - 3), Cell(8, size - 4), Cell(8, size - 5), Cell(8, size - 6), Cell(8, size - 7),
     Cell(size - 8, 8), Cell(size - 7, 8), Cell(size - 6, 8), Cell(size - 5, 8), Cell(size - 4, 8), Cell(size - 3, 8), Cell(size - 2, 8),
     Cell(size - 1, 8)]
  }

  /** Figure 27: three columns left of the upper right finder, read from the bottom right; the other copy is the transpose. */
  function VersionPlaces(size: nat, upper: bool): (r: seq<Cell>)
    requires size >= 21
    ensures |r| == 18
  {
    var places := [
      Cell(size - 9, 5), Cell(size - 10, 5), Cell(size - 11, 5), Cell(size - 9, 4), Cell(size - 10, 4), Cell(size - 11, 4),
      Cell(size - 9, 3), Cell(size - 10, 3), Cell(size - 11, 3), Cell(size - 9, 2), Cell(size - 10, 2), Cell(size - 11, 2),
      Cell(size - 9, 1), Cell(size - 10, 1), Cell(size - 11, 1), Cell(size - 9, 0), Cell(size - 10, 0), Cell(size - 11, 0)];
    seq(18, i requires 0 <= i < 18 => if upper then places[i] else Cell(places[i].y, places[i].x))
  }

  /** What a scanner reads from a row of modules. */
  function Shown(g: Grid, cells: seq<Cell>): (r: seq<bool>)
    requires Within(cells, g)
    ensures |r| == |cells|
  {
    seq(|cells|, i requires 0 <= i < |cells| => At(g, cells[i]))
  }

  lemma FormatPlaceOf(size: nat, i: nat)
    requires size >= 21 && i < 15
    ensures InFormat(size, FirstCopy()[i]) && FormatBit(size, FirstCopy()[i]) == 14 - i
    ensures InFormat(size, SecondCopy(size)[i]) && FormatBit(size, SecondCopy(size)[i]) == 14 - i
  {
  }

  lemma VersionPlaceOf(version: Version, upper: bool, i: nat)
    requires version >= 7 && i < 18
    ensures var c := VersionPlaces(SizeOf(version), upper)[i];
      InVersion(version, c) && VersionBit(version, c) == 17 - i
  {
  }

  lemma WordWidths(mask: nat, version: Version)
    ensures mask < 8 ==> FormatWord(mask) < Pow2(15)
    ensures VersionWord(version) < Pow2(18)
  {
    var r := FormatCode.VersionDivides(version, 12);
    HighPowers();
    hide Xor, Pow2, VersionRemainder, FormatRemainder;
    if mask < 8 {
      FormatRemainderSmall(mask, 10);
      XorTop(mask * 1024 + FormatRemainder(mask, 10), 0x5412, 14);
    }
  }

  lemma HighPowers()
    ensures Pow2(14) == 16384 && Pow2(15) == 32768 && Pow2(18) == 262144
  {
    FormatCode.Powers();
    assert Pow2(13) == 8192;
    assert Pow2(16) == 2 * Pow2(15) && Pow2(17) == 2 * Pow2(16);
  }

  /** Cells that show the digits of a word show its binary digits, most significant first. */
  lemma ShownWord(g: Grid, cells: seq<Cell>, word: nat)
    requires Within(cells, g) && word < Pow2(|cells|)
    requires forall i :: 0 <= i < |cells| ==> At(g, cells[i]) == (Shr(word, |cells| - 1 - i) % 2 == 1)
    ensures Number(Shown(g, cells)) == word
  {
    hide Number, BitRow, Shr, Pow2, At;
    var n := |cells|;
    forall i | 0 <= i < n ensures Shown(g, cells)[i] == BitRow(word, n)[i] { BitRowAt(word, n, i); }
    assert Shown(g, cells) == BitRow(word, n);
    NumberOfBitRow(word, n);
  }

  lemma AllInside(g: Grid, size: nat, cells: seq<Cell>)
    requires Square(g, size) && forall i :: 0 <= i < |cells| ==> Inside(cells[i], size)
    ensures Within(cells, g)
  {
  }

  lemma CopiesWithin(g: Grid, size: nat)
    requires Square(g, size) && size >= 21
    ensures Within(FirstCopy(), g) && Within(SecondCopy(size), g)
  {
    AllInside(g, size, FirstCopy());
    AllInside(g, size, SecondCopy(size));
  }

  lemma PlacesWithin(g: Grid, size: nat, upper: bool)
    requires Square(g, size) && size >= 21
    ensures Within(VersionPlaces(size, upper), g)
  {
    AllInside(g, size, VersionPlaces(size, upper));
  }

  lemma DrawnFormat(g: Grid, plain: Grid, version: Version, mask: nat, c: Cell)
    requires IsDrawn(g, plain, version, mask) && Inside(c, SizeOf(version)) && InFormat(SizeOf(version), c)
    ensures At(g, c) == (FormatBit(SizeOf(version), c) < 0 || Shr(FormatWord(mask), FormatBit(SizeOf(version), c)) % 2 == 1)
  {
    hide Candidate, FormatBit, FormatWord, Shr, At;
    CandidateAt(plain, version, mask, c);
  }

  lemma DrawnVersion(g: Grid, plain: Grid, version: Version, mask: nat, c: Cell)
    requires IsDrawn(g, plain, version, mask) && Inside(c, SizeOf(version)) && InVersion(version, c)
    ensures At(g, c) == (Shr(VersionWord(version), VersionBit(version, c)) % 2 == 1)
  {
    hide Candidate, VersionBit, VersionWord, Shr, At, InVersion, InFinder, InFormat, InAlignment;
  }

  lemma CopyShown(g: Grid, plain: Grid, version: Version, mask: nat, i: nat)
    requires IsDrawn(g, plain, version, mask) && i < 15
    ensures Within(FirstCopy(), g) && Within(SecondCopy(SizeOf(version)), g)
    ensures At(g, FirstCopy()[i]) == (Shr(FormatWord(mask), 14 - i) % 2 == 1)
    ensures At(g, SecondCopy(SizeOf(version))[i]) == (Shr(FormatWord(mask), 14 - i) % 2 == 1)
  {
    hide Candidate, FormatWord, Shr, IsDrawn, InFormat, FormatBit, FirstCopy, SecondCopy, At;
    var size := SizeOf(version);
    DrawnSquare(g, plain, version, mask);
    CopiesWithin(g, size);
    FormatPlaceOf(size, i);
    assert FirstCopy()[i] in FirstCopy() && SecondCopy(size)[i] in SecondCopy(size);
    DrawnFormat(g, plain, version, mask, FirstCopy()[i]);
    DrawnFormat(g, plain, version, mask, SecondCopy(size)[i]);
  }

  /** Both format copies of a drawn symbol read as the format word of its mask, and the module beside the lower one is dark. */
  lemma FormatCopies(g: Grid, plain: Grid, version: Version, mask: nat)
    requires IsDrawn(g, plain, version, mask)
    ensures Within(FirstCopy(), g) && Within(SecondCopy(SizeOf(version)), g)
    ensures Number(Shown(g, FirstCopy())) == FormatWord(mask) == Number(Shown(g, SecondCopy(SizeOf(version))))
    ensures g[SizeOf(version) - 8][8]
  {
    hide Candidate, FormatWord, Shr, IsDrawn, Number, Pow2, InFormat, FormatBit, FirstCopy, SecondCopy, Shown;
    var size := SizeOf(version);
    DrawnSquare(g, plain, version, mask);
    CopiesWithin(g, size);
    WordWidths(mask, version);
    forall i: nat | i < 15 { CopyShown(g, plain, version, mask, i); }
    ShownWord(g, FirstCopy(), FormatWord(mask));
    ShownWord(g, SecondCopy(size), FormatWord(mask));
    DarkModule(size);
    DrawnFormat(g, plain, version, mask, Cell(8, size - 8));
  }

  lemma DarkModule(size: nat)
    requires size >= 21
    ensures InFormat(size, Cell(8, size - 8)) && FormatBit(size, Cell(8, size - 8)) < 0
  {
  }

  lemma DrawnSquare(g: Grid, plain: Grid, version: Version, mask: nat)
    requires IsDrawn(g, plain, version, mask)
    ensures mask < 8 && Square(g, SizeOf(version))
  {
  }

  lemma PlaceShown(g: Grid, plain: Grid, version: Version, mask: nat, upper: bool, i: nat)
    requires IsDrawn(g, plain, version, mask) && version >= 7 && i < 18
    ensures Within(VersionPlaces(SizeOf(version), upper), g)
    ensures At(g, VersionPlaces(SizeOf(version), upper)[i]) == (Shr(VersionWord(version), 17 - i) % 2 == 1)
  {
    hide Candidate, VersionWord, Shr, IsDrawn, InVersion, VersionBit, VersionPlaces, At;
    var places := VersionPlaces(SizeOf(version), upper);
    DrawnSquare(g, plain, version, mask);
    PlacesWithin(g, SizeOf(version), upper);
    VersionPlaceOf(version, upper, i);
    assert places[i] in places;
    DrawnVersion(g, plain, version, mask, places[i]);
  }

  /** From version 7 on both version copies read as the version word. */
  lemma VersionCopies(g: Grid, plain: Grid, version: Version, mask: nat, upper: bool)
    requires IsDrawn(g, plain, version, mask) && version >= 7
    ensures Within(VersionPlaces(SizeOf(version), upper), g)
    ensures Number(Shown(g, VersionPlaces(SizeOf(version), upper))) == VersionWord(version)
  {
    hide Candidate, VersionWord, Shr, IsDrawn, Number, Pow2, InVersion, VersionBit, VersionPlaces, Shown;
    DrawnSquare(g, plain, version, mask);
    PlacesWithin(g, SizeOf(version), upper);
    WordWidths(8, version);
    forall i: nat | i < 18 { PlaceShown(g, plain, version, mask, upper, i); }
    ShownWord(g, VersionPlaces(SizeOf(version), upper), VersionWord(version));
  }

  /** In how many places two rows of modules differ. */
  function Wrong(s: seq<bool>, t: seq<bool>): nat
    requires |s| == |t|
  {
    if s == [] then 0
    else
      var n := |s| - 1;
      Wrong(s[..n], t[..n]) + (if s[n] == t[n] then 0 else 1)
  }

  lemma {:induction false} DifferingDigits(s: seq<bool>, t: seq<bool>)
    requires |s| == |t|
    ensures FormatCode.Differing(Number(s), Number(t)) == Wrong(s, t)
  {
    hide FormatCode.Differing;
    if s == [] {
      assert t == [];
      FormatCode.NoDigits();
    } else {
      DifferingDigits(s[..|s| - 1], t[..|t| - 1]);
      FormatCode.DifferingHalf(Number(s), Number(t));
    }
  }

  /** A copy of the format information seen with up to three wrong modules is still nearest to the word of its own mask. */
  lemma FormatSurvives(g: Grid, plain: Grid, version: Version, mask: nat, seen: seq<bool>, second: bool, other: nat)
    requires IsDrawn(g, plain, version, mask) && other < 8 && other != mask
    requires Within(FirstCopy(), g) && Within(SecondCopy(SizeOf(version)), g)
    requires |seen| == 15 && Wrong(seen, Shown(g, if second then SecondCopy(SizeOf(version)) else FirstCopy())) <= 3
    ensures FormatCode.Differing(Number(seen), FormatWord(mask)) <= 3 < FormatCode.Differing(Number(seen), FormatWord(other))
  {
    hide Candidate, IsDrawn, FormatWord, Number, FormatCode.Differing, FirstCopy, SecondCopy, Shown, Wrong;
    DrawnSquare(g, plain, version, mask);
    FormatCopies(g, plain, version, mask);
    DifferingDigits(seen, Shown(g, if second then SecondCopy(SizeOf(version)) else FirstCopy()));
    FormatCode.FormatNearest(Number(seen), mask, other);
  }

  // ----- the tables --------------------------------------------------------------------------------------------------------

  /** Annex E: the centres of the alignment patterns of versions 1 to 15. */
  const ALIGNMENT_CENTRES: seq<seq<nat>> := [
    [], [6, 18], [6, 22], [6, 26], [6, 30], [6, 34], [6, 22, 38], [6, 24, 42], [6, 26, 46], [6, 28, 50], [6, 30, 54], [6, 32, 58],
    [6, 34, 62], [6, 26, 46, 66], [6, 26, 48, 70]]

  lemma AlignmentCentres(version: Version)
    ensures AlignmentPositions(version) == ALIGNMENT_CENTRES[version - 1]
  {
    if version < 7 {
    } else if version < 14 {
      assert (version * 8 + 3 * 3 + 5) / 8 == version + 1;
    } else if version == 14 {
      assert (14 * 8 + 4 * 3 + 5) / 12 == 10;
    } else {
      assert (15 * 8 + 4 * 3 + 5) / 12 == 11;
    }
  }

  /** Table 9 for level M, versions 1 to 15: blocks, how many of them are short, the data symbols of a short one, the error-correction
      symbols of each. */
  const BLOCK_TABLE: seq<Layout> := [
    Layout(1, 1, 16, 10), Layout(1, 1, 28, 16), Layout(1, 1, 44, 26), Layout(2, 2, 32, 18), Layout(2, 2, 43, 24),
    Layout(4, 4, 27, 16), Layout(4, 4, 31, 18), Layout(4, 2, 38, 22), Layout(5, 3, 36, 22), Layout(5, 4, 43, 26),
    Layout(5, 1, 50, 30), Layout(8, 6, 36, 22), Layout(9, 8, 37, 22), Layout(9, 4, 40, 24), Layout(10, 5, 41, 24)]

  lemma BlockTable(version: Version)
    ensures LayoutOf(version) == BLOCK_TABLE[version - 1]
  {
    hide RawLength;
    RawLengths(version);
  }

  /** Table 7: the data codewords of level M. */
  lemma DataTable(version: Version)
    ensures DataCodewords(version) == [16, 28, 44, 64, 86, 108, 124, 154, 182, 216, 254, 290, 334, 365, 415][version - 1]
  {
    hide RawLength;
    RawLengths(version);
  }

  // ----- the pictures ------------------------------------------------------------------------------------------------------

  /** The first centre is 6, the last is size - 7, and the gaps are at least 12. */
  lemma CentreRange(version: Version, i: nat)
    requires i < |AlignmentPositions(version)|
    ensures var p := AlignmentPositions(version);
      && (if i == 0 then p[i] == 6 else 18 <= p[i])
      && (if i == |p| - 1 then p[i] + 7 == SizeOf(version) else p[i] + 19 <= SizeOf(version))
  {
    PositionFacts(version);
    var p := AlignmentPositions(version);
    hide AlignmentPositions;
    if |p| > 1 { assert p[0] + 12 <= p[1]; }
    if |p| > 2 { assert p[1] + 12 <= p[2]; }
    if |p| > 3 { assert p[2] + 12 <= p[3]; }
  }

  lemma FarFromFinders(version: Version, row: nat, column: nat, c: Cell)
    requires row < |AlignmentPositions(version)| && column < |AlignmentPositions(version)|
    requires InAlignmentSquare(AlignmentPositions(version), row, column, c)
    ensures !InFinder(SizeOf(version), c) && !InFormat(SizeOf(version), c) && !InVersion(version, c)
  {
    hide AlignmentPositions;
    CentreRange(version, row);
    CentreRange(version, column);
  }

  lemma NoAlignment(version: Version, c: Cell)
    requires InFinder(SizeOf(version), c)
    ensures LastSquare(AlignmentPositions(version), |AlignmentPositions(version)| * |AlignmentPositions(version)|, c) == -1
  {
    hide AlignmentPositions, InFinder, InAlignmentSquare, LastSquare;
    AlignmentIsLast(AlignmentPositions(version), c);
    if InAlignment(AlignmentPositions(version), c) {
      var row: nat, column: nat :| row < |AlignmentPositions(version)| && column < |AlignmentPositions(version)|
        && InAlignmentSquare(AlignmentPositions(version), row, column, c);
      FarFromFinders(version, row, column, c);
    }
  }

  /** In a corner x counts the columns and y the rows from the two edges that meet there. */
  function CornerCell(size: nat, right: bool, lower: bool, x: nat, y: nat): Cell
    requires x < size && y < size
  {
    Cell(if right then size - 1 - x else x, if lower then size - 1 - y else y)
  }

  /** Figure 4: the outer ring of seven by seven modules and the inner three by three are dark, the rest and the separator are light. */
  lemma FinderPicture(version: Version, mask: nat, right: bool, lower: bool, x: nat, y: nat)
    requires x < 8 && y < 8 && !(right && lower)
    ensures var c := CornerCell(SizeOf(version), right, lower, x, y);
      && IsFunction(version, c)
      && (FunctionDark(version, mask, c) <==>
          x < 7 && y < 7 && (x == 0 || x == 6 || y == 0 || y == 6 || (2 <= x <= 4 && 2 <= y <= 4)))
  {
    hide AlignmentPositions, LastSquare;
    var c := CornerCell(SizeOf(version), right, lower, x, y);
    NoAlignment(version, c);
    CornerRing(SizeOf(version), right, lower, x, y);
    hide FinderDark, InAlignment;
  }

  lemma CornerRing(size: nat, right: bool, lower: bool, x: nat, y: nat)
    requires x < 8 && y < 8 && !(right && lower) && size >= 21
    ensures InFinder(size, CornerCell(size, right, lower, x, y))
    ensures FinderDark(size, CornerCell(size, right, lower, x, y)) <==>
      x < 7 && y < 7 && (x == 0 || x == 6 || y == 0 || y == 6 || (2 <= x <= 4 && 2 <= y <= 4))
  {
  }

  lemma SquaresApart(version: Version, row: nat, column: nat, otherRow: nat, otherColumn: nat, c: Cell)
    requires row < |AlignmentPositions(version)| && column < |AlignmentPositions(version)|
    requires otherRow < |AlignmentPositions(version)| && otherColumn < |AlignmentPositions(version)|
    requires InAlignmentSquare(AlignmentPositions(version), row, column, c)
    requires InAlignmentSquare(AlignmentPositions(version), otherRow, otherColumn, c)
    ensures row == otherRow && column == otherColumn
  {
    hide AlignmentPositions;
    CentresApart(version, row, otherRow);
    CentresApart(version, column, otherColumn);
  }

  lemma CentresApart(version: Version, i: nat, j: nat)
    requires i < |AlignmentPositions(version)| && j < |AlignmentPositions(version)|
    ensures AlignmentPositions(version)[i] % 2 == 0
    ensures i < j ==> AlignmentPositions(version)[i] + 12 <= AlignmentPositions(version)[j]
    ensures j < i ==> AlignmentPositions(version)[j] + 12 <= AlignmentPositions(version)[i]
  {
    AlignmentCentres(version);
    hide AlignmentPositions;
  }

  /** The k-th alignment square, row by row, holds the cell. */
  predicate SquareHas(positions: seq<nat>, k: nat, c: Cell)
    requires k < |positions| * |positions|
  {
    SquareIndex(|positions|, k);
    InAlignmentSquare(positions, k / |positions|, k % |positions|, c)
  }

  lemma LastSquareStep(positions: seq<nat>, k: nat, c: Cell)
    requires 0 < k <= |positions| * |positions|
    ensures LastSquare(positions, k, c) == if SquareHas(positions, k - 1, c) then k - 1 else LastSquare(positions, k - 1, c)
  {
    hide InAlignmentSquare;
  }

  lemma NoSquareYet(positions: seq<nat>, c: Cell)
    ensures LastSquare(positions, 0, c) == -1
  {
  }

  lemma {:induction false} LastSquareHolds(positions: seq<nat>, k: nat, c: Cell)
    requires k <= |positions| * |positions|
    ensures LastSquare(positions, k, c) >= 0 ==> SquareHas(positions, LastSquare(positions, k, c), c)
    decreases k
  {
    hide SquareHas, LastSquare;
    if k == 0 {
      NoSquareYet(positions, c);
    } else {
      LastSquareStep(positions, k, c);
      if !SquareHas(positions, k - 1, c) { LastSquareHolds(positions, k - 1, c); }
    }
  }

  /** The row and the column of the last square that holds the cell. */
  lemma LastSquareAt(positions: seq<nat>, c: Cell) returns (row: nat, column: nat)
    requires LastSquare(positions, |positions| * |positions|, c) >= 0
    ensures row < |positions| && column < |positions| && InAlignmentSquare(positions, row, column, c)
    ensures var last := LastSquare(positions, |positions| * |positions|, c); last / |positions| == row && last % |positions| == column
  {
    hide InAlignmentSquare, LastSquare;
    LastSquareHolds(positions, |positions| * |positions|, c);
    var last := LastSquare(positions, |positions| * |positions|, c);
    SquareIndex(|positions|, last);
    row, column := last / |positions|, last % |positions|;
  }

  /** The square that covers a cell is the one whose picture the cell shows. */
  lemma SquareShown(version: Version, mask: nat, row: nat, column: nat, c: Cell)
    requires row < |AlignmentPositions(version)| && column < |AlignmentPositions(version)|
    requires InAlignmentSquare(AlignmentPositions(version), row, column, c)
    ensures IsFunction(version, c)
    ensures FunctionDark(version, mask, c) <==> Ring(c, AlignmentPositions(version)[column], AlignmentPositions(version)[row]) != 1
  {
    hide AlignmentPositions, InAlignmentSquare, LastSquare, Ring, InFinder, InFormat, InVersion;
    var p := AlignmentPositions(version);
    var n := |p| * |p|;
    FarFromFinders(version, row, column, c);
    AlignmentIsLast(p, c);
    var lastRow, lastColumn := LastSquareAt(p, c);
    SquaresApart(version, row, column, lastRow, lastColumn, c);
  }

  /** Annex E: around every pair of centres but the three at the finders a ring of five by five and its middle are dark, the ring between
      them is light. */
  lemma AlignmentPicture(version: Version, mask: nat, row: nat, column: nat, x: nat, y: nat)
    requires row < |ALIGNMENT_CENTRES[version - 1]| && column < |ALIGNMENT_CENTRES[version - 1]| && x < 5 && y < 5
    requires !(row == 0 && column == 0)
    requires !(row == 0 && column == |ALIGNMENT_CENTRES[version - 1]| - 1) && !(row == |ALIGNMENT_CENTRES[version - 1]| - 1 && column == 0)
    ensures ALIGNMENT_CENTRES[version - 1][column] >= 6 && ALIGNMENT_CENTRES[version - 1][row] >= 6
    ensures var c := Cell(ALIGNMENT_CENTRES[version - 1][column] - 2 + x, ALIGNMENT_CENTRES[version - 1][row] - 2 + y);
      && IsFunction(version, c)
      && (FunctionDark(version, mask, c) <==> x == 0 || x == 4 || y == 0 || y == 4 || (x == 2 && y == 2))
  {
    hide AlignmentPositions, IsFunction, FunctionDark;
    AlignmentCentres(version);
    CentreRange(version, row);
    CentreRange(version, column);
    var p := AlignmentPositions(version);
    SquareShown(version, mask, row, column, Cell(p[column] - 2 + x, p[row] - 2 + y));
  }

  /** The timing lines alternate all the way between the finders, through the alignment patterns on them. */
  lemma TimingAlternates(version: Version, mask: nat, i: nat)
    requires 8 <= i < SizeOf(version) - 8
    ensures IsFunction(version, Cell(i, 6)) && IsFunction(version, Cell(6, i))
    ensures FunctionDark(version, mask, Cell(i, 6)) == (i % 2 == 0) == FunctionDark(version, mask, Cell(6, i))
  {
    hide FunctionDark;
    OnTimingLine(version, mask, Cell(i, 6), i);
    OnTimingLine(version, mask, Cell(6, i), i);
  }

  lemma OnTimingLine(version: Version, mask: nat, c: Cell, i: nat)
    requires 8 <= i < SizeOf(version) - 8 && (c == Cell(i, 6) || c == Cell(6, i))
    ensures FunctionDark(version, mask, c) == (i % 2 == 0)
  {
    hide AlignmentPositions, LastSquare;
    var p := AlignmentPositions(version);
    AlignmentIsLast(p, c);
    if InAlignment(p, c) {
      var row: nat, column: nat :| row < |p| && column < |p| && InAlignmentSquare(p, row, column, c);
      SquareShown(version, mask, row, column, c);
      CentreRange(version, row);
      CentreRange(version, column);
      CentresApart(version, row, column);
      CentresApart(version, column, row);
      hide FunctionDark;
    }
  }

  // ----- the message and the order of the codewords ------------------------------------------------------------------------

  lemma TerminatorPlace(used: nat, capacity: nat)
    requires used <= 8 * capacity && used % 8 == 4
    ensures Min(4, 8 * capacity - used) == 4 && (8 - (used + 4) % 8) % 8 == 0
  {
  }

  /** The padding as it is pushed, with the two counts given. */
  lemma PaddingIs(used: nat, capacity: nat, ended: nat, aligned: nat)
    requires used <= 8 * capacity && ended == used + Min(4, 8 * capacity - used) && aligned == ended + (8 - ended % 8) % 8
    ensures used <= ended <= aligned <= 8 * capacity
    ensures Padding(used, capacity) == BitRow(0, ended - used) + BitRow(0, aligned - ended) + ByteBits(Filler((8 * capacity - aligned) / 8))
  {
    hide BitRow, ByteBits, Filler, Min;
    PadArithmetic(used, capacity);
  }

  lemma TerminatorFits(used: nat, capacity: nat)
    requires used <= 8 * capacity && used % 8 == 4
    ensures used + 4 <= 8 * capacity
    ensures Padding(used, capacity) == BitRow(0, 4) + ByteBits(Filler((8 * capacity - used - 4) / 8))
  {
    hide BitRow, ByteBits, Filler, Padding, Min;
    TerminatorPlace(used, capacity);
    PaddingIs(used, capacity, used + 4, used + 4);
    NoRow(BitRow(0, 4));
  }

  lemma NoRow(row: seq<bool>)
    ensures row + BitRow(0, 0) == row
  {
  }

  lemma ModeRow()
    ensures BitRow(4, 4) == [false, true, false, false]
  {
  }

  lemma ZeroRow()
    ensures BitRow(0, 4) == [false, false, false, false]
  {
  }

  lemma NumberNext(s: seq<bool>, b: bool, t: seq<bool>)
    requires t == s + [b]
    ensures Number(t) == 2 * Number(s) + if b then 1 else 0
  {
    NumberPush(s, b);
  }

  lemma FirstFiller()
    ensures BitRow(0xec, 8) == [true, true, true, false, true, true, false, false]
  {
    hide BitRow, Number, Pow2;
    NumberNone();
    NumberNext([], true, [true]);
    NumberNext([true], true, [true, true]);
    NumberNext([true, true], true, [true, true, true]);
    NumberNext([true, true, true], false, [true, true, true, false]);
    NumberNext([true, true, true, false], true, [true, true, true, false, true]);
    NumberNext([true, true, true, false, true], true, [true, true, true, false, true, true]);
    NumberNext([true, true, true, false, true, true], false, [true, true, true, false, true, true, false]);
    NumberNext([true, true, true, false, true, true, false], false, [true, true, true, false, true, true, false, false]);
    BitRowOfNumber([true, true, true, false, true, true, false, false]);
  }

  lemma SecondFiller()
    ensures BitRow(0x11, 8) == [false, false, false, true, false, false, false, true]
  {
    hide BitRow, Number, Pow2;
    NumberNone();
    NumberNext([], false, [false]);
    NumberNext([false], false, [false, false]);
    NumberNext([false, false], false, [false, false, false]);
    NumberNext([false, false, false], true, [false, false, false, true]);
    NumberNext([false, false, false, true], false, [false, false, false, true, false]);
    NumberNext([false, false, false, true, false], false, [false, false, false, true, false, false]);
    NumberNext([false, false, false, true, false, false], false, [false, false, false, true, false, false, false]);
    NumberNext([false, false, false, true, false, false, false], true, [false, false, false, true, false, false, false, true]);
    BitRowOfNumber([false, false, false, true, false, false, false, true]);
  }

  lemma SliceAfter(a: seq<bool>, b: seq<bool>, i: nat, j: nat)
    requires i <= j <= |b|
    ensures (a + b)[|a| + i..|a| + j] == b[i..j]
  {
  }

  /** The message up to its end, and the filler after the terminator. */
  function Content(bytes: seq<byte>, version: Version): seq<bool> { Header(bytes, CountBits(version)) + ByteBits(bytes) }

  function Fillers(bytes: seq<byte>, version: Version): seq<byte>
    requires Fits(|bytes|, version)
  {
    Filler(DataCodewords(version) - |bytes| - (if version < 10 then 2 else 3))
  }

  lemma MessageIs(bytes: seq<byte>, version: Version)
    requires Fits(|bytes|, version)
    ensures |Content(bytes, version)| == 4 + CountBits(version) + 8 * |bytes|
    ensures MessageBits(bytes, CountBits(version), DataCodewords(version))
         == Content(bytes, version) + (BitRow(0, 4) + ByteBits(Fillers(bytes, version)))
  {
    hide BitRow, ByteBits, Filler, Padding, DataCodewords;
    TerminatorFits(|Content(bytes, version)|, DataCodewords(version));
    assert (8 * DataCodewords(version) - |Content(bytes, version)| - 4) / 8 == DataCodewords(version) - |bytes| - if version < 10 then 2 else 3;
  }

  /** Byte mode 0100, then the number of bytes, then the bytes (section 7.4.5). */
  lemma MessageStart(bytes: seq<byte>, version: Version, i: nat)
    requires Fits(|bytes|, version)
    ensures var bits := MessageBits(bytes, CountBits(version), DataCodewords(version));
      var head := 4 + CountBits(version);
      && head + 8 * |bytes| <= |bits|
      && bits[..4] == [false, true, false, false]
      && Number(bits[4..head]) == |bytes|
      && (i < |bytes| ==> Number(bits[head + 8 * i..head + 8 * i + 8]) == bytes[i])
  {
    hide BitRow, ByteBits, Number, Filler, Fillers, Padding, DataCodewords, Pow2, MessageBits, Header;
    var header := Header(bytes, CountBits(version));
    var rest := BitRow(0, 4) + ByteBits(Fillers(bytes, version));
    MessageIs(bytes, version);
    CountFits(|bytes|, version);
    ModeRow();
    NumberOfBitRow(|bytes|, CountBits(version));
    HeaderParts(bytes, CountBits(version), ByteBits(bytes) + rest);
    assert header + ByteBits(bytes) + rest == header + (ByteBits(bytes) + rest);
    if i < |bytes| { ByteShown(header, bytes, rest, i); }
  }

  /** After the bytes the terminator 0000, then 11101100 and 00010001 by turns up to the capacity (sections 7.4.9 and 7.4.10). */
  lemma MessageEnd(bytes: seq<byte>, version: Version, i: nat)
    requires Fits(|bytes|, version)
    ensures var bits := MessageBits(bytes, CountBits(version), DataCodewords(version));
      var end := 4 + CountBits(version) + 8 * |bytes|;
      && end + 4 <= |bits| == 8 * DataCodewords(version)
      && bits[end..end + 4] == [false, false, false, false]
      && (end + 12 + 8 * i <= |bits| ==>
          bits[end + 4 + 8 * i..end + 12 + 8 * i] ==
            if i % 2 == 0 then [true, true, true, false, true, true, false, false] else [false, false, false, true, false, false, false, true])
  {
    hide BitRow, ByteBits, Number, DataCodewords, MessageBits, Content;
    MessageIs(bytes, version);
    ZeroRow();
    FirstFiller();
    SecondFiller();
    var filler := Fillers(bytes, version);
    SliceAfter(Content(bytes, version), BitRow(0, 4) + ByteBits(filler), 0, 4);
    if i < |filler| {
      ByteBitsAt(filler, i);
      var body := Content(bytes, version);
      SliceNested(body, BitRow(0, 4), ByteBits(filler), |body| + 4 + 8 * i, |body| + 12 + 8 * i, 8 * i, 8 * i + 8);
    }
  }

  lemma HeaderParts(bytes: seq<byte>, countBits: nat, rest: seq<bool>)
    ensures (Header(bytes, countBits) + rest)[..4] == BitRow(4, 4)
    ensures (Header(bytes, countBits) + rest)[4..4 + countBits] == BitRow(|bytes|, countBits)
  {
    hide BitRow;
  }

  lemma ByteShown(header: seq<bool>, bytes: seq<byte>, rest: seq<bool>, i: nat)
    requires i < |bytes|
    ensures Number((header + ByteBits(bytes) + rest)[|header| + 8 * i..|header| + 8 * i + 8]) == bytes[i]
  {
    hide BitRow, ByteBits, Number, Pow2;
    ByteBitsAt(bytes, i);
    SmallPowers();
    NumberOfBitRow(bytes[i], 8);
    SliceAfter(header, ByteBits(bytes) + rest, 8 * i, 8 * i + 8);
    assert header + ByteBits(bytes) + rest == header + (ByteBits(bytes) + rest);
    assert (ByteBits(bytes) + rest)[8 * i..8 * i + 8] == ByteBits(bytes)[8 * i..8 * i + 8];
  }

  lemma SliceNested(a: seq<bool>, b: seq<bool>, c: seq<bool>, lo: nat, hi: nat, i: nat, j: nat)
    requires i <= j <= |c| && lo == |a| + |b| + i && hi == |a| + |b| + j
    ensures hi <= |a + (b + c)| && (a + (b + c))[lo..hi] == c[i..j]
  {
    assert a + (b + c) == (a + b) + c;
    SliceAfter(a + b, c, i, j);
  }

  /** The symbols are sent column by column and within a column block by block, all data before the error correction (section 7.6). */
  lemma SentInColumns(l: Layout, c: nat, b: nat, d: nat, a: nat)
    requires l.Valid() && b < l.blocks && a < l.blocks && (c < d || (c == d && b < a))
    ensures c < l.Length(b) && d < l.Length(a) ==> l.DataPlace(c, b) < l.DataPlace(d, a) < l.DataLength()
    ensures c < l.ecc && d < l.ecc ==> l.DataLength() <= l.EccPlace(c, b) < l.EccPlace(d, a)
  {
    EccInColumns(l, c, b, d, a);
    if c < l.Length(b) && d < l.Length(a) { DataInColumns(l, c, b, d, a); }
  }

  lemma EccInColumns(l: Layout, c: nat, b: nat, d: nat, a: nat)
    requires b < l.blocks && a < l.blocks && (c < d || (c == d && b < a))
    ensures l.DataLength() <= l.EccPlace(c, b) < l.EccPlace(d, a)
  {
    RowsBefore(l.blocks, c, b, d, a);
  }

  lemma RowsBefore(n: nat, c: nat, b: nat, d: nat, a: nat)
    requires b < n && a < n && (c < d || (c == d && b < a))
    ensures 0 <= c * n + b < d * n + a
  {
    if c < d { Times(c + 1, d, n); }
    assert (c + 1) * n == c * n + n;
  }

  lemma DataInColumns(l: Layout, c: nat, b: nat, d: nat, a: nat)
    requires l.Valid() && b < l.blocks && a < l.blocks && (c < d || (c == d && b < a))
    requires c < l.Length(b) && d < l.Length(a)
    ensures l.DataPlace(c, b) < l.DataPlace(d, a) < l.DataLength()
  {
    DataPlaceFits(l, d, a);
    if c < l.shortLength {
      RowsBefore(l.blocks, c, b, if d < l.shortLength then d else l.shortLength, if d < l.shortLength then a else l.blocks - 1);
      RowsBefore(l.blocks, c, b, l.shortLength, 0);
    }
  }
}
