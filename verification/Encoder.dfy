/** The whole encoder and a reader for its symbols (`buildCodewords`, `encode`, design/assets/qrcode.js). */
module Encoder {
  import opened Options
  import opened BitOps
  import opened Gf256
  import opened ReedSolomon
  import opened QrTables
  import opened Message
  import opened Blocks
  import opened Zigzag
  import opened Patterns
  import opened Symbol
  import opened Create
  import opened Placement

  // ----- the mask number in the format bits -------------------------------------------------------------------

  lemma {:induction false} ShrXor(a: nat, b: nat, n: nat)
    ensures Shr(Xor(a, b), n) == Xor(Shr(a, n), Shr(b, n))
  {
    hide Xor, Shr;
    if n == 0 {
      ShrZero(Xor(a, b));
      ShrZero(a);
      ShrZero(b);
    } else {
      ShrXor(a, b, n - 1);
      ShrHalf(Xor(a, b), n - 1);
      ShrHalf(a, n - 1);
      ShrHalf(b, n - 1);
      XorHalf(Shr(a, n - 1), Shr(b, n - 1));
    }
  }

  lemma {:induction false} ShrShr(v: nat, m: nat, n: nat)
    ensures Shr(Shr(v, m), n) == Shr(v, m + n)
  {
    hide Shr;
    if n == 0 {
      ShrZero(Shr(v, m));
    } else {
      ShrShr(v, m, n - 1);
      ShrHalf(Shr(v, m), n - 1);
      ShrHalf(v, m + n - 1);
    }
  }

  lemma ShrTen(data: nat, r: nat)
    requires r < 1024
    ensures Shr(data * 1024 + r, 10) == data
  {
    var v := data * 1024 + r;
    hide Shr;
    ShrZero(v);
    ShrHalf(v, 0);
    ShrHalf(v, 1);
    ShrHalf(v, 2);
    ShrHalf(v, 3);
    ShrHalf(v, 4);
    ShrHalf(v, 5);
    ShrHalf(v, 6);
    ShrHalf(v, 7);
    ShrHalf(v, 8);
    ShrHalf(v, 9);
  }

  /** The division by the generator 0x537 leaves ten bits. */
  lemma {:induction false} FormatRemainderSmall(data: nat, n: nat)
    requires data < 1024
    ensures FormatRemainder(data, n) < 1024
  {
    hide Xor, Pow2;
    if n > 0 {
      var r := FormatRemainder(data, n - 1);
      FormatRemainderSmall(data, n - 1);
      TenBits();
      XorTop(2 * r, (r / 512) * 0x537, 10);
    }
  }

  lemma TenBits()
    ensures Pow2(10) == 1024 && Pow2(5) == 32 && Pow2(4) == 16
  {
  }

  lemma MaskPattern()
    ensures Shr(0x5412, 10) == 21
  {
  }

  /** The five upper format bits are the mask number, itself masked with 10101. */
  lemma FormatTop(mask: nat)
    requires mask < 8
    ensures Shr(FormatWord(mask), 10) == Xor(mask, 21) < 32
    ensures Xor(Shr(FormatWord(mask), 10), 21) == mask
  {
    hide Shr, Xor, FormatRemainder, Pow2;
    FormatRemainderSmall(mask, 10);
    ShrXor(mask * 1024 + FormatRemainder(mask, 10), 0x5412, 10);
    ShrTen(mask, FormatRemainder(mask, 10));
    MaskPattern();
    TenBits();
    XorTop(mask, 21, 4);
    XorAssoc(mask, 21, 21);
    XorSelf(21);
    XorZero(mask);
  }

  /** Bits 14 to 10 of the copy at the upper left finder, the highest first. */
  function UpperFormatBits(g: Grid): seq<bool>
    requires |g| > 8 && |g[8]| > 4
  {
    [g[8][0], g[8][1], g[8][2], g[8][3], g[8][4]]
  }

  predicate ShowsFormat(g: Grid, size: nat, mask: nat) {
    size >= 21 && |g| == size && |g[8]| == size
    && forall x: nat :: x < 5 ==> g[8][x] == FormatShows(size, mask, Cell(x, 8))
  }

  lemma ReadMask(g: Grid, size: nat, mask: nat)
    requires ShowsFormat(g, size, mask) && mask < 8
    ensures Xor(Number(UpperFormatBits(g)), 21) == mask
  {
    hide Xor, Number, BitRow, FormatWord, Shr, Pow2;
    var top := Shr(FormatWord(mask), 10);
    FormatTop(mask);
    forall k: nat | k < 5 ensures UpperFormatBits(g)[k] == BitRow(top, 5)[k] {
      BitRowAt(top, 5, k);
      ShrShr(FormatWord(mask), 10, 4 - k);
    }
    assert UpperFormatBits(g) == BitRow(top, 5);
    TenBits();
    NumberOfBitRow(top, 5);
  }

  // ----- a reader -----------------------------------------------------------------------------------------------------

  function ReservedGrid(version: Version): (r: Grid)
    ensures |r| == SizeOf(version) && forall y :: 0 <= y < |r| ==> |r[y]| == |r|
  {
    seq(SizeOf(version), y requires 0 <= y => seq(SizeOf(version), x requires 0 <= x => IsFunction(version, Cell(x, y))))
  }

  lemma ReservedGridIs(version: Version)
    ensures Reserves(ReservedGrid(version), version)
  {
    hide IsFunction;
  }

  lemma ReservedUnique(reserved: Grid, version: Version)
    requires Reserves(reserved, version)
    ensures reserved == ReservedGrid(version)
  {
    hide IsFunction;
    var size := SizeOf(version);
    forall y | 0 <= y < size ensures reserved[y] == ReservedGrid(version)[y] {
      forall x | 0 <= x < size ensures reserved[y][x] == ReservedGrid(version)[y][x] {
        assert At(reserved, Cell(x, y)) == IsFunction(version, Cell(x, y));
      }
    }
  }

  /** The grid with the mask taken off its free cells. */
  function Unmasked(g: Grid, reserved: Grid, size: nat, mask: nat): Grid
    requires |g| == size && |reserved| == size
    requires forall y :: 0 <= y < size ==> |g[y]| == size && |reserved[y]| == size
  {
    seq(size, y requires 0 <= y < size => seq(size, x requires 0 <= x < size =>
      g[y][x] != (!reserved[y][x] && MaskApplies(mask, x, y))))
  }

  lemma ReadRoom(g: Grid, version: Version)
    requires Square(g, SizeOf(version))
    ensures Within(Walk(SizeOf(version)), g) && Within(Walk(SizeOf(version)), ReservedGrid(version))
    ensures 0 <= 8 * RawLength(version) <= FreeCount(ReservedGrid(version), Walk(SizeOf(version)))
  {
    hide FreeCount, Walk, ReservedGrid, RawCodewordBits;
    ReservedGridIs(version);
    Capacity(ReservedGrid(version), version);
    WalkFacts(SizeOf(version));
    TableFacts(version);
    WithinSquare(Walk(SizeOf(version)), g, SizeOf(version));
  }

  /** The raw codewords along the walk. */
  function ReadCodewords(g: Grid, version: Version): (r: seq<byte>)
    requires Square(g, SizeOf(version))
    ensures |r| == RawLength(version)
  {
    ReadRoom(g, version);
    var bits := Collected(g, ReservedGrid(version), Walk(SizeOf(version)));
    Packed(bits[..8 * RawLength(version)])
  }

  function ReadData(codewords: seq<byte>, version: Version): Option<seq<byte>>
    requires |codewords| == RawLength(version)
  {
    LayoutFacts(version);
    var l := LayoutOf(version);
    ReadMessage(ByteBits(ReceivedData(codewords, l, l.blocks)), CountBits(version))
  }

  /** Reads a symbol of level M: version from the size, mask from the format bits, then the codewords and the bytes. */
  ghost function ReadSymbol(g: Grid): Option<seq<byte>> {
    if |g| < 21 || (|g| - 17) % 4 != 0 || (|g| - 17) / 4 > 15 || !Square(g, |g|) then None
    else
      var version: Version := (|g| - 17) / 4;
      var mask := Xor(Number(UpperFormatBits(g)), 21);
      if mask >= 8 then None
      else
        ReservedGridIs(version);
        ReadData(ReadCodewords(Unmasked(g, ReservedGrid(version), |g|, mask), version), version)
  }

  // ----- what the encoder builds ------------------------------------------------------------------------------------------

  /** The codewords that carry the bytes. */
  ghost predicate Carries(codewords: seq<byte>, bytes: seq<byte>, version: Version) {
    && Fits(|bytes|, version)
    && |codewords| == RawLength(version)
    && exists data: Poly ::
      Interleaves(codewords, data, LayoutOf(version))
      && ByteBits(data) == MessageBits(bytes, CountBits(version), DataCodewords(version))
  }

  /** The grid before masking: function patterns with mask 0, codewords along the walk, the rest light. */
  ghost predicate Holds(g: Grid, codewords: seq<byte>, version: Version) {
    var size := SizeOf(version);
    && Square(g, size)
    && |codewords| == RawLength(version)
    && ReadCodewords(g, version) == codewords
    && forall c: Cell :: Inside(c, size) && IsFunction(version, c) ==> At(g, c) == FunctionDark(version, 0, c)
  }

  /** The symbol for one mask: free cells masked, format cells for that mask. */
  function Candidate(g: Grid, version: Version, mask: nat): Grid
    requires |g| == SizeOf(version) && forall y :: 0 <= y < |g| ==> |g[y]| == |g|
  {
    var size := SizeOf(version);
    seq(size, y requires 0 <= y < size => seq(size, x requires 0 <= x < size =>
      if InFormat(size, Cell(x, y)) then FormatShows(size, mask, Cell(x, y))
      else g[y][x] != (!IsFunction(version, Cell(x, y)) && MaskApplies(mask, x, y))))
  }

  lemma CarriedBytes(codewords: seq<byte>, bytes: seq<byte>, version: Version)
    requires Carries(codewords, bytes, version)
    ensures ReadData(codewords, version) == Some(bytes)
  {
    hide ByteBits, ReadMessage, Interleaves, ReceivedData, LayoutOf, MessageBits;
    var l := LayoutOf(version);
    LayoutFacts(version);
    TableFacts(version);
    var data: Poly :| Interleaves(codewords, data, l)
      && ByteBits(data) == MessageBits(bytes, CountBits(version), DataCodewords(version));
    Deinterleave(codewords, data, l);
    CountFits(|bytes|, version);
    MessageRoundTrip(bytes, CountBits(version), DataCodewords(version));
  }

  /** The count field is wide enough for every message that fits. */
  lemma CountFits(n: nat, version: Version)
    requires Fits(n, version)
    ensures n < Pow2(CountBits(version))
  {
    TableFacts(version);
    assert Pow2(8) == 256;
    PowFour(8);
    PowFour(12);
  }

  lemma PowFour(n: nat)
    ensures Pow2(n + 4) == 16 * Pow2(n)
  {
    assert Pow2(n + 1) == 2 * Pow2(n);
    assert Pow2(n + 2) == 2 * Pow2(n + 1);
    assert Pow2(n + 3) == 2 * Pow2(n + 2);
  }

  /** Unmasking a candidate gives the unmasked grid back on its free cells, so the same codewords. */
  lemma CandidateCodewords(g: Grid, version: Version, mask: nat)
    requires Square(g, SizeOf(version))
    ensures Square(Candidate(g, version, mask), SizeOf(version))
    ensures ReadCodewords(Unmasked(Candidate(g, version, mask), ReservedGrid(version), SizeOf(version), mask), version) == ReadCodewords(g, version)
  {
    hide MaskApplies, IsFunction, FormatShows, Packed;
    ReservedGridIs(version);
    var size := SizeOf(version);
    var reserved := ReservedGrid(version);
    var h := Unmasked(Candidate(g, version, mask), reserved, size, mask);
    WalkFacts(size);
    Capacity(reserved, version);
    forall c | c in Walk(size) && !At(reserved, c) ensures At(h, c) == At(g, c) { FormatReserved(version, c); }
    CollectedAgree(h, g, reserved, Walk(size));
  }

  lemma FormatReserved(version: Version, c: Cell)
    ensures InFormat(SizeOf(version), c) ==> IsFunction(version, c)
  {
  }

  lemma CandidateShowsFormat(g: Grid, version: Version, mask: nat)
    requires Square(g, SizeOf(version))
    ensures ShowsFormat(Candidate(g, version, mask), SizeOf(version), mask)
  {
    hide FormatShows, IsFunction;
  }

  /** Reading any of the eight candidates gives the bytes back. */
  lemma ReadCandidate(g: Grid, codewords: seq<byte>, bytes: seq<byte>, version: Version, mask: nat)
    requires Holds(g, codewords, version) && Carries(codewords, bytes, version) && mask < 8
    ensures ReadSymbol(Candidate(g, version, mask)) == Some(bytes)
  {
    hide Carries, ReadData, ReadCodewords, Candidate, ReservedGrid, Unmasked, Xor, Number, ShowsFormat;
    CandidateCodewords(g, version, mask);
    CandidateShowsFormat(g, version, mask);
    ReadMask(Candidate(g, version, mask), SizeOf(version), mask);
    CarriedBytes(codewords, bytes, version);
    assert (SizeOf(version) - 17) / 4 == version;
  }

  // ----- building -------------------------------------------------------------------------------------------------------

  /** `buildCodewords` */
  method BuildCodewords(bytes: seq<byte>, version: Version) returns (codewords: seq<byte>)
    requires Fits(|bytes|, version)
    ensures Carries(codewords, bytes, version)
  {
    hide ByteBits, Packed, Interleaves, MessageBits, LayoutOf;
    LayoutFacts(version);
    TableFacts(version);
    var bits := BuildBits(bytes, CountBits(version), DataCodewords(version));
    var data := Pack(bits);
    UnpackPacked(bits);
    codewords := Interleave(data, LayoutOf(version));
    InterleavedLength(codewords, data, LayoutOf(version));
  }

  lemma InterleavedLength(codewords: seq<byte>, data: Poly, l: Layout)
    requires Interleaves(codewords, data, l)
    ensures |codewords| == l.DataLength() + l.ecc * l.blocks
  {
  }

  /** Drawing the codewords into the blank symbol. */
  lemma DrawnHolds(blank: Picture, g: Grid, codewords: seq<byte>, version: Version)
    requires Blank(blank, version) && |codewords| == RawLength(version)
    requires Within(Walk(SizeOf(version)), blank.reserved) && Within(Walk(SizeOf(version)), blank.modules)
    requires g == Placed(blank.modules, blank.reserved, Walk(SizeOf(version)), ByteBits(codewords))
    ensures Holds(g, codewords, version)
  {
    hide Walk, ByteBits, Collected, Placed, FreeCount, IsFunction, FunctionDark, Packed, ReservedGrid, RawLength;
    var size := SizeOf(version);
    var walk := Walk(size);
    WalkFacts(size);
    ReservedUnique(blank.reserved, version);
    ReadRoom(blank.modules, version);
    CollectPlaced(blank.modules, blank.reserved, walk, ByteBits(codewords));
    var bits := Collected(g, blank.reserved, walk);
    assert bits[..8 * RawLength(version)] == ByteBits(codewords);
    PackBytes(codewords);
    forall c: Cell | Inside(c, size) && IsFunction(version, c) ensures At(g, c) == FunctionDark(version, 0, c) {
      PlacedFrame(blank.modules, blank.reserved, walk, ByteBits(codewords), c);
    }
  }

  /** Packing undoes unpacking. */
  lemma PackBytes(bytes: seq<byte>)
    ensures Packed(ByteBits(bytes)) == bytes
  {
    hide BitRow, Number, Pow2;
    forall i | 0 <= i < |bytes| ensures ReadByte(ByteBits(bytes), 8 * i) == bytes[i] {
      ByteBitsAt(bytes, i);
      SmallPowers();
      NumberOfBitRow(bytes[i], 8);
    }
  }

  // ----- choosing the mask ----------------------------------------------------------------------------------------------

  /** The grids agree outside the format cells. */
  ghost predicate SameData(g: Grid, h: Grid, size: nat) {
    && Square(g, size) && Square(h, size)
    && forall c: Cell :: Inside(c, size) && !InFormat(size, c) ==> At(h, c) == At(g, c)
  }

  lemma GridEqual(g: Grid, h: Grid, size: nat)
    requires Square(g, size) && Square(h, size)
    requires forall c: Cell :: Inside(c, size) ==> At(g, c) == At(h, c)
    ensures g == h
  {
    forall y | 0 <= y < size ensures g[y] == h[y] {
      forall x | 0 <= x < size ensures g[y][x] == h[y][x] {
        assert Inside(Cell(x, y), size);
        assert At(g, Cell(x, y)) == At(h, Cell(x, y));
      }
    }
  }

  lemma CandidateAt(g: Grid, version: Version, mask: nat, c: Cell)
    requires Square(g, SizeOf(version)) && Inside(c, SizeOf(version))
    ensures Square(Candidate(g, version, mask), SizeOf(version))
    ensures At(Candidate(g, version, mask), c)
         == if InFormat(SizeOf(version), c) then FormatShows(SizeOf(version), mask, c)
            else At(g, c) != (!IsFunction(version, c) && MaskApplies(mask, c.x, c.y))
  {
    hide IsFunction, MaskApplies, FormatShows, InFormat;
  }

  lemma TrialIsCandidate(g: Grid, before: Grid, p: Picture, q: Picture, version: Version, mask: nat)
    requires SameData(g, before, SizeOf(version)) && Reserves(p.reserved, version)
    requires Masked(before, p.modules, p.reserved, SizeOf(version), mask)
    requires Painted(p, q, SizeOf(version), c => InFormat(SizeOf(version), c), c => FormatShows(SizeOf(version), mask, c))
    ensures q.modules == Candidate(g, version, mask) && q.reserved == p.reserved
  {
    hide Candidate, IsFunction, MaskApplies, FormatShows, InFormat;
    var size := SizeOf(version);
    CandidateAt(g, version, mask, Cell(0, 0));
    forall c: Cell | Inside(c, size) ensures At(q.modules, c) == At(Candidate(g, version, mask), c) {
      CandidateAt(g, version, mask, c);
    }
    GridEqual(q.modules, Candidate(g, version, mask), size);
    forall c: Cell | Inside(c, size) ensures At(q.reserved, c) == At(p.reserved, c) { FormatReserved(version, c); }
    GridEqual(q.reserved, p.reserved, size);
  }

  lemma UndoneIsData(g: Grid, after: Grid, reserved: Grid, version: Version, mask: nat)
    requires Square(g, SizeOf(version)) && Reserves(reserved, version)
    requires Masked(Candidate(g, version, mask), after, reserved, SizeOf(version), mask)
    ensures SameData(g, after, SizeOf(version))
  {
    hide Candidate, IsFunction, MaskApplies, FormatShows, InFormat;
    var size := SizeOf(version);
    forall c: Cell | Inside(c, size) && !InFormat(size, c) ensures At(after, c) == At(g, c) {
      CandidateAt(g, version, mask, c);
    }
  }

  /** One trial: mask the symbol and draw the format information for that mask. */
  method TryMask(m: Matrix, mask: nat, ghost g: Grid, ghost version: Version)
    requires m.Valid() && m.size == SizeOf(version) && Reserves(m.reserved, version)
    requires SameData(g, m.modules, m.size)
    modifies m
    ensures m.Valid() && m.reserved == old(m.reserved) && m.modules == Candidate(g, version, mask)
  {
    hide Candidate, Masked, Painted, InFormat, FormatShows, SameData, Reserves;
    ghost var before := m.modules;
    ApplyMask(m, mask);
    MaskedSquare(before, m.modules, m.reserved, m.size, mask);
    ghost var p := m.View();
    m.DrawFormatBits(mask);
    TrialIsCandidate(g, before, p, m.View(), version, mask);
  }

  lemma MaskedSquare(g: Grid, h: Grid, reserved: Grid, size: nat, mask: nat)
    requires Masked(g, h, reserved, size, mask)
    ensures Square(g, size) && Square(h, size) && Square(reserved, size)
  {
  }

  /** Whether mask b is the first of the first n with the least penalty. */
  ghost predicate IsBest(g: Grid, version: Version, penalty: Grid -> int, b: nat, n: nat)
    requires Square(g, SizeOf(version))
  {
    && b < n
    && (forall k: nat :: k < n ==> penalty(Candidate(g, version, b)) <= penalty(Candidate(g, version, k)))
    && (forall k: nat :: k < b ==> penalty(Candidate(g, version, b)) < penalty(Candidate(g, version, k)))
  }

  /** The loop over the masks; every trial is undone, the best one is drawn again at the end. */
  method ChooseMask(m: Matrix, penalty: Grid -> int, ghost g: Grid, ghost version: Version) returns (bestMask: nat)
    requires m.Valid() && m.size == SizeOf(version) && Reserves(m.reserved, version) && g == m.modules
    modifies m
    ensures m.Valid() && m.reserved == old(m.reserved)
    ensures bestMask < 8 && m.modules == Candidate(g, version, bestMask)
    ensures IsBest(g, version, penalty, bestMask, 8)
  {
    hide Candidate, Masked, InFormat, Reserves;
    assert SameData(g, m.modules, m.size);
    hide SameData;
    bestMask := 0;
    var bestScore := None;
    var mask := 0;
    while mask < 8
      invariant mask <= 8 && m.Valid() && m.reserved == old(m.reserved)
      invariant SameData(g, m.modules, m.size)
      invariant mask == 0 ==> bestScore == None && bestMask == 0
      invariant mask > 0 ==> IsBest(g, version, penalty, bestMask, mask)
      invariant mask > 0 ==> bestScore == Some(penalty(Candidate(g, version, bestMask)))
    {
      TryMask(m, mask, g, version);
      var score := penalty(m.modules);
      if bestScore.None? || score < bestScore.value {
        bestScore := Some(score);
        bestMask := mask;
      }
      ApplyMask(m, mask);
      MaskedSquare(Candidate(g, version, mask), m.modules, m.reserved, m.size, mask);
      UndoneIsData(g, m.modules, m.reserved, version, mask);
      mask := mask + 1;
    }
    TryMask(m, bestMask, g, version);
  }

  // ----- encode -----------------------------------------------------------------------------------------------------------

  datatype QrCode = QrCode(version: Version, size: nat, modules: Grid)

  /** The bytes that fit are exactly those up to 412. */
  lemma Longest(n: nat)
    ensures n <= 412 ==> Fits(n, 15)
    ensures forall v: Version :: Fits(n, v) ==> n <= 412
  {
    TableFacts(15);
    forall v: Version | Fits(n, v) ensures n <= 412 { TableFacts(v); }
  }

  /** The cells of the function patterns show what the version and the chosen mask call for. */
  lemma CandidatePatterns(g: Grid, codewords: seq<byte>, version: Version, mask: nat, c: Cell)
    requires Holds(g, codewords, version) && Inside(c, SizeOf(version)) && IsFunction(version, c)
    ensures Square(Candidate(g, version, mask), SizeOf(version))
    ensures At(Candidate(g, version, mask), c) == FunctionDark(version, mask, c)
  {
    CandidateAt(g, version, mask, c);
    hide IsFunction, MaskApplies, Candidate, FormatDark, VersionDark, AlignmentDark, FinderDark, LastSquare, ReadCodewords;
  }

  ghost predicate IsLeastVersion(version: Version, n: nat) {
    Fits(n, version) && forall v: Version :: v < version ==> !Fits(n, v)
  }

  /** The symbol is the plain grid under a mask, and its function cells are what the version and the mask call for. */
  ghost predicate IsDrawn(g: Grid, plain: Grid, version: Version, mask: nat) {
    && mask < 8 && Square(plain, SizeOf(version)) && Square(g, SizeOf(version))
    && g == Candidate(plain, version, mask)
    && forall c: Cell :: Inside(c, SizeOf(version)) && IsFunction(version, c) ==> At(g, c) == FunctionDark(version, mask, c)
  }

  lemma CandidateDrawn(plain: Grid, codewords: seq<byte>, version: Version, mask: nat)
    requires Holds(plain, codewords, version) && mask < 8
    ensures Square(plain, SizeOf(version)) && IsDrawn(Candidate(plain, version, mask), plain, version, mask)
  {
    hide Candidate, IsFunction, FunctionDark, ReadCodewords;
    CandidateAt(plain, version, mask, Cell(0, 0));
    forall c: Cell | Inside(c, SizeOf(version)) && IsFunction(version, c)
      ensures At(Candidate(plain, version, mask), c) == FunctionDark(version, mask, c)
    {
      CandidatePatterns(plain, codewords, version, mask, c);
    }
  }

  lemma HoldsSquare(g: Grid, codewords: seq<byte>, version: Version)
    requires Holds(g, codewords, version)
    ensures Square(g, SizeOf(version))
  {
  }

  /** Draws the function patterns and the codewords of the bytes. */
  method DrawSymbol(bytes: seq<byte>, version: Version) returns (m: Matrix, ghost codewords: seq<byte>)
    requires Fits(|bytes|, version)
    ensures fresh(m) && m.Valid() && m.size == SizeOf(version) && Reserves(m.reserved, version)
    ensures Carries(codewords, bytes, version) && Holds(m.modules, codewords, version)
  {
    hide Carries, Walk, Placed, ByteBits, IsFunction, FunctionDark, Interleaves;
    m := CreateMatrix(version);
    ghost var blank := m.View();
    var built := BuildCodewords(bytes, version);
    CarriedLength(built, bytes, version);
    DrawCodewords(m, built);
    DrawnHolds(blank, m.modules, built, version);
    codewords := built;
  }

  lemma CarriedLength(codewords: seq<byte>, bytes: seq<byte>, version: Version)
    requires Carries(codewords, bytes, version)
    ensures |codewords| == RawLength(version)
  {
  }

  /** `encode`: fails exactly for more than 412 bytes; otherwise the least version is taken, the symbol reads back as the
      bytes, its function patterns are the standard's, and no other mask has a smaller penalty. */
  method Encode(bytes: seq<byte>, penalty: Grid -> int) returns (r: Option<QrCode>, ghost plain: Grid, ghost codewords: seq<byte>, ghost mask: nat)
    ensures r.None? <==> |bytes| > 412
    ensures r.Some? ==> IsLeastVersion(r.value.version, |bytes|) && r.value.size == SizeOf(r.value.version)
    ensures r.Some? ==> ReadSymbol(r.value.modules) == Some(bytes)
    ensures r.Some? ==> Carries(codewords, bytes, r.value.version) && Holds(plain, codewords, r.value.version)
    ensures r.Some? ==> IsDrawn(r.value.modules, plain, r.value.version, mask) && IsBest(plain, r.value.version, penalty, mask, 8)
  {
    hide Carries, Holds, ReadSymbol, Candidate, IsBest, IsDrawn, Reserves, DataCodewords;
    plain, codewords, mask := [], [], 0;
    var version := 1;
    Longest(|bytes|);
    while version <= MAX_VERSION && 4 + (if version < 10 then 8 else 16) + |bytes| * 8 > DataCodewords(version) * 8
      invariant 1 <= version <= MAX_VERSION + 1
      invariant forall v: Version :: v < version ==> !Fits(|bytes|, v)
    {
      version := version + 1;
    }
    if version > MAX_VERSION { return None, plain, codewords, mask; }
    var m;
    m, codewords := DrawSymbol(bytes, version);
    plain := m.modules;
    var bestMask := ChooseMask(m, penalty, plain, version);
    HoldsSquare(plain, codewords, version);
    mask := bestMask;
    ReadCandidate(plain, codewords, bytes, version, mask);
    CandidateDrawn(plain, codewords, version, mask);
    r := Some(QrCode(version, m.size, m.modules));
  }
}
