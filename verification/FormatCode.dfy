/** What the format and version words are: codewords of the two cyclic codes of the standard, under the format mask
    (sections 7.9 and 7.10 and annexes C and D of ISO/IEC 18004:2015; `drawFormatBits`, `createMatrix`, design/assets/qrcode.js). */
module FormatCode {
  import opened BitOps
  import opened QrTables
  import opened Zigzag
  import opened Patterns

  // ----- polynomials over the two-element field, by their coefficients ----------------------------------------------------

  /** The polynomial with these exponents, highest first. */
  function Poly(exponents: seq<nat>): nat {
    if exponents == [] then 0 else Pow2(exponents[0]) + Poly(exponents[1..])
  }

  /** The product without carries. */
  function Product(q: nat, g: nat): nat {
    if q == 0 then 0 else Xor(2 * Product(q / 2, g), (q % 2) * g)
  }

  ghost predicate Divides(g: nat, v: nat) { exists q :: Product(q, g) == v }

  /** In how many binary digits u and v differ. */
  function Differing(u: nat, v: nat): nat
    decreases u + v
  {
    if u == 0 && v == 0 then 0 else Differing(u / 2, v / 2) + (if u % 2 == v % 2 then 0 else 1)
  }

  /** x^10 + x^8 + x^5 + x^4 + x^2 + x + 1 */
  const FORMAT_GENERATOR: seq<nat> := [10, 8, 5, 4, 2, 1, 0]

  /** x^12 + x^11 + x^10 + x^9 + x^8 + x^5 + x^2 + 1 */
  const VERSION_GENERATOR: seq<nat> := [12, 11, 10, 9, 8, 5, 2, 0]

  lemma Powers()
    ensures Pow2(0) == 1 && Pow2(1) == 2 && Pow2(2) == 4 && Pow2(4) == 16 && Pow2(5) == 32 && Pow2(8) == 256
    ensures Pow2(9) == 512 && Pow2(10) == 1024 && Pow2(11) == 2048 && Pow2(12) == 4096
  {
    assert Pow2(8) == 256;
  }

  lemma PolyFirst(e: nat, rest: seq<nat>)
    ensures Poly([e] + rest) == Pow2(e) + Poly(rest)
  {
    assert ([e] + rest)[1..] == rest;
  }

  lemma Generators()
    ensures Poly(FORMAT_GENERATOR) == 0x537 && Poly(VERSION_GENERATOR) == 0x1f25
  {
    Powers();
    hide Pow2, Poly;
    assert Poly([]) == 0 by { NoTerms(); }
    PolyFirst(0, []);
    PolyFirst(1, [0]);
    PolyFirst(2, [1, 0]);
    PolyFirst(4, [2, 1, 0]);
    PolyFirst(5, [4, 2, 1, 0]);
    PolyFirst(8, [5, 4, 2, 1, 0]);
    PolyFirst(10, [8, 5, 4, 2, 1, 0]);
    assert FORMAT_GENERATOR == [10] + [8, 5, 4, 2, 1, 0] && [8, 5, 4, 2, 1, 0] == [8] + [5, 4, 2, 1, 0];
    assert [5, 4, 2, 1, 0] == [5] + [4, 2, 1, 0] && [4, 2, 1, 0] == [4] + [2, 1, 0] && [2, 1, 0] == [2] + [1, 0] && [1, 0] == [1] + [0];
    PolyFirst(2, [0]);
    PolyFirst(5, [2, 0]);
    PolyFirst(8, [5, 2, 0]);
    PolyFirst(9, [8, 5, 2, 0]);
    PolyFirst(10, [9, 8, 5, 2, 0]);
    PolyFirst(11, [10, 9, 8, 5, 2, 0]);
    PolyFirst(12, [11, 10, 9, 8, 5, 2, 0]);
    assert VERSION_GENERATOR == [12] + [11, 10, 9, 8, 5, 2, 0] && [11, 10, 9, 8, 5, 2, 0] == [11] + [10, 9, 8, 5, 2, 0];
    assert [10, 9, 8, 5, 2, 0] == [10] + [9, 8, 5, 2, 0] && [9, 8, 5, 2, 0] == [9] + [8, 5, 2, 0];
    assert [8, 5, 2, 0] == [8] + [5, 2, 0] && [5, 2, 0] == [5] + [2, 0] && [2, 0] == [2] + [0] && [0] == [0] + [];
  }

  lemma NoTerms()
    ensures Poly([]) == 0
  {
  }

  // ----- the division loops --------------------------------------------------------------------------------------------------

  lemma XorDouble(a: nat, b: nat)
    ensures Xor(2 * a, 2 * b) == 2 * Xor(a, b)
  {
  }

  lemma ProductDigit(q: nat, d: nat, g: nat)
    requires d < 2
    ensures Product(2 * q + d, g) == Xor(2 * Product(q, g), d * g)
  {
    if q == 0 && d == 0 { XorZero(0); }
  }

  /** One round: 2r loses the generator when it has grown too long. */
  lemma RoundDivides(data: nat, q: nat, r: nat, d: nat, g: nat)
    requires Xor(data, r) == Product(q, g) && d < 2
    ensures Xor(2 * data, Xor(2 * r, d * g)) == Product(2 * q + d, g)
  {
    hide Xor, Product;
    ProductDigit(q, d, g);
    XorAssoc(2 * data, 2 * r, d * g);
    XorDouble(data, r);
  }

  lemma {:induction false} FormatDivides(data: nat, n: nat) returns (q: nat)
    requires data < 1024
    ensures FormatRemainder(data, n) < 1024
    ensures Xor(data * Pow2(n), FormatRemainder(data, n)) == Product(q, 0x537)
  {
    hide Xor, Product;
    if n == 0 {
      q := 0;
      XorSelf(data);
      NoProduct(0x537);
    } else {
      q := FormatDivides(data, n - 1);
      var r := FormatRemainder(data, n - 1);
      RoundDivides(data * Pow2(n - 1), q, r, r / 512, 0x537);
      q := 2 * q + r / 512;
      Powers();
      hide Pow2;
      XorTop(2 * r, (r / 512) * 0x537, 10);
      DoublePower(data, n);
    }
  }

  lemma DoublePower(data: nat, n: nat)
    requires n > 0
    ensures 2 * (data * Pow2(n - 1)) == data * Pow2(n)
  {
    assert Pow2(n) == 2 * Pow2(n - 1);
  }

  lemma NoProduct(g: nat)
    ensures Product(0, g) == 0
  {
  }

  lemma {:induction false} VersionDivides(data: nat, n: nat) returns (q: nat)
    requires data < 4096
    ensures VersionRemainder(data, n) < 4096
    ensures Xor(data * Pow2(n), VersionRemainder(data, n)) == Product(q, 0x1f25)
  {
    hide Xor, Product;
    if n == 0 {
      q := 0;
      XorSelf(data);
      NoProduct(0x1f25);
    } else {
      q := VersionDivides(data, n - 1);
      var r := VersionRemainder(data, n - 1);
      RoundDivides(data * Pow2(n - 1), q, r, r / 2048, 0x1f25);
      q := 2 * q + r / 2048;
      Powers();
      hide Pow2;
      XorTop(2 * r, (r / 2048) * 0x1f25, 12);
      DoublePower(data, n);
    }
  }

  /** Where the digits do not meet, the sum is the xor. */
  lemma {:induction false} SumIsXor(a: nat, b: nat, n: nat)
    requires b < Pow2(n)
    ensures Xor(a * Pow2(n), b) == a * Pow2(n) + b
  {
    if n == 0 {
      XorZero(a);
    } else {
      assert Pow2(n) == 2 * Pow2(n - 1);
      hide Xor, Pow2;
      SumIsXor(a, b / 2, n - 1);
      DoublePower(a, n);
      SumDigit(a * Pow2(n - 1), b);
    }
  }

  lemma SumDigit(u: nat, b: nat)
    requires Xor(u, b / 2) == u + b / 2
    ensures Xor(2 * u, b) == 2 * u + b
  {
    hide Xor;
    XorHalf(2 * u, b);
  }

  // ----- the words -----------------------------------------------------------------------------------------------------------

  /** The mask number, followed by what makes it a multiple of the generator. */
  lemma FormatBeneath(mask: nat) returns (q: nat)
    requires mask < 8
    ensures Xor(FormatWord(mask), 0x5412) == Product(q, 0x537)
    ensures Xor(FormatWord(mask), 0x5412) / 1024 == mask
  {
    q := FormatDivides(mask, 10);
    Powers();
    hide Xor, Product, Pow2, FormatRemainder;
    SumIsXor(mask, FormatRemainder(mask, 10), 10);
    var v := mask * 1024 + FormatRemainder(mask, 10);
    XorAssoc(v, 0x5412, 0x5412);
    XorSelf(0x5412);
    XorZero(v);
  }

  /** Under the format mask, every format word carries its mask number in the upper five bits and is a multiple of the generator. */
  lemma FormatCodeword(mask: nat)
    requires mask < 8
    ensures Xor(FormatWord(mask), 0x5412) / 1024 == mask
    ensures Divides(Poly(FORMAT_GENERATOR), Xor(FormatWord(mask), 0x5412))
  {
    var q := FormatBeneath(mask);
    Generators();
  }

  /** Every version word carries the version in the upper six bits and is a multiple of its generator. */
  lemma VersionCodeword(version: Version)
    ensures VersionWord(version) / 4096 == version
    ensures Divides(Poly(VERSION_GENERATOR), VersionWord(version))
  {
    var q := VersionDivides(version, 12);
    Powers();
    Generators();
    hide Xor, Product, Pow2, VersionRemainder;
    SumIsXor(version, VersionRemainder(version, 12), 12);
  }

  // ----- distances -----------------------------------------------------------------------------------------------------------

  lemma {:induction false} ProductXor(p: nat, q: nat, g: nat)
    ensures Xor(Product(p, g), Product(q, g)) == Product(Xor(p, q), g)
    decreases p + q
  {
    hide Xor, Product;
    if p == 0 && q == 0 {
      XorZero(0);
      NoProduct(g);
    } else {
      ProductXor(p / 2, q / 2, g);
      ProductXorDigit(p / 2, q / 2, p % 2, q % 2, g);
      XorHalf(p, q);
    }
  }

  lemma ProductXorDigit(p: nat, q: nat, d: nat, e: nat, g: nat)
    requires d < 2 && e < 2
    requires Xor(Product(p, g), Product(q, g)) == Product(Xor(p, q), g)
    ensures Xor(Product(2 * p + d, g), Product(2 * q + e, g)) == Product(2 * Xor(p, q) + (if d == e then 0 else 1), g)
  {
    hide Xor, Product;
    var a, b := Product(p, g), Product(q, g);
    DigitSum(d, e, g);
    ProductDigit(p, d, g);
    ProductDigit(q, e, g);
    ProductDigit(Xor(p, q), if d == e then 0 else 1, g);
    XorSwap(2 * a, d * g, 2 * b, e * g);
    XorDouble(a, b);
  }

  lemma DigitSum(d: nat, e: nat, g: nat)
    requires d < 2 && e < 2
    ensures Xor(d * g, e * g) == (if d == e then 0 else 1) * g
  {
    hide Xor;
    XorZero(g);
    XorSelf(g);
    XorZero(0);
  }

  lemma {:induction false} DifferingXor(u: nat, v: nat, w: nat)
    ensures Differing(Xor(u, w), Xor(v, w)) == Differing(u, v) == Differing(Xor(u, v), 0)
    decreases u + v + w
  {
    hide Xor;
    if u == 0 && v == 0 {
      XorZero(w);
      XorZero(0);
      SameDigits(w);
    } else {
      DifferingXor(u / 2, v / 2, w / 2);
      DifferingHalf(u, v);
      DifferingHalf(Xor(u, w), Xor(v, w));
      DifferingHalf(Xor(u, v), 0);
      XorHalf(u, v);
      XorHalf(u, w);
      XorHalf(v, w);
    }
  }

  lemma DifferingHalf(u: nat, v: nat)
    ensures Differing(u, v) == Differing(u / 2, v / 2) + (if u % 2 == v % 2 then 0 else 1)
  {
  }

  lemma {:induction false} SameDigits(u: nat)
    ensures Differing(u, u) == 0
  {
    if u != 0 { SameDigits(u / 2); }
  }

  lemma {:induction false} Triangle(u: nat, v: nat, w: nat)
    ensures Differing(u, w) <= Differing(u, v) + Differing(v, w)
    decreases u + v + w
  {
    if u != 0 || v != 0 || w != 0 {
      Triangle(u / 2, v / 2, w / 2);
      hide Differing;
      DifferingHalf(u, v);
      DifferingHalf(v, w);
      DifferingHalf(u, w);
    }
  }

  // ----- how far apart the format words are ---------------------------------------------------------------------------------

  /** What lies above the lower n digits cannot be cancelled by a number of n digits. */
  lemma {:induction false} XorKeeps(u: nat, v: nat, n: nat, t: nat)
    requires v < Pow2(n) && Pow2(n) * t <= u
    ensures Pow2(n) * t <= Xor(u, v)
  {
    hide Xor;
    if n == 0 {
      XorZero(u);
    } else {
      DoublePower(t, n);
      XorKeeps(u / 2, v / 2, n - 1, t);
      XorHalf(u, v);
    }
  }

  /** A quotient of k + 1 digits gives a product of k + 11. */
  lemma {:induction false} ProductLarge(q: nat, k: nat)
    requires Pow2(k) <= q
    ensures 1024 * Pow2(k) <= Product(q, 0x537)
  {
    hide Xor;
    Powers();
    if k == 0 && q == 1 {
      NoProduct(0x537);
      XorZero(0x537);
    } else {
      var next := if k == 0 then 0 else k - 1;
      ProductLarge(q / 2, next);
      DoublePower(1, next + 1);
      hide Product;
      ProductDigit(q / 2, q % 2, 0x537);
      hide Pow2;
      XorKeeps(2 * Product(q / 2, 0x537), (q % 2) * 0x537, 11, Pow2(next));
    }
  }

  lemma QuotientSmall(mask: nat, q: nat)
    requires mask < 8 && Product(q, 0x537) / 1024 == mask
    ensures q < 8
  {
    hide Product;
    Powers();
    EightIsPower();
    if q >= 8 { ProductLarge(q, 3); }
  }

  lemma EightIsPower()
    ensures Pow2(3) == 8
  {
  }

  /** The weight of an odd multiple, without the sum. */
  lemma OddWeight(p: nat)
    ensures Differing(Product(2 * p + 1, 0x537), 0) == Differing(2 * Product(p, 0x537), 0x537)
  {
    hide Xor, Product, Differing;
    ProductDigit(p, 1, 0x537);
    DifferingXor(2 * Product(p, 0x537), 0x537, 0);
  }

  lemma EvenWeight(p: nat)
    ensures Differing(Product(2 * p, 0x537), 0) == Differing(Product(p, 0x537), 0)
  {
    hide Xor, Product, Differing;
    ProductDigit(p, 0, 0x537);
    XorZero(2 * Product(p, 0x537));
    DifferingHalf(2 * Product(p, 0x537), 0);
  }

  /** Three times the generator. */
  lemma ThreeTimes()
    ensures Xor(0xA6E, 0x537) == 0xF59
  {
    hide Xor;
    XorZero(2);
    XorHalf(0x5, 0x2);
    XorHalf(0xA, 0x5);
    XorHalf(0x14, 0xA);
    XorHalf(0x29, 0x14);
    XorHalf(0x53, 0x29);
    XorHalf(0xA6, 0x53);
    XorHalf(0x14D, 0xA6);
    XorHalf(0x29B, 0x14D);
    XorHalf(0x537, 0x29B);
    XorHalf(0xA6E, 0x537);
    XorHalf(0x2, 0x1);
    XorHalf(0x1, 0x0);
    XorZero(1);
    XorZero(0);
  }

  lemma SmallProducts()
    ensures Product(1, 0x537) == 0x537 && Product(2, 0x537) == 0xA6E && Product(3, 0x537) == 0xF59
  {
    hide Xor, Product;
    NoProduct(0x537);
    ProductDigit(0, 1, 0x537);
    XorZero(0x537);
    ProductDigit(1, 0, 0x537);
    XorZero(0xA6E);
    ProductDigit(1, 1, 0x537);
    ThreeTimes();
  }

  lemma NoDigits()
    ensures Differing(0, 0) == 0
  {
  }

  lemma OnceWeight()
    ensures Differing(0x537, 0x0) == 7
  {
    hide Differing;
    NoDigits();
    DifferingHalf(0x1, 0x0);
    DifferingHalf(0x2, 0x0);
    DifferingHalf(0x5, 0x0);
    DifferingHalf(0xA, 0x0);
    DifferingHalf(0x14, 0x0);
    DifferingHalf(0x29, 0x0);
    DifferingHalf(0x53, 0x0);
    DifferingHalf(0xA6, 0x0);
    DifferingHalf(0x14D, 0x0);
    DifferingHalf(0x29B, 0x0);
    DifferingHalf(0x537, 0x0);
  }

  lemma ThriceWeight()
    ensures Differing(0xF59, 0x0) == 8
  {
    hide Differing;
    NoDigits();
    DifferingHalf(0x1, 0x0);
    DifferingHalf(0x3, 0x0);
    DifferingHalf(0x7, 0x0);
    DifferingHalf(0xF, 0x0);
    DifferingHalf(0x1E, 0x0);
    DifferingHalf(0x3D, 0x0);
    DifferingHalf(0x7A, 0x0);
    DifferingHalf(0xF5, 0x0);
    DifferingHalf(0x1EB, 0x0);
    DifferingHalf(0x3D6, 0x0);
    DifferingHalf(0x7AC, 0x0);
    DifferingHalf(0xF59, 0x0);
  }

  lemma FiveTimesWeight()
    ensures Differing(0x14DC, 0x537) == 8
  {
    hide Differing;
    NoDigits();
    DifferingHalf(0x1, 0x0);
    DifferingHalf(0x2, 0x0);
    DifferingHalf(0x5, 0x1);
    DifferingHalf(0xA, 0x2);
    DifferingHalf(0x14, 0x5);
    DifferingHalf(0x29, 0xA);
    DifferingHalf(0x53, 0x14);
    DifferingHalf(0xA6, 0x29);
    DifferingHalf(0x14D, 0x53);
    DifferingHalf(0x29B, 0xA6);
    DifferingHalf(0x537, 0x14D);
    DifferingHalf(0xA6E, 0x29B);
    DifferingHalf(0x14DC, 0x537);
  }

  lemma SevenTimesWeight()
    ensures Differing(0x1EB2, 0x537) == 7
  {
    hide Differing;
    NoDigits();
    DifferingHalf(0x1, 0x0);
    DifferingHalf(0x3, 0x0);
    DifferingHalf(0x7, 0x1);
    DifferingHalf(0xF, 0x2);
    DifferingHalf(0x1E, 0x5);
    DifferingHalf(0x3D, 0xA);
    DifferingHalf(0x7A, 0x14);
    DifferingHalf(0xF5, 0x29);
    DifferingHalf(0x1EB, 0x53);
    DifferingHalf(0x3D6, 0xA6);
    DifferingHalf(0x7AC, 0x14D);
    DifferingHalf(0xF59, 0x29B);
    DifferingHalf(0x1EB2, 0x537);
  }

  /** Every multiple of the generator by a non-zero number of three digits has at least seven dark digits. */
  lemma MultipleWeight(q: nat)
    requires 0 < q < 8
    ensures Differing(Product(q, 0x537), 0) >= 7
  {
    hide Product, Differing;
    SmallProducts();
    OnceWeight();
    ThriceWeight();
    FiveTimesWeight();
    SevenTimesWeight();
    if q % 2 == 0 {
      EvenWeight(q / 2);
      if q == 4 { EvenWeight(1); }
    } else if q > 3 {
      OddWeight(q / 2);
    }
  }

  /** Any two of the eight format words differ in at least seven bits. */
  lemma FormatDistance(a: nat, b: nat)
    requires a < 8 && b < 8 && a != b
    ensures Differing(FormatWord(a), FormatWord(b)) >= 7
  {
    hide Product, Differing, Xor, FormatWord;
    var p := FormatBeneath(a);
    var q := FormatBeneath(b);
    QuotientSmall(a, p);
    QuotientSmall(b, q);
    DifferingXor(FormatWord(a), FormatWord(b), 0x5412);
    ProductXor(p, q, 0x537);
    DifferingXor(Product(p, 0x537), Product(q, 0x537), 0);
    XorSmall(p, q);
    MultipleWeight(Xor(p, q));
  }

  lemma XorSmall(p: nat, q: nat)
    requires p < 8 && q < 8 && p != q
    ensures 0 < Xor(p, q) < 8
  {
    hide Xor;
    EightIsPower();
    XorKeepsBelow(p, q, 3);
    if Xor(p, q) == 0 {
      XorAssoc(p, q, q);
      XorSelf(q);
      XorZero(p);
      XorZero(q);
    }
  }

  lemma {:induction false} XorKeepsBelow(p: nat, q: nat, n: nat)
    requires p < Pow2(n) && q < Pow2(n)
    ensures Xor(p, q) < Pow2(n)
  {
    hide Xor;
    if n == 0 {
      XorZero(0);
    } else {
      XorKeepsBelow(p / 2, q / 2, n - 1);
      XorHalf(p, q);
    }
  }

  /** Up to three wrong bits leave the word that was drawn the only nearest one. */
  lemma FormatNearest(seen: nat, mask: nat, other: nat)
    requires mask < 8 && other < 8 && other != mask && Differing(seen, FormatWord(mask)) <= 3
    ensures Differing(seen, FormatWord(other)) > 3
  {
    hide Differing, FormatWord;
    FormatDistance(mask, other);
    Triangle(FormatWord(mask), seen, FormatWord(other));
    DifferingSame(seen, FormatWord(mask));
  }

  lemma {:induction false} DifferingSame(u: nat, v: nat)
    ensures Differing(u, v) == Differing(v, u)
    decreases u + v
  {
    if u + v > 0 { DifferingSame(u / 2, v / 2); }
  }
}
