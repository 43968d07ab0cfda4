/** Powers in GF(256): 2 generates the multiplicative group, so products of non-zero bytes are non-zero. */
module Gf256Powers {
  import opened BitOps
  import opened Gf256

  function Pow(x: byte, k: nat): byte {
    if k == 0 then 1 else Mul(Pow(x, k - 1), x)
  }

  lemma {:induction false} PowAdd(x: byte, a: nat, b: nat)
    ensures Pow(x, a + b) == Mul(Pow(x, a), Pow(x, b))
  {
    hide Mul;
    if b == 0 {
      MulComm(Pow(x, a), 1);
      MulOne(Pow(x, a));
    } else {
      PowAdd(x, a, b - 1);
      MulAssoc(Pow(x, a), Pow(x, b - 1), x);
    }
  }

  lemma {:induction false} PowMul(x: byte, y: byte, k: nat)
    ensures Pow(Mul(x, y), k) == Mul(Pow(x, k), Pow(y, k))
  {
    hide Mul;
    if k == 0 {
      MulOne(1);
    } else {
      PowMul(x, y, k - 1);
      MulSwap(Pow(x, k - 1), Pow(y, k - 1), x, y);
    }
  }

  lemma MulSwap(a: byte, b: byte, c: byte, d: byte)
    ensures Mul(Mul(a, b), Mul(c, d)) == Mul(Mul(a, c), Mul(b, d))
  {
    hide Mul;
    MulAssoc(a, b, Mul(c, d));
    MulAssoc(b, c, d);
    MulComm(b, c);
    MulAssoc(c, b, d);
    MulAssoc(a, c, Mul(b, d));
  }

  /** The two exponents of a power of a power may be exchanged. */
  lemma {:induction false} PowPow(x: byte, a: nat, b: nat)
    ensures Pow(Pow(x, a), b) == Pow(Pow(x, b), a)
    decreases a
  {
    hide Mul;
    if a == 0 {
      PowOne(b);
    } else {
      PowPow(x, a - 1, b);
      PowMul(Pow(x, a - 1), x, b);
    }
  }

  lemma {:induction false} PowOne(k: nat)
    ensures Pow(1, k) == 1
  {
    hide Mul;
    MulOne(1);
    if k > 0 { PowOne(k - 1); }
  }

  lemma PowTwoStep(k: nat)
    ensures Pow(2, k + 1) == XTime(Pow(2, k))
  {
    hide Mul, XTime;
    XTimeSmall(1);
    MulComm(Pow(2, k), 2);
    MulXTime(1, Pow(2, k));
    MulOne(Pow(2, k));
  }

  lemma XTimeInjective(a: byte, b: byte)
    requires XTime(a) == XTime(b)
    ensures a == b
  {
    hide Xor, Add;
    XTimeAdd(a, b);
    AddSelf(XTime(a));
    var d := Add(a, b);
    if d >= 128 {
      XorHalf(2 * (d as int), 0x11d);
    } else {
      XTimeSmall(d);
    }
    AddCancel(a, b);
  }

  lemma {:induction false} PowTwoNonZero(k: nat)
    ensures Pow(2, k) != 0
  {
    if k > 0 {
      hide Mul, XTime;
      PowTwoNonZero(k - 1);
      PowTwoStep(k - 1);
      XTimeSmall(0);
      if XTime(Pow(2, k - 1)) == 0 { XTimeInjective(Pow(2, k - 1), 0); }
    }
  }

  // ----- the order of 2 -------------------------------------------------------------------

  /** A byte spelled out, so that XTime becomes plain propositional logic. */
  datatype Bits8 = B(b7: bool, b6: bool, b5: bool, b4: bool, b3: bool, b2: bool, b1: bool, b0: bool)

  function Differ(s: seq<bool>, t: seq<bool>): (r: seq<bool>)
    requires |s| == |t|
    ensures |r| == |s| && forall i :: 0 <= i < |s| ==> r[i] == (s[i] != t[i])
  {
    seq(|s|, i requires 0 <= i < |s| => s[i] != t[i])
  }

  lemma {:induction false} XorIsDiffer(s: seq<bool>, t: seq<bool>)
    requires |s| == |t|
    ensures Xor(Number(s), Number(t)) == Number(Differ(s, t))
  {
    hide Xor, Number;
    if |s| == 0 {
      assert s == t == Differ(s, t) == [];
      XorSelf(Number(s));
      NumberNothing();
    } else {
      var n := |s| - 1;
      XorIsDiffer(s[..n], t[..n]);
      assert Differ(s, t)[..n] == Differ(s[..n], t[..n]);
      NumberLast(s);
      NumberLast(t);
      NumberLast(Differ(s, t));
      XorHalf(Number(s), Number(t));
    }
  }

  lemma NumberNothing()
    ensures Number([]) == 0
  {
  }

  lemma NumberLast(s: seq<bool>)
    requires s != []
    ensures Number(s) == 2 * Number(s[..|s| - 1]) + if s[|s| - 1] then 1 else 0
  {
  }

  lemma {:induction false} NumberTop(s: seq<bool>)
    requires s != []
    ensures Number(s) < Pow2(|s|)
    ensures s[0] <==> Number(s) >= Pow2(|s| - 1)
  {
    if |s| > 1 { NumberTop(s[..|s| - 1]); }
  }

  lemma {:induction false} NumberTrim(s: seq<bool>)
    requires s != [] && !s[0]
    ensures Number(s) == Number(s[1..])
  {
    if |s| > 1 {
      NumberTrim(s[..|s| - 1]);
      assert s[1..][..|s| - 2] == s[..|s| - 1][1..];
    }
  }

  function Digits(v: Bits8): seq<bool> { [v.b7, v.b6, v.b5, v.b4, v.b3, v.b2, v.b1, v.b0] }

  function Value(v: Bits8): byte {
    NumberTop(Digits(v));
    assert Pow2(8) == 256;
    Number(Digits(v))
  }

  function XTimeBits(v: Bits8): Bits8 {
    B(v.b6, v.b5, v.b4, v.b3 != v.b7, v.b2 != v.b7, v.b1 != v.b7, v.b0, v.b7)
  }

  const POLYNOMIAL: seq<bool> := [true, false, false, false] + [true] + [true] + [true] + [false] + [true]

  lemma PolynomialNumber()
    ensures Number(POLYNOMIAL) == 0x11d
  {
    var s := [true, false, false, false];
    assert s == [] + [true] + [false] + [false] + [false];
    NumberPush([], true);
    NumberPush([] + [true], false);
    NumberPush([] + [true] + [false], false);
    NumberPush([] + [true] + [false] + [false], false);
    hide Number;
    NumberPush(s, true);
    NumberPush(s + [true], true);
    NumberPush(s + [true] + [true], true);
    NumberPush(s + [true] + [true] + [true], false);
    NumberPush(s + [true] + [true] + [true] + [false], true);
  }

  lemma XTimeSmallOrReduced(v: byte)
    ensures XTime(v) == if v < 128 then 2 * v else Xor(2 * v, 0x11d)
  {
    hide Xor;
    if v < 128 { XTimeSmall(v); }
  }

  lemma ShiftedDigits(v: Bits8)
    ensures Digits(v) + [false] == [v.b7, v.b6, v.b5, v.b4, v.b3, v.b2, v.b1, v.b0, false]
  {
  }

  lemma ReducedDigits(v: Bits8)
    requires v.b7
    ensures var r := Differ([v.b7, v.b6, v.b5, v.b4, v.b3, v.b2, v.b1, v.b0, false], POLYNOMIAL);
      r == [false, v.b6, v.b5, v.b4, !v.b3, !v.b2, !v.b1, v.b0, true]
  {
    assert POLYNOMIAL == [true, false, false, false, true, true, true, false, true];
  }

  lemma TailOfNine(h: bool, v: Bits8)
    ensures [h, v.b7, v.b6, v.b5, v.b4, v.b3, v.b2, v.b1, v.b0][1..] == Digits(v)
  {
  }

  lemma ReducedTail(v: Bits8)
    requires v.b7
    ensures var r := Differ([v.b7, v.b6, v.b5, v.b4, v.b3, v.b2, v.b1, v.b0, false], POLYNOMIAL);
      !r[0] && r[1..] == Digits(XTimeBits(v))
  {
    hide Differ, Digits;
    ReducedDigits(v);
    TailOfNine(false, XTimeBits(v));
  }

  lemma XTimeOfBits(v: Bits8)
    ensures XTime(Value(v)) == Value(XTimeBits(v))
  {
    assert Pow2(7) == 128;
    hide Xor, Number, Pow2, XTime;
    NumberTop(Digits(v));
    XTimeSmallOrReduced(Value(v));
    NumberPush(Digits(v), false);
    var twice := [v.b7, v.b6, v.b5, v.b4, v.b3, v.b2, v.b1, v.b0, false];
    ShiftedDigits(v);
    if v.b7 {
      ReducedTail(v);
      PolynomialNumber();
      XorIsDiffer(twice, POLYNOMIAL);
      NumberTrim(Differ(twice, POLYNOMIAL));
    } else {
      TailOfNine(v.b7, XTimeBits(v));
      NumberTrim(twice);
    }
  }

  function Steps(v: Bits8, n: nat): Bits8
    decreases n
  {
    if n == 0 then v else Steps(XTimeBits(v), n - 1)
  }

  lemma {:induction false} Leap(v: Bits8, k: nat, n: nat, w: Bits8)
    requires Value(v) == Pow(2, k) && Steps(v, n) == w
    ensures Value(w) == Pow(2, k + n)
    decreases n
  {
    hide Pow, XTime, Value, XTimeBits;
    if n > 0 {
      PowTwoStep(k);
      XTimeOfBits(v);
      Leap(XTimeBits(v), k + 1, n - 1, w);
    }
  }

  lemma ValueOne()
    ensures Value(P0) == 1
  {
    var s := [false, false, false, false, false, false, false, true];
    NumberPush([], true);
    assert s[1..][1..][1..][1..][1..][1..][1..] == [] + [true];
    hide Number;
    NumberTrim(s);
    NumberTrim(s[1..]);
    NumberTrim(s[1..][1..]);
    NumberTrim(s[1..][1..][1..]);
    NumberTrim(s[1..][1..][1..][1..]);
    NumberTrim(s[1..][1..][1..][1..][1..]);
    NumberTrim(s[1..][1..][1..][1..][1..][1..]);
  }

  lemma ValueParity(v: Bits8)
    ensures Value(v) % 2 == if v.b0 then 1 else 0
  {
  }

  // The powers 2^0, 2^12, 2^24, ... and the three that decide the order.
  const P0 := B(false, false, false, false, false, false, false, true)
  const P12 := B(true, true, false, false, true, true, false, true)
  const P15 := B(false, false, true, false, false, true, true, false)
  const P24 := B(true, false, false, false, true, true, true, true)
  const P36 := B(false, false, true, false, false, true, false, true)
  const P48 := B(false, true, false, false, false, true, true, false)
  const P51 := B(false, false, false, false, true, false, true, false)
  const P60 := B(true, false, true, true, true, false, false, true)
  const P72 := B(false, true, true, false, false, true, false, true)
  const P84 := B(false, true, true, false, true, false, true, true)
  const P85 := B(true, true, false, true, false, true, true, false)
  const P96 := B(true, true, false, true, true, false, false, true)
  const P108 := B(true, true, false, true, false, false, false, false)
  const P120 := B(false, false, true, true, true, false, true, true)
  const P132 := B(true, false, true, true, true, false, false, false)
  const P144 := B(true, false, true, false, true, false, false, false)
  const P156 := B(true, true, true, false, false, true, false, false)
  const P168 := B(true, true, true, true, true, true, false, false)
  const P180 := B(true, false, false, true, false, true, true, false)
  const P192 := B(true, false, false, false, false, false, true, false)
  const P204 := B(true, true, false, true, true, true, false, true)
  const P216 := B(true, true, false, false, false, false, true, true)
  const P228 := B(false, false, true, true, true, true, false, true)
  const P240 := B(false, false, true, false, true, true, false, false)
  const P252 := B(true, false, true, false, true, true, false, true)
  const P255 := B(false, false, false, false, false, false, false, true)

  lemma Walk0()
    ensures Steps(P0, 12) == P12
    ensures Steps(P12, 3) == P15
    ensures Steps(P12, 12) == P24
    ensures Steps(P24, 12) == P36
  {
  }

  lemma Walk1()
    ensures Steps(P36, 12) == P48
    ensures Steps(P48, 3) == P51
    ensures Steps(P48, 12) == P60
    ensures Steps(P60, 12) == P72
  {
  }

  lemma Walk2()
    ensures Steps(P72, 12) == P84
    ensures Steps(P84, 1) == P85
    ensures Steps(P84, 12) == P96
    ensures Steps(P96, 12) == P108
  {
  }

  lemma Walk3()
    ensures Steps(P108, 12) == P120
    ensures Steps(P120, 12) == P132
    ensures Steps(P132, 12) == P144
    ensures Steps(P144, 12) == P156
  {
  }

  lemma Walk4()
    ensures Steps(P156, 12) == P168
    ensures Steps(P168, 12) == P180
    ensures Steps(P180, 12) == P192
    ensures Steps(P192, 12) == P204
  {
  }

  lemma Walk5()
    ensures Steps(P204, 12) == P216
    ensures Steps(P216, 12) == P228
    ensures Steps(P228, 12) == P240
    ensures Steps(P240, 12) == P252
    ensures Steps(P252, 3) == P255
  {
  }

  lemma Powers0()
    ensures Value(P36) == Pow(2, 36)
    ensures Pow(2, 15) != 1
  {
    hide Value, Pow, Steps;
    ValueOne();
    PowZero(2);
    Walk0();
    Leap(P0, 0, 12, P12);
    Leap(P12, 12, 3, P15);
    Leap(P12, 12, 12, P24);
    Leap(P24, 24, 12, P36);
    ValueParity(P15);
  }

  lemma Powers1()
    ensures Value(P72) == Pow(2, 72)
    ensures Pow(2, 51) != 1
  {
    Powers0();
    Walk1();
    hide Value, Pow, Steps;
    Leap(P36, 36, 12, P48);
    Leap(P48, 48, 3, P51);
    Leap(P48, 48, 12, P60);
    Leap(P60, 60, 12, P72);
    ValueParity(P51);
  }

  lemma Powers2()
    ensures Value(P108) == Pow(2, 108)
    ensures Pow(2, 85) != 1
  {
    Powers1();
    Walk2();
    hide Value, Pow, Steps;
    Leap(P72, 72, 12, P84);
    Leap(P84, 84, 1, P85);
    Leap(P84, 84, 12, P96);
    Leap(P96, 96, 12, P108);
    ValueParity(P85);
  }

  lemma Powers3()
    ensures Value(P156) == Pow(2, 156)
  {
    Powers2();
    Walk3();
    hide Value, Pow, Steps;
    Leap(P108, 108, 12, P120);
    Leap(P120, 120, 12, P132);
    Leap(P132, 132, 12, P144);
    Leap(P144, 144, 12, P156);
  }

  lemma Powers4()
    ensures Value(P204) == Pow(2, 204)
  {
    Powers3();
    Walk4();
    hide Value, Pow, Steps;
    Leap(P156, 156, 12, P168);
    Leap(P168, 168, 12, P180);
    Leap(P180, 180, 12, P192);
    Leap(P192, 192, 12, P204);
  }

  lemma Powers5()
    ensures Value(P255) == Pow(2, 255)
    ensures Pow(2, 255) == 1
  {
    Powers4();
    ValueOne();
    Walk5();
    hide Value, Pow, Steps;
    Leap(P204, 204, 12, P216);
    Leap(P216, 216, 12, P228);
    Leap(P228, 228, 12, P240);
    Leap(P240, 240, 12, P252);
    Leap(P252, 252, 3, P255);
  }

  lemma KeyPowers()
    ensures Pow(2, 15) != 1 && Pow(2, 51) != 1 && Pow(2, 85) != 1 && Pow(2, 255) == 1
  {
    hide *;
    Powers0();
    Powers1();
    Powers2();
    Powers5();
  }

  lemma PowZero(x: byte)
    ensures Pow(x, 0) == 1
  {
  }

  lemma {:induction false} PowCycle(m: nat, q: nat)
    requires Pow(2, m) == 1
    ensures Pow(2, m * q) == 1
  {
    hide Mul;
    if q > 0 {
      PowCycle(m, q - 1);
      assert m * q == m * (q - 1) + m;
      PowAdd(2, m * (q - 1), m);
      MulOne(1);
    }
  }

  ghost predicate IsOrder(m: nat) {
    m > 0 && Pow(2, m) == 1 && forall k :: 0 < k < m ==> Pow(2, k) != 1
  }

  lemma {:induction false} LeastCycle(n: nat) returns (m: nat)
    requires n > 0 && Pow(2, n) == 1
    ensures IsOrder(m) && m <= n
  {
    if k :| 0 < k < n && Pow(2, k) == 1 {
      m := LeastCycle(k);
    } else {
      m := n;
    }
  }

  lemma OrderDivides(m: nat, n: nat)
    requires IsOrder(m) && Pow(2, n) == 1
    ensures exists q: nat :: m * q == n
  {
    hide Mul;
    var q, r := n / m, n % m;
    assert m * q + r == n;
    PowCycle(m, q);
    PowAdd(2, m * q, r);
    MulOne(Pow(2, r));
  }

  lemma DivisorsOf255(m: nat, q: nat)
    requires m * q == 255 && 1 < q
    ensures m in {1, 3, 5, 15} || m == 17 || m == 51 || m == 85
  {
    if m <= 16 {
      assert m in {0, 1, 2, 3, 4, 5, 6, 7, 8, 9, 10, 11, 12, 13, 14, 15, 16};
    } else if q <= 15 {
      assert q in {2, 3, 4, 5, 6, 7, 8, 9, 10, 11, 12, 13, 14, 15};
    } else {
      MulMonotone(17, m, 16, q);
      assert false;
    }
  }

  lemma MulMonotone(a: nat, b: nat, c: nat, d: nat)
    requires a <= b && c <= d
    ensures a * c <= b * d
  {
    assert a * c <= b * c;
    assert b * c <= b * d;
  }

  /** No proper divisor of 255 is a period of the powers of 2. */
  lemma ProperDivisor(m: nat, q: nat)
    requires m * q == 255 && 1 < q
    ensures Pow(2, m) != 1
  {
    DivisorsOf255(m, q);
    KeyPowers();
    hide Pow;
    var d := if m == 17 then 3 else if m < 17 then 15 / m else 1;
    assert m * d in {15, 51, 85};
    if Pow(2, m) == 1 { PowCycle(m, d); }
  }

  /** The powers of 2 return to 1 for the first time after 255 steps. */
  lemma OrderOfTwo(k: nat)
    requires 0 < k < 255
    ensures Pow(2, k) != 1
  {
    if Pow(2, k) == 1 {
      KeyPowers();
      var m := LeastCycle(k);
      OrderDivides(m, 255);
      var q: nat :| m * q == 255;
      assert q != 0 && q != 1;
      ProperDivisor(m, q);
    }
  }

  lemma {:induction false} PowTwoInjective(i: nat, j: nat)
    requires i < j < 255
    ensures Pow(2, i) != Pow(2, j)
  {
    hide Pow, XTime;
    if i == 0 {
      PowZero(2);
      OrderOfTwo(j);
    } else {
      PowTwoInjective(i - 1, j - 1);
      PowTwoStep(i - 1);
      PowTwoStep(j - 1);
      if Pow(2, i) == Pow(2, j) { XTimeInjective(Pow(2, i - 1), Pow(2, j - 1)); }
    }
  }

  // ----- every non-zero byte is a power of 2 -------------------------------------------------

  ghost function FirstPowers(n: nat): set<int> {
    if n == 0 then {} else FirstPowers(n - 1) + {Pow(2, n - 1)}
  }

  lemma {:induction false} FirstPowersSize(n: nat)
    requires n <= 255
    ensures |FirstPowers(n)| == n
    ensures forall v :: v in FirstPowers(n) ==> IsPower(v, n)
  {
    hide Pow;
    if n > 0 {
      FirstPowersSize(n - 1);
      forall v | v in FirstPowers(n) ensures IsPower(v, n) {
        if v == Pow(2, n - 1) { PowTwoNonZero(n - 1); }
      }
      if Pow(2, n - 1) in FirstPowers(n - 1) {
        var k: nat :| k < n - 1 && Pow(2, n - 1) == Pow(2, k);
        PowTwoInjective(k, n - 1);
      }
    }
  }

  ghost predicate IsPower(v: int, n: nat) {
    0 < v < 256 && exists k: nat :: k < n && v == Pow(2, k)
  }

  ghost function Below(n: nat): set<int> { if n <= 1 then {} else Below(n - 1) + {n - 1} }

  lemma {:induction false} BelowSize(n: nat)
    requires n > 0
    ensures |Below(n)| == n - 1
    ensures forall v :: v in Below(n) <==> 1 <= v < n
  {
    if n > 1 { BelowSize(n - 1); }
  }

  lemma LogExists(v: byte) returns (k: nat)
    requires v != 0
    ensures k < 255 && Pow(2, k) == v
  {
    hide Pow, FirstPowers, Below;
    FirstPowersSize(255);
    BelowSize(256);
    if v !in FirstPowers(255) {
      forall x | x in FirstPowers(255) ensures x in Below(256) - {v as int} { assert IsPower(x, 255); }
      SubsetSize(FirstPowers(255), Below(256) - {v as int});
      assert false;
    }
    k :| k < 255 && v == Pow(2, k);
  }

  lemma SubsetSize(a: set<int>, b: set<int>)
    requires a <= b
    ensures |a| <= |b|
  {
    assert b == a + (b - a);
  }

  /** GF(256) has no zero divisors. */
  lemma NoZeroDivisors(x: byte, y: byte)
    requires x != 0 && y != 0
    ensures Mul(x, y) != 0
  {
    hide Pow, Mul;
    var i := LogExists(x);
    var j := LogExists(y);
    PowAdd(2, i, j);
    PowTwoNonZero(i + j);
  }
}
