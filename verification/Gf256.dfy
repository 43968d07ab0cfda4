/** Bitwise arithmetic on non-negative integers: `^`, `<<` and `>>>` as the encoder uses them. */
module BitOps {

  function Pow2(n: nat): (p: nat)
    ensures p > 0
  {
    if n == 0 then 1 else 2 * Pow2(n - 1)
  }

  /** JavaScript's `v >>> n` on non-negative integers: n halvings. */
  function Shr(v: nat, n: nat): (r: nat)
    ensures r <= v
    decreases n
  {
    if n == 0 then v else Shr(v / 2, n - 1)
  }

  lemma ShrZero(v: nat)
    ensures Shr(v, 0) == v
  {
  }

  lemma {:induction false} ShrHalf(v: nat, n: nat)
    ensures Shr(v, n) / 2 == Shr(v, n + 1)
    decreases n
  {
    if n > 0 { ShrHalf(v / 2, n - 1); }
  }

  lemma {:induction false} ShrSmall(v: nat, n: nat)
    requires v < Pow2(n)
    ensures Shr(v, n) == 0
    decreases n
  {
    if n > 0 { ShrSmall(v / 2, n - 1); }
  }

  /** JavaScript's `^` on non-negative integers, bit by bit. */
  function Xor(a: nat, b: nat): nat
    decreases a + b
  {
    if a == 0 && b == 0 then 0
    else 2 * Xor(a / 2, b / 2) + (if a % 2 == b % 2 then 0 else 1)
  }

  lemma XorHalf(a: nat, b: nat)
    ensures Xor(a, b) / 2 == Xor(a / 2, b / 2)
    ensures Xor(a, b) % 2 == if a % 2 == b % 2 then 0 else 1
  {
  }

  lemma {:induction false} XorComm(a: nat, b: nat)
    ensures Xor(a, b) == Xor(b, a)
    decreases a + b
  {
    if a + b != 0 { XorComm(a / 2, b / 2); }
  }

  lemma {:induction false} XorSelf(a: nat)
    ensures Xor(a, a) == 0
  {
    if a != 0 { XorSelf(a / 2); }
  }

  lemma {:induction false} XorZero(a: nat)
    ensures Xor(a, 0) == a == Xor(0, a)
  {
    if a != 0 { XorZero(a / 2); }
  }

  lemma {:induction false} XorAssoc(a: nat, b: nat, c: nat)
    ensures Xor(Xor(a, b), c) == Xor(a, Xor(b, c))
    decreases a + b + c
  {
    if a + b + c != 0 {
      hide Xor;
      XorAssoc(a / 2, b / 2, c / 2);
      XorHalf(a, b);
      XorHalf(b, c);
      XorHalf(Xor(a, b), c);
      XorHalf(a, Xor(b, c));
    }
  }

  /** The bits of a, b, c, d may be summed in any order. */
  lemma XorSwap(a: nat, b: nat, c: nat, d: nat)
    ensures Xor(Xor(a, b), Xor(c, d)) == Xor(Xor(a, c), Xor(b, d))
  {
    hide Xor;
    XorAssoc(a, b, Xor(c, d));
    XorAssoc(b, c, d);
    XorComm(b, c);
    XorAssoc(c, b, d);
    XorAssoc(a, c, Xor(b, d));
  }

  /** Xor never sets a bit above the highest bit of its operands, and that bit is the xor of theirs. */
  lemma {:induction false} XorTop(a: nat, b: nat, k: nat)
    requires a < 2 * Pow2(k) && b < 2 * Pow2(k)
    ensures Xor(a, b) < 2 * Pow2(k)
    ensures Xor(a, b) >= Pow2(k) <==> (a >= Pow2(k)) != (b >= Pow2(k))
  {
    if k > 0 {
      XorTop(a / 2, b / 2, k - 1);
      hide Xor;
      XorHalf(a, b);
    }
  }

  /** The number a row of binary digits stands for, most significant digit first. */
  function Number(s: seq<bool>): nat {
    if s == [] then 0 else 2 * Number(s[..|s| - 1]) + (if s[|s| - 1] then 1 else 0)
  }

  lemma NumberPush(s: seq<bool>, b: bool)
    ensures Number(s + [b]) == 2 * Number(s) + (if b then 1 else 0)
  {
    assert (s + [b])[..|s|] == s;
  }

  /** The n binary digits of v that `push(v, n)` appends, most significant first. */
  function BitRow(v: nat, n: nat): (r: seq<bool>)
    ensures |r| == n
    decreases n
  {
    if n == 0 then [] else BitRow(v / 2, n - 1) + [v % 2 == 1]
  }

  lemma {:induction false} NumberOfBitRow(v: nat, n: nat)
    requires v < Pow2(n)
    ensures Number(BitRow(v, n)) == v
    decreases n
  {
    if n > 0 {
      NumberOfBitRow(v / 2, n - 1);
      NumberPush(BitRow(v / 2, n - 1), v % 2 == 1);
    }
  }

  lemma {:induction false} BitRowOfNumber(s: seq<bool>)
    ensures Number(s) < Pow2(|s|)
    ensures BitRow(Number(s), |s|) == s
  {
    if s != [] {
      BitRowOfNumber(s[..|s| - 1]);
    }
  }
}

/** GF(256) with the reducing polynomial 0x11d (`gfMultiply`, design/assets/qrcode.js). */
module Gf256 {
  import opened BitOps

  type byte = x: int | 0 <= x < 256

  function Add(a: byte, b: byte): byte {
    XorTop(a, b, 7);
    Xor(a, b)
  }

  /** One round of the shift-and-reduce loop without its conditional add: multiplication by x. */
  function XTime(v: byte): byte {
    Reduce(v);
    Xor(2 * v, (v / 128) * 0x11d)
  }

  lemma Reduce(v: byte)
    ensures Xor(2 * v, (v / 128) * 0x11d) < 256
  {
    assert Pow2(8) == 256;
    XorTop(2 * v, (v / 128) * 0x11d, 8);
  }

  /** Carry-less product modulo 0x11d, by the binary expansion of y. */
  function Mul(x: byte, y: byte): byte
    decreases y
  {
    if y == 0 then 0 else Add(XTime(Mul(x, y / 2)), if y % 2 == 1 then x else 0)
  }

  lemma AddComm(a: byte, b: byte)
    ensures Add(a, b) == Add(b, a)
  {
    XorComm(a, b);
  }

  lemma AddAssoc(a: byte, b: byte, c: byte)
    ensures Add(Add(a, b), c) == Add(a, Add(b, c))
  {
    XorAssoc(a, b, c);
  }

  lemma AddSelf(a: byte)
    ensures Add(a, a) == 0
    ensures Add(a, 0) == a == Add(0, a)
  {
    XorSelf(a);
    XorZero(a);
  }

  lemma AddSwap(a: byte, b: byte, c: byte, d: byte)
    ensures Add(Add(a, b), Add(c, d)) == Add(Add(a, c), Add(b, d))
  {
    XorSwap(a, b, c, d);
  }

  /** A sum is zero only when its two terms agree. */
  lemma AddCancel(a: byte, b: byte)
    requires Add(a, b) == 0
    ensures a == b
  {
    hide Add;
    AddAssoc(a, b, b);
    AddSelf(b);
    AddSelf(a);
  }

  lemma XTimeAdd(a: byte, b: byte)
    ensures XTime(Add(a, b)) == Add(XTime(a), XTime(b))
  {
    hide Xor;
    assert Pow2(7) == 128;
    XorTop(a, b, 7);
    XorHalf(2 * a, 2 * b);
    XorSelf(0x11d);
    XorZero(0x11d);
    XorZero(0);
    XorSwap(2 * a, (a / 128) * 0x11d, 2 * b, (b / 128) * 0x11d);
  }

  lemma XTimeSmall(v: byte)
    requires v < 128
    ensures XTime(v) == 2 * v
  {
    hide Xor;
    XorZero(2 * v);
  }

  /** A byte is its upper seven bits, shifted, plus its lowest bit. */
  lemma Split(y: byte)
    ensures y == Add(XTime(y / 2), y % 2)
  {
    hide Xor;
    XTimeSmall(y / 2);
    XorHalf(2 * (y / 2), y % 2);
    XorZero(y / 2);
  }

  lemma MulStep(x: byte, y: byte)
    ensures Mul(x, y) == Add(XTime(Mul(x, y / 2)), if y % 2 == 1 then x else 0)
  {
    XTimeSmall(0);
    AddSelf(0);
    hide Add, XTime;
  }

  lemma {:induction false} MulAddLeft(a: byte, b: byte, y: byte)
    ensures Mul(Add(a, b), y) == Add(Mul(a, y), Mul(b, y))
    decreases y
  {
    hide Add, XTime;
    AddSelf(0);
    if y != 0 {
      MulAddLeft(a, b, y / 2);
      XTimeAdd(Mul(a, y / 2), Mul(b, y / 2));
      AddSwap(XTime(Mul(a, y / 2)), if y % 2 == 1 then a else 0, XTime(Mul(b, y / 2)), if y % 2 == 1 then b else 0);
    }
  }

  lemma {:induction false} MulXTime(x: byte, y: byte)
    ensures Mul(XTime(x), y) == XTime(Mul(x, y))
    decreases y
  {
    hide Add, XTime;
    XTimeSmall(0);
    if y != 0 {
      MulXTime(x, y / 2);
      XTimeAdd(XTime(Mul(x, y / 2)), if y % 2 == 1 then x else 0);
    }
  }

  lemma {:induction false} MulOne(x: byte)
    ensures Mul(1, x) == x
  {
    hide Add, XTime;
    if x != 0 {
      MulOne(x / 2);
      Split(x);
    }
  }

  lemma {:induction false} MulZero(x: byte)
    ensures Mul(0, x) == 0
  {
    if x != 0 {
      MulZero(x / 2);
      XTimeSmall(0);
      AddSelf(0);
    }
  }

  lemma {:induction false} MulComm(x: byte, y: byte)
    ensures Mul(x, y) == Mul(y, x)
    decreases y
  {
    hide Add, XTime;
    MulZero(x);
    if y != 0 {
      MulComm(x, y / 2);
      hide Add, XTime;
      var h, l := y / 2, y % 2;
      Split(y);
      MulAddLeft(XTime(h), l, x);
      MulXTime(h, x);
      MulOne(x);
    }
  }

  lemma MulAddRight(x: byte, a: byte, b: byte)
    ensures Mul(x, Add(a, b)) == Add(Mul(x, a), Mul(x, b))
  {
    hide Add, Mul;
    MulComm(x, Add(a, b));
    MulAddLeft(a, b, x);
    MulComm(x, a);
    MulComm(x, b);
  }

  lemma {:induction false} MulAssoc(a: byte, b: byte, c: byte)
    ensures Mul(Mul(a, b), c) == Mul(a, Mul(b, c))
    decreases c
  {
    hide Add, XTime;
    if c != 0 {
      var h := Mul(b, c / 2);
      var l := if c % 2 == 1 then b else 0;
      MulAssoc(a, b, c / 2);
      MulStep(b, c);
      MulStep(Mul(a, b), c);
      MulAddRight(a, XTime(h), l);
      MulComm(a, XTime(h));
      MulXTime(h, a);
      MulComm(h, a);
    }
  }

  /** The two statements of the source's loop body, for one value of `bit`. */
  function Round(result: byte, x: byte, y: byte, bit: nat): nat {
    Xor(Xor(2 * result, (result / 128) * 0x11d), (Shr(y, bit) % 2) * x)
  }

  lemma RoundIsStep(x: byte, y: byte, bit: nat)
    ensures Round(Mul(x, Shr(y, bit + 1)), x, y, bit) == Mul(x, Shr(y, bit))
  {
    hide Xor, Mul, Shr;
    ShrHalf(y, bit);
    MulStep(x, Shr(y, bit));
    var b := Shr(y, bit) % 2;
    assert b == 0 || b == 1;
    if b == 1 {
      assert b * x == x;
    } else {
      assert b * x == 0;
    }
  }

  lemma AllShifted(x: byte, y: byte)
    ensures Mul(x, Shr(y, 8)) == 0 && Shr(y, 0) == y
  {
    assert Pow2(8) == 256;
    ShrSmall(y, 8);
  }

  /** `gfMultiply`: shift, reduce, add x when the next bit of y is set. */
  method GfMultiply(x: byte, y: byte) returns (result: byte)
    ensures result == Mul(x, y)
  {
    hide *;
    AllShifted(x, y);
    result := 0;
    var bit := 7;
    while bit >= 0
      invariant -1 <= bit <= 7
      invariant result == Mul(x, Shr(y, bit + 1))
    {
      RoundIsStep(x, y, bit);
      result := Round(result, x, y, bit);
      bit := bit - 1;
    }
  }
}
