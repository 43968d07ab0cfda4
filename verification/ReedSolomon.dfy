/** Reed-Solomon error correction as the encoder computes it (design/assets/qrcode.js). */
module ReedSolomon {
  import opened Gf256
  import opened Gf256Powers

  /** A polynomial over GF(256), highest power first. */
  type Poly = seq<byte>

  /** The value of p at x, by Horner's rule. */
  function Eval(p: Poly, x: byte): byte {
    if p == [] then 0 else Add(Mul(Eval(p[..|p| - 1], x), x), p[|p| - 1])
  }

  function Zeros(n: nat): (z: Poly)
    ensures |z| == n && forall i :: 0 <= i < n ==> z[i] == 0
  {
    seq(n, _ => 0)
  }

  function Sum(p: Poly, q: Poly): (r: Poly)
    requires |p| == |q|
    ensures |r| == |p|
    ensures forall i :: 0 <= i < |p| ==> r[i] == Add(p[i], q[i])
  {
    seq(|p|, i requires 0 <= i < |p| => Add(p[i], q[i]))
  }

  function Scale(p: Poly, f: byte): (r: Poly)
    ensures |r| == |p|
    ensures forall i :: 0 <= i < |p| ==> r[i] == Mul(p[i], f)
  {
    seq(|p|, i requires 0 <= i < |p| => Mul(p[i], f))
  }

  // ----- evaluation is linear -----------------------------------------------------------------

  lemma EvalPush(p: Poly, c: byte, x: byte)
    ensures Eval(p + [c], x) == Add(Mul(Eval(p, x), x), c)
  {
    assert (p + [c])[..|p|] == p;
  }

  lemma {:induction false} EvalSum(p: Poly, q: Poly, x: byte)
    requires |p| == |q|
    ensures Eval(Sum(p, q), x) == Add(Eval(p, x), Eval(q, x))
  {
    hide Add, Mul;
    if |p| == 0 {
      AddSelf(0);
    } else {
      var n := |p| - 1;
      EvalSum(p[..n], q[..n], x);
      assert Sum(p, q)[..n] == Sum(p[..n], q[..n]);
      MulAddLeft(Eval(p[..n], x), Eval(q[..n], x), x);
      AddSwap(Mul(Eval(p[..n], x), x), Mul(Eval(q[..n], x), x), p[n], q[n]);
    }
  }

  lemma {:induction false} EvalScale(p: Poly, f: byte, x: byte)
    ensures Eval(Scale(p, f), x) == Mul(Eval(p, x), f)
  {
    hide Add, Mul;
    if |p| == 0 {
      MulZero(f);
    } else {
      var n := |p| - 1;
      EvalScale(p[..n], f, x);
      assert Scale(p, f)[..n] == Scale(p[..n], f);
      var v := Eval(p[..n], x);
      MulAddLeft(Mul(v, x), p[n], f);
      MulAssoc(v, x, f);
      MulComm(x, f);
      MulAssoc(v, f, x);
    }
  }

  lemma {:induction false} EvalZeros(n: nat, x: byte)
    ensures Eval(Zeros(n), x) == 0
  {
    hide Add, Mul;
    if n > 0 {
      EvalZeros(n - 1, x);
      assert Zeros(n)[..n - 1] == Zeros(n - 1);
      MulZero(x);
      AddSelf(0);
    }
  }

  lemma {:induction false} EvalConcat(p: Poly, q: Poly, x: byte)
    ensures Eval(p + q, x) == Add(Mul(Eval(p, x), Pow(x, |q|)), Eval(q, x))
  {
    hide Add, Mul;
    if q == [] {
      assert p + q == p;
      MulComm(Eval(p, x), 1);
      MulOne(Eval(p, x));
      AddSelf(Eval(p, x));
    } else {
      var n := |q| - 1;
      EvalConcat(p, q[..n], x);
      assert (p + q)[..|p| + n] == p + q[..n];
      var a, w, e := Eval(p, x), Pow(x, n), Eval(q[..n], x);
      MulAddLeft(Mul(a, w), e, x);
      MulAssoc(a, w, x);
      AddAssoc(Mul(Mul(a, w), x), Mul(e, x), q[n]);
    }
  }

  // ----- the generator polynomial ----------------------------------------------------------------

  /** p times (x + root). */
  function TimesLinear(p: Poly, root: byte): Poly {
    Sum(p + [0], [0] + Scale(p, root))
  }

  lemma EvalTimesLinear(p: Poly, root: byte, x: byte)
    ensures Eval(TimesLinear(p, root), x) == Mul(Eval(p, x), Add(x, root))
  {
    hide Add, Mul;
    EvalSum(p + [0], [0] + Scale(p, root), x);
    EvalPush(p, 0, x);
    EvalConcat([0], Scale(p, root), x);
    EvalZeros(1, x);
    assert Zeros(1) == [0];
    MulZero(Pow(x, |p|));
    EvalScale(p, root, x);
    AddSelf(Mul(Eval(p, x), x));
    AddSelf(Mul(Eval(p, x), root));
    MulAddRight(Eval(p, x), x, root);
  }

  /** The product of (x + 2^0) ... (x + 2^(degree-1)). */
  function Generator(degree: nat): (g: Poly)
    ensures |g| == degree + 1
  {
    if degree == 0 then [1] else TimesLinear(Generator(degree - 1), Pow(2, degree - 1))
  }

  lemma {:induction false} GeneratorMonic(degree: nat)
    ensures Generator(degree)[0] == 1
  {
    if degree > 0 {
      GeneratorMonic(degree - 1);
      AddSelf(1);
    }
  }

  lemma {:induction false} GeneratorRoots(degree: nat, k: nat)
    requires k < degree
    ensures Eval(Generator(degree), Pow(2, k)) == 0
  {
    hide Add, Mul, Pow;
    var x := Pow(2, k);
    EvalTimesLinear(Generator(degree - 1), Pow(2, degree - 1), x);
    if k == degree - 1 {
      AddSelf(x);
      MulComm(Eval(Generator(degree - 1), x), 0);
    } else {
      GeneratorRoots(degree - 1, k);
    }
    MulZero(Add(x, Pow(2, degree - 1)));
    MulZero(Eval(Generator(degree - 1), x));
  }

  /** What `reedSolomonDivisor` returns: the generator without its leading coefficient. */
  function Divisor(degree: nat): (d: Poly)
    ensures |d| == degree
  {
    Generator(degree)[1..]
  }

  lemma DivisorAtRoot(degree: nat, k: nat)
    requires k < degree
    ensures Eval(Divisor(degree), Pow(2, k)) == Pow(Pow(2, k), degree)
  {
    hide Add, Mul, Pow, Generator;
    var x := Pow(2, k);
    var d := Divisor(degree);
    GeneratorMonic(degree);
    GeneratorRoots(degree, k);
    assert [1] + d == Generator(degree);
    EvalConcat([1], d, x);
    EvalPush([], 1, x);
    assert [] + [1] == [1];
    MulZero(x);
    AddSelf(1);
    MulOne(Pow(x, degree));
    AddCancel(Pow(x, degree), Eval(d, x));
  }

  // ----- division with the shift register -----------------------------------------------------------

  /** One step of the register: shift out the head, add it to the input, feed it back. */
  function Shift(rem: Poly, value: byte, divisor: Poly): (r: Poly)
    requires |rem| == |divisor| > 0
    ensures |r| == |rem|
  {
    Sum(rem[1..] + [0], Scale(divisor, Add(value, rem[0])))
  }

  function Remainder(data: Poly, divisor: Poly): (r: Poly)
    requires |divisor| > 0
    ensures |r| == |divisor|
  {
    if data == [] then Zeros(|divisor|)
    else Shift(Remainder(data[..|data| - 1], divisor), data[|data| - 1], divisor)
  }

  /** A row of symbols that every root 2^0 ... 2^(degree-1) annihilates. */
  ghost predicate IsCodeword(c: Poly, degree: nat) {
    forall k: nat :: k < degree ==> Eval(c, Pow(2, k)) == 0
  }

  lemma ShiftAtRoot(rem: Poly, value: byte, degree: nat, k: nat)
    requires |rem| == degree && k < degree
    ensures var x := Pow(2, k);
      Eval(Shift(rem, value, Divisor(degree)), x) == Add(Mul(Eval(rem, x), x), Mul(value, Pow(x, degree)))
  {
    hide Add, Mul, Pow, Divisor;
    var x := Pow(2, k);
    var d := Divisor(degree);
    var f := Add(value, rem[0]);
    EvalSum(rem[1..] + [0], Scale(d, f), x);
    EvalScale(d, f, x);
    DivisorAtRoot(degree, k);
    EvalPush(rem[1..], 0, x);
    EvalHead(rem, x);
    hide Eval;
    HeadShiftedOut(Eval(rem[1..], x), rem[0], value, x, degree);
  }

  lemma EvalHead(p: Poly, x: byte)
    requires p != []
    ensures Eval(p, x) == Add(Mul(p[0], Pow(x, |p| - 1)), Eval(p[1..], x))
  {
    hide Add, Mul, Pow;
    assert p == ([] + [p[0]]) + p[1..];
    EvalConcat([] + [p[0]], p[1..], x);
    EvalPush([], p[0], x);
    MulZero(x);
    AddSelf(p[0]);
  }

  /** With r = h x^(n-1) + t: t x + (v + h) x^n = r x + v x^n. */
  lemma HeadShiftedOut(t: byte, h: byte, v: byte, x: byte, n: nat)
    requires n > 0
    ensures Add(Add(Mul(t, x), 0), Mul(Pow(x, n), Add(v, h)))
         == Add(Mul(Add(Mul(h, Pow(x, n - 1)), t), x), Mul(v, Pow(x, n)))
  {
    hide Add, Mul;
    var w := Pow(x, n);
    AddSelf(Mul(t, x));
    MulAddRight(w, v, h);
    MulComm(w, v);
    MulComm(w, h);
    MulAddLeft(Mul(h, Pow(x, n - 1)), t, x);
    MulAssoc(h, Pow(x, n - 1), x);
    AddComm(Mul(v, w), Mul(h, w));
    AddAssoc(Mul(t, x), Mul(h, w), Mul(v, w));
    AddComm(Mul(t, x), Mul(h, w));
  }

  /** Data followed by its remainder vanishes at every root of the generator. */
  lemma {:induction false} RemainderRoots(data: Poly, degree: nat)
    requires degree > 0
    ensures IsCodeword(data + Remainder(data, Divisor(degree)), degree)
  {
    forall k: nat | k < degree
      ensures Eval(data + Remainder(data, Divisor(degree)), Pow(2, k)) == 0
    {
      RemainderAtRoot(data, degree, k);
    }
  }

  lemma {:induction false} RemainderAtRoot(data: Poly, degree: nat, k: nat)
    requires k < degree
    ensures Eval(data + Remainder(data, Divisor(degree)), Pow(2, k)) == 0
  {
    hide Add, Mul, Divisor;
    var x := Pow(2, k);
    var d := Divisor(degree);
    var rem := Remainder(data, d);
    hide Pow;
    EvalConcat(data, rem, x);
    if data == [] {
      EvalZeros(degree, x);
      MulZero(Pow(x, degree));
      AddSelf(0);
    } else {
      var n := |data| - 1;
      var before := Remainder(data[..n], d);
      RemainderAtRoot(data[..n], degree, k);
      EvalConcat(data[..n], before, x);
      ShiftAtRoot(before, data[n], degree, k);
      NextRemainder(Eval(data[..n], x), Eval(before, x), data[n], x, Pow(x, degree));
    }
  }

  /** If D w + R = 0 then (D x + v) w + (R x + v w) = 0. */
  lemma NextRemainder(dv: byte, r: byte, v: byte, x: byte, w: byte)
    requires Add(Mul(dv, w), r) == 0
    ensures Add(Mul(Add(Mul(dv, x), v), w), Add(Mul(r, x), Mul(v, w))) == 0
  {
    hide Add, Mul;
    AddCancel(Mul(dv, w), r);
    MulAddLeft(Mul(dv, x), v, w);
    MulAssoc(dv, x, w);
    MulComm(x, w);
    MulAssoc(dv, w, x);
    AddSelf(Add(Mul(r, x), Mul(v, w)));
  }

  // ----- the two routines ------------------------------------------------------------------------------

  /** The register of `reedSolomonDivisor` after i rounds: the last coefficients of the product so far. */
  function Register(i: nat, degree: nat): (r: Poly)
    ensures |r| == degree
    ensures forall j :: 0 <= j < degree ==> r[j] == RegisterCell(i, degree, j)
  {
    seq(degree, j requires 0 <= j < degree => RegisterCell(i, degree, j))
  }

  function RegisterCell(i: nat, degree: nat, j: nat): byte
    requires j < degree
  {
    Coefficient(Generator(i), i + 1 + j - degree)
  }

  function Coefficient(p: Poly, at: int): byte {
    if 0 <= at < |p| then p[at] else 0
  }

  lemma TimesLinearAt(p: Poly, root: byte, at: int)
    requires p != [] && -1 <= at < |p|
    ensures Coefficient(TimesLinear(p, root), at + 1) == Add(Mul(Coefficient(p, at), root), Coefficient(p, at + 1))
  {
    hide Add, Mul;
    MulZero(root);
    AddComm(Mul(Coefficient(p, at), root), Coefficient(p, at + 1));
  }

  lemma RegisterStep(i: nat, degree: nat, j: nat)
    requires i < degree && j < degree
    ensures Register(i + 1, degree)[j]
         == Add(Mul(Register(i, degree)[j], Pow(2, i)), if j + 1 < degree then Register(i, degree)[j + 1] else 0)
  {
    var root := Pow(2, i);
    hide Add, Mul, Pow;
    var at := i + 1 + j - degree;
    if at >= -1 {
      TimesLinearAt(Generator(i), root, at);
    } else {
      MulZero(root);
      AddSelf(0);
    }
  }

  lemma FirstRegister(degree: nat, j: nat)
    requires j < degree
    ensures Register(0, degree)[j] == if j == degree - 1 then 1 else 0
    ensures Pow(2, 0) == 1
  {
  }

  method ReedSolomonDivisor(degree: nat) returns (divisor: array<byte>)
    requires degree > 0
    ensures fresh(divisor)
    ensures divisor[..] == Divisor(degree)
  {
    hide *;
    divisor := new byte[degree](_ => 0);
    divisor[degree - 1] := 1;
    var root: byte := 1;
    var i := 0;
    forall j: nat | j < degree ensures divisor[j] == Register(0, degree)[j] { FirstRegister(degree, j); }
    FirstRegister(degree, 0);
    while i < degree
      invariant i <= degree
      invariant root == Pow(2, i)
      invariant divisor[..] == Register(i, degree)
    {
      var j := 0;
      while j < degree
        invariant j <= degree
        invariant forall t :: 0 <= t < j ==> divisor[t] == Register(i + 1, degree)[t]
        invariant forall t :: j <= t < degree ==> divisor[t] == Register(i, degree)[t]
      {
        RegisterStep(i, degree, j);
        var product := GfMultiply(divisor[j], root);
        AddSelf(product);
        divisor[j] := product;
        if j + 1 < degree { divisor[j] := Add(divisor[j], divisor[j + 1]); }
        j := j + 1;
      }
      PowTwoTimes(i);
      root := GfMultiply(root, 2);
      i := i + 1;
    }
    FullRegister(degree);
  }

  lemma PowTwoTimes(i: nat)
    ensures Pow(2, i + 1) == Mul(Pow(2, i), 2)
  {
  }

  lemma FullRegister(degree: nat)
    ensures Register(degree, degree) == Divisor(degree)
  {
  }

  method ReedSolomonRemainder(data: Poly, divisor: array<byte>) returns (remainder: Poly)
    requires divisor.Length > 0
    ensures remainder == Remainder(data, divisor[..])
  {
    remainder := Zeros(divisor.Length);
    var n := 0;
    while n < |data|
      invariant n <= |data|
      invariant remainder == Remainder(data[..n], divisor[..])
    {
      hide Add, Mul;
      ghost var before := remainder;
      var factor := Add(data[n], remainder[0]);
      remainder := remainder[1..] + [0];
      ghost var shifted := remainder;
      var index := 0;
      while index < divisor.Length
        invariant index <= divisor.Length == |remainder|
        invariant forall t :: 0 <= t < index ==> remainder[t] == Add(shifted[t], Mul(divisor[t], factor))
        invariant forall t :: index <= t < |remainder| ==> remainder[t] == shifted[t]
      {
        var product := GfMultiply(divisor[index], factor);
        remainder := remainder[index := Add(remainder[index], product)];
        index := index + 1;
      }
      assert remainder == Shift(before, data[n], divisor[..]);
      assert data[..n + 1][..n] == data[..n];
      n := n + 1;
    }
    assert data[..n] == data;
  }
}
