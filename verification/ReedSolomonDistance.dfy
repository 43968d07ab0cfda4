/** Any two different blocks with the same data length differ in more places than there are error-correction symbols. */
module ReedSolomonDistance {
  import opened Gf256
  import opened Gf256Powers
  import opened ReedSolomon

  /** coefficient * locator^j */
  datatype Term = Term(coefficient: byte, locator: byte)

  function PowerSum(terms: seq<Term>, j: nat): byte {
    if terms == [] then 0
    else Add(Mul(terms[0].coefficient, Pow(terms[0].locator, j)), PowerSum(terms[1..], j))
  }

  ghost predicate DistinctLocators(terms: seq<Term>) {
    forall a, b :: 0 <= a < b < |terms| ==> terms[a].locator != terms[b].locator
  }

  /** Every coefficient multiplied by (its locator + y). */
  function Twist(terms: seq<Term>, y: byte): (r: seq<Term>)
    ensures |r| == |terms|
    ensures forall i :: 0 <= i < |r| ==> r[i] == Term(Mul(terms[i].coefficient, Add(terms[i].locator, y)), terms[i].locator)
  {
    seq(|terms|, i requires 0 <= i < |terms| =>
      Term(Mul(terms[i].coefficient, Add(terms[i].locator, y)), terms[i].locator))
  }

  lemma {:induction false} TwistSum(terms: seq<Term>, y: byte, j: nat)
    ensures PowerSum(Twist(terms, y), j) == Add(PowerSum(terms, j + 1), Mul(PowerSum(terms, j), y))
  {
    hide Add, Mul;
    if terms == [] {
      MulZero(y);
      AddSelf(0);
    } else {
      TwistSum(terms[1..], y, j);
      assert Twist(terms, y)[1..] == Twist(terms[1..], y);
      var c, x := terms[0].coefficient, terms[0].locator;
      var w := Pow(x, j);
      TwistTerm(c, x, y, w);
      var s0, s1 := PowerSum(terms[1..], j), PowerSum(terms[1..], j + 1);
      MulAddLeft(Mul(c, w), s0, y);
      AddSwap(Mul(c, Mul(w, x)), Mul(Mul(c, w), y), s1, Mul(s0, y));
    }
  }

  lemma TwistTerm(c: byte, x: byte, y: byte, w: byte)
    ensures Mul(Mul(c, Add(x, y)), w) == Add(Mul(c, Mul(w, x)), Mul(Mul(c, w), y))
  {
    hide Add, Mul;
    MulAssoc(c, Add(x, y), w);
    MulAddLeft(x, y, w);
    MulAddRight(c, Mul(x, w), Mul(y, w));
    MulComm(x, w);
    MulComm(y, w);
    MulAssoc(c, w, y);
  }

  lemma {:induction false} SumWithoutHead(terms: seq<Term>, j: nat)
    requires terms != [] && terms[0].coefficient == 0
    ensures PowerSum(terms, j) == PowerSum(terms[1..], j)
  {
    hide Add, Mul;
    MulZero(Pow(terms[0].locator, j));
    AddSelf(PowerSum(terms[1..], j));
  }

  /** Twisting by the first locator removes the first term and keeps the sums at zero. */
  lemma TwistedAway(terms: seq<Term>, j: nat)
    requires terms != []
    requires PowerSum(terms, j) == 0 && PowerSum(terms, j + 1) == 0
    ensures PowerSum(Twist(terms, terms[0].locator)[1..], j) == 0
  {
    hide Add, Mul, PowerSum;
    var y := terms[0].locator;
    TwistSum(terms, y, j);
    MulZero(y);
    AddSelf(0);
    AddSelf(y);
    MulComm(terms[0].coefficient, 0);
    MulZero(terms[0].coefficient);
    SumWithoutHead(Twist(terms, y), j);
  }

  lemma UntwistedZero(t: Term, y: byte)
    requires t.locator != y && Mul(t.coefficient, Add(t.locator, y)) == 0
    ensures t.coefficient == 0
  {
    hide Add, Mul;
    if t.coefficient != 0 {
      if Add(t.locator, y) == 0 { AddCancel(t.locator, y); }
      NoZeroDivisors(t.coefficient, Add(t.locator, y));
    }
  }

  /** A Vandermonde system has only the zero solution. */
  lemma {:induction false} Vandermonde(terms: seq<Term>)
    requires DistinctLocators(terms)
    requires forall j: nat :: j < |terms| ==> PowerSum(terms, j) == 0
    ensures forall i :: 0 <= i < |terms| ==> terms[i].coefficient == 0
    decreases |terms|
  {
    if terms != [] {
      hide Add, Mul, PowerSum;
      var y := terms[0].locator;
      var rest := Twist(terms, y)[1..];
      forall j: nat | j < |rest| ensures PowerSum(rest, j) == 0 { TwistedAway(terms, j); }
      Vandermonde(rest);
      forall i | 1 <= i < |terms| ensures terms[i].coefficient == 0 {
        assert rest[i - 1].coefficient == 0;
        UntwistedZero(terms[i], y);
      }
      ZeroTailSum(terms, 0);
      LoneTerm(terms);
    }
  }

  lemma {:induction false} ZeroTailSum(terms: seq<Term>, j: nat)
    requires terms != []
    requires forall i :: 1 <= i < |terms| ==> terms[i].coefficient == 0
    ensures PowerSum(terms, j) == Mul(terms[0].coefficient, Pow(terms[0].locator, j))
  {
    hide Add, Mul;
    AddSelf(Mul(terms[0].coefficient, Pow(terms[0].locator, j)));
    if |terms| > 1 {
      ZeroTailSum(terms[1..], j);
      MulZero(Pow(terms[1].locator, j));
    }
  }

  lemma LoneTerm(terms: seq<Term>)
    requires terms != []
    ensures Mul(terms[0].coefficient, Pow(terms[0].locator, 0)) == terms[0].coefficient
  {
    hide Mul;
    MulComm(terms[0].coefficient, 1);
    MulOne(terms[0].coefficient);
  }

  // ----- from symbols to terms -------------------------------------------------------------------------

  /** The non-zero symbols of c, each with the power of 2 that belongs to its place. */
  function Terms(c: Poly): seq<Term> {
    if c == [] then []
    else (if c[0] != 0 then [Term(c[0], Pow(2, |c| - 1))] else []) + Terms(c[1..])
  }

  /** The number of non-zero symbols. */
  function Weight(c: Poly): nat {
    if c == [] then 0 else (if c[0] != 0 then 1 else 0) + Weight(c[1..])
  }

  ghost predicate PlaceBelow(t: Term, n: nat) {
    t.coefficient != 0 && exists e: nat :: e < n && t.locator == Pow(2, e)
  }

  lemma {:induction false} TermsFacts(c: Poly)
    requires |c| <= 255
    ensures |Terms(c)| == Weight(c)
    ensures forall t :: t in Terms(c) ==> PlaceBelow(t, |c|)
    ensures DistinctLocators(Terms(c))
  {
    hide Pow;
    if c != [] {
      TermsFacts(c[1..]);
      var n := |c| - 1;
      forall t | t in Terms(c[1..]) ensures PlaceBelow(t, |c|) && t.locator != Pow(2, n) {
        assert PlaceBelow(t, n);
        var e: nat :| e < n && t.locator == Pow(2, e);
        PowTwoInjective(e, n);
      }
      assert PlaceBelow(Term(c[0], Pow(2, n)), |c|) || c[0] == 0;
    }
  }

  lemma {:induction false} TermsSum(c: Poly, j: nat)
    ensures PowerSum(Terms(c), j) == Eval(c, Pow(2, j))
  {
    hide Add, Mul, Pow;
    if c != [] {
      var n := |c| - 1;
      TermsSum(c[1..], j);
      EvalHead(c, Pow(2, j));
      PowPow(2, n, j);
      if c[0] == 0 {
        assert Terms(c) == Terms(c[1..]);
        MulZero(Pow(Pow(2, j), n));
        AddSelf(Eval(c[1..], Pow(2, j)));
      } else {
        assert Terms(c)[1..] == Terms(c[1..]);
      }
    }
  }

  /** A codeword of at most 255 symbols is zero or has more than `degree` non-zero symbols. */
  lemma CodewordWeight(c: Poly, degree: nat)
    requires |c| <= 255
    requires IsCodeword(c, degree)
    ensures Weight(c) == 0 || Weight(c) > degree
  {
    TermsFacts(c);
    var terms := Terms(c);
    if 0 < Weight(c) <= degree {
      forall j: nat | j < |terms| ensures PowerSum(terms, j) == 0 { TermsSum(c, j); }
      assert PlaceBelow(terms[0], |c|);
      Vandermonde(terms);
    }
  }

  // ----- distance -----------------------------------------------------------------------------------------

  /** In how many places two rows of symbols differ. */
  function Distance(a: Poly, b: Poly): nat
    requires |a| == |b|
  {
    if a == [] then 0 else (if a[0] != b[0] then 1 else 0) + Distance(a[1..], b[1..])
  }

  lemma {:induction false} DistanceIsWeight(a: Poly, b: Poly)
    requires |a| == |b|
    ensures Distance(a, b) == Weight(Sum(a, b))
  {
    hide Add;
    if a != [] {
      DistanceIsWeight(a[1..], b[1..]);
      assert Sum(a, b)[1..] == Sum(a[1..], b[1..]);
      AddSelf(a[0]);
      if Add(a[0], b[0]) == 0 { AddCancel(a[0], b[0]); }
    }
  }

  lemma {:induction false} DistanceZero(a: Poly, b: Poly)
    requires |a| == |b|
    ensures Distance(a, b) == 0 <==> a == b
  {
    if a != [] {
      DistanceZero(a[1..], b[1..]);
      assert a == [a[0]] + a[1..] && b == [b[0]] + b[1..];
    }
  }

  lemma {:induction false} DistanceTriangle(a: Poly, b: Poly, c: Poly)
    requires |a| == |b| == |c|
    ensures Distance(a, c) <= Distance(a, b) + Distance(b, c)
  {
    if a != [] { DistanceTriangle(a[1..], b[1..], c[1..]); }
  }

  /** Two different codewords of the same length differ in more than `degree` places. */
  lemma CodewordDistance(a: Poly, b: Poly, degree: nat)
    requires |a| == |b| <= 255 && a != b
    requires IsCodeword(a, degree) && IsCodeword(b, degree)
    ensures Distance(a, b) > degree
  {
    hide Add;
    forall k: nat | k < degree ensures Eval(Sum(a, b), Pow(2, k)) == 0 {
      EvalSum(a, b, Pow(2, k));
      AddSelf(0);
    }
    CodewordWeight(Sum(a, b), degree);
    DistanceIsWeight(a, b);
    DistanceZero(a, b);
  }

  /** The row of error-correction symbols is the only one of its length that completes the data to a codeword. */
  lemma RemainderUnique(data: Poly, ecc: Poly, degree: nat)
    requires |data| + degree <= 255 && |ecc| == degree > 0
    ensures IsCodeword(data + ecc, degree) <==> ecc == Remainder(data, Divisor(degree))
  {
    var rem := Remainder(data, Divisor(degree));
    RemainderRoots(data, degree);
    if IsCodeword(data + ecc, degree) && ecc != rem {
      assert (data + ecc)[|data|..] == ecc && (data + rem)[|data|..] == rem;
      CodewordDistance(data + ecc, data + rem, degree);
      SharedData(data, ecc, rem);
      DistanceBound(ecc, rem);
    }
  }

  lemma {:induction false} SharedData(data: Poly, a: Poly, b: Poly)
    requires |a| == |b|
    ensures Distance(data + a, data + b) == Distance(a, b)
  {
    if data == [] {
      assert data + a == a && data + b == b;
    } else {
      SharedData(data[1..], a, b);
      assert (data + a)[1..] == data[1..] + a && (data + b)[1..] == data[1..] + b;
    }
  }

  lemma {:induction false} DistanceBound(a: Poly, b: Poly)
    requires |a| == |b|
    ensures Distance(a, b) <= |a|
  {
    if a != [] { DistanceBound(a[1..], b[1..]); }
  }

  /**
   * A block with at most degree / 2 damaged symbols still has the block that was drawn as its one
   * nearest codeword.
   */
  lemma UniqueDecoding(sent: Poly, received: Poly, other: Poly, degree: nat)
    requires |sent| == |received| == |other| <= 255
    requires IsCodeword(sent, degree) && IsCodeword(other, degree) && other != sent
    requires 2 * Distance(sent, received) <= degree
    ensures Distance(sent, received) < Distance(received, other)
  {
    CodewordDistance(sent, other, degree);
    DistanceTriangle(sent, received, other);
  }
}
