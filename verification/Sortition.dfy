/** Cryptographic sortition by inverting the binomial distribution, with exact reals
    in place of doubles. */
module Sortition {

  // ------------------------------------------------ binomial coefficients

  /** Pascal's triangle. */
  function Choose(n: nat, k: nat): nat {
    if k == 0 then 1 else if n == 0 then 0 else Choose(n - 1, k - 1) + Choose(n - 1, k)
  }

  function Factorial(n: nat): nat { if n == 0 then 1 else n * Factorial(n - 1) }

  lemma ChooseNone(n: nat)
    ensures Choose(n, 0) == 1
  {
  }

  lemma {:induction false} ChooseBeyond(n: nat, k: nat)
    requires n < k
    ensures Choose(n, k) == 0
  {
    if n != 0 {
      ChooseBeyond(n - 1, k - 1);
      ChooseBeyond(n - 1, k);
    }
  }

  lemma {:induction false} ChooseAll(n: nat)
    ensures Choose(n, n) == 1
  {
    if n != 0 {
      ChooseAll(n - 1);
      ChooseBeyond(n - 1, n);
    }
  }

  lemma {:induction false} ChoosePositive(n: nat, k: nat)
    requires k <= n
    ensures 1 <= Choose(n, k)
  {
    if k != 0 {
      ChoosePositive(n - 1, k - 1);
    }
  }

  lemma {:induction false} Symmetry(n: nat, k: nat)
    requires k <= n
    ensures Choose(n, k) == Choose(n, n - k)
  {
    if k == 0 || k == n {
      ChooseAll(n);
    } else {
      Symmetry(n - 1, k - 1);
      Symmetry(n - 1, k);
    }
  }

  /** What makes each division of the coefficient loop exact. */
  lemma {:induction false} Absorption(n: nat, k: nat)
    requires 1 <= k && 1 <= n
    ensures k * Choose(n, k) == n * Choose(n - 1, k - 1)
  {
    if n == 1 {
      if 2 <= k {
        ChooseBeyond(1, k);
        ChooseBeyond(0, k - 1);
      }
    } else if k == 1 {
      Absorption(n - 1, 1);
    } else {
      Absorption(n - 1, k);
      Absorption(n - 1, k - 1);
      AbsorptionSum(n, k, Choose(n - 1, k - 1), Choose(n - 1, k), Choose(n - 2, k - 1), Choose(n - 2, k - 2));
    }
  }

  lemma AbsorptionSum(n: nat, k: nat, x: nat, y: nat, a: nat, b: nat)
    requires 1 <= k && x == a + b && k * y == (n - 1) * a && (k - 1) * x == (n - 1) * b
    ensures k * (x + y) == n * x
  {
    assert (n - 1) * a + (n - 1) * b == (n - 1) * (a + b);
    assert k * x == (k - 1) * x + x;
  }

  lemma {:induction false} FactorialFormula(n: nat, r: nat)
    requires r <= n
    ensures Choose(n, r) * Factorial(r) * Factorial(n - r) == Factorial(n)
  {
    if r == 0 {
    } else {
      FactorialFormula(n - 1, r - 1);
      Absorption(n, r);
      FactorialProduct(n, r, Choose(n, r), Choose(n - 1, r - 1), Factorial(r - 1), Factorial(n - r));
    }
  }

  lemma FactorialProduct(n: nat, r: nat, x: nat, y: nat, f: nat, g: nat)
    requires r * x == n * y
    ensures x * (r * f) * g == n * (y * f * g)
  {
    calc {
      x * (r * f) * g;
      (r * x) * f * g;
      (n * y) * f * g;
      n * (y * f * g);
    }
  }

  lemma ExactStep(x: nat, i: nat, a: nat, b: nat)
    requires 1 <= i && i * b == x * a
    ensures (a as real * x as real) / (i as real) == b as real
  {
    assert a as real * x as real == b as real * i as real by {
      assert (a * x) as real == (b * i) as real;
    }
  }

  /** nCr in exact arithmetic: multiply by n-r+i, then divide by i. */
  method NCr(n: nat, r: nat) returns (answer: real)
    ensures answer == Coefficient(n, r) == if r <= n then Choose(n, r) as real else 1.0
  {
    var k: int := r;
    if k > n - k {
      k := n - k;
    }
    answer := 1.0;
    hide Choose;
    assert Choose(if k < 0 then 0 else n - k, 0) == 1 by { ChooseNone(if k < 0 then 0 else n - k); }
    var i := 1;
    while i <= k
      invariant 1 <= i && (k < 0 || i <= k + 1)
      invariant k < 0 ==> answer == 1.0
      invariant 0 <= k ==> answer == Choose(n - k + i - 1, i - 1) as real
    {
      Absorption(n - k + i, i);
      ExactStep(n - k + i, i, Choose(n - k + i - 1, i - 1), Choose(n - k + i, i));
      answer := answer * ((n - k + i) as real);
      answer := answer / (i as real);
      i := i + 1;
    }
    if r <= n {
      Symmetry(n, r);
    }
  }

  /** Beyond n the loop runs zero times and the coefficient is 1, not 0. */
  function Coefficient(n: nat, r: nat): real {
    if r <= n then Choose(n, r) as real else 1.0
  }

  // ------------------------------------------------ the binomial distribution

  function Pow(x: real, n: nat): real { if n == 0 then 1.0 else x * Pow(x, n - 1) }

  /** pow with an integer exponent of either sign. */
  function PowInt(x: real, e: int): real
    requires 0.0 < x
  {
    PowPositive(x, if 0 <= e then e else -e);
    if 0 <= e then Pow(x, e) else 1.0 / Pow(x, -e)
  }

  lemma {:induction false} PowPositive(x: real, n: nat)
    requires 0.0 < x
    ensures 0.0 < Pow(x, n)
  {
    if n != 0 {
      PowPositive(x, n - 1);
    }
  }

  function Binary(k: nat, n: nat, p: real): real
    requires 0.0 < p < 1.0
  {
    Coefficient(n, k) * Pow(p, k) * PowInt(1.0 - p, n - k)
  }

  method BinaryDistribution(k: nat, n: nat, p: real) returns (b: real)
    requires 0.0 < p < 1.0
    ensures b == Binary(k, n, p)
  {
    var c := NCr(n, k);
    b := c * Pow(p, k) * PowInt(1.0 - p, n - k);
  }

  lemma BinaryPositive(k: nat, n: nat, p: real)
    requires 0.0 < p < 1.0
    ensures 0.0 < Binary(k, n, p)
  {
    PowPositive(p, k);
    PowPositive(1.0 - p, if k <= n then n - k else k - n);
    if k <= n { ChoosePositive(n, k); }
    var a, b, d := Coefficient(n, k), Pow(p, k), PowInt(1.0 - p, n - k);
    assert 0.0 < d by {
      if n < k { Reciprocal(Pow(1.0 - p, k - n)); }
    }
    assert 0.0 < a * b;
    assert 0.0 < (a * b) * d;
  }

  lemma Reciprocal(x: real)
    requires 0.0 < x
    ensures 0.0 < 1.0 / x
  {
  }

  /** The chances of k = 0, ..., j, added up. */
  function Cdf(j: nat, w: nat, p: real): real
    requires 0.0 < p < 1.0
  {
    if j == 0 then Binary(0, w, p) else Cdf(j - 1, w, p) + Binary(j, w, p)
  }

  /** algorand_sum from 0. */
  method AlgorandSum(end: nat, w: nat, p: real) returns (sum: real)
    requires 0.0 < p < 1.0
    ensures sum == Cdf(end, w, p)
  {
    sum := 0.0;
    var i := 0;
    while i <= end
      invariant 0 <= i <= end + 1
      invariant sum == if i == 0 then 0.0 else Cdf(i - 1, w, p)
    {
      var b := BinaryDistribution(i, w, p);
      sum := sum + b;
      i := i + 1;
    }
  }

  lemma {:induction false} CdfGrows(i: nat, j: nat, w: nat, p: real)
    requires 0.0 < p < 1.0 && i <= j
    ensures Cdf(i, w, p) <= Cdf(j, w, p)
    ensures i < j ==> Cdf(i, w, p) < Cdf(j, w, p)
  {
    if i < j {
      CdfGrows(i, j - 1, w, p);
      BinaryPositive(j, w, p);
    }
  }

  // ------------------------------------------------ the binomial theorem

  function Term(n: nat, k: nat, p: real): real {
    if k <= n then Choose(n, k) as real * Pow(p, k) * Pow(1.0 - p, n - k) else 0.0
  }

  function TermSum(n: nat, j: nat, p: real): real {
    if j == 0 then Term(n, 0, p) else TermSum(n, j - 1, p) + Term(n, j, p)
  }

  lemma TermStep(n: nat, k: nat, p: real)
    ensures Term(n + 1, k, p) == (1.0 - p) * Term(n, k, p) + if k == 0 then 0.0 else p * Term(n, k - 1, p)
  {
    var q := 1.0 - p;
    if k == 0 {
      assert Pow(q, n + 1) == q * Pow(q, n);
    } else if k <= n {
      var a, b := Choose(n, k - 1) as real, Choose(n, k) as real;
      var x, y := Pow(p, k - 1), Pow(q, n - k);
      Distribute(a, b, Choose(n + 1, k) as real, p, q, x, y, Pow(p, k), Pow(q, n - k + 1));
    } else if k == n + 1 {
      ChooseAll(n + 1);
      ChooseAll(n);
      assert Pow(p, n + 1) == p * Pow(p, n);
    }
  }

  lemma Distribute(a: real, b: real, s: real, p: real, q: real, x: real, y: real, px: real, qy: real)
    requires s == a + b && px == p * x && qy == q * y
    ensures s * px * qy == q * (b * px * y) + p * (a * x * qy)
  {
    Commute(q, b * px, y);
    Commute3(p, a, x, qy);
    assert s * px * qy == (a * px + b * px) * qy;
    assert (a * px + b * px) * qy == a * px * qy + b * px * qy;
  }

  lemma Commute(q: real, b: real, y: real)
    ensures q * (b * y) == b * (q * y)
  {
  }

  lemma Commute3(p: real, a: real, x: real, z: real)
    ensures p * (a * x * z) == a * (p * x) * z
  {
  }

  lemma {:induction false} TermSumStep(n: nat, j: nat, p: real)
    ensures TermSum(n + 1, j, p) == (1.0 - p) * TermSum(n, j, p) + if j == 0 then 0.0 else p * TermSum(n, j - 1, p)
  {
    hide Term;
    TermStep(n, j, p);
    var q := 1.0 - p;
    if j == 1 {
      TermSumStep(n, 0, p);
      assert TermSum(n, 0, p) == Term(n, 0, p);
      Regroup(q, TermSum(n, 0, p), Term(n, 1, p), TermSum(n, 1, p));
    } else if 1 < j {
      TermSumStep(n, j - 1, p);
      Regroup(q, TermSum(n, j - 1, p), Term(n, j, p), TermSum(n, j, p));
      Regroup(p, TermSum(n, j - 2, p), Term(n, j - 1, p), TermSum(n, j - 1, p));
      assert TermSum(n + 1, j, p) == TermSum(n + 1, j - 1, p) + Term(n + 1, j, p);
    }
  }

  lemma Regroup(q: real, a: real, b: real, s: real)
    requires s == a + b
    ensures q * s == q * a + q * b
  {
  }

  /** The chances add up to 1. */
  lemma {:induction false} BinomialTheorem(n: nat, p: real)
    ensures TermSum(n, n, p) == 1.0
  {
    if 0 < n {
      BinomialTheorem(n - 1, p);
      TermSumStep(n - 1, n, p);
      assert TermSum(n - 1, n, p) == TermSum(n - 1, n - 1, p) + Term(n - 1, n, p);
    }
  }

  lemma {:induction false} CdfIsTermSum(j: nat, w: nat, p: real)
    requires 0.0 < p < 1.0 && j <= w
    ensures Cdf(j, w, p) == TermSum(w, j, p)
  {
    if 0 < j {
      CdfIsTermSum(j - 1, w, p);
    }
  }

  lemma CdfEndsAtOne(w: nat, p: real)
    requires 0.0 < p < 1.0
    ensures Cdf(w, w, p) == 1.0
  {
    CdfIsTermSum(w, w, p);
    BinomialTheorem(w, p);
  }

  // ------------------------------------------------ the search

  /** The exit test of the search loop. */
  predicate Stops(h: real, j: nat, w: nat, p: real)
    requires 0.0 < p < 1.0
  {
    Cdf(j, w, p) <= h < Cdf(j + 1, w, p)
  }

  lemma StopsOnce(h: real, i: nat, j: nat, w: nat, p: real)
    requires 0.0 < p < 1.0 && Stops(h, i, w, p) && Stops(h, j, w, p)
    ensures i == j
  {
    if i < j { CdfGrows(i + 1, j, w, p); }
    if j < i { CdfGrows(j + 1, i, w, p); }
  }

  lemma StopsBelowWeight(h: real, j: nat, w: nat, p: real)
    requires 0.0 < p < 1.0 && h < 1.0 && Cdf(j, w, p) <= h
    ensures j < w
  {
    CdfEndsAtOne(w, p);
    if w <= j { CdfGrows(w, j, w, p); }
  }

  /** Hangs: no j meets the exit test, and the loop runs for ever. */
  datatype Outcome = Found(j: nat) | Hangs

  /** The search loop of sortition and verify.  Its first sum tells whether it ever
      ends; from then on w - j counts down. */
  method Search(h: real, w: nat, p: real) returns (r: Outcome)
    requires 0.0 < p < 1.0 && 0.0 <= h < 1.0
    ensures r.Found? <==> Binary(0, w, p) <= h
    ensures r.Found? ==> r.j < w && Stops(h, r.j, w, p)
    ensures r.Hangs? ==> forall j: nat :: !Stops(h, j, w, p)
  {
    var j := 0;
    var lo := AlgorandSum(0, w, p);
    if h < lo {
      forall i: nat ensures !Stops(h, i, w, p) {
        CdfGrows(0, i, w, p);
      }
      return Hangs;
    }
    StopsBelowWeight(h, 0, w, p);
    var hi := AlgorandSum(1, w, p);
    while h < lo || h >= hi
      invariant j < w && lo == Cdf(j, w, p) && hi == Cdf(j + 1, w, p) && lo <= h
      decreases w - j
    {
      StopsBelowWeight(h, j + 1, w, p);
      j := j + 1;
      lo := AlgorandSum(j, w, p);
      hi := AlgorandSum(j + 1, w, p);
    }
    return Found(j);
  }

  lemma {:induction false} Descend(h: real, j: nat, w: nat, p: real) returns (i: nat)
    requires 0.0 < p < 1.0 && Binary(0, w, p) <= h < Cdf(j, w, p)
    ensures i < j && Stops(h, i, w, p)
  {
    if Cdf(j - 1, w, p) <= h {
      i := j - 1;
    } else {
      i := Descend(h, j - 1, w, p);
    }
  }

  /** The search ends exactly when the hash is not below the chance of no vote at all,
      and then at one j only, below the weight. */
  lemma SearchEnds(h: real, w: nat, p: real)
    requires 0.0 < p < 1.0 && 0.0 <= h < 1.0
    ensures (exists j: nat :: Stops(h, j, w, p)) <==> Binary(0, w, p) <= h
    ensures forall i: nat, j: nat :: Stops(h, i, w, p) && Stops(h, j, w, p) ==> i == j && i < w
  {
    if Binary(0, w, p) <= h {
      CdfEndsAtOne(w, p);
      var i := Descend(h, w, w, p);
    }
    forall j: nat | Stops(h, j, w, p)
      ensures Binary(0, w, p) <= h && j < w
    {
      CdfGrows(0, j, w, p);
      StopsBelowWeight(h, j, w, p);
    }
    forall i: nat, j: nat | Stops(h, i, w, p) && Stops(h, j, w, p)
      ensures i == j
    {
      StopsOnce(h, i, j, w, p);
    }
  }

  /** A hash yields j votes exactly when it lies in an interval as wide as the chance
      of drawing j+1; the w intervals fill [chance of drawing none, 1). */
  lemma IntervalWidths(j: nat, w: nat, p: real, h: real)
    requires 0.0 < p < 1.0 && j < w
    ensures Cdf(0, w, p) == Pow(1.0 - p, w) && Cdf(w, w, p) == 1.0
    ensures Stops(h, j, w, p) <==> 0.0 <= h - Cdf(j, w, p) < Term(w, j + 1, p)
    ensures Stops(h, j, w, p) ==> Pow(1.0 - p, w) <= h < 1.0
  {
    hide Term, Binary, TermSum;
    CdfEndsAtOne(w, p);
    CdfGrows(j + 1, w, w, p);
    CdfGrows(0, j, w, p);
    CdfIsTermSum(j + 1, w, p);
    CdfIsTermSum(j, w, p);
    NoDraw(w, p);
    TermSumLast(w, j + 1, p);
  }

  lemma NoDraw(w: nat, p: real)
    requires 0.0 < p < 1.0
    ensures Cdf(0, w, p) == Pow(1.0 - p, w)
  {
  }

  lemma TermSumLast(n: nat, j: nat, p: real)
    requires 0 < j
    ensures TermSum(n, j, p) == TermSum(n, j - 1, p) + Term(n, j, p)
  {
  }
}
