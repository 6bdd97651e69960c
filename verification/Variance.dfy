/** The rating variance after a number of rated contests (judge/ratings.py, constants and `get_var`),
    its limit, and how fast the displayed rating approaches the mean. */
module Variance {
  import opened RealFacts

  const BETA2: real := 328.33 * 328.33
  const MEAN_INIT: real := 1500.0
  const VAR_INIT: real := 350.0 * 350.0 * (BETA2 / (212.0 * 212.0))
  const SD_INIT: real := 350.0 * (328.33 / 212.0)
  const RANGE_LO: real := MEAN_INIT - 20.0 * SD_INIT
  const RANGE_HI: real := MEAN_INIT + 20.0 * SD_INIT
  const VAR_PER_CONTEST: real := 1219.047619 * (BETA2 / (212.0 * 212.0))

  /** The square root the source takes, known only by what it is. */
  ghost predicate IsSqrt(sqrt: real -> real) {
    forall x :: x >= 0.0 ==> sqrt(x) >= 0.0 && sqrt(x) * sqrt(x) == x
  }

  lemma SqrtPos(sqrt: real -> real, x: real)
    requires IsSqrt(sqrt) && x > 0.0
    ensures sqrt(x) > 0.0
  {
    assert sqrt(x) * sqrt(x) == x;
  }

  lemma SqrtStrict(sqrt: real -> real, x: real, y: real)
    requires IsSqrt(sqrt) && 0.0 <= x < y
    ensures sqrt(x) < sqrt(y)
  {
    if sqrt(y) <= sqrt(x) {
      SquareLe(sqrt(y), sqrt(x));
    }
  }

  /** The starting deviation really is the root of the starting variance. */
  lemma InitialDeviation(sqrt: real -> real)
    requires IsSqrt(sqrt)
    ensures sqrt(VAR_INIT) == SD_INIT
    ensures VAR_PER_CONTEST == 1219.047619 / (350.0 * 350.0) * VAR_INIT
    ensures RANGE_LO == 1500.0 - 20.0 * sqrt(VAR_INIT) && RANGE_HI == 1500.0 + 20.0 * sqrt(VAR_INIT)
  {
    assert SD_INIT * SD_INIT == VAR_INIT;
    var s := sqrt(VAR_INIT);
    assert s * s == VAR_INIT;
    if s < SD_INIT { SquareStrict(s, SD_INIT); }
    if s > SD_INIT { SquareStrict(SD_INIT, s); }
  }

  // ---- the recurrence ----

  function NextVar(v: real): real
    requires v > 0.0
  {
    1.0 / (1.0 / (v + VAR_PER_CONTEST) + 1.0 / BETA2)
  }

  lemma NextVarPos(v: real)
    requires v > 0.0
    ensures NextVar(v) > 0.0
  {
    DivPos(1.0, v + VAR_PER_CONTEST);
    DivPos(1.0, BETA2);
    DivPos(1.0, 1.0 / (v + VAR_PER_CONTEST) + 1.0 / BETA2);
  }

  function Var(t: nat): (v: real)
    ensures v > 0.0
  {
    if t == 0 then VAR_INIT
    else
      NextVarPos(Var(t - 1));
      NextVar(Var(t - 1))
  }

  class VarCache {
    var cache: seq<real>

    ghost predicate Valid()
      reads this
    {
      |cache| >= 1 && forall k :: 0 <= k < |cache| ==> cache[k] == Var(k)
    }

    constructor ()
      ensures Valid() && cache == [VAR_INIT]
    {
      cache := [VAR_INIT];
    }

    method GetVar(timesRanked: nat) returns (v: real)
      requires Valid()
      modifies this
      ensures Valid()
      ensures v == Var(timesRanked)
      ensures old(cache) <= cache && |cache| == if timesRanked < |old(cache)| then |old(cache)| else timesRanked + 1
    {
      while timesRanked >= |cache|
        invariant Valid()
        invariant old(cache) <= cache
        invariant |cache| == |old(cache)| || |cache| <= timesRanked + 1
        decreases timesRanked - |cache|
      {
        var nextVar := NextVar(cache[|cache| - 1]);
        cache := cache + [nextVar];
      }
      v := cache[timesRanked];
    }
  }

  // ---- the limit ----

  function VarLim(sqrt: real -> real): real {
    (sqrt(VAR_PER_CONTEST * VAR_PER_CONTEST + 4.0 * BETA2 * VAR_PER_CONTEST) - VAR_PER_CONTEST) / 2.0
  }

  /** What VAR_LIM is: a positive solution of v^2 + V v = V beta^2. */
  ghost predicate IsLimit(l: real) {
    l > 0.0 && l * l + VAR_PER_CONTEST * l == VAR_PER_CONTEST * BETA2
  }

  lemma VarLimIsLimit(sqrt: real -> real)
    requires IsSqrt(sqrt)
    ensures IsLimit(VarLim(sqrt))
  {
    QuadraticRoot(VAR_PER_CONTEST, BETA2, sqrt(VAR_PER_CONTEST * VAR_PER_CONTEST + 4.0 * BETA2 * VAR_PER_CONTEST));
  }

  lemma QuadraticRoot(v: real, b: real, s: real)
    requires v > 0.0 && b > 0.0 && s >= 0.0
    requires s * s == v * v + 4.0 * b * v
    ensures (s - v) / 2.0 > 0.0
    ensures ((s - v) / 2.0) * ((s - v) / 2.0) + v * ((s - v) / 2.0) == v * b
  {
    MulPos(b, v);
    if s <= v { SquareLe(s, v); }
    var l := (s - v) / 2.0;
    assert s == 2.0 * l + v;
    assert s * s == 4.0 * (l * l) + 4.0 * (v * l) + v * v;
  }

  lemma SquareLe(a: real, b: real)
    requires 0.0 <= a <= b
    ensures a * a <= b * b
  {
    if a < b { SquareStrict(a, b); }
  }

  /** One contest in closed form. */
  lemma NextClosed(v: real)
    requires v > 0.0
    ensures NextVar(v) == BETA2 * (v + VAR_PER_CONTEST) / (v + VAR_PER_CONTEST + BETA2)
  {
    HarmonicSum(v + VAR_PER_CONTEST, BETA2);
  }

  lemma HarmonicSum(a: real, b: real)
    requires a > 0.0 && b > 0.0
    ensures 1.0 / a + 1.0 / b > 0.0
    ensures 1.0 / (1.0 / a + 1.0 / b) == b * a / (a + b)
  {
    var p, q := 1.0 / a, 1.0 / b;
    DivPos(1.0, a);
    DivPos(1.0, b);
    assert p * a == 1.0 && q * b == 1.0;
    MulPos(a, b);
    assert (p + q) * (a * b) == (p * a) * b + (q * b) * a == a + b;
    var r := 1.0 / (p + q);
    assert r * (p + q) == 1.0;
    assert r * (a + b) == r * ((p + q) * (a * b)) == (r * (p + q)) * (a * b) == a * b;
    assert (r * (a + b)) / (a + b) == r;
  }

  /** The factor (beta^2 / (V + beta^2))^2 by which one contest shrinks the distance to the limit. */
  const RATE: real := (BETA2 / (VAR_PER_CONTEST + BETA2)) * (BETA2 / (VAR_PER_CONTEST + BETA2))

  lemma {:induction false} NextGap(v: real, l: real) returns (k: real)
    requires v > 0.0 && IsLimit(l)
    ensures NextVar(v) - l == k * (v - l)
    ensures 0.0 < k <= RATE < 1.0
  {
    NextClosed(v);
    GapFormula(v, l, VAR_PER_CONTEST, BETA2);
    k := (BETA2 / (l + VAR_PER_CONTEST + BETA2)) * (BETA2 / (v + VAR_PER_CONTEST + BETA2));
    FactorBound(l, v, VAR_PER_CONTEST, BETA2);
  }

  lemma FactorBound(l: real, v: real, c: real, b: real)
    requires l > 0.0 && v > 0.0 && c > 0.0 && b > 0.0
    ensures 0.0 < (b / (l + c + b)) * (b / (v + c + b)) <= (b / (c + b)) * (b / (c + b))
  {
    DivPos(b, l + c + b);
    DivPos(b, v + c + b);
    DivPos(b, c + b);
    DivAnti(b, c + b, l + c + b);
    DivAnti(b, c + b, v + c + b);
    var p, q, m := b / (l + c + b), b / (v + c + b), b / (c + b);
    MulPos(p, q);
    MulMono(p, q, m);
    MulMono(m, p, m);
    assert p * m == m * p;
  }

  lemma GapFormula(v: real, l: real, c: real, b: real)
    requires v > 0.0 && l > 0.0 && c > 0.0 && b > 0.0
    requires l * l + c * l == c * b
    ensures b * (v + c) / (v + c + b) - l == (b / (l + c + b)) * (b / (v + c + b)) * (v - l)
  {
    var d, e := v + c + b, l + c + b;
    var r := b * (v + c) / d;
    assert r * d == b * (v + c);
    assert (r - l) * d == (b - l) * (v - l) by {
      assert (r - l) * d == b * v + b * c - l * v - l * c - l * b;
      assert (b - l) * (v - l) == b * v - b * l - l * v + l * l;
    }
    assert (b - l) * e == b * b by {
      assert (b - l) * e == b * l + b * c + b * b - l * l - l * c - l * b;
    }
    var p, q := b / e, b / d;
    assert p * e == b && q * d == b;
    GapQuotient(r - l, d, e, b, v - l, b - l, p, q);
  }

  lemma GapQuotient(x: real, d: real, e: real, b: real, w: real, m: real, p: real, q: real)
    requires d > 0.0 && e > 0.0
    requires x * d == m * w && m * e == b * b && p * e == b && q * d == b
    ensures x == p * q * w
  {
    assert m == p * b by {
      assert (m - p * b) * e == 0.0;
    }
    assert x * d == p * b * w == p * (q * d) * w == (p * q * w) * d;
    assert (x - p * q * w) * d == 0.0;
  }

  lemma LimitBelowInit(l: real)
    requires IsLimit(l)
    ensures l < BETA2 < VAR_INIT
  {
    if l >= BETA2 {
      MulMono(VAR_PER_CONTEST, BETA2, l);
      MulPos(l, l);
    }
  }

  lemma NextAbove(v: real, l: real)
    requires IsLimit(l) && v > l
    ensures NextVar(v) > l
  {
    hide NextVar;
    var k := NextGap(v, l);
    MulPos(k, v - l);
  }

  lemma {:induction false} VarAboveLimit(t: nat, l: real)
    requires IsLimit(l)
    ensures Var(t) > l
  {
    hide IsLimit, NextVar;
    LimitBelowInit(l);
    if t > 0 {
      VarAboveLimit(t - 1, l);
      NextAbove(Var(t - 1), l);
    }
  }

  lemma NextBelow(v: real, l: real)
    requires IsLimit(l) && v > l
    ensures NextVar(v) < v
  {
    hide NextVar;
    var k := NextGap(v, l);
    var g := v - l;
    MulStrict(g, k, 1.0);
    assert k * g == g * k;
  }

  lemma {:induction false} VarDecreasing(s: nat, t: nat, l: real)
    requires s < t && IsLimit(l)
    ensures l < Var(t) < Var(s)
    decreases t
  {
    hide IsLimit, NextVar;
    VarAboveLimit(t - 1, l);
    VarAboveLimit(t, l);
    NextBelow(Var(t - 1), l);
    if s < t - 1 { VarDecreasing(s, t - 1, l); }
  }

  lemma {:induction false} VarGeometric(t: nat, l: real)
    requires IsLimit(l)
    ensures 0.0 < Var(t) - l <= Pow(RATE, t) * (VAR_INIT - l)
  {
    hide IsLimit, NextVar;
    VarAboveLimit(t, l);
    if t > 0 {
      VarGeometric(t - 1, l);
      var k := NextGap(Var(t - 1), l);
      var g, h := Var(t - 1) - l, Pow(RATE, t - 1) * (VAR_INIT - l);
      ScaleChain(k, RATE, g, h);
      Regroup(RATE, Pow(RATE, t - 1), VAR_INIT - l);
    }
  }

  /** VAR_LIM as the source computes it is the limit: the variance strictly decreases, never reaches it,
      and its distance shrinks at least by the factor RATE per contest. */
  lemma VarianceLimit(sqrt: real -> real, s: nat, t: nat)
    requires IsSqrt(sqrt) && s < t
    ensures VarLim(sqrt) < Var(t) < Var(s)
    ensures Var(t) - VarLim(sqrt) <= Pow(RATE, t) * (VAR_INIT - VarLim(sqrt))
  {
    hide Var, Pow, VarLim, IsLimit, IsSqrt;
    VarLimIsLimit(sqrt);
    VarDecreasing(s, t, VarLim(sqrt));
    VarGeometric(t, VarLim(sqrt));
  }

  lemma ScaleChain(k: real, q: real, g: real, h: real)
    requires 0.0 < k <= q && 0.0 < g <= h
    ensures k * g <= q * h
  {
    MulMono(g, k, q);
    MulMono(q, g, h);
    assert g * k == k * g && g * q == q * g;
  }

  lemma Regroup(a: real, b: real, c: real)
    ensures a * (b * c) == (a * b) * c
  {}

  /** Bernoulli's inequality for a rate q = 1 / (1 + c). */
  lemma {:induction false} PowBound(q: real, c: real, t: nat)
    requires q > 0.0 && c > 0.0 && q * (1.0 + c) == 1.0
    ensures 0.0 < Pow(q, t)
    ensures Pow(q, t) * (1.0 + c * t as real) <= 1.0
  {
    if t > 0 {
      PowBound(q, c, t - 1);
      var p, n := Pow(q, t - 1), (t - 1) as real;
      MulPos(q, p);
      BernoulliStep(q, c, p, n);
      assert t as real == n + 1.0;
    }
  }

  lemma BernoulliStep(q: real, c: real, p: real, n: real)
    requires q > 0.0 && c > 0.0 && p > 0.0 && n >= 0.0
    requires q * (1.0 + c) == 1.0 && p * (1.0 + c * n) <= 1.0
    ensures (q * p) * (1.0 + c * (n + 1.0)) <= 1.0
  {
    MulNonNeg(c, n);
    MulNonNeg(c, c * n);
    assert (1.0 + c) * (1.0 + c * n) == 1.0 + c * (n + 1.0) + c * (c * n);
    MulMono(q, 1.0 + c * (n + 1.0), (1.0 + c) * (1.0 + c * n));
    assert q * ((1.0 + c) * (1.0 + c * n)) == (q * (1.0 + c)) * (1.0 + c * n);
    MulMono(p, q * (1.0 + c * (n + 1.0)), 1.0 + c * n);
    assert (q * p) * (1.0 + c * (n + 1.0)) == p * (q * (1.0 + c * (n + 1.0)));
  }

  lemma RootGap(sqrt: real -> real, x: real, l: real)
    requires IsSqrt(sqrt) && 0.0 < l < x
    ensures 0.0 < sqrt(x) - sqrt(l) <= (x - l) / sqrt(l)
  {
    SqrtPos(sqrt, l);
    SqrtStrict(sqrt, l, x);
    var a, b := sqrt(x), sqrt(l);
    assert a * a == x && b * b == l;
    assert (a - b) * (a + b) == x - l;
    MulMono(a - b, b, a + b);
    DivBound(x - l, b, a - b);
  }

  lemma DeviationAt(sqrt: real -> real, l: real, c: real, eps: real, t: nat)
    requires IsSqrt(sqrt) && IsLimit(l) && c > 0.0 && eps > 0.0
    requires RATE * (1.0 + c) == 1.0
    requires sqrt(l) > 0.0 && eps * c > 0.0
    requires (VAR_INIT - l) / sqrt(l) > 0.0
    requires t as real >= (VAR_INIT - l) / sqrt(l) / (eps * c)
    ensures 0.0 < sqrt(Var(t)) - sqrt(l) <= eps
  {
    hide Var, Pow, IsSqrt, IsLimit;
    VarGeometric(t, l);
    var v, p, d := Var(t), Pow(RATE, t), VAR_INIT - l;
    LimitPositive(l);
    RootGap(sqrt, v, l);
    PowBound(RATE, c, t);
    DivMono(v - l, p * d, sqrt(l));
    DivAssoc(p, d, sqrt(l));
    SmallEnough(d / sqrt(l), eps, c, t as real, p);
  }

  lemma LimitPositive(l: real)
    requires IsLimit(l)
    ensures l > 0.0
  {}

  lemma DivAssoc(a: real, b: real, d: real)
    requires d > 0.0
    ensures (a * b) / d == a * (b / d)
  {}

  /** The amount by which the shown rating is lowered is positive, and falls below every bound for experienced users. */
  lemma DeviationVanishes(sqrt: real -> real, eps: real) returns (n: nat)
    requires IsSqrt(sqrt) && eps > 0.0
    ensures forall t: nat :: t >= n ==> 0.0 < sqrt(Var(t)) - sqrt(VarLim(sqrt)) <= eps
  {
    hide Var, VarLim, IsLimit, IsSqrt;
    var l := VarLim(sqrt);
    VarLimIsLimit(sqrt);
    LimitBelowInit(l);
    SqrtPos(sqrt, l);
    var c := 1.0 / RATE - 1.0;
    assert RATE * (1.0 + c) == 1.0;
    MulPos(eps, c);
    DivPos(VAR_INIT - l, sqrt(l));
    var k := (VAR_INIT - l) / sqrt(l);
    DivPos(k, eps * c);
    n := (k / (eps * c)).Floor + 1;
    forall t: nat | t >= n ensures 0.0 < sqrt(Var(t)) - sqrt(l) <= eps {
      DeviationAt(sqrt, l, c, eps, t);
    }
  }

  lemma SmallEnough(k: real, eps: real, c: real, t: real, p: real)
    requires k > 0.0 && eps > 0.0 && c > 0.0 && p > 0.0
    requires eps * c > 0.0 && k / (eps * c) <= t
    requires p * (1.0 + c * t) <= 1.0
    ensures p * k <= eps
  {
    DivBound(k, eps * c, t);
    assert t * (eps * c) == eps * (c * t);
    MulMono(p, k, eps * (c * t));
    assert p * (eps * (c * t)) == eps * (p * (c * t));
    MulMono(eps, p * (c * t), 1.0);
  }
}
