/** The history-weighted mean update (judge/ratings.py, the second half of `recalculate_ratings`). */
module Mean {
  import opened RealFacts
  import opened Solver
  import opened Variance
  import opened MeanEquation

  /** The transcendental parts of the source: `tanh`, `sqrt` and `pi`, with the facts assumed of them. */
  datatype RawAnalysis = Analysis(tanh: real -> real, sqrt: real -> real, pi: real) {
    ghost predicate Sound() {
      IsTanh(tanh) && IsSqrt(sqrt) && pi > 0.0
    }

    function TanhC(): real
      requires pi > 0.0
    {
      sqrt(3.0) / pi
    }
  }

  /** gamma^2 for the j-th most recent performance. */
  function Drift(j: nat): real {
    if j > 0 then VAR_PER_CONTEST else 0.0
  }

  function Shrink(total: nat, j: nat): real
    requires j <= total
  {
    Var(total - j) / (Var(total - j) + Drift(j))
  }

  /** The weight of the j-th most recent performance after `total` contests. */
  function Weight(total: nat, j: nat): real
    requires j <= total
  {
    (if j == 0 then 1.0 else Weight(total, j - 1)) * (Shrink(total, j) * Shrink(total, j))
  }

  function WeightSum(total: nat, m: nat): real
    requires m <= total + 1
  {
    if m == 0 then 0.0 else WeightSum(total, m - 1) + Weight(total, m - 1) / BETA2
  }

  /** The weight left for the prior. */
  function PriorWeight(total: nat, m: nat): real
    requires m <= total + 1
  {
    1.0 / Var(total) - WeightSum(total, m)
  }

  lemma ShrinkBounds(total: nat, j: nat)
    requires j <= total
    ensures 0.0 < Shrink(total, j) <= 1.0
    ensures j == 0 ==> Shrink(total, j) == 1.0
  {
    hide Var;
    var v := Var(total - j);
    DivPos(v, v + Drift(j));
    DivAnti(v, v, v + Drift(j));
    assert v / v == 1.0;
  }

  lemma {:induction false} WeightPos(total: nat, j: nat)
    requires j <= total
    ensures Weight(total, j) > 0.0
  {
    ShrinkBounds(total, j);
    if j > 0 { WeightPos(total, j - 1); }
    var k := Shrink(total, j);
    MulPos(k, k);
    MulPos(if j == 0 then 1.0 else Weight(total, j - 1), k * k);
  }

  /** The recurrence in terms of precisions. */
  lemma PrecisionStep(t: nat)
    requires t >= 1
    ensures Var(0) == VAR_INIT
    ensures 1.0 / Var(t) == 1.0 / (Var(t - 1) + VAR_PER_CONTEST) + 1.0 / BETA2
  {
    var s := 1.0 / (Var(t - 1) + VAR_PER_CONTEST) + 1.0 / BETA2;
    DivPos(1.0, Var(t - 1) + VAR_PER_CONTEST);
    DivPos(1.0, BETA2);
    assert Var(t) == 1.0 / s;
    assert 1.0 / (1.0 / s) == s;
  }

  /** The precision of the new variance exceeds the weights summed so far, with room for the rest of the history. */
  lemma {:induction false} PrecisionLeft(total: nat, m: nat)
    requires 1 <= m <= total
    ensures PriorWeight(total, m) >= Weight(total, m - 1) / (Var(total - m) + VAR_PER_CONTEST) > 0.0
  {
    hide Var;
    WeightPos(total, m - 1);
    DivPos(Weight(total, m - 1), Var(total - m) + VAR_PER_CONTEST);
    if m == 1 {
      PrecisionStep(total);
      ShrinkBounds(total, 0);
      assert Weight(total, 0) == 1.0;
      assert WeightSum(total, 1) == 1.0 / BETA2;
    } else {
      PrecisionLeft(total, m - 1);
      PrecisionStep(total - m + 1);
      ShrinkBounds(total, m - 1);
      WeightPos(total, m - 2);
      assert Shrink(total, m - 1) == Var(total - m + 1) / (Var(total - m + 1) + VAR_PER_CONTEST);
      PrecisionAlgebra(Weight(total, m - 2), Var(total - m + 1), VAR_PER_CONTEST, BETA2,
                       Var(total - m) + VAR_PER_CONTEST, PriorWeight(total, m - 1), Shrink(total, m - 1));
    }
  }

  lemma PrecisionAlgebra(w: real, v: real, c: real, b: real, u: real, left: real, k: real)
    requires w > 0.0 && v > 0.0 && c > 0.0 && b > 0.0 && u > 0.0
    requires 1.0 / v == 1.0 / u + 1.0 / b
    requires k == v / (v + c) && 0.0 < k <= 1.0
    requires left >= w / (v + c)
    ensures left - w * (k * k) / b >= w * (k * k) / u
  {
    var w1, q := w * (k * k), 1.0 / (v + c);
    DivIsMul(w, v + c);
    DivIsMul(v, v + c);
    DivIsMul(w1, u);
    DivIsMul(w1, b);
    Distribute(w1, 1.0 / u, 1.0 / b);
    Cancel(w, k, v, 1.0 / v, q);
    DivPos(1.0, v + c);
    MulMono(w * q, k, 1.0);
  }

  lemma Distribute(a: real, b: real, c: real)
    ensures a * (b + c) == a * b + a * c
  {}

  lemma Cancel(w: real, k: real, v: real, x: real, q: real)
    requires k == v * q && v * x == 1.0
    ensures (w * (k * k)) * x == (w * q) * k
  {
    assert k * x == q by {
      assert k * x == q * (v * x);
    }
    assert (w * (k * k)) * x == (w * k) * (k * x);
    assert (w * k) * q == (w * q) * k;
  }

  /** With no more past performances than rated contests, the division by w0 is safe. */
  lemma PriorWeightPositive(timesRanked: nat, pastPerformances: nat)
    requires pastPerformances <= timesRanked
    ensures PriorWeight(timesRanked + 1, pastPerformances + 1) > 0.0
  {
    PrecisionLeft(timesRanked + 1, pastPerformances + 1);
  }

  // ---- the equation for the new mean ----

  function MeanTerm(an: RawAnalysis, total: nat, j: nat, h: real): Term
    requires an.Sound() && j <= total
  {
    WeightPos(total, j);
    SqrtPos(an.sqrt, BETA2);
    SqrtPos(an.sqrt, 3.0);
    DivPos(an.sqrt(3.0), an.pi);
    MulPos(an.sqrt(BETA2), an.TanhC());
    Tanh(h, an.sqrt(BETA2) * an.TanhC(), Weight(total, j))
  }

  /** hs is this contest's performance followed by the past ones, most recent first. */
  function MeanTerms(an: RawAnalysis, total: nat, hs: seq<real>): (terms: seq<Term>)
    requires an.Sound() && |hs| <= total + 1
    ensures |terms| == |hs|
  {
    seq(|hs|, j requires 0 <= j < |hs| => MeanTerm(an, total, j, hs[j]))
  }

  lemma MeanTermsStep(an: RawAnalysis, total: nat, hs: seq<real>, j: nat)
    requires an.Sound() && |hs| <= total + 1 && j < |hs|
    ensures MeanTerms(an, total, hs)[..j + 1] == MeanTerms(an, total, hs)[..j] + [MeanTerm(an, total, j, hs[j])]
  {}

  function NewMean(an: RawAnalysis, total: nat, hs: seq<real>, oldMean: real): real
    requires an.Sound() && 1 <= |hs| <= total
  {
    PrecisionLeft(total, |hs|);
    Solution(an.tanh, MeanTerms(an, total, hs), PriorWeight(total, |hs|), oldMean, RANGE_LO, RANGE_HI)
  }

  /** Whatever the history, the new mean lies between the old mean and this contest's performance,
      up to the solver's tolerance. */
  lemma NewMeanBetween(an: RawAnalysis, total: nat, hs: seq<real>, oldMean: real)
    requires an.Sound() && 1 <= |hs| <= total
    requires RANGE_LO <= hs[0] <= RANGE_HI
    ensures Min(oldMean, hs[0]) - TOLERANCE <= NewMean(an, total, hs, oldMean) <= Max(oldMean, hs[0]) + TOLERANCE
  {
    hide PriorWeight, Weight, Var, Solution;
    PrecisionLeft(total, |hs|);
    var terms := MeanTerms(an, total, hs);
    assert terms[0].mu == hs[0];
    SolutionBetween(an.tanh, terms, PriorWeight(total, |hs|), oldMean, RANGE_LO, RANGE_HI);
  }

  /** A better performance never gives a lower new mean: exactly, with no tolerance. */
  lemma NewMeanMonotone(an: RawAnalysis, total: nat, p: real, q: real, past: seq<real>, oldMean: real)
    requires an.Sound() && |past| + 1 <= total
    requires p <= q
    ensures NewMean(an, total, [p] + past, oldMean) <= NewMean(an, total, [q] + past, oldMean)
  {
    hide PriorWeight, Weight, Var, Solution;
    var a, b := MeanTerms(an, total, [p] + past), MeanTerms(an, total, [q] + past);
    PrecisionLeft(total, |past| + 1);
    assert a == [a[0]] + a[1..] && b == [b[0]] + b[1..] && a[1..] == b[1..];
    SolutionMonotone(an.tanh, a[0], b[0], a[1..], PriorWeight(total, |past| + 1), oldMean, RANGE_LO, RANGE_HI);
  }

  // ---- the loop over the history ----

  lemma WeightStep(total: nat, j: nat, wPrev: real, hVar: real, gamma2: real)
    requires j <= total && hVar == Var(total - j) && gamma2 == Drift(j)
    requires wPrev == if j == 0 then 1.0 else Weight(total, j - 1)
    ensures hVar + gamma2 > 0.0
    ensures Weight(total, j) == wPrev * ((hVar / (hVar + gamma2)) * (hVar / (hVar + gamma2)))
  {
    hide Var;
  }

  method ComputeMean(an: RawAnalysis, vars: VarCache, timesRanked: nat, perf: real, past: seq<real>, oldMean: real)
    returns (mean: real)
    requires an.Sound() && vars.Valid()
    requires |past| <= timesRanked
    modifies vars
    ensures vars.Valid()
    ensures mean == NewMean(an, timesRanked + 1, [perf] + past, oldMean)
  {
    hide Root, Weight, Shrink, Var, EvalTanhs, Solution;
    var hs := [perf] + past;
    ghost var total := timesRanked + 1;
    var terms: seq<Term> := [];
    var wPrev, wSum := 1.0, 0.0;
    for j := 0 to |hs|
      invariant vars.Valid()
      invariant terms == MeanTerms(an, total, hs)[..j]
      invariant wPrev == if j == 0 then 1.0 else Weight(total, j - 1)
      invariant wSum == WeightSum(total, j)
    {
      hide PriorWeight, MeanTerms;
      var gamma2 := if j > 0 then VAR_PER_CONTEST else 0.0;
      var hVar := vars.GetVar(timesRanked + 1 - j);
      WeightStep(total, j, wPrev, hVar, gamma2);
      var k := hVar / (hVar + gamma2);
      var w := wPrev * (k * k);
      MeanTermsStep(an, total, hs, j);
      ghost var t := MeanTerm(an, total, j, hs[j]);
      assert t.sd > 0.0 && t.wt > 0.0;
      assert t == Tanh(hs[j], an.sqrt(BETA2) * an.TanhC(), w);
      terms := terms + [Tanh(hs[j], an.sqrt(BETA2) * an.TanhC(), w)];
      wPrev := w;
      wSum := wSum + w / BETA2;
    }
    assert terms == MeanTerms(an, total, hs);
    PrecisionLeft(total, |hs|);
    var v := vars.GetVar(timesRanked + 1);
    var w0 := 1.0 / v - wSum;
    assert w0 == PriorWeight(total, |hs|);
    var p0 := EvalTanhs(an.tanh, terms[1..], oldMean) / w0 + oldMean;
    mean := Solve(an.tanh, terms, Scale(w0, p0), w0, RANGE_LO, RANGE_HI);
    SolutionIs(an.tanh, terms, w0, oldMean, RANGE_LO, RANGE_HI, p0);
  }

  lemma SolutionIs(tanh: real -> real, terms: seq<Term>, w0: real, oldMean: real, lo: real, hi: real, p0: real)
    requires terms != [] && w0 > 0.0
    requires p0 == EvalTanhs(tanh, terms[1..], oldMean) / w0 + oldMean
    ensures Root(Curve(tanh, terms, w0), Scale(w0, p0), lo, hi) == Solution(tanh, terms, w0, oldMean, lo, hi)
  {
    hide Root;
  }
}
