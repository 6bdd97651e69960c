/** What the rating update computes, written out over the players' records alone (judge/ratings.py,
    `recalculate_ratings`): the equation each performance solves, the equation each new mean solves, and the rating
    shown. */
module RatingEquations {
  import opened Prelude
  import opened RealFacts
  import opened Solver
  import opened Variance
  import opened MeanEquation
  import opened Mean
  import opened Performance
  import opened Ratings

  // ---- performances ----

  predicate AllPositive(d: seq<real>) {
    forall j :: 0 <= j < |d| ==> d[j] > 0.0
  }

  /** pi d = sqrt(3 (var + V + beta^2)), the scale of a player with t rated contests. */
  predicate IsScale(an: RawAnalysis, t: nat, d: real) {
    d > 0.0 && (an.pi * d) * (an.pi * d) == 3.0 * (Var(t) + VAR_PER_CONTEST + BETA2)
  }

  /** The first n opponents' shares of the left-hand side: the sum of tanh((x - m_j) / (2 d_j)) / d_j. */
  function Played(tanh: real -> real, m: seq<real>, d: seq<real>, n: nat, x: real): real
    requires n <= |m| == |d| && AllPositive(d)
  {
    if n == 0 then 0.0 else Played(tanh, m, d, n - 1, x) + tanh((x - m[n - 1]) / (2.0 * d[n - 1])) / d[n - 1]
  }

  function PlayedCurve(tanh: real -> real, m: seq<real>, d: seq<real>): real -> real
    requires |m| == |d| && AllPositive(d)
  {
    x => Played(tanh, m, d, |m|, x)
  }

  /** The right-hand side for rank r: 1 / d_j for everyone ranked behind, minus that for everyone ranked before. */
  function Beaten(ranking: seq<real>, d: seq<real>, r: real, n: nat): real
    requires n <= |ranking| == |d| && AllPositive(d)
  {
    if n == 0 then 0.0
    else Beaten(ranking, d, r, n - 1)
         + (if ranking[n - 1] > r then 1.0 / d[n - 1] else if ranking[n - 1] < r then -1.0 / d[n - 1] else 0.0)
  }

  lemma {:induction false} EvalSnoc(tanh: real -> real, terms: seq<Term>, t: Term, x: real)
    ensures EvalTanhs(tanh, terms + [t], x) == EvalTanhs(tanh, terms, x) + TermAt(tanh, t, x)
  {
    hide TermAt;
    if terms == [] {
      assert terms + [t] == [t];
      assert EvalTanhs(tanh, [t], x) == TermAt(tanh, t, x) + EvalTanhs(tanh, [], x);
    } else {
      assert (terms + [t])[1..] == terms[1..] + [t] && (terms + [t])[0] == terms[0];
      EvalSnoc(tanh, terms[1..], t, x);
    }
  }

  lemma TermIs(tanh: real -> real, t: Term, x: real)
    ensures TermAt(tanh, t, x) == t.wt * tanh((x - t.mu) / (2.0 * t.sd)) / t.sd
  {
    assert (t.wt / t.sd) * tanh((x - t.mu) / (2.0 * t.sd)) == t.wt * tanh((x - t.mu) / (2.0 * t.sd)) / t.sd;
  }

  lemma {:induction false} PlayedIs(tanh: real -> real, m: seq<real>, d: seq<real>, terms: seq<Term>, n: nat, x: real)
    requires n <= |m| == |d| == |terms| && AllPositive(d)
    requires forall j :: 0 <= j < |terms| ==> terms[j] == Tanh(m[j], d[j], 1.0)
    ensures Played(tanh, m, d, n, x) == EvalTanhs(tanh, terms[..n], x)
  {
    hide TermAt, EvalTanhs;
    if n == 0 {
      assert terms[..0] == [];
      NoTerms(tanh, x);
    } else {
      PlayedIs(tanh, m, d, terms, n - 1, x);
      assert terms[..n] == terms[..n - 1] + [terms[n - 1]];
      EvalSnoc(tanh, terms[..n - 1], terms[n - 1], x);
      TermIs(tanh, terms[n - 1], x);
    }
  }

  lemma NoTerms(tanh: real -> real, x: real)
    ensures EvalTanhs(tanh, [], x) == 0.0
  {}

  lemma {:induction false} BeatenIs(ranking: seq<real>, d: seq<real>, r: real, n: nat)
    requires n <= |ranking| == |d| && AllPositive(d)
    ensures Beaten(ranking, d, r, n) == Target(d, ranking, r, n)
  {
    if n > 0 {
      BeatenIs(ranking, d, r, n - 1);
      assert -1.0 / d[n - 1] == -(1.0 / d[n - 1]);
    }
  }

  lemma NearSame(f: real -> real, g: real -> real, y: real, lo: real, hi: real, x: real)
    requires forall z :: f(z) == g(z)
    requires Near(f, y, lo, hi, x)
    ensures Near(g, y, lo, hi, x)
  {}

  lemma ScaleOf(an: RawAnalysis, t: nat)
    requires an.Sound()
    ensures IsScale(an, t, Delta(an, t))
  {
    hide Var;
    SqrtProduct(an, 3.0, Var(t) + VAR_PER_CONTEST + BETA2);
    assert Delta(an, t) > 0.0;
  }

  /** pi (sqrt a / pi) sqrt b squares to a b. */
  lemma SqrtProduct(an: RawAnalysis, a: real, b: real)
    requires an.Sound() && a > 0.0 && b > 0.0
    ensures var d := an.sqrt(a) / an.pi * an.sqrt(b); (an.pi * d) * (an.pi * d) == a * b
  {
    var p, q := an.sqrt(a), an.sqrt(b);
    var d := p / an.pi * q;
    assert p * p == a && q * q == b;
    assert an.pi * d == p * q by {
      assert an.pi * (p / an.pi) == p;
      assert an.pi * (p / an.pi * q) == (an.pi * (p / an.pi)) * q;
    }
    assert (p * q) * (p * q) == (p * p) * (q * q);
  }

  /** Performance k is near the root of the sum over all players of tanh((x - old mean) / (2 d)) / d against 1 / d for
      everyone ranked behind k minus 1 / d for everyone ranked before. */
  lemma PerformanceEquation(an: RawAnalysis, ps: Players, k: nat) returns (d: seq<real>)
    requires an.Sound() && ps.Consistent() && k < |ps.ranking|
    requires |ps.ranking| >= 2 && NonDecreasing(ps.ranking)
    ensures |d| == |ps.ranking| && AllPositive(d)
    ensures forall j :: 0 <= j < |d| ==> IsScale(an, ps.times[j], d[j])
    ensures Near(PlayedCurve(an.tanh, ps.oldMean, d), Beaten(ps.ranking, d, ps.ranking[k], |d|), RANGE_LO, RANGE_HI,
                 Recalculated(an, ps).performance[k])
  {
    hide Recalculated, NewMean, Performances, Delta, IsScale, Near, IsTanh, IsSqrt, Shown, Target, Beaten, Played,
         EvalTanhs;
    var f := PlayerField(an, ps.ranking, ps.oldMean, ps.times);
    d := f.delta;
    forall j | 0 <= j < |d| ensures IsScale(an, ps.times[j], d[j]) { ScaleOf(an, ps.times[j]); }
    RecalculatedAt(an, ps, k);
    PerformancesCorrect(f);
    var g := PlayedCurve(an.tanh, ps.oldMean, d);
    forall x ensures f.F()(x) == g(x) {
      PlayedIs(an.tanh, ps.oldMean, d, f.terms, |d|, x);
      assert f.terms[..|d|] == f.terms;
      NoSlope(x);
    }
    BeatenIs(ps.ranking, d, ps.ranking[k], |d|);
    assert NearOwn(f, Performances(f), k);
    NearSame(f.F(), g, f.Y(k), RANGE_LO, RANGE_HI, Performances(f)[k]);
  }

  lemma NoSlope(x: real)
    ensures Scale(0.0, x) == 0.0
  {}

  // ---- a contest in which all tie ----

  lemma {:induction false} PlayedSign(tanh: real -> real, m: seq<real>, d: seq<real>, n: nat, x: real)
    requires IsTanh(tanh) && n <= |m| == |d| && AllPositive(d)
    ensures (forall j :: 0 <= j < |m| ==> m[j] <= x) ==> Played(tanh, m, d, n, x) >= 0.0
    ensures (forall j :: 0 <= j < |m| ==> x <= m[j]) ==> Played(tanh, m, d, n, x) <= 0.0
  {
    if n > 0 {
      PlayedSign(tanh, m, d, n - 1, x);
      ShareSign(tanh, m[n - 1], d[n - 1], x);
    }
  }

  lemma ShareSign(tanh: real -> real, m: real, d: real, x: real)
    requires IsTanh(tanh) && d > 0.0
    ensures m <= x ==> tanh((x - m) / (2.0 * d)) / d >= 0.0
    ensures x <= m ==> tanh((x - m) / (2.0 * d)) / d <= 0.0
  {
    var t := Tanh(m, d, 1.0);
    TermSign(tanh, t, x);
    TermIs(tanh, t, x);
  }

  lemma {:induction false} BeatenTie(ranking: seq<real>, d: seq<real>, r: real, n: nat)
    requires n <= |ranking| == |d| && AllPositive(d)
    requires forall j :: 0 <= j < |ranking| ==> ranking[j] == r
    ensures Beaten(ranking, d, r, n) == 0.0
  {
    if n > 0 { BeatenTie(ranking, d, r, n - 1); }
  }

  lemma {:induction false} PlayedIncreasing(tanh: real -> real, m: seq<real>, d: seq<real>, n: nat, x: real, y: real)
    requires IsTanh(tanh) && n <= |m| == |d| && AllPositive(d) && x < y
    ensures Played(tanh, m, d, n, x) <= Played(tanh, m, d, n, y)
    ensures n > 0 ==> Played(tanh, m, d, n, x) < Played(tanh, m, d, n, y)
  {
    hide IsTanh;
    if n > 0 {
      PlayedIncreasing(tanh, m, d, n - 1, x, y);
      ShareIncreasing(tanh, m[n - 1], d[n - 1], x, y);
    }
  }

  lemma ShareIncreasing(tanh: real -> real, m: real, d: real, x: real, y: real)
    requires IsTanh(tanh) && d > 0.0 && x < y
    ensures tanh((x - m) / (2.0 * d)) / d < tanh((y - m) / (2.0 * d)) / d
  {
    hide IsTanh, TermAt;
    var t := Tanh(m, d, 1.0);
    TermIncreasing(tanh, t, x, y);
    TermIs(tanh, t, x);
    TermIs(tanh, t, y);
  }

  /** When all tie, everyone's performance lies between the least and the greatest old mean, up to the tolerance. */
  lemma AllTied(an: RawAnalysis, ps: Players, k: nat, least: real, greatest: real)
    requires an.Sound() && ps.Consistent() && |ps.ranking| >= 2 && k < |ps.ranking|
    requires forall j :: 0 <= j < |ps.ranking| ==> ps.ranking[j] == ps.ranking[k]
    requires forall j :: 0 <= j < |ps.oldMean| ==> least <= ps.oldMean[j] <= greatest
    requires RANGE_LO <= greatest && least <= RANGE_HI
    ensures least - TOLERANCE <= Recalculated(an, ps).performance[k] <= greatest + TOLERANCE
  {
    hide Recalculated, Near, IsTanh, IsSqrt, Played, Beaten, IsScale;
    assert NonDecreasing(ps.ranking);
    var d := PerformanceEquation(an, ps, k);
    var f := PlayedCurve(an.tanh, ps.oldMean, d);
    forall x, y | x < y ensures f(x) < f(y) { PlayedIncreasing(an.tanh, ps.oldMean, d, |d|, x, y); }
    PlayedSign(an.tanh, ps.oldMean, d, |d|, least);
    PlayedSign(an.tanh, ps.oldMean, d, |d|, greatest);
    BeatenTie(ps.ranking, d, ps.ranking[k], |d|);
    assert least <= ps.oldMean[0] <= greatest;
    NearBetween(f, 0.0, RANGE_LO, RANGE_HI, least, greatest, Recalculated(an, ps).performance[k]);
  }

  // ---- means ----

  /** Weights of a history after `total` contests: 1 for the latest performance, and each earlier one less by the
      square of var / (var + V). */
  predicate AreWeights(total: nat, w: seq<real>)
    requires |w| <= total + 1
  {
    && (forall j :: 0 <= j < |w| ==> w[j] > 0.0)
    && (|w| > 0 ==> w[0] == 1.0)
    && forall j :: 1 <= j < |w| ==> IsShrunk(w[j - 1], w[j], Var(total - j))
  }

  predicate IsShrunk(before: real, w: real, v: real) {
    w * ((v + VAR_PER_CONTEST) * (v + VAR_PER_CONTEST)) == before * (v * v)
  }

  /** The shares of performances a up to n: the sum of w_j tanh((x - h_j) / (2 d)) / d. */
  function Remembered(tanh: real -> real, h: seq<real>, w: seq<real>, d: real, a: nat, n: nat, x: real): real
    requires a <= n <= |h| == |w| && d > 0.0
    decreases n
  {
    if n == a then 0.0
    else Remembered(tanh, h, w, d, a, n - 1, x) + w[n - 1] * tanh((x - h[n - 1]) / (2.0 * d)) / d
  }

  function MeanCurve(tanh: real -> real, h: seq<real>, w: seq<real>, d: real, w0: real): real -> real
    requires |h| == |w| && d > 0.0
  {
    x => Scale(w0, x) + Remembered(tanh, h, w, d, 0, |h|, x)
  }

  lemma ShrunkIs(v: real, k: real, before: real, w: real)
    requires v > 0.0 && k == v / (v + VAR_PER_CONTEST) && w == before * (k * k)
    ensures IsShrunk(before, w, v)
  {
    var u := v + VAR_PER_CONTEST;
    assert k * u == v;
    assert (before * (k * k)) * (u * u) == before * ((k * u) * (k * u));
  }

  lemma WeightsAre(total: nat, w: seq<real>)
    requires |w| <= total + 1 && forall j :: 0 <= j < |w| ==> w[j] == Weight(total, j)
    ensures AreWeights(total, w)
  {
    hide Var, IsShrunk;
    forall j | 0 <= j < |w| ensures w[j] > 0.0 { WeightPos(total, j); }
    if |w| > 0 { ShrinkBounds(total, 0); }
    forall j | 1 <= j < |w| ensures IsShrunk(w[j - 1], w[j], Var(total - j)) {
      ShrunkIs(Var(total - j), Shrink(total, j), w[j - 1], w[j]);
    }
  }

  lemma {:induction false} WeightSumIs(total: nat, w: seq<real>, m: nat)
    requires m <= |w| <= total + 1 && forall j :: 0 <= j < |w| ==> w[j] == Weight(total, j)
    ensures WeightSum(total, m) == Sum(w[..m]) / BETA2
  {
    hide Weight;
    if m == 0 {
      assert w[..0] == [];
    } else {
      WeightSumIs(total, w, m - 1);
      assert w[..m][..m - 1] == w[..m - 1] && w[..m] == w[..m - 1] + [w[m - 1]];
      DivSum(Sum(w[..m - 1]), w[m - 1], BETA2);
    }
  }

  lemma DivSum(a: real, b: real, c: real)
    requires c != 0.0
    ensures (a + b) / c == a / c + b / c
  {}

  lemma {:induction false} RememberedIs(tanh: real -> real, h: seq<real>, w: seq<real>, d: real, terms: seq<Term>,
                                        a: nat, n: nat, x: real)
    requires a <= n <= |h| == |w| == |terms| && d > 0.0
    requires forall j :: 0 <= j < |w| ==> w[j] > 0.0
    requires forall j :: 0 <= j < |terms| ==> terms[j] == Tanh(h[j], d, w[j])
    ensures Remembered(tanh, h, w, d, a, n, x) == EvalTanhs(tanh, terms[a..n], x)
    decreases n
  {
    hide TermAt, EvalTanhs;
    if n == a {
      assert terms[a..n] == [];
      NoTerms(tanh, x);
    } else {
      RememberedIs(tanh, h, w, d, terms, a, n - 1, x);
      assert terms[a..n] == terms[a..n - 1] + [terms[n - 1]];
      EvalSnoc(tanh, terms[a..n - 1], terms[n - 1], x);
      TermIs(tanh, terms[n - 1], x);
    }
  }

  /** The scale of the history's terms: pi d = sqrt(3 beta^2). */
  predicate IsHistoryScale(an: RawAnalysis, d: real) {
    d > 0.0 && (an.pi * d) * (an.pi * d) == 3.0 * BETA2
  }

  function HistoryScale(an: RawAnalysis): (d: real)
    requires an.Sound()
    ensures IsHistoryScale(an, d)
  {
    SqrtPos(an.sqrt, BETA2);
    SqrtPos(an.sqrt, 3.0);
    DivPos(an.sqrt(3.0), an.pi);
    MulPos(an.sqrt(BETA2), an.TanhC());
    SqrtProduct(an, 3.0, BETA2);
    assert an.sqrt(BETA2) * an.TanhC() == an.sqrt(3.0) / an.pi * an.sqrt(BETA2);
    an.sqrt(BETA2) * an.TanhC()
  }

  /** A new mean after `total` contests with history h, latest first, is near the root of w0 x + sum of w_j tanh((x -
      h_j) / (2 d)) / d against w0 (old mean) plus the earlier performances' shares at it. */
  lemma NewMeanEquation(an: RawAnalysis, total: nat, h: seq<real>, oldMean: real)
    returns (d: real, w: seq<real>, w0: real)
    requires an.Sound() && 1 <= |h| <= total
    ensures |w| == |h| && AreWeights(total, w) && IsHistoryScale(an, d)
    ensures w0 > 0.0 && w0 == 1.0 / Var(total) - Sum(w) / BETA2
    ensures Near(MeanCurve(an.tanh, h, w, d, w0),
                 Scale(w0, oldMean) + Remembered(an.tanh, h, w, d, 1, |h|, oldMean), RANGE_LO, RANGE_HI,
                 NewMean(an, total, h, oldMean))
  {
    hide Var, Weight, Near, Root, EvalTanhs, IsTanh, IsSqrt, AreWeights, Remembered, Curve, Goal, Scale, IsHistoryScale,
         HistoryScale;
    d := HistoryScale(an);
    w := seq(|h|, j requires 0 <= j < |h| => Weight(total, j));
    w0 := PriorWeight(total, |h|);
    PrecisionLeft(total, |h|);
    WeightsAre(total, w);
    WeightSumIs(total, w, |h|);
    assert w[..|h|] == w;
    var terms := MeanTerms(an, total, h);
    forall j | 0 <= j < |h| ensures w[j] > 0.0 && terms[j] == Tanh(h[j], d, w[j]) {
      WeightPos(total, j);
      TermOfHistory(an, total, j, h[j]);
    }
    var f, g := Curve(an.tanh, terms, w0), MeanCurve(an.tanh, h, w, d, w0);
    forall x ensures f(x) == g(x) {
      RememberedIs(an.tanh, h, w, d, terms, 0, |h|, x);
      assert terms[0..|h|] == terms;
      CurveIs(an.tanh, terms, w0, x);
    }
    RememberedIs(an.tanh, h, w, d, terms, 1, |h|, oldMean);
    assert terms[1..|h|] == terms[1..];
    Sides(an.tanh, terms, w0, oldMean, oldMean);
    CurveIncreasing(an.tanh, terms, w0);
    RootNear(f, Goal(an.tanh, terms, w0, oldMean), RANGE_LO, RANGE_HI);
    NearSame(f, g, Goal(an.tanh, terms, w0, oldMean), RANGE_LO, RANGE_HI, NewMean(an, total, h, oldMean));
  }

  lemma CurveIs(tanh: real -> real, terms: seq<Term>, lin: real, x: real)
    ensures Curve(tanh, terms, lin)(x) == Scale(lin, x) + EvalTanhs(tanh, terms, x)
  {}

  lemma TermOfHistory(an: RawAnalysis, total: nat, j: nat, h: real)
    requires an.Sound() && j <= total
    ensures Weight(total, j) > 0.0 && HistoryScale(an) > 0.0
    ensures MeanTerm(an, total, j, h) == Tanh(h, HistoryScale(an), Weight(total, j))
  {
    hide Weight;
    WeightPos(total, j);
  }

  /** ... for player k of a contest: the history is the new performance followed by the past ones. */
  lemma PlayerMeanEquation(an: RawAnalysis, ps: Players, k: nat) returns (d: real, w: seq<real>, w0: real)
    requires an.Sound() && ps.Consistent() && k < |ps.ranking| && |ps.ranking| >= 2
    ensures |w| == |ps.past[k]| + 1 && AreWeights(ps.times[k] + 1, w) && IsHistoryScale(an, d)
    ensures w0 > 0.0 && w0 == 1.0 / Var(ps.times[k] + 1) - Sum(w) / BETA2
    ensures var h := [Recalculated(an, ps).performance[k]] + ps.past[k];
            Near(MeanCurve(an.tanh, h, w, d, w0),
                 Scale(w0, ps.oldMean[k]) + Remembered(an.tanh, h, w, d, 1, |h|, ps.oldMean[k]), RANGE_LO, RANGE_HI,
                 Recalculated(an, ps).mean[k])
  {
    hide Recalculated, NewMean, Performances, PlayerField, Near, IsTanh, IsSqrt, Shown, Remembered, AreWeights, Var,
         IsHistoryScale, MeanCurve;
    RecalculatedAt(an, ps, k);
    d, w, w0 := NewMeanEquation(an, ps.times[k] + 1, [Recalculated(an, ps).performance[k]] + ps.past[k], ps.oldMean[k]);
  }

  /** With nobody to play against nothing changes. */
  lemma AloneUnchanged(an: RawAnalysis, ps: Players)
    requires an.Sound() && ps.Consistent() && |ps.ranking| < 2
    ensures Recalculated(an, ps).performance == ps.oldMean && Recalculated(an, ps).mean == ps.oldMean
  {
    hide Shown;
  }

  // ---- what is shown ----

  /** The rating shown is the nearest integer to the mean less the excess of the deviation after this contest over its
      limit, but at least 1. */
  lemma ShownIs(an: RawAnalysis, ps: Players, k: nat) returns (sd: real, limit: real)
    requires an.Sound() && ps.Consistent() && k < |ps.ranking|
    ensures sd > limit > 0.0 && sd * sd == Var(ps.times[k] + 1)
    ensures limit * limit * (limit * limit) + VAR_PER_CONTEST * (limit * limit) == VAR_PER_CONTEST * BETA2
    ensures var r, x := Recalculated(an, ps).rating[k], Recalculated(an, ps).mean[k] - (sd - limit);
            && r >= 1
            && (r > 1 ==> -0.5 <= r as real - x <= 0.5)
            && (r == 1 ==> x <= 1.5)
  {
    hide NewMeans, NewPerformances, Var, VarLim;
    sd, limit := an.sqrt(Var(ps.times[k] + 1)), SdLim(an);
    VarLimIsLimit(an.sqrt);
    VarianceLimit(an.sqrt, ps.times[k], ps.times[k] + 1);
    SqrtPos(an.sqrt, VarLim(an.sqrt));
    SqrtStrict(an.sqrt, VarLim(an.sqrt), Var(ps.times[k] + 1));
    assert limit * limit == VarLim(an.sqrt);
    LimitEquation(VarLim(an.sqrt));
    RoundNearest(Recalculated(an, ps).mean[k] - (sd - limit));
  }

  lemma LimitEquation(l: real)
    requires IsLimit(l)
    ensures l * l + VAR_PER_CONTEST * l == VAR_PER_CONTEST * BETA2
  {}

  lemma RoundNearest(x: real)
    ensures -0.5 <= RoundHalfEven(x) as real - x <= 0.5
  {}
}
