/** One contest's rating update for all its players (judge/ratings.py, `recalculate_ratings`). */
module Ratings {
  import opened Prelude
  import opened RealFacts
  import opened Solver
  import opened Variance
  import opened Mean
  import opened Performance

  /** The deviation SD_LIM that the shown rating converges to. */
  function SdLim(an: RawAnalysis): real {
    an.sqrt(VarLim(an.sqrt))
  }

  /** The rating shown for a mean after `times` earlier contests. */
  function Shown(an: RawAnalysis, mean: real, times: nat): int {
    MaxInt(1, RoundHalfEven(mean - (an.sqrt(Var(times + 1)) - SdLim(an))))
  }

  /** The shown rating never exceeds the rounded mean (or 1). */
  lemma ShownBelowMean(an: RawAnalysis, mean: real, times: nat)
    requires an.Sound()
    ensures 1 <= Shown(an, mean, times) <= MaxInt(1, RoundHalfEven(mean))
  {
    hide Var, VarLim;
    VarianceLimit(an.sqrt, times, times + 1);
    VarLimIsLimit(an.sqrt);
    SqrtStrict(an.sqrt, VarLim(an.sqrt), Var(times + 1));
    RoundMonotone(mean - (an.sqrt(Var(times + 1)) - SdLim(an)), mean);
  }

  /** ... and it falls short of the mean by less than any given amount once enough contests are rated. */
  lemma ShownConverges(an: RawAnalysis, eps: real) returns (n: nat)
    requires an.Sound() && eps > 0.0
    ensures forall mean: real, times: nat :: times >= n ==>
              MaxInt(1, RoundHalfEven(mean - eps)) <= Shown(an, mean, times)
  {
    hide Var, VarLim;
    n := DeviationVanishes(an.sqrt, eps);
    forall mean: real, times: nat | times >= n
      ensures MaxInt(1, RoundHalfEven(mean - eps)) <= Shown(an, mean, times)
    {
      assert 0.0 < an.sqrt(Var(times + 1)) - SdLim(an) <= eps;
      RoundMonotone(mean - eps, mean - (an.sqrt(Var(times + 1)) - SdLim(an)));
    }
  }

  lemma ShownMonotone(an: RawAnalysis, m1: real, m2: real, times: nat)
    requires m1 <= m2
    ensures Shown(an, m1, times) <= Shown(an, m2, times)
  {
    hide Var, VarLim;
    var gap := an.sqrt(Var(times + 1)) - SdLim(an);
    RoundMonotone(m1 - gap, m2 - gap);
  }

  // ---- the players' common equation ----

  function Delta(an: RawAnalysis, times: nat): (d: real)
    requires an.Sound()
    ensures d > 0.0
  {
    SqrtPos(an.sqrt, 3.0);
    DivPos(an.sqrt(3.0), an.pi);
    SqrtPos(an.sqrt, Var(times) + VAR_PER_CONTEST + BETA2);
    MulPos(an.TanhC(), an.sqrt(Var(times) + VAR_PER_CONTEST + BETA2));
    an.TanhC() * an.sqrt(Var(times) + VAR_PER_CONTEST + BETA2)
  }

  function Deltas(an: RawAnalysis, times: seq<nat>): (r: seq<real>)
    requires an.Sound()
    ensures |r| == |times|
  {
    seq(|times|, k requires 0 <= k < |times| => Delta(an, times[k]))
  }

  function PlayerTerms(an: RawAnalysis, oldMean: seq<real>, times: seq<nat>): (r: seq<Term>)
    requires an.Sound() && |oldMean| == |times|
    ensures |r| == |times|
  {
    seq(|times|, k requires 0 <= k < |times| => Tanh(oldMean[k], Delta(an, times[k]), 1.0))
  }

  function PlayerField(an: RawAnalysis, ranking: seq<real>, oldMean: seq<real>, times: seq<nat>): (f: Field)
    requires an.Sound() && |ranking| == |oldMean| == |times|
    ensures f.ranking == ranking && f.tanh == an.tanh
  {
    Field(an.tanh, PlayerTerms(an, oldMean, times), ranking, Deltas(an, times))
  }

  // ---- the whole update ----

  datatype Players = Players(ranking: seq<real>, oldMean: seq<real>, times: seq<nat>, past: seq<seq<real>>) {
    /** One entry per player, and never more past performances than rated contests. */
    ghost predicate Consistent() {
      && |ranking| == |oldMean| == |times| == |past|
      && forall k :: 0 <= k < |past| ==> |past[k]| <= times[k]
    }
  }

  datatype Results = Results(rating: seq<int>, mean: seq<real>, performance: seq<real>)

  function NewPerformances(an: RawAnalysis, ps: Players): (r: seq<real>)
    requires an.Sound() && ps.Consistent()
    ensures |r| == |ps.ranking|
  {
    if |ps.ranking| < 2 then ps.oldMean
    else Performances(PlayerField(an, ps.ranking, ps.oldMean, ps.times))
  }

  function NewMeans(an: RawAnalysis, ps: Players): (r: seq<real>)
    requires an.Sound() && ps.Consistent()
    ensures |r| == |ps.ranking|
  {
    if |ps.ranking| < 2 then ps.oldMean
    else
      var p := NewPerformances(an, ps);
      seq(|p|, k requires 0 <= k < |p| => NewMean(an, ps.times[k] + 1, [p[k]] + ps.past[k], ps.oldMean[k]))
  }

  function Recalculated(an: RawAnalysis, ps: Players): (r: Results)
    requires an.Sound() && ps.Consistent()
    ensures |r.rating| == |r.mean| == |r.performance| == |ps.ranking|
  {
    var m := NewMeans(an, ps);
    Results(seq(|m|, k requires 0 <= k < |m| => Shown(an, m[k], ps.times[k])), m, NewPerformances(an, ps))
  }

  /** Entries of the result, player by player. */
  lemma RecalculatedAt(an: RawAnalysis, ps: Players, k: nat)
    requires an.Sound() && ps.Consistent() && |ps.ranking| >= 2 && k < |ps.ranking|
    ensures var r := Recalculated(an, ps);
            && r.performance == Performances(PlayerField(an, ps.ranking, ps.oldMean, ps.times))
            && r.mean[k] == NewMean(an, ps.times[k] + 1, [r.performance[k]] + ps.past[k], ps.oldMean[k])
            && r.rating[k] == Shown(an, r.mean[k], ps.times[k])
  {
    hide Performances, PlayerField, NewMean, Shown;
  }

  /** What one update guarantees player k. */
  ghost predicate SoundFor(an: RawAnalysis, ps: Players, r: Results, k: nat)
    requires an.Sound() && ps.Consistent() && k < |ps.ranking|
    requires |r.mean| == |r.rating| == |r.performance| == |ps.ranking|
  {
    && NearOwn(PlayerField(an, ps.ranking, ps.oldMean, ps.times), r.performance, k)
    && Min(ps.oldMean[k], r.performance[k]) - TOLERANCE <= r.mean[k]
    && r.mean[k] <= Max(ps.oldMean[k], r.performance[k]) + TOLERANCE
    && 1 <= r.rating[k] <= MaxInt(1, RoundHalfEven(r.mean[k]))
  }

  /** Performances fall with rank and each is near its own root; every mean lies between the player's old mean and
      performance; the shown rating never exceeds the mean. */
  lemma RecalculatedSound(an: RawAnalysis, ps: Players, k: nat)
    requires an.Sound() && ps.Consistent() && k < |ps.ranking|
    requires |ps.ranking| >= 2 && NonDecreasing(ps.ranking)
    ensures NonIncreasing(Recalculated(an, ps).performance)
    ensures SoundFor(an, ps, Recalculated(an, ps), k)
  {
    hide Recalculated, NewMean, NearOwn, Performances, PlayerField, IsTanh, IsSqrt, Shown, NonIncreasing, RoundHalfEven;
    RecalculatedAt(an, ps, k);
    var r := Recalculated(an, ps);
    PerformancesCorrect(PlayerField(an, ps.ranking, ps.oldMean, ps.times));
    assert NearOwn(PlayerField(an, ps.ranking, ps.oldMean, ps.times), r.performance, k);
    NearInRange(PlayerField(an, ps.ranking, ps.oldMean, ps.times), r.performance, k);
    MeanAndShownSound(an, ps.times[k], r.performance[k], ps.past[k], ps.oldMean[k], r.mean[k], r.rating[k]);
  }

  /** Tied players' performances differ by no more than twice the solver's tolerance. */
  lemma TiedPlayers(an: RawAnalysis, ps: Players, i: nat, j: nat)
    requires an.Sound() && ps.Consistent()
    requires |ps.ranking| >= 2 && NonDecreasing(ps.ranking)
    requires i < |ps.ranking| && j < |ps.ranking| && ps.ranking[i] == ps.ranking[j]
    ensures var p := Recalculated(an, ps).performance; -2.0 * TOLERANCE <= p[i] - p[j] <= 2.0 * TOLERANCE
  {
    hide Recalculated, NewMean, Performances, PlayerField, IsTanh, IsSqrt, Shown;
    RecalculatedAt(an, ps, i);
    TiedClose(PlayerField(an, ps.ranking, ps.oldMean, ps.times), i, j);
  }

  lemma MeanAndShownSound(an: RawAnalysis, times: nat, p: real, past: seq<real>, oldMean: real, mean: real, rating: int)
    requires an.Sound() && |past| <= times
    requires RANGE_LO <= p <= RANGE_HI
    requires mean == NewMean(an, times + 1, [p] + past, oldMean)
    requires rating == Shown(an, mean, times)
    ensures Min(oldMean, p) - TOLERANCE <= mean <= Max(oldMean, p) + TOLERANCE
    ensures 1 <= rating <= MaxInt(1, RoundHalfEven(mean))
  {
    hide *;
    NewMeanBetween(an, times + 1, [p] + past, oldMean);
    ShownBelowMean(an, mean, times);
  }

  lemma NearInRange(f: Field, p: seq<real>, k: nat)
    requires k < |p| == |f.ranking| && NearOwn(f, p, k)
    ensures RANGE_LO <= p[k] <= RANGE_HI
  {}

  /** Of two players with the same past, the one placed no worse is never rated lower. */
  lemma RecalculatedFair(an: RawAnalysis, ps: Players, i: nat, j: nat)
    requires an.Sound() && ps.Consistent()
    requires |ps.ranking| >= 2 && NonDecreasing(ps.ranking)
    requires i < j < |ps.ranking|
    requires ps.oldMean[i] == ps.oldMean[j] && ps.times[i] == ps.times[j] && ps.past[i] == ps.past[j]
    ensures var r := Recalculated(an, ps); r.mean[i] >= r.mean[j] && r.rating[i] >= r.rating[j]
  {
    MeansFair(an, ps, i, j);
    ShownFair(an, ps, i, j);
  }

  lemma MeansFair(an: RawAnalysis, ps: Players, i: nat, j: nat)
    requires an.Sound() && ps.Consistent()
    requires |ps.ranking| >= 2 && NonDecreasing(ps.ranking)
    requires i < j < |ps.ranking|
    requires ps.oldMean[i] == ps.oldMean[j] && ps.times[i] == ps.times[j] && ps.past[i] == ps.past[j]
    ensures Recalculated(an, ps).mean[i] >= Recalculated(an, ps).mean[j]
  {
    hide Recalculated, NewMean, NearOwn, Performances, PlayerField, IsTanh, IsSqrt;
    RecalculatedAt(an, ps, i);
    RecalculatedAt(an, ps, j);
    PerformancesCorrect(PlayerField(an, ps.ranking, ps.oldMean, ps.times));
    var r := Recalculated(an, ps);
    MeanOrder(an, ps.times[i], r.performance[j], r.performance[i], ps.past[i], ps.oldMean[i], r.mean[j], r.mean[i]);
  }

  lemma MeanOrder(an: RawAnalysis, times: nat, p: real, q: real, past: seq<real>, oldMean: real, mp: real, mq: real)
    requires an.Sound() && |past| <= times && p <= q
    requires mp == NewMean(an, times + 1, [p] + past, oldMean)
    requires mq == NewMean(an, times + 1, [q] + past, oldMean)
    ensures mp <= mq
  {
    hide *;
    NewMeanMonotone(an, times + 1, p, q, past, oldMean);
  }

  lemma ShownFair(an: RawAnalysis, ps: Players, i: nat, j: nat)
    requires an.Sound() && ps.Consistent() && |ps.ranking| >= 2
    requires i < |ps.ranking| && j < |ps.ranking| && ps.times[i] == ps.times[j]
    requires Recalculated(an, ps).mean[i] >= Recalculated(an, ps).mean[j]
    ensures Recalculated(an, ps).rating[i] >= Recalculated(an, ps).rating[j]
  {
    hide Shown, NewMeans, NewPerformances;
    var m := NewMeans(an, ps);
    ShownMonotone(an, m[j], m[i], ps.times[i]);
  }

  method ComputeDeltas(an: RawAnalysis, vars: VarCache, times: seq<nat>) returns (delta: seq<real>)
    requires an.Sound() && vars.Valid()
    modifies vars
    ensures vars.Valid() && delta == Deltas(an, times)
  {
    delta := [];
    for k := 0 to |times|
      invariant vars.Valid()
      invariant delta == Deltas(an, times)[..k]
    {
      var v := vars.GetVar(times[k]);
      assert Delta(an, times[k]) == an.TanhC() * an.sqrt(v + VAR_PER_CONTEST + BETA2);
      delta := delta + [an.TanhC() * an.sqrt(v + VAR_PER_CONTEST + BETA2)];
    }
  }

  method ComputeMeans(an: RawAnalysis, vars: VarCache, ps: Players, newP: seq<real>) returns (newMean: array<real>)
    requires an.Sound() && ps.Consistent() && vars.Valid()
    requires |ps.ranking| >= 2 && newP == NewPerformances(an, ps)
    modifies vars
    ensures vars.Valid() && newMean[..] == NewMeans(an, ps)
  {
    hide NewPerformances, NewMean;
    var n := |ps.ranking|;
    newMean := new real[n](_ => 0.0);
    for i := 0 to n
      invariant vars.Valid() && fresh(newMean)
      invariant newMean[..i] == NewMeans(an, ps)[..i]
    {
      newMean[i] := ComputeMean(an, vars, ps.times[i], newP[i], ps.past[i], ps.oldMean[i]);
    }
  }

  method ComputeShown(an: RawAnalysis, vars: VarCache, ps: Players, newMean: seq<real>) returns (newRating: seq<int>)
    requires an.Sound() && ps.Consistent() && vars.Valid()
    requires newMean == NewMeans(an, ps)
    modifies vars
    ensures vars.Valid() && newRating == Recalculated(an, ps).rating
  {
    hide NewPerformances, NewMeans, Var, VarLim, RoundHalfEven;
    newRating := [];
    for i := 0 to |newMean|
      invariant vars.Valid()
      invariant newRating == Recalculated(an, ps).rating[..i]
    {
      var v := vars.GetVar(ps.times[i] + 1);
      newRating := newRating + [MaxInt(1, RoundHalfEven(newMean[i] - (an.sqrt(v) - SdLim(an))))];
    }
  }

  method RecalculateRatings(an: RawAnalysis, vars: VarCache, ps: Players) returns (r: Results)
    requires an.Sound() && ps.Consistent() && vars.Valid()
    modifies vars
    ensures vars.Valid()
    ensures r == Recalculated(an, ps)
  {
    hide Performances, NewMean, Shown, Delta, Deltas, PlayerTerms;
    var delta := ComputeDeltas(an, vars, ps.times);
    var newP, newMean: seq<real>;
    if |ps.ranking| < 2 {
      newP := ps.oldMean;
      newMean := ps.oldMean;
    } else {
      var f := PlayerField(an, ps.ranking, ps.oldMean, ps.times);
      assert f == Field(an.tanh, f.terms, ps.ranking, delta);
      var performances := ComputePerformances(Field(an.tanh, f.terms, ps.ranking, delta));
      newP := performances[..];
      var means := ComputeMeans(an, vars, ps, newP);
      newMean := means[..];
    }
    var newRating := ComputeShown(an, vars, ps, newMean);
    r := Results(newRating, newMean, newP);
  }
}
