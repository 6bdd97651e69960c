/** Contest performances (judge/ratings.py, `solve_idx` and `divconq` in `recalculate_ratings`):
    the equation each player's performance solves, and the divide-and-conquer fill of `new_p`
    that searches only between the approximate answers of its neighbours. */
module Performance {
  import opened RealFacts
  import opened Solver
  import opened Variance

  /** What the closures read: one term per player, and one rank and one deviation per player. */
  datatype RawField = Field(tanh: real -> real, terms: seq<Term>, ranking: seq<real>, delta: seq<real>) {
    predicate Shaped() {
      |terms| == |ranking| == |delta| && forall k :: 0 <= k < |delta| ==> delta[k] > 0.0
    }

    function F(): real -> real {
      Curve(tanh, terms, 0.0)
    }

    function Y(i: nat): real
      requires Shaped() && i < |ranking|
    {
      Target(delta, ranking, ranking[i], |ranking|)
    }
  }
  type Field = f: RawField | f.Shaped() witness Field(x => x, [], [], [])

  predicate PositiveAll(delta: seq<real>) {
    forall k :: 0 <= k < |delta| ==> delta[k] > 0.0
  }

  /** How the result against one opponent moves the target of a player ranked r. */
  function Outcome(s: real, r: real, d: real): real
    requires d > 0.0
  {
    if s > r then 1.0 / d else if s < r then -(1.0 / d) else 0.0
  }

  function Target(delta: seq<real>, ranking: seq<real>, r: real, m: nat): real
    requires m <= |delta| == |ranking| && PositiveAll(delta)
  {
    if m == 0 then 0.0 else Target(delta, ranking, r, m - 1) + Outcome(ranking[m - 1], r, delta[m - 1])
  }

  /** A better (smaller) rank never has a smaller target. */
  lemma {:induction false} TargetMonotone(delta: seq<real>, ranking: seq<real>, r1: real, r2: real, m: nat)
    requires m <= |delta| == |ranking| && PositiveAll(delta)
    requires r1 <= r2
    ensures Target(delta, ranking, r1, m) >= Target(delta, ranking, r2, m)
  {
    if m > 0 {
      DivPos(1.0, delta[m - 1]);
      TargetMonotone(delta, ranking, r1, r2, m - 1);
    }
  }

  ghost predicate NonDecreasing(s: seq<real>) {
    forall i, j :: 0 <= i < j < |s| ==> s[i] <= s[j]
  }

  ghost predicate NonIncreasing(s: seq<real>) {
    forall i, j :: 0 <= i < j < |s| ==> s[i] >= s[j]
  }

  /** Entry k of p is near the root of k's own equation on the whole valid range. */
  ghost predicate NearOwn(f: Field, p: seq<real>, k: nat)
    requires k < |p| == |f.ranking|
  {
    Near(f.F(), f.Y(k), RANGE_LO, RANGE_HI, p[k])
  }

  // ---- the fill as a function on sequences ----

  function Fill(f: Field, p: seq<real>, i: nat, j: nat): (r: seq<real>)
    requires i <= j < |p| == |f.ranking|
    ensures |r| == |p|
    decreases j - i
  {
    if j - i > 1 then
      var k := (i + j) / 2;
      Fill(f, Fill(f, p[k := Root(f.F(), f.Y(k), p[j], p[i])], i, k), k, j)
    else p
  }

  lemma {:induction false} FillFrame(f: Field, p: seq<real>, i: nat, j: nat)
    requires i <= j < |p| == |f.ranking|
    ensures forall m :: 0 <= m < |p| && !(i < m < j) ==> Fill(f, p, i, j)[m] == p[m]
    decreases j - i
  {
    hide Root, Target;
    if j - i > 1 {
      var k := (i + j) / 2;
      var p1 := p[k := Root(f.F(), f.Y(k), p[j], p[i])];
      FillFrame(f, p1, i, k);
      FillFrame(f, Fill(f, p1, i, k), k, j);
    }
  }

  ghost predicate Settled(f: Field, p: seq<real>, i: nat, j: nat)
    requires i <= j < |p| == |f.ranking|
  {
    && NonIncreasing(p[i..j + 1])
    && forall k :: i <= k <= j ==> NearOwn(f, p, k)
  }

  /** Between two correct ends the fill leaves every entry near its own root and the whole stretch non-increasing. */
  lemma {:induction false} FillSettles(f: Field, p: seq<real>, i: nat, j: nat)
    requires i < j < |p| == |f.ranking|
    requires Increasing(f.F()) && NonDecreasing(f.ranking)
    requires p[i] >= p[j] && NearOwn(f, p, i) && NearOwn(f, p, j)
    ensures Settled(f, Fill(f, p, i, j), i, j)
    decreases j - i
  {
    hide Root, Target;
    FillFrame(f, p, i, j);
    if j - i > 1 {
      var k := (i + j) / 2;
      TargetMonotone(f.delta, f.ranking, f.ranking[i], f.ranking[k], |f.ranking|);
      TargetMonotone(f.delta, f.ranking, f.ranking[k], f.ranking[j], |f.ranking|);
      RootNarrowed(f.F(), RANGE_LO, RANGE_HI, f.Y(j), p[j], f.Y(k), f.Y(i), p[i]);
      var p1 := p[k := Root(f.F(), f.Y(k), p[j], p[i])];
      var p2 := Fill(f, p1, i, k);
      FillFrame(f, p1, i, k);
      FillSettles(f, p1, i, k);
      FillFrame(f, p2, k, j);
      FillSettles(f, p2, k, j);
      SettledJoin(f, p2, Fill(f, p2, k, j), i, k, j);
    } else {
      assert p[i..j + 1] == [p[i], p[j]];
    }
  }

  lemma SettledJoin(f: Field, p: seq<real>, q: seq<real>, i: nat, k: nat, j: nat)
    requires i <= k <= j < |p| == |q| == |f.ranking|
    requires Settled(f, p, i, k) && Settled(f, q, k, j)
    requires forall m :: 0 <= m <= k ==> q[m] == p[m]
    ensures Settled(f, q, i, j)
  {
    var s := q[i..j + 1];
    forall a, b | 0 <= a < b < |s| ensures s[a] >= s[b] {
      var x, y := i + a, i + b;
      if x <= k { assert q[x] == p[i..k + 1][x - i] && p[i..k + 1][k - i] == q[k]; }
      if y <= k { assert q[y] == p[i..k + 1][y - i]; }
      if x >= k { assert q[x] == q[k..j + 1][x - k]; }
      if y >= k { assert q[y] == q[k..j + 1][y - k]; assert q[k..j + 1][0] == q[k]; }
    }
    forall m | i <= m <= j ensures NearOwn(f, q, m) {
      if m <= k { assert NearOwn(f, p, m); }
    }
  }

  /** All performances of a contest with at least two players. */
  function Performances(f: Field): (r: seq<real>)
    requires |f.ranking| >= 2
    ensures |r| == |f.ranking|
  {
    var n := |f.ranking|;
    var p := seq(n, k => 0.0);
    var p1 := p[0 := Root(f.F(), f.Y(0), RANGE_LO, RANGE_HI)];
    var p2 := p1[n - 1 := Root(f.F(), f.Y(n - 1), RANGE_LO, RANGE_HI)];
    Fill(f, p2, 0, n - 1)
  }

  /** The performances are non-increasing, and each is near the root of its own equation on the whole range. */
  lemma PerformancesCorrect(f: Field)
    requires |f.ranking| >= 2
    requires IsTanh(f.tanh) && NonDecreasing(f.ranking)
    ensures NonIncreasing(Performances(f))
    ensures forall k :: 0 <= k < |f.ranking| ==> NearOwn(f, Performances(f), k)
  {
    hide Root, Target, Curve, IsTanh, Increasing;
    var n := |f.ranking|;
    CurveIncreasing(f.tanh, f.terms, 0.0);
    var p := seq(n, k => 0.0);
    var p1 := p[0 := Root(f.F(), f.Y(0), RANGE_LO, RANGE_HI)];
    var p2 := p1[n - 1 := Root(f.F(), f.Y(n - 1), RANGE_LO, RANGE_HI)];
    RootNear(f.F(), f.Y(0), RANGE_LO, RANGE_HI);
    RootNear(f.F(), f.Y(n - 1), RANGE_LO, RANGE_HI);
    TargetMonotone(f.delta, f.ranking, f.ranking[0], f.ranking[n - 1], n);
    RootMonotone(f.F(), f.Y(n - 1), f.Y(0), RANGE_LO, RANGE_HI);
    FillSettles(f, p2, 0, n - 1);
    assert Performances(f)[0..n] == Performances(f);
  }

  lemma NearClose(f: real -> real, y: real, lo: real, hi: real, a: real, b: real)
    requires Increasing(f) && Near(f, y, lo, hi, a) && Near(f, y, lo, hi, b)
    ensures a - b <= 2.0 * TOLERANCE
  {}

  /** Tied players have the same equation but are searched for between different neighbours; their performances still
      differ by no more than twice the tolerance. */
  lemma TiedClose(f: Field, i: nat, j: nat)
    requires |f.ranking| >= 2 && i < |f.ranking| && j < |f.ranking|
    requires IsTanh(f.tanh) && NonDecreasing(f.ranking) && f.ranking[i] == f.ranking[j]
    ensures Performances(f)[i] - Performances(f)[j] <= 2.0 * TOLERANCE
    ensures Performances(f)[j] - Performances(f)[i] <= 2.0 * TOLERANCE
  {
    hide Performances, Target, Curve, IsTanh, Increasing, Near;
    PerformancesCorrect(f);
    CurveIncreasing(f.tanh, f.terms, 0.0);
    var p := Performances(f);
    assert NearOwn(f, p, i) && NearOwn(f, p, j);
    NearClose(f.F(), f.Y(i), RANGE_LO, RANGE_HI, p[i], p[j]);
    NearClose(f.F(), f.Y(i), RANGE_LO, RANGE_HI, p[j], p[i]);
  }

  // ---- the order of writes ----

  function MidpointOrder(i: nat, j: nat): seq<nat>
    requires i <= j
    decreases j - i
  {
    if j - i > 1 then
      var k := (i + j) / 2;
      [k] + MidpointOrder(i, k) + MidpointOrder(k, j)
    else []
  }

  /** The fill visits every inner index exactly once, and no other index. */
  lemma {:induction false} MidpointsOnce(i: nat, j: nat, m: nat)
    requires i <= j
    ensures multiset(MidpointOrder(i, j))[m] == if i < m < j then 1 else 0
    decreases j - i
  {
    if j - i > 1 {
      var k := (i + j) / 2;
      MidpointsOnce(i, k, m);
      MidpointsOnce(k, j, m);
      assert multiset(MidpointOrder(i, j))
          == multiset{k} + multiset(MidpointOrder(i, k)) + multiset(MidpointOrder(k, j));
    }
  }

  // ---- the in-place code ----

  method SolveIdx(f: Field, newP: array<real>, i: nat, lo: real, hi: real)
    requires i < newP.Length == |f.ranking|
    modifies newP
    ensures newP[..] == old(newP[..])[i := Root(f.F(), f.Y(i), lo, hi)]
  {
    var r := f.ranking[i];
    var yTg := 0.0;
    for m := 0 to |f.ranking|
      invariant yTg == Target(f.delta, f.ranking, r, m)
      invariant newP[..] == old(newP[..])
    {
      var d, s := f.delta[m], f.ranking[m];
      if s > r {
        yTg := yTg + 1.0 / d;
      } else if s < r {
        yTg := yTg - 1.0 / d;
      }
    }
    var p := Solve(f.tanh, f.terms, yTg, 0.0, lo, hi);
    newP[i] := p;
  }

  lemma FillStep(f: Field, p: seq<real>, i: nat, k: nat, j: nat, p1: seq<real>, p2: seq<real>)
    requires i + 1 < j < |p| == |f.ranking| && k == (i + j) / 2
    requires p1 == p[k := Root(f.F(), f.Y(k), p[j], p[i])]
    requires p2 == Fill(f, p1, i, k)
    ensures Fill(f, p2, k, j) == Fill(f, p, i, j)
  {}

  method DivConq(f: Field, newP: array<real>, i: nat, j: nat) returns (ghost written: seq<nat>)
    requires i <= j < newP.Length == |f.ranking|
    modifies newP
    ensures newP[..] == Fill(f, old(newP[..]), i, j)
    ensures written == MidpointOrder(i, j)
    decreases j - i
  {
    hide Root, Target;
    written := [];
    if j - i > 1 {
      var k := (i + j) / 2;
      ghost var p := newP[..];
      SolveIdx(f, newP, k, newP[j], newP[i]);
      ghost var p1 := newP[..];
      ghost var left := DivConq(f, newP, i, k);
      ghost var p2 := newP[..];
      FillStep(f, p, i, k, j, p1, p2);
      ghost var right := DivConq(f, newP, k, j);
      written := [k] + left + right;
    }
  }

  method ComputePerformances(f: Field) returns (newP: array<real>)
    requires |f.ranking| >= 2
    ensures fresh(newP) && newP[..] == Performances(f)
  {
    hide Root, Target, Fill;
    var n := |f.ranking|;
    newP := new real[n](_ => 0.0);
    ghost var p := newP[..];
    assert p == seq(n, k => 0.0);
    SolveIdx(f, newP, 0, RANGE_LO, RANGE_HI);
    ghost var p1 := newP[..];
    SolveIdx(f, newP, n - 1, RANGE_LO, RANGE_HI);
    ghost var p2 := newP[..];
    ghost var written := DivConq(f, newP, 0, n - 1);
  }
}
