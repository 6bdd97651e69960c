/** The root finder of the rating engine (judge/ratings.py, `eval_tanhs` and `solve`), over the reals.
    `tanh` is a parameter about which only `IsTanh` is assumed. */
module Solver {
  import opened Prelude
  import opened RealFacts

  /** One term (mu, sd, wt) of a sum of hyperbolic tangents. */
  datatype RawTerm = Tanh(mu: real, sd: real, wt: real)
  type Term = t: RawTerm | t.sd > 0.0 && t.wt > 0.0 witness Tanh(0.0, 1.0, 1.0)

  ghost predicate IsTanh(tanh: real -> real) {
    && (forall x, y :: x < y ==> tanh(x) < tanh(y))
    && (forall x :: tanh(-x) == -tanh(x))
    && (forall x :: -1.0 < tanh(x) < 1.0)
  }

  function TermAt(tanh: real -> real, t: Term, x: real): real {
    (t.wt / t.sd) * tanh((x - t.mu) / (2.0 * t.sd))
  }

  function EvalTanhs(tanh: real -> real, terms: seq<Term>, x: real): real {
    if terms == [] then 0.0
    else TermAt(tanh, terms[0], x) + EvalTanhs(tanh, terms[1..], x)
  }

  /** The left-hand side of the equation that `solve` solves. */
  function Curve(tanh: real -> real, terms: seq<Term>, lin: real): real -> real {
    x => Scale(lin, x) + EvalTanhs(tanh, terms, x)
  }

  ghost predicate Increasing(f: real -> real) {
    forall x, y :: x < y ==> f(x) < f(y)
  }

  lemma TermIncreasing(tanh: real -> real, t: Term, x: real, y: real)
    requires IsTanh(tanh) && x < y
    ensures TermAt(tanh, t, x) < TermAt(tanh, t, y)
  {
    DivStrict(x - t.mu, y - t.mu, 2.0 * t.sd);
    DivPos(t.wt, t.sd);
    MulStrict(t.wt / t.sd, tanh((x - t.mu) / (2.0 * t.sd)), tanh((y - t.mu) / (2.0 * t.sd)));
  }

  lemma {:induction false} EvalTanhsIncreasing(tanh: real -> real, terms: seq<Term>, x: real, y: real)
    requires IsTanh(tanh) && x < y
    ensures EvalTanhs(tanh, terms, x) <= EvalTanhs(tanh, terms, y)
    ensures terms != [] ==> EvalTanhs(tanh, terms, x) < EvalTanhs(tanh, terms, y)
  {
    if terms != [] {
      TermIncreasing(tanh, terms[0], x, y);
      EvalTanhsIncreasing(tanh, terms[1..], x, y);
    }
  }

  /** Every curve the engine solves is strictly increasing. */
  lemma CurveIncreasing(tanh: real -> real, terms: seq<Term>, lin: real)
    requires IsTanh(tanh)
    requires lin > 0.0 || (lin == 0.0 && terms != [])
    ensures Increasing(Curve(tanh, terms, lin))
  {
    hide EvalTanhs;
    var f := Curve(tanh, terms, lin);
    forall x, y | x < y ensures f(x) < f(y) {
      EvalTanhsIncreasing(tanh, terms, x, y);
      if lin > 0.0 { MulStrict(lin, x, y); }
    }
  }

  /** `solve` without its cached end values: halve the bracket down to width 2, then interpolate. */
  function Root(f: real -> real, y: real, L: real, R: real): real
    decreases (R - L).Floor
  {
    if R - L > 2.0 then
      var x := (L + R) / 2.0;
      if f(x) > y then Root(f, y, L, x)
      else if f(x) < y then Root(f, y, x, R)
      else x
    else if y <= f(L) then L
    else if y >= f(R) then R
    else Between(L, R, (y - f(L)) / (f(R) - f(L)))
  }

  function Between(L: real, R: real, ratio: real): real {
    L * (1.0 - ratio) + R * ratio
  }

  lemma RatioOrder(lo: real, hi: real, y1: real, y2: real)
    requires lo < y1 <= y2 < hi
    ensures 0.0 < (y1 - lo) / (hi - lo) <= (y2 - lo) / (hi - lo) < 1.0
  {
    DivPos(y1 - lo, hi - lo);
    DivMono(y1 - lo, y2 - lo, hi - lo);
    DivStrict(y2 - lo, hi - lo, hi - lo);
    assert (hi - lo) / (hi - lo) == 1.0;
  }

  lemma BetweenOrder(L: real, R: real, p: real, q: real)
    requires L <= R && 0.0 <= p <= q <= 1.0
    ensures L <= Between(L, R, p) <= Between(L, R, q) <= R
  {
    assert Between(L, R, p) == L + (R - L) * p;
    assert Between(L, R, q) == L + (R - L) * q;
    MulNonNeg(R - L, p);
    MulMono(R - L, p, q);
    MulMono(R - L, q, 1.0);
  }

  lemma {:induction false} RootInBounds(f: real -> real, y: real, L: real, R: real)
    requires L <= R
    ensures L <= Root(f, y, L, R) <= R
    decreases (R - L).Floor
  {
    if R - L > 2.0 {
      RootInBounds(f, y, L, (L + R) / 2.0);
      RootInBounds(f, y, (L + R) / 2.0, R);
    } else if f(L) < y < f(R) {
      RatioOrder(f(L), f(R), y, y);
      var ratio := (y - f(L)) / (f(R) - f(L));
      BetweenOrder(L, R, ratio, ratio);
    }
  }

  /** For fixed bounds the answer is monotone in the target, whatever the curve. */
  lemma {:induction false} RootMonotone(f: real -> real, y1: real, y2: real, L: real, R: real)
    requires L <= R && y1 <= y2
    ensures Root(f, y1, L, R) <= Root(f, y2, L, R)
    decreases (R - L).Floor
  {
    if R - L > 2.0 {
      var x := (L + R) / 2.0;
      RootInBounds(f, y1, L, x);
      RootInBounds(f, y2, x, R);
      RootMonotone(f, y1, y2, L, x);
      RootMonotone(f, y1, y2, x, R);
    } else {
      RootInBounds(f, y1, L, R);
      RootInBounds(f, y2, L, R);
      if f(L) < y1 && y2 < f(R) {
        RatioOrder(f(L), f(R), y1, y2);
        BetweenOrder(L, R, (y1 - f(L)) / (f(R) - f(L)), (y2 - f(L)) / (f(R) - f(L)));
      }
    }
  }

  lemma RatioAntitone(l1: real, h1: real, l2: real, h2: real, y: real)
    requires l2 <= l1 < y < h2 <= h1
    ensures 0.0 <= (y - l1) / (h1 - l1) <= (y - l2) / (h2 - l2) <= 1.0
  {
    CrossOrder(y - l1, h1 - y, y - l2, h2 - y);
    assert (y - l2) + (h2 - y) == h2 - l2 && (y - l1) + (h1 - y) == h1 - l1;
    CrossDivide(y - l1, h1 - l1, y - l2, h2 - l2);
    DivPos(y - l1, h1 - l1);
    DivMono(y - l2, h2 - l2, h2 - l2);
    assert (h2 - l2) / (h2 - l2) == 1.0;
  }

  lemma CrossOrder(a1: real, b1: real, a2: real, b2: real)
    requires 0.0 < a1 <= a2 && 0.0 < b2 <= b1
    ensures a1 * (a2 + b2) <= a2 * (a1 + b1)
  {
    MulMono(b2, a1, a2);
    MulMono(a2, b2, b1);
    assert a1 * (a2 + b2) == a1 * a2 + b2 * a1;
    assert a2 * (a1 + b1) == a1 * a2 + a2 * b1;
    assert b2 * a2 == a2 * b2;
  }

  lemma CrossDivide(a: real, c: real, b: real, d: real)
    requires c > 0.0 && d > 0.0 && a * d <= b * c
    ensures a / c <= b / d
  {
    DivMono(a * d, b * c, d);
    assert (a * d) / d == a;
    assert (b * c) / d == (b / d) * c;
    DivBound(a, c, b / d);
  }

  /** For fixed bounds and target, raising the curve never raises the answer. */
  lemma {:induction false} RootAntitone(f: real -> real, g: real -> real, y: real, L: real, R: real)
    requires L <= R
    requires forall x :: g(x) <= f(x)
    ensures Root(f, y, L, R) <= Root(g, y, L, R)
    decreases (R - L).Floor
  {
    if R - L > 2.0 {
      var x := (L + R) / 2.0;
      RootInBounds(f, y, L, x);
      RootInBounds(g, y, x, R);
      RootAntitone(f, g, y, L, x);
      RootAntitone(f, g, y, x, R);
    } else {
      RootInBounds(f, y, L, R);
      RootInBounds(g, y, L, R);
      if f(L) < y && y < g(R) {
        RatioAntitone(f(L), f(R), g(L), g(R), y);
        BetweenOrder(L, R, (y - f(L)) / (f(R) - f(L)), (y - g(L)) / (g(R) - g(L)));
      }
    }
  }

  const TOLERANCE := 2.0

  /** x is within the tolerance of where `f` crosses `y` on [lo, hi], or is the end of the range that `y` lies
      beyond. */
  ghost predicate Near(f: real -> real, y: real, lo: real, hi: real, x: real) {
    && lo <= x <= hi
    && (f(x - TOLERANCE) <= y || (x == lo && y <= f(lo)))
    && (y <= f(x + TOLERANCE) || (x == hi && f(hi) <= y))
  }

  /** The lower end L of a bracket is acceptable as an answer, or lies below the crossing. */
  ghost predicate LowEnd(f: real -> real, y: real, lo: real, L: real) {
    f(L - TOLERANCE) <= y || (L == lo && y <= f(lo)) || f(L) <= y
  }

  ghost predicate HighEnd(f: real -> real, y: real, hi: real, R: real) {
    y <= f(R + TOLERANCE) || (R == hi && f(hi) <= y) || y <= f(R)
  }

  lemma LeafBracket(f: real -> real, y: real, lo: real, hi: real, L: real, R: real, r: real)
    requires Increasing(f)
    requires lo <= L <= r <= R <= hi && R - L <= TOLERANCE
    requires LowEnd(f, y, lo, L) && HighEnd(f, y, hi, R)
    requires (r == L && y <= f(L)) || (r == R && y >= f(R)) || f(L) <= y <= f(R)
    requires r == L || f(L) <= y
    ensures Near(f, y, lo, hi, r)
  {
    assert f(L - TOLERANCE) < f(L);
    assert f(R) < f(R + TOLERANCE);
    assert r - TOLERANCE == L || f(r - TOLERANCE) < f(L);
    assert r + TOLERANCE == R || f(R) < f(r + TOLERANCE);
    assert f(r) < f(r + TOLERANCE);
  }

  lemma {:induction false} RootBracket(f: real -> real, y: real, lo: real, hi: real, L: real, R: real)
    requires Increasing(f)
    requires lo <= L <= R <= hi
    requires LowEnd(f, y, lo, L) && HighEnd(f, y, hi, R)
    ensures Near(f, y, lo, hi, Root(f, y, L, R))
    decreases (R - L).Floor
  {
    hide Between;
    var r := Root(f, y, L, R);
    RootInBounds(f, y, L, R);
    if R - L > 2.0 {
      var x := (L + R) / 2.0;
      if f(x) > y {
        RootBracket(f, y, lo, hi, L, x);
      } else if f(x) < y {
        RootBracket(f, y, lo, hi, x, R);
      } else {
        assert f(x - TOLERANCE) < f(x) < f(x + TOLERANCE);
      }
    } else {
      hide Near;
      LeafBracket(f, y, lo, hi, L, R, r);
    }
  }

  /** On the full range the answer is always near the root. */
  lemma RootNear(f: real -> real, y: real, lo: real, hi: real)
    requires Increasing(f) && lo <= hi
    ensures Near(f, y, lo, hi, Root(f, y, lo, hi))
  {
    RootBracket(f, y, lo, hi, lo, hi);
  }

  /** Narrowing the range to two approximate answers, for targets on either side, costs no accuracy:
      the answer is as near its root on the full range as a full search is. */
  lemma RootNarrowed(f: real -> real, lo: real, hi: real, y1: real, p1: real, y: real, y2: real, p2: real)
    requires Increasing(f)
    requires y1 <= y <= y2 && p1 <= p2
    requires Near(f, y1, lo, hi, p1) && Near(f, y2, lo, hi, p2)
    ensures p1 <= Root(f, y, p1, p2) <= p2
    ensures Near(f, y, lo, hi, Root(f, y, p1, p2))
  {
    RootInBounds(f, y, p1, p2);
    RootBracket(f, y, lo, hi, p1, p2);
  }

  /** What the answer is: it meets the target exactly, or it lies on the chord of the curve over a piece [a, b], no
      wider than 2, of the range halved n times, between whose ends the target is crossed. */
  lemma {:induction false} RootOnChord(f: real -> real, y: real, L: real, R: real) returns (a: real, b: real, n: nat)
    requires L <= R
    ensures L <= a <= b <= R && R - L == Scale(Pow(2.0, n), b - a)
    ensures (a == L || f(a) < y) && (b == R || f(b) > y)
    ensures var x := Root(f, y, L, R);
            f(x) == y
            || (b - a <= 2.0 && (n > 0 ==> b - a > 1.0)
                && (if y <= f(a) then x == a
                    else if y >= f(b) then x == b
                    else Scale(x - a, f(b) - f(a)) == Scale(y - f(a), b - a)))
    decreases (R - L).Floor
  {
    if R - L > 2.0 {
      var x := (L + R) / 2.0;
      if f(x) > y {
        a, b, n := RootOnChord(f, y, L, x);
        n := n + 1;
      } else if f(x) < y {
        a, b, n := RootOnChord(f, y, x, R);
        n := n + 1;
      } else {
        a, b, n := L, R, 0;
      }
    } else {
      a, b, n := L, R, 0;
      if f(L) < y < f(R) { OnChord(L, R, y, f(L), f(R)); }
    }
  }

  lemma OnChord(a: real, b: real, y: real, ya: real, yb: real)
    requires ya < yb
    ensures Scale(Between(a, b, (y - ya) / (yb - ya)) - a, yb - ya) == Scale(y - ya, b - a)
  {
    var ratio := (y - ya) / (yb - ya);
    assert ratio * (yb - ya) == y - ya;
    assert Between(a, b, ratio) - a == (b - a) * ratio;
    assert ((b - a) * ratio) * (yb - ya) == (b - a) * (ratio * (yb - ya));
  }

  method Solve(tanh: real -> real, terms: seq<Term>, yTg: real, linFactor: real, lo: real, hi: real) returns (x: real)
    ensures x == Root(Curve(tanh, terms, linFactor), yTg, lo, hi)
  {
    var f := Curve(tanh, terms, linFactor);
    var L, R := lo, hi;
    var Ly: Option<real>, Ry: Option<real> := None, None;
    while R - L > 2.0
      invariant Ly.Some? ==> Ly.value == f(L)
      invariant Ry.Some? ==> Ry.value == f(R)
      invariant Root(f, yTg, L, R) == Root(f, yTg, lo, hi)
      decreases (R - L).Floor
    {
      x := (L + R) / 2.0;
      var y := f(x);
      if y > yTg {
        R, Ry := x, Some(y);
      } else if y < yTg {
        L, Ly := x, Some(y);
      } else {
        return x;
      }
    }
    if Ly.None? {
      Ly := Some(f(L));
    }
    if yTg <= Ly.value {
      return L;
    }
    if Ry.None? {
      Ry := Some(f(R));
    }
    if yTg >= Ry.value {
      return R;
    }
    var ratio := (yTg - Ly.value) / (Ry.value - Ly.value);
    return Between(L, R, ratio);
  }
}
