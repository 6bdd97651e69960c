/** The equation whose solution is a player's new mean, for any weighted terms and any positive prior weight. */
module MeanEquation {
  import opened RealFacts
  import opened Solver


  /** The prior's centre p0. */
  function Center(tanh: real -> real, terms: seq<Term>, w0: real, oldMean: real): real
    requires terms != [] && w0 > 0.0
  {
    EvalTanhs(tanh, terms[1..], oldMean) / w0 + oldMean
  }

  function Goal(tanh: real -> real, terms: seq<Term>, w0: real, oldMean: real): real
    requires terms != [] && w0 > 0.0
  {
    Scale(w0, Center(tanh, terms, w0, oldMean))
  }

  function Solution(tanh: real -> real, terms: seq<Term>, w0: real, oldMean: real, lo: real, hi: real): real
    requires terms != [] && w0 > 0.0
  {
    Root(Curve(tanh, terms, w0), Goal(tanh, terms, w0, oldMean), lo, hi)
  }

  lemma SplitProduct(w: real, e: real, m: real)
    requires w > 0.0
    ensures w * (e / w + m) == w * m + e
  {}

  lemma ScaleStrict(w: real, x: real, y: real)
    requires w > 0.0 && x < y
    ensures Scale(w, x) < Scale(w, y)
  {
    MulStrict(w, x, y);
  }

  /** The two sides of the equation, with this contest's term set apart. */
  lemma Sides(tanh: real -> real, terms: seq<Term>, w0: real, oldMean: real, x: real)
    requires terms != [] && w0 > 0.0
    ensures Goal(tanh, terms, w0, oldMean) == Scale(w0, oldMean) + EvalTanhs(tanh, terms[1..], oldMean)
    ensures Curve(tanh, terms, w0)(x) == Scale(w0, x) + (TermAt(tanh, terms[0], x) + EvalTanhs(tanh, terms[1..], x))
  {
    hide TermAt;
    SplitProduct(w0, EvalTanhs(tanh, terms[1..], oldMean), oldMean);
  }

  /** A term is zero at its centre and has the sign of the offset from it. */
  lemma TermSign(tanh: real -> real, t: Term, x: real)
    requires IsTanh(tanh)
    ensures x >= t.mu ==> TermAt(tanh, t, x) >= 0.0
    ensures x <= t.mu ==> TermAt(tanh, t, x) <= 0.0
  {
    hide TermAt;
    TermZero(tanh, t);
    if x > t.mu { TermIncreasing(tanh, t, t.mu, x); }
    if x < t.mu { TermIncreasing(tanh, t, x, t.mu); }
  }

  lemma TermZero(tanh: real -> real, t: Term)
    requires IsTanh(tanh)
    ensures TermAt(tanh, t, t.mu) == 0.0
  {
    assert tanh(-0.0) == -tanh(0.0);
    assert (t.mu - t.mu) / (2.0 * t.sd) == 0.0;
  }

  /** The old mean and this contest's performance bracket the target. */
  lemma Bracketed(tanh: real -> real, terms: seq<Term>, w0: real, oldMean: real)
    requires IsTanh(tanh) && terms != [] && w0 > 0.0
    ensures var f, y, p := Curve(tanh, terms, w0), Goal(tanh, terms, w0, oldMean), terms[0].mu;
            f(Min(oldMean, p)) <= y <= f(Max(oldMean, p))
  {
    hide TermAt, Curve, Goal, EvalTanhs, Scale, IsTanh;
    var p := terms[0].mu;
    Sides(tanh, terms, w0, oldMean, oldMean);
    Sides(tanh, terms, w0, oldMean, p);
    TermSign(tanh, terms[0], oldMean);
    TermSign(tanh, terms[0], p);
    if oldMean < p {
      ScaleStrict(w0, oldMean, p);
      EvalTanhsIncreasing(tanh, terms[1..], oldMean, p);
    } else if p < oldMean {
      ScaleStrict(w0, p, oldMean);
      EvalTanhsIncreasing(tanh, terms[1..], p, oldMean);
    }
  }

  /** A near-root of an equation whose target is bracketed by a and b lies between them, up to the tolerance. */
  lemma NearBetween(f: real -> real, y: real, lo: real, hi: real, a: real, b: real, x: real)
    requires Increasing(f) && Near(f, y, lo, hi, x)
    requires f(a) <= y <= f(b) && a <= b
    requires lo <= b && a <= hi
    ensures a - TOLERANCE <= x <= b + TOLERANCE
  {
  }

  lemma SolutionBetween(tanh: real -> real, terms: seq<Term>, w0: real, oldMean: real, lo: real, hi: real)
    requires IsTanh(tanh) && terms != [] && w0 > 0.0
    requires lo <= terms[0].mu <= hi
    ensures Min(oldMean, terms[0].mu) - TOLERANCE
            <= Solution(tanh, terms, w0, oldMean, lo, hi)
            <= Max(oldMean, terms[0].mu) + TOLERANCE
  {
    hide Root, Curve, Goal, Near;
    Bracketed(tanh, terms, w0, oldMean);
    CurveIncreasing(tanh, terms, w0);
    var f, y := Curve(tanh, terms, w0), Goal(tanh, terms, w0, oldMean);
    RootNear(f, y, lo, hi);
    NearBetween(f, y, lo, hi, Min(oldMean, terms[0].mu), Max(oldMean, terms[0].mu), Root(f, y, lo, hi));
  }

  lemma TermMovesDown(tanh: real -> real, t: Term, u: Term, x: real)
    requires IsTanh(tanh)
    requires t.sd == u.sd && t.wt == u.wt && t.mu <= u.mu
    ensures TermAt(tanh, u, x) <= TermAt(tanh, t, x)
  {
    DivMono(x - u.mu, x - t.mu, 2.0 * t.sd);
    DivPos(t.wt, t.sd);
    MulMono(t.wt / t.sd, tanh((x - u.mu) / (2.0 * t.sd)), tanh((x - t.mu) / (2.0 * t.sd)));
  }

  /** Raising this contest's performance never lowers the solution: exactly, with no tolerance. */
  lemma SolutionMonotone(tanh: real -> real, t: Term, u: Term, rest: seq<Term>, w0: real, oldMean: real, lo: real,
                         hi: real)
    requires IsTanh(tanh) && w0 > 0.0 && lo <= hi
    requires t.sd == u.sd && t.wt == u.wt && t.mu <= u.mu
    ensures Solution(tanh, [t] + rest, w0, oldMean, lo, hi) <= Solution(tanh, [u] + rest, w0, oldMean, lo, hi)
  {
    hide Root, Curve, TermAt, EvalTanhs, Goal, Scale;
    var a, b := [t] + rest, [u] + rest;
    assert a[1..] == rest && b[1..] == rest;
    var f, g := Curve(tanh, a, w0), Curve(tanh, b, w0);
    forall x ensures g(x) <= f(x) {
      Sides(tanh, a, w0, oldMean, x);
      Sides(tanh, b, w0, oldMean, x);
      TermMovesDown(tanh, t, u, x);
    }
    Sides(tanh, a, w0, oldMean, oldMean);
    Sides(tanh, b, w0, oldMean, oldMean);
    RootAntitone(f, g, Goal(tanh, a, w0, oldMean), lo, hi);
  }
}
