/** Order facts about products and quotients of reals, used one at a time, and rounding. */
module RealFacts {

  function Min(a: real, b: real): real { if a <= b then a else b }
  function Max(a: real, b: real): real { if a <= b then b else a }

  /** A product as a function, so that proofs can leave it folded. */
  function Scale(a: real, x: real): real {
    a * x
  }

  function Pow(q: real, t: nat): real {
    if t == 0 then 1.0 else q * Pow(q, t - 1)
  }

  function Sum(s: seq<real>): real {
    if s == [] then 0.0 else Sum(s[..|s| - 1]) + s[|s| - 1]
  }

  lemma MulPos(a: real, b: real)
    requires a > 0.0 && b > 0.0
    ensures a * b > 0.0
  {}

  lemma MulNonNeg(a: real, b: real)
    requires a >= 0.0 && b >= 0.0
    ensures a * b >= 0.0
  {}

  lemma MulMono(a: real, b: real, c: real)
    requires a >= 0.0 && b <= c
    ensures a * b <= a * c
  {
    MulNonNeg(a, c - b);
    assert a * (c - b) == a * c - a * b;
  }

  lemma MulStrict(a: real, b: real, c: real)
    requires a > 0.0 && b < c
    ensures a * b < a * c
  {
    MulPos(a, c - b);
    assert a * (c - b) == a * c - a * b;
  }

  lemma DivTimes(a: real, d: real)
    requires d != 0.0
    ensures a / d * d == a
  {}

  lemma DivIsMul(a: real, d: real)
    requires d != 0.0
    ensures a / d == a * (1.0 / d)
  {}

  lemma DivPos(a: real, d: real)
    requires a > 0.0 && d > 0.0
    ensures a / d > 0.0
  {}

  lemma DivStrict(a: real, b: real, d: real)
    requires d > 0.0 && a < b
    ensures a / d < b / d
  {
    DivPos(b - a, d);
    assert (b - a) / d == b / d - a / d;
  }

  lemma DivMono(a: real, b: real, d: real)
    requires d > 0.0 && a <= b
    ensures a / d <= b / d
  {
    if a < b { DivStrict(a, b, d); }
  }

  /** Dividing by something larger gives something smaller. */
  lemma DivAnti(a: real, d: real, e: real)
    requires a >= 0.0 && 0.0 < d <= e
    ensures 0.0 <= a / e <= a / d
  {
    DivTimes(a, d);
    DivTimes(a, e);
    var p, q := a / d, a / e;
    if q < 0.0 {
      MulPos(e, -q);
    }
    if q > p {
      MulMono(q, d, e);
      MulStrict(d, p, q);
    }
  }

  /** If a <= x d then a / d <= x, and likewise for >= and the strict orders. */
  lemma DivBound(a: real, d: real, x: real)
    requires d > 0.0
    ensures a <= x * d <==> a / d <= x
    ensures a >= x * d <==> a / d >= x
  {
    DivTimes(a, d);
    var q := a / d;
    if q < x { MulStrict(d, q, x); }
    if q > x { MulStrict(d, x, q); }
  }

  lemma SquareStrict(a: real, b: real)
    requires 0.0 <= a < b
    ensures a * a < b * b
  {
    MulPos(b - a, b + a);
    assert (b - a) * (b + a) == b * b - a * a;
  }

  /** Python's `round` to an integer: to the nearest, halves to even. */
  function RoundHalfEven(x: real): int {
    var f := x.Floor;
    var d := x - f as real;
    if d < 0.5 then f else if d > 0.5 then f + 1 else if f % 2 == 0 then f else f + 1
  }

  lemma RoundMonotone(x: real, y: real)
    requires x <= y
    ensures RoundHalfEven(x) <= RoundHalfEven(y)
  {}

  /** `round` to a multiple of 1 / unit. */
  function RoundTo(x: real, unit: real): real
    requires unit > 0.0
  {
    RoundHalfEven(x * unit) as real / unit
  }

  lemma RoundToMonotone(x: real, y: real, unit: real)
    requires unit > 0.0 && x <= y
    ensures RoundTo(x, unit) <= RoundTo(y, unit)
  {
    MulMono(unit, x, y);
    assert x * unit == unit * x && y * unit == unit * y;
    RoundMonotone(x * unit, y * unit);
    DivMono(RoundHalfEven(x * unit) as real, RoundHalfEven(y * unit) as real, unit);
  }

  lemma RoundToZero(unit: real)
    requires unit > 0.0
    ensures RoundTo(0.0, unit) == 0.0
  {}
}
