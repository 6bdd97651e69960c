/** What is stored and scored in terms of what the judge reported (judge/bridge/judge_handler.py, `on_test_case` and
    `on_grading_end`). */
module ReportedCases {
  import opened Prelude
  import opened RealFacts
  import opened Grading

  /** The verdict by flags: 4 TLE, 8 MLE, 64 OLE, 2 RTE, 16 IR, 1 WA, 32 SC, the first in this order; AC without any. */
  predicate VerdictFits(status: nat, v: Verdict) {
    && (v == TLE <==> Bit(status, 4))
    && (v == MLE <==> Bit(status, 8) && !Bit(status, 4))
    && (v == OLE <==> Bit(status, 64) && !Bit(status, 4) && !Bit(status, 8))
    && (v == RTE <==> Bit(status, 2) && !Bit(status, 4) && !Bit(status, 8) && !Bit(status, 64))
    && (v == IR <==> Bit(status, 16) && !Bit(status, 4) && !Bit(status, 8) && !Bit(status, 64) && !Bit(status, 2))
    && (v == WA <==> Bit(status, 1) && !Bit(status, 4) && !Bit(status, 8) && !Bit(status, 64) && !Bit(status, 2)
                     && !Bit(status, 16))
    && (v == AC <==> !Bit(status, 4) && !Bit(status, 8) && !Bit(status, 64) && !Bit(status, 2) && !Bit(status, 16)
                     && !Bit(status, 1) && !Bit(status, 32))
  }

  /** The flags are the binary digits of the status. */
  lemma BitsAddUp(status: nat)
    ensures status % 128 == Digit(status, 64) + Digit(status, 32) + Digit(status, 16) + Digit(status, 8)
                            + Digit(status, 4) + Digit(status, 2) + Digit(status, 1)
  {
    LowDigits(status);
    Digit8(status);
    Digit16(status);
    Digit32(status);
    Digit64(status);
  }

  lemma LowDigits(s: nat)
    ensures s % 2 == Digit(s, 1) && s % 4 == s % 2 + Digit(s, 2) && s % 8 == s % 4 + Digit(s, 4)
  {}

  lemma Digit8(s: nat)
    ensures s % 16 == s % 8 + Digit(s, 8)
  {}

  lemma Digit16(s: nat)
    ensures s % 32 == s % 16 + Digit(s, 16)
  {}

  lemma Digit32(s: nat)
    ensures s % 64 == s % 32 + Digit(s, 32)
  {}

  lemma Digit64(s: nat)
    ensures s % 128 == s % 64 + Digit(s, 64)
  {}

  /** The flag's weight if it is set. */
  function Digit(status: nat, weight: nat): nat
    requires weight > 0
  {
    if Bit(status, weight) then weight else 0
  }

  lemma VerdictIs(status: nat)
    ensures VerdictFits(status, VerdictOf(status))
  {
    hide Bit;
  }

  /** The results reported for `sub` in packets b to k, in order. */
  function Results(ps: seq<Packet>, sub: int, b: nat, k: nat): seq<CaseResult>
    requires b <= k <= |ps|
    decreases k - b
  {
    if k == b then []
    else Results(ps, sub, b, k - 1) + (if ps[k - 1].TestCases? && ps[k - 1].sub == sub then ps[k - 1].results else [])
  }

  /** c stores what r reports. */
  predicate Stores(c: Case, r: CaseResult) {
    && c.position == r.position && c.time == r.time && c.memory == r.memory
    && c.points == r.points && c.total == r.total
    && VerdictFits(r.status, c.verdict)
  }

  lemma CaseStores(r: CaseResult, number: Option<nat>)
    ensures Stores(CaseOf(r, number), r) && CaseOf(r, number).batch == number
  {
    hide VerdictFits, VerdictOf;
    VerdictIs(r.status);
  }

  predicate AllStore(cs: seq<Case>, rs: seq<CaseResult>) {
    |cs| == |rs| && forall i :: 0 <= i < |cs| ==> Stores(cs[i], rs[i])
  }

  lemma {:induction false} GatheredStores(ps: seq<Packet>, sub: int, b: nat, k: nat)
    requires b <= k <= |ps|
    ensures AllStore(Gathered(ps, sub, b, k), Results(ps, sub, b, k))
    decreases k - b
  {
    hide After, Stores, CaseOf;
    if b < k {
      GatheredStores(ps, sub, b, k - 1);
      var p := ps[k - 1];
      if p.TestCases? && p.sub == sub {
        forall i | 0 <= i < |p.results| ensures Stores(CaseOf(p.results[i], After(ps, k - 1).Label()), p.results[i]) {
          CaseStores(p.results[i], After(ps, k - 1).Label());
        }
      }
    }
  }

  /** What is stored for a submission when its grading ends: one case for each result reported since its last
      grading-begin, in order, with the reported position, time, memory, points and total, and the verdict of the
      reported flags. */
  lemma StoredAsReported(rows: Rows, ps: seq<Packet>, sub: int, b: nat, k: nat)
    requires b < k <= |ps| && ps[b] == GradingBegin(sub) && sub in rows
    requires forall i :: b < i < k ==> ps[i] != GradingBegin(sub)
    ensures sub in RowsAfter(rows, ps, k) && AllStore(RowsAfter(rows, ps, k)[sub], Results(ps, sub, b, k))
  {
    hide RowsAfter, Gathered, AllStore;
    StoredCases(rows, ps, sub, b, k);
    GatheredStores(ps, sub, b, k);
  }

  // ---- without batches ----

  function PointsOfAll(rs: seq<CaseResult>): (r: seq<real>)
    ensures |r| == |rs|
  {
    seq(|rs|, i requires 0 <= i < |rs| => rs[i].points)
  }

  function TotalsOfAll(rs: seq<CaseResult>): (r: seq<real>)
    ensures |r| == |rs|
  {
    seq(|rs|, i requires 0 <= i < |rs| => rs[i].total)
  }

  function TimesOfAll(rs: seq<CaseResult>): (r: seq<real>)
    ensures |r| == |rs|
  {
    seq(|rs|, i requires 0 <= i < |rs| => rs[i].time)
  }

  lemma {:induction false} SumsOfStored(cs: seq<Case>, rs: seq<CaseResult>)
    requires AllStore(cs, rs)
    ensures Total(cs, TimeOf) == Sum(TimesOfAll(rs))
    ensures Total(cs, PointsOf) == Sum(PointsOfAll(rs)) && Total(cs, TotalOf) == Sum(TotalsOfAll(rs))
  {
    hide VerdictFits;
    if cs != [] {
      var n := |rs| - 1;
      SumsOfStored(Init(cs), rs[..n]);
      assert PointsOfAll(rs)[..n] == PointsOfAll(rs[..n]);
      assert TotalsOfAll(rs)[..n] == TotalsOfAll(rs[..n]);
      assert TimesOfAll(rs)[..n] == TimesOfAll(rs[..n]);
    }
  }

  lemma {:induction false} UnbatchedIsTotal(cs: seq<Case>, val: Measure)
    requires forall c :: c in cs ==> c.batch.None?
    ensures Unbatched(cs, val) == Total(cs, val)
  {
    if cs != [] {
      assert Last(cs) in cs;
      forall c | c in Init(cs) ensures c in cs {}
      UnbatchedIsTotal(Init(cs), val);
    }
  }

  lemma {:induction false} GatheredOutside(ps: seq<Packet>, sub: int, b: nat, k: nat)
    requires b <= k <= |ps|
    requires forall i :: b <= i < k && ps[i].TestCases? ==> !InBatch(ps, i)
    ensures forall c :: c in Gathered(ps, sub, b, k) ==> c.batch.None?
    decreases k - b
  {
    hide After, InBatch;
    if b < k {
      GatheredOutside(ps, sub, b, k - 1);
      LabelledInBatch(ps, k - 1);
    }
  }

  /** A grading without batches: points, total and time are the sums of what was reported. */
  lemma UnbatchedGrading(rows: Rows, ps: seq<Packet>, sub: int, b: nat, k: nat, t: Tally)
    requires b < k <= |ps| && ps[b] == GradingBegin(sub) && sub in rows
    requires forall i :: b < i < k ==> ps[i] != GradingBegin(sub)
    requires forall i :: b <= i < k && ps[i].TestCases? ==> !InBatch(ps, i)
    requires sub in RowsAfter(rows, ps, k) && AddsUp(RowsAfter(rows, ps, k)[sub], t)
    ensures var rs := Results(ps, sub, b, k);
            t.points == Sum(PointsOfAll(rs)) && t.total == Sum(TotalsOfAll(rs)) && t.time == Sum(TimesOfAll(rs))
  {
    hide RowsAfter, Gathered, AllStore, InBatch, Sum, Total, Unbatched, IsPeak, SumMap, Results;
    StoredCases(rows, ps, sub, b, k);
    GatheredStores(ps, sub, b, k);
    var cs := Gathered(ps, sub, b, k);
    SumsOfStored(cs, Results(ps, sub, b, k));
    GatheredOutside(ps, sub, b, k);
    UnbatchedIsTotal(cs, PointsOf);
    UnbatchedIsTotal(cs, TotalOf);
    NoBatches(cs, t);
  }

  lemma NoBatches(cs: seq<Case>, t: Tally)
    requires AddsUp(cs, t) && forall c :: c in cs ==> c.batch.None?
    ensures t.points == Unbatched(cs, PointsOf) && t.total == Unbatched(cs, TotalOf)
  {
    hide Unbatched, Total, IsPeak, SumMap;
    var l, g :| Summarizes(cs, l, g)
      && t.points == Unbatched(cs, PointsOf) + SumMap(l) && t.total == Unbatched(cs, TotalOf) + SumMap(g);
    forall i | 0 <= i < |cs| ensures cs[i].batch.None? { assert cs[i] in cs; }
    assert l.Keys == {} && g.Keys == {};
    assert l == map[] && g == map[];
    SumNothing();
  }

  // ---- rounding ----

  /** Points and total are stored to the nearest tenth, and with partial credit the score is the problem's points in
      their proportion, to the nearest thousandth; a submission without points to make gets none. */
  lemma ScoreIs(t: Tally, worth: real, partial: bool)
    ensures var g := Score(t, worth, partial);
            && -0.05 <= g.casePoints - t.points <= 0.05 && -0.05 <= g.caseTotal - t.total <= 0.05
            && (g.caseTotal <= 0.0 ==> g.points == 0.0 || (g.points == worth && worth == 0.0))
            && (g.caseTotal > 0.0 && partial ==>
                  -0.0005 <= g.points - g.casePoints / g.caseTotal * worth <= 0.0005)
            && (!partial ==> g.points == 0.0 || g.points == worth)
  {
    hide RoundTo;
    var points, total := RoundTo(t.points, 10.0), RoundTo(t.total, 10.0);
    RoundToNear(t.points, 10.0);
    RoundToNear(t.total, 10.0);
    RoundToNear(Share(points, total, worth), 1000.0);
    RoundToZero(1000.0);
  }

  lemma RoundToNear(x: real, unit: real)
    requires unit == 10.0 || unit == 1000.0
    ensures -0.5 <= (RoundTo(x, unit) - x) * unit <= 0.5
  {
    var r := RoundHalfEven(x * unit);
    assert -0.5 <= r as real - x * unit <= 0.5;
    assert RoundTo(x, unit) * unit == r as real;
  }

  ghost predicate Has(cs: seq<Case>, v: Verdict) {
    exists c :: c in cs && c.verdict == v
  }

  /** The submission's verdict, from the most severe down: OLE if any case has it, else RTE, IR, TLE, MLE, WA, AC, and
      SC only if nothing else occurred. */
  lemma VerdictAmong(cs: seq<Case>, t: Tally, worth: real, partial: bool)
    requires AddsUp(cs, t)
    ensures Score(t, worth, partial).result
         == if Has(cs, OLE) then OLE else if Has(cs, RTE) then RTE else if Has(cs, IR) then IR
            else if Has(cs, TLE) then TLE else if Has(cs, MLE) then MLE else if Has(cs, WA) then WA
            else if Has(cs, AC) then AC else SC
  {
    hide AddsUp, Score;
    WorstVerdict(cs, t, worth, partial);
    var v := Score(t, worth, partial).result;
    if cs != [] {
      assert Has(cs, v);
      forall u | Has(cs, u) ensures u.Severity() <= v.Severity() {}
    }
  }
}
