/** ICPC and AtCoder standings computed from a participation's submissions
    (judge/contest_format/icpc.py and judge/contest_format/atcoder.py, `update_participation`). */
module Standings {
  import opened Prelude
  import opened RealFacts

  datatype Result = NoResult | IE | CE | Judged

  /** A contest submission: when it was made and the points it was given. */
  datatype Submission = Submission(problem: int, points: real, date: real, result: Result)

  /** Everything `update_participation` reads. */
  datatype Contest = Contest(subs: seq<Submission>, start: real, penalty: int)

  predicate Counts(s: Submission) { s.result.Judged? }

  // ---- the query, per problem ----

  /** The most points on a problem. */
  function Best(subs: seq<Submission>, p: int): Option<real> {
    if subs == [] then None
    else
      var b, s := Best(Init(subs), p), Last(subs);
      if s.problem == p && (b.None? || s.points > b.value) then Some(s.points) else b
  }

  /** When points v were first reached on a problem. */
  function First(subs: seq<Submission>, p: int, v: real): Option<real> {
    if subs == [] then None
    else
      var f, s := First(Init(subs), p, v), Last(subs);
      if s.problem == p && s.points == v && (f.None? || s.date < f.value) then Some(s.date) else f
  }

  /** How many judged submissions to a problem were made up to time t. */
  function Tries(subs: seq<Submission>, p: int, t: Option<real>): nat {
    if subs == [] then 0
    else
      var s := Last(subs);
      Tries(Init(subs), p, t) + (if s.problem == p && Counts(s) && (t.Some? ==> s.date <= t.value) then 1 else 0)
  }

  /** Best is the greatest, and First the earliest time it was reached. */
  lemma {:induction false} BestAndFirst(subs: seq<Submission>, p: int)
    ensures Best(subs, p).Some? <==> exists s :: s in subs && s.problem == p
    ensures forall s :: s in subs && s.problem == p ==> s.points <= Best(subs, p).value
    ensures Best(subs, p).Some? ==>
              var v := Best(subs, p).value;
              && First(subs, p, v).Some?
              && (exists s :: s in subs && s.problem == p && s.points == v && s.date == First(subs, p, v).value)
              && (forall s :: s in subs && s.problem == p && s.points == v ==> First(subs, p, v).value <= s.date)
  {
    if subs != [] {
      BestAndFirst(Init(subs), p);
      assert forall s :: s in subs <==> s in Init(subs) || s == Last(subs) by {
        assert subs == Init(subs) + [Last(subs)];
      }
      if Best(subs, p).Some? { FirstIs(subs, p, Best(subs, p).value); }
    }
  }

  lemma {:induction false} FirstIs(subs: seq<Submission>, p: int, v: real)
    ensures First(subs, p, v).Some? <==> exists s :: s in subs && s.problem == p && s.points == v
    ensures First(subs, p, v).Some? ==>
              && (exists s :: s in subs && s.problem == p && s.points == v && s.date == First(subs, p, v).value)
              && (forall s :: s in subs && s.problem == p && s.points == v ==> First(subs, p, v).value <= s.date)
  {
    if subs != [] {
      FirstIs(Init(subs), p, v);
      assert forall s :: s in subs <==> s in Init(subs) || s == Last(subs) by {
        assert subs == Init(subs) + [Last(subs)];
      }
    }
  }

  /** The rows of the query: each problem with a submission, once, in any order. */
  ghost predicate Lists(subs: seq<Submission>, probs: seq<int>) {
    && (forall i, j :: 0 <= i < j < |probs| ==> probs[i] != probs[j])
    && (forall p :: p in probs <==> Best(subs, p).Some?)
  }

  // ---- what a problem contributes ----

  function Points(c: Contest, p: int): real {
    if Best(c.subs, p).Some? then Best(c.subs, p).value else 0.0
  }

  /** The problem gives points at all. */
  predicate Solved(c: Contest, p: int) { Points(c, p) != 0.0 }

  /** Seconds from the start to the first best submission. */
  function Time(c: Contest, p: int): real {
    var f := First(c.subs, p, Points(c, p));
    if f.Some? then f.value - c.start else 0.0
  }

  /** Earlier judged submissions (all of them when the problem gives no points), or none without a penalty. */
  function Wrong(c: Contest, p: int): int {
    if c.penalty == 0 then 0
    else if Solved(c, p) then Tries(c.subs, p, First(c.subs, p, Points(c, p))) - 1
    else Tries(c.subs, p, None)
  }

  datatype Measure = ScoreOf | TimeOf | PenaltyOf

  function Value(c: Contest, p: int, m: Measure): real {
    match m
    case ScoreOf => Points(c, p)
    case TimeOf => if Solved(c, p) then Time(c, p) else 0.0
    case PenaltyOf => if Solved(c, p) then (Wrong(c, p) * c.penalty * 60) as real else 0.0
  }

  function SumOver(c: Contest, probs: seq<int>, m: Measure): real {
    if probs == [] then 0.0 else SumOver(c, probs[..|probs| - 1], m) + Value(c, probs[|probs| - 1], m)
  }

  /** The time of the last solved problem, at least 0. */
  function Latest(c: Contest, probs: seq<int>): real {
    if probs == [] then 0.0 else Max(Latest(c, probs[..|probs| - 1]), Value(c, probs[|probs| - 1], TimeOf))
  }

  datatype Format = ICPC | AtCoder

  /** Score (before rounding), cumulative time and tie-breaker. */
  datatype Standing = Standing(score: real, cumtime: real, tiebreaker: real)

  function StandingOf(f: Format, c: Contest, probs: seq<int>): Standing {
    match f
    case ICPC =>
      Standing(SumOver(c, probs, ScoreOf), SumOver(c, probs, TimeOf) + SumOver(c, probs, PenaltyOf), Latest(c, probs))
    case AtCoder => Standing(SumOver(c, probs, ScoreOf), Latest(c, probs) + SumOver(c, probs, PenaltyOf), 0.0)
  }

  // ---- the order of the rows does not matter ----

  lemma {:induction false} SumTake(c: Contest, probs: seq<int>, i: nat, m: Measure)
    requires i < |probs|
    ensures SumOver(c, probs, m) == SumOver(c, probs[..i] + probs[i + 1..], m) + Value(c, probs[i], m)
    decreases |probs|
  {
    hide Value;
    var n := |probs| - 1;
    var rest := probs[..i] + probs[i + 1..];
    if i == n {
      assert rest == probs[..n];
    } else {
      SumTake(c, probs[..n], i, m);
      assert rest[..|rest| - 1] == probs[..n][..i] + probs[..n][i + 1..];
      assert rest[|rest| - 1] == probs[n];
    }
  }

  lemma {:induction false} SumReordered(c: Contest, a: seq<int>, b: seq<int>, m: Measure)
    requires forall i, j :: 0 <= i < j < |a| ==> a[i] != a[j]
    requires forall i, j :: 0 <= i < j < |b| ==> b[i] != b[j]
    requires forall p :: p in a <==> p in b
    ensures SumOver(c, a, m) == SumOver(c, b, m)
    decreases |a|
  {
    hide Value, SumOver;
    if a != [] || b != [] {
      var x := if a != [] then a[0] else b[0];
      assert x in a && x in b;
      var i, k :| 0 <= i < |a| && a[i] == x && 0 <= k < |b| && b[k] == x;
      Without(a, i);
      Without(b, k);
      SumReordered(c, a[..i] + a[i + 1..], b[..k] + b[k + 1..], m);
      SumTake(c, a, i, m);
      SumTake(c, b, k, m);
    }
  }

  lemma Without(a: seq<int>, i: nat)
    requires i < |a|
    requires forall j, k :: 0 <= j < k < |a| ==> a[j] != a[k]
    ensures var r := a[..i] + a[i + 1..];
            && (forall j, k :: 0 <= j < k < |r| ==> r[j] != r[k])
            && (forall p :: p in r <==> p in a && p != a[i])
  {
    assert a == a[..i] + [a[i]] + a[i + 1..];
  }

  lemma {:induction false} LatestIs(c: Contest, probs: seq<int>)
    ensures Latest(c, probs) >= 0.0
    ensures forall p :: p in probs ==> Value(c, p, TimeOf) <= Latest(c, probs)
    ensures Latest(c, probs) == 0.0 || exists p :: p in probs && Value(c, p, TimeOf) == Latest(c, probs)
  {
    hide Value;
    if probs != [] {
      var n := |probs| - 1;
      LatestIs(c, probs[..n]);
      assert probs == probs[..n] + [probs[n]];
    }
  }

  lemma LatestReordered(c: Contest, a: seq<int>, b: seq<int>)
    requires forall p :: p in a <==> p in b
    ensures Latest(c, a) == Latest(c, b)
  {
    hide Value, Latest;
    LatestIs(c, a);
    LatestIs(c, b);
  }

  /** The standing does not depend on the order in which the problems are read. */
  lemma Reordered(f: Format, c: Contest, a: seq<int>, b: seq<int>)
    requires Lists(c.subs, a) && Lists(c.subs, b)
    ensures StandingOf(f, c, a) == StandingOf(f, c, b)
  {
    hide SumOver, Latest;
    SumReordered(c, a, b, ScoreOf);
    SumReordered(c, a, b, TimeOf);
    SumReordered(c, a, b, PenaltyOf);
    LatestReordered(c, a, b);
  }

  // ---- a late submission ----

  /** s is made after everything in the history. */
  ghost predicate Late(c: Contest, s: Submission) {
    forall r :: r in c.subs ==> r.date < s.date
  }

  /** s scores no more than the problem's best so far, or nothing on a fresh problem. */
  predicate NoBetter(c: Contest, s: Submission) {
    if Best(c.subs, s.problem).Some? then s.points <= Best(c.subs, s.problem).value else s.points == 0.0
  }

  function With(c: Contest, s: Submission): Contest {
    c.(subs := c.subs + [s])
  }

  lemma {:induction false} TriesBefore(subs: seq<Submission>, s: Submission, p: int, t: Option<real>)
    ensures Init(subs + [s]) == subs && Last(subs + [s]) == s
    ensures t.Some? && t.value < s.date ==> Tries(subs + [s], p, t) == Tries(subs, p, t)
  {
    assert Init(subs + [s]) == subs;
  }

  /** On each problem read, a late submission that is no better contributes nothing new. */
  lemma LateValue(c: Contest, s: Submission, p: int, m: Measure)
    requires Late(c, s) && NoBetter(c, s)
    ensures Value(With(c, s), p, m) == Value(c, p, m)
  {
    var d := With(c, s);
    TriesBefore(c.subs, s, p, None);
    BestAndFirst(c.subs, p);
    assert Points(d, p) == Points(c, p);
    if Solved(c, p) {
      var v := Best(c.subs, p).value;
      var f := First(c.subs, p, v);
      assert First(d.subs, p, v) == f;
      TriesBefore(c.subs, s, p, f);
    }
  }

  lemma {:induction false} LateSums(c: Contest, s: Submission, probs: seq<int>, m: Measure)
    requires Late(c, s) && NoBetter(c, s)
    ensures SumOver(With(c, s), probs, m) == SumOver(c, probs, m)
    ensures Latest(With(c, s), probs) == Latest(c, probs)
  {
    hide Value, With, Late, NoBetter;
    if probs != [] {
      var n := |probs| - 1;
      LateSums(c, s, probs[..n], m);
      LateValue(c, s, probs[n], m);
      LateValue(c, s, probs[n], TimeOf);
    }
  }

  lemma ListsWith(c: Contest, s: Submission, probs: seq<int>)
    requires Lists(c.subs, probs)
    ensures Lists(With(c, s).subs, if s.problem in probs then probs else probs + [s.problem])
  {
    var subs := c.subs + [s];
    assert Init(subs) == c.subs;
    forall p ensures Best(subs, p).Some? <==> Best(c.subs, p).Some? || p == s.problem {}
  }

  /** A problem on which nothing was scored contributes nothing. */
  lemma NothingScored(c: Contest, p: int)
    requires Points(c, p) == 0.0
    ensures Value(c, p, ScoreOf) == 0.0 && Value(c, p, TimeOf) == 0.0 && Value(c, p, PenaltyOf) == 0.0
  {}

  lemma SnocStanding(f: Format, c: Contest, probs: seq<int>, p: int)
    requires Points(c, p) == 0.0
    ensures StandingOf(f, c, probs + [p]) == StandingOf(f, c, probs)
  {
    hide Value;
    NothingScored(c, p);
    assert (probs + [p])[..|probs|] == probs;
    LatestIs(c, probs);
  }

  lemma LateStanding(f: Format, c: Contest, s: Submission, probs: seq<int>, probs': seq<int>)
    requires Late(c, s) && NoBetter(c, s)
    requires Lists(c.subs, probs) && Lists(With(c, s).subs, probs')
    ensures StandingOf(f, With(c, s), probs') == StandingOf(f, c, probs)
  {
    hide SumOver, Latest, Late, Lists, With, Value;
    ListsWith(c, s, probs);
    var listed := if s.problem in probs then probs else probs + [s.problem];
    Reordered(f, With(c, s), probs', listed);
    LateSums(c, s, probs, ScoreOf);
    LateSums(c, s, probs, TimeOf);
    LateSums(c, s, probs, PenaltyOf);
    if s.problem !in probs {
      FreshNothing(c, s, probs);
      SnocStanding(f, With(c, s), probs, s.problem);
    }
  }

  lemma FreshNothing(c: Contest, s: Submission, probs: seq<int>)
    requires NoBetter(c, s) && Lists(c.subs, probs) && s.problem !in probs
    ensures Points(With(c, s), s.problem) == 0.0
  {
    assert Init(c.subs + [s]) == c.subs;
  }

  lemma BetterPoints(c: Contest, s: Submission)
    requires !NoBetter(c, s)
    ensures Value(With(c, s), s.problem, ScoreOf) != Value(c, s.problem, ScoreOf)
  {
    assert Init(c.subs + [s]) == c.subs;
  }

  lemma UnlistedNothing(c: Contest, probs: seq<int>, p: int)
    requires Lists(c.subs, probs) && p !in probs
    ensures Value(c, p, ScoreOf) == 0.0
  {}

  lemma ScoreIsSum(f: Format, c: Contest, probs: seq<int>)
    ensures StandingOf(f, c, probs).score == SumOver(c, probs, ScoreOf)
  {}

  lemma Elsewhere(subs: seq<Submission>, probs: seq<int>, k: nat)
    requires Lists(subs, probs) && k < |probs|
    ensures probs[k] !in probs[..k] + probs[k + 1..]
  {}

  /** A better submission raises or otherwise changes the score. */
  lemma BetterScore(f: Format, c: Contest, s: Submission, probs: seq<int>, probs': seq<int>)
    requires !NoBetter(c, s)
    requires Lists(c.subs, probs) && Lists(With(c, s).subs, probs')
    ensures StandingOf(f, With(c, s), probs').score != StandingOf(f, c, probs).score
  {
    hide Latest, StandingOf, Value, SumOver, Lists, NoBetter, With, Best;
    var d := With(c, s);
    ListsWith(c, s, probs);
    var listed := if s.problem in probs then probs else probs + [s.problem];
    Reordered(f, d, probs', listed);
    ScoreIsSum(f, c, probs);
    ScoreIsSum(f, d, listed);
    BetterPoints(c, s);
    var k := if s.problem in probs then IndexOf(probs, s.problem) else |probs|;
    var rest := listed[..k] + listed[k + 1..];
    SumTake(d, listed, k, ScoreOf);
    Elsewhere(d.subs, listed, k);
    SumAway(c, s, rest);
    if s.problem in probs {
      SumTake(c, probs, k, ScoreOf);
    } else {
      assert rest == probs;
      UnlistedNothing(c, probs, s.problem);
    }
  }

  function IndexOf(probs: seq<int>, p: int): (k: nat)
    requires p in probs
    ensures k < |probs| && probs[k] == p
  {
    if probs[0] == p then 0 else 1 + IndexOf(probs[1..], p)
  }

  lemma {:induction false} SumAway(c: Contest, s: Submission, probs: seq<int>)
    requires s.problem !in probs
    ensures SumOver(With(c, s), probs, ScoreOf) == SumOver(c, probs, ScoreOf)
  {
    if probs != [] {
      SumAway(c, s, probs[..|probs| - 1]);
      assert Init(c.subs + [s]) == c.subs;
      assert probs[|probs| - 1] in probs;
    }
  }

  /** Over every history: a submission later than all others leaves score, cumulative time and tie-breaker as they were
      exactly when it scores no more than the problem's best so far (or nothing on a fresh problem). */
  lemma LateSubmission(f: Format, c: Contest, s: Submission, probs: seq<int>, probs': seq<int>)
    requires Late(c, s)
    requires Lists(c.subs, probs) && Lists(With(c, s).subs, probs')
    ensures StandingOf(f, With(c, s), probs') == StandingOf(f, c, probs) <==> NoBetter(c, s)
  {
    hide StandingOf, Lists, Late, With;
    if NoBetter(c, s) {
      LateStanding(f, c, s, probs, probs');
    } else {
      BetterScore(f, c, s, probs, probs');
    }
  }

  // ---- the code ----

  datatype Cell = Cell(time: real, points: real, penalty: int)

  /** One cell per problem read. */
  function Cells(c: Contest, probs: seq<int>): map<int, Cell> {
    map p | p in probs :: Cell(Time(c, p), Points(c, p), Wrong(c, p))
  }

  /** What one more problem adds. */
  lemma OneMore(c: Contest, probs: seq<int>, k: nat)
    requires k < |probs|
    ensures forall m :: SumOver(c, probs[..k + 1], m) == SumOver(c, probs[..k], m) + Value(c, probs[k], m)
    ensures Latest(c, probs[..k + 1]) == Max(Latest(c, probs[..k]), Value(c, probs[k], TimeOf))
    ensures Latest(c, probs[..k]) >= 0.0
    ensures Cells(c, probs[..k + 1])
         == Cells(c, probs[..k])[probs[k] := Cell(Time(c, probs[k]), Points(c, probs[k]), Wrong(c, probs[k]))]
  {
    hide Value, Time, Points, Wrong;
    assert probs[..k + 1][..k] == probs[..k];
    LatestIs(c, probs[..k]);
  }

  lemma NoProblems(c: Contest)
    ensures forall m :: SumOver(c, [], m) == 0.0
    ensures Latest(c, []) == 0.0 && Cells(c, []) == map[]
  {}

  class Participation {
    var score: real
    var cumtime: real
    var tiebreaker: real
    var formatData: map<int, Cell>

    /** `unit` is 10 to the power of the contest's points precision. */
    method UpdateICPC(c: Contest, probs: seq<int>, unit: real)
      requires unit > 0.0
      modifies this
      ensures var st := StandingOf(ICPC, c, probs);
              score == RoundTo(st.score, unit) && cumtime == st.cumtime && tiebreaker == st.tiebreaker
      ensures formatData == Cells(c, probs)
    {
      hide Tries, First, Best, RoundTo, SumOver, Latest, Cells;
      NoProblems(c);
      var time, last, total := 0.0, 0.0, 0.0;
      var penalty := 0.0;
      var data: map<int, Cell> := map[];
      for k := 0 to |probs|
        invariant time == SumOver(c, probs[..k], TimeOf) && penalty == SumOver(c, probs[..k], PenaltyOf)
        invariant total == SumOver(c, probs[..k], ScoreOf) && last == Latest(c, probs[..k])
        invariant data == Cells(c, probs[..k])
      {
        OneMore(c, probs, k);
        var p := probs[k];
        var points, dt := Points(c, p), Time(c, p);
        var prev := 0;
        if c.penalty != 0 {
          if points != 0.0 {
            prev := Tries(c.subs, p, First(c.subs, p, points)) - 1;
            penalty := penalty + (prev * c.penalty * 60) as real;
          } else {
            prev := Tries(c.subs, p, None);
          }
        }
        if points != 0.0 {
          time := time + dt;
          last := Max(last, dt);
        }
        data := data[p := Cell(dt, points, prev)];
        total := total + points;
      }
      assert probs[..|probs|] == probs;
      cumtime := time + penalty;
      score := RoundTo(total, unit);
      tiebreaker := last;
      formatData := data;
    }

    method UpdateAtCoder(c: Contest, probs: seq<int>, unit: real)
      requires unit > 0.0
      modifies this
      ensures var st := StandingOf(AtCoder, c, probs);
              score == RoundTo(st.score, unit) && cumtime == st.cumtime && tiebreaker == st.tiebreaker
      ensures formatData == Cells(c, probs)
    {
      hide Tries, First, Best, RoundTo, SumOver, Latest, Cells;
      NoProblems(c);
      var last, total := 0.0, 0.0;
      var penalty := 0.0;
      var data: map<int, Cell> := map[];
      for k := 0 to |probs|
        invariant penalty == SumOver(c, probs[..k], PenaltyOf)
        invariant total == SumOver(c, probs[..k], ScoreOf) && last == Latest(c, probs[..k])
        invariant data == Cells(c, probs[..k])
      {
        OneMore(c, probs, k);
        var p := probs[k];
        var points, dt := Points(c, p), Time(c, p);
        var prev := 0;
        if c.penalty != 0 {
          if points != 0.0 {
            prev := Tries(c.subs, p, First(c.subs, p, points)) - 1;
            penalty := penalty + (prev * c.penalty * 60) as real;
          } else {
            prev := Tries(c.subs, p, None);
          }
        }
        if points != 0.0 {
          last := Max(last, dt);
        }
        data := data[p := Cell(dt, points, prev)];
        total := total + points;
      }
      assert probs[..|probs|] == probs;
      cumtime := last + penalty;
      score := RoundTo(total, unit);
      tiebreaker := 0.0;
      formatData := data;
    }
  }
}
