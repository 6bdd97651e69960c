/** What ICPC and AtCoder standings count, in terms of the submissions alone (judge/contest_format/icpc.py and
    judge/contest_format/atcoder.py, `update_participation`). */
module StandingCounts {
  import opened Prelude
  import opened RealFacts
  import opened Standings

  // ---- wrong tries ----

  /** A judged submission to a problem (neither without result nor IE nor CE), up to time t if there is one. */
  predicate JudgedTry(s: Submission, p: int, t: Option<real>) {
    s.problem == p && s.result != NoResult && s.result != IE && s.result != CE && (t.Some? ==> s.date <= t.value)
  }

  /** Where these stand among the submissions. */
  function JudgedTries(subs: seq<Submission>, p: int, t: Option<real>): set<nat> {
    set i: nat | i < |subs| && JudgedTry(subs[i], p, t)
  }

  lemma JudgedStep(subs: seq<Submission>, p: int, t: Option<real>)
    requires subs != []
    ensures var n := |subs| - 1;
            && n !in JudgedTries(Init(subs), p, t)
            && JudgedTries(subs, p, t)
               == JudgedTries(Init(subs), p, t) + (if JudgedTry(Last(subs), p, t) then {n} else {})
  {
    hide JudgedTry;
    var n := |subs| - 1;
    forall i: nat
      ensures i in JudgedTries(subs, p, t)
         <==> i in JudgedTries(Init(subs), p, t) || (i == n && JudgedTry(Last(subs), p, t))
    {
      if i < n { assert subs[i] == Init(subs)[i]; }
    }
  }

  lemma {:induction false} TriesCount(subs: seq<Submission>, p: int, t: Option<real>)
    ensures Tries(subs, p, t) == |JudgedTries(subs, p, t)|
  {
    hide JudgedTries;
    if subs == [] {
      NoTries(p, t);
    } else {
      TriesCount(Init(subs), p, t);
      JudgedStep(subs, p, t);
    }
  }

  lemma NoTries(p: int, t: Option<real>)
    ensures JudgedTries([], p, t) == {}
  {}

  /** v is the most points on the problem, and t when they were first reached. */
  predicate BestAt(subs: seq<Submission>, p: int, v: real, t: real) {
    && (exists s :: s in subs && s.problem == p && s.points == v && s.date == t)
    && (forall s :: s in subs && s.problem == p ==> s.points <= v)
    && (forall s :: s in subs && s.problem == p && s.points == v ==> t <= s.date)
  }

  lemma BestAtIs(c: Contest, p: int, v: real, t: real)
    requires BestAt(c.subs, p, v, t)
    ensures Best(c.subs, p) == Some(v) && First(c.subs, p, v) == Some(t)
  {
    hide Best, First;
    BestAndFirst(c.subs, p);
    FirstIs(c.subs, p, v);
  }

  /** What a solved problem adds: its most points, the seconds until they were first reached, and for the judged
      submissions up to then, except one, the penalty in minutes. */
  lemma SolvedValue(c: Contest, p: int, v: real, t: real)
    requires BestAt(c.subs, p, v, t) && v != 0.0
    ensures Value(c, p, ScoreOf) == v && Value(c, p, TimeOf) == t - c.start
    ensures c.penalty != 0 ==> Wrong(c, p) + 1 == |JudgedTries(c.subs, p, Some(t))|
    ensures c.penalty == 0 ==> Wrong(c, p) == 0
    ensures Value(c, p, PenaltyOf) == ((|JudgedTries(c.subs, p, Some(t))| - 1) * c.penalty * 60) as real
  {
    hide Best, First, Tries;
    BestAtIs(c, p, v, t);
    TriesCount(c.subs, p, Some(t));
    if c.penalty == 0 { assert (|JudgedTries(c.subs, p, Some(t))| - 1) * 0 * 60 == 0; }
  }

  /** What a problem without points adds: nothing; its judged submissions are only displayed. */
  lemma UnsolvedValue(c: Contest, p: int, t: real)
    requires BestAt(c.subs, p, 0.0, t)
    ensures forall m :: Value(c, p, m) == 0.0
    ensures Wrong(c, p) == if c.penalty == 0 then 0 else |JudgedTries(c.subs, p, None)|
  {
    hide Best, First, Tries;
    BestAtIs(c, p, 0.0, t);
    TriesCount(c.subs, p, None);
  }

  /** What is kept for display of each problem read: seconds to its first best submission, its points, and the judged
      submissions that count, without the best one if it gave points. */
  lemma CellShows(c: Contest, probs: seq<int>, p: int, v: real, t: real)
    requires p in probs && BestAt(c.subs, p, v, t)
    ensures p in Cells(c, probs)
    ensures var cell := Cells(c, probs)[p];
            && cell.time == t - c.start && cell.points == v
            && cell.penalty == if c.penalty == 0 then 0
                               else if v != 0.0 then |JudgedTries(c.subs, p, Some(t))| - 1
                               else |JudgedTries(c.subs, p, None)|
  {
    hide Best, First, Tries, JudgedTries;
    BestAtIs(c, p, v, t);
    TriesCount(c.subs, p, Some(t));
    TriesCount(c.subs, p, None);
  }

  function Values(c: Contest, probs: seq<int>, m: Measure): (r: seq<real>)
    ensures |r| == |probs|
  {
    seq(|probs|, i requires 0 <= i < |probs| => Value(c, probs[i], m))
  }

  lemma {:induction false} SumOverIs(c: Contest, probs: seq<int>, m: Measure)
    ensures SumOver(c, probs, m) == Sum(Values(c, probs, m))
  {
    hide Value;
    if probs != [] {
      var n := |probs| - 1;
      SumOverIs(c, probs[..n], m);
      assert Values(c, probs, m)[..n] == Values(c, probs[..n], m);
    }
  }

  /** last is the time of the problem solved last, or 0 if no problem took longer. */
  predicate IsLastSolved(c: Contest, probs: seq<int>, last: real) {
    && last >= 0.0
    && (forall p :: p in probs ==> Value(c, p, TimeOf) <= last)
    && (last == 0.0 || exists p :: p in probs && Value(c, p, TimeOf) == last)
  }

  /** Both formats: the score is the sum of the points; ICPC adds up the times of the solved problems and breaks ties
      by the last, AtCoder takes the last alone; the penalties come on top. */
  lemma StandingIs(c: Contest, probs: seq<int>)
    ensures var icpc := StandingOf(ICPC, c, probs);
            && icpc.score == Sum(Values(c, probs, ScoreOf)) && IsLastSolved(c, probs, icpc.tiebreaker)
            && icpc.cumtime == Sum(Values(c, probs, TimeOf)) + Sum(Values(c, probs, PenaltyOf))
    ensures var atcoder := StandingOf(AtCoder, c, probs);
            && atcoder.score == Sum(Values(c, probs, ScoreOf)) && atcoder.tiebreaker == 0.0
            && IsLastSolved(c, probs, atcoder.cumtime - Sum(Values(c, probs, PenaltyOf)))
  {
    hide Value, Sum, SumOver, Latest;
    SumOverIs(c, probs, ScoreOf);
    SumOverIs(c, probs, TimeOf);
    SumOverIs(c, probs, PenaltyOf);
    LatestIs(c, probs);
  }

  // ---- one more submission, of any date ----

  function Inserted(subs: seq<Submission>, i: nat, s: Submission): seq<Submission>
    requires i <= |subs|
  {
    subs[..i] + [s] + subs[i..]
  }

  lemma InsertedMembers(subs: seq<Submission>, i: nat, s: Submission)
    requires i <= |subs|
    ensures forall x :: x in Inserted(subs, i, s) <==> x in subs || x == s
  {
    assert subs == subs[..i] + subs[i..];
  }

  lemma {:induction false} TriesInserted(subs: seq<Submission>, i: nat, s: Submission, p: int, t: Option<real>)
    requires i <= |subs|
    ensures Tries(Inserted(subs, i, s), p, t)
         == Tries(subs, p, t)
            + (if s.problem == p && s.result == Judged && (t.Some? ==> s.date <= t.value) then 1 else 0)
    decreases |subs|
  {
    var r := Inserted(subs, i, s);
    if i == |subs| {
      assert Init(r) == subs && Last(r) == s;
    } else {
      assert Init(r) == Inserted(Init(subs), i, s) && Last(r) == Last(subs);
      TriesInserted(Init(subs), i, s, p, t);
    }
  }

  lemma InsertedBest(c: Contest, i: nat, s: Submission, p: int, v: real, t: real)
    requires i <= |c.subs| && BestAt(c.subs, p, v, t)
    requires s.problem == p ==> s.points < v
    ensures BestAt(Inserted(c.subs, i, s), p, v, t)
  {
    InsertedMembers(c.subs, i, s);
  }

  /** Another submission changes nothing about a problem that is not its own. */
  lemma OtherProblem(c: Contest, i: nat, s: Submission, p: int)
    requires i <= |c.subs| && s.problem != p
    ensures forall m :: Value(c.(subs := Inserted(c.subs, i, s)), p, m) == Value(c, p, m)
    ensures Wrong(c.(subs := Inserted(c.subs, i, s)), p) == Wrong(c, p)
  {
    hide Best, First, Tries, Inserted;
    var subs := Inserted(c.subs, i, s);
    InsertedMembers(c.subs, i, s);
    BestAndFirst(c.subs, p);
    BestAndFirst(subs, p);
    assert Best(subs, p).Some? <==> Best(c.subs, p).Some?;
    if Best(c.subs, p).Some? {
      SameBest(c.subs, subs, p);
      var v := Best(c.subs, p).value;
      FirstIs(c.subs, p, v);
      FirstIs(subs, p, v);
    } else {
      NoFirst(c.subs, p, 0.0);
      NoFirst(subs, p, 0.0);
    }
    TriesInserted(c.subs, i, s, p, None);
    TriesInserted(c.subs, i, s, p, First(c.subs, p, Points(c, p)));
  }

  lemma SameBest(a: seq<Submission>, b: seq<Submission>, p: int)
    requires forall x: Submission :: x.problem == p ==> (x in a <==> x in b)
    requires Best(a, p).Some?
    ensures Best(b, p) == Best(a, p)
  {
    hide Best, First;
    BestAndFirst(a, p);
    BestAndFirst(b, p);
  }

  lemma NoFirst(subs: seq<Submission>, p: int, v: real)
    requires Best(subs, p).None?
    ensures First(subs, p, v).None?
  {
    hide Best, First;
    BestAndFirst(subs, p);
    FirstIs(subs, p, v);
  }

  /** A further submission to a solved problem that scores less than its best changes nothing but the penalty, which
      grows by one penalty exactly when the submission was judged and made no later than the first best one. */
  lemma LesserSubmission(c: Contest, i: nat, s: Submission, v: real, t: real)
    requires i <= |c.subs| && BestAt(c.subs, s.problem, v, t) && v != 0.0 && s.points < v
    ensures var d := c.(subs := Inserted(c.subs, i, s));
            && Value(d, s.problem, ScoreOf) == Value(c, s.problem, ScoreOf)
            && Value(d, s.problem, TimeOf) == Value(c, s.problem, TimeOf)
            && Value(d, s.problem, PenaltyOf) == Value(c, s.problem, PenaltyOf)
                 + (if s.result == Judged && s.date <= t then (c.penalty * 60) as real else 0.0)
  {
    hide Best, First, Tries, Inserted, JudgedTries, Value;
    var d := c.(subs := Inserted(c.subs, i, s));
    InsertedBest(c, i, s, s.problem, v, t);
    SolvedValue(c, s.problem, v, t);
    SolvedValue(d, s.problem, v, t);
    TriesInserted(c.subs, i, s, s.problem, Some(t));
    TriesCount(c.subs, s.problem, Some(t));
    TriesCount(d.subs, s.problem, Some(t));
    OneMoreTry(|JudgedTries(c.subs, s.problem, Some(t))| - 1, c.penalty);
  }

  lemma OneMoreTry(n: int, penalty: int)
    ensures (n + 1) * penalty * 60 == n * penalty * 60 + penalty * 60
  {}

  /** Nor does an unjudged submission without points to a problem without points change anything. */
  lemma UnjudgedNothing(c: Contest, i: nat, s: Submission, t: real)
    requires i <= |c.subs| && BestAt(c.subs, s.problem, 0.0, t) && s.points == 0.0 && s.result != Judged
    ensures var d := c.(subs := Inserted(c.subs, i, s));
            (forall m :: Value(d, s.problem, m) == Value(c, s.problem, m)) && Wrong(d, s.problem) == Wrong(c, s.problem)
  {
    hide Best, First, Tries, Inserted, JudgedTries, Value;
    var d := c.(subs := Inserted(c.subs, i, s));
    InsertedMembers(c.subs, i, s);
    var u := if s.date < t then s.date else t;
    assert BestAt(d.subs, s.problem, 0.0, u);
    UnsolvedValue(c, s.problem, t);
    UnsolvedValue(d, s.problem, u);
    TriesInserted(c.subs, i, s, s.problem, None);
    TriesCount(c.subs, s.problem, None);
    TriesCount(d.subs, s.problem, None);
  }
}
