/** Performance points (judge/models/profile.py, `calculate_points`) and their breakdown by page
    (judge/performance_points.py, `get_pp_breakdown`). */
module PerformancePoints {
  import opened Prelude
  import opened RealFacts

  // ---- what the queries return ----

  /** A submission to a public problem; points are None until it is graded. */
  datatype Submission = Submission(problem: int, points: Option<real>)

  /** Best points per problem that has a graded submission. */
  function Best(subs: seq<Submission>): map<int, real> {
    if subs == [] then map[]
    else
      var m := Best(subs[..|subs| - 1]);
      var s := subs[|subs| - 1];
      if s.points.None? then m
      else if s.problem in m && m[s.problem] >= s.points.value then m
      else m[s.problem := s.points.value]
  }

  datatype Row = Row(problem: int, points: real)

  function Points(rows: seq<Row>): (r: seq<real>)
    ensures |r| == |rows|
  {
    seq(|rows|, i requires 0 <= i < |rows| => rows[i].points)
  }

  function Problems(rows: seq<Row>): (r: seq<int>)
    ensures |r| == |rows|
  {
    seq(|rows|, i requires 0 <= i < |rows| => rows[i].problem)
  }

  ghost predicate Distinct(s: seq<int>) {
    forall i, j :: 0 <= i < j < |s| ==> s[i] != s[j]
  }

  ghost predicate Falling(s: seq<real>) {
    forall i, j :: 0 <= i < j < |s| ==> s[i] >= s[j]
  }

  /** One row per problem with a positive best score, best first. */
  ghost predicate IsRanking(best: map<int, real>, rows: seq<Row>) {
    && Falling(Points(rows))
    && Distinct(Problems(rows))
    && (forall i :: 0 <= i < |rows| ==> rows[i].problem in best && rows[i].points == best[rows[i].problem] > 0.0)
    && (forall p :: p in best && best[p] > 0.0 ==> p in Problems(rows))
  }

  /** What the query takes per problem: the most points of its graded submissions. */
  lemma {:induction false} BestIs(subs: seq<Submission>, p: int)
    ensures p in Best(subs) <==> exists s :: s in subs && s.problem == p && s.points.Some?
    ensures forall s :: s in subs && s.problem == p && s.points.Some? ==> s.points.value <= Best(subs)[p]
    ensures p in Best(subs) ==> exists s :: s in subs && s.problem == p && s.points == Some(Best(subs)[p])
  {
    if subs != [] {
      BestIs(subs[..|subs| - 1], p);
      assert subs == subs[..|subs| - 1] + [subs[|subs| - 1]];
    }
  }

  // ---- the weighted sum ----

  function Table(step: real, entries: nat): (t: seq<real>)
    ensures |t| == entries
  {
    seq(entries, i requires 0 <= i => Pow(step, i))
  }

  ghost predicate Weights(t: seq<real>) {
    Falling(t) && forall i :: 0 <= i < |t| ==> t[i] >= 0.0
  }

  lemma {:induction false} PowFalls(step: real, i: nat, j: nat)
    requires 0.0 <= step <= 1.0 && i <= j
    ensures 0.0 <= Pow(step, j) <= Pow(step, i)
    decreases j
  {
    if i < j {
      PowFalls(step, i, j - 1);
      MulNonNeg(step, Pow(step, j - 1));
      MulMono(Pow(step, j - 1), step, 1.0);
      assert step * Pow(step, j - 1) == Pow(step, j - 1) * step;
    } else if j > 0 {
      PowFalls(step, j - 1, j - 1);
      MulNonNeg(step, Pow(step, j - 1));
    }
  }

  /** The source's weight table is one of falling non-negative weights. */
  lemma TableWeights(step: real, entries: nat)
    requires 0.0 <= step <= 1.0
    ensures Weights(Table(step, entries))
  {
    forall i, j | 0 <= i <= j < entries ensures 0.0 <= Pow(step, j) <= Pow(step, i) { PowFalls(step, i, j); }
    var t := Table(step, entries);
    forall i | 0 <= i < |t| ensures t[i] >= 0.0 { PowFalls(step, i, i); }
  }

  /** The table starts at 1, and each weight is `step` times the one before. */
  lemma TableIs(step: real, entries: nat, i: nat)
    requires i < entries
    ensures Table(step, entries)[i] == if i == 0 then 1.0 else Table(step, entries)[i - 1] * step
  {}

  lemma ScaleFacts(w: real, x: real, y: real)
    ensures Scale(w, y) == Scale(w, x) + Scale(w, y - x)
    ensures Scale(0.0, x) == 0.0
    ensures Scale(w, x) == Scale(x, w)
    ensures w >= 0.0 && x <= y ==> Scale(w, x) <= Scale(w, y)
    ensures w >= 0.0 && x >= 0.0 ==> Scale(w, x) >= 0.0
  {
    if w >= 0.0 && x <= y { MulMono(w, x, y); }
  }

  /** Products of weights and scores, as far as both lists go. */
  function Weighted(t: seq<real>, xs: seq<real>): real {
    if t == [] || xs == [] then 0.0 else Scale(t[0], xs[0]) + Weighted(t[1..], xs[1..])
  }

  function WeightAt(t: seq<real>, k: nat): real {
    if k < |t| then t[k] else 0.0
  }

  lemma {:induction false} WeightedUpdate(t: seq<real>, xs: seq<real>, k: nat, v: real)
    requires k < |xs|
    ensures Weighted(t, xs[k := v]) == Weighted(t, xs) + Scale(WeightAt(t, k), v - xs[k])
    decreases k
  {
    hide Scale;
    if t == [] {
      ScaleFacts(0.0, v - xs[k], v - xs[k]);
    } else if k == 0 {
      assert xs[0 := v][1..] == xs[1..];
      ScaleFacts(t[0], xs[0], v);
    } else {
      WeightedUpdate(t[1..], xs[1..], k - 1, v);
      assert xs[k := v][1..] == xs[1..][k - 1 := v];
    }
  }

  function Swapped(xs: seq<real>, k: nat): seq<real>
    requires k < |xs|
  {
    xs[0 := xs[k]][k := xs[0]]
  }

  lemma SwapGain(w0: real, wk: real, d: real)
    requires w0 >= wk && d >= 0.0
    ensures Scale(w0, d) + Scale(wk, -d) >= 0.0
  {
    MulNonNeg(w0 - wk, d);
    assert (w0 - wk) * d == w0 * d + wk * (-d);
  }

  /** Moving a score forward past a smaller one never lowers the sum. */
  lemma SwapForward(t: seq<real>, xs: seq<real>, k: nat)
    requires Weights(t) && k < |xs| && xs[k] >= xs[0]
    ensures Weighted(t, Swapped(xs, k)) >= Weighted(t, xs)
  {
    hide Scale, Weighted;
    if k > 0 {
      WeightedUpdate(t, xs, 0, xs[k]);
      WeightedUpdate(t, xs[0 := xs[k]], k, xs[0]);
      assert xs[0] - xs[k] == -(xs[k] - xs[0]);
      SwapGain(WeightAt(t, 0), WeightAt(t, k), xs[k] - xs[0]);
    } else {
      assert Swapped(xs, 0) == xs;
    }
  }

  lemma SwappedTail(xs: seq<real>, k: nat)
    requires k < |xs|
    ensures multiset(Swapped(xs, k)[1..]) == multiset(xs) - multiset{xs[k]}
    ensures Swapped(xs, k)[0] == xs[k] && |Swapped(xs, k)| == |xs|
  {
    if k == 0 {
      assert xs == [xs[0]] + xs[1..];
      assert Swapped(xs, 0)[1..] == xs[1..];
    } else {
      assert xs == [xs[0]] + xs[1..k] + [xs[k]] + xs[k + 1..];
      assert Swapped(xs, k)[1..] == xs[1..k] + [xs[0]] + xs[k + 1..];
    }
  }

  /** The weighted sum over best scores in falling order is the greatest over all their orderings. */
  lemma {:induction false} Rearrangement(t: seq<real>, best: seq<real>, xs: seq<real>)
    requires Weights(t) && Falling(best)
    requires multiset(xs) == multiset(best)
    ensures Weighted(t, xs) <= Weighted(t, best)
    decreases |best|
  {
    hide Scale, Swapped, Falling, Weights;
    if t == [] {
    } else if best == [] {
      assert |xs| == |multiset(xs)| == 0;
    } else {
      TopScore(best, xs);
      var k :| 0 <= k < |xs| && xs[k] == best[0] && xs[0] <= best[0];
      SwapForward(t, xs, k);
      SwappedTail(xs, k);
      assert best == [best[0]] + best[1..];
      TailWeights(t);
      TailFalling(best);
      Rearrangement(t[1..], best[1..], Swapped(xs, k)[1..]);
    }
  }

  lemma TopScore(best: seq<real>, xs: seq<real>)
    requires Falling(best) && multiset(xs) == multiset(best) && best != []
    ensures exists k :: 0 <= k < |xs| && xs[k] == best[0] && xs[0] <= best[0]
  {
    assert best[0] in multiset(xs);
    var k :| 0 <= k < |xs| && xs[k] == best[0];
    assert xs[0] in multiset(best);
  }

  lemma TailFalling(s: seq<real>)
    requires Falling(s) && s != []
    ensures Falling(s[1..])
  {}

  lemma TailWeights(t: seq<real>)
    requires Weights(t) && t != []
    ensures Weights(t[1..])
  {}

  lemma {:induction false} WeightedPointwise(t: seq<real>, xs: seq<real>, ys: seq<real>)
    requires Weights(t) && |xs| <= |ys|
    requires forall i :: 0 <= i < |xs| ==> xs[i] <= ys[i]
    requires forall i :: |xs| <= i < |ys| ==> ys[i] >= 0.0
    ensures Weighted(t, xs) <= Weighted(t, ys)
    decreases |ys|
  {
    hide Scale, Weights;
    if t != [] && ys != [] {
      TailWeights(t);
      FirstWeight(t);
      if xs != [] {
        ScaleFacts(t[0], xs[0], ys[0]);
        WeightedPointwise(t[1..], xs[1..], ys[1..]);
      } else {
        ScaleFacts(t[0], ys[0], ys[0]);
        WeightedPointwise(t[1..], [], ys[1..]);
        assert Weighted(t[1..], []) == 0.0;
      }
    }
  }

  lemma FirstWeight(t: seq<real>)
    requires Weights(t) && t != []
    ensures t[0] >= 0.0
  {}

  // ---- better scores ----

  lemma MultisetSplit<T>(s: seq<T>, k: nat)
    requires k < |s|
    ensures multiset(s) == multiset(s[..k] + s[k + 1..]) + multiset{s[k]}
  {
    assert s == s[..k] + [s[k]] + s[k + 1..];
  }

  lemma DistinctCount(s: seq<int>, x: int)
    requires Distinct(s)
    ensures multiset(s)[x] == if x in s then 1 else 0
  {
    if x in s {
      var k :| 0 <= k < |s| && s[k] == x;
      MultisetSplit(s, k);
      assert x !in s[..k] + s[k + 1..];
    }
  }

  lemma SameElements(a: seq<int>, b: seq<int>)
    requires Distinct(a) && Distinct(b)
    requires forall x :: x in a <==> x in b
    ensures multiset(a) == multiset(b)
  {
    forall x ensures multiset(a)[x] == multiset(b)[x] {
      DistinctCount(a, x);
      DistinctCount(b, x);
    }
  }

  function ScoreOf(best: map<int, real>, x: int): real {
    if x in best then best[x] else 0.0
  }

  function Scores(best: map<int, real>, ids: seq<int>): (r: seq<real>)
    ensures |r| == |ids|
  {
    seq(|ids|, i requires 0 <= i < |ids| => ScoreOf(best, ids[i]))
  }

  lemma ScoresTake(best: map<int, real>, b: seq<int>, k: nat)
    requires k < |b|
    ensures multiset(b[..k] + b[k + 1..]) == multiset(b) - multiset{b[k]}
    ensures multiset(Scores(best, b)) == multiset{ScoreOf(best, b[k])} + multiset(Scores(best, b[..k] + b[k + 1..]))
  {
    hide ScoreOf, Scores;
    MultisetSplit(b, k);
    MultisetSplit(Scores(best, b), k);
    ScoresWithout(best, b, k);
  }

  lemma ScoresWithout(best: map<int, real>, b: seq<int>, k: nat)
    requires k < |b|
    ensures Scores(best, b)[k] == ScoreOf(best, b[k])
    ensures Scores(best, b[..k] + b[k + 1..]) == Scores(best, b)[..k] + Scores(best, b)[k + 1..]
  {
    hide ScoreOf;
  }

  lemma {:induction false} ScoresPermuted(best: map<int, real>, a: seq<int>, b: seq<int>)
    requires multiset(a) == multiset(b)
    ensures multiset(Scores(best, a)) == multiset(Scores(best, b))
    decreases |a|
  {
    hide Scores, ScoreOf;
    if a == [] {
      assert |b| == |multiset(b)| == 0;
    } else {
      assert a[0] in multiset(b);
      var k :| 0 <= k < |b| && b[k] == a[0];
      ScoresTake(best, a, 0);
      ScoresTake(best, b, k);
      assert a[..0] + a[1..] == a[1..];
      ScoresPermuted(best, a[1..], b[..k] + b[k + 1..]);
    }
  }

  function Others(ids: seq<int>, known: seq<int>): (r: seq<int>)
    ensures forall x :: x in r <==> x in ids && x !in known
  {
    if ids == [] then []
    else
      var n := |ids| - 1;
      Others(ids[..n], known) + (if ids[n] in known then [] else [ids[n]])
  }

  lemma {:induction false} OthersDistinct(ids: seq<int>, known: seq<int>)
    requires Distinct(ids) && Distinct(known)
    ensures Distinct(Others(ids, known)) && Distinct(known + Others(ids, known))
  {
    if ids != [] { OthersDistinct(ids[..|ids| - 1], known); }
    assert forall i :: 0 <= i < |Others(ids, known)| ==> Others(ids, known)[i] in Others(ids, known);
  }

  lemma RankingScores(best: map<int, real>, rows: seq<Row>)
    requires IsRanking(best, rows)
    ensures forall x :: x in Problems(rows) <==> x in best && best[x] > 0.0
    ensures Points(rows) == Scores(best, Problems(rows))
  {
    forall x | x in Problems(rows) ensures x in best && best[x] > 0.0 {
      var i :| 0 <= i < |rows| && Problems(rows)[i] == x;
    }
  }

  /** Raising any best scores, or adding problems, never lowers the weighted sum. */
  lemma BetterScores(t: seq<real>, best: map<int, real>, rows: seq<Row>, best': map<int, real>, rows': seq<Row>)
    requires Weights(t)
    requires IsRanking(best, rows) && IsRanking(best', rows')
    requires forall p :: p in best ==> p in best' && best[p] <= best'[p]
    ensures Weighted(t, Points(rows)) <= Weighted(t, Points(rows'))
  {
    hide Weighted, Weights;
    RankingScores(best, rows);
    RankingScores(best', rows');
    var ids, ids' := Problems(rows), Problems(rows');
    var order := ids + Others(ids', ids);
    OthersDistinct(ids', ids);
    SameElements(order, ids');
    ScoresPermuted(best', order, ids');
    WeightedPointwise(t, Points(rows), Scores(best', order));
    Rearrangement(t, Points(rows'), Scores(best', order));
  }

  lemma BestGrows(subs: seq<Submission>, s: Submission)
    ensures forall p :: p in Best(subs) ==> p in Best(subs + [s]) && Best(subs)[p] <= Best(subs + [s])[p]
  {
    assert (subs + [s])[..|subs|] == subs;
  }

  /** A further submission, of whatever score, never lowers the weighted part of a user's performance points. */
  lemma MoreSubmissions(t: seq<real>, subs: seq<Submission>, s: Submission, rows: seq<Row>, rows': seq<Row>)
    requires Weights(t)
    requires IsRanking(Best(subs), rows) && IsRanking(Best(subs + [s]), rows')
    ensures Weighted(t, Points(rows)) <= Weighted(t, Points(rows'))
  {
    BestGrows(subs, s);
    BetterScores(t, Best(subs), rows, Best(subs + [s]), rows');
  }

  // ---- the breakdown, page by page ----

  datatype Entry = Entry(points: real, weight: real, scaledPoints: real, problem: int)

  /** The entries a page shows: those weighted, existing ones with start <= i < end. */
  function Page(t: seq<real>, rows: seq<Row>, start: nat, end: nat): seq<Entry>
    requires start <= end
    decreases end
  {
    if start == end then []
    else
      var i := end - 1;
      var here :=
        if i < |t| && i < |rows|
        then [Entry(rows[i].points, t[i] * 100.0, Scale(rows[i].points, t[i]), rows[i].problem)]
        else [];
      Page(t, rows, start, i) + here
  }

  function Scaled(es: seq<Entry>): real {
    if es == [] then 0.0 else Scaled(es[..|es| - 1]) + es[|es| - 1].scaledPoints
  }

  lemma {:induction false} ScaledConcat(a: seq<Entry>, b: seq<Entry>)
    ensures Scaled(a + b) == Scaled(a) + Scaled(b)
    decreases |b|
  {
    if b == [] {
      assert a + b == a;
    } else {
      assert (a + b)[..|a + b| - 1] == a + b[..|b| - 1];
      ScaledConcat(a, b[..|b| - 1]);
    }
  }

  lemma {:induction false} PageJoin(t: seq<real>, rows: seq<Row>, a: nat, b: nat, c: nat)
    requires a <= b <= c
    ensures Page(t, rows, a, c) == Page(t, rows, a, b) + Page(t, rows, b, c)
    decreases c
  {
    if b < c { PageJoin(t, rows, a, b, c - 1); }
  }

  /** What position i adds to the sum. */
  function Share(t: seq<real>, xs: seq<real>, i: nat): real {
    if i < |t| && i < |xs| then Scale(t[i], xs[i]) else 0.0
  }

  lemma PageStep(t: seq<real>, rows: seq<Row>, i: nat)
    ensures Scaled(Page(t, rows, 0, i + 1)) == Scaled(Page(t, rows, 0, i)) + Share(t, Points(rows), i)
  {
    hide Scale, Scaled;
    var p, q := Page(t, rows, 0, i), Page(t, rows, 0, i + 1);
    if i < |t| && i < |rows| {
      var e := Entry(rows[i].points, t[i] * 100.0, Scale(rows[i].points, t[i]), rows[i].problem);
      assert q == p + [e];
      ScaledConcat(p, [e]);
      ScaledOne(e);
      ScaleFacts(t[i], rows[i].points, rows[i].points);
    } else {
      assert q == p;
    }
  }

  lemma ScaledOne(e: Entry)
    ensures Scaled([e]) == e.scaledPoints
  {}

  lemma TakeStep(t: seq<real>, xs: seq<real>, i: nat)
    ensures Weighted(Take(t, i + 1), Take(xs, i + 1)) == Weighted(Take(t, i), Take(xs, i)) + Share(t, xs, i)
  {
    hide Scale, Weighted;
    if i < |t| && i < |xs| {
      assert Take(t, i + 1) == Take(t, i) + [t[i]] && Take(xs, i + 1) == Take(xs, i) + [xs[i]];
      WeightedSnoc(Take(t, i), Take(xs, i), t[i], xs[i]);
    } else {
      WeightedShort(t, xs, i);
      WeightedShort(t, xs, i + 1);
    }
  }

  lemma {:induction false} WeightedPrefix(t: seq<real>, rows: seq<Row>, end: nat)
    ensures Scaled(Page(t, rows, 0, end)) == Weighted(Take(t, end), Take(Points(rows), end))
  {
    hide Weighted, Scale, Take, Scaled, Page, Share;
    if end == 0 {
      NothingWeighted(t, rows);
    } else {
      WeightedPrefix(t, rows, end - 1);
      PageStep(t, rows, end - 1);
      TakeStep(t, Points(rows), end - 1);
    }
  }

  lemma NothingWeighted(t: seq<real>, rows: seq<Row>)
    ensures Weighted(Take(t, 0), Take(Points(rows), 0)) == 0.0 == Scaled(Page(t, rows, 0, 0))
  {}

  function Take(xs: seq<real>, n: nat): seq<real> {
    if n <= |xs| then xs[..n] else xs
  }

  lemma {:induction false} WeightedSnoc(ts: seq<real>, xs: seq<real>, w: real, x: real)
    requires |ts| == |xs|
    ensures Weighted(ts + [w], xs + [x]) == Weighted(ts, xs) + Scale(w, x)
  {
    if ts != [] {
      assert (ts + [w])[1..] == ts[1..] + [w] && (xs + [x])[1..] == xs[1..] + [x];
      WeightedSnoc(ts[1..], xs[1..], w, x);
    } else {
      assert (ts + [w])[1..] == [] && (xs + [x])[1..] == [];
    }
  }

  /** Past the end of either list nothing is added. */
  lemma {:induction false} WeightedShort(t: seq<real>, xs: seq<real>, i: nat)
    requires i >= |t| || i >= |xs|
    ensures Weighted(Take(t, i), Take(xs, i)) == Weighted(t, xs)
    decreases i
  {
    if i > 0 && t != [] && xs != [] {
      WeightedShort(t[1..], xs[1..], i - 1);
      assert Take(t, i)[1..] == Take(t[1..], i - 1) && Take(xs, i)[1..] == Take(xs[1..], i - 1);
    }
  }

  /** Consecutive pages 0 = cuts[0] <= cuts[1] <= ... show, in total, the sum up to the last cut. */
  function Products(t: seq<real>, xs: seq<real>, n: nat): (r: seq<real>)
    requires n <= |t| && n <= |xs|
    ensures |r| == n
  {
    seq(n, i requires 0 <= i < n => t[i] * xs[i])
  }

  lemma {:induction false} WeightedTake(t: seq<real>, xs: seq<real>, n: nat)
    requires n <= |t| && n <= |xs|
    ensures Weighted(t[..n], xs[..n]) == Sum(Products(t, xs, n))
  {
    hide Weighted;
    if n == 0 {
      NothingToAdd(t[..0], xs[..0]);
    } else {
      WeightedTake(t, xs, n - 1);
      assert t[..n] == t[..n - 1] + [t[n - 1]] && xs[..n] == xs[..n - 1] + [xs[n - 1]];
      WeightedSnoc(t[..n - 1], xs[..n - 1], t[n - 1], xs[n - 1]);
      assert Products(t, xs, n)[..n - 1] == Products(t, xs, n - 1);
    }
  }

  lemma NothingToAdd(t: seq<real>, xs: seq<real>)
    requires t == []
    ensures Weighted(t, xs) == 0.0
  {}

  /** The weighted part is the sum of the products of weights and scores at the same position. */
  lemma WeightedIs(t: seq<real>, xs: seq<real>)
    ensures Weighted(t, xs) == Sum(Products(t, xs, MinInt(|t|, |xs|)))
  {
    hide Weighted;
    var n := MinInt(|t|, |xs|);
    WeightedTake(t, xs, n);
    WeightedShort(t, xs, n);
  }

  /** What a page shows: the weighted entries from `start` up to `end`, each with its own score, its weight in percent
      and the product of score and weight. */
  lemma {:induction false} PageShows(t: seq<real>, rows: seq<Row>, start: nat, end: nat, k: nat)
    requires start <= end
    ensures var n := MinInt(end, MinInt(|t|, |rows|));
            && |Page(t, rows, start, end)| == (if n > start then n - start else 0)
            && (k < |Page(t, rows, start, end)| ==>
                  var e, row, w := Page(t, rows, start, end)[k], rows[start + k], t[start + k];
                  && e.problem == row.problem && e.points == row.points
                  && e.weight == w * 100.0 && e.scaledPoints == row.points * w)
    decreases end
  {
    if start < end { PageShows(t, rows, start, end - 1, k); }
  }

  function PagesTotal(t: seq<real>, rows: seq<Row>, start: nat, cuts: seq<nat>): real
    requires Ascending(start, cuts)
    decreases |cuts|
  {
    if cuts == [] then 0.0
    else Scaled(Page(t, rows, start, cuts[0])) + PagesTotal(t, rows, cuts[0], cuts[1..])
  }

  predicate Ascending(start: nat, cuts: seq<nat>)
    decreases |cuts|
  {
    cuts == [] || (start <= cuts[0] && Ascending(cuts[0], cuts[1..]))
  }

  function LastCut(start: nat, cuts: seq<nat>): nat {
    if cuts == [] then start else cuts[|cuts| - 1]
  }

  lemma {:induction false} PagesJoin(t: seq<real>, rows: seq<Row>, start: nat, cuts: seq<nat>)
    requires Ascending(start, cuts)
    ensures start <= LastCut(start, cuts)
    ensures PagesTotal(t, rows, start, cuts) == Scaled(Page(t, rows, start, LastCut(start, cuts)))
    decreases |cuts|
  {
    if cuts != [] {
      PagesJoin(t, rows, cuts[0], cuts[1..]);
      assert LastCut(start, cuts) == LastCut(cuts[0], cuts[1..]);
      PageJoin(t, rows, start, cuts[0], LastCut(start, cuts));
      ScaledConcat(Page(t, rows, start, cuts[0]), Page(t, rows, cuts[0], LastCut(start, cuts)));
    }
  }

  /** Pages read until there are no more show entries whose scaled points sum to the weighted part. */
  lemma PagesComplete(t: seq<real>, rows: seq<Row>, cuts: seq<nat>)
    requires Ascending(0, cuts)
    requires LastCut(0, cuts) >= MinInt(|t|, |rows|)
    ensures PagesTotal(t, rows, 0, cuts) == Weighted(t, Points(rows))
  {
    PagesJoin(t, rows, 0, cuts);
    WeightedPrefix(t, rows, LastCut(0, cuts));
    WeightedShort(t, Points(rows), LastCut(0, cuts));
  }

  /** `get_pp_breakdown`: has_more tells exactly whether another weighted entry exists. */
  method GetBreakdown(t: seq<real>, rows: seq<Row>, start: nat, end: nat) returns (breakdown: seq<Entry>, hasMore: bool)
    requires start <= end
    ensures breakdown == Page(t, rows, start, end)
    ensures hasMore <==> end < |t| && end < |rows|
  {
    var first := MinInt(start, |rows|);
    var data := rows[first..MinInt(first + (end - start + 1), |rows|)];
    var weights := if start <= |t| then t[start..MinInt(end, |t|)] else [];
    breakdown := [];
    for k := 0 to MinInt(|weights|, |data|)
      invariant breakdown == Page(t, rows, start, start + k)
    {
      var weight, contrib := weights[k], data[k];
      assert first == start && weight == t[start + k] && contrib == rows[start + k];
      breakdown := breakdown + [Entry(contrib.points, weight * 100.0, Scale(contrib.points, weight), contrib.problem)];
    }
    PageRest(t, rows, start, start + MinInt(|weights|, |data|), end);
    hasMore := end < MinInt(|t|, start + |data|);
  }

  lemma {:induction false} PageRest(t: seq<real>, rows: seq<Row>, start: nat, mid: nat, end: nat)
    requires start <= mid <= end
    requires mid < end ==> mid >= |t| || mid >= |rows|
    ensures Page(t, rows, start, end) == Page(t, rows, start, mid)
    decreases end
  {
    if mid < end { PageRest(t, rows, start, mid, end - 1); }
  }

  class Profile {
    var points: real
    var problemCount: int
    var performancePoints: real

    /** `calculate_points`, from the ranking of best scores and the number of solved problems; saves only changes. */
    method CalculatePoints(t: seq<real>, rows: seq<Row>, problems: int, bonus: int -> real) returns (r: real,
                           saved: bool)
      modifies this
      ensures r == points == Sum(Points(rows)) && problemCount == problems
      ensures performancePoints == Weighted(t, Points(rows)) + bonus(problems)
      ensures !saved <==> old(points) == points && old(problemCount) == problemCount
                          && old(performancePoints) == performancePoints
    {
      var data := Points(rows);
      var total := Sum(data);
      var entries := MinInt(|data|, |t|);
      WeightedShort(t, data, entries);
      var pp := Weighted(t[..entries], data[..entries]) + bonus(problems);
      saved := points != total || problems != problemCount || performancePoints != pp;
      if saved {
        points := total;
        problemCount := problems;
        performancePoints := pp;
      }
      r := total;
    }
  }
}
