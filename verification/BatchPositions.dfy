/** What a submission is graded on in terms of the positions of its judge's packets (judge/bridge/judge_handler.py,
    `on_batch_begin`, `on_test_case` and `on_grading_end` together): batches are told apart by where they were
    opened. */
module BatchPositions {
  import opened Prelude
  import opened Grading

  /** Where the batch that packet k lies in was opened, if it lies in one. */
  function Opening(ps: seq<Packet>, k: nat): Option<nat>
    requires k <= |ps|
  {
    if k == 0 then None
    else if ps[k - 1].BatchBegin? then Some(k - 1)
    else if Closes(ps[k - 1]) then None
    else Opening(ps, k - 1)
  }

  lemma {:induction false} OpeningIs(ps: seq<Packet>, k: nat)
    requires k <= |ps|
    ensures Opening(ps, k).Some? <==> InBatch(ps, k)
    ensures Opening(ps, k).Some? ==>
              var b := Opening(ps, k).value;
              b < k && ps[b].BatchBegin? && forall i :: b < i < k ==> !Closes(ps[i]) && !ps[i].BatchBegin?
  {
    if k > 0 {
      OpeningIs(ps, k - 1);
      var p := ps[k - 1];
      if p.BatchBegin? {
        assert InBatch(ps, k);
      } else if !Closes(p) && InBatch(ps, k - 1) {
        var b :| 0 <= b < k - 1 && ps[b].BatchBegin? && forall i :: b < i < k - 1 ==> !Closes(ps[i]);
        assert forall i :: b < i < k ==> !Closes(ps[i]);
      }
    }
  }

  lemma {:induction false} OpeningStays(ps: seq<Packet>, k: nat, m: nat)
    requires k <= m <= |ps|
    requires forall i :: k <= i < m ==> !Closes(ps[i]) && !ps[i].BatchBegin?
    ensures Opening(ps, m) == Opening(ps, k)
    decreases m - k
  {
    if k < m { OpeningStays(ps, k, m - 1); }
  }

  /** Two cases of one grading share a batch number exactly when their batch was opened by the same packet. */
  lemma SameOpening(ps: seq<Packet>, k: nat, m: nat)
    requires k <= m < |ps| && ps[k].TestCases? && ps[m].TestCases?
    requires forall i :: k <= i < m ==> !Delimits(ps[i])
    ensures After(ps, k).Label().Some? <==> Opening(ps, k).Some?
    ensures After(ps, k).Label() == After(ps, m).Label() <==> Opening(ps, k) == Opening(ps, m)
  {
    hide After, Opening, InBatch;
    LabelledInBatch(ps, k);
    LabelledInBatch(ps, m);
    OpeningIs(ps, k);
    OpeningIs(ps, m);
    if k < m {
      SameBatch(ps, k, m);
      if forall i :: k < i < m ==> !ps[i].BatchBegin? && !ps[i].BatchEnd? { OpeningStays(ps, k, m); }
    }
  }

  /** Over the whole stream, two cases of different batches get the same number exactly when a grading-begin or
      grading-end lies between them and as many batches were begun before each since the last one. */
  lemma NumberShared(ps: seq<Packet>, k: nat, m: nat)
    requires k < m < |ps| && ps[k].TestCases? && ps[m].TestCases?
    requires InBatch(ps, k) && InBatch(ps, m)
    ensures After(ps, k).Label() == After(ps, m).Label() && Opening(ps, k) != Opening(ps, m)
       <==> Begun(ps, k) == Begun(ps, m) && exists i :: k < i < m && Delimits(ps[i])
  {
    hide After, Opening, InBatch, Begun;
    SameNumber(ps, k, m);
    OpeningIs(ps, k);
    OpeningIs(ps, m);
    if forall i :: k < i < m ==> !Delimits(ps[i]) {
      SameOpening(ps, k, m);
    } else {
      var i :| k < i < m && Delimits(ps[i]);
      assert Closes(ps[i]);
    }
  }

  /** So a judge that reports cases of one submission after beginning to grade another has its batches mixed up. */
  lemma MixedUp() returns (ps: seq<Packet>)
    ensures |ps| == 6 && ps[2] == ps[5] == TestCases(1, [])
    ensures ps[0] == GradingBegin(1) && ps[3] == GradingBegin(2)
    ensures After(ps, 2).Label() == After(ps, 5).Label() == Some(1) && Opening(ps, 2) != Opening(ps, 5)
  {
    ps := [GradingBegin(1), BatchBegin(1), TestCases(1, []), GradingBegin(2), BatchBegin(2), TestCases(1, [])];
    assert After(ps, 1) == Step(After(ps, 0), ps[0]);
    assert After(ps, 2) == Batch(Some(1), true);
    assert After(ps, 3) == After(ps, 2);
    assert After(ps, 4) == Batch(None, true);
    assert After(ps, 5) == Batch(Some(1), true);
  }

  /** The cases reported for `sub` in packets b to k, each with the place where its batch was opened. */
  function GatheredAt(ps: seq<Packet>, sub: int, b: nat, k: nat): seq<Case>
    requires b <= k <= |ps|
    decreases k - b
  {
    if k == b then []
    else GatheredAt(ps, sub, b, k - 1) + CasesIn(ps[k - 1], sub, Opening(ps, k - 1))
  }

  /** Case i of both lists was reported by packet p. */
  ghost predicate ReportedBy(ps: seq<Packet>, c: Case, d: Case, p: nat)
    requires p < |ps|
  {
    ps[p].TestCases? && c.batch == After(ps, p).Label() && d == c.(batch := Opening(ps, p))
  }

  lemma ReportedHere(ps: seq<Packet>, sub: int, p: nat, j: nat)
    requires p < |ps|
    ensures |CasesIn(ps[p], sub, Opening(ps, p))| == |CasesIn(ps[p], sub, After(ps, p).Label())|
    ensures j < |CasesIn(ps[p], sub, After(ps, p).Label())| ==>
              ReportedBy(ps, CasesIn(ps[p], sub, After(ps, p).Label())[j], CasesIn(ps[p], sub, Opening(ps, p))[j], p)
  {
    hide After, Opening;
  }

  lemma GatheredStep(ps: seq<Packet>, sub: int, b: nat, k: nat)
    requires b < k <= |ps|
    ensures Gathered(ps, sub, b, k) == Gathered(ps, sub, b, k - 1) + CasesIn(ps[k - 1], sub, After(ps, k - 1).Label())
    ensures GatheredAt(ps, sub, b, k) == GatheredAt(ps, sub, b, k - 1) + CasesIn(ps[k - 1], sub, Opening(ps, k - 1))
  {
    hide After, Opening, CasesIn;
  }

  lemma {:induction false} Reported(ps: seq<Packet>, sub: int, b: nat, k: nat, i: nat)
    requires b <= k <= |ps| && i < |Gathered(ps, sub, b, k)| == |GatheredAt(ps, sub, b, k)|
    ensures exists p :: b <= p < k && ReportedBy(ps, Gathered(ps, sub, b, k)[i], GatheredAt(ps, sub, b, k)[i], p)
    decreases k - b
  {
    hide After, Opening, CasesIn, ReportedBy;
    if b < k {
      ReportedStep(ps, sub, b, k, i);
      if i < |Gathered(ps, sub, b, k - 1)| { Reported(ps, sub, b, k - 1, i); }
    }
  }

  lemma ReportedStep(ps: seq<Packet>, sub: int, b: nat, k: nat, i: nat)
    requires b < k <= |ps| && i < |Gathered(ps, sub, b, k)| == |GatheredAt(ps, sub, b, k)|
    ensures |Gathered(ps, sub, b, k - 1)| == |GatheredAt(ps, sub, b, k - 1)|
    ensures if i < |Gathered(ps, sub, b, k - 1)| then
              && Gathered(ps, sub, b, k)[i] == Gathered(ps, sub, b, k - 1)[i]
              && GatheredAt(ps, sub, b, k)[i] == GatheredAt(ps, sub, b, k - 1)[i]
            else ReportedBy(ps, Gathered(ps, sub, b, k)[i], GatheredAt(ps, sub, b, k)[i], k - 1)
  {
    hide After, Opening, CasesIn, ReportedBy, Gathered, GatheredAt;
    var n := |Gathered(ps, sub, b, k - 1)|;
    GatheredLength(ps, sub, b, k - 1);
    GatheredStep(ps, sub, b, k);
    if i >= n { ReportedHere(ps, sub, k - 1, i - n); }
  }

  lemma {:induction false} GatheredLength(ps: seq<Packet>, sub: int, b: nat, k: nat)
    requires b <= k <= |ps|
    ensures |GatheredAt(ps, sub, b, k)| == |Gathered(ps, sub, b, k)|
    decreases k - b
  {
    hide After, Opening, CasesIn;
    if b < k {
      GatheredLength(ps, sub, b, k - 1);
      GatheredStep(ps, sub, b, k);
      ReportedHere(ps, sub, k - 1, 0);
    }
  }

  /** The same cases, with batches named differently. */
  ghost predicate Renamed(cs: seq<Case>, ds: seq<Case>) {
    && |cs| == |ds|
    && (forall i :: 0 <= i < |cs| ==> ds[i] == cs[i].(batch := ds[i].batch))
    && (forall i :: 0 <= i < |cs| ==> (cs[i].batch.None? <==> ds[i].batch.None?))
    && (forall i, j :: 0 <= i < |cs| && 0 <= j < |cs| ==> (cs[i].batch == cs[j].batch <==> ds[i].batch == ds[j].batch))
  }

  lemma {:induction false} RenamedSums(cs: seq<Case>, ds: seq<Case>, val: Measure)
    requires Renamed(cs, ds)
    ensures Total(cs, val) == Total(ds, val) && Unbatched(cs, val) == Unbatched(ds, val)
  {
    if cs != [] { RenamedSums(Init(cs), Init(ds), val); }
  }

  lemma RenamedPeak(cs: seq<Case>, ds: seq<Case>, memory: real, severity: nat)
    requires Renamed(cs, ds) && IsPeak(cs, memory, severity)
    ensures IsPeak(ds, memory, severity)
  {
    hide Verdict.Severity;
    forall i | 0 <= i < |cs| ensures ds[i].memory == cs[i].memory && ds[i].verdict == cs[i].verdict {}
    if memory != 0.0 {
      var i :| 0 <= i < |cs| && cs[i].memory == memory;
      assert ds[i] in ds;
    }
    if severity != 0 {
      var i :| 0 <= i < |cs| && cs[i].verdict.Severity() == severity;
      assert ds[i] in ds;
    }
  }

  /** The batch of cs that batch n of ds stands for. */
  ghost function Origin(cs: seq<Case>, ds: seq<Case>, n: nat): (b: nat)
    requires Renamed(cs, ds) && n in Batches(ds)
    ensures exists i :: 0 <= i < |cs| && ds[i].batch == Some(n) && cs[i].batch == Some(b)
  {
    var i :| 0 <= i < |ds| && ds[i].batch == Some(n);
    cs[i].batch.value
  }

  lemma BatchRenamed(cs: seq<Case>, ds: seq<Case>, n: nat, l: real, g: real)
    requires Renamed(cs, ds) && n in Batches(ds)
    ensures Origin(cs, ds, n) in Batches(cs)
    ensures IsLeast(cs, Origin(cs, ds, n), l) ==> IsLeast(ds, n, l)
    ensures IsGreatest(cs, Origin(cs, ds, n), g) ==> IsGreatest(ds, n, g)
  {
    var b := Origin(cs, ds, n);
    var i :| 0 <= i < |cs| && ds[i].batch == Some(n) && cs[i].batch == Some(b);
    forall j | 0 <= j < |cs| ensures cs[j].batch == Some(b) <==> ds[j].batch == Some(n) {
      assert cs[i].batch == cs[j].batch <==> ds[i].batch == ds[j].batch;
    }
    if IsLeast(cs, b, l) {
      var j :| 0 <= j < |cs| && cs[j].batch == Some(b) && cs[j].points == l;
      assert ds[j] in ds && ds[j].points == l;
      forall d | d in ds && d.batch == Some(n) ensures l <= d.points {
        var k :| 0 <= k < |ds| && ds[k] == d;
        assert cs[k] in cs;
      }
    }
    if IsGreatest(cs, b, g) {
      var j :| 0 <= j < |cs| && cs[j].batch == Some(b) && cs[j].total == g;
      assert ds[j] in ds && ds[j].total == g;
      forall d | d in ds && d.batch == Some(n) ensures d.total <= g {
        var k :| 0 <= k < |ds| && ds[k] == d;
        assert cs[k] in cs;
      }
    }
  }

  /** The renaming as a one-to-one map onto the batches of cs. */
  ghost function Origins(cs: seq<Case>, ds: seq<Case>): (m: map<nat, nat>)
    requires Renamed(cs, ds)
    ensures m.Keys == Batches(ds)
  {
    map n | n in Batches(ds) :: Origin(cs, ds, n)
  }

  lemma OriginsOneToOne(cs: seq<Case>, ds: seq<Case>)
    requires Renamed(cs, ds)
    ensures var g := Origins(cs, ds);
            && (forall x :: x in g ==> g[x] in Batches(cs))
            && (forall x, y :: x in g && y in g && g[x] == g[y] ==> x == y)
            && (forall b :: b in Batches(cs) ==> exists x :: x in g && g[x] == b)
  {
    var g := Origins(cs, ds);
    forall x | x in g ensures g[x] in Batches(cs) { BatchRenamed(cs, ds, x, 0.0, 0.0); }
    forall x, y | x in g && y in g && g[x] == g[y] ensures x == y {
      var i :| 0 <= i < |cs| && ds[i].batch == Some(x) && cs[i].batch == Some(g[x]);
      var j :| 0 <= j < |cs| && ds[j].batch == Some(y) && cs[j].batch == Some(g[y]);
    }
    forall b | b in Batches(cs) ensures exists x :: x in g && g[x] == b {
      var i :| 0 <= i < |cs| && cs[i].batch.Some? && cs[i].batch.value == b;
      var n := ds[i].batch.value;
      assert n in Batches(ds);
      var j :| 0 <= j < |cs| && ds[j].batch == Some(n) && cs[j].batch == Some(g[n]);
      assert ds[i].batch == ds[j].batch;
    }
  }

  /** Renaming the keys one to one changes no sum. */
  lemma {:induction false} SumMapRename(m: map<nat, real>, n: map<nat, real>, g: map<nat, nat>)
    requires n.Keys == g.Keys
    requires forall x :: x in g ==> g[x] in m && n[x] == m[g[x]]
    requires forall x, y :: x in g && y in g && g[x] == g[y] ==> x == y
    requires forall b :: b in m ==> exists x :: x in g && g[x] == b
    ensures SumMap(n) == SumMap(m)
    decreases |n|
  {
    hide SumMap;
    if n == map[] {
      assert g.Keys == {};
      assert m == map[];
    } else {
      assert n.Keys != {};
      var x :| x in n;
      SumMapRemove(n, x);
      SumMapRemove(m, g[x]);
      forall b | b in m - {g[x]} ensures exists y :: y in g - {x} && (g - {x})[y] == b {
        var y :| y in g && g[y] == b;
        assert y in g - {x};
      }
      SumMapRename(m - {g[x]}, n - {x}, g - {x});
    }
  }

  /** Names of batches do not matter. */
  lemma TallyRenamed(cs: seq<Case>, ds: seq<Case>, t: Tally)
    requires Renamed(cs, ds) && AddsUp(cs, t)
    ensures AddsUp(ds, t)
  {
    hide Renamed, Unbatched, Total, SumMap, IsPeak, IsLeast, IsGreatest, Batches, Origins, Origin;
    RenamedSums(cs, ds, TimeOf);
    RenamedSums(cs, ds, PointsOf);
    RenamedSums(cs, ds, TotalOf);
    RenamedPeak(cs, ds, t.memory, t.severity);
    var l, g :| Summarizes(cs, l, g)
      && t.points == Unbatched(cs, PointsOf) + SumMap(l) && t.total == Unbatched(cs, TotalOf) + SumMap(g);
    var l', g' := SummaryRenamed(cs, ds, l, g);
    assert Summarizes(ds, l', g');
  }

  lemma SummaryRenamed(cs: seq<Case>, ds: seq<Case>, l: map<nat, real>, g: map<nat, real>)
    returns (l': map<nat, real>, g': map<nat, real>)
    requires Renamed(cs, ds) && Summarizes(cs, l, g)
    ensures Summarizes(ds, l', g') && SumMap(l') == SumMap(l) && SumMap(g') == SumMap(g)
  {
    hide Renamed, SumMap, IsLeast, IsGreatest, Batches, Origin;
    l' := MapRenamed(cs, ds, l);
    g' := MapRenamed(cs, ds, g);
    forall n | n in Batches(ds) ensures IsLeast(ds, n, l'[n]) && IsGreatest(ds, n, g'[n]) {
      BatchRenamed(cs, ds, n, l'[n], g'[n]);
    }
  }

  lemma MapRenamed(cs: seq<Case>, ds: seq<Case>, m: map<nat, real>) returns (m': map<nat, real>)
    requires Renamed(cs, ds) && m.Keys == Batches(cs)
    ensures m'.Keys == Batches(ds) && SumMap(m') == SumMap(m)
    ensures forall n :: n in m' ==> Origin(cs, ds, n) in m && m'[n] == m[Origin(cs, ds, n)]
  {
    hide Renamed, SumMap, Batches, Origin;
    OriginsOneToOne(cs, ds);
    var o := Origins(cs, ds);
    m' := map n | n in o :: m[o[n]];
    SumMapRename(m, m', o);
  }

  lemma GatheredRenamed(ps: seq<Packet>, sub: int, b: nat, e: nat)
    requires b < e <= |ps| && forall i :: b < i < e ==> !Delimits(ps[i])
    requires ps[b] == GradingBegin(sub)
    ensures Renamed(Gathered(ps, sub, b, e), GatheredAt(ps, sub, b, e))
  {
    hide Gathered, GatheredAt, After, Opening;
    var cs, ds := Gathered(ps, sub, b, e), GatheredAt(ps, sub, b, e);
    GatheredLength(ps, sub, b, e);
    forall i, j | 0 <= i < |cs| && 0 <= j < |cs|
      ensures ds[i] == cs[i].(batch := ds[i].batch)
      ensures cs[i].batch.None? <==> ds[i].batch.None?
      ensures cs[i].batch == cs[j].batch <==> ds[i].batch == ds[j].batch
    {
      Reported(ps, sub, b, e, i);
      Reported(ps, sub, b, e, j);
      var p :| b <= p < e && ReportedBy(ps, cs[i], ds[i], p);
      var q :| b <= q < e && ReportedBy(ps, cs[j], ds[j], q);
      SameOpening(ps, p, p);
      if p <= q { SameOpening(ps, p, q); } else { SameOpening(ps, q, p); }
    }
  }

  lemma RenamedBack(cs: seq<Case>, ds: seq<Case>)
    requires Renamed(cs, ds)
    ensures Renamed(ds, cs)
  {}

  /** A grading from its begin to its end, with no other begin or end between: what the stored cases add up to is what
      the reported cases add up to when those in one batch are the ones reported since the same batch-begin. */
  lemma GradedByPosition(rows: Rows, ps: seq<Packet>, sub: int, b: nat, e: nat, t: Tally)
    requires b < e <= |ps| && ps[b] == GradingBegin(sub) && sub in rows
    requires forall i :: b < i < e ==> !Delimits(ps[i])
    ensures sub in RowsAfter(rows, ps, e)
    ensures AddsUp(RowsAfter(rows, ps, e)[sub], t) <==> AddsUp(GatheredAt(ps, sub, b, e), t)
  {
    hide RowsAfter, Gathered, GatheredAt, Renamed, AddsUp;
    StoredCases(rows, ps, sub, b, e);
    var cs, ds := Gathered(ps, sub, b, e), GatheredAt(ps, sub, b, e);
    GatheredRenamed(ps, sub, b, e);
    RenamedBack(cs, ds);
    if AddsUp(cs, t) { TallyRenamed(cs, ds, t); }
    if AddsUp(ds, t) { TallyRenamed(ds, cs, t); }
  }
}
