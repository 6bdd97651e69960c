/** From a judge's packets to a submission's score (judge/bridge/judge_handler.py, `on_grading_begin`, `on_batch_begin`,
    `on_batch_end`, `on_test_case` and `on_grading_end`). */
module Grading {
  import opened Prelude
  import opened RealFacts

  /** Verdicts in the order of severity `on_grading_end` uses. */
  datatype Verdict = SC | AC | WA | MLE | TLE | IR | RTE | OLE {
    function Severity(): nat {
      match this
      case SC => 0 case AC => 1 case WA => 2 case MLE => 3 case TLE => 4 case IR => 5 case RTE => 6 case OLE => 7
    }
  }

  datatype CaseResult = CaseResult(position: int, status: nat, time: real, memory: real, points: real, total: real)

  datatype Packet =
    | GradingBegin(sub: int)
    | BatchBegin(sub: int)
    | BatchEnd(sub: int)
    | TestCases(sub: int, results: seq<CaseResult>)
    | GradingEnd(sub: int)
    | Other(sub: int)

  datatype Case = Case(position: int, batch: Option<nat>, verdict: Verdict,
                       time: real, memory: real, points: real, total: real)

  // ---- batch numbers over a packet stream ----

  /** The handler's `batch_id` and `in_batch`. */
  datatype Batch = Batch(id: Option<nat>, inside: bool) {
    /** The batch number a test case gets. */
    function Label(): Option<nat> {
      if inside then id else None
    }
  }

  function Step(b: Batch, p: Packet): Batch {
    match p
    case GradingBegin(_) => b.(id := None)
    case GradingEnd(_) => b.(id := None)
    case BatchBegin(_) => Batch(Some((if b.id.None? then 0 else b.id.value) + 1), true)
    case BatchEnd(_) => b.(inside := false)
    case _ => b
  }

  function After(ps: seq<Packet>, k: nat): Batch
    requires k <= |ps|
  {
    if k == 0 then Batch(None, false) else Step(After(ps, k - 1), ps[k - 1])
  }

  predicate Delimits(p: Packet) { p.GradingBegin? || p.GradingEnd? }

  predicate Closes(p: Packet) { Delimits(p) || p.BatchEnd? }

  /** Packet k lies inside a batch: a batch-begin came before it with no batch-end, grading-begin or grading-end
      since. */
  ghost predicate InBatch(ps: seq<Packet>, k: nat)
    requires k <= |ps|
  {
    exists b :: 0 <= b < k && ps[b].BatchBegin? && forall i :: b < i < k ==> !Closes(ps[i])
  }

  /** A case is numbered exactly when it lies inside a batch, also after submissions abandoned in mid-batch. */
  lemma {:induction false} LabelledInBatch(ps: seq<Packet>, k: nat)
    requires k <= |ps|
    ensures After(ps, k).Label().Some? <==> InBatch(ps, k)
    ensures After(ps, k).id.Some? && After(ps, k).inside ==> After(ps, k).id.value >= 1
  {
    if k > 0 {
      LabelledInBatch(ps, k - 1);
      var p := ps[k - 1];
      if p.BatchBegin? {
        assert ps[k - 1].BatchBegin?;
      } else if !Closes(p) && InBatch(ps, k - 1) {
        var b :| 0 <= b < k - 1 && ps[b].BatchBegin? && forall i :: b < i < k - 1 ==> !Closes(ps[i]);
        assert forall i :: b < i < k ==> !Closes(ps[i]);
      }
    }
  }

  /** How many batches were begun since the last grading-begin or grading-end. */
  function Begun(ps: seq<Packet>, k: nat): nat
    requires k <= |ps|
  {
    if k == 0 || Delimits(ps[k - 1]) then 0
    else Begun(ps, k - 1) + (if ps[k - 1].BatchBegin? then 1 else 0)
  }

  lemma {:induction false} NumberCounts(ps: seq<Packet>, k: nat)
    requires k <= |ps|
    ensures After(ps, k).id == if Begun(ps, k) == 0 then None else Some(Begun(ps, k))
  {
    if k > 0 { NumberCounts(ps, k - 1); }
  }

  /** The number of a batch is how many were begun since the last grading-begin or grading-end, of whatever submission:
      over the whole stream two numbered cases share a number exactly when these counts agree. */
  lemma SameNumber(ps: seq<Packet>, k: nat, m: nat)
    requires k <= |ps| && m <= |ps| && InBatch(ps, k) && InBatch(ps, m)
    ensures After(ps, k).Label() == Some(Begun(ps, k))
    ensures After(ps, k).Label() == After(ps, m).Label() <==> Begun(ps, k) == Begun(ps, m)
  {
    hide After, InBatch;
    LabelledInBatch(ps, k);
    LabelledInBatch(ps, m);
    NumberCounts(ps, k);
    NumberCounts(ps, m);
  }

  /** Between delimiters batch numbers never fall, and rise at every batch-begin. */
  lemma {:induction false} NumbersRise(ps: seq<Packet>, k: nat, m: nat)
    requires k <= m <= |ps|
    requires forall i :: k <= i < m ==> !Delimits(ps[i])
    requires After(ps, k).id.Some?
    ensures After(ps, m).id.Some? && After(ps, k).id.value <= After(ps, m).id.value
    ensures (exists i :: k <= i < m && ps[i].BatchBegin?) ==> After(ps, k).id.value < After(ps, m).id.value
    ensures (forall i :: k <= i < m ==> !ps[i].BatchBegin? && !ps[i].BatchEnd?) ==> After(ps, k) == After(ps, m)
    decreases m - k
  {
    if k < m { NumbersRise(ps, k, m - 1); }
  }

  /** Two cases of one grading share a batch number exactly when they lie inside the same batch-begin and batch-end. */
  lemma SameBatch(ps: seq<Packet>, k: nat, m: nat)
    requires k < m < |ps| && ps[k].TestCases? && ps[m].TestCases?
    requires forall i :: k <= i < m ==> !Delimits(ps[i])
    ensures After(ps, k).Label().Some? && After(ps, k).Label() == After(ps, m).Label()
       <==> InBatch(ps, k) && forall i :: k < i < m ==> !ps[i].BatchBegin? && !ps[i].BatchEnd?
  {
    LabelledInBatch(ps, k);
    LabelledInBatch(ps, m);
    if InBatch(ps, k) {
      NumbersRise(ps, k, m);
      if InBatch(ps, m) {
        var b :| 0 <= b < m && ps[b].BatchBegin? && forall i :: b < i < m ==> !Closes(ps[i]);
        if b < k {
          assert forall i :: k < i < m ==> !Closes(ps[i]);
        }
      }
    }
  }

  // ---- adding up ----

  function Batches(cs: seq<Case>): set<nat> {
    set i | 0 <= i < |cs| && cs[i].batch.Some? :: cs[i].batch.value
  }

  datatype Measure = TimeOf | PointsOf | TotalOf {
    function Of(c: Case): real {
      match this
      case TimeOf => c.time
      case PointsOf => c.points
      case TotalOf => c.total
    }
  }

  /** Sum of what `val` reads off the cases outside batches. */
  function Unbatched(cs: seq<Case>, val: Measure): real {
    if cs == [] then 0.0
    else Unbatched(Init(cs), val) + (if Last(cs).batch.None? then val.Of(Last(cs)) else 0.0)
  }

  function Total(cs: seq<Case>, val: Measure): real {
    if cs == [] then 0.0 else Total(Init(cs), val) + val.Of(Last(cs))
  }

  /** v is the least of the points of batch b's cases. */
  ghost predicate IsLeast(cs: seq<Case>, b: nat, v: real) {
    && (exists c :: c in cs && c.batch == Some(b) && c.points == v)
    && (forall c :: c in cs && c.batch == Some(b) ==> v <= c.points)
  }

  ghost predicate IsGreatest(cs: seq<Case>, b: nat, v: real) {
    && (exists c :: c in cs && c.batch == Some(b) && c.total == v)
    && (forall c :: c in cs && c.batch == Some(b) ==> c.total <= v)
  }

  /** The sum of a map's values. */
  ghost function SumMap(m: map<nat, real>): real {
    if m == map[] then 0.0
    else
      assert m.Keys != {};
      var x :| x in m;
      m[x] + SumMap(m - {x})
  }

  lemma {:induction false} SumMapRemove(m: map<nat, real>, y: nat)
    requires y in m
    ensures SumMap(m) == m[y] + SumMap(m - {y})
    decreases |m|
  {
    assert m.Keys != {};
    var x :| x in m && SumMap(m) == m[x] + SumMap(m - {x});
    if x != y {
      SumMapRemove(m - {x}, y);
      SumMapRemove(m - {y}, x);
      assert m - {x} - {y} == m - {y} - {x};
    }
  }

  /** Sums of ordered maps are ordered, and equal only if the maps are. */
  lemma {:induction false} SumMapOrder(m: map<nat, real>, n: map<nat, real>)
    requires m.Keys == n.Keys
    requires forall b :: b in m ==> m[b] <= n[b]
    ensures SumMap(m) <= SumMap(n)
    ensures SumMap(m) == SumMap(n) <==> m == n
    ensures (forall b :: b in m ==> 0.0 <= m[b]) ==> 0.0 <= SumMap(m)
    decreases |m|
  {
    hide SumMap;
    SumNothing();
    if m == map[] {
      assert n.Keys == {};
      assert n == map[];
    } else {
      assert m.Keys != {};
      var x :| x in m;
      SumMapRemove(m, x);
      SumMapRemove(n, x);
      SumMapOrder(m - {x}, n - {x});
      SameMap(m, n, x);
    }
  }

  lemma SameMap(m: map<nat, real>, n: map<nat, real>, x: nat)
    requires x in m && x in n
    ensures m == n <==> m[x] == n[x] && m - {x} == n - {x}
  {
    assert m == (m - {x})[x := m[x]] && n == (n - {x})[x := n[x]];
  }

  lemma SumNothing()
    ensures SumMap(map[]) == 0.0
  {}

  /** Per batch, the least points and the greatest total. */
  ghost predicate Summarizes(cs: seq<Case>, least: map<nat, real>, greatest: map<nat, real>) {
    && least.Keys == greatest.Keys == Batches(cs)
    && forall b :: b in least ==> IsLeast(cs, b, least[b]) && IsGreatest(cs, b, greatest[b])
  }

  datatype Tally = Tally(time: real, memory: real, points: real, total: real, severity: nat)

  ghost predicate IsPeak(cs: seq<Case>, memory: real, severity: nat) {
    && (forall c :: c in cs ==> c.memory <= memory && c.verdict.Severity() <= severity)
    && 0.0 <= memory && (memory == 0.0 || exists c :: c in cs && c.memory == memory)
    && (severity == 0 || exists c :: c in cs && c.verdict.Severity() == severity)
  }

  /** What the cases of a submission add up to: cases outside batches count one by one, a batch counts its least points
      out of its greatest total; the verdict is the most severe one. */
  ghost predicate AddsUp(cs: seq<Case>, t: Tally) {
    && t.time == Total(cs, TimeOf)
    && (exists least, greatest :: Summarizes(cs, least, greatest)
          && t.points == Unbatched(cs, PointsOf) + SumMap(least)
          && t.total == Unbatched(cs, TotalOf) + SumMap(greatest))
    && IsPeak(cs, t.memory, t.severity)
  }

  // ---- one more case ----

  lemma BatchesAdd(cs: seq<Case>, c: Case)
    ensures Batches(cs + [c]) == Batches(cs) + (if c.batch.Some? then {c.batch.value} else {})
  {
    var ds := cs + [c];
    forall b | b in Batches(cs) ensures b in Batches(ds) {
      var i :| 0 <= i < |cs| && cs[i].batch.Some? && cs[i].batch.value == b;
      assert ds[i] == cs[i];
    }
    assert ds[|cs|] == c;
  }

  lemma InBatches(cs: seq<Case>, c: Case)
    requires c in cs && c.batch.Some?
    ensures c.batch.value in Batches(cs)
  {
    var i :| 0 <= i < |cs| && cs[i] == c;
  }

  lemma BatchAdd(cs: seq<Case>, c: Case, b: nat, l: real, g: real)
    requires IsLeast(cs, b, l) && IsGreatest(cs, b, g)
    ensures IsLeast(cs + [c], b, if c.batch == Some(b) then Min(l, c.points) else l)
    ensures IsGreatest(cs + [c], b, if c.batch == Some(b) then Max(g, c.total) else g)
  {
    assert forall d :: d in cs + [c] <==> d in cs || d == c;
  }

  lemma BatchNew(cs: seq<Case>, c: Case, b: nat)
    requires c.batch == Some(b) && b !in Batches(cs)
    ensures IsLeast(cs + [c], b, c.points) && IsGreatest(cs + [c], b, c.total)
  {
    assert forall d :: d in cs + [c] <==> d in cs || d == c;
    forall d | d in cs ensures d.batch != Some(b) {
      if d.batch.Some? { InBatches(cs, d); }
    }
  }

  lemma SummarizesStep(cs: seq<Case>, c: Case, least: map<nat, real>, greatest: map<nat, real>)
    requires Summarizes(cs, least, greatest)
    ensures c.batch.None? ==> Summarizes(cs + [c], least, greatest)
    ensures c.batch.Some? && c.batch.value in least ==>
              var b := c.batch.value;
              Summarizes(cs + [c], least[b := Min(least[b], c.points)], greatest[b := Max(greatest[b], c.total)])
    ensures c.batch.Some? && c.batch.value !in least ==>
              var b := c.batch.value;
              Summarizes(cs + [c], least[b := c.points], greatest[b := c.total])
  {
    hide IsLeast, IsGreatest, Batches;
    BatchesAdd(cs, c);
    forall b | b in least { BatchAdd(cs, c, b, least[b], greatest[b]); }
    if c.batch.Some? && c.batch.value !in least { BatchNew(cs, c, c.batch.value); }
  }

  lemma PeakStep(cs: seq<Case>, c: Case, memory: real, severity: nat)
    requires IsPeak(cs, memory, severity)
    ensures var worst := c.verdict.Severity();
            IsPeak(cs + [c], Max(memory, c.memory), if worst > severity then worst else severity)
  {
    hide Verdict.Severity;
    assert forall d :: d in cs + [c] <==> d in cs || d == c;
  }

  lemma SumsStep(cs: seq<Case>, c: Case, val: Measure)
    ensures Total(cs + [c], val) == Total(cs, val) + val.Of(c)
    ensures Unbatched(cs + [c], val) == Unbatched(cs, val) + (if c.batch.None? then val.Of(c) else 0.0)
  {
    assert Init(cs + [c]) == cs;
  }

  /** The first loop of `on_grading_end`. */
  method Collect(cs: seq<Case>)
    returns (time: real, memory: real, points: real, total: real, status: nat,
             least: map<nat, real>, greatest: map<nat, real>)
    ensures Summarizes(cs, least, greatest)
    ensures time == Total(cs, TimeOf)
    ensures points == Unbatched(cs, PointsOf) && total == Unbatched(cs, TotalOf)
    ensures IsPeak(cs, memory, status)
  {
    hide Summarizes, IsPeak, Total, Unbatched, Verdict.Severity;
    time, memory, points, total, status := 0.0, 0.0, 0.0, 0.0, 0;
    least, greatest := map[], map[];
    Nothing();
    for k := 0 to |cs|
      invariant least.Keys == greatest.Keys
      invariant Summarizes(cs[..k], least, greatest)
      invariant time == Total(cs[..k], TimeOf)
      invariant points == Unbatched(cs[..k], PointsOf) && total == Unbatched(cs[..k], TotalOf)
      invariant IsPeak(cs[..k], memory, status)
    {
      var c := cs[k];
      SummarizesStep(cs[..k], c, least, greatest);
      PeakStep(cs[..k], c, memory, status);
      SumsStep(cs[..k], c, TimeOf);
      SumsStep(cs[..k], c, PointsOf);
      SumsStep(cs[..k], c, TotalOf);
      assert cs[..k + 1] == cs[..k] + [c];
      time := time + c.time;
      if c.batch.None? {
        points := points + c.points;
        total := total + c.total;
      } else {
        var b := c.batch.value;
        if b in least {
          least := least[b := Min(least[b], c.points)];
          greatest := greatest[b := Max(greatest[b], c.total)];
        } else {
          least := least[b := c.points];
          greatest := greatest[b := c.total];
        }
      }
      memory := Max(memory, c.memory);
      if c.verdict.Severity() > status {
        status := c.verdict.Severity();
      }
    }
    assert cs[..|cs|] == cs;
  }

  lemma Nothing()
    ensures Summarizes([], map[], map[]) && IsPeak([], 0.0, 0)
    ensures forall val :: Total([], val) == 0.0 && Unbatched([], val) == 0.0
  {}

  /** The second loop: one addition per batch, in any order. */
  method AddBatches(points: real, m: map<nat, real>) returns (r: real)
    ensures r == points + SumMap(m)
  {
    hide SumMap;
    r := points;
    var left := m.Keys;
    assert m.Keys - m.Keys == {} && m - {} == m;
    while left != {}
      invariant left <= m.Keys
      invariant r + SumMap(m - (m.Keys - left)) == points + SumMap(m)
      decreases left
    {
      var b :| b in left;
      SumMapRemove(m - (m.Keys - left), b);
      assert m - (m.Keys - left) - {b} == m - (m.Keys - (left - {b}));
      r := r + m[b];
      left := left - {b};
    }
    assert m - m.Keys == map[];
    SumNothing();
  }

  method Aggregate(cs: seq<Case>) returns (t: Tally)
    ensures AddsUp(cs, t)
  {
    hide Summarizes, IsPeak, Total, Unbatched, SumMap;
    var time, memory, points, total, status, least, greatest := Collect(cs);
    points := AddBatches(points, least);
    total := AddBatches(total, greatest);
    t := Tally(time, memory, points, total, status);
  }

  // ---- what the sums are ----

  lemma {:induction false} TotalPermuted(cs: seq<Case>, ds: seq<Case>, val: Measure)
    requires multiset(cs) == multiset(ds)
    ensures Total(cs, val) == Total(ds, val) && Unbatched(cs, val) == Unbatched(ds, val)
    decreases |cs|
  {
    if cs == [] {
      assert |ds| == |multiset(ds)| == 0;
    } else {
      var c := Last(cs);
      assert cs == Init(cs) + [c];
      assert c in multiset(ds);
      var i :| 0 <= i < |ds| && ds[i] == c;
      MultisetTake(ds, i);
      TotalPermuted(Init(cs), ds[..i] + ds[i + 1..], val);
      TotalTake(ds, i, val);
    }
  }

  lemma MultisetTake(ds: seq<Case>, i: nat)
    requires i < |ds|
    ensures multiset(ds[..i] + ds[i + 1..]) == multiset(ds) - multiset{ds[i]}
  {
    assert ds == ds[..i] + [ds[i]] + ds[i + 1..];
  }

  /** Taking one case out of the middle takes its share out of the sums. */
  lemma {:induction false} TotalTake(ds: seq<Case>, i: nat, val: Measure)
    requires i < |ds|
    ensures Total(ds, val) == Total(ds[..i] + ds[i + 1..], val) + val.Of(ds[i])
    ensures Unbatched(ds, val)
         == Unbatched(ds[..i] + ds[i + 1..], val) + (if ds[i].batch.None? then val.Of(ds[i]) else 0.0)
    decreases |ds|
  {
    var rest := ds[..i] + ds[i + 1..];
    if i == |ds| - 1 {
      assert rest == Init(ds);
    } else {
      TotalTake(Init(ds), i, val);
      assert Init(rest) == Init(ds)[..i] + Init(ds)[i + 1..];
      assert Last(rest) == Last(ds);
    }
  }

  lemma SummaryPermuted(cs: seq<Case>, ds: seq<Case>, least: map<nat, real>, greatest: map<nat, real>)
    requires multiset(cs) == multiset(ds) && Summarizes(cs, least, greatest)
    ensures Summarizes(ds, least, greatest)
  {
    forall c ensures c in cs <==> c in ds {
      assert c in multiset(cs) <==> c in multiset(ds);
    }
    forall b ensures b in Batches(cs) <==> b in Batches(ds) {
      if b in Batches(cs) {
        var i :| 0 <= i < |cs| && cs[i].batch.Some? && cs[i].batch.value == b;
        InBatches(ds, cs[i]);
      }
      if b in Batches(ds) {
        var i :| 0 <= i < |ds| && ds[i].batch.Some? && ds[i].batch.value == b;
        InBatches(cs, ds[i]);
      }
    }
  }

  lemma SummaryUnique(cs: seq<Case>, l1: map<nat, real>, g1: map<nat, real>, l2: map<nat, real>, g2: map<nat, real>)
    requires Summarizes(cs, l1, g1) && Summarizes(cs, l2, g2)
    ensures l1 == l2 && g1 == g2
  {
    forall b | b in l1 ensures l1[b] == l2[b] && g1[b] == g2[b] {
      assert IsLeast(cs, b, l1[b]) && IsLeast(cs, b, l2[b]);
      assert IsGreatest(cs, b, g1[b]) && IsGreatest(cs, b, g2[b]);
    }
  }

  /** The tally does not depend on the order in which the cases are read. */
  lemma TallyPermuted(cs: seq<Case>, ds: seq<Case>, t: Tally, u: Tally)
    requires multiset(cs) == multiset(ds)
    requires AddsUp(cs, t) && AddsUp(ds, u)
    ensures t == u
  {
    hide Total, Unbatched, SumMap, Summarizes, IsPeak;
    TotalPermuted(cs, ds, TimeOf);
    TotalPermuted(cs, ds, PointsOf);
    TotalPermuted(cs, ds, TotalOf);
    var l1, g1 :| Summarizes(cs, l1, g1)
      && t.points == Unbatched(cs, PointsOf) + SumMap(l1) && t.total == Unbatched(cs, TotalOf) + SumMap(g1);
    var l2, g2 :| Summarizes(ds, l2, g2)
      && u.points == Unbatched(ds, PointsOf) + SumMap(l2) && u.total == Unbatched(ds, TotalOf) + SumMap(g2);
    SummaryPermuted(cs, ds, l1, g1);
    SummaryUnique(ds, l1, g1, l2, g2);
    PeakPermuted(cs, ds, t.memory, t.severity, u.memory, u.severity);
  }

  lemma PeakPermuted(cs: seq<Case>, ds: seq<Case>, m1: real, s1: nat, m2: real, s2: nat)
    requires multiset(cs) == multiset(ds)
    requires IsPeak(cs, m1, s1) && IsPeak(ds, m2, s2)
    ensures m1 == m2 && s1 == s2
  {
    hide Verdict.Severity;
    forall c ensures c in cs <==> c in ds {
      assert c in multiset(cs) <==> c in multiset(ds);
    }
  }

  lemma {:induction false} UnbatchedOrder(cs: seq<Case>)
    requires forall c :: c in cs ==> 0.0 <= c.points <= c.total
    ensures 0.0 <= Unbatched(cs, PointsOf) <= Unbatched(cs, TotalOf)
  {
    if cs != [] {
      assert Last(cs) in cs;
      forall c | c in Init(cs) ensures c in cs {}
      UnbatchedOrder(Init(cs));
    }
  }

  lemma LeastBelowGreatest(cs: seq<Case>, b: nat, l: real, g: real)
    requires IsLeast(cs, b, l) && IsGreatest(cs, b, g)
    requires forall c :: c in cs ==> 0.0 <= c.points <= c.total
    ensures 0.0 <= l <= g
  {
    var c :| c in cs && c.batch == Some(b) && c.points == l;
    assert c.total <= g;
  }

  /** If every case's points lie between 0 and its total, so do the submission's, also when a batch's cases differ. */
  lemma TallyBounds(cs: seq<Case>, t: Tally)
    requires AddsUp(cs, t)
    requires forall c :: c in cs ==> 0.0 <= c.points <= c.total
    ensures 0.0 <= t.points <= t.total
  {
    hide Unbatched, SumMap, IsPeak, IsLeast, IsGreatest, Batches;
    UnbatchedOrder(cs);
    var l, g :| Summarizes(cs, l, g)
      && t.points == Unbatched(cs, PointsOf) + SumMap(l) && t.total == Unbatched(cs, TotalOf) + SumMap(g);
    forall b | b in l ensures 0.0 <= l[b] <= g[b] {
      LeastBelowGreatest(cs, b, l[b], g[b]);
    }
    SumMapOrder(l, g);
  }

  // ---- full points on every case ----

  ghost predicate Full(cs: seq<Case>) {
    forall c :: c in cs ==> c.points == c.total
  }

  /** Within a batch all cases are worth the same. */
  ghost predicate EvenBatches(cs: seq<Case>) {
    forall c, d :: c in cs && d in cs && c.batch.Some? && c.batch == d.batch ==> c.total == d.total
  }

  lemma {:induction false} UnbatchedFull(cs: seq<Case>)
    requires Full(cs)
    ensures Unbatched(cs, PointsOf) == Unbatched(cs, TotalOf)
  {
    if cs != [] {
      assert Last(cs) in cs;
      forall c | c in Init(cs) ensures c in cs {}
      UnbatchedFull(Init(cs));
    }
  }

  lemma EvenSummary(cs: seq<Case>, least: map<nat, real>, greatest: map<nat, real>)
    requires Full(cs) && Summarizes(cs, least, greatest)
    ensures forall b :: b in least ==> least[b] <= greatest[b]
    ensures least == greatest <==> EvenBatches(cs)
  {
    hide Batches;
    forall b | b in least
      ensures least[b] <= greatest[b]
      ensures EvenBatches(cs) ==> least[b] == greatest[b]
    {
      assert IsLeast(cs, b, least[b]) && IsGreatest(cs, b, greatest[b]);
    }
    if least == greatest {
      forall c, d | c in cs && d in cs && c.batch.Some? && c.batch == d.batch ensures c.total == d.total {
        InBatches(cs, c);
        var b := c.batch.value;
        assert IsLeast(cs, b, least[b]) && IsGreatest(cs, b, greatest[b]);
      }
    }
  }

  /** Full points on every case give all the points there are exactly when each batch's cases are worth the same. */
  lemma FullTally(cs: seq<Case>, t: Tally)
    requires AddsUp(cs, t) && Full(cs)
    ensures t.points <= t.total
    ensures t.points == t.total <==> EvenBatches(cs)
  {
    hide Unbatched, SumMap, IsPeak, Summarizes, Full, EvenBatches;
    UnbatchedFull(cs);
    var l, g :| Summarizes(cs, l, g)
      && t.points == Unbatched(cs, PointsOf) + SumMap(l) && t.total == Unbatched(cs, TotalOf) + SumMap(g);
    EvenSummary(cs, l, g);
    SummaryKeys(cs, l, g);
    SumMapOrder(l, g);
  }

  lemma SummaryKeys(cs: seq<Case>, least: map<nat, real>, greatest: map<nat, real>)
    requires Summarizes(cs, least, greatest)
    ensures least.Keys == greatest.Keys
  {}

  // ---- the score ----

  /** The part of `worth` that points out of total earn. */
  function Share(points: real, total: real, worth: real): real {
    if total > 0.0 then points / total * worth else 0.0
  }

  /** What is written to the submission. */
  datatype Graded = Graded(casePoints: real, caseTotal: real, points: real, time: real, memory: real, result: Verdict)

  /** `status_codes`. */
  function StatusCode(severity: nat): Verdict {
    match severity
    case 0 => SC case 1 => AC case 2 => WA case 3 => MLE case 4 => TLE case 5 => IR case 6 => RTE case _ => OLE
  }

  lemma StatusCodeIs(v: Verdict)
    ensures StatusCode(v.Severity()) == v
  {}

  /** The submission's score out of `worth`, the problem's points. */
  function Score(t: Tally, worth: real, partial: bool): Graded {
    var points, total := RoundTo(t.points, 10.0), RoundTo(t.total, 10.0);
    var sub := RoundTo(Share(points, total, worth), 1000.0);
    Graded(points, total, if !partial && sub != worth then 0.0 else sub, t.time, t.memory, StatusCode(t.severity))
  }

  /** The verdict written is that of a most severe case. */
  lemma WorstVerdict(cs: seq<Case>, t: Tally, worth: real, partial: bool)
    requires AddsUp(cs, t)
    ensures var v := Score(t, worth, partial).result;
            && (forall c :: c in cs ==> c.verdict.Severity() <= v.Severity())
            && (cs != [] ==> exists c :: c in cs && c.verdict == v)
            && (cs == [] ==> v == SC)
  {
    hide RoundTo, Share, Total, Unbatched, SumMap, Summarizes;
    forall c | c in cs { StatusCodeIs(c.verdict); }
    if cs != [] && t.severity == 0 {
      assert cs[0] in cs;
      StatusCodeIs(cs[0].verdict);
    }
  }

  /** The score lies between 0 and the problem's (rounded) points, and is all or nothing without partial credit. */
  lemma ScoreBounds(cs: seq<Case>, t: Tally, worth: real, partial: bool)
    requires AddsUp(cs, t) && worth >= 0.0
    requires forall c :: c in cs ==> 0.0 <= c.points <= c.total
    ensures var g := Score(t, worth, partial);
            && 0.0 <= g.casePoints <= g.caseTotal
            && 0.0 <= g.points <= RoundTo(worth, 1000.0)
            && (!partial ==> g.points == 0.0 || g.points == worth)
  {
    TallyBounds(cs, t);
    ScoreRange(t, worth, partial);
  }

  lemma ScoreRange(t: Tally, worth: real, partial: bool)
    requires 0.0 <= t.points <= t.total && worth >= 0.0
    ensures var g := Score(t, worth, partial);
            && 0.0 <= g.casePoints <= g.caseTotal
            && 0.0 <= g.points <= RoundTo(worth, 1000.0)
            && (!partial ==> g.points == 0.0 || g.points == worth)
  {
    hide RoundTo, Share;
    var points, total := RoundTo(t.points, 10.0), RoundTo(t.total, 10.0);
    RoundToZero(10.0);
    RoundToZero(1000.0);
    RoundToMonotone(0.0, t.points, 10.0);
    RoundToMonotone(t.points, t.total, 10.0);
    ShareRange(points, total, worth);
    RoundToMonotone(0.0, Share(points, total, worth), 1000.0);
    RoundToMonotone(Share(points, total, worth), worth, 1000.0);
  }

  lemma ShareRange(points: real, total: real, worth: real)
    requires 0.0 <= points <= total && worth >= 0.0
    ensures 0.0 <= Share(points, total, worth) <= worth
  {
    if total > 0.0 {
      DivMono(0.0, points, total);
      DivMono(points, total, total);
      assert 0.0 / total == 0.0 && total / total == 1.0;
      MulNonNeg(points / total, worth);
      MulMono(worth, points / total, 1.0);
      assert points / total * worth == worth * (points / total);
    }
  }

  lemma ShareFull(total: real, worth: real)
    requires total > 0.0
    ensures Share(total, total, worth) == worth
  {
    assert total / total == 1.0;
  }

  /** Points this far below (or above) a multiple of a thousandth round to it; w is that multiple, in thousandths. */
  predicate Negligible(loss: real, w: int) {
    -0.5 < loss * 1000.0 < 0.5 || (w % 2 == 0 && (loss * 1000.0 == 0.5 || loss * 1000.0 == -0.5))
  }

  lemma RoundsTo(x: real, worth: real)
    ensures RoundTo(x, 1000.0) == worth
       <==> RoundTo(worth, 1000.0) == worth && Negligible(worth - x, RoundHalfEven(worth * 1000.0))
  {
    hide RoundHalfEven;
    var y, v := x * 1000.0, worth * 1000.0;
    var a, w := RoundHalfEven(y), RoundHalfEven(v);
    assert RoundTo(x, 1000.0) == worth <==> a as real == v;
    assert RoundTo(worth, 1000.0) == worth <==> w as real == v;
    assert (worth - x) * 1000.0 == v - y;
    RoundsToInt(y, w);
    RoundsToInt(v, a);
  }

  lemma RoundsToInt(y: real, w: int)
    ensures RoundHalfEven(y) == w
       <==> -0.5 < w as real - y < 0.5 || (w % 2 == 0 && (w as real - y == 0.5 || w as real - y == -0.5))
  {}

  /** When a submission gets exactly the problem's points, with and without partial credit alike: the rounded total is
      positive, the problem's points are a multiple of a thousandth, and what is lost rounds away. */
  lemma ScoreIsWorth(t: Tally, worth: real, partial: bool)
    ensures var loss := worth - Share(RoundTo(t.points, 10.0), RoundTo(t.total, 10.0), worth);
            Score(t, worth, partial).points == worth <==>
              worth == 0.0 || (RoundTo(worth, 1000.0) == worth && Negligible(loss, RoundHalfEven(worth * 1000.0)))
  {
    hide RoundTo, Negligible, RoundHalfEven;
    var points, total := RoundTo(t.points, 10.0), RoundTo(t.total, 10.0);
    RoundsTo(Share(points, total, worth), worth);
    if worth == 0.0 {
      ShareOfNothing(points, total);
      RoundToZero(1000.0);
    }
  }

  lemma ShareOfNothing(points: real, total: real)
    ensures Share(points, total, 0.0) == 0.0
  {}

  /** Full points on every case of a submission whose batches are even earn the problem's points exactly when the
      rounded total is positive and the problem's points are a multiple of a thousandth; otherwise what is left of
      them is the rounded value, or nothing without partial credit, and nothing at all if the total rounds to zero. */
  lemma FullMarks(cs: seq<Case>, t: Tally, worth: real, partial: bool)
    requires AddsUp(cs, t) && Full(cs) && EvenBatches(cs)
    ensures var score, total := Score(t, worth, partial).points, RoundTo(t.total, 10.0);
            && (score == worth <==> worth == 0.0 || (total > 0.0 && RoundTo(worth, 1000.0) == worth))
            && (score != worth ==> score == if partial && total > 0.0 then RoundTo(worth, 1000.0) else 0.0)
  {
    hide RoundTo, Share, AddsUp, Full, EvenBatches;
    FullTally(cs, t);
    var total := RoundTo(t.total, 10.0);
    RoundToZero(1000.0);
    if total > 0.0 { ShareFull(total, worth); } else { ShareNone(total, worth); }
    if worth == 0.0 { ShareOfNothing(total, total); }
  }

  lemma ShareNone(total: real, worth: real)
    requires total <= 0.0
    ensures Share(total, total, worth) == 0.0
  {}

  function FullCase(batch: Option<nat>, points: real): Case {
    Case(0, batch, AC, 0.0, 0.0, points, points)
  }

  lemma OneCaseTally(points: real)
    requires points >= 0.0
    ensures AddsUp([FullCase(None, points)], Tally(0.0, 0.0, points, points, 1))
    ensures Full([FullCase(None, points)]) && EvenBatches([FullCase(None, points)])
  {
    hide SumMap;
    var c := FullCase(None, points);
    Nothing();
    SummarizesStep([], c, map[], map[]);
    SumsStep([], c, TimeOf);
    SumsStep([], c, PointsOf);
    SumsStep([], c, TotalOf);
    SumNothing();
    assert [] + [c] == [c];
    assert Summarizes([c], map[], map[]);
    assert c in [c];
  }

  /** Full points on every case of a batch of a 5-point and a 10-point case earn half the problem's points, or nothing
      without partial credit. */
  lemma UnevenBatch() returns (cs: seq<Case>, t: Tally)
    ensures AddsUp(cs, t) && Full(cs) && !EvenBatches(cs)
    ensures Score(t, 100.0, true).points == 50.0 && Score(t, 100.0, false).points == 0.0
  {
    hide SumMap, Summarizes, Total, Unbatched, IsPeak;
    var c, d := FullCase(Some(1), 5.0), FullCase(Some(1), 10.0);
    cs := [c] + [d];
    t := Tally(0.0, 0.0, 5.0, 10.0, 1);
    Nothing();
    SummarizesStep([], c, map[], map[]);
    SumsStep([], c, TimeOf);
    SumsStep([], c, PointsOf);
    SumsStep([], c, TotalOf);
    PeakStep([], c, 0.0, 0);
    assert [] + [c] == [c];
    SummarizesStep([c], d, map[1 := 5.0], map[1 := 5.0]);
    SumsStep([c], d, TimeOf);
    SumsStep([c], d, PointsOf);
    SumsStep([c], d, TotalOf);
    PeakStep([c], d, 0.0, 1);
    SumOne(1, 5.0);
    SumOne(1, 10.0);
    assert map[1 := 5.0][1 := 10.0] == map[1 := 10.0] && map[1 := 5.0][1 := 5.0] == map[1 := 5.0];
    assert Summarizes(cs, map[1 := 5.0], map[1 := 10.0]);
    assert c in cs && d in cs;
    UnevenScores(t);
  }

  lemma SumOne(b: nat, v: real)
    ensures SumMap(map[b := v]) == v
  {
    SumMapRemove(map[b := v], b);
    assert map[b := v] - {b} == map[];
    SumNothing();
  }

  lemma UnevenScores(t: Tally)
    requires t.points == 5.0 && t.total == 10.0
    ensures Score(t, 100.0, true).points == 50.0 && Score(t, 100.0, false).points == 0.0
  {
    assert RoundTo(5.0, 10.0) == 5.0 && RoundTo(10.0, 10.0) == 10.0 && RoundTo(50.0, 1000.0) == 50.0;
  }

  /** A problem worth a ten-thousandth of a point is never solved, and neither is one whose cases total 0.04. */
  lemma RoundedAway() returns (t: Tally, u: Tally)
    ensures AddsUp([FullCase(None, 5.0)], t) && Score(t, 0.0001, false).points == 0.0
    ensures AddsUp([FullCase(None, 0.04)], u) && Score(u, 100.0, true).points == 0.0
  {
    t, u := Tally(0.0, 0.0, 5.0, 5.0, 1), Tally(0.0, 0.0, 0.04, 0.04, 1);
    OneCaseTally(5.0);
    OneCaseTally(0.04);
    TinyScores(t, u);
  }

  lemma TinyScores(t: Tally, u: Tally)
    requires t.points == t.total == 5.0 && u.points == u.total == 0.04
    ensures Score(t, 0.0001, false).points == 0.0 && Score(u, 100.0, true).points == 0.0
  {
    assert RoundTo(5.0, 10.0) == 5.0 && Share(5.0, 5.0, 0.0001) == 0.0001 && RoundTo(0.0001, 1000.0) == 0.0;
    assert RoundTo(0.04, 10.0) == 0.0 && Share(0.0, 0.0, 100.0) == 0.0 && RoundTo(0.0, 1000.0) == 0.0;
  }

  // ---- the handler ----

  function Bit(status: nat, weight: nat): bool
    requires weight > 0
  {
    status / weight % 2 == 1
  }

  /** The verdict for a case's status flags, tested in the order of the source. */
  function VerdictOf(status: nat): Verdict {
    if Bit(status, 4) then TLE
    else if Bit(status, 8) then MLE
    else if Bit(status, 64) then OLE
    else if Bit(status, 2) then RTE
    else if Bit(status, 16) then IR
    else if Bit(status, 1) then WA
    else if Bit(status, 32) then SC
    else AC
  }

  function CaseOf(r: CaseResult, number: Option<nat>): Case {
    Case(r.position, number, VerdictOf(r.status), r.time, r.memory, r.points, r.total)
  }

  function CasesOf(rs: seq<CaseResult>, number: Option<nat>): (cs: seq<Case>)
    ensures |cs| == |rs|
  {
    seq(|rs|, k requires 0 <= k < |rs| => CaseOf(rs[k], number))
  }

  type Rows = map<int, seq<Case>>

  /** The stored test cases of every known submission. */
  function Store(rows: Rows, b: Batch, p: Packet): Rows {
    match p
    case GradingBegin(sub) => if sub in rows then rows[sub := []] else rows
    case TestCases(sub, results) => if sub in rows then rows[sub := rows[sub] + CasesOf(results, b.Label())] else rows
    case _ => rows
  }

  function RowsAfter(rows: Rows, ps: seq<Packet>, k: nat): Rows
    requires k <= |ps|
  {
    if k == 0 then rows else Store(RowsAfter(rows, ps, k - 1), After(ps, k - 1), ps[k - 1])
  }

  /** The cases a packet reports for `sub`, in the given batch. */
  function CasesIn(p: Packet, sub: int, batch: Option<nat>): seq<Case> {
    if p.TestCases? && p.sub == sub then CasesOf(p.results, batch) else []
  }

  /** The cases reported for `sub` in packets b to k, numbered by the batch each packet lies in. */
  function Gathered(ps: seq<Packet>, sub: int, b: nat, k: nat): seq<Case>
    requires b <= k <= |ps|
    decreases k - b
  {
    if k == b then []
    else Gathered(ps, sub, b, k - 1) + CasesIn(ps[k - 1], sub, After(ps, k - 1).Label())
  }

  /** What is graded: exactly the cases reported since the submission's last grading-begin, whatever else the judge
      sent. */
  lemma {:induction false} StoredCases(rows: Rows, ps: seq<Packet>, sub: int, b: nat, k: nat)
    requires b < k <= |ps| && ps[b] == GradingBegin(sub) && sub in rows
    requires forall i :: b < i < k ==> ps[i] != GradingBegin(sub)
    ensures sub in RowsAfter(rows, ps, k) && RowsAfter(rows, ps, k)[sub] == Gathered(ps, sub, b, k)
    decreases k - b
  {
    hide After, Store, CasesIn;
    StaysKnown(rows, ps, sub, b);
    if k == b + 1 {
      StoreBegin(RowsAfter(rows, ps, b), After(ps, b), sub);
    } else {
      StoredCases(rows, ps, sub, b, k - 1);
      StoreStep(RowsAfter(rows, ps, k - 1), After(ps, k - 1), ps[k - 1], sub);
    }
  }

  lemma StoreBegin(rows: Rows, b: Batch, sub: int)
    requires sub in rows
    ensures Store(rows, b, GradingBegin(sub)) == rows[sub := []]
    ensures CasesIn(GradingBegin(sub), sub, b.Label()) == []
  {}

  lemma StoreStep(rows: Rows, b: Batch, p: Packet, sub: int)
    requires sub in rows && p != GradingBegin(sub)
    ensures sub in Store(rows, b, p) && Store(rows, b, p)[sub] == rows[sub] + CasesIn(p, sub, b.Label())
  {
    hide CasesOf;
    assert rows[sub] + [] == rows[sub];
  }

  lemma {:induction false} StaysKnown(rows: Rows, ps: seq<Packet>, sub: int, k: nat)
    requires k <= |ps| && sub in rows
    ensures sub in RowsAfter(rows, ps, k)
  {
    if k > 0 { StaysKnown(rows, ps, sub, k - 1); }
  }

  class JudgeHandler {
    var batchId: Option<nat>
    var inBatch: bool
    var rows: Rows

    ghost function Abs(): Batch
      reads this
    {
      Batch(batchId, inBatch)
    }

    constructor (rows: Rows)
      ensures Abs() == After([], 0) && this.rows == rows
    {
      batchId := None;
      inBatch := false;
      this.rows := rows;
    }

    method OnGradingBegin(sub: int)
      modifies this
      ensures Abs() == Step(old(Abs()), GradingBegin(sub))
      ensures rows == Store(old(rows), old(Abs()), GradingBegin(sub))
    {
      batchId := None;
      if sub in rows {
        rows := rows[sub := []];
      }
    }

    method OnBatchBegin(sub: int)
      modifies this
      ensures Abs() == Step(old(Abs()), BatchBegin(sub)) && rows == old(rows)
    {
      inBatch := true;
      if batchId.None? {
        batchId := Some(0);
      }
      batchId := Some(batchId.value + 1);
    }

    method OnBatchEnd(sub: int)
      modifies this
      ensures Abs() == Step(old(Abs()), BatchEnd(sub)) && rows == old(rows)
    {
      inBatch := false;
    }

    method OnTestCase(sub: int, results: seq<CaseResult>)
      modifies this
      ensures Abs() == Step(old(Abs()), TestCases(sub, results))
      ensures rows == Store(old(rows), old(Abs()), TestCases(sub, results))
    {
      if sub !in rows {
        return;
      }
      var updates: seq<Case> := [];
      ghost var number := Abs().Label();
      for k := 0 to |results|
        invariant updates == CasesOf(results, number)[..k]
        invariant Abs() == old(Abs()) && rows == old(rows)
      {
        updates := updates + [CaseOf(results[k], if inBatch then batchId else None)];
      }
      assert updates == CasesOf(results, number);
      rows := rows[sub := rows[sub] + updates];
    }

    /** What is written to a known submission; None for an unknown one. */
    method OnGradingEnd(sub: int, worth: real, partial: bool) returns (graded: Option<Graded>, ghost t: Tally)
      modifies this
      ensures Abs() == Step(old(Abs()), GradingEnd(sub)) && rows == old(rows)
      ensures graded.Some? <==> sub in rows
      ensures sub in rows ==> AddsUp(rows[sub], t) && graded.value == Score(t, worth, partial)
    {
      batchId := None;
      if sub !in rows {
        t := Tally(0.0, 0.0, 0.0, 0.0, 0);
        return None, t;
      }
      var tally := Aggregate(rows[sub]);
      t := tally;
      var points, total := RoundTo(tally.points, 10.0), RoundTo(tally.total, 10.0);
      var score := RoundTo(Share(points, total, worth), 1000.0);
      if !partial && score != worth {
        score := 0.0;
      }
      graded := Some(Graded(points, total, score, tally.time, tally.memory, StatusCode(tally.severity)));
    }
  }
}
