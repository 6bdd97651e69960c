/** Ranks with ties averaged (judge/ratings.py, `tie_ranker`). */
module TieRanker {
  import opened Prelude
  import opened RealFacts

  /** The first and last index of the run of equal keys around i. */
  function RunStart<K(==)>(keys: seq<K>, i: nat): (r: nat)
    requires i < |keys|
    ensures r <= i
  {
    if i > 0 && keys[i - 1] == keys[i] then RunStart(keys, i - 1) else i
  }

  function RunEnd<K(==)>(keys: seq<K>, i: nat): (r: nat)
    requires i < |keys|
    ensures i <= r < |keys|
    decreases |keys| - i
  {
    if i + 1 < |keys| && keys[i + 1] == keys[i] then RunEnd(keys, i + 1) else i
  }

  function TieRanks<K(==)>(keys: seq<K>): (r: seq<real>)
    ensures |r| == |keys|
  {
    seq(|keys|, i requires 0 <= i < |keys| => ((RunStart(keys, i) + 1) + (RunEnd(keys, i) + 1)) as real / 2.0)
  }

  /** keys[a..b] is a maximal run of equal keys. */
  ghost predicate MaximalRun<K>(keys: seq<K>, a: nat, b: nat) {
    && a < b <= |keys|
    && (forall k :: a <= k < b ==> keys[k] == keys[a])
    && (a > 0 ==> keys[a - 1] != keys[a])
    && (b < |keys| ==> keys[b] != keys[a])
  }

  lemma {:induction false} RunStartIs<K>(keys: seq<K>, a: nat, b: nat, k: nat)
    requires MaximalRun(keys, a, b) && a <= k < b
    ensures RunStart(keys, k) == a
  {
    if k > a { RunStartIs(keys, a, b, k - 1); }
  }

  lemma {:induction false} RunEndIs<K>(keys: seq<K>, a: nat, b: nat, k: nat)
    requires MaximalRun(keys, a, b) && a <= k < b
    ensures RunEnd(keys, k) == b - 1
    decreases b - k
  {
    if k + 1 < b { RunEndIs(keys, a, b, k + 1); }
  }

  /** Every member of a maximal run gets the average of the run's 1-based positions a + 1 .. b. */
  lemma TieRanksAverage<K>(keys: seq<K>, a: nat, b: nat, k: nat)
    requires MaximalRun(keys, a, b) && a <= k < b
    ensures TieRanks(keys)[k] == ((a + 1) + b) as real / 2.0
  {
    RunStartIs(keys, a, b, k);
    RunEndIs(keys, a, b, k);
  }

  lemma {:induction false} RunMaximal<K>(keys: seq<K>, k: nat)
    requires k < |keys|
    ensures MaximalRun(keys, RunStart(keys, k), RunEnd(keys, k) + 1)
    decreases k
  {
    RunEndMaximal(keys, k);
    if k > 0 && keys[k - 1] == keys[k] {
      RunMaximal(keys, k - 1);
    }
  }

  lemma {:induction false} RunEndMaximal<K>(keys: seq<K>, k: nat)
    requires k < |keys|
    ensures forall m :: k <= m <= RunEnd(keys, k) ==> keys[m] == keys[k]
    ensures RunEnd(keys, k) + 1 < |keys| ==> keys[RunEnd(keys, k) + 1] != keys[k]
    decreases |keys| - k
  {
    if k + 1 < |keys| && keys[k + 1] == keys[k] { RunEndMaximal(keys, k + 1); }
  }

  /** Ranks never decrease along the list. */
  lemma TieRanksOrdered<K>(keys: seq<K>, i: nat, j: nat)
    requires i <= j < |keys|
    ensures TieRanks(keys)[i] <= TieRanks(keys)[j]
  {
    RunMaximal(keys, i);
    var a, b := RunStart(keys, i), RunEnd(keys, i) + 1;
    if j < b {
      TieRanksAverage(keys, a, b, j);
    } else {
      RunMaximal(keys, j);
      assert RunStart(keys, j) >= b;
    }
  }

  lemma {:induction false} SumConstant(s: seq<real>, a: nat, c: real)
    requires a <= |s|
    requires forall k :: a <= k < |s| ==> s[k] == c
    ensures Sum(s) == Sum(s[..a]) + Scale((|s| - a) as real, c)
    decreases |s|
  {
    if a == |s| {
      assert s[..a] == s;
    } else {
      var t := s[..|s| - 1];
      SumConstant(t, a, c);
      assert t[..a] == s[..a];
      assert Scale((|s| - a) as real, c) == Scale((|t| - a) as real, c) + c;
    }
  }

  function Triangle(n: nat): real {
    n as real * (n as real + 1.0) / 2.0
  }

  lemma TriangleStep(a: nat, n: nat)
    requires a <= n
    ensures Triangle(a) + Scale((n - a) as real, ((a + 1) + n) as real / 2.0) == Triangle(n)
  {
    var x, y := a as real, n as real;
    assert (n - a) as real == y - x && ((a + 1) + n) as real == x + y + 1.0;
    assert (y - x) * (x + y + 1.0) == y * (y + 1.0) - x * (x + 1.0);
  }

  /** The ranks of the first n players of a list cut at the end of a run sum to n (n + 1) / 2. */
  lemma {:induction false} PrefixSum<K>(keys: seq<K>, n: nat)
    requires n <= |keys|
    requires 0 < n < |keys| ==> keys[n - 1] != keys[n]
    ensures Sum(TieRanks(keys)[..n]) == Triangle(n)
    decreases n
  {
    if n == 0 {
      assert Triangle(0) == 0.0;
    } else {
      hide Triangle, Scale, TieRanks, RunStart, RunEnd;
      RunMaximal(keys, n - 1);
      var a := RunStart(keys, n - 1);
      assert MaximalRun(keys, a, n);
      PrefixSum(keys, a);
      var s, c := TieRanks(keys)[..n], ((a + 1) + n) as real / 2.0;
      forall k | a <= k < n ensures s[k] == c { TieRanksAverage(keys, a, n, k); }
      SumConstant(s, a, c);
      assert s[..a] == TieRanks(keys)[..a];
      TriangleStep(a, n);
    }
  }

  /** Ties change nothing in total: the ranks always sum to n (n + 1) / 2. */
  lemma TieRanksSum<K>(keys: seq<K>)
    ensures Sum(TieRanks(keys)) == Triangle(|keys|)
  {
    PrefixSum(keys, |keys|);
    assert TieRanks(keys)[..|keys|] == TieRanks(keys);
  }

  lemma RunStep<K>(keys: seq<K>, i: nat)
    requires i < |keys|
    ensures RunStart(keys, i) == if i > 0 && keys[i - 1] == keys[i] then RunStart(keys, i - 1) else i
    ensures i > 0 && keys[i - 1] != keys[i] ==> MaximalRun(keys, RunStart(keys, i - 1), i)
    ensures i + 1 == |keys| ==> MaximalRun(keys, RunStart(keys, i), i + 1)
  {
    RunMaximal(keys, i);
    if i > 0 { RunMaximal(keys, i - 1); }
  }

  method RankWithTies<K(==)>(keys: seq<K>) returns (ranks: seq<real>)
    ensures ranks == TieRanks(keys)
  {
    hide TieRanks, RunStart, RunEnd;
    var rank, delta := 0, 1;
    var last: Option<K> := None;
    var buf: seq<K> := [];
    ranks := [];
    for i := 0 to |keys|
      invariant |ranks| <= i && ranks == TieRanks(keys)[..|ranks|]
      invariant i == 0 ==> last == None && rank == 0 && delta == 1
      invariant i > 0 ==> last == Some(keys[i - 1]) && |ranks| == RunStart(keys, i - 1)
      invariant i > 0 ==> rank == |ranks| + 1 && delta == i - |ranks|
      invariant |buf| == i - |ranks|
    {
      var key := keys[i];
      RunStep(keys, i);
      if last != Some(key) {
        ghost var a := |ranks|;
        for k := 0 to |buf|
          invariant |ranks| == a + k && ranks == TieRanks(keys)[..|ranks|]
        {
          TieRanksAverage(keys, a, i, a + k);
          ranks := ranks + [rank as real + (delta - 1) as real / 2.0];
        }
        rank := rank + delta;
        delta := 0;
        buf := [];
      }
      delta := delta + 1;
      buf := buf + [key];
      last := Some(key);
    }
    ghost var a := |ranks|;
    if |keys| > 0 { RunStep(keys, |keys| - 1); }
    for k := 0 to |buf|
      invariant |ranks| == a + k && ranks == TieRanks(keys)[..|ranks|]
    {
      TieRanksAverage(keys, a, |keys|, a + k);
      ranks := ranks + [rank as real + (delta - 1) as real / 2.0];
    }
  }
}
