/** What the rating queries read and write, in terms of the table's rows alone (judge/ratings.py, `rate_contest`). */
module RatingRecords {
  import opened Prelude
  import opened RealFacts
  import opened Mean
  import opened Performance
  import opened TieRanker
  import opened Ratings
  import opened ContestRating

  // ---- a user's rows ----

  predicate RowAtContest(site: seq<Contest>, t: Table, user: int, k: nat) {
    k < |site| && (user, site[k].id) in t
  }

  /** Contest k is the user's latest rated contest: contests stand in order of end time. */
  predicate IsLatest(site: seq<Contest>, t: Table, user: int, k: nat) {
    RowAtContest(site, t, user, k) && forall i :: k < i < |site| ==> !RowAtContest(site, t, user, i)
  }

  predicate Unrated(site: seq<Contest>, t: Table, user: int) {
    forall i :: 0 <= i < |site| ==> !RowAtContest(site, t, user, i)
  }

  /** The user's rated contests from the k-th on. */
  function RowsFrom(site: seq<Contest>, t: Table, user: int, k: nat): set<nat> {
    set i: nat | i < |site| && k <= i && RowAtContest(site, t, user, i)
  }

  lemma RowsFromStep(site: seq<Contest>, t: Table, user: int, k: nat)
    requires k < |site|
    ensures var n := |site| - 1;
            RowsFrom(site, t, user, k)
            == RowsFrom(site[..n], t, user, k) + (if RowAtContest(site, t, user, n) then {n} else {})
  {
    var n := |site| - 1;
    forall i: nat ensures i in RowsFrom(site, t, user, k) <==>
                          i in RowsFrom(site[..n], t, user, k) || (i == n && RowAtContest(site, t, user, n)) {
      if i < n { assert site[..n][i] == site[i]; }
    }
  }

  lemma {:induction false} HistoryCounts(site: seq<Contest>, t: Table, user: int)
    ensures |History(site, t, user)| == |RowsFrom(site, t, user, 0)|
  {
    if site == [] {
      assert RowsFrom(site, t, user, 0) == {};
    } else {
      HistoryCounts(site[..|site| - 1], t, user);
      RowsFromStep(site, t, user, 0);
    }
  }

  /** The user's rows stand latest first: the row of contest k comes after exactly those of later contests. */
  lemma {:induction false} HistoryPlaces(site: seq<Contest>, t: Table, user: int, k: nat)
    requires RowAtContest(site, t, user, k)
    ensures |RowsFrom(site, t, user, k + 1)| < |History(site, t, user)|
    ensures History(site, t, user)[|RowsFrom(site, t, user, k + 1)|] == t[(user, site[k].id)]
  {
    var n := |site| - 1;
    if k == n {
      assert RowsFrom(site, t, user, k + 1) == {};
    } else {
      assert site[..n][k] == site[k];
      HistoryPlaces(site[..n], t, user, k);
      RowsFromStep(site, t, user, k + 1);
    }
  }

  /** Rating and mean that count for a user: those of the latest row, or the newcomer's. */
  predicate Standing(site: seq<Contest>, t: Table, user: int, rating: int, mean: real) {
    && (Unrated(site, t, user) ==> rating == 1200 && mean == 1500.0)
    && forall k: nat :: k < |site| && IsLatest(site, t, user, k) ==>
         rating == t[(user, site[k].id)].rating && mean == t[(user, site[k].id)].mean
  }

  /** What a profile should show. */
  predicate ShowsLatest(site: seq<Contest>, t: Table, user: int, shown: Option<int>) {
    && (Unrated(site, t, user) ==> shown == None)
    && forall k: nat :: k < |site| && IsLatest(site, t, user, k) ==> shown == Some(t[(user, site[k].id)].rating)
  }

  lemma LatestOrNone(site: seq<Contest>, t: Table, user: int)
    ensures Unrated(site, t, user) || exists k: nat :: k < |site| && IsLatest(site, t, user, k)
    decreases |site|
  {
    if site != [] {
      var n := |site| - 1;
      if RowAtContest(site, t, user, n) {
        assert IsLatest(site, t, user, n);
      } else {
        LatestOrNone(site[..n], t, user);
        forall i: nat | i < n ensures RowAtContest(site, t, user, i) <==> RowAtContest(site[..n], t, user, i) {}
        if k: nat :| k < n && IsLatest(site[..n], t, user, k) { assert IsLatest(site, t, user, k); }
      }
    }
  }

  /** The queries take rating and mean from the user's latest row, and a profile is current exactly when it shows the
      rating of that row, or nothing when there is none. */
  lemma LatestIs(site: seq<Contest>, t: Table, user: int, shown: Option<int>)
    ensures Standing(site, t, user, LastRating(site, t, user), LastMean(site, t, user))
    ensures shown == Latest(site, t, user) <==> ShowsLatest(site, t, user, shown)
  {
    hide History;
    LatestOrNone(site, t, user);
    HistoryCounts(site, t, user);
    if Unrated(site, t, user) {
      assert RowsFrom(site, t, user, 0) == {};
    } else {
      var k: nat :| k < |site| && IsLatest(site, t, user, k);
      HistoryPlaces(site, t, user, k);
      assert RowsFrom(site, t, user, k + 1) == {};
      forall i: nat | i < |site| && IsLatest(site, t, user, i) ensures i == k {}
    }
  }

  /** What the update is told of player i: as many contests as the user has rows, the latest mean, and the
      performances of all rows, those of later contests first. */
  lemma PlayerRecord(site: seq<Contest>, t: Table, us: seq<Entry>, i: nat, k: nat)
    requires i < |us|
    ensures var ps := PlayersOf(site, t, us);
            && ps.times[i] == |ps.past[i]| == |RowsFrom(site, t, us[i].user, 0)|
            && (exists rating :: Standing(site, t, us[i].user, rating, ps.oldMean[i]))
            && (RowAtContest(site, t, us[i].user, k) ==>
                  && |RowsFrom(site, t, us[i].user, k + 1)| < |ps.past[i]|
                  && ps.past[i][|RowsFrom(site, t, us[i].user, k + 1)|] == t[(us[i].user, site[k].id)].performance)
  {
    hide History, TieRanks, Standing;
    HistoryCounts(site, t, us[i].user);
    LatestIs(site, t, us[i].user, None);
    assert Standing(site, t, us[i].user, LastRating(site, t, us[i].user), PlayersOf(site, t, us).oldMean[i]);
    if RowAtContest(site, t, us[i].user, k) { HistoryPlaces(site, t, us[i].user, k); }
  }

  // ---- who is rated ----

  /** A user with this rating may be rated in the contest for this participation. */
  predicate MayBeRated(c: Contest, e: Entry, rating: int) {
    && e.virtual == 0
    && e.user !in c.exclude
    && (c.rateAll || e.submissions >= 1)
    && (c.floor == None || rating >= c.floor.value)
    && (c.ceiling == None || rating <= c.ceiling.value)
  }

  lemma {:induction false} WithRowsAll(t: Table, c: Contest, us: seq<Entry>, ps: Players, r: Results, m: nat, k: nat)
    requires k < m <= |us| == |ps.ranking| == |r.rating| == |r.mean| == |r.performance|
    ensures (us[k].user, c.id) in WithRows(t, c, us, ps, r, m)
  {
    hide NewRow;
    if k < m - 1 { WithRowsAll(t, c, us, ps, r, m - 1, k); }
  }

  /** A user without a row of the contest gets one exactly when some live participation lets them be rated, their
      rating so far within the contest's bounds. */
  lemma RatedExactly(an: RawAnalysis, site: seq<Contest>, c: Contest, t: Table, user: int, rating: int, mean: real)
    requires an.Sound() && (user, c.id) !in t && Standing(site, t, user, rating, mean)
    ensures (user, c.id) in RateTable(an, site, c, t)
       <==> exists e :: e in c.entries && e.user == user && MayBeRated(c, e, rating)
  {
    hide Recalculated, PlayersOf, RatedEntries, History, LastRating, LastMean, Standing;
    LatestIs(site, t, user, None);
    StandingUnique(site, t, user, rating, mean, LastRating(site, t, user), LastMean(site, t, user));
    var us := RatedEntries(site, c, t, c.entries);
    var ps := PlayersOf(site, t, us);
    if e :| e in c.entries && e.user == user && MayBeRated(c, e, rating) {
      assert Eligible(site, c, t, e) && e in us;
      var k :| 0 <= k < |us| && us[k] == e;
      WithRowsAll(t, c, us, ps, Recalculated(an, ps), |us|, k);
    }
  }

  lemma StandingUnique(site: seq<Contest>, t: Table, user: int, r1: int, m1: real, r2: int, m2: real)
    requires Standing(site, t, user, r1, m1) && Standing(site, t, user, r2, m2)
    ensures r1 == r2 && m1 == m2
  {
    LatestOrNone(site, t, user);
  }

  /** From scratch, contest k is rated on the table of all contests that ended before it. */
  lemma FromScratchAt(an: RawAnalysis, site: seq<Contest>, k: nat)
    requires an.Sound() && Ordered(site) && k < |site|
    ensures var c := site[k];
            FromScratch(an, site, c.end)
            == if c.rated then RateTable(an, site, c, FromScratch(an, site, c.end - 1))
               else FromScratch(an, site, c.end - 1)
  {
    hide RateTable, FromScratch;
    var c, t := site[k], FromScratch(an, site, site[k].end - 1);
    FromScratchSplit(an, site, c.end, c.end);
    OneSelected(an, site, k, |site|, t);
  }

  lemma {:induction false} OneSelected(an: RawAnalysis, site: seq<Contest>, k: nat, n: nat, t: Table)
    requires an.Sound() && Ordered(site) && k < |site| && n <= |site|
    ensures ReplayRows(an, site, Some(site[k].end), site[k].end, n, t)
         == if k < n && site[k].rated then RateTable(an, site, site[k], t) else t
  {
    hide RateTable;
    if n > 0 { OneSelected(an, site, k, n - 1, t); }
  }

  /** Who has a row in the from-scratch table: those whom a rated contest that has ended lets be rated for a live
      participation, by their rating from the contests that ended before it. */
  lemma WhoHasRows(an: RawAnalysis, site: seq<Contest>, now: int, k: nat, user: int, rating: int, mean: real)
    requires an.Sound() && Ordered(site) && k < |site|
    requires Standing(site, FromScratch(an, site, site[k].end - 1), user, rating, mean)
    ensures (user, site[k].id) in FromScratch(an, site, now)
       <==> && site[k].rated && site[k].end <= now
            && exists e :: e in site[k].entries && e.user == user && MayBeRated(site[k], e, rating)
  {
    hide RateTable, FromScratch, Standing, MayBeRated, ReplayRows, Kept;
    var c := site[k];
    if c.end <= now {
      FromScratchSplit(an, site, c.end + 1, now);
      RowKept(an, site, k, user, FromScratch(an, site, now), now);
      FromScratchAt(an, site, k);
      NoRowYet(an, site, k, user, c.end - 1);
      if c.rated { RatedExactly(an, site, c, FromScratch(an, site, c.end - 1), user, rating, mean); }
    } else {
      NoRowYet(an, site, k, user, now);
    }
  }

  lemma NoRowYet(an: RawAnalysis, site: seq<Contest>, k: nat, user: int, t: int)
    requires an.Sound() && Ordered(site) && k < |site| && t < site[k].end
    ensures (user, site[k].id) !in FromScratch(an, site, t)
  {
    hide ReplayRows;
    ReplayWrites(an, site, None, t, |site|, map[]);
    NoneBeyond(site, t, FromScratch(an, site, t));
    assert site[k] in site;
  }

  lemma RowKept(an: RawAnalysis, site: seq<Contest>, k: nat, user: int, t: Table, now: int)
    requires an.Sound() && Ordered(site) && k < |site|
    ensures (user, site[k].id) in Kept(site, t, site[k].end + 1, now) <==> (user, site[k].id) in t
  {
    assert !RowInRange(site, site[k].id, site[k].end + 1, now);
  }

  /** Rating a contest makes the profiles of its live participants show their latest ratings, and touches no other. */
  lemma ProfilesAfter(an: RawAnalysis, site: seq<Contest>, c: Contest, s: State, user: int)
    requires an.Sound() && user in s.profiles
    ensures var r := RateOne(an, site, c, s);
            && user in r.profiles
            && if exists e :: e in c.entries && e.user == user && e.virtual == 0
               then ShowsLatest(site, r.table, user, r.profiles[user])
               else r.profiles[user] == s.profiles[user]
  {
    hide RateTable, Latest, ShowsLatest;
    var r := RateOne(an, site, c, s);
    LatestIs(site, r.table, user, r.profiles[user]);
  }

  // ---- ranks ----

  lemma {:induction false} RunStartEqual<K>(keys: seq<K>, i: nat, j: nat)
    requires i <= j < |keys|
    ensures (forall k :: i <= k <= j ==> keys[k] == keys[j]) <==> RunStart(keys, j) <= i
    decreases j
  {
    if i < j {
      RunStartEqual(keys, i, j - 1);
      if keys[j - 1] == keys[j] && RunStart(keys, j) <= i {
        forall k | i <= k <= j ensures keys[k] == keys[j] {}
      }
    }
  }

  /** Ranks are equal exactly within a run of equal keys. */
  lemma RanksEqual<K>(keys: seq<K>, i: nat, j: nat)
    requires i <= j < |keys|
    ensures TieRanks(keys)[i] == TieRanks(keys)[j] <==> forall k :: i <= k <= j ==> keys[k] == keys[j]
  {
    hide RunStart, RunEnd;
    RunMaximal(keys, j);
    RunMaximal(keys, i);
    RunStartEqual(keys, i, j);
    var a, b := RunStart(keys, j), RunEnd(keys, j) + 1;
    if a <= i {
      TieRanksAverage(keys, a, b, i);
      TieRanksAverage(keys, a, b, j);
    } else {
      BeforeRun(keys, i, a, b);
    }
  }

  lemma BeforeRun<K>(keys: seq<K>, i: nat, a: nat, b: nat)
    requires MaximalRun(keys, a, b) && i < a
    ensures forall k :: a <= k < b ==> TieRanks(keys)[i] < TieRanks(keys)[k]
  {
    hide RunStart, RunEnd;
    RunMaximal(keys, i);
    var c, d := RunStart(keys, i), RunEnd(keys, i) + 1;
    TieRanksAverage(keys, c, d, i);
    forall k | a <= k < b ensures TieRanks(keys)[i] < TieRanks(keys)[k] { TieRanksAverage(keys, a, b, k); }
  }

  predicate SameResult(e: Entry, f: Entry) {
    e.score == f.score && e.cumtime == f.cumtime && e.tiebreaker == f.tiebreaker
  }

  /** Of players whom the query orders, two of the same standing towards disqualification share a rank exactly when
      score, time and tie-breaker all agree. */
  lemma TiedExactly(site: seq<Contest>, t: Table, us: seq<Entry>, i: nat, j: nat)
    requires InQueryOrder(us) && i <= j < |us| && us[i].disqualified == us[j].disqualified
    ensures PlayersOf(site, t, us).ranking[i] == PlayersOf(site, t, us).ranking[j] <==> SameResult(us[i], us[j])
  {
    hide TieRanks, History;
    var keys := Keys(us);
    RanksEqual(keys, i, j);
    if SameResult(us[i], us[j]) {
      forall k | i <= k <= j ensures keys[k] == keys[j] {
        if i < k { assert !Before(us[k], us[i]); }
        if k < j { assert !Before(us[j], us[k]); }
      }
    } else {
      assert keys[i] != keys[j];
    }
  }

  /** A new row names the participation, and its rank is the (rounded down) average of the 1-based positions a + 1 ..
      b that the players with the same result take. */
  lemma RowNames(an: RawAnalysis, site: seq<Contest>, c: Contest, t: Table, k: nat, a: nat, b: nat)
    requires an.Sound() && InQueryOrder(c.entries) && OneLiveEach(c.entries)
    requires k < |RatedEntries(site, c, t, c.entries)|
    requires MaximalRun(Keys(RatedEntries(site, c, t, c.entries)), a, b) && a <= k < b
    ensures var e := RatedEntries(site, c, t, c.entries)[k];
            && (e.user, c.id) in RateTable(an, site, c, t)
            && RateTable(an, site, c, t)[(e.user, c.id)].participation == e.id
            && RateTable(an, site, c, t)[(e.user, c.id)].rank == (a + 1 + b) / 2
  {
    hide Recalculated, RatedEntries, History, TieRanks;
    var us := RatedEntries(site, c, t, c.entries);
    RatedInOrder(site, c, t, c.entries);
    forall i | 0 <= i < |us| ensures us[i].virtual == 0 { assert us[i] in us; }
    var ps := PlayersOf(site, t, us);
    WithRowsAt(t, c, us, ps, Recalculated(an, ps), |us|, k);
    TieRanksAverage(Keys(us), a, b, k);
    HalfFloor(a + 1 + b);
  }

  lemma HalfFloor(n: nat)
    ensures (n as real / 2.0).Floor == n / 2
  {
    assert n == n / 2 * 2 + n % 2;
    assert n as real == (n / 2) as real * 2.0 + (n % 2) as real;
  }
}
