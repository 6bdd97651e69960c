/** The rating table over many contests: rating one contest (judge/ratings.py, `rate_contest`), replaying a suffix
    (judge/models/contest.py, `Contest.rate` and `ContestParticipation.set_disqualified`) and rating everything from
    scratch (judge/admin/contest.py, `rate_all_view`).  Queries become functions of the rows they read. */
module ContestRating {
  import opened Prelude
  import opened Variance
  import opened Mean
  import opened Performance
  import opened TieRanker
  import opened Ratings

  const RATING_INIT := 1200

  /** A participation; virtual 0 is a live one. */
  datatype Entry = Entry(id: int, user: int, virtual: int, disqualified: bool, submissions: nat,
                         score: real, cumtime: int, tiebreaker: real)

  /** A contest with its participations in the order the rating query returns them. */
  datatype Contest = Contest(id: int, end: int, rated: bool, rateAll: bool, floor: Option<int>, ceiling: Option<int>,
                             exclude: set<int>, entries: seq<Entry>)

  datatype Row = Row(participation: int, rank: int, rating: int, mean: real, performance: real)
  type Table = map<(int, int), Row>

  /** All contests in order of their (distinct) end times. */
  ghost predicate Ordered(site: seq<Contest>) {
    && (forall i, j :: 0 <= i < j < |site| ==> site[i].end < site[j].end)
    && (forall i, j :: 0 <= i < j < |site| ==> site[i].id != site[j].id)
  }

  /** A user's rows, latest contest first. */
  function History(site: seq<Contest>, t: Table, user: int): seq<Row> {
    if site == [] then []
    else
      var n := |site| - 1;
      (if (user, site[n].id) in t then [t[(user, site[n].id)]] else []) + History(site[..n], t, user)
  }

  function LastRating(site: seq<Contest>, t: Table, user: int): int {
    var h := History(site, t, user);
    if h == [] then RATING_INIT else h[0].rating
  }

  function LastMean(site: seq<Contest>, t: Table, user: int): real {
    var h := History(site, t, user);
    if h == [] then MEAN_INIT else h[0].mean
  }

  /** The rating a profile shows: that of the user's latest row, if any. */
  function Latest(site: seq<Contest>, t: Table, user: int): Option<int> {
    var h := History(site, t, user);
    if h == [] then None else Some(h[0].rating)
  }

  predicate Eligible(site: seq<Contest>, c: Contest, t: Table, e: Entry) {
    && e.user !in c.exclude
    && e.virtual == 0
    && (c.rateAll || e.submissions > 0)
    && (c.floor.Some? ==> LastRating(site, t, e.user) >= c.floor.value)
    && (c.ceiling.Some? ==> LastRating(site, t, e.user) <= c.ceiling.value)
  }

  function RatedEntries(site: seq<Contest>, c: Contest, t: Table, es: seq<Entry>): (r: seq<Entry>)
    ensures forall e :: e in r <==> e in es && Eligible(site, c, t, e)
  {
    if es == [] then []
    else
      var n := |es| - 1;
      RatedEntries(site, c, t, es[..n]) + (if Eligible(site, c, t, es[n]) then [es[n]] else [])
  }

  function Performances(h: seq<Row>): (r: seq<real>)
    ensures |r| == |h|
  {
    seq(|h|, k requires 0 <= k < |h| => h[k].performance)
  }

  function Key(e: Entry): (real, int, real) {
    (e.score, e.cumtime, e.tiebreaker)
  }

  function Keys(us: seq<Entry>): (r: seq<(real, int, real)>)
    ensures |r| == |us|
  {
    seq(|us|, k requires 0 <= k < |us| => Key(us[k]))
  }

  /** What the update reads of the players of one contest. */
  function PlayersOf(site: seq<Contest>, t: Table, us: seq<Entry>): (ps: Players)
    ensures ps.Consistent() && |ps.ranking| == |us|
    ensures forall k :: 0 <= k < |us| ==> |ps.past[k]| == ps.times[k]
  {
    Players(TieRanks(Keys(us)),
            seq(|us|, k requires 0 <= k < |us| => LastMean(site, t, us[k].user)),
            seq(|us|, k requires 0 <= k < |us| => |History(site, t, us[k].user)|),
            seq(|us|, k requires 0 <= k < |us| => Performances(History(site, t, us[k].user))))
  }

  /** The players come ranked, so everything proved of one update holds of every contest. */
  lemma PlayersRanked(site: seq<Contest>, t: Table, us: seq<Entry>)
    ensures NonDecreasing(PlayersOf(site, t, us).ranking)
  {
    forall i, j | 0 <= i < j < |us| ensures TieRanks(Keys(us))[i] <= TieRanks(Keys(us))[j] {
      TieRanksOrdered(Keys(us), i, j);
    }
  }

  function NewRow(us: seq<Entry>, ps: Players, r: Results, k: nat): Row
    requires k < |us| == |ps.ranking| == |r.rating| == |r.mean| == |r.performance|
  {
    Row(us[k].id, ps.ranking[k].Floor, r.rating[k], r.mean[k], r.performance[k])
  }

  /** t with the first m of the new rows written. */
  function WithRows(t: Table, c: Contest, us: seq<Entry>, ps: Players, r: Results, m: nat): (t': Table)
    requires m <= |us| == |ps.ranking| == |r.rating| == |r.mean| == |r.performance|
    ensures forall key :: key in t' && (key !in t || t'[key] != t[key]) ==>
              key.1 == c.id && exists e :: e in us && e.user == key.0
    ensures forall key :: key in t ==> key in t'
  {
    if m == 0 then t else WithRows(t, c, us, ps, r, m - 1)[(us[m - 1].user, c.id) := NewRow(us, ps, r, m - 1)]
  }

  /** The table after rating contest c. */
  function RateTable(an: RawAnalysis, site: seq<Contest>, c: Contest, t: Table): (t': Table)
    requires an.Sound()
    ensures forall key :: key in t' && (key !in t || t'[key] != t[key]) ==>
              key.1 == c.id && exists e :: e in c.entries && Eligible(site, c, t, e) && e.user == key.0
    ensures forall key :: key in t ==> key in t'
  {
    var us := RatedEntries(site, c, t, c.entries);
    var ps := PlayersOf(site, t, us);
    var t' := WithRows(t, c, us, ps, Recalculated(an, ps), |us|);
    t'
  }

  // ---- the order of the query ----

  /** e comes before f: disqualified last, then by score, time and tie-breaker. */
  predicate Before(e: Entry, f: Entry) {
    if e.disqualified != f.disqualified then f.disqualified
    else if e.score != f.score then e.score > f.score
    else if e.cumtime != f.cumtime then e.cumtime < f.cumtime
    else e.tiebreaker < f.tiebreaker
  }

  ghost predicate InQueryOrder(es: seq<Entry>) {
    forall i, j :: 0 <= i < j < |es| ==> !Before(es[j], es[i])
  }

  /** No user has two live participations. */
  ghost predicate OneLiveEach(es: seq<Entry>) {
    forall i, j :: 0 <= i < j < |es| && es[i].virtual == 0 && es[j].virtual == 0 ==> es[i].user != es[j].user
  }

  lemma {:induction false} RatedInOrder(site: seq<Contest>, c: Contest, t: Table, es: seq<Entry>)
    requires InQueryOrder(es) && OneLiveEach(es)
    ensures InQueryOrder(RatedEntries(site, c, t, es)) && OneLiveEach(RatedEntries(site, c, t, es))
  {
    hide LastRating;
    if es != [] {
      var n := |es| - 1;
      RatedInOrder(site, c, t, es[..n]);
      var us := RatedEntries(site, c, t, es[..n]);
      forall i | 0 <= i < |us| ensures us[i] in es[..n] && us[i].virtual == 0 {
        assert us[i] in us;
      }
    }
  }

  lemma {:induction false} WithRowsAt(t: Table, c: Contest, us: seq<Entry>, ps: Players, r: Results, m: nat, k: nat)
    requires k < m <= |us| == |ps.ranking| == |r.rating| == |r.mean| == |r.performance|
    requires forall i, j :: 0 <= i < j < |us| ==> us[i].user != us[j].user
    ensures (us[k].user, c.id) in WithRows(t, c, us, ps, r, m)
    ensures WithRows(t, c, us, ps, r, m)[(us[k].user, c.id)] == NewRow(us, ps, r, k)
  {
    hide NewRow;
    if k < m - 1 {
      WithRowsAt(t, c, us, ps, r, m - 1, k);
      assert us[k].user != us[m - 1].user;
    }
  }

  /** The row a rated player gets. */
  lemma RowAt(an: RawAnalysis, site: seq<Contest>, c: Contest, t: Table, k: nat)
    requires an.Sound() && InQueryOrder(c.entries) && OneLiveEach(c.entries)
    requires k < |RatedEntries(site, c, t, c.entries)|
    ensures var us := RatedEntries(site, c, t, c.entries);
            var r, key := Recalculated(an, PlayersOf(site, t, us)), (us[k].user, c.id);
            && key in RateTable(an, site, c, t)
            && RateTable(an, site, c, t)[key].performance == r.performance[k]
            && RateTable(an, site, c, t)[key].mean == r.mean[k]
            && RateTable(an, site, c, t)[key].rating == r.rating[k]
  {
    hide Recalculated, PlayersOf, RatedEntries;
    var us := RatedEntries(site, c, t, c.entries);
    RatedInOrder(site, c, t, c.entries);
    forall i | 0 <= i < |us| ensures us[i].virtual == 0 { assert us[i] in us; }
    var ps := PlayersOf(site, t, us);
    WithRowsAt(t, c, us, ps, Recalculated(an, ps), |us|, k);
  }

  /** The same record so far, as far as the update looks. */
  predicate SamePast(site: seq<Contest>, t: Table, u: int, v: int) {
    && LastMean(site, t, u) == LastMean(site, t, v)
    && Performances(History(site, t, u)) == Performances(History(site, t, v))
  }

  /** Of two rated players the one the query puts first is never given the lower performance, and with the same past
      never the lower mean or rating; so a disqualified player never outperforms one who is not. */
  lemma BetterKeyFair(an: RawAnalysis, site: seq<Contest>, c: Contest, t: Table, e: Entry, f: Entry)
    requires an.Sound() && InQueryOrder(c.entries) && OneLiveEach(c.entries)
    requires e in c.entries && f in c.entries && Eligible(site, c, t, e) && Eligible(site, c, t, f)
    requires Before(e, f)
    ensures var r := RateTable(an, site, c, t);
            && (e.user, c.id) in r && (f.user, c.id) in r
            && r[(e.user, c.id)].performance >= r[(f.user, c.id)].performance
            && (SamePast(site, t, e.user, f.user) ==>
                  && r[(e.user, c.id)].mean >= r[(f.user, c.id)].mean
                  && r[(e.user, c.id)].rating >= r[(f.user, c.id)].rating)
  {
    hide Recalculated, PlayersOf, RatedEntries, RateTable, SamePast, Eligible, InQueryOrder, OneLiveEach;
    var us := RatedEntries(site, c, t, c.entries);
    RatedInOrder(site, c, t, c.entries);
    var i :| 0 <= i < |us| && us[i] == e;
    var j :| 0 <= j < |us| && us[j] == f;
    OrderedPositions(us, i, j);
    RowAt(an, site, c, t, i);
    RowAt(an, site, c, t, j);
    PlayersFair(an, site, t, us, i, j);
  }

  lemma OrderedPositions(us: seq<Entry>, i: nat, j: nat)
    requires InQueryOrder(us) && i < |us| && j < |us| && Before(us[i], us[j])
    ensures i < j
  {}

  lemma PlayersFair(an: RawAnalysis, site: seq<Contest>, t: Table, us: seq<Entry>, i: nat, j: nat)
    requires an.Sound() && i < j < |us|
    ensures var r := Recalculated(an, PlayersOf(site, t, us));
            && r.performance[i] >= r.performance[j]
            && (SamePast(site, t, us[i].user, us[j].user) ==> r.mean[i] >= r.mean[j] && r.rating[i] >= r.rating[j])
  {
    hide Recalculated, History, TieRanks, Ratings.SoundFor;
    var ps := PlayersOf(site, t, us);
    PlayersRanked(site, t, us);
    RecalculatedSound(an, ps, i);
    if SamePast(site, t, us[i].user, us[j].user) {
      assert |Performances(History(site, t, us[i].user))| == |Performances(History(site, t, us[j].user))|;
      RecalculatedFair(an, ps, i, j);
    }
  }

  predicate LiveIn(c: Contest, user: int) {
    exists e :: e in c.entries && e.virtual == 0 && e.user == user
  }

  type Profiles = map<int, Option<int>>

  /** Every live participant's profile is set to the latest rating. */
  function Refresh(site: seq<Contest>, c: Contest, t: Table, p: Profiles): Profiles {
    map user | user in p :: if LiveIn(c, user) then Latest(site, t, user) else p[user]
  }

  datatype State = State(table: Table, profiles: Profiles)

  function RateOne(an: RawAnalysis, site: seq<Contest>, c: Contest, s: State): State
    requires an.Sound()
  {
    var t := RateTable(an, site, c, s.table);
    State(t, Refresh(site, c, t, s.profiles))
  }

  /** Which contests a replay rates: those that are rated and end within [from, to]; no lower bound when from is
      None. */
  predicate Selected(c: Contest, from: Option<int>, to: int) {
    c.rated && InRange(c, from, to)
  }

  predicate InRange(c: Contest, from: Option<int>, to: int) {
    (from.Some? ==> from.value <= c.end) && c.end <= to
  }

  /** Rates the selected ones among the first k contests, in order of end time. */
  function Replay(an: RawAnalysis, site: seq<Contest>, from: Option<int>, to: int, k: nat, s: State): State
    requires an.Sound() && k <= |site|
  {
    if k == 0 then s
    else
      var s' := Replay(an, site, from, to, k - 1, s);
      if Selected(site[k - 1], from, to) then RateOne(an, site, site[k - 1], s') else s'
  }

  /** The table part of a replay. */
  function ReplayRows(an: RawAnalysis, site: seq<Contest>, from: Option<int>, to: int, k: nat, t: Table): Table
    requires an.Sound() && k <= |site|
  {
    if k == 0 then t
    else
      var t' := ReplayRows(an, site, from, to, k - 1, t);
      if Selected(site[k - 1], from, to) then RateTable(an, site, site[k - 1], t') else t'
  }

  function Blank(p: Profiles): State {
    State(map[], map user | user in p :: None)
  }

  /** `rate_all_view`. */
  function RateAll(an: RawAnalysis, site: seq<Contest>, now: int, p: Profiles): State
    requires an.Sound()
  {
    Replay(an, site, None, now, |site|, Blank(p))
  }

  /** The table `rate_all_view` builds. */
  function FromScratch(an: RawAnalysis, site: seq<Contest>, now: int): Table
    requires an.Sound()
  {
    ReplayRows(an, site, None, now, |site|, map[])
  }

  predicate RowInRange(site: seq<Contest>, id: int, from: int, to: int) {
    exists c :: c in site && c.id == id && InRange(c, Some(from), to)
  }

  /** The rows a replay from `from` does not delete. */
  function Kept(site: seq<Contest>, t: Table, from: int, to: int): Table {
    map key | key in t && !RowInRange(site, key.1, from, to) :: t[key]
  }

  /** `Contest.rate` for a contest ending at `from`. */
  function RateFrom(an: RawAnalysis, site: seq<Contest>, from: int, now: int, s: State): State
    requires an.Sound()
  {
    Replay(an, site, Some(from), now, |site|, State(Kept(site, s.table, from, now), s.profiles))
  }

  // ---- replay and the table ----

  lemma {:induction false} ReplayIsRows(an: RawAnalysis, site: seq<Contest>, from: Option<int>, to: int, k: nat,
                                        s: State)
    requires an.Sound() && k <= |site|
    ensures Replay(an, site, from, to, k, s).table == ReplayRows(an, site, from, to, k, s.table)
  {
    hide RateTable, Refresh;
    if k > 0 { ReplayIsRows(an, site, from, to, k - 1, s); }
  }

  /** key's row in t differs from base only if a selected contest wrote it. */
  ghost predicate Writes(site: seq<Contest>, from: Option<int>, to: int, base: Table, t: Table) {
    && (forall key :: key in base ==> key in t)
    && (forall key :: key in t && (key !in base || t[key] != base[key]) ==>
          exists c :: c in site && c.id == key.1 && Selected(c, from, to))
  }

  /** A replay writes only rows of the contests it selects. */
  lemma {:induction false} ReplayWrites(an: RawAnalysis, site: seq<Contest>, from: Option<int>, to: int, k: nat,
                                        t: Table)
    requires an.Sound() && k <= |site|
    ensures Writes(site, from, to, t, ReplayRows(an, site, from, to, k, t))
  {
    hide RateTable;
    if k > 0 {
      ReplayWrites(an, site, from, to, k - 1, t);
      var t1, t2 := ReplayRows(an, site, from, to, k - 1, t), ReplayRows(an, site, from, to, k, t);
      forall key | key in t2 && (key !in t || t2[key] != t[key])
        ensures exists c :: c in site && c.id == key.1 && Selected(c, from, to)
      {
        if key !in t1 || t1[key] != t2[key] {
          assert site[k - 1] in site && site[k - 1].id == key.1;
        }
      }
    }
  }

  /** Rating everything up to `now` is rating what ends before `from`, then the rest. */
  lemma {:induction false} ReplaySplit(an: RawAnalysis, site: seq<Contest>, from: int, now: int, k: nat, t: Table)
    requires an.Sound() && Ordered(site) && k <= |site| && from <= now + 1
    ensures ReplayRows(an, site, Some(from), now, k, ReplayRows(an, site, None, from - 1, k, t))
         == ReplayRows(an, site, None, now, k, t)
  {
    hide RateTable;
    if k > 0 {
      var c := site[k - 1];
      if c.end < from {
        ReplayNothing(an, site, Some(from), now, k, ReplayRows(an, site, None, from - 1, k, t));
        ReplaySame(an, site, from - 1, now, k, t);
      } else {
        ReplaySplit(an, site, from, now, k - 1, t);
      }
    }
  }

  lemma {:induction false} ReplayNothing(an: RawAnalysis, site: seq<Contest>, from: Option<int>, to: int, k: nat,
                                         t: Table)
    requires an.Sound() && k <= |site|
    requires forall i :: 0 <= i < k ==> !Selected(site[i], from, to)
    ensures ReplayRows(an, site, from, to, k, t) == t
  {
    if k > 0 { ReplayNothing(an, site, from, to, k - 1, t); }
  }

  lemma {:induction false} ReplaySame(an: RawAnalysis, site: seq<Contest>, to: int, now: int, k: nat, t: Table)
    requires an.Sound() && k <= |site|
    requires forall i :: 0 <= i < k ==> (Selected(site[i], None, to) <==> Selected(site[i], None, now))
    ensures ReplayRows(an, site, None, to, k, t) == ReplayRows(an, site, None, now, k, t)
  {
    if k > 0 { ReplaySame(an, site, to, now, k - 1, t); }
  }

  /** Writing only rows of contests in range leaves the kept rows as they were. */
  lemma KeptAfter(site: seq<Contest>, from: int, now: int, base: Table, t: Table)
    requires Kept(site, base, from, now) == base
    requires Writes(site, Some(from), now, base, t)
    ensures Kept(site, t, from, now) == base
  {
    forall key | key in base ensures !RowInRange(site, key.1, from, now) {
      assert key in Kept(site, base, from, now);
    }
  }

  /** Rows of contests that ended before the suffix are kept. */
  lemma KeptEarly(site: seq<Contest>, t: Table, from: int, now: int)
    requires Ordered(site)
    requires Writes(site, None, from - 1, map[], t)
    ensures Kept(site, t, from, now) == t
  {
    forall key | key in t ensures !RowInRange(site, key.1, from, now) {
      var c :| c in site && c.id == key.1 && Selected(c, None, from - 1);
      forall d | d in site && d.id == key.1 ensures d == c { SameContest(site, c, d); }
    }
  }

  lemma SameContest(site: seq<Contest>, c: Contest, d: Contest)
    requires Ordered(site) && c in site && d in site && c.id == d.id
    ensures c == d
  {}

  lemma KeptTwice(site: seq<Contest>, t: Table, from: int, now: int)
    ensures Kept(site, Kept(site, t, from, now), from, now) == Kept(site, t, from, now)
  {}

  /** From scratch, the rows before the suffix are kept and the suffix is replayed on them. */
  lemma FromScratchSplit(an: RawAnalysis, site: seq<Contest>, from: int, now: int)
    requires an.Sound() && Ordered(site) && from <= now + 1
    ensures FromScratch(an, site, now) == ReplayRows(an, site, Some(from), now, |site|, FromScratch(an, site, from - 1))
    ensures Kept(site, FromScratch(an, site, now), from, now) == FromScratch(an, site, from - 1)
  {
    hide ReplayRows, Ordered, Kept, Writes;
    var early := FromScratch(an, site, from - 1);
    ReplaySplit(an, site, from, now, |site|, map[]);
    ReplayWrites(an, site, None, from - 1, |site|, map[]);
    KeptEarly(site, early, from, now);
    ReplayWrites(an, site, Some(from), now, |site|, early);
    KeptAfter(site, from, now, early, FromScratch(an, site, now));
  }

  /** Replaying a suffix gives the from-scratch table exactly when the rows it keeps are the from-scratch rows of the
      contests that ended before the suffix. */
  lemma RateFromAgrees(an: RawAnalysis, site: seq<Contest>, from: int, now: int, s: State)
    requires an.Sound() && Ordered(site) && from <= now
    ensures RateFrom(an, site, from, now, s).table == FromScratch(an, site, now)
       <==> Kept(site, s.table, from, now) == FromScratch(an, site, from - 1)
  {
    hide Replay, ReplayRows, Ordered, Kept, FromScratch, Writes;
    var kept := Kept(site, s.table, from, now);
    ReplayIsRows(an, site, Some(from), now, |site|, State(kept, s.profiles));
    ReplayWrites(an, site, Some(from), now, |site|, kept);
    KeptTwice(site, s.table, from, now);
    KeptAfter(site, from, now, kept, RateFrom(an, site, from, now, s).table);
    FromScratchSplit(an, site, from, now);
  }

  predicate HasRows(t: Table, id: int) {
    exists key :: key in t && key.1 == id
  }

  /** Rating a contest without rows changes nothing exactly when it has nobody to rate. */
  lemma RateQuiet(an: RawAnalysis, site: seq<Contest>, c: Contest, t: Table)
    requires an.Sound() && !HasRows(t, c.id)
    ensures RateTable(an, site, c, t) == t <==> RatedEntries(site, c, t, c.entries) == []
    ensures RateTable(an, site, c, t) != t ==> HasRows(RateTable(an, site, c, t), c.id)
  {
    hide Recalculated, PlayersOf, RatedEntries;
    var us := RatedEntries(site, c, t, c.entries);
    if us != [] { assert (us[|us| - 1].user, c.id) in RateTable(an, site, c, t); }
  }

  /** A replay over contests without rows changes nothing exactly when none of them has anybody to rate. */
  lemma {:induction false} ReplayQuiet(an: RawAnalysis, site: seq<Contest>, from: Option<int>, to: int, k: nat,
                                       t: Table)
    requires an.Sound() && k <= |site|
    requires forall c :: c in site && Selected(c, from, to) ==> !HasRows(t, c.id)
    ensures var rows := ReplayRows(an, site, from, to, k, t);
            && (rows == t <==> forall i :: 0 <= i < k && Selected(site[i], from, to) ==>
                                 RatedEntries(site, site[i], t, site[i].entries) == [])
            && (rows != t ==> exists key :: key in rows && key !in t)
  {
    hide RateTable, RatedEntries;
    if k > 0 {
      ReplayQuiet(an, site, from, to, k - 1, t);
      var c, t' := site[k - 1], ReplayRows(an, site, from, to, k - 1, t);
      if Selected(c, from, to) && t' == t {
        assert c in site;
        RateQuiet(an, site, c, t);
      }
    }
  }

  /** Nothing stands between time t and `from`: no rated contest in between has rows or anybody to rate. */
  predicate Gapless(site: seq<Contest>, t: int, from: int, rows: Table) {
    forall c :: c in site && c.rated && t < c.end < from ==>
      !HasRows(rows, c.id) && RatedEntries(site, c, rows, c.entries) == []
  }

  lemma NoneBeyond(site: seq<Contest>, t: int, rows: Table)
    requires Ordered(site) && Writes(site, None, t, map[], rows)
    ensures forall c :: c in site && t < c.end ==> !HasRows(rows, c.id)
  {
    forall c, key | c in site && t < c.end && key in rows ensures key.1 != c.id {
      var d :| d in site && d.id == key.1 && Selected(d, None, t);
      if d.id == c.id { SameContest(site, c, d); }
    }
  }

  /** From scratch, time t and the moment before `from` give the same rows exactly when nothing stands between. */
  lemma SameUntil(an: RawAnalysis, site: seq<Contest>, t: int, from: int)
    requires an.Sound() && Ordered(site) && t < from
    ensures FromScratch(an, site, from - 1) == FromScratch(an, site, t)
       <==> Gapless(site, t, from, FromScratch(an, site, t))
  {
    hide ReplayRows, RatedEntries, Writes, Kept;
    var rows := FromScratch(an, site, t);
    FromScratchSplit(an, site, t + 1, from - 1);
    ReplayWrites(an, site, None, t, |site|, map[]);
    NoneBeyond(site, t, rows);
    ReplayQuiet(an, site, Some(t + 1), from - 1, |site|, rows);
    if Gapless(site, t, from, rows) {
      forall i | 0 <= i < |site| && Selected(site[i], Some(t + 1), from - 1)
        ensures RatedEntries(site, site[i], rows, site[i].entries) == []
      {
        assert site[i] in site;
      }
    }
  }

  /** A table that is right up to time t becomes right up to now by replaying from `from` exactly when no rated contest
      that ended after t and before the replay has anybody to rate. */
  lemma RateFromCatchesUp(an: RawAnalysis, site: seq<Contest>, t: int, from: int, now: int, s: State)
    requires an.Sound() && Ordered(site) && t <= now && from <= now
    requires s.table == FromScratch(an, site, t)
    ensures RateFrom(an, site, from, now, s).table == FromScratch(an, site, now) <==> Gapless(site, t, from, s.table)
  {
    hide Gapless, ReplayRows, Replay, Ordered, Kept, Writes;
    RateFromAgrees(an, site, from, now, s);
    ReplayWrites(an, site, None, t, |site|, map[]);
    if t < from {
      WritesLater(site, t, from - 1, s.table);
      KeptEarly(site, s.table, from, now);
      SameUntil(an, site, t, from);
    } else {
      FromScratchSplit(an, site, from, t);
      KeptNarrow(site, s.table, from, t, now);
      NothingBetween(site, t, from, s.table);
    }
  }

  lemma NothingBetween(site: seq<Contest>, t: int, from: int, rows: Table)
    requires from <= t + 1
    ensures Gapless(site, t, from, rows)
  {}

  lemma WritesLater(site: seq<Contest>, t: int, u: int, rows: Table)
    requires t <= u && Writes(site, None, t, map[], rows)
    ensures Writes(site, None, u, map[], rows)
  {
    forall key | key in rows ensures exists c :: c in site && c.id == key.1 && Selected(c, None, u) {
      var c :| c in site && c.id == key.1 && Selected(c, None, t);
      assert Selected(c, None, u);
    }
  }

  /** Two contests a user took part in, the later of which is rated first: the table is not the from-scratch table. */
  lemma RateFromCounterexample(an: RawAnalysis) returns (site: seq<Contest>, s: State)
    requires an.Sound()
    ensures Ordered(site) && |site| == 2 && s.table == FromScratch(an, site, 0)
    ensures RateFrom(an, site, site[1].end, 3, s).table != FromScratch(an, site, 3)
  {
    hide RatedEntries, RateTable, Replay;
    var e := Entry(1, 7, 0, false, 1, 100.0, 60, 0.0);
    site := [Contest(1, 1, true, true, None, None, {}, [e]), Contest(2, 2, true, true, None, None, {}, [e])];
    s := State(map[], map[]);
    ReplayNothing(an, site, None, 0, 2, map[]);
    RateFromCatchesUp(an, site, 0, 2, 3, s);
    assert e in RatedEntries(site, site[0], s.table, site[0].entries);
    assert site[0] in site;
  }

  lemma KeptNarrow(site: seq<Contest>, s: Table, from: int, t: int, now: int)
    requires Ordered(site) && t <= now
    requires Writes(site, None, t, map[], s)
    ensures Kept(site, s, from, now) == Kept(site, s, from, t)
  {
    forall key | key in s ensures RowInRange(site, key.1, from, now) <==> RowInRange(site, key.1, from, t) {
      var c :| c in site && c.id == key.1 && Selected(c, None, t);
      forall d | d in site && d.id == key.1 ensures d == c { SameContest(site, c, d); }
      assert InRange(c, Some(from), now) <==> InRange(c, Some(from), t);
    }
  }

  // ---- profiles ----

  /** user is a live participant of one of the first k contests that the replay rates. */
  ghost predicate Replayed(site: seq<Contest>, from: Option<int>, to: int, k: nat, user: int)
    requires k <= |site|
  {
    exists i :: 0 <= i < k && Selected(site[i], from, to) && LiveIn(site[i], user)
  }

  lemma {:induction false} HistoryFrame(site: seq<Contest>, t: Table, u: Table, user: int)
    requires forall id :: (user, id) in t <==> (user, id) in u
    requires forall id :: (user, id) in t ==> t[(user, id)] == u[(user, id)]
    ensures History(site, t, user) == History(site, u, user)
  {
    if site != [] { HistoryFrame(site[..|site| - 1], t, u, user); }
  }

  lemma RateTableOthers(an: RawAnalysis, site: seq<Contest>, c: Contest, t: Table, user: int)
    requires an.Sound() && !LiveIn(c, user)
    ensures History(site, RateTable(an, site, c, t), user) == History(site, t, user)
  {
    hide RateTable;
    HistoryFrame(site, t, RateTable(an, site, c, t), user);
  }

  lemma {:induction false} ReplayProfile(an: RawAnalysis, site: seq<Contest>, from: Option<int>, to: int, k: nat,
                                         s: State, user: int)
    requires an.Sound() && k <= |site| && user in s.profiles
    ensures user in Replay(an, site, from, to, k, s).profiles
    ensures var r := Replay(an, site, from, to, k, s);
            if Replayed(site, from, to, k, user) then r.profiles[user] == Latest(site, r.table, user)
            else r.profiles[user] == s.profiles[user] && History(site, r.table, user) == History(site, s.table, user)
  {
    hide RateTable, LiveIn, History;
    if k > 0 {
      ReplayProfile(an, site, from, to, k - 1, s, user);
      var c := site[k - 1];
      var r := Replay(an, site, from, to, k - 1, s);
      if Selected(c, from, to) && !LiveIn(c, user) {
        RateTableOthers(an, site, c, r.table, user);
      }
      assert Replayed(site, from, to, k, user)
        <==> Replayed(site, from, to, k - 1, user) || (Selected(c, from, to) && LiveIn(c, user));
    }
  }

  ghost predicate Current(site: seq<Contest>, s: State, user: int)
    requires user in s.profiles
  {
    s.profiles[user] == Latest(site, s.table, user)
  }

  /** After `Contest.rate` a profile shows its user's latest rating exactly when the user took part in a replayed
      contest or the profile already showed the latest of the rows that were kept. */
  lemma RateFromProfile(an: RawAnalysis, site: seq<Contest>, from: int, now: int, s: State, user: int)
    requires an.Sound() && user in s.profiles
    ensures var r := RateFrom(an, site, from, now, s);
            && user in r.profiles
            && (Current(site, r, user) <==>
                  Replayed(site, Some(from), now, |site|, user)
                  || s.profiles[user] == Latest(site, Kept(site, s.table, from, now), user))
  {
    hide Replay, Replayed, History;
    ReplayProfile(an, site, Some(from), now, |site|, State(Kept(site, s.table, from, now), s.profiles), user);
  }

  /** The rows in range belong to live participants of contests that are still rated. */
  ghost predicate RowsStillRated(site: seq<Contest>, t: Table, from: int, now: int) {
    forall key :: key in t && RowInRange(site, key.1, from, now) ==>
      exists i :: 0 <= i < |site| && site[i].id == key.1 && Selected(site[i], Some(from), now) && LiveIn(site[i], key.0)
  }

  /** If all profiles were current and the deleted rows belonged to contests that are still rated, all are current
      again. */
  lemma RateFromCurrent(an: RawAnalysis, site: seq<Contest>, from: int, now: int, s: State, user: int)
    requires an.Sound() && user in s.profiles && Current(site, s, user)
    requires RowsStillRated(site, s.table, from, now)
    ensures user in RateFrom(an, site, from, now, s).profiles
    ensures Current(site, RateFrom(an, site, from, now, s), user)
  {
    hide RateFrom, History, LiveIn;
    RateFromProfile(an, site, from, now, s, user);
    if !Replayed(site, Some(from), now, |site|, user) {
      forall id | (user, id) in s.table ensures (user, id) in Kept(site, s.table, from, now) {
        assert !RowInRange(site, id, from, now);
      }
      HistoryFrame(site, s.table, Kept(site, s.table, from, now), user);
    }
  }

  lemma {:induction false} HistoryEmpty(site: seq<Contest>, user: int)
    ensures History(site, map[], user) == []
  {
    if site != [] { HistoryEmpty(site[..|site| - 1], user); }
  }

  /** From scratch, every profile is current. */
  lemma RateAllCurrent(an: RawAnalysis, site: seq<Contest>, now: int, p: Profiles, user: int)
    requires an.Sound() && user in p
    ensures RateAll(an, site, now, p).table == FromScratch(an, site, now)
    ensures user in RateAll(an, site, now, p).profiles
    ensures Current(site, RateAll(an, site, now, p), user)
  {
    hide Replay, ReplayRows, Replayed, History;
    ReplayIsRows(an, site, None, now, |site|, Blank(p));
    ReplayProfile(an, site, None, now, |site|, Blank(p), user);
    HistoryEmpty(site, user);
  }
}
