/** Runs of administrative actions on the rating table, and the code that performs them
    (judge/models/contest.py, `Contest.rate` and `ContestParticipation.set_disqualified`;
    judge/admin/contest.py, `rate_all_view`; judge/ratings.py, `rate_contest`). */
module RatingHistory {
  import opened Prelude
  import opened Variance
  import opened Mean
  import opened TieRanker
  import opened Ratings
  import opened ContestRating
  import opened RatingRecords

  // ---- changing one contest's participations ----

  ghost predicate SameShape(c: Contest, d: Contest) {
    d == c.(entries := d.entries)
  }

  /** The same participation, whatever its standing. */
  predicate SameEntry(e: Entry, f: Entry) {
    f.id == e.id && f.user == e.user && f.virtual == e.virtual && f.submissions == e.submissions
  }

  /** Each participation of c is one of d, up to the fields that standings and disqualification write. */
  ghost predicate SamePlayers(c: Contest, d: Contest) {
    forall e :: e in c.entries ==>
      exists f :: f in d.entries && SameEntry(e, f)
  }

  lemma {:induction false} HistorySameIds(site: seq<Contest>, site': seq<Contest>, t: Table, user: int)
    requires |site| == |site'| && forall i :: 0 <= i < |site| ==> site[i].id == site'[i].id
    ensures History(site, t, user) == History(site', t, user)
  {
    if site != [] { HistorySameIds(site[..|site| - 1], site'[..|site| - 1], t, user); }
  }

  lemma {:induction false} RatedEntriesSame(site: seq<Contest>, site': seq<Contest>, c: Contest, t: Table,
                                            es: seq<Entry>)
    requires |site| == |site'| && forall i :: 0 <= i < |site| ==> site[i].id == site'[i].id
    ensures RatedEntries(site, c, t, es) == RatedEntries(site', c, t, es)
  {
    if es != [] {
      RatedEntriesSame(site, site', c, t, es[..|es| - 1]);
      HistorySameIds(site, site', t, es[|es| - 1].user);
    }
  }

  lemma RateTableSame(an: RawAnalysis, site: seq<Contest>, site': seq<Contest>, c: Contest, t: Table)
    requires an.Sound()
    requires |site| == |site'| && forall i :: 0 <= i < |site| ==> site[i].id == site'[i].id
    ensures RateTable(an, site, c, t) == RateTable(an, site', c, t)
  {
    hide Recalculated, History, WithRows, RatedEntries;
    RatedEntriesSame(site, site', c, t, c.entries);
    var us := RatedEntries(site, c, t, c.entries);
    PlayersSame(site, site', t, us);
  }

  lemma PlayersSame(site: seq<Contest>, site': seq<Contest>, t: Table, us: seq<Entry>)
    requires |site| == |site'| && forall i :: 0 <= i < |site| ==> site[i].id == site'[i].id
    ensures PlayersOf(site, t, us) == PlayersOf(site', t, us)
  {
    hide History, TieRanks;
    forall k | 0 <= k < |us| ensures History(site, t, us[k].user) == History(site', t, us[k].user) {
      HistorySameIds(site, site', t, us[k].user);
    }
    var p, q := PlayersOf(site, t, us), PlayersOf(site', t, us);
    assert p.oldMean == q.oldMean;
    assert p.times == q.times;
    assert p.past == q.past;
  }

  /** A contest that leaves no rows had nobody to rate. */
  lemma NoRowsNoPlayers(an: RawAnalysis, site: seq<Contest>, c: Contest, t: Table)
    requires an.Sound()
    requires forall key :: key in RateTable(an, site, c, t) ==> key.1 != c.id
    ensures RatedEntries(site, c, t, c.entries) == [] && RateTable(an, site, c, t) == t
  {
    hide RateTable, RatedEntries;
    assert forall key :: key in t ==> key in RateTable(an, site, c, t);
    RateQuiet(an, site, c, t);
  }

  lemma EligibleBefore(site: seq<Contest>, c: Contest, d: Contest, t: Table, e: Entry)
    requires SameShape(c, d) && SamePlayers(d, c)
    requires e in RatedEntries(site, d, t, d.entries)
    ensures exists f :: f in RatedEntries(site, c, t, c.entries)
  {
    hide LastRating;
    var f :| f in c.entries && SameEntry(e, f);
    assert f in RatedEntries(site, c, t, c.entries);
  }

  lemma NobodyStays(an: RawAnalysis, site: seq<Contest>, c: Contest, d: Contest, t: Table)
    requires an.Sound()
    requires SameShape(c, d) && SamePlayers(d, c)
    requires RatedEntries(site, c, t, c.entries) == []
    ensures RateTable(an, site, d, t) == t
  {
    hide Recalculated, PlayersOf, RatedEntries, SamePlayers;
    forall e | e in RatedEntries(site, d, t, d.entries)
      ensures exists f :: f in RatedEntries(site, c, t, c.entries)
    {
      EligibleBefore(site, c, d, t, e);
    }
    EmptyOrNot(RatedEntries(site, d, t, d.entries));
  }

  /** Changing contest i's participations changes no from-scratch table that has no row of contest i. */
  lemma {:induction false} ReplayChanged(an: RawAnalysis, site: seq<Contest>, d: Contest, i: nat, to: int, k: nat)
    requires an.Sound() && k <= |site| && i < |site|
    requires SameShape(site[i], d)
    requires Selected(site[i], None, to) ==> SamePlayers(d, site[i])
    requires Selected(site[i], None, to) && i < k ==>
               forall key :: key in ReplayRows(an, site, None, to, k, map[]) ==> key.1 != d.id
    ensures ReplayRows(an, site[i := d], None, to, k, map[]) == ReplayRows(an, site, None, to, k, map[])
  {
    hide RateTable, SamePlayers;
    if k > 0 {
      ReplayChanged(an, site, d, i, to, k - 1);
      var t := ReplayRows(an, site, None, to, k - 1, map[]);
      if Selected(site[k - 1], None, to) {
        RateTableSame(an, site, site[i := d], site[k - 1], t);
        if k - 1 == i {
          NoRowsNoPlayers(an, site, site[i], t);
          NobodyStays(an, site, site[i], d, t);
          RateTableSame(an, site, site[i := d], d, t);
        }
      }
    }
  }

  // ---- disqualification ----

  /** What `recompute_results` writes: the format's result, or the penalty values for a disqualified participation. */
  function Redo(e: Entry, disqualified: bool, score: real, cumtime: int, tiebreaker: real): Entry {
    if disqualified then e.(disqualified := true, score := -9999.0, cumtime := 0, tiebreaker := 0.0)
    else e.(disqualified := false, score := score, cumtime := cumtime, tiebreaker := tiebreaker)
  }

  function Redone(es: seq<Entry>, id: int, disqualified: bool, score: real, cumtime: int,
                  tiebreaker: real): seq<Entry> {
    seq(|es|, k requires 0 <= k < |es| =>
      if es[k].id == id then Redo(es[k], disqualified, score, cumtime, tiebreaker) else es[k])
  }

  /** d is c with participation `id` recomputed, its participations again in the order of the rating query. */
  ghost predicate Recomputed(c: Contest, d: Contest, id: int, disqualified: bool, score: real, cumtime: int,
                             tiebreaker: real) {
    && SameShape(c, d)
    && InQueryOrder(d.entries)
    && multiset(d.entries) == multiset(Redone(c.entries, id, disqualified, score, cumtime, tiebreaker))
  }

  lemma RecomputedPlayers(c: Contest, d: Contest, id: int, disqualified: bool, score: real, cumtime: int,
                          tiebreaker: real)
    requires Recomputed(c, d, id, disqualified, score, cumtime, tiebreaker)
    ensures SamePlayers(d, c) && SamePlayers(c, d)
  {
    var es := Redone(c.entries, id, disqualified, score, cumtime, tiebreaker);
    forall e | e in d.entries
      ensures exists f :: f in c.entries && SameEntry(e, f)
    {
      assert e in multiset(es);
      var k :| 0 <= k < |es| && es[k] == e;
      assert c.entries[k] in c.entries;
    }
    forall e | e in c.entries
      ensures exists f :: f in d.entries && SameEntry(e, f)
    {
      var k :| 0 <= k < |c.entries| && c.entries[k] == e;
      assert es[k] in multiset(d.entries) && SameEntry(e, es[k]);
    }
  }

  /** Whatever the format makes of it, a disqualified participation gets a result that no one with a score above -9999
      shares, and a reinstated one the format's result. */
  lemma RedoneResult(c: Contest, d: Contest, id: int, disqualified: bool, score: real, cumtime: int, tiebreaker: real,
                     e: Entry)
    requires Recomputed(c, d, id, disqualified, score, cumtime, tiebreaker) && e in d.entries
    ensures e.id == id ==>
              && e.disqualified == disqualified
              && (disqualified ==> e.score == -9999.0 && e.cumtime == 0 && e.tiebreaker == 0.0)
              && (!disqualified ==> e.score == score && e.cumtime == cumtime && e.tiebreaker == tiebreaker)
    ensures e.id != id ==> e in c.entries
  {
    var es := Redone(c.entries, id, disqualified, score, cumtime, tiebreaker);
    assert e in multiset(es);
    var k :| 0 <= k < |es| && es[k] == e;
  }

  /** So it ranks strictly behind everyone who is not disqualified and has a score above -9999. */
  lemma DisqualifiedBehind(site: seq<Contest>, t: Table, us: seq<Entry>, i: nat, j: nat)
    requires InQueryOrder(us) && i < |us| && j < |us|
    requires us[j].disqualified && us[j].score == -9999.0 && !us[i].disqualified && us[i].score > -9999.0
    ensures PlayersOf(site, t, us).ranking[i] < PlayersOf(site, t, us).ranking[j]
  {
    hide TieRanks, History;
    assert Before(us[i], us[j]);
    assert i < j;
    RanksEqual(Keys(us), i, j);
    assert Keys(us)[i] != Keys(us)[j];
    TieRanksOrdered(Keys(us), i, j);
  }

  /** `set_disqualified` on contest i, whose participations become those of d. */
  function SetDisqualified(an: RawAnalysis, site: seq<Contest>, i: nat, d: Contest, now: int, s: State): State
    requires an.Sound() && i < |site|
  {
    if d.rated && HasRows(s.table, d.id) then RateFrom(an, site[i := d], d.end, now, s) else s
  }

  lemma OrderedChange(site: seq<Contest>, i: nat, d: Contest)
    requires Ordered(site) && i < |site| && SameShape(site[i], d)
    ensures Ordered(site[i := d])
  {}

  // ---- how far a table is right ----

  /** A contest of this id has ended by time t. */
  predicate EndedBy(site: seq<Contest>, id: int, t: int) {
    exists c :: c in site && c.id == id && c.end <= t
  }

  /** The rows of contests that ended by time t. */
  function Early(site: seq<Contest>, rows: Table, t: int): Table {
    map key | key in rows && EndedBy(site, key.1, t) :: rows[key]
  }

  /** Every row belongs to a live participant of a rated contest that has ended. */
  ghost predicate RowsLive(site: seq<Contest>, now: int, rows: Table) {
    forall key :: key in rows ==>
      exists i :: 0 <= i < |site| && site[i].id == key.1 && Selected(site[i], None, now) && LiveIn(site[i], key.0)
  }

  lemma RowsLater(site: seq<Contest>, t: int, now: int, rows: Table)
    requires RowsLive(site, t, rows) && t <= now
    ensures RowsLive(site, now, rows)
  {
    hide LiveIn;
    forall key | key in rows
      ensures exists i :: 0 <= i < |site| && site[i].id == key.1 && Selected(site[i], None, now)
                          && LiveIn(site[i], key.0)
    {
      var i :| 0 <= i < |site| && site[i].id == key.1 && Selected(site[i], None, t) && LiveIn(site[i], key.0);
      assert Selected(site[i], None, now);
    }
  }

  lemma {:induction false} ReplayLive(an: RawAnalysis, site: seq<Contest>, from: Option<int>, now: int, k: nat,
                                      rows: Table)
    requires an.Sound() && k <= |site| && RowsLive(site, now, rows)
    ensures RowsLive(site, now, ReplayRows(an, site, from, now, k, rows))
  {
    hide RateTable;
    if k > 0 {
      ReplayLive(an, site, from, now, k - 1, rows);
      var before, after := ReplayRows(an, site, from, now, k - 1, rows), ReplayRows(an, site, from, now, k, rows);
      forall key | key in after && (key !in before || before[key] != after[key])
        ensures site[k - 1].id == key.1 && Selected(site[k - 1], None, now) && LiveIn(site[k - 1], key.0) {}
    }
  }

  lemma RateFromLive(an: RawAnalysis, site: seq<Contest>, from: int, t: int, now: int, s: State)
    requires an.Sound() && RowsLive(site, t, s.table) && t <= now
    ensures RowsLive(site, now, RateFrom(an, site, from, now, s).table)
  {
    hide ReplayRows, Replay;
    RowsLater(site, t, now, s.table);
    var kept := Kept(site, s.table, from, now);
    assert RowsLive(site, now, kept);
    ReplayLive(an, site, Some(from), now, |site|, kept);
    ReplayIsRows(an, site, Some(from), now, |site|, State(kept, s.profiles));
  }

  /** What a replay keeps of live rows are the rows of contests that ended before it. */
  lemma KeptIsEarly(site: seq<Contest>, rows: Table, from: int, t: int, now: int)
    requires Ordered(site) && RowsLive(site, t, rows) && t <= now
    ensures Kept(site, rows, from, now) == Early(site, rows, from - 1)
  {
    hide LiveIn;
    forall key | key in rows ensures EndedBy(site, key.1, from - 1) <==> !RowInRange(site, key.1, from, now) {
      var i :| 0 <= i < |site| && site[i].id == key.1 && Selected(site[i], None, t) && LiveIn(site[i], key.0);
      forall d | d in site && d.id == key.1 ensures d == site[i] { SameContest(site, site[i], d); }
      assert site[i] in site;
      assert InRange(site[i], Some(from), now) <==> from <= site[i].end;
    }
  }

  /** Being right for longer includes being right for less long. */
  lemma EarlierRight(an: RawAnalysis, site: seq<Contest>, rows: Table, t: int, u: int)
    requires an.Sound() && Ordered(site) && t <= u
    requires Early(site, rows, u) == FromScratch(an, site, u)
    ensures Early(site, rows, t) == FromScratch(an, site, t)
  {
    hide ReplayRows;
    FromScratchSplit(an, site, t + 1, u);
    ReplayLive(an, site, None, u, |site|, map[]);
    KeptIsEarly(site, FromScratch(an, site, u), t + 1, u, u);
    forall key | key in rows && EndedBy(site, key.1, t) ensures EndedBy(site, key.1, u) {
      var c :| c in site && c.id == key.1 && c.end <= t;
      assert c.end <= u;
    }
    assert Early(site, rows, t) == Early(site, Early(site, rows, u), t);
  }

  /** A replay changes no row of a contest that ended before it. */
  lemma EarlyUntouched(an: RawAnalysis, site: seq<Contest>, t: int, from: int, now: int, s: State)
    requires an.Sound() && Ordered(site) && t < from
    ensures Early(site, RateFrom(an, site, from, now, s).table, t) == Early(site, s.table, t)
  {
    hide ReplayRows, Replay;
    var kept := Kept(site, s.table, from, now);
    var rows := RateFrom(an, site, from, now, s).table;
    ReplayIsRows(an, site, Some(from), now, |site|, State(kept, s.profiles));
    ReplayWrites(an, site, Some(from), now, |site|, kept);
    forall key: (int, int) | EndedBy(site, key.1, t)
      ensures !RowInRange(site, key.1, from, now)
      ensures key in rows <==> key in s.table
      ensures key in rows ==> rows[key] == s.table[key]
    {
      var c :| c in site && c.id == key.1 && c.end <= t;
      forall d | d in site && d.id == key.1 ensures d == c { SameContest(site, c, d); }
    }
  }

  /** Right rows with nothing between them and the replay are all the rows the replay needs. */
  lemma GaplessRight(an: RawAnalysis, site: seq<Contest>, rows: Table, t: int, from: int)
    requires an.Sound() && Ordered(site) && t < from
    requires Early(site, rows, t) == FromScratch(an, site, t)
    requires RowsLive(site, from - 1, rows) && Gapless(site, t, from, rows)
    ensures rows == FromScratch(an, site, from - 1)
  {
    hide FromScratch, LiveIn, RatedEntries;
    forall key | key in rows ensures EndedBy(site, key.1, t) {
      var i :| 0 <= i < |site| && site[i].id == key.1 && Selected(site[i], None, from - 1) && LiveIn(site[i], key.0);
      assert site[i] in site && HasRows(rows, site[i].id);
    }
    assert Early(site, rows, t) == rows;
    SameUntil(an, site, t, from);
  }

  lemma EarlyLive(site: seq<Contest>, rows: Table, t: int, u: int)
    requires Ordered(site) && RowsLive(site, t, rows)
    ensures RowsLive(site, u, Early(site, rows, u))
  {
    hide LiveIn;
    var early := Early(site, rows, u);
    forall key | key in early
      ensures exists i :: 0 <= i < |site| && site[i].id == key.1 && Selected(site[i], None, u)
                          && LiveIn(site[i], key.0)
    {
      var i :| 0 <= i < |site| && site[i].id == key.1 && Selected(site[i], None, t) && LiveIn(site[i], key.0);
      var c :| c in site && c.id == key.1 && c.end <= u;
      SameContest(site, c, site[i]);
      assert Selected(site[i], None, u);
    }
  }

  lemma EarlyTwice(site: seq<Contest>, rows: Table, t: int, u: int)
    requires t <= u
    ensures Early(site, Early(site, rows, u), t) == Early(site, rows, t)
  {
    forall key | key in rows && EndedBy(site, key.1, t) ensures EndedBy(site, key.1, u) {
      var c :| c in site && c.id == key.1 && c.end <= t;
      assert c.end <= u;
    }
  }

  /** How far a table that was right up to t is right after replaying from `from`. */
  function RightUntil(site: seq<Contest>, rows: Table, t: int, from: int, now: int): int {
    if Gapless(site, t, from, Kept(site, rows, from, now)) then now else t
  }

  /** Rating from any contest, in whatever order, keeps right what was right, and makes everything right if nothing
      stands between the right rows and the replay. */
  lemma RateFromRight(an: RawAnalysis, site: seq<Contest>, t: int, clock: int, from: int, now: int, s: State)
    requires an.Sound() && Ordered(site) && clock <= now && RowsLive(site, clock, s.table)
    requires Early(site, s.table, t) == FromScratch(an, site, t)
    requires from <= now
    ensures var u, rows := RightUntil(site, s.table, t, from, now), RateFrom(an, site, from, now, s).table;
            && Early(site, rows, u) == FromScratch(an, site, u)
            && (u == now ==> rows == FromScratch(an, site, now))
  {
    hide RateFrom, FromScratch, RowsLive, Gapless, Kept, Early, Ordered;
    var kept := Kept(site, s.table, from, now);
    RateFromLive(an, site, from, clock, now, s);
    KeptIsEarly(site, s.table, from, clock, now);
    if t < from {
      EarlyUntouched(an, site, t, from, now, s);
      if Gapless(site, t, from, kept) {
        EarlyLive(site, s.table, clock, from - 1);
        EarlyTwice(site, s.table, t, from - 1);
        GaplessRight(an, site, kept, t, from);
      }
    } else {
      NothingBetween(site, t, from, kept);
      EarlierRight(an, site, s.table, from - 1, t);
    }
    RateFromAgrees(an, site, from, now, s);
    AllEarly(site, RateFrom(an, site, from, now, s).table, now);
  }

  lemma AllEarly(site: seq<Contest>, rows: Table, now: int)
    requires RowsLive(site, now, rows)
    ensures Early(site, rows, now) == rows
  {
    hide LiveIn;
    forall key | key in rows ensures EndedBy(site, key.1, now) {
      var i :| 0 <= i < |site| && site[i].id == key.1 && Selected(site[i], None, now) && LiveIn(site[i], key.0);
      assert site[i] in site && site[i].end <= now;
    }
  }

  lemma SameEnds(site: seq<Contest>, i: nat, d: Contest, rows: Table, t: int)
    requires i < |site| && SameShape(site[i], d)
    ensures Early(site[i := d], rows, t) == Early(site, rows, t)
  {
    forall id ensures EndedBy(site[i := d], id, t) <==> EndedBy(site, id, t) {
      if EndedBy(site, id, t) {
        var c :| c in site && c.id == id && c.end <= t;
        var k :| 0 <= k < |site| && site[k] == c;
        assert site[i := d][k] in site[i := d] && site[i := d][k].end <= t;
      }
      if EndedBy(site[i := d], id, t) {
        var c :| c in site[i := d] && c.id == id && c.end <= t;
        var k :| 0 <= k < |site| && site[i := d][k] == c;
        assert site[k] in site && site[k].end <= t;
      }
    }
  }

  /** Changing participations of a contest the right rows do not depend on. */
  lemma ChangedRight(an: RawAnalysis, site: seq<Contest>, i: nat, d: Contest, t: int, rows: Table)
    requires an.Sound() && Ordered(site) && i < |site| && SameShape(site[i], d)
    requires Early(site, rows, t) == FromScratch(an, site, t)
    requires d.rated && d.end <= t ==> SamePlayers(d, site[i]) && !HasRows(rows, d.id)
    ensures Early(site[i := d], rows, t) == FromScratch(an, site[i := d], t)
  {
    hide ReplayRows, SamePlayers;
    SameEnds(site, i, d, rows, t);
    if d.rated && d.end <= t {
      forall key | key in FromScratch(an, site, t) ensures key.1 != d.id { assert key in rows; }
    }
    ReplayChanged(an, site, d, i, t, |site|);
  }

  /** Recomputing a contest's participations keeps its live participants. */
  lemma LiveKept(site: seq<Contest>, i: nat, d: Contest, t: int, rows: Table)
    requires i < |site| && SameShape(site[i], d)
    requires HasRows(rows, d.id) ==> SamePlayers(site[i], d)
    requires RowsLive(site, t, rows)
    ensures RowsLive(site[i := d], t, rows)
  {
    var site' := site[i := d];
    forall key | key in rows
      ensures exists j :: 0 <= j < |site'| && site'[j].id == key.1 && Selected(site'[j], None, t)
                          && LiveIn(site'[j], key.0)
    {
      var j :| 0 <= j < |site| && site[j].id == key.1 && Selected(site[j], None, t) && LiveIn(site[j], key.0);
      if j == i { assert HasRows(rows, d.id); }
      assert LiveIn(site'[j], key.0);
    }
  }

  /** The time up to which the table is right after `set_disqualified`. */
  function DisqualifiedUntil(site: seq<Contest>, i: nat, d: Contest, t: int, now: int, s: State): int
    requires i < |site|
  {
    if d.rated && HasRows(s.table, d.id) then RightUntil(site[i := d], s.table, t, d.end, now) else t
  }

  /** Disqualifying (or reinstating) keeps right what was right, now for the changed contest, and makes everything
      right if the contest was rated in the right rows: it replays from that contest when the contest has rows, and
      when it has none there was nobody to rate. */
  lemma SetDisqualifiedAgrees(an: RawAnalysis, site: seq<Contest>, i: nat, d: Contest, t: int, clock: int, now: int,
                              s: State)
    requires an.Sound() && Ordered(site) && i < |site| && t <= clock <= now
    requires SameShape(site[i], d) && SamePlayers(d, site[i]) && SamePlayers(site[i], d)
    requires RowsLive(site, clock, s.table) && Early(site, s.table, t) == FromScratch(an, site, t)
    ensures var u, rows := DisqualifiedUntil(site, i, d, t, now, s), SetDisqualified(an, site, i, d, now, s).table;
            && Early(site[i := d], rows, u) == FromScratch(an, site[i := d], u)
            && (d.rated && HasRows(s.table, d.id) && d.end <= t + 1 ==> rows == FromScratch(an, site[i := d], now))
  {
    hide RateFrom, FromScratch, SamePlayers, Early, RightUntil, Gapless;
    OrderedChange(site, i, d);
    if d.rated && HasRows(s.table, d.id) {
      LiveKept(site, i, d, clock, s.table);
      RowsEnded(site, i, clock, s.table);
      var v := if t < d.end then t else d.end - 1;
      EarlierRight(an, site, s.table, v, t);
      ChangedRight(an, site, i, d, v, s.table);
      RateFromRight(an, site[i := d], v, clock, d.end, now, s);
      GaplessBefore(site[i := d], v, t, d.end, now, s.table);
    } else {
      ChangedRight(an, site, i, d, t, s.table);
    }
  }

  /** Nothing stands before a replay that starts in the right part. */
  lemma GaplessBefore(site: seq<Contest>, v: int, t: int, from: int, now: int, rows: Table)
    requires v == if t < from then t else from - 1
    ensures t >= from ==> RightUntil(site, rows, v, from, now) == now
    ensures from <= t + 1 ==> RightUntil(site, rows, t, from, now) == now
    ensures t < from ==> v == t
  {}

  /** A contest with rows has ended. */
  lemma RowsEnded(site: seq<Contest>, i: nat, t: int, rows: Table)
    requires Ordered(site) && i < |site| && RowsLive(site, t, rows)
    requires HasRows(rows, site[i].id)
    ensures site[i].end <= t
  {
    hide LiveIn;
    var key :| key in rows && key.1 == site[i].id;
    var j :| 0 <= j < |site| && site[j].id == key.1 && Selected(site[j], None, t) && LiveIn(site[j], key.0);
    SameContest(site, site[i], site[j]);
  }

  // ---- runs ----

  /** Administrative actions, each at a time `now`. Restanding is any change to the participations of a contest that
      is not followed by a rating: people joining, submissions, a rejudge that recomputes standings. */
  datatype Action =
    | Everything(now: int)
    | RateContest(i: nat, now: int)
    | Disqualification(i: nat, d: Contest, now: int)
    | Restanding(i: nat, d: Contest, now: int)

  /** The contests, the database, the time of the last action, and the time up to which the table is known to be
      right. */
  datatype World = World(site: seq<Contest>, s: State, clock: int, t: int)

  /** When an action may happen: `rate_view` rates only ended, rated contests, in any order; whoever has a row keeps a
      live participation. */
  ghost predicate Allowed(w: World, a: Action) {
    && w.clock <= a.now
    && match a
       case Everything(_) => true
       case RateContest(i, now) => i < |w.site| && w.site[i].rated && w.site[i].end < now
       case Disqualification(i, d, now) =>
         i < |w.site| && SameShape(w.site[i], d) && SamePlayers(d, w.site[i]) && SamePlayers(w.site[i], d)
       case Restanding(i, d, now) =>
         i < |w.site| && SameShape(w.site[i], d) && (HasRows(w.s.table, d.id) ==> SamePlayers(w.site[i], d))
  }

  /** Changing the standings of a rated contest puts its rows, and all later ones, in doubt. */
  function RestandingUntil(d: Contest, t: int): int {
    if d.rated && d.end <= t then d.end - 1 else t
  }

  function Perform(an: RawAnalysis, w: World, a: Action): World
    requires an.Sound()
  {
    match a
    case Everything(now) => World(w.site, RateAll(an, w.site, now, w.s.profiles), now, now)
    case RateContest(i, now) =>
      if i >= |w.site| then w
      else
        var from := w.site[i].end;
        World(w.site, RateFrom(an, w.site, from, now, w.s), now, RightUntil(w.site, w.s.table, w.t, from, now))
    case Disqualification(i, d, now) =>
      if i >= |w.site| then w
      else World(w.site[i := d], SetDisqualified(an, w.site, i, d, now, w.s), now,
                 DisqualifiedUntil(w.site, i, d, w.t, now, w.s))
    case Restanding(i, d, now) =>
      if i >= |w.site| then w else World(w.site[i := d], w.s, now, RestandingUntil(d, w.t))
  }

  ghost predicate Live(w: World) {
    Ordered(w.site) && RowsLive(w.site, w.clock, w.s.table) && w.t <= w.clock
  }

  /** The rows of contests that ended by w.t are those that rating everything from scratch would give. */
  ghost predicate Right(an: RawAnalysis, w: World)
    requires an.Sound()
  {
    Live(w) && Early(w.site, w.s.table, w.t) == FromScratch(an, w.site, w.t)
  }

  /** If that is all the time there is, the whole table is the from-scratch table. */
  lemma AllRight(an: RawAnalysis, w: World)
    requires an.Sound() && Right(an, w) && w.t == w.clock
    ensures w.s.table == FromScratch(an, w.site, w.clock)
  {
    hide FromScratch, RowsLive, Early;
    AllEarly(w.site, w.s.table, w.clock);
  }

  lemma StepLive(an: RawAnalysis, w: World, a: Action)
    requires an.Sound() && Live(w) && Allowed(w, a)
    ensures Live(Perform(an, w, a))
  {
    hide RateFrom, ReplayRows, Replay, SamePlayers, RowsLive, Ordered, Gapless;
    match a
    case Everything(now) =>
      ReplayIsRows(an, w.site, None, now, |w.site|, Blank(w.s.profiles));
      NoRowsLive(w.site, now);
      ReplayLive(an, w.site, None, now, |w.site|, map[]);
    case RateContest(i, now) =>
      RateFromLive(an, w.site, w.site[i].end, w.clock, now, w.s);
    case Disqualification(i, d, now) =>
      OrderedChange(w.site, i, d);
      LiveKept(w.site, i, d, w.clock, w.s.table);
      RowsLater(w.site[i := d], w.clock, now, w.s.table);
      RateFromLive(an, w.site[i := d], d.end, w.clock, now, w.s);
    case Restanding(i, d, now) =>
      OrderedChange(w.site, i, d);
      LiveKept(w.site, i, d, w.clock, w.s.table);
      RowsLater(w.site[i := d], w.clock, now, w.s.table);
  }

  lemma NoRowsLive(site: seq<Contest>, now: int)
    ensures RowsLive(site, now, map[])
  {}

  lemma StepRight(an: RawAnalysis, w: World, a: Action)
    requires an.Sound() && Right(an, w) && Allowed(w, a)
    ensures Right(an, Perform(an, w, a))
  {
    hide RateFrom, FromScratch, Replay, SamePlayers, RowsLive, Ordered, Gapless, RightUntil, DisqualifiedUntil, Early,
         SetDisqualified;
    StepLive(an, w, a);
    match a
    case Everything(now) => EverythingRight(an, w, now);
    case RateContest(i, now) =>
      RateFromRight(an, w.site, w.t, w.clock, w.site[i].end, now, w.s);
    case Disqualification(i, d, now) =>
      SetDisqualifiedAgrees(an, w.site, i, d, w.t, w.clock, now, w.s);
    case Restanding(i, d, now) =>
      EarlierRight(an, w.site, w.s.table, RestandingUntil(d, w.t), w.t);
      ChangedRight(an, w.site, i, d, RestandingUntil(d, w.t), w.s.table);
  }

  lemma EverythingRight(an: RawAnalysis, w: World, now: int)
    requires an.Sound() && Live(w) && Live(Perform(an, w, Everything(now)))
    ensures Right(an, Perform(an, w, Everything(now)))
  {
    hide Replay, ReplayRows, RowsLive, Early;
    ReplayIsRows(an, w.site, None, now, |w.site|, Blank(w.s.profiles));
    AllEarly(w.site, Perform(an, w, Everything(now)).s.table, now);
  }

  function Run(an: RawAnalysis, w: World, actions: seq<Action>): World
    requires an.Sound()
    decreases |actions|
  {
    if actions == [] then w else Run(an, Perform(an, w, actions[0]), actions[1..])
  }

  ghost predicate AllAllowed(an: RawAnalysis, w: World, actions: seq<Action>)
    requires an.Sound()
    decreases |actions|
  {
    actions == [] || (Allowed(w, actions[0]) && AllAllowed(an, Perform(an, w, actions[0]), actions[1..]))
  }

  /** Over any run of rating, disqualifying, reinstating and changing standings, in any order, the rows of the
      contests that ended by the time the run accounts for are the from-scratch rows. */
  lemma {:induction false} RunRight(an: RawAnalysis, w: World, actions: seq<Action>)
    requires an.Sound() && Right(an, w) && AllAllowed(an, w, actions)
    ensures Right(an, Run(an, w, actions))
    decreases |actions|
  {
    hide Right, Perform, Allowed;
    if actions != [] {
      StepRight(an, w, actions[0]);
      RunRight(an, Perform(an, w, actions[0]), actions[1..]);
    }
  }

  // ---- profiles over runs ----

  ghost predicate AllCurrent(site: seq<Contest>, s: State) {
    forall user :: user in s.profiles ==> Current(site, s, user)
  }

  /** The rows a replay deletes are rows of contests it rates again. */
  lemma RightRowsRated(site: seq<Contest>, t: int, rows: Table, from: int, now: int)
    requires Ordered(site) && t <= now && RowsLive(site, t, rows)
    ensures RowsStillRated(site, rows, from, now)
  {
    hide LiveIn;
    forall key | key in rows && RowInRange(site, key.1, from, now)
      ensures exists i :: 0 <= i < |site| && site[i].id == key.1 && Selected(site[i], Some(from), now)
                          && LiveIn(site[i], key.0)
    {
      var i :| 0 <= i < |site| && site[i].id == key.1 && Selected(site[i], None, t) && LiveIn(site[i], key.0);
      var c :| c in site && c.id == key.1 && InRange(c, Some(from), now);
      SameContest(site, c, site[i]);
    }
  }

  lemma {:induction false} ReplayKeys(an: RawAnalysis, site: seq<Contest>, from: Option<int>, to: int, k: nat, s: State)
    requires an.Sound() && k <= |site|
    ensures Replay(an, site, from, to, k, s).profiles.Keys == s.profiles.Keys
  {
    hide RateTable, Latest, LiveIn;
    if k > 0 { ReplayKeys(an, site, from, to, k - 1, s); }
  }

  lemma RateFromAllCurrent(an: RawAnalysis, site: seq<Contest>, from: int, now: int, t: int, s: State)
    requires an.Sound() && Ordered(site) && t <= now
    requires RowsLive(site, t, s.table) && AllCurrent(site, s)
    ensures AllCurrent(site, RateFrom(an, site, from, now, s))
  {
    hide Replay, RowsLive, RowsStillRated, Current, Ordered;
    RightRowsRated(site, t, s.table, from, now);
    ReplayKeys(an, site, Some(from), now, |site|, State(Kept(site, s.table, from, now), s.profiles));
    forall user | user in s.profiles ensures Current(site, RateFrom(an, site, from, now, s), user) {
      RateFromCurrent(an, site, from, now, s, user);
    }
  }

  lemma RateAllAllCurrent(an: RawAnalysis, site: seq<Contest>, now: int, p: Profiles)
    requires an.Sound()
    ensures AllCurrent(site, RateAll(an, site, now, p))
  {
    hide Replay, Current;
    ReplayKeys(an, site, None, now, |site|, Blank(p));
    forall user | user in p ensures Current(site, RateAll(an, site, now, p), user) {
      RateAllCurrent(an, site, now, p, user);
    }
  }

  /** Changing participations does not change what the rows say. */
  lemma CurrentKept(site: seq<Contest>, i: nat, d: Contest, s: State)
    requires i < |site| && SameShape(site[i], d) && AllCurrent(site, s)
    ensures AllCurrent(site[i := d], s)
  {
    hide History;
    forall user | user in s.profiles ensures Current(site[i := d], s, user) {
      HistorySameIds(site, site[i := d], s.table, user);
    }
  }

  lemma StepCurrent(an: RawAnalysis, w: World, a: Action)
    requires an.Sound() && Live(w) && Allowed(w, a) && AllCurrent(w.site, w.s)
    ensures AllCurrent(Perform(an, w, a).site, Perform(an, w, a).s)
  {
    hide Replay, ReplayRows, RateFrom, RateAll, AllCurrent, RowsLive, SamePlayers, Ordered, Gapless;
    match a
    case Everything(now) => RateAllAllCurrent(an, w.site, now, w.s.profiles);
    case RateContest(i, now) => RateFromAllCurrent(an, w.site, w.site[i].end, now, w.clock, w.s);
    case Disqualification(i, d, now) =>
      OrderedChange(w.site, i, d);
      LiveKept(w.site, i, d, w.clock, w.s.table);
      CurrentKept(w.site, i, d, w.s);
      RateFromAllCurrent(an, w.site[i := d], d.end, now, w.clock, w.s);
    case Restanding(i, d, now) => CurrentKept(w.site, i, d, w.s);
  }

  lemma {:induction false} RunAllCurrent(an: RawAnalysis, w: World, actions: seq<Action>)
    requires an.Sound() && Live(w) && AllAllowed(an, w, actions) && AllCurrent(w.site, w.s)
    ensures AllCurrent(Run(an, w, actions).site, Run(an, w, actions).s)
    decreases |actions|
  {
    hide Live, Perform, Allowed, AllCurrent;
    if actions != [] {
      StepLive(an, w, actions[0]);
      StepCurrent(an, w, actions[0]);
      RunAllCurrent(an, Perform(an, w, actions[0]), actions[1..]);
    }
  }

  /** Every profile shows the rating of its user's row in the latest contest with one, or nothing. */
  ghost predicate AllShowLatest(site: seq<Contest>, s: State) {
    forall user :: user in s.profiles ==> ShowsLatest(site, s.table, user, s.profiles[user])
  }

  lemma CurrentIsLatest(site: seq<Contest>, s: State)
    ensures AllCurrent(site, s) <==> AllShowLatest(site, s)
  {
    hide ShowsLatest, Latest;
    forall user | user in s.profiles
      ensures Current(site, s, user) <==> ShowsLatest(site, s.table, user, s.profiles[user])
    {
      LatestIs(site, s.table, user, s.profiles[user]);
    }
  }

  /** Over any such run, right or not, every profile shows its user's latest rating. */
  lemma RunCurrent(an: RawAnalysis, w: World, actions: seq<Action>)
    requires an.Sound() && Live(w) && AllAllowed(an, w, actions) && AllShowLatest(w.site, w.s)
    ensures AllShowLatest(Run(an, w, actions).site, Run(an, w, actions).s)
  {
    hide Live, Run, AllAllowed, AllCurrent, AllShowLatest;
    CurrentIsLatest(w.site, w.s);
    RunAllCurrent(an, w, actions);
    CurrentIsLatest(Run(an, w, actions).site, Run(an, w, actions).s);
  }

  // ---- the code ----

  class Database {
    var site: seq<Contest>
    var table: Table
    var profiles: Profiles

    ghost function Abs(): State
      reads this
    {
      State(table, profiles)
    }

    constructor (site: seq<Contest>, table: Table, profiles: Profiles)
      ensures this.site == site && Abs() == State(table, profiles)
    {
      this.site := site;
      this.table := table;
      this.profiles := profiles;
    }

    /** Who is rated. */
    method ReadUsers(c: Contest) returns (users: seq<Entry>)
      ensures users == RatedEntries(site, c, table, c.entries)
    {
      hide Eligible;
      users := [];
      for k := 0 to |c.entries|
        invariant users == RatedEntries(site, c, table, c.entries[..k])
      {
        assert c.entries[..k + 1][..k] == c.entries[..k];
        if Eligible(site, c, table, c.entries[k]) {
          users := users + [c.entries[k]];
        }
      }
      assert c.entries[..|c.entries|] == c.entries;
    }

    /** What their earlier rows say. */
    method ReadPlayers(users: seq<Entry>) returns (ps: Players)
      ensures ps == PlayersOf(site, table, users)
    {
      hide History, TieRanks, Keys, ContestRating.Performances;
      var ranking := RankWithTies(Keys(users));
      var means: seq<real>, times: seq<nat>, past: seq<seq<real>> := [], [], [];
      ghost var want := PlayersOf(site, table, users);
      for k := 0 to |users|
        invariant means == want.oldMean[..k] && times == want.times[..k] && past == want.past[..k]
      {
        var h := History(site, table, users[k].user);
        means := means + [LastMean(site, table, users[k].user)];
        times := times + [|h|];
        past := past + [ContestRating.Performances(h)];
      }
      ps := Players(ranking, means, times, past);
    }

    method RateContest(an: RawAnalysis, vars: VarCache, k: nat)
      requires an.Sound() && vars.Valid() && k < |site|
      modifies `table, `profiles, vars
      ensures vars.Valid()
      ensures Abs() == RateOne(an, site, site[k], old(Abs()))
    {
      hide Recalculated, PlayersOf, RatedEntries, Refresh, NewRow;
      var c := site[k];
      var users := ReadUsers(c);
      var ps := ReadPlayers(users);
      ghost var t := table;
      var r := RecalculateRatings(an, vars, ps);
      for m := 0 to |users|
        invariant vars.Valid() && profiles == old(profiles)
        invariant table == WithRows(t, c, users, ps, r, m)
      {
        table := table[(users[m].user, c.id) := NewRow(users, ps, r, m)];
      }
      profiles := Refresh(site, c, table, profiles);
    }

    /** Rates the rated contests that end within range, in order of end time. */
    method ReplayRange(an: RawAnalysis, vars: VarCache, from: Option<int>, to: int)
      requires an.Sound() && vars.Valid()
      modifies `table, `profiles, vars
      ensures vars.Valid()
      ensures Abs() == Replay(an, site, from, to, |site|, old(Abs()))
    {
      hide RateOne;
      for k := 0 to |site|
        invariant vars.Valid()
        invariant Abs() == Replay(an, site, from, to, k, old(Abs()))
      {
        if Selected(site[k], from, to) {
          RateContest(an, vars, k);
        }
      }
    }

    method Rate(an: RawAnalysis, vars: VarCache, i: nat, now: int)
      requires an.Sound() && vars.Valid() && i < |site|
      modifies `table, `profiles, vars
      ensures vars.Valid()
      ensures Abs() == RateFrom(an, site, site[i].end, now, old(Abs()))
    {
      hide Replay;
      table := Kept(site, table, site[i].end, now);
      ReplayRange(an, vars, Some(site[i].end), now);
    }

    method RateAllView(an: RawAnalysis, vars: VarCache, now: int)
      requires an.Sound() && vars.Valid()
      modifies `table, `profiles, vars
      ensures vars.Valid()
      ensures Abs() == RateAll(an, site, now, old(profiles))
    {
      hide Replay;
      table := map[];
      profiles := map user | user in profiles :: None;
      ReplayRange(an, vars, None, now);
    }

    /** `set_disqualified` on participation `id` of contest i: what `recompute_results` writes, then a replay if the
        contest is rated and has rows. `entries` is what the rating query then returns. */
    method SetDisqualifiedTo(an: RawAnalysis, vars: VarCache, i: nat, id: int, disqualified: bool, score: real,
                             cumtime: int, tiebreaker: real, entries: seq<Entry>, now: int)
      requires an.Sound() && vars.Valid() && i < |site|
      requires Recomputed(site[i], site[i].(entries := entries), id, disqualified, score, cumtime, tiebreaker)
      modifies this, vars
      ensures var d := old(site)[i].(entries := entries);
              && vars.Valid() && site == old(site)[i := d]
              && SamePlayers(d, old(site)[i]) && SamePlayers(old(site)[i], d)
              && Abs() == SetDisqualified(an, old(site), i, d, now, old(Abs()))
    {
      hide Replay, Recomputed, SamePlayers;
      var d := site[i].(entries := entries);
      RecomputedPlayers(site[i], d, id, disqualified, score, cumtime, tiebreaker);
      site := site[i := d];
      if d.rated && HasRows(table, d.id) {
        Rate(an, vars, i, now);
      }
    }
  }
}
