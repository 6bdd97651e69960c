/** Runs of the scheduler, from its start, that end where a property of judge/bridge/judge_list.py fails. */
module SchedulerExamples {
  import opened Prelude
  import opened JudgeQueue
  import opened Scheduler
  import opened Draining
  import opened Settling

  /** The run leads from the empty scheduler to s, where ownership holds. */
  ghost predicate Reached<J>(es: seq<Event<J>>, s: State<J>) {
    Owned(Initial<J>()) && Run(Initial<J>(), es, s) && Owned(s)
  }

  lemma Start<J>()
    ensures Reached<J>([], Initial<J>())
  {
    InitialOwned<J>();
  }

  lemma {:induction false} RunThen<J>(s: State<J>, es: seq<Event<J>>, t: State<J>, e: Event<J>)
    requires WellMarked(s.queue) && Run(s, es, t)
    requires WellMarked(t.queue) && Possible(t, e) && WellMarked(Next(t, e).queue)
    ensures Run(s, es + [e], Next(t, e))
    decreases |es|
  {
    hide Next, Possible, WellMarked;
    var fs := es + [e];
    if es == [] {
      assert fs[0] == e && fs[1..] == [];
      assert Run(Next(t, e), [], Next(t, e));
    } else {
      assert fs[0] == es[0] && fs[1..] == es[1..] + [e];
      RunThen(Next(s, es[0]), es[1..], t, e);
    }
  }

  /** One step further. */
  lemma Then<J>(es: seq<Event<J>>, s: State<J>, e: Event<J>)
    requires Reached(es, s) && Possible(s, e) && !e.Offering?
    ensures Reached(es + [e], Next(s, e))
  {
    hide Next, Possible, WellMarked, Run, Timely;
    NotLate(s, e);
    NextOwned(s, e);
    OwnedMarked(Next(s, e));
    OwnedMarked(s);
    OwnedMarked(Initial<J>());
    RunThen(Initial<J>(), es, s, e);
  }

  lemma NotLate<J>(s: State<J>, e: Event<J>)
    requires !e.Offering?
    ensures Timely(s, e)
  {}

  lemma OwnedMarked<J>(s: State<J>)
    requires Owned(s)
    ensures WellMarked(s.queue)
  {}

  // ---- judges, submissions and lists ----

  function Able(name: string, problems: set<string>, disabled: bool): Info {
    Info(Some(name), problems, {"PY3"}, None, disabled, INITIAL_LOAD)
  }

  function Sub(id: SubId, problem: string): Submission {
    Submission(id, problem, "PY3", "", None)
  }

  function Markers(): seq<Entry> {
    [Marker(0), Marker(1), Marker(2), Marker(3)]
  }

  /** A list in which one submission waits at priority p. */
  function OneWaiting(p: nat, sub: Submission): seq<Entry>
    requires p < PRIORITIES
  {
    InsertAt(Markers(), p, Item(sub))
  }

  lemma MarkersFacts()
    ensures WellMarked(Markers()) && DistinctIds(Markers())
    ensures forall id :: !Waiting(Markers(), id)
    ensures forall info, reserved :: NoFit(Markers(), info, reserved)
  {
    InitialOwned<int>();
    assert Markers() == Initial<int>().queue;
  }

  lemma OneWaitingFacts(p: nat, sub: Submission)
    requires p < PRIORITIES
    ensures var q := OneWaiting(p, sub);
            && WellMarked(q) && |q| == 5 && q[p] == Item(sub) && PrioAt(q, p) == p
            && (forall k :: 0 <= k < |q| && q[k].Item? ==> k == p)
            && forall id :: Waiting(q, id) <==> id == sub.id
  {
    hide WellMarked, DistinctIds, PrioAt, Waiting, Markers, InsertAt;
    OneWaitingShape(p, sub);
    MarkersFacts();
    InsertStays(Markers(), p, sub);
    forall id ensures Waiting(OneWaiting(p, sub), id) <==> id == sub.id { InsertWaits(Markers(), p, sub, id); }
    PrioInsert(Markers(), p, sub, p);
    MarkerOrder(p);
  }

  lemma OneWaitingShape(p: nat, sub: Submission)
    requires p < PRIORITIES
    ensures var q := OneWaiting(p, sub);
            |Markers()| == 4 && |q| == 5 && q[p] == Item(sub) && forall k :: 0 <= k < |q| && q[k].Item? ==> k == p
  {
    var q := OneWaiting(p, sub);
    forall k | 0 <= k < |q| && k != p ensures q[k].Marker? {
      assert q[k] == Markers()[if k < p then k else k - 1];
    }
  }

  lemma MarkerOrder(p: nat)
    requires p < PRIORITIES
    ensures Markers()[p] == Marker(p) && PrioAt(Markers(), p) == p && Marker(p) in Markers()
    ensures MarkerPos(Markers(), p) == p
  {
    hide WellMarked;
    MarkersFacts();
    assert PrioAt(Markers(), 0) == 0 && PrioAt(Markers(), 1) == 1 && PrioAt(Markers(), 2) == 2;
    assert Markers()[p] == Marker(p);
    MarkerUnique(Markers(), p, MarkerPos(Markers(), p));
  }

  lemma QuietPick(q: seq<Entry>, info: Info, reserved: bool)
    requires WellMarked(q) && NoFit(q, info, reserved)
    ensures Pick(q, info, reserved).None?
  {
    hide Pick, Fits;
    PickFirst(q, info, reserved);
  }

  /** A judge that finds nothing to do joins the others. */
  lemma Joins<J>(es: seq<Event<J>>, s: State<J>, j: J, info: Info)
    requires Reached(es, s) && j !in s.judges && Newcomer(info)
    requires NoFit(s.queue, info, Reserved(s.judges[j := info]))
    ensures Reached(es + [Registering(j, info)], s.(judges := s.judges[j := info]))
  {
    hide Pick, NoFit, WellMarked, DistinctIds, Reserved, Run;
    OwnedMarked(s);
    QuietPick(s.queue, info, Reserved(s.judges[j := info]));
    Then(es, s, Registering(j, info));
  }

  /** A judge that has just joined turns out to be disabled. */
  lemma TurnsOutOff<J>(es: seq<Event<J>>, s: State<J>, j: J, off: Info)
    requires Reached(es, s) && j in s.judges && off == s.judges[j].(disabled := true)
    ensures Reached(es + [Connected(j, true)], s.(judges := s.judges[j := off]))
  {
    hide WellMarked, DistinctIds, Run;
    Then(es, s, Connected(j, true));
  }

  /** An urgent submission for which exactly one judge is available goes there. */
  lemma Sent<J>(es: seq<Event<J>>, s: State<J>, sub: Submission, j: J)
    requires Reached(es, s) && !Known(s, sub.id) && j in s.judges
    requires Available(s.judges, sub) == {j}
    ensures Reached(es + [Judging(sub, 1, Some(j))], Dispatch(s, sub.id, j))
  {
    hide WellMarked, DistinctIds, Run, Known, CanJudge;
    assert LegalChoice(s, sub, 1, Some(j));
    Then(es, s, Judging(sub, 1, Some(j)));
  }

  /** A submission nobody may have now waits. */
  lemma Waits<J>(es: seq<Event<J>>, s: State<J>, sub: Submission, p: nat)
    requires Reached(es, s) && s.queue == Markers() && sub.id !in s.running && p < PRIORITIES
    requires Choices(s.judges, sub, p) == {}
    ensures !Known(s, sub.id) && LegalChoice(s, sub, p, None)
    ensures Reached(es + [Judging(sub, p, None)], s.(queue := OneWaiting(p, sub)))
  {
    hide WellMarked, DistinctIds, Run, CanJudge, Choices, MarkerPos;
    MarkersFacts();
    MarkerOrder(p);
    Then(es, s, Judging(sub, p, None));
  }

  lemma NobodyWaits<J>(s: State<J>, sub: Submission)
    requires s.queue == Markers() && sub.id !in s.running
    ensures !Known(s, sub.id)
  {
    hide WellMarked, DistinctIds;
    MarkersFacts();
  }

  /** A waiting submission does not fit a judge that cannot judge it, nor, if a rejudge, one that is reserved. */
  lemma OneWaitingFit(p: nat, sub: Submission, info: Info, reserved: bool)
    requires p < PRIORITIES
    ensures NoFit(OneWaiting(p, sub), info, reserved)
       <==> !CanJudge(info, sub) || (p >= REJUDGE_PRIORITY && reserved)
    ensures NothingFor(OneWaiting(p, sub), info) <==> !CanJudge(info, sub) || p >= REJUDGE_PRIORITY
    ensures NoRejudgeFor(OneWaiting(p, sub), info) <==> !CanJudge(info, sub) || p < REJUDGE_PRIORITY
  {
    hide WellMarked, CanJudge, OneWaiting, PrioAt, Waiting;
    OneWaitingFacts(p, sub);
    var q := OneWaiting(p, sub);
    assert Fits(q, info, reserved, p) <==> CanJudge(info, sub) && (p >= REJUDGE_PRIORITY ==> !reserved);
  }

  // ---- handshakes ----

  /** A judge that is disabled in the database is given a waiting submission while it shakes hands. */
  lemma HandshakeCounterexample<J>(j: J) returns (es: seq<Event<J>>, s: State<J>)
    ensures Reached(es, s) && j in s.judges && s.judges[j].disabled && s.judges[j].working == Some(1)
    ensures es == [Judging(Sub(1, "a"), 1, None), Registering(j, Able("judge", {"a"}, false)), Connected(j, true)]
  {
    hide Run, WellMarked, DistinctIds, OneWaiting, NoFit, Waiting, Pick, Reserved, RemoveAt;
    var sub, on := Sub(1, "a"), Able("judge", {"a"}, false);
    Start<J>();
    MarkersFacts();
    var s0 := Initial<J>();
    assert Candidates(s0.judges, sub) == {} && Available(s0.judges, sub) == {};
    Waits([], s0, sub, 1);
    es := [] + [Judging(sub, 1, None)];
    var s1 := s0.(queue := OneWaiting(1, sub));
    OneWaitingFacts(1, sub);
    var reserved := Reserved(s1.judges[j := on]);
    assert Fits(s1.queue, on, reserved, 1);
    PickFirst(s1.queue, on, reserved);
    Then(es, s1, Registering(j, on));
    es := es + [Registering(j, on)];
    var s2 := Register(s1, j, on);
    TurnsOutOff(es, s2, j, s2.judges[j].(disabled := true));
    es := es + [Connected(j, true)];
    s := s2.(judges := s2.judges[j := s2.judges[j].(disabled := true)]);
  }

  // ---- re-enabling ----

  /** Re-enabling can leave an urgent submission waiting beside a free judge. */
  lemma EnablingCounterexample<J>(j: J) returns (es: seq<Event<J>>, s: State<J>)
    ensures Reached(es, s) && Drained(s) && Settled(s)
    ensures !Drained(Next(s, Disabling(Some("judge"), false)))
  {
    hide Run, WellMarked, DistinctIds, OneWaiting, Owned, NoFit, NothingFor;
    var sub, on := Sub(1, "aplusb"), Able("judge", {"aplusb"}, false);
    var off := on.(disabled := true);
    Start<J>();
    MarkersFacts();
    Joins([], Initial<J>(), j, on);
    var s0 := Initial<J>().(judges := Initial<J>().judges[j := on]);
    es := [] + [Registering(j, on)];
    TurnsOutOff(es, s0, j, off);
    var s1 := s0.(judges := s0.judges[j := off]);
    es := es + [Connected(j, true)];
    assert s1.judges == map[j := off];
    assert Candidates(s1.judges, sub) == {} && Available(s1.judges, sub) == {};
    Waits(es, s1, sub, 1);
    es := es + [Judging(sub, 1, None)];
    s := s1.(queue := OneWaiting(1, sub));
    OneWaitingFit(1, sub, on, false);
    assert SetDisabled(s, Some("judge"), false).judges[j] == on;
  }

  // ---- removing ----

  /** Three judges: a and b free, c at work. */
  lemma ThreeJudges<J>(a: J, b: J, c: J) returns (es: seq<Event<J>>, s: State<J>)
    requires a != b && b != c && a != c
    ensures Reached(es, s) && s.queue == Markers() && s.pending == {} && s.running == map[1 := c]
    ensures s.judges == map[a := Able("a", {"x"}, false), b := Able("b", {}, false),
                            c := Able("c", {"x", "z"}, false).(working := Some(1))]
  {
    hide Run, WellMarked, DistinctIds, Owned, NoFit, Reserved;
    var one, second, three := Able("a", {"x"}, false), Able("b", {}, false), Able("c", {"x", "z"}, false);
    var busy := Sub(1, "z");
    Start<J>();
    MarkersFacts();
    var s0 := Initial<J>();
    Joins([], s0, a, one);
    var s1 := s0.(judges := s0.judges[a := one]);
    es := [] + [Registering(a, one)];
    Joins(es, s1, b, second);
    var s2 := s1.(judges := s1.judges[b := second]);
    es := es + [Registering(b, second)];
    Joins(es, s2, c, three);
    var s3 := s2.(judges := s2.judges[c := three]);
    es := es + [Registering(c, three)];
    NobodyWaits(s3, busy);
    assert Available(s3.judges, busy) == {c};
    Sent(es, s3, busy, c);
    es := es + [Judging(busy, 1, Some(c))];
    s := Dispatch(s3, 1, c);
  }

  /** a is free and reserved, b is turned off, c is at work, and the reserve holds back a rejudge that a could take. */
  lemma HeldBack<J>(a: J, b: J, c: J) returns (es: seq<Event<J>>, s: State<J>)
    requires a != b && b != c && a != c
    ensures Reached(es, s) && Owned(s) && Settled(s)
    ensures s.queue == OneWaiting(2, Sub(2, "x")) && s.pending == {}
    ensures s.judges == map[a := Able("a", {"x"}, false), b := Able("b", {}, true),
                            c := Able("c", {"x", "z"}, false).(working := Some(1))]
  {
    hide Run, WellMarked, DistinctIds, OneWaiting, Reached, Settled, Next, Choices;
    var sub := Sub(2, "x");
    var s0: State<J>;
    es, s0 := ThreeJudges(a, b, c);
    TurnsOutOff(es, s0, b, Able("b", {}, true));
    var s1 := s0.(judges := s0.judges[b := Able("b", {}, true)]);
    es := es + [Connected(b, true)];
    OneOff(s1, a, b, c);
    Waits(es, s1, sub, 2);
    es := es + [Judging(sub, 2, None)];
    s := s1.(queue := OneWaiting(2, sub));
    HeldSettled(s, sub, a);
    ReachedOwned(es, s);
  }

  /** Removing a judge can lift the reserve with nobody offered the rejudge it held back: one enabled and one disabled
      judge are left, which is more than one. */
  lemma RemoveCounterexample<J>(a: J, b: J, c: J) returns (es: seq<Event<J>>, s: State<J>)
    requires a != b && b != c && a != c
    ensures Reached(es, s) && Settled(s) && Possible(s, Removing(c)) && !Settled(Next(s, Removing(c)))
  {
    hide Run, WellMarked, OneWaiting, Reached, Owned, Settled, Next, Reserved, NoRejudgeFor;
    es, s := HeldBack(a, b, c);
    HeldStranded(s, Sub(2, "x"), a, b, c);
    RemoveBreaks(s, c, a);
  }

  /** Turning off a judge can lift the reserve in the same way, and nobody is offered anything. */
  lemma DisableCounterexample<J>(a: J, b: J, c: J) returns (es: seq<Event<J>>, s: State<J>)
    requires a != b && b != c && a != c
    ensures Reached(es, s) && Settled(s) && !Settled(Next(s, Disabling(Some("c"), true)))
  {
    hide Run, WellMarked, OneWaiting, Reached, Owned, Settled, Next, Reserved, NoRejudgeFor;
    es, s := HeldBack(a, b, c);
    var off := s.judges[c].(disabled := true);
    var t := After(s, Disabling(Some("c"), true));
    assert t.judges == map[a := s.judges[a], b := s.judges[b], c := off];
    AllButOneOff(t.judges, a, b, c);
    RejudgeFor(s.judges[a]);
    assert Resting(t, a);
    NextSettled(s, Disabling(Some("c"), true));
  }

  lemma AllButOneOff<J>(judges: map<J, Info>, a: J, b: J, c: J)
    requires judges.Keys == {a, b, c} && judges[b].disabled && judges[c].disabled
    ensures !Reserved(judges)
  {
    SmallerSet(Enabled(judges), {a});
  }

  lemma RejudgeFor(info: Info)
    requires CanJudge(info, Sub(2, "x"))
    ensures !NoRejudgeFor(OneWaiting(2, Sub(2, "x")), info)
  {
    hide OneWaiting, NoRejudgeFor;
    OneWaitingFit(2, Sub(2, "x"), info, false);
  }

  /** A judge that registers can lift the reserve without being able to take the rejudge held back beside another. */
  lemma RegisterCounterexample<J>(a: J, b: J, c: J, d: J) returns (es: seq<Event<J>>, s: State<J>)
    requires a != b && b != c && a != c && d != a && d != b && d != c
    ensures Reached(es, s) && Settled(s)
    ensures var e := Registering(d, Able("d", {}, false)); Possible(s, e) && !Settled(Next(s, e))
  {
    hide Run, WellMarked, OneWaiting, Reached, Owned, Settled, Next, Reserved, NoRejudgeFor, NoFit, NothingFor, Pick;
    es, s := HeldBack(a, b, c);
    var newcomer := Able("d", {}, false);
    var t := After(s, Registering(d, newcomer));
    assert Resting(s, a);
    TwoFree(t.judges, a, d);
    RejudgeFor(s.judges[a]);
    OneWaitingFit(2, Sub(2, "x"), newcomer, false);
    OwnedMarked(s);
    QuietPick(t.queue, newcomer, false);
    NextSettled(s, Registering(d, newcomer));
  }

  lemma TwoFree<J>(judges: map<J, Info>, a: J, d: J)
    requires a != d && a in judges && d in judges && Free(judges[a]) && Free(judges[d])
    ensures !Reserved(judges)
  {
    SmallerSet({a, d}, FreeJudges(judges));
  }

  lemma ReachedOwned<J>(es: seq<Event<J>>, s: State<J>)
    requires Reached(es, s)
    ensures Owned(s)
  {}

  /** With b turned off, a is reserved, and not sent the rejudge directly. */
  lemma OneOff<J>(s: State<J>, a: J, b: J, c: J)
    requires a != b && b != c && a != c
    requires s.judges == map[a := Able("a", {"x"}, false), b := Able("b", {}, true),
                             c := Able("c", {"x", "z"}, false).(working := Some(1))]
    ensures Reserved(s.judges) && FreeJudges(s.judges) == {a}
    ensures Choices(s.judges, Sub(2, "x"), 2) == {}
  {
    assert Candidates(s.judges, Sub(2, "x")) == {a, c} && Available(s.judges, Sub(2, "x")) == {a};
    assert Enabled(s.judges) == {a, c} && FreeJudges(s.judges) == {a};
  }

  /** A rejudge held back by the reserve is no fault. */
  lemma HeldSettled<J>(s: State<J>, sub: Submission, a: J)
    requires s.queue == OneWaiting(2, sub) && Reserved(s.judges) && FreeJudges(s.judges) == {a}
    ensures Settled(s)
  {
    hide OneWaiting, NoFit, CanJudge, Reserved;
    forall j | j in s.judges && Resting(s, j) ensures NoFit(s.queue, s.judges[j], true) {
      OneWaitingFit(2, sub, s.judges[j], true);
    }
  }

  lemma OneLeft<J>(judges: map<J, Info>, a: J, b: J)
    requires a != b && judges == map[a := Able("a", {"x"}, false), b := Able("b", {}, true)]
    ensures |judges| == 2 && !Reserved(judges)
  {
    assert judges.Keys == {a, b};
    assert Enabled(judges) == {a};
  }

  lemma TwoLeft<J>(a: J, b: J, c: J, one: Info, two: Info, three: Info)
    requires a != b && b != c && a != c
    ensures map[a := one, b := two, c := three] - {c} == map[a := one, b := two]
  {}

  lemma HeldStranded<J>(s: State<J>, sub: Submission, a: J, b: J, c: J)
    requires a != b && b != c && a != c && sub == Sub(2, "x")
    requires s.queue == OneWaiting(2, sub) && s.pending == {}
    requires s.judges == map[a := Able("a", {"x"}, false), b := Able("b", {}, true),
                             c := Able("c", {"x", "z"}, false).(working := Some(1))]
    ensures var t := Without(s, c);
            && |t.judges| != 1 && !Reserved(t.judges) && Resting(t, a) && !NoRejudgeFor(t.queue, t.judges[a])
  {
    hide OneWaiting, NoRejudgeFor, NoFit, NothingFor, Reserved;
    var t := Without(s, c);
    TwoLeft(a, b, c, s.judges[a], s.judges[b], s.judges[c]);
    assert t.judges == map[a := s.judges[a], b := s.judges[b]];
    OneLeft(t.judges, a, b);
    OneWaitingFit(2, sub, s.judges[a], true);
  }

  lemma RemoveBreaks<J>(s: State<J>, c: J, a: J)
    requires Owned(s) && Settled(s)
    requires var t := Without(s, c);
             && |t.judges| != 1 && !Reserved(t.judges)
             && Resting(t, a) && !NoRejudgeFor(t.queue, t.judges[a])
    ensures !Settled(Next(s, Removing(c)))
  {
    hide Owned, Settled, Reserved, NoRejudgeFor, Next;
    NextSettled(s, Removing(c));
  }

  // ---- sending a submission ----

  /** A rejudge can be queued beside a free judge with no reserve: `judge` keeps the only free candidate back although
      another judge is free. */
  lemma JudgingCounterexample<J>(a: J, b: J, c: J) returns (es: seq<Event<J>>, s: State<J>)
    requires a != b && b != c && a != c
    ensures Reached(es, s) && Settled(s)
    ensures var e := Judging(Sub(2, "x"), 2, None); Possible(s, e) && !Settled(Next(s, e))
  {
    hide Run, WellMarked, DistinctIds, NoFit, NothingFor, NoRejudgeFor;
    var sub := Sub(2, "x");
    es, s := ThreeJudges(a, b, c);
    MarkersFacts();
    assert Candidates(s.judges, sub) == {a, c} && Available(s.judges, sub) == {a};
    assert FreeJudges(s.judges) == {a, b};
    Waits(es, s, sub, 2);
    JudgingBreaks(s, sub);
  }

  lemma JudgingBreaks<J>(s: State<J>, sub: Submission)
    requires Owned(s) && Settled(s) && !Known(s, sub.id) && LegalChoice(s, sub, 2, None)
    requires !(Available(s.judges, sub) <= s.pending) && !Reserved(s.judges)
    ensures !Settled(Next(s, Judging(sub, 2, None)))
  {
    hide Owned, Settled, Reserved, Available, Next, Known, LegalChoice;
    NextSettled(s, Judging(sub, 2, None));
  }

  // ---- finishing ----

  /** A finish can lift the reserve and offer work only to the judge that finished, which cannot take the rejudge held
      back beside another. */
  lemma FinishCounterexample<J>(a: J, b: J) returns (es: seq<Event<J>>, s: State<J>)
    requires a != b
    ensures Reached(es, s) && Settled(s) && Possible(s, Finishing(a, 1)) && !Settled(Next(s, Finishing(a, 1)))
  {
    hide Run, WellMarked, DistinctIds, OneWaiting, NoFit, NothingFor, NoRejudgeFor, Waiting;
    var first, held := Sub(1, "x"), Sub(2, "y");
    var one, two := Able("a", {"x"}, false), Able("b", {"y"}, false);
    Start<J>();
    MarkersFacts();
    var s0 := Initial<J>();
    Joins([], s0, a, one);
    var s1 := s0.(judges := s0.judges[a := one]);
    es := [] + [Registering(a, one)];
    NobodyWaits(s1, first);
    assert Available(s1.judges, first) == {a};
    Sent(es, s1, first, a);
    var s2 := Dispatch(s1, 1, a);
    es := es + [Judging(first, 1, Some(a))];
    assert Candidates(s2.judges, held) == {} && Available(s2.judges, held) == {};
    Waits(es, s2, held, 2);
    var s3 := s2.(queue := OneWaiting(2, held));
    es := es + [Judging(held, 2, None)];
    s := s3.(judges := s3.judges[b := two]);
    assert Enabled(s.judges) == {a, b} && FreeJudges(s.judges) == {b};
    OneWaitingFit(2, held, two, true);
    Joins(es, s3, b, two);
    es := es + [Registering(b, two)];
    OneWaitingFit(2, held, one, false);
    FinishBreaks(s, a, b, one, two, held);
  }

  lemma FinishBreaks<J>(s: State<J>, a: J, b: J, one: Info, two: Info, held: Submission)
    requires Owned(s) && Settled(s) && a != b && 1 in s.running
    requires s.judges == map[a := one.(working := Some(1)), b := two] && s.pending == {}
    requires one.working.None? && !one.disabled && Free(two) && s.queue == OneWaiting(2, held)
    requires !CanJudge(one, held) && CanJudge(two, held)
    ensures !Settled(Next(s, Finishing(a, 1)))
  {
    hide Owned, Settled, CanJudge, WellMarked, OneWaiting, NoRejudgeFor, Next, NoFit;
    OwnedMarked(s);
    var t := After(s, Finishing(a, 1));
    assert one.(working := None) == one && t.judges == map[a := one, b := two];
    assert FreeJudges(t.judges) == {a, b};
    OneWaitingFit(2, held, one, false);
    OneWaitingFit(2, held, two, false);
    QuietPick(t.queue, one, false);
    assert Resting(s, b);
    NextSettled(s, Finishing(a, 1));
  }

  // ---- offering late ----

  /** A judge found idle after a new problem list is sent a submission before it looks for work; then it is given a
      second one, and the first is running on no judge that knows of it. */
  lemma LateOffer<J>(j: J) returns (es: seq<Event<J>>, s: State<J>)
    ensures Reached(es, s) && Possible(s, Offering(j))
    ensures !Owned(Next(s, Offering(j)))
    ensures s.judges.Keys == {j} && s.judges[j].working == Some(1)
    ensures Next(s, Offering(j)).judges.Keys == {j} && Next(s, Offering(j)).judges[j].working == Some(2)
    ensures Next(s, Offering(j)).running == map[1 := j, 2 := j]
  {
    hide Run, WellMarked, DistinctIds, OneWaiting, NoFit, NothingFor, NoRejudgeFor, Waiting;
    var early, late := Sub(1, "a"), Sub(2, "b");
    var old', new' := Able("judge", {"a"}, false), Able("judge", {"a", "b"}, false);
    Start<J>();
    MarkersFacts();
    var s0 := Initial<J>();
    Joins([], s0, j, old');
    var s1 := s0.(judges := s0.judges[j := old']);
    es := [] + [Registering(j, old')];
    assert Candidates(s1.judges, late) == {} && Available(s1.judges, late) == {};
    Waits(es, s1, late, 1);
    var s2 := s1.(queue := OneWaiting(1, late));
    es := es + [Judging(late, 1, None)];
    Then(es, s2, NewProblems(j, {"a", "b"}));
    var s3 := SetProblems(s2, j, {"a", "b"});
    assert s3.judges == map[j := new'] && s3.pending == {j};
    es := es + [NewProblems(j, {"a", "b"})];
    assert Available(s3.judges, early) == {j};
    OneWaitingFacts(1, late);
    Sent(es, s3, early, j);
    s := Dispatch(s3, 1, j);
    es := es + [Judging(early, 1, Some(j))];
    LateBreaks(s, j, new', late);
  }

  lemma LateBreaks<J>(s: State<J>, j: J, info: Info, late: Submission)
    requires Owned(s) && late.id == 2 && s.queue == OneWaiting(1, late)
    requires s.judges == map[j := info.(working := Some(1))] && s.pending == {j} && s.running == map[1 := j]
    requires CanJudge(info, late)
    ensures !Owned(Next(s, Offering(j)))
    ensures Next(s, Offering(j)).judges.Keys == {j} && Next(s, Offering(j)).judges[j].working == Some(2)
    ensures Next(s, Offering(j)).running == map[1 := j, 2 := j]
  {
    hide Owned, CanJudge, WellMarked, OneWaiting, Pick, Waiting, Reserved;
    OwnedMarked(s);
    OneWaitingFacts(1, late);
    var busy := info.(working := Some(1));
    BusyCanStill(info, late, 1);
    assert Fits(s.queue, busy, Reserved(s.judges), 1);
    PickFirst(s.queue, busy, Reserved(s.judges));
    NextOwned(s, Offering(j));
  }

  // ---- names ----

  /** Two connected judges of the same name. */
  lemma Namesakes<J>(i: J, j: J) returns (es: seq<Event<J>>, s: State<J>)
    requires i != j
    ensures Reached(es, s) && !UniqueNames(s.judges)
  {
    hide Run, WellMarked, DistinctIds, NoFit, Owned, Reserved;
    var info := Able("judge", {}, false);
    Start<J>();
    MarkersFacts();
    var s0 := Initial<J>();
    Joins([], s0, i, info);
    var s1 := s0.(judges := s0.judges[i := info]);
    es := [] + [Registering(i, info)];
    Joins(es, s1, j, info);
    s := s1.(judges := s1.judges[j := info]);
    es := es + [Registering(j, info)];
    assert s.judges[i].name == s.judges[j].name;
  }
}
