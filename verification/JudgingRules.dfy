/** The rules of judge/bridge/judge_list.py in terms of judges, submissions and priorities alone: which judge may be
    given which submission (judge/bridge/judge_handler.py, `can_judge`), who is passed over and why, and in which
    order. */
module JudgingRules {
  import opened Prelude
  import opened JudgeQueue
  import opened Scheduler

  /** The judge has the problem and the language; a submission addressed to a judge is for that judge only, disabled
      or not; any other is for enabled judges. */
  predicate MayJudge(info: Info, sub: Submission) {
    && sub.problem in info.problems
    && sub.language in info.executors
    && (if sub.judgeId == None || sub.judgeId == Some("") then !info.disabled else info.name == sub.judgeId)
  }

  /** Every registered judge has a name, which is not empty. */
  predicate Named<J>(s: State<J>) {
    forall j :: j in s.judges ==> HasName(s.judges[j])
  }

  predicate HasName(info: Info) {
    info.name != None && info.name != Some("")
  }

  lemma CanIsMay(info: Info, sub: Submission)
    requires HasName(info)
    ensures CanJudge(info, sub) <==> MayJudge(info, sub)
  {}

  /** More than one judge is enabled and at most one of them is idle. */
  ghost predicate OneKeptBack<J>(judges: map<J, Info>) {
    && |set j | j in judges && !judges[j].disabled| > 1
    && |set j | j in judges && !judges[j].disabled && judges[j].working == None| <= 1
  }

  lemma ReservedIs<J>(judges: map<J, Info>)
    ensures Reserved(judges) <==> OneKeptBack(judges)
  {
    assert Enabled(judges) == set j | j in judges && !judges[j].disabled;
    assert FreeJudges(judges) == set j | j in judges && !judges[j].disabled && judges[j].working == None;
  }

  /** The waiting submission at position k is not for this judge, or is a rejudge while the last idle judge is kept
      back. */
  ghost predicate Barred<J>(s: State<J>, j: J, k: nat)
    requires j in s.judges && k < |s.queue| && s.queue[k].Item?
  {
    !MayJudge(s.judges[j], s.queue[k].sub) || (PrioAt(s.queue, k) >= 2 && OneKeptBack(s.judges))
  }

  lemma FitsIsNotBarred<J>(s: State<J>, j: J, k: nat)
    requires j in s.judges && HasName(s.judges[j]) && k < |s.queue| && s.queue[k].Item?
    ensures Fits(s.queue, s.judges[j], Reserved(s.judges), k) <==> !Barred(s, j, k)
  {
    hide CanJudge, MayJudge, PrioAt, Reserved, OneKeptBack;
    CanIsMay(s.judges[j], s.queue[k].sub);
    ReservedIs(s.judges);
  }

  /** A judge that is offered work is given the first waiting submission it is not barred from, and nothing exactly
      when it is barred from all. */
  lemma GivenFirst<J>(s: State<J>, j: J)
    requires WellMarked(s.queue) && Named(s) && j in s.judges
    ensures var t := HandleFree(s, j);
            || (t == s && forall k :: 0 <= k < |s.queue| && s.queue[k].Item? ==> Barred(s, j, k))
            || exists k: nat :: k < |s.queue| && s.queue[k].Item? && GivenAt(s, j, k, t)
  {
    hide CanJudge, MayJudge, PrioAt, Reserved, OneKeptBack, Pick, Barred, Fits, WellMarked;
    var r := Pick(s.queue, s.judges[j], Reserved(s.judges));
    PickFirst(s.queue, s.judges[j], Reserved(s.judges));
    forall k | 0 <= k < |s.queue| && s.queue[k].Item?
      ensures Fits(s.queue, s.judges[j], Reserved(s.judges), k) <==> !Barred(s, j, k)
    {
      FitsIsNotBarred(s, j, k);
    }
    if r.Some? { assert GivenAt(s, j, r.value, HandleFree(s, j)); }
  }

  /** t is s after the judge was given the submission at position k, the first it is not barred from. */
  ghost predicate GivenAt<J>(s: State<J>, j: J, k: nat, t: State<J>)
    requires j in s.judges && k < |s.queue| && s.queue[k].Item?
  {
    && !Barred(s, j, k)
    && (forall i :: 0 <= i < k && s.queue[i].Item? ==> Barred(s, j, i))
    && t.queue == s.queue[..k] + s.queue[k + 1..]
    && t.judges == s.judges[j := s.judges[j].(working := Some(s.queue[k].sub.id))]
    && t.running == s.running[s.queue[k].sub.id := j]
  }

  // ---- submitting ----

  /** The judge may be given the submission now. */
  predicate Ready<J>(judges: map<J, Info>, sub: Submission, j: J) {
    j in judges && MayJudge(judges[j], sub) && !judges[j].disabled && judges[j].working == None
  }

  /** A rejudge is held back: more than one judge may judge it, and exactly one of them is ready. */
  ghost predicate HeldBack<J>(judges: map<J, Info>, sub: Submission, priority: int) {
    && priority >= 2
    && |set j | j in judges && MayJudge(judges[j], sub)| > 1
    && |set j | j in judges && Ready(judges, sub, j)| == 1
  }

  lemma AvailableIsReady<J>(s: State<J>, sub: Submission)
    requires Named(s)
    ensures forall j :: j in s.judges ==> (j in Available(s.judges, sub) <==> Ready(s.judges, sub, j))
    ensures forall j :: j in s.judges ==> (j in Candidates(s.judges, sub) <==> MayJudge(s.judges[j], sub))
    ensures Available(s.judges, sub) <= Candidates(s.judges, sub) <= s.judges.Keys
  {
    hide CanJudge, MayJudge;
    forall j | j in s.judges { CanIsMay(s.judges[j], sub); }
  }

  lemma HeldBackIs<J>(s: State<J>, sub: Submission, priority: int)
    requires Named(s)
    ensures HeldBack(s.judges, sub, priority)
       <==> |Candidates(s.judges, sub)| > 1 && |Available(s.judges, sub)| == 1 && priority >= REJUDGE_PRIORITY
  {
    hide CanJudge, MayJudge, Candidates, Available, Ready;
    AvailableIsReady(s, sub);
    assert Candidates(s.judges, sub) == set j | j in s.judges && MayJudge(s.judges[j], sub);
    assert Available(s.judges, sub) == set j | j in s.judges && Ready(s.judges, sub, j);
  }

  /** A new submission goes to a ready judge of least load; if none is ready, or it is a rejudge held back, it joins
      the end of its priority's queue and no other queue changes. A known one changes nothing. */
  lemma SubmitRules<J>(s: State<J>, sub: Submission, priority: int, choice: Option<J>, p: int)
    requires WellMarked(s.queue) && Named(s) && Possible(s, Judging(sub, priority, choice))
    ensures var t := Submit(s, sub, priority, choice);
            if Known(s, sub.id) then t == s
            else if (forall j :: j in s.judges ==> !Ready(s.judges, sub, j)) || HeldBack(s.judges, sub, priority) then
              && choice == None && t.judges == s.judges && t.running == s.running
              && Queue(t.queue, p) == Queue(s.queue, p) + (if p == priority then [sub] else [])
            else
              && choice != None && Ready(s.judges, sub, choice.value)
              && (forall j :: j in s.judges && Ready(s.judges, sub, j) ==>
                    s.judges[choice.value].load <= s.judges[j].load)
              && t.queue == s.queue && t.running == s.running[sub.id := choice.value]
              && t.judges == s.judges[choice.value := s.judges[choice.value].(working := Some(sub.id))]
  {
    hide CanJudge, MayJudge, Candidates, Available, Ready, HeldBack, Known, WellMarked, Queue, InsertAt, MarkerPos;
    AvailableIsReady(s, sub);
    HeldBackIs(s, sub, priority);
    if !Known(s, sub.id) && choice.None? {
      MarkerThere(s.queue, priority);
      InsertQueue(s.queue, MarkerPos(s.queue, priority), priority, sub, p);
    }
  }

  // ---- starting ----

  /** id runs on j after the step and did not before. */
  predicate Starts<J>(s: State<J>, t: State<J>, id: SubId, j: J) {
    id in t.running && t.running[id] == j && (id !in s.running || s.running[id] != j)
  }

  /** A submission of this id, waiting or just sent, is one the judge may be given. */
  ghost predicate Rightly<J>(s: State<J>, e: Event<J>, id: SubId, info: Info) {
    exists sub: Submission ::
      sub.id == id && (Item(sub) in s.queue || (e.Judging? && e.sub == sub)) && MayJudge(info, sub)
  }

  lemma HandleFreeRightly<J>(s: State<J>, j: J, id: SubId, i: J)
    requires WellMarked(s.queue) && Named(s) && j in s.judges
    requires Starts(s, HandleFree(s, j), id, i)
    ensures i == j && exists sub: Submission :: sub.id == id && Item(sub) in s.queue && MayJudge(s.judges[j], sub)
  {
    hide CanJudge, MayJudge, PrioAt, OneKeptBack, WellMarked, Pick, RemoveAt, Reserved, HandleFree;
    GivenFirst(s, j);
    var k: nat :| k < |s.queue| && s.queue[k].Item? && GivenAt(s, j, k, HandleFree(s, j));
    assert Item(s.queue[k].sub) in s.queue;
  }

  /** The same judge, whatever it is working on. */
  predicate SameJudge(a: Info, b: Info) {
    a.name == b.name && a.problems == b.problems && a.executors == b.executors && a.disabled == b.disabled
  }

  lemma SameMay(a: Info, b: Info, sub: Submission)
    requires SameJudge(a, b)
    ensures MayJudge(a, sub) <==> MayJudge(b, sub)
  {}

  lemma HandleFreeSame<J>(s: State<J>, j: J)
    requires j in s.judges
    ensures HandleFree(s, j).judges.Keys == s.judges.Keys
    ensures forall i :: i in s.judges ==> SameJudge(s.judges[i], HandleFree(s, j).judges[i])
  {
    hide Pick, RemoveAt, Reserved;
  }

  /** A submission only ever starts on a judge that has its problem and language, and is enabled or, if the submission
      is addressed to a judge, is that judge. */
  lemma StartsRightly<J>(s: State<J>, e: Event<J>, id: SubId, j: J)
    requires WellMarked(s.queue) && Named(s) && Possible(s, e)
    requires Starts(s, Next(s, e), id, j)
    ensures j in Next(s, e).judges && Rightly(s, e, id, Next(s, e).judges[j])
  {
    hide CanJudge, MayJudge, PrioAt, WellMarked, Waiting, HandleFree, SameJudge, LegalChoice, Known, Rightly;
    match e
    case Judging(sub, priority, choice) =>
      SubmitStarts(s, sub, priority, choice, id, j);
    case Registering(k, info) => OfferedStarts(s, s.(judges := s.judges[k := info]), e, k, id, j);
    case Finishing(k, done) =>
      var u := s.(running := s.running - {done}, judges := s.judges[k := s.judges[k].(working := None)]);
      OfferedStarts(s, u, e, k, id, j);
    case Offering(k) => OfferedStarts(s, s.(pending := s.pending - {k}), e, k, id, j);
    case Removing(k) => RemovingStarts(s, e, k, id, j);
    case _ =>
  }

  lemma SubmitStarts<J>(s: State<J>, sub: Submission, priority: int, choice: Option<J>, id: SubId, j: J)
    requires WellMarked(s.queue) && Named(s) && Possible(s, Judging(sub, priority, choice))
    requires Starts(s, Submit(s, sub, priority, choice), id, j)
    ensures var t := Submit(s, sub, priority, choice);
            j in t.judges && Rightly(s, Judging(sub, priority, choice), id, t.judges[j])
  {
    hide MayJudge, PrioAt, WellMarked, HeldBack, Queue, Named, Possible, SameJudge;
    SubmitRules(s, sub, priority, choice, 0);
    SameMayWorking(s.judges[j], sub, sub.id);
  }

  lemma SameMayWorking(info: Info, sub: Submission, id: SubId)
    ensures MayJudge(info.(working := Some(id)), sub) <==> MayJudge(info, sub)
  {}

  /** The judge that is offered work in state u, with the queue of s. */
  lemma OfferedStarts<J>(s: State<J>, u: State<J>, e: Event<J>, k: J, id: SubId, j: J)
    requires WellMarked(s.queue) && u.queue == s.queue && k in u.judges
    requires Named(u)
    requires forall i :: i in u.running ==> i in s.running && s.running[i] == u.running[i]
    requires Starts(s, HandleFree(u, k), id, j)
    ensures j in HandleFree(u, k).judges && Rightly(s, e, id, HandleFree(u, k).judges[j])
  {
    hide MayJudge, HandleFree, WellMarked, Named, SameJudge;
    HandleFreeRightly(u, k, id, j);
    HandleFreeSame(u, k);
    var sub: Submission :| sub.id == id && Item(sub) in u.queue && MayJudge(u.judges[k], sub);
    SameMay(u.judges[k], HandleFree(u, k).judges[k], sub);
  }

  lemma RemovingStarts<J>(s: State<J>, e: Event<J>, k: J, id: SubId, j: J)
    requires WellMarked(s.queue) && Named(s)
    requires Starts(s, Remove(s, k), id, j)
    ensures j in Remove(s, k).judges && Rightly(s, e, id, Remove(s, k).judges[j])
  {
    hide MayJudge, HandleFree, WellMarked, SameJudge, HasName, Rightly;
    var u := Without(s, k);
    if |u.judges| == 1 {
      OnlyOne(u.judges.Keys);
      var last :| last in u.judges;
      assert Wake(u) == if Idle(u.judges[last]) then HandleFree(u, last) else u;
      OfferedStarts(s, u, e, last, id, j);
    }
  }

  /** t has no judge without a name, and the judges it shares with s have kept theirs. */
  predicate NamesKept<J>(s: State<J>, t: State<J>) {
    Named(t) && forall j :: j in s.judges && j in t.judges ==> t.judges[j].name == s.judges[j].name
  }

  /** Handing out work in a state u that follows s. */
  lemma HandleFreeNames<J>(s: State<J>, u: State<J>, j: J)
    requires NamesKept(s, u) && j in u.judges
    ensures NamesKept(s, HandleFree(u, j))
  {
    hide HandleFree;
    HandleFreeSame(u, j);
  }

  lemma SubmitNames<J>(s: State<J>, sub: Submission, priority: int, choice: Option<J>)
    requires WellMarked(s.queue) && 0 <= priority < PRIORITIES && Named(s)
    ensures NamesKept(s, Submit(s, sub, priority, choice))
  {
    hide Known, InsertAt, MarkerPos;
  }

  lemma RemoveNames<J>(s: State<J>, j: J)
    requires Named(s)
    ensures NamesKept(s, Remove(s, j))
  {
    hide HandleFree;
    var u := Without(s, j);
    if |u.judges| == 1 {
      OnlyOne(u.judges.Keys);
      forall i | i in u.judges { HandleFreeNames(s, u, i); }
    }
  }

  lemma NextNamed<J>(s: State<J>, e: Event<J>)
    requires WellMarked(s.queue) && Named(s) && Possible(s, e)
    ensures NamesKept(s, Next(s, e))
  {
    hide HandleFree, Submit, Abort, Remove, WellMarked, LegalChoice, Known;
    match e
    case Judging(sub, priority, choice) => SubmitNames(s, sub, priority, choice);
    case Registering(j, info) => HandleFreeNames(s, s.(judges := s.judges[j := info]), j);
    case Finishing(j, id) =>
      var u := s.(running := s.running - {id}, judges := s.judges[j := s.judges[j].(working := None)]);
      HandleFreeNames(s, u, j);
    case Offering(j) => HandleFreeNames(s, s.(pending := s.pending - {j}), j);
    case Aborting(id) => AbortJudges(s, id);
    case Removing(j) => RemoveNames(s, j);
    case _ =>
  }

  // ---- submissions sent by name ----

  /** Submission id waits only addressed to the judge of this name, and runs only there. */
  ghost predicate OnlyThere<J>(s: State<J>, id: SubId, name: string) {
    && (forall sub: Submission :: Item(sub) in s.queue && sub.id == id ==> sub.judgeId == Some(name))
    && (id in s.running ==> s.running[id] in s.judges && s.judges[s.running[id]].name == Some(name))
  }

  /** Whenever submission id is sent, it is addressed to the judge of this name. */
  ghost predicate Addressed<J>(es: seq<Event<J>>, id: SubId, name: string) {
    forall i :: 0 <= i < |es| && es[i].Judging? && es[i].sub.id == id ==> es[i].sub.judgeId == Some(name)
  }

  lemma KeptItems(q: seq<Entry>, k: nat, x: Entry)
    requires k < |q| && x in RemoveAt(q, k)
    ensures x in q
  {}

  lemma AddedItems(q: seq<Entry>, m: nat, y: Entry, x: Entry)
    requires m <= |q| && x in InsertAt(q, m, y)
    ensures x in q || x == y
  {}

  lemma HandleFreeItems<J>(s: State<J>, j: J, x: Entry)
    requires j in s.judges && x in HandleFree(s, j).queue
    ensures x in s.queue
  {
    hide Pick, Reserved, RemoveAt;
    var r := Pick(s.queue, s.judges[j], Reserved(s.judges));
    if r.Some? { KeptItems(s.queue, r.value, x); }
  }

  /** Nothing waits that did not wait before or was not just sent. */
  lemma NextItems<J>(s: State<J>, e: Event<J>, x: Entry)
    requires WellMarked(s.queue) && Possible(s, e) && x in Next(s, e).queue
    ensures x in s.queue || (e.Judging? && x == Item(e.sub))
  {
    hide HandleFree, PrioAt, WellMarked, Waiting, WaitPos, LegalChoice, CanJudge, Known, InsertAt, MarkerPos, RemoveAt;
    match e
    case Judging(sub, priority, choice) =>
      if !Known(s, sub.id) && !(choice.Some? && choice.value in s.judges) {
        MarkerThere(s.queue, priority);
        AddedItems(s.queue, MarkerPos(s.queue, priority), Item(sub), x);
      }
    case Registering(j, info) => HandleFreeItems(s.(judges := s.judges[j := info]), j, x);
    case Finishing(j, id) =>
      if id in s.running {
        var u := s.(running := s.running - {id}, judges := s.judges[j := s.judges[j].(working := None)]);
        HandleFreeItems(u, j, x);
      }
    case Offering(j) => HandleFreeItems(s.(pending := s.pending - {j}), j, x);
    case Removing(j) =>
      var u := Without(s, j);
      if |u.judges| == 1 {
        OnlyOne(u.judges.Keys);
        forall i | i in u.judges && x in HandleFree(u, i).queue { HandleFreeItems(u, i, x); }
      }
    case Aborting(id) =>
      if id !in s.running && Waiting(s.queue, id) {
        WaitPosItem(s.queue, id);
        KeptItems(s.queue, WaitPos(s.queue, id), x);
      }
    case _ =>
  }

  lemma NextOnlyThere<J>(s: State<J>, e: Event<J>, id: SubId, name: string)
    requires Owned(s) && Named(s) && Possible(s, e) && Timely(s, e) && name != ""
    requires OnlyThere(s, id, name) && Addressed([e], id, name)
    ensures OnlyThere(Next(s, e), id, name)
  {
    hide Next, Possible, WellMarked, DistinctIds, Waiting, Timely, MayJudge;
    NextOwned(s, e);
    NextNamed(s, e);
    var t := Next(s, e);
    assert e.Judging? && e.sub.id == id ==> e.sub.judgeId == Some(name) by { assert [e][0] == e; }
    forall sub: Submission | Item(sub) in t.queue && sub.id == id ensures sub.judgeId == Some(name) {
      NextItems(s, e, Item(sub));
    }
    if id in t.running {
      var j := t.running[id];
      if Starts(s, t, id, j) {
        StartsRightly(s, e, id, j);
        RightlyNamed(s, e, id, t.judges[j], name);
      }
    }
  }

  lemma RightlyNamed<J>(s: State<J>, e: Event<J>, id: SubId, info: Info, name: string)
    requires Rightly(s, e, id, info) && name != ""
    requires forall sub: Submission :: Item(sub) in s.queue && sub.id == id ==> sub.judgeId == Some(name)
    requires e.Judging? && e.sub.id == id ==> e.sub.judgeId == Some(name)
    ensures info.name == Some(name)
  {}

  /** Over any run in which it is always addressed to the judge of one name, a submission only ever runs on a judge of
      that name. */
  lemma {:induction false} RunOnlyThere<J>(s: State<J>, es: seq<Event<J>>, t: State<J>, id: SubId, name: string)
    requires Owned(s) && Named(s) && Run(s, es, t) && AllTimely(s, es) && name != ""
    requires OnlyThere(s, id, name) && Addressed(es, id, name)
    ensures OnlyThere(t, id, name)
    decreases |es|
  {
    hide Next, Possible, WellMarked, Timely, Named, OnlyThere;
    if es != [] {
      assert Addressed([es[0]], id, name) by { assert [es[0]][0] == es[0]; }
      assert Addressed(es[1..], id, name);
      NextOwned(s, es[0]);
      NextNamed(s, es[0]);
      NextOnlyThere(s, es[0], id, name);
      RunOnlyThere(Next(s, es[0]), es[1..], t, id, name);
    }
  }

  /** From the start. */
  lemma OnlyThereFromTheStart<J>(es: seq<Event<J>>, t: State<J>, id: SubId, name: string)
    requires WellMarked(Initial<J>().queue) && name != ""
    requires Run(Initial<J>(), es, t) && AllTimely(Initial<J>(), es) && Addressed(es, id, name)
    ensures id in t.running ==> t.running[id] in t.judges && t.judges[t.running[id]].name == Some(name)
  {
    hide Run, AllTimely, Owned, WellMarked, Addressed;
    InitialOwned<J>();
    RunOnlyThere(Initial<J>(), es, t, id, name);
  }
}
