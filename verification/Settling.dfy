/** When no waiting submission, rejudges included, stands beside a judge that could take it
    (judge/bridge/judge_list.py): exactly which steps keep it so. The queue is offered to one judge at a time, while
    the reserve for rejudges depends on all of them, so a step that lifts the reserve can strand a rejudge beside a
    judge nobody asks. */
module Settling {
  import opened Prelude
  import opened JudgeQueue
  import opened Scheduler
  import opened Draining

  /** The walk would find nothing for this judge. */
  ghost predicate NoFit(q: seq<Entry>, info: Info, reserved: bool) {
    forall k :: 0 <= k < |q| ==> !Fits(q, info, reserved, k)
  }

  /** No enabled idle judge could be given a waiting submission, unless it is about to look for work. */
  ghost predicate Settled<J>(s: State<J>) {
    forall j :: j in s.judges && Resting(s, j) ==> NoFit(s.queue, s.judges[j], Reserved(s.judges))
  }

  /** No waiting rejudge is for this judge. */
  predicate NoRejudgeFor(q: seq<Entry>, info: Info) {
    forall k :: 0 <= k < |q| && q[k].Item? && PrioAt(q, k) >= REJUDGE_PRIORITY ==> !CanJudge(info, q[k].sub)
  }

  /** No waiting rejudge is for an enabled idle judge. */
  ghost predicate NoRejudge<J>(s: State<J>) {
    forall j :: j in s.judges && Resting(s, j) ==> NoRejudgeFor(s.queue, s.judges[j])
  }

  lemma NoFitIs(q: seq<Entry>, info: Info, reserved: bool)
    ensures NoFit(q, info, reserved) <==> NothingFor(q, info) && (reserved || NoRejudgeFor(q, info))
  {
    hide CanJudge, PrioAt;
    if NoFit(q, info, reserved) {
      forall k | 0 <= k < |q| && q[k].Item? && (PrioAt(q, k) < REJUDGE_PRIORITY || !reserved)
        ensures !CanJudge(info, q[k].sub)
      {
        assert !Fits(q, info, reserved, k);
      }
    }
  }

  /** Settled is drained, with either the reserve on or no rejudge for anyone. */
  lemma SettledIs<J>(s: State<J>)
    ensures Settled(s) <==> Drained(s) && (Reserved(s.judges) || NoRejudge(s))
  {
    hide NoFit, NothingFor, NoRejudgeFor, Reserved;
    forall j | j in s.judges { NoFitIs(s.queue, s.judges[j], Reserved(s.judges)); }
  }

  lemma RemoveNoRejudge(q: seq<Entry>, k: nat, info: Info)
    requires k < |q| && q[k].Item? && NoRejudgeFor(q, info)
    ensures NoRejudgeFor(RemoveAt(q, k), info)
  {
    hide CanJudge;
    var r := RemoveAt(q, k);
    forall i | 0 <= i < |r| && r[i].Item? && PrioAt(r, i) >= REJUDGE_PRIORITY ensures !CanJudge(info, r[i].sub) {
      PrioRemove(q, k, i);
      if i == k { assert PrioAt(q, k + 1) == PrioAt(q, k); }
      assert r[i] == q[if i < k then i else i + 1];
    }
  }

  lemma InsertNoRejudge(q: seq<Entry>, m: nat, sub: Submission, info: Info)
    requires m <= |q| && NoRejudgeFor(q, info)
    ensures NoRejudgeFor(InsertAt(q, m, Item(sub)), info)
       <==> (PrioAt(q, m) >= REJUDGE_PRIORITY ==> !CanJudge(info, sub))
  {
    hide CanJudge;
    var r := InsertAt(q, m, Item(sub));
    PrioInsert(q, m, sub, m);
    assert r[m] == Item(sub);
    forall i | 0 <= i < |r| && i != m && r[i].Item? && PrioAt(r, i) >= REJUDGE_PRIORITY
      ensures !CanJudge(info, r[i].sub)
    {
      PrioInsert(q, m, sub, i);
      assert r[i] == q[if i < m then i else i - 1];
    }
  }

  /** The judge is handed something. */
  predicate Takes<J>(s: State<J>, j: J)
    requires j in s.judges
  {
    Pick(s.queue, s.judges[j], Reserved(s.judges)).Some?
  }

  /** No waiting rejudge is for an enabled idle judge other than j. */
  ghost predicate NoRejudgeBut<J>(s: State<J>, j: J) {
    forall i :: i in s.judges && i != j && Resting(s, i) ==> NoRejudgeFor(s.queue, s.judges[i])
  }

  /** Handing work to judge j when it alone may not be drained: j taking nothing leaves things settled exactly when the
      reserve is on or no other judge could have a rejudge. */
  lemma HandleFreeSettled<J>(s: State<J>, j: J)
    requires WellMarked(s.queue) && j in s.judges
    requires forall i :: i in s.judges && Resting(s, i) && i != j ==> NothingFor(s.queue, s.judges[i])
    ensures !Takes(s, j) ==> (Settled(HandleFree(s, j)) <==> Reserved(s.judges) || NoRejudgeBut(s, j))
    ensures Takes(s, j) && (Reserved(HandleFree(s, j).judges) || NoRejudgeBut(s, j)) ==> Settled(HandleFree(s, j))
  {
    hide Pick, Reserved, NothingFor, NoRejudgeFor, NoFit, RemoveAt, CanJudge;
    var t := HandleFree(s, j);
    HandleFreeDrained(s, j);
    SettledIs(t);
    if Takes(s, j) {
      var k := Pick(s.queue, s.judges[j], Reserved(s.judges)).value;
      if NoRejudgeBut(s, j) {
        forall i | i in t.judges && Resting(t, i) ensures NoRejudgeFor(t.queue, t.judges[i]) {
          RemoveNoRejudge(s.queue, k, s.judges[i]);
        }
      }
    } else {
      PickNoFit(s.queue, s.judges[j], Reserved(s.judges));
      NoFitIs(s.queue, s.judges[j], Reserved(s.judges));
    }
  }

  lemma PickNoFit(q: seq<Entry>, info: Info, reserved: bool)
    requires WellMarked(q) && Pick(q, info, reserved).None?
    ensures NoFit(q, info, reserved)
  {
    hide Pick, Fits;
    PickFirst(q, info, reserved);
  }

  lemma ReservedMore<J>(judges: map<J, Info>, more: map<J, Info>)
    requires Reserved(judges)
    requires Enabled(judges) <= Enabled(more) && FreeJudges(more) <= FreeJudges(judges)
    ensures Reserved(more)
  {
    SmallerSet(Enabled(judges), Enabled(more));
    SmallerSet(FreeJudges(more), FreeJudges(judges));
  }

  lemma SmallerSet<T>(a: set<T>, b: set<T>)
    requires a <= b
    ensures |a| <= |b|
  {
    assert b == a + (b - a);
  }

  // ---- each step ----

  /** The judges after a step that only registers, frees, disables or removes judges. */
  function After<J>(s: State<J>, e: Event<J>): State<J>
    requires Possible(s, e)
  {
    match e
    case Registering(j, info) => s.(judges := s.judges[j := info])
    case Finishing(j, id) => s.(running := s.running - {id}, judges := s.judges[j := s.judges[j].(working := None)])
    case Disabling(name, disabled) => SetDisabled(s, name, disabled)
    case Connected(j, disabled) => s.(judges := s.judges[j := s.judges[j].(disabled := disabled)])
    case Removing(j) => Without(s, j)
    case _ => s
  }

  /** The step turns on an idle judge that an urgent waiting submission is for. */
  ghost predicate EnablesForUrgent<J>(s: State<J>, e: Event<J>) {
    match e
    case Disabling(name, disabled) =>
      !disabled && exists j :: j in s.judges && s.judges[j].name == name && s.judges[j].disabled && Idle(s.judges[j])
                               && j !in s.pending && !NothingFor(s.queue, s.judges[j].(disabled := false))
    case Connected(j, disabled) =>
      !disabled && j in s.judges && s.judges[j].disabled && Idle(s.judges[j]) && j !in s.pending
      && !NothingFor(s.queue, s.judges[j].(disabled := false))
    case _ => false
  }

  /** What each kind of step needs in order to leave things settled. */
  ghost predicate KeepsSettled<J>(s: State<J>, e: Event<J>)
    requires Possible(s, e)
  {
    var t := After(s, e);
    match e
    // Queued although a judge is free: only the reserve may hold the submission back.
    case Judging(sub, _, choice) =>
      Known(s, sub.id) || choice.Some? || Available(s.judges, sub) <= s.pending || Reserved(s.judges)
    // The judge that is offered work takes some, or no rejudge waits for the others.
    case Registering(j, _) => Takes(t, j) || Reserved(t.judges) || NoRejudge(s)
    case Finishing(j, _) => Takes(t, j) || Reserved(t.judges) || NoRejudge(s)
    // Nobody is offered anything.
    case Disabling(_, _) => !EnablesForUrgent(s, e) && (Reserved(t.judges) || NoRejudge(t))
    case Connected(_, _) => !EnablesForUrgent(s, e) && (Reserved(t.judges) || NoRejudge(t))
    // Only the last judge is offered anything.
    case Removing(_) => |t.judges| == 1 || Reserved(t.judges) || NoRejudge(t)
    case _ => true
  }

  lemma JudgingSettled<J>(s: State<J>, sub: Submission, priority: int, choice: Option<J>)
    requires WellMarked(s.queue) && Settled(s) && Possible(s, Judging(sub, priority, choice))
    ensures Settled(Submit(s, sub, priority, choice)) <==> KeepsSettled(s, Judging(sub, priority, choice))
  {
    hide NoFit, NothingFor, NoRejudgeFor, Reserved, CanJudge, InsertAt, Known, MarkerPos, WellMarked;
    SettledIs(s);
    SubmitDrained(s, sub, priority, choice);
    var t := Submit(s, sub, priority, choice);
    SettledIs(t);
    if Known(s, sub.id) {
    } else if choice.Some? {
      ChosenResting(s, sub, priority, choice.value);
      if Reserved(s.judges) { ReservedMore(s.judges, t.judges); }
    } else {
      MarkerThere(s.queue, priority);
      var m := MarkerPos(s.queue, priority);
      MarkerPrio(s.queue, priority);
      if !Reserved(s.judges) {
        forall j | j in s.judges && Resting(s, j) { InsertNoRejudge(s.queue, m, sub, s.judges[j]); }
        NobodyUrgent(s, sub, priority);
      }
    }
  }

  lemma MarkerPrio(q: seq<Entry>, p: int)
    requires WellMarked(q) && Marker(p) in q
    ensures PrioAt(q, MarkerPos(q, p)) == p
  {
    assert q[MarkerPos(q, p)].Marker?;
  }

  /** A submission without a judge is a rejudge held back, or has no judge available. */
  lemma NobodyUrgent<J>(s: State<J>, sub: Submission, priority: int)
    requires LegalChoice(s, sub, priority, None)
    ensures Available(s.judges, sub) == {} || priority >= REJUDGE_PRIORITY
    ensures Available(s.judges, sub) <= s.pending
       <==> forall j :: j in s.judges && Resting(s, j) ==> !CanJudge(s.judges[j], sub)
  {
    hide CanJudge;
  }

  lemma ChosenResting<J>(s: State<J>, sub: Submission, priority: int, j: J)
    requires LegalChoice(s, sub, priority, Some(j))
    ensures j in s.judges && Free(s.judges[j])
    ensures var after := s.judges[j := s.judges[j].(working := Some(sub.id))];
            Enabled(s.judges) == Enabled(after) && FreeJudges(after) <= FreeJudges(s.judges)
  {
    hide CanJudge;
  }

  /** A judge that was not resting before is offered work: registering or finishing. */
  lemma OfferedSettled<J>(s: State<J>, t: State<J>, j: J)
    requires WellMarked(s.queue) && Settled(s) && !Resting(s, j)
    requires j in t.judges && t.queue == s.queue && t.pending == s.pending
    requires t.judges.Keys == s.judges.Keys + {j} && forall i :: i in s.judges && i != j ==> t.judges[i] == s.judges[i]
    requires j in s.judges ==> !Idle(s.judges[j]) && t.judges[j].disabled == s.judges[j].disabled
    ensures Settled(HandleFree(t, j)) <==> Takes(t, j) || Reserved(t.judges) || NoRejudge(s)
  {
    hide NoFit, NothingFor, NoRejudgeFor, Reserved, Pick, RemoveAt, WellMarked;
    SettledIs(s);
    assert forall i :: i in t.judges && i != j ==> (Resting(t, i) <==> Resting(s, i));
    assert NoRejudgeBut(t, j) <==> NoRejudge(s);
    HandleFreeSettled(t, j);
    if Takes(t, j) && Reserved(s.judges) {
      ReservedMore(s.judges, HandleFree(t, j).judges);
    }
  }

  /** A judge that looks for work after a new problem list. */
  lemma OfferingSettled<J>(s: State<J>, j: J)
    requires WellMarked(s.queue) && Settled(s) && j in s.judges && j in s.pending
    ensures Settled(Offer(s, j))
  {
    hide NoFit, NothingFor, NoRejudgeFor, Reserved, Pick, RemoveAt, WellMarked;
    SettledIs(s);
    var t := s.(pending := s.pending - {j});
    assert forall i :: i in t.judges && i != j ==> (Resting(t, i) <==> Resting(s, i));
    HandleFreeSettled(t, j);
    if Takes(t, j) && Reserved(s.judges) { ReservedMore(s.judges, HandleFree(t, j).judges); }
  }

  lemma AbortingSettled<J>(s: State<J>, id: SubId)
    requires Settled(s)
    ensures Settled(Abort(s, id))
  {
    hide NoFit, NothingFor, NoRejudgeFor, Reserved, RemoveAt, Waiting, WaitPos;
    SettledIs(s);
    AbortDrained(s, id);
    SettledIs(Abort(s, id));
    if id !in s.running && Waiting(s.queue, id) {
      WaitPosItem(s.queue, id);
      if NoRejudge(s) {
        forall j | j in s.judges && Resting(s, j) { RemoveNoRejudge(s.queue, WaitPos(s.queue, id), s.judges[j]); }
      }
    }
  }

  lemma RemovingSettled<J>(s: State<J>, j: J)
    requires WellMarked(s.queue) && Settled(s)
    ensures var t := Without(s, j);
            Settled(Remove(s, j)) <==> |t.judges| == 1 || Reserved(t.judges) || NoRejudge(t)
  {
    hide NoFit, NothingFor, NoRejudgeFor, Reserved, HandleFree, WellMarked;
    SettledIs(s);
    var t := Without(s, j);
    assert t.queue == s.queue && forall i :: i in t.judges && Resting(t, i) ==> Resting(s, i);
    assert Drained(t);
    SettledIs(t);
    if |t.judges| == 1 { LastSettled(t); }
  }

  lemma LastSettled<J>(t: State<J>)
    requires WellMarked(t.queue) && Drained(t) && |t.judges| == 1
    ensures Settled(Wake(t))
  {
    hide NoFit, NothingFor, NoRejudgeFor, Reserved, HandleFree, WellMarked;
    OnlyOne(t.judges.Keys);
    forall i | i in t.judges && Idle(t.judges[i]) ensures Settled(HandleFree(t, i)) { HandleFreeSettled(t, i); }
  }

  lemma TogglingSettled<J>(s: State<J>, e: Event<J>)
    requires Settled(s) && Possible(s, e) && (e.Disabling? || e.Connected?)
    requires WellMarked(s.queue)
    ensures Settled(Next(s, e)) <==> KeepsSettled(s, e)
  {
    hide NoFit, NothingFor, NoRejudgeFor, Reserved, WellMarked;
    SettledIs(s);
    var t := Next(s, e);
    SettledIs(t);
    assert t == After(s, e);
    assert Drained(t) <==> !EnablesForUrgent(s, e) by { TogglingDrained(s, e); }
  }

  lemma TogglingDrained<J>(s: State<J>, e: Event<J>)
    requires Drained(s) && Possible(s, e) && (e.Disabling? || e.Connected?)
    ensures Drained(After(s, e)) <==> !EnablesForUrgent(s, e)
  {
    hide NothingFor;
    var t := After(s, e);
    forall j | j in t.judges && Resting(t, j) && !EnablesForUrgent(s, e) ensures NothingFor(t.queue, t.judges[j]) {
      if !Resting(s, j) { assert t.judges[j] == s.judges[j].(disabled := false); }
    }
    if e.Disabling? && !e.disabled { EnablingDrained(s, e.name); }
    if e.Connected? && EnablesForUrgent(s, e) {
      assert Resting(t, e.j) && t.judges[e.j] == s.judges[e.j].(disabled := false);
    }
  }

  lemma OfferedStepSettled<J>(s: State<J>, e: Event<J>)
    requires Owned(s) && Settled(s) && Possible(s, e) && (e.Registering? || e.Finishing?)
    ensures Settled(Next(s, e)) <==> KeepsSettled(s, e)
  {
    hide NoFit, NothingFor, NoRejudgeFor, Reserved, HandleFree, WellMarked, Takes, DistinctIds, Waiting, NoRejudge,
         Newcomer, Settled;
    OfferedSettled(s, After(s, e), e.j);
  }

  lemma QuietStepSettled<J>(s: State<J>, e: Event<J>)
    requires Owned(s) && Settled(s) && Possible(s, e)
    requires e.Offering? || e.Aborting? || e.NewProblems? || e.Skipping? || e.Reporting?
    ensures Settled(Next(s, e)) && KeepsSettled(s, e)
  {
    hide NoFit, NothingFor, NoRejudgeFor, Reserved, HandleFree, Abort, WellMarked, DistinctIds, Waiting;
    match e
    case Offering(j) => OfferingSettled(s, j);
    case Aborting(id) => AbortingSettled(s, id);
    case NewProblems(j, problems) => NewProblemsSettled(s, j, problems);
    case Skipping(j) =>
      assert forall i :: i in s.judges ==> (Resting(Skip(s, j), i) <==> Resting(s, i));
    case Reporting(j, load) => ReportingSettled(s, j, load);
  }

  /** For every kind of step, exactly when it keeps waiting submissions away from judges that could take them. */
  lemma NextSettled<J>(s: State<J>, e: Event<J>)
    requires Owned(s) && Settled(s) && Possible(s, e)
    ensures Settled(Next(s, e)) <==> KeepsSettled(s, e)
  {
    hide Settled, Reserved, Submit, Remove, WellMarked, NoRejudge, DistinctIds, Waiting, Known, EnablesForUrgent, Takes;
    match e
    case Judging(sub, priority, choice) => JudgingSettled(s, sub, priority, choice);
    case Registering(_, _) => OfferedStepSettled(s, e);
    case Finishing(_, _) => OfferedStepSettled(s, e);
    case Disabling(_, _) => TogglingSettled(s, e);
    case Connected(_, _) => TogglingSettled(s, e);
    case Removing(j) => RemovingSettled(s, j);
    case _ => QuietStepSettled(s, e);
  }

  lemma NewProblemsSettled<J>(s: State<J>, j: J, problems: set<string>)
    requires Settled(s) && j in s.judges
    ensures Settled(SetProblems(s, j, problems))
  {
    hide NoFit;
    var t := SetProblems(s, j, problems);
    assert Enabled(t.judges) == Enabled(s.judges) && FreeJudges(t.judges) == FreeJudges(s.judges);
    forall i | i in t.judges && Resting(t, i) ensures NoFit(t.queue, t.judges[i], Reserved(t.judges)) {
      assert i != j && Resting(s, i);
    }
  }

  lemma ReportingSettled<J>(s: State<J>, j: J, load: real)
    requires Settled(s) && j in s.judges
    ensures Settled(s.(judges := s.judges[j := s.judges[j].(load := load)]))
  {
    hide PrioAt;
    var t := s.(judges := s.judges[j := s.judges[j].(load := load)]);
    assert Enabled(t.judges) == Enabled(s.judges) && FreeJudges(t.judges) == FreeJudges(s.judges);
    forall i | i in t.judges && Resting(t, i) ensures NoFit(t.queue, t.judges[i], Reserved(t.judges)) {
      assert Resting(s, i);
      forall k | 0 <= k < |t.queue| ensures !Fits(t.queue, t.judges[i], Reserved(t.judges), k) {
        assert !Fits(s.queue, s.judges[i], Reserved(s.judges), k);
      }
    }
  }
}
