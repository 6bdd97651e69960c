/** What the scheduler leaves waiting (judge/bridge/judge_list.py): urgent submissions never wait for a free judge,
    and rejudges never take the last free judge. */
module Draining {
  import opened Prelude
  import opened JudgeQueue
  import opened Scheduler

  /** This judge can take no waiting submission more urgent than a rejudge. */
  predicate NothingFor(q: seq<Entry>, info: Info) {
    forall k :: 0 <= k < |q| && q[k].Item? && PrioAt(q, k) < REJUDGE_PRIORITY ==> !CanJudge(info, q[k].sub)
  }

  /** An enabled idle judge that is not about to look for work. */
  predicate Resting<J>(s: State<J>, j: J) {
    j in s.judges && Free(s.judges[j]) && j !in s.pending
  }

  /** No enabled idle judge could take a waiting submission more urgent than a rejudge, unless it is about to look for
      work. */
  ghost predicate Drained<J>(s: State<J>) {
    forall j :: j in s.judges && Resting(s, j) ==> NothingFor(s.queue, s.judges[j])
  }

  lemma RemoveNothing(q: seq<Entry>, k: nat, info: Info)
    requires k < |q| && q[k].Item? && NothingFor(q, info)
    ensures NothingFor(RemoveAt(q, k), info)
  {
    hide CanJudge;
    var r := RemoveAt(q, k);
    forall i | 0 <= i < |r| && r[i].Item? && PrioAt(r, i) < REJUDGE_PRIORITY ensures !CanJudge(info, r[i].sub) {
      PrioRemove(q, k, i);
      if i == k { assert PrioAt(q, k + 1) == PrioAt(q, k); }
      assert r[i] == q[if i < k then i else i + 1];
    }
  }

  lemma InsertNothing(q: seq<Entry>, m: nat, sub: Submission, info: Info)
    requires m <= |q| && NothingFor(q, info)
    requires PrioAt(q, m) < REJUDGE_PRIORITY ==> !CanJudge(info, sub)
    ensures NothingFor(InsertAt(q, m, Item(sub)), info)
  {
    hide CanJudge;
    var r := InsertAt(q, m, Item(sub));
    forall i | 0 <= i < |r| && r[i].Item? && PrioAt(r, i) < REJUDGE_PRIORITY ensures !CanJudge(info, r[i].sub) {
      PrioInsert(q, m, sub, i);
      if i != m { assert r[i] == q[if i < m then i else i - 1]; }
    }
  }

  /** Giving judge j work restores the property when only j stood in its way. */
  lemma HandleFreeDrained<J>(s: State<J>, j: J)
    requires WellMarked(s.queue) && j in s.judges
    requires forall i :: i in s.judges && Resting(s, i) && i != j ==> NothingFor(s.queue, s.judges[i])
    ensures Drained(HandleFree(s, j))
  {
    hide CanJudge, NothingFor, Pick, RemoveAt, Reserved;
    var r := Pick(s.queue, s.judges[j], Reserved(s.judges));
    if r.None? {
      PickNothing(s.queue, s.judges[j], Reserved(s.judges));
    } else {
      forall i | i in s.judges && Resting(s, i) && i != j { RemoveNothing(s.queue, r.value, s.judges[i]); }
    }
  }

  lemma PickNothing(q: seq<Entry>, info: Info, reserved: bool)
    requires WellMarked(q) && Pick(q, info, reserved).None?
    ensures NothingFor(q, info)
  {
    hide CanJudge, Pick;
    PickFirst(q, info, reserved);
    forall k | 0 <= k < |q| && q[k].Item? && PrioAt(q, k) < REJUDGE_PRIORITY ensures !CanJudge(info, q[k].sub) {
      assert !Fits(q, info, reserved, k);
    }
  }

  lemma SubmitDrained<J>(s: State<J>, sub: Submission, priority: int, choice: Option<J>)
    requires WellMarked(s.queue) && Drained(s) && 0 <= priority < PRIORITIES
    requires !Known(s, sub.id) ==> LegalChoice(s, sub, priority, choice)
    ensures Drained(Submit(s, sub, priority, choice))
  {
    hide CanJudge, NothingFor, InsertAt, Known;
    if !Known(s, sub.id) && !(choice.Some? && choice.value in s.judges) {
      MarkerThere(s.queue, priority);
      var m := MarkerPos(s.queue, priority);
      assert PrioAt(s.queue, m) == priority;
      forall i | i in s.judges && Resting(s, i) ensures NothingFor(InsertAt(s.queue, m, Item(sub)), s.judges[i]) {
        assert priority < REJUDGE_PRIORITY ==> i !in Available(s.judges, sub);
        InsertNothing(s.queue, m, sub, s.judges[i]);
      }
    }
  }

  lemma WakeDrained<J>(s: State<J>)
    requires WellMarked(s.queue) && Drained(s)
    ensures Drained(Wake(s))
  {
    hide HandleFree, NothingFor;
    if |s.judges| == 1 {
      OnlyOne(s.judges.Keys);
      forall j | j in s.judges { HandleFreeDrained(s, j); }
    }
  }

  lemma AbortDrained<J>(s: State<J>, id: SubId)
    requires Drained(s)
    ensures Drained(Abort(s, id))
  {
    hide NothingFor, RemoveAt, Waiting, WaitPos;
    if id !in s.running && Waiting(s.queue, id) {
      WaitPosItem(s.queue, id);
      forall j | j in s.judges && Resting(s, j) { RemoveNothing(s.queue, WaitPos(s.queue, id), s.judges[j]); }
    }
  }

  /** The event turns a disabled judge back on. */
  predicate Enables<J>(s: State<J>, e: Event<J>) {
    match e
    case Disabling(name, disabled) =>
      !disabled && exists j :: j in s.judges && s.judges[j].name == name && s.judges[j].disabled
    case Connected(j, disabled) => !disabled && j in s.judges && s.judges[j].disabled
    case _ => false
  }

  /** Every step but re-enabling a judge keeps urgent submissions from waiting for a free judge. */
  lemma NextDrained<J>(s: State<J>, e: Event<J>)
    requires WellMarked(s.queue) && Possible(s, e) && Drained(s)
    requires !Enables(s, e)
    ensures Drained(Next(s, e))
  {
    hide CanJudge, HandleFree, Submit, Abort, Wake, LegalChoice, WellMarked;
    match e
    case Judging(sub, priority, choice) => SubmitDrained(s, sub, priority, choice);
    case Registering(j, info) => HandleFreeDrained(s.(judges := s.judges[j := info]), j);
    case Finishing(j, id) =>
      if id in s.running {
        HandleFreeDrained(s.(running := s.running - {id}, judges := s.judges[j := s.judges[j].(working := None)]), j);
      }
    case Offering(j) => HandleFreeDrained(s.(pending := s.pending - {j}), j);
    case Disabling(name, disabled) => DisablingDrained(s, name, disabled);
    case Connected(j, disabled) =>
      if !disabled { assert s.judges[j].(disabled := disabled) == s.judges[j]; }
    case Reporting(j, load) => LoadIrrelevant(s.queue, s.judges[j], load);
    case Aborting(id) => AbortDrained(s, id);
    case Removing(j) =>
      assert forall i :: i in Without(s, j).judges && Resting(Without(s, j), i) ==> Resting(s, i);
      WakeDrained(Without(s, j));
    case _ =>
  }

  lemma LoadIrrelevant(q: seq<Entry>, info: Info, load: real)
    ensures NothingFor(q, info.(load := load)) == NothingFor(q, info)
  {
    hide PrioAt;
    forall sub ensures CanJudge(info.(load := load), sub) == CanJudge(info, sub) {}
  }

  lemma DisablingDrained<J>(s: State<J>, name: Option<string>, disabled: bool)
    requires Drained(s) && !Enables(s, Disabling(name, disabled))
    ensures Drained(SetDisabled(s, name, disabled))
  {
    hide NothingFor;
    var t := SetDisabled(s, name, disabled);
    forall j | j in t.judges && Resting(t, j) ensures NothingFor(t.queue, t.judges[j]) {
      assert t.judges[j] == s.judges[j];
    }
  }

  /** Re-enabling the judges of a name keeps the property exactly when no idle disabled judge of that name could, once
      enabled, take an urgent waiting submission: nothing is dispatched at that point. */
  lemma EnablingDrained<J>(s: State<J>, name: Option<string>)
    requires Drained(s)
    ensures Drained(SetDisabled(s, name, false)) <==>
      forall j :: j in s.judges && s.judges[j].name == name && s.judges[j].disabled && Idle(s.judges[j])
                  && j !in s.pending ==>
        NothingFor(s.queue, s.judges[j].(disabled := false))
  {
    hide NothingFor;
    var t := SetDisabled(s, name, false);
    forall j | j in s.judges
      ensures t.judges[j] == if s.judges[j].name == name then s.judges[j].(disabled := false) else s.judges[j] {}
    forall j | j in s.judges && s.judges[j].name == name && !s.judges[j].disabled
      ensures t.judges[j] == s.judges[j] {}
  }

  ghost predicate NeverEnables<J>(s: State<J>, es: seq<Event<J>>)
    requires WellMarked(s.queue)
    decreases |es|
  {
    es == [] || (Possible(s, es[0]) && !Enables(s, es[0])
                 && WellMarked(Next(s, es[0]).queue) && NeverEnables(Next(s, es[0]), es[1..]))
  }

  /** In a run that never re-enables a judge, urgent submissions never wait for a free judge. */
  lemma {:induction false} RunDrained<J>(s: State<J>, es: seq<Event<J>>, t: State<J>)
    requires WellMarked(s.queue) && Run(s, es, t) && NeverEnables(s, es) && Drained(s)
    ensures Drained(t)
    decreases |es|
  {
    hide Next, Possible, WellMarked, Drained, Enables;
    if es != [] {
      NextDrained(s, es[0]);
      RunDrained(Next(s, es[0]), es[1..], t);
    }
  }

  /** From the empty scheduler on, without re-enabling, ownership holds and urgent submissions never wait for a free
      judge. */
  lemma FromTheStart<J>(es: seq<Event<J>>, t: State<J>)
    requires WellMarked(Initial<J>().queue)
    requires Run(Initial<J>(), es, t) && NeverEnables(Initial<J>(), es) && AllTimely(Initial<J>(), es)
    ensures Owned(t) && Drained(t)
  {
    hide Run, NeverEnables, AllTimely, Owned, WellMarked;
    InitialOwned<J>();
    RunOwned(Initial<J>(), es, t);
    RunDrained(Initial<J>(), es, t);
  }

  // ---- the reserve for rejudges ----

  lemma FreeAfter<J>(judges: map<J, Info>, j: J, info: Info)
    requires j in judges && info.working.Some?
    ensures FreeJudges(judges[j := info]) == FreeJudges(judges) - {j}
  {}

  /** A queued rejudge is dispatched only if, with several judges enabled, a free one remains. */
  lemma QueuedReserve<J>(s: State<J>, j: J)
    requires WellMarked(s.queue) && j in s.judges
    requires Pick(s.queue, s.judges[j], Reserved(s.judges)).Some?
    requires PrioAt(s.queue, Pick(s.queue, s.judges[j], Reserved(s.judges)).value) >= REJUDGE_PRIORITY
    ensures |Enabled(HandleFree(s, j).judges)| > 1 ==> |FreeJudges(HandleFree(s, j).judges)| >= 1
  {
    hide Pick, PrioAt, RemoveAt, CanJudge;
    PickFirst(s.queue, s.judges[j], Reserved(s.judges));
    var k := Pick(s.queue, s.judges[j], Reserved(s.judges)).value;
    var info := s.judges[j].(working := Some(s.queue[k].sub.id));
    FreeAfter(s.judges, j, info);
    assert Enabled(s.judges[j := info]) == Enabled(s.judges);
    assert !Reserved(s.judges);
    if |Enabled(s.judges)| > 1 {
      assert |FreeJudges(s.judges)| >= 2;
      assert FreeJudges(s.judges) <= (FreeJudges(s.judges) - {j}) + {j};
    }
  }

  /** A rejudge sent straight to a judge leaves another candidate free, if it had several candidates. */
  lemma DirectReserve<J>(s: State<J>, sub: Submission, priority: int, j: J)
    requires WellMarked(s.queue) && priority >= REJUDGE_PRIORITY && priority < PRIORITIES
    requires !Known(s, sub.id) && LegalChoice(s, sub, priority, Some(j))
    ensures j in s.judges
    ensures |Candidates(s.judges, sub)| > 1 ==> |Available(Submit(s, sub, priority, Some(j)).judges, sub)| >= 1
  {
    hide CanJudge, Known, WellMarked;
    var a := Available(s.judges, sub);
    var info := s.judges[j].(working := Some(sub.id));
    BusyCanStill(s.judges[j], sub, sub.id);
    assert Available(s.judges[j := info], sub) == a - {j};
    if |Candidates(s.judges, sub)| > 1 {
      assert j in a && |a| != 1;
      assert |a - {j}| == |a| - 1;
    }
  }

  lemma BusyCanStill(info: Info, sub: Submission, id: SubId)
    ensures CanJudge(info.(working := Some(id)), sub) == CanJudge(info, sub)
  {}

  // ---- the last judge ----

  /** When a removal leaves one judge, that judge is put to work on rejudges as well: if it is idle afterwards, nothing
      waiting is for it. */
  lemma LastJudgeDrained<J>(s: State<J>, j: J, k: nat)
    requires WellMarked(s.queue) && |Remove(s, j).judges| == 1 && k < |Remove(s, j).queue|
    ensures var t := Remove(s, j);
            t.queue[k].Item? ==>
              forall i :: i in t.judges && Idle(t.judges[i]) ==> !CanJudge(t.judges[i], t.queue[k].sub)
  {
    hide CanJudge, Pick, RemoveAt, Fits;
    var u := Without(s, j);
    if |u.judges| == 1 {
      OnlyOne(u.judges.Keys);
      var i :| i in u.judges;
      assert Wake(u) == if Idle(u.judges[i]) then HandleFree(u, i) else u;
      EnabledOne(u.judges);
      if Pick(u.queue, u.judges[i], false).None? { PickAll(u.queue, u.judges[i]); }
    }
  }

  lemma EnabledOne<J>(judges: map<J, Info>)
    requires |judges| == 1
    ensures !Reserved(judges)
  {
    OnlyOne(judges.Keys);
    var i :| i in judges;
    assert judges.Keys == {i};
    assert Enabled(judges) <= {i};
    if Enabled(judges) != {i} { assert Enabled(judges) == {}; }
  }

  lemma PickAll(q: seq<Entry>, info: Info)
    requires WellMarked(q) && Pick(q, info, false).None?
    ensures forall k :: 0 <= k < |q| && q[k].Item? ==> !CanJudge(info, q[k].sub)
  {
    PickFirst(q, info, false);
    forall k | 0 <= k < |q| && q[k].Item? ensures !CanJudge(info, q[k].sub) {
      assert !Fits(q, info, false, k);
    }
  }
}
