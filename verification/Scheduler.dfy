/** The judge scheduler as a state machine (judge/bridge/judge_list.py, `JudgeList`, with `_working` of
    judge/bridge/judge_handler.py). All methods run under one lock, so each is one step; what a judge's handler does
    with a new problem list outside the lock is steps of its own. */
module Scheduler {
  import opened Prelude
  import opened JudgeQueue

  /** The waiting list, the registered judges, the map from running submissions to judges, and the judges whose handler
      has received a new problem list while idle and not yet looked for work. */
  datatype State<!J> = State(queue: seq<Entry>, judges: map<J, Info>, running: map<SubId, J>, pending: set<J>)

  predicate Idle(i: Info) { i.working.None? }

  predicate Free(i: Info) { Idle(i) && !i.disabled }

  function Enabled<J>(judges: map<J, Info>): set<J> { set j | j in judges && !judges[j].disabled }

  function FreeJudges<J>(judges: map<J, Info>): set<J> { set j | j in judges && Free(judges[j]) }

  /** A judge is being kept back for more urgent submissions. */
  predicate Reserved<J>(judges: map<J, Info>) {
    |Enabled(judges)| > 1 && |FreeJudges(judges)| <= 1
  }

  predicate WaitsAt(q: seq<Entry>, k: nat, id: SubId) {
    k < |q| && q[k].Item? && q[k].sub.id == id
  }

  predicate Waiting(q: seq<Entry>, id: SubId) {
    exists k: nat :: k < |q| && WaitsAt(q, k, id)
  }

  // ---- the steps ----

  function Dispatch<J>(s: State<J>, id: SubId, j: J): State<J>
    requires j in s.judges
  {
    s.(judges := s.judges[j := s.judges[j].(working := Some(id))], running := s.running[id := j])
  }

  /** `_handle_free_judge`. */
  function HandleFree<J>(s: State<J>, j: J): State<J>
    requires j in s.judges
  {
    var r := Pick(s.queue, s.judges[j], Reserved(s.judges));
    if r.None? then s
    else Dispatch(s, s.queue[r.value].sub.id, j).(queue := RemoveAt(s.queue, r.value))
  }

  function Candidates<J>(judges: map<J, Info>, sub: Submission): set<J> {
    set j | j in judges && CanJudge(judges[j], sub)
  }

  function Available<J>(judges: map<J, Info>, sub: Submission): set<J> {
    set j | j in judges && CanJudge(judges[j], sub) && Free(judges[j])
  }

  /** The judges `judge` may choose from. */
  function Choices<J>(judges: map<J, Info>, sub: Submission, priority: int): set<J> {
    if |Candidates(judges, sub)| > 1 && |Available(judges, sub)| == 1 && priority >= REJUDGE_PRIORITY then {}
    else Available(judges, sub)
  }

  predicate LeastLoaded<J>(judges: map<J, Info>, js: set<J>, j: J)
    requires js <= judges.Keys
  {
    j in js && forall k :: k in js ==> judges[j].load <= judges[k].load
  }

  function MarkerPos(q: seq<Entry>, p: int): (m: nat)
    requires Marker(p) in q
    ensures m < |q| && q[m] == Marker(p)
  {
    if q[0] == Marker(p) then 0 else 1 + MarkerPos(q[1..], p)
  }

  function Enqueue<J>(s: State<J>, sub: Submission, priority: int): State<J>
    requires Marker(priority) in s.queue
  {
    s.(queue := InsertAt(s.queue, MarkerPos(s.queue, priority), Item(sub)))
  }

  predicate Known<J>(s: State<J>, id: SubId) {
    id in s.running || Waiting(s.queue, id)
  }

  /** `judge`, where `choice` is the judge that the load comparison settles on. */
  function Submit<J>(s: State<J>, sub: Submission, priority: int, choice: Option<J>): State<J>
    requires WellMarked(s.queue) && 0 <= priority < PRIORITIES
  {
    if Known(s, sub.id) then s
    else if choice.Some? && choice.value in s.judges then Dispatch(s, sub.id, choice.value)
    else Enqueue(s, sub, priority)
  }

  predicate LegalChoice<J>(s: State<J>, sub: Submission, priority: int, choice: Option<J>) {
    var cs := Choices(s.judges, sub, priority);
    if cs == {} then choice.None? else choice.Some? && LeastLoaded(s.judges, cs, choice.value)
  }

  /** `on_judge_free`; None when the submission is not running, which the code meets with a KeyError. */
  function Finish<J>(s: State<J>, j: J, id: SubId): Option<State<J>>
    requires j in s.judges
  {
    if id !in s.running then None
    else Some(HandleFree(s.(running := s.running - {id}, judges := s.judges[j := s.judges[j].(working := None)]), j))
  }

  function Register<J>(s: State<J>, j: J, info: Info): State<J> {
    HandleFree(s.(judges := s.judges[j := info]), j)
  }

  /** `on_supported_problems` up to its test of `working`: the new list is in force at once. */
  function SetProblems<J>(s: State<J>, j: J, problems: set<string>): State<J>
    requires j in s.judges
  {
    s.(judges := s.judges[j := s.judges[j].(problems := problems)],
       pending := if Idle(s.judges[j]) then s.pending + {j} else s.pending)
  }

  /** `update_problems`: the test, made without the lock, found the judge idle; by now it may be busy. */
  function Offer<J>(s: State<J>, j: J): State<J>
    requires j in s.judges
  {
    HandleFree(s.(pending := s.pending - {j}), j)
  }

  /** The test found that the judge has become busy. */
  function Skip<J>(s: State<J>, j: J): State<J> {
    s.(pending := s.pending - {j})
  }

  function SetDisabled<J>(s: State<J>, name: Option<string>, disabled: bool): State<J> {
    s.(judges := map j | j in s.judges ::
                   if s.judges[j].name == name then s.judges[j].(disabled := disabled) else s.judges[j])
  }

  /** The judge is gone, and with it the submission it works on. */
  function Without<J>(s: State<J>, j: J): State<J> {
    if j !in s.judges then s
    else
      var sub := s.judges[j].working;
      var running := if sub.Some? then s.running - {sub.value} else s.running;
      State(s.queue, s.judges - {j}, running, s.pending - {j})
  }

  function Remove<J>(s: State<J>, j: J): State<J> {
    Wake(Without(s, j))
  }

  /** If exactly one judge is left and it is idle, it is given work. */
  function Wake<J>(s: State<J>): State<J> {
    if |s.judges| == 1 then
      OnlyOne(s.judges.Keys);
      var j :| j in s.judges;
      if Idle(s.judges[j]) then HandleFree(s, j) else s
    else s
  }

  lemma OnlyOne<T>(s: set<T>)
    requires |s| == 1
    ensures exists x :: x in s && forall y :: y in s ==> y == x
  {
    var x :| x in s;
    assert |s - {x}| == 0;
    assert s == {x};
  }

  function WaitPos(q: seq<Entry>, id: SubId): (k: nat)
    requires Waiting(q, id)
    ensures WaitsAt(q, k, id)
  {
    var k: nat :| k < |q| && WaitsAt(q, k, id);
    if WaitsAt(q, 0, id) then 0
    else
      assert q[1..][k - 1] == q[k];
      assert WaitsAt(q[1..], k - 1, id);
      1 + WaitPos(q[1..], id)
  }

  /** `abort`: a running submission is only told to stop, a waiting one leaves the list. */
  function Abort<J>(s: State<J>, id: SubId): State<J> {
    if id in s.running then s
    else if Waiting(s.queue, id) then s.(queue := RemoveAt(s.queue, WaitPos(s.queue, id)))
    else s
  }

  // ---- events and runs ----

  datatype Event<J> =
    | Judging(sub: Submission, priority: int, choice: Option<J>)
    | Registering(j: J, info: Info)
    | Finishing(j: J, id: SubId)
    | NewProblems(j: J, problems: set<string>)
    | Offering(j: J)
    | Skipping(j: J)
    | Disabling(name: Option<string>, disabled: bool)
    | Connected(j: J, disabled: bool)
    | Reporting(j: J, load: real)
    | Aborting(id: SubId)
    | Removing(j: J)

  /** The load of a judge that has not reported any. */
  const INITIAL_LOAD: real := 1e100

  /** A judge as its handshake registers it: it has a (non-empty) name, and whether it is disabled is looked up only
      afterwards. */
  predicate Newcomer(info: Info) {
    info.name.Some? && info.name.value != "" && Idle(info) && !info.disabled && info.load == INITIAL_LOAD
  }

  /** What the environment guarantees: one handshake per connection, a finish packet names the judge's own submission,
      and the judge chosen for a submission is one of least load. */
  predicate Possible<J>(s: State<J>, e: Event<J>) {
    match e
    case Judging(sub, priority, choice) =>
      0 <= priority < PRIORITIES && (!Known(s, sub.id) ==> LegalChoice(s, sub, priority, choice))
    case Registering(j, info) => j !in s.judges && Newcomer(info)
    case Finishing(j, id) => j in s.judges && s.judges[j].working == Some(id)
    case NewProblems(j, _) => j in s.judges
    case Offering(j) => j in s.judges && j in s.pending
    case Skipping(j) => j in s.judges && j in s.pending && !Idle(s.judges[j])
    case Connected(j, _) => j in s.judges
    case Reporting(j, _) => j in s.judges
    case _ => true
  }

  function Next<J>(s: State<J>, e: Event<J>): State<J>
    requires WellMarked(s.queue) && Possible(s, e)
  {
    match e
    case Judging(sub, priority, choice) => Submit(s, sub, priority, choice)
    case Registering(j, info) => Register(s, j, info)
    case Finishing(j, id) => var r := Finish(s, j, id); if r.Some? then r.value else s
    case NewProblems(j, problems) => SetProblems(s, j, problems)
    case Offering(j) => Offer(s, j)
    case Skipping(j) => Skip(s, j)
    case Disabling(name, disabled) => SetDisabled(s, name, disabled)
    case Connected(j, disabled) => s.(judges := s.judges[j := s.judges[j].(disabled := disabled)])
    case Reporting(j, load) => s.(judges := s.judges[j := s.judges[j].(load := load)])
    case Aborting(id) => Abort(s, id)
    case Removing(j) => Remove(s, j)
  }

  // ---- ownership ----

  ghost predicate DistinctIds(q: seq<Entry>) {
    forall i: nat, k: nat, id :: WaitsAt(q, i, id) && WaitsAt(q, k, id) ==> i == k
  }

  /** Every known submission is in exactly one place, and running[id] = j exactly when j works on id. */
  ghost predicate Owned<J>(s: State<J>) {
    && WellMarked(s.queue)
    && DistinctIds(s.queue)
    && (forall id :: id in s.running ==> !Waiting(s.queue, id))
    && (forall id :: id in s.running ==> s.running[id] in s.judges && s.judges[s.running[id]].working == Some(id))
    && (forall j :: j in s.judges && s.judges[j].working.Some? ==>
          s.judges[j].working.value in s.running && s.running[s.judges[j].working.value] == j)
  }

  lemma RemoveWaits(q: seq<Entry>, k: nat, id: SubId)
    requires k < |q| && q[k].Item? && DistinctIds(q)
    ensures Waiting(RemoveAt(q, k), id) <==> Waiting(q, id) && id != q[k].sub.id
    ensures DistinctIds(RemoveAt(q, k))
  {
    var r := RemoveAt(q, k);
    assert WaitsAt(q, k, q[k].sub.id);
    forall i: nat, id' ensures WaitsAt(r, i, id') <==> i < |r| && WaitsAt(q, if i < k then i else i + 1, id') {}
    forall i: nat | i < |q| && i != k && WaitsAt(q, i, id) ensures Waiting(r, id) {
      assert WaitsAt(r, if i < k then i else i - 1, id);
    }
  }

  lemma InsertWaits(q: seq<Entry>, m: nat, sub: Submission, id: SubId)
    requires m <= |q| && DistinctIds(q) && !Waiting(q, sub.id)
    ensures Waiting(InsertAt(q, m, Item(sub)), id) <==> Waiting(q, id) || id == sub.id
    ensures DistinctIds(InsertAt(q, m, Item(sub)))
  {
    var r := InsertAt(q, m, Item(sub));
    assert WaitsAt(r, m, sub.id);
    forall i: nat, id' ensures WaitsAt(r, i, id') <==>
      (i == m && id' == sub.id) || (i != m && i < |r| && WaitsAt(q, if i < m then i else i - 1, id')) {}
    forall i: nat | i < |q| && WaitsAt(q, i, id) ensures Waiting(r, id) {
      assert WaitsAt(r, if i < m then i else i + 1, id);
    }
  }

  /** Giving a free judge work keeps ownership exactly when the judge was idle or there was nothing to give it. */
  lemma HandleFreeOwned<J>(s: State<J>, j: J)
    requires Owned(s) && j in s.judges
    ensures Owned(HandleFree(s, j)) <==> Idle(s.judges[j]) || Pick(s.queue, s.judges[j], Reserved(s.judges)).None?
  {
    hide Pick, Reserved, CanJudge, PrioAt, WellMarked, Waiting, WaitsAt, DistinctIds;
    var r := Pick(s.queue, s.judges[j], Reserved(s.judges));
    if r.Some? {
      var k := r.value;
      var id := s.queue[k].sub.id;
      WaitsHere(s.queue, k);
      RemoveStays(s.queue, k);
      forall x ensures Waiting(RemoveAt(s.queue, k), x) <==> Waiting(s.queue, x) && x != id {
        RemoveWaits(s.queue, k, x);
      }
      var t := HandleFree(s, j);
      if s.judges[j].working.Some? {
        var busy := s.judges[j].working.value;
        assert busy in t.running && t.running[busy] == j && t.judges[j].working == Some(id);
      }
    }
  }

  lemma WaitsHere(q: seq<Entry>, k: nat)
    requires k < |q| && q[k].Item?
    ensures Waiting(q, q[k].sub.id)
  {
    assert WaitsAt(q, k, q[k].sub.id);
  }

  lemma RemoveStays(q: seq<Entry>, k: nat)
    requires k < |q| && q[k].Item? && WellMarked(q) && DistinctIds(q)
    ensures WellMarked(RemoveAt(q, k)) && DistinctIds(RemoveAt(q, k))
  {
    RemoveWellMarked(q, k);
    RemoveWaits(q, k, q[k].sub.id);
  }

  /** A finish packet keeps ownership exactly when it names the sending judge's own submission. */
  lemma FinishOwned<J>(s: State<J>, j: J, id: SubId)
    requires Owned(s) && j in s.judges && id in s.running
    ensures Owned(Finish(s, j, id).value) <==> s.judges[j].working == Some(id)
  {
    hide Pick, Reserved, CanJudge, PrioAt, WellMarked, Waiting, WaitsAt, DistinctIds;
    var t := s.(running := s.running - {id}, judges := s.judges[j := s.judges[j].(working := None)]);
    if s.judges[j].working == Some(id) {
      HandleFreeOwned(t, j);
    } else {
      var k := s.running[id];
      var u := HandleFree(t, j);
      assert k != j && u.judges[k].working == Some(id);
      var r := Pick(t.queue, t.judges[j], Reserved(t.judges));
      if r.Some? { WaitsHere(t.queue, r.value); }
      assert id !in u.running;
    }
  }

  lemma SubmitOwned<J>(s: State<J>, sub: Submission, priority: int, choice: Option<J>)
    requires Owned(s) && 0 <= priority < PRIORITIES
    requires !Known(s, sub.id) ==> LegalChoice(s, sub, priority, choice)
    ensures Owned(Submit(s, sub, priority, choice))
  {
    hide CanJudge, PrioAt, WellMarked, WaitsAt, DistinctIds, MarkerPos, InsertAt, Waiting;
    if !Known(s, sub.id) && !(choice.Some? && choice.value in s.judges) {
      MarkerThere(s.queue, priority);
      var m := MarkerPos(s.queue, priority);
      InsertStays(s.queue, m, sub);
      forall x ensures Waiting(InsertAt(s.queue, m, Item(sub)), x) <==> Waiting(s.queue, x) || x == sub.id {
        InsertWaits(s.queue, m, sub, x);
      }
    }
  }

  lemma MarkerThere(q: seq<Entry>, priority: int)
    requires WellMarked(q) && 0 <= priority < PRIORITIES
    ensures Marker(priority) in q
  {}

  lemma InsertStays(q: seq<Entry>, m: nat, sub: Submission)
    requires m < |q| && WellMarked(q) && DistinctIds(q) && !Waiting(q, sub.id)
    ensures WellMarked(InsertAt(q, m, Item(sub))) && DistinctIds(InsertAt(q, m, Item(sub)))
  {
    InsertWellMarked(q, m, sub);
    InsertWaits(q, m, sub, sub.id);
  }

  lemma AbortOwned<J>(s: State<J>, id: SubId)
    requires Owned(s)
    ensures Owned(Abort(s, id))
  {
    hide PrioAt, WellMarked, WaitsAt, DistinctIds, Waiting, WaitPos;
    if id !in s.running && Waiting(s.queue, id) {
      WaitPosItem(s.queue, id);
      var k := WaitPos(s.queue, id);
      RemoveStays(s.queue, k);
      forall x ensures Waiting(RemoveAt(s.queue, k), x) <==> Waiting(s.queue, x) && x != id {
        RemoveWaits(s.queue, k, x);
      }
    }
  }

  lemma WaitPosItem(q: seq<Entry>, id: SubId)
    requires Waiting(q, id)
    ensures WaitPos(q, id) < |q| && q[WaitPos(q, id)].Item? && q[WaitPos(q, id)].sub.id == id
  {}

  lemma WakeOwned<J>(s: State<J>)
    requires Owned(s)
    ensures Owned(Wake(s))
  {
    hide Pick, PrioAt, WellMarked, Waiting, DistinctIds;
    if |s.judges| == 1 {
      OnlyOne(s.judges.Keys);
      forall j | j in s.judges { HandleFreeOwned(s, j); }
    }
  }

  lemma RemoveOwned<J>(s: State<J>, j: J)
    requires Owned(s)
    ensures Owned(Remove(s, j))
  {
    hide Pick, PrioAt, WellMarked, Waiting, DistinctIds, Wake;
    WakeOwned(Without(s, j));
  }

  /** Work is offered after a new problem list while the judge is still idle, or there is none for it. */
  predicate Timely<J>(s: State<J>, e: Event<J>) {
    e.Offering? && e.j in s.judges ==> Idle(s.judges[e.j]) || Pick(s.queue, s.judges[e.j], Reserved(s.judges)).None?
  }

  /** Every step keeps ownership, except an offer that comes too late. */
  lemma NextOwned<J>(s: State<J>, e: Event<J>)
    requires Owned(s) && Possible(s, e)
    ensures Owned(Next(s, e)) <==> Timely(s, e)
  {
    hide Pick, PrioAt, WellMarked, Waiting, DistinctIds, HandleFree, Submit, Abort, Remove, LegalChoice;
    match e
    case Judging(sub, priority, choice) => SubmitOwned(s, sub, priority, choice);
    case Registering(j, info) => HandleFreeOwned(s.(judges := s.judges[j := info]), j);
    case Finishing(j, id) => FinishOwned(s, j, id);
    case Offering(j) => HandleFreeOwned(s.(pending := s.pending - {j}), j);
    case Aborting(id) => AbortOwned(s, id);
    case Removing(j) => RemoveOwned(s, j);
    case _ =>
  }

  // ---- names ----

  ghost predicate UniqueNames<J>(judges: map<J, Info>) {
    forall i, j :: i in judges && j in judges && i != j ==> judges[i].name != judges[j].name
  }

  /** Registering leaves every other judge in place, also one of the same name: names stay unique exactly when they
      were and the newcomer's is new. */
  lemma RegisterNames<J>(s: State<J>, j: J, info: Info)
    requires j !in s.judges
    ensures var t := Register(s, j, info);
            && t.judges.Keys == s.judges.Keys + {j}
            && (forall i :: i in s.judges ==> t.judges[i] == s.judges[i])
            && (UniqueNames(t.judges) <==>
                  UniqueNames(s.judges) && forall i :: i in s.judges ==> s.judges[i].name != info.name)
  {
    hide Pick, Reserved, RemoveAt;
    var t := Register(s, j, info);
    assert t.judges[j].name == info.name;
    if UniqueNames(t.judges) {
      forall i, k | i in s.judges && k in s.judges && i != k ensures s.judges[i].name != s.judges[k].name {
        assert t.judges[i] == s.judges[i] && t.judges[k] == s.judges[k];
      }
      forall i | i in s.judges ensures s.judges[i].name != info.name {
        assert t.judges[i].name != t.judges[j].name;
      }
    }
  }

  // ---- handshakes of disabled judges ----

  lemma RegisterKeeps<J>(s: State<J>, j: J, info: Info)
    ensures j in Register(s, j, info).judges
  {
    hide Pick, Reserved, RemoveAt;
  }

  /** `on_handshake` of a judge that is disabled in the database, with nothing in between: `register` gives it work
      before `_connected` looks up that it is disabled. */
  function DisabledHandshake<J>(s: State<J>, j: J, info: Info): State<J> {
    RegisterKeeps(s, j, info);
    var t := Register(s, j, info);
    t.(judges := t.judges[j := t.judges[j].(disabled := true)])
  }

  /** A judge that is disabled in the database is handed a waiting submission at its handshake exactly when one fits
      it as an enabled judge, and then one it would not be given as a disabled judge exactly when the first that fits
      was not sent to it by name. */
  lemma HandshakeHandsWork<J>(s: State<J>, j: J, info: Info)
    requires WellMarked(s.queue) && Possible(s, Registering(j, info))
    ensures var q, reserved := s.queue, Reserved(s.judges[j := info]);
            var t := DisabledHandshake(s, j, info);
            && j in t.judges && t.judges[j].disabled
            && (t.judges[j].working.Some? <==> exists k :: 0 <= k < |q| && Fits(q, info, reserved, k))
            && forall k :: 0 <= k < |q| && Fits(q, info, reserved, k)
                           && (forall i :: 0 <= i < k ==> !Fits(q, info, reserved, i)) ==>
                 && q[k].Item? && t.judges[j].working == Some(q[k].sub.id)
                 && (CanJudge(t.judges[j], q[k].sub) <==> q[k].sub.judgeId == info.name)
  {
    hide Pick, Reserved, RemoveAt, PrioAt, WellMarked, Fits, CanJudge;
    RegisterKeeps(s, j, info);
    var q, reserved := s.queue, Reserved(s.judges[j := info]);
    PickFirst(q, info, reserved);
    var t := DisabledHandshake(s, j, info);
    forall k | 0 <= k < |q| && Fits(q, info, reserved, k) && forall i :: 0 <= i < k ==> !Fits(q, info, reserved, i)
      ensures t.judges[j].working == Some(q[k].sub.id)
      ensures CanJudge(t.judges[j], q[k].sub) <==> q[k].sub.judgeId == info.name
    {
      FitsCan(q, info, reserved, k);
      OnlyByName(info, q[k].sub, q[k].sub.id);
    }
  }

  lemma FitsCan(q: seq<Entry>, info: Info, reserved: bool, k: nat)
    requires k < |q| && Fits(q, info, reserved, k)
    ensures q[k].Item? && CanJudge(info, q[k].sub)
  {}

  lemma OnlyByName(info: Info, sub: Submission, id: SubId)
    requires CanJudge(info, sub)
    ensures CanJudge(info.(disabled := true, working := Some(id)), sub) <==> sub.judgeId == info.name
  {}

  // ---- no double dispatch ----

  /** A submission starts running only on a judge that was idle, had just registered, or is finishing. */
  ghost predicate StartsOnIdle<J>(s: State<J>, e: Event<J>, t: State<J>) {
    forall id :: id in t.running && id !in s.running ==>
      var j := t.running[id];
      j !in s.judges || Idle(s.judges[j]) || (e.Finishing? && e.j == j)
  }

  /** No judge is given a submission while busy, except by an offer that comes too late. */
  lemma NextStartsOnIdle<J>(s: State<J>, e: Event<J>)
    requires Owned(s) && Possible(s, e)
    ensures StartsOnIdle(s, e, Next(s, e)) <==> Timely(s, e)
  {
    hide Pick, PrioAt, WellMarked, Waiting, DistinctIds, Reserved, CanJudge, RemoveAt;
    if e.Removing? {
      OnlyChanges(s, e.j);
    }
    if !Timely(s, e) {
      var id := s.queue[Pick(s.queue, s.judges[e.j], Reserved(s.judges)).value].sub.id;
      WaitsHere(s.queue, Pick(s.queue, s.judges[e.j], Reserved(s.judges)).value);
      assert id in Next(s, e).running && id !in s.running;
    }
  }

  lemma OnlyChanges<J>(s: State<J>, j: J)
    ensures forall id :: id in Remove(s, j).running && id !in s.running ==>
              Remove(s, j).running[id] in s.judges && Idle(s.judges[Remove(s, j).running[id]])
  {
    hide Pick, Reserved, CanJudge, RemoveAt;
    var t := Without(s, j);
    if |t.judges| == 1 { OnlyOne(t.judges.Keys); }
  }

  /** An idle judge stays idle until it is sent a submission, another judge's removal leaves it alone, or it is offered
      work itself: only these can make an offer come too late. */
  lemma StaysIdle<J>(s: State<J>, e: Event<J>, j: J)
    requires WellMarked(s.queue) && Possible(s, e)
    requires j in s.judges && Idle(s.judges[j]) && j in Next(s, e).judges
    ensures Idle(Next(s, e).judges[j])
            || (e.Judging? && e.choice == Some(j)) || (e.Removing? && e.j != j && Next(s, e).judges.Keys == {j})
            || (e.Offering? && e.j == j)
  {
    hide HandleFree, PrioAt, WellMarked, Waiting, CanJudge, LegalChoice, Known, Submit, Abort;
    match e
    case Judging(sub, priority, choice) => if choice != Some(j) { SubmitOthers(s, sub, priority, choice, j); }
    case Aborting(id) => AbortJudges(s, id);
    case Registering(k, info) => HandleFreeOthers(s.(judges := s.judges[k := info]), k, j);
    case Finishing(k, id) =>
      HandleFreeOthers(s.(running := s.running - {id}, judges := s.judges[k := s.judges[k].(working := None)]), k, j);
    case Offering(k) => if k != j { HandleFreeOthers(s.(pending := s.pending - {k}), k, j); }
    case Removing(k) =>
      var t := Without(s, k);
      if |t.judges| == 1 {
        OnlyOne(t.judges.Keys);
        HandleFreeKeys(t);
      }
    case _ =>
  }

  lemma SubmitOthers<J>(s: State<J>, sub: Submission, priority: int, choice: Option<J>, j: J)
    requires WellMarked(s.queue) && 0 <= priority < PRIORITIES && j in s.judges && choice != Some(j)
    ensures j in Submit(s, sub, priority, choice).judges && Submit(s, sub, priority, choice).judges[j] == s.judges[j]
  {
    hide Known, InsertAt, MarkerPos;
  }

  lemma AbortJudges<J>(s: State<J>, id: SubId)
    ensures Abort(s, id).judges == s.judges
  {}

  /** Handing out work touches no other judge. */
  lemma HandleFreeOthers<J>(s: State<J>, k: J, j: J)
    requires k in s.judges && j in s.judges && j != k
    ensures j in HandleFree(s, k).judges && HandleFree(s, k).judges[j] == s.judges[j]
  {
    hide Pick, Reserved, RemoveAt;
  }

  lemma HandleFreeKeys<J>(s: State<J>)
    ensures forall k :: k in s.judges ==> HandleFree(s, k).judges.Keys == s.judges.Keys
  {
    hide Pick, Reserved, RemoveAt;
  }

  // ---- accounting ----

  /** The events that end a submission's stay: its judge reports an end, it is aborted while waiting, its judge is
      removed. */
  predicate Ends<J>(s: State<J>, e: Event<J>, id: SubId) {
    match e
    case Finishing(_, done) => done == id
    case Aborting(gone) => gone == id && id !in s.running
    case Removing(j) => j in s.judges && s.judges[j].working == Some(id)
    case _ => false
  }

  lemma HandleFreeKnown<J>(s: State<J>, j: J, id: SubId)
    requires j in s.judges && DistinctIds(s.queue)
    ensures Known(HandleFree(s, j), id) <==> Known(s, id)
  {
    hide Pick, Reserved, CanJudge, PrioAt, DistinctIds, Waiting, RemoveAt;
    var r := Pick(s.queue, s.judges[j], Reserved(s.judges));
    if r.Some? {
      RemoveWaits(s.queue, r.value, id);
      WaitsHere(s.queue, r.value);
    }
  }

  lemma WakeKnown<J>(s: State<J>, id: SubId)
    requires DistinctIds(s.queue)
    ensures Known(Wake(s), id) <==> Known(s, id)
  {
    hide HandleFree, DistinctIds, Known;
    if |s.judges| == 1 {
      OnlyOne(s.judges.Keys);
      forall j | j in s.judges { HandleFreeKnown(s, j, id); }
    }
  }

  /** A submission is known after a step exactly when it was and the step does not end it, or the step brings it in. */
  lemma NextKnown<J>(s: State<J>, e: Event<J>, id: SubId)
    requires Owned(s) && Possible(s, e)
    ensures Known(Next(s, e), id) <==> (Known(s, id) && !Ends(s, e, id)) || (e.Judging? && e.sub.id == id)
  {
    hide HandleFree, PrioAt, WellMarked, Waiting, DistinctIds, InsertAt, RemoveAt, MarkerPos, WaitPos, Wake,
         LegalChoice;
    match e
    case Judging(sub, priority, choice) =>
      if !Known(s, sub.id) {
        MarkerThere(s.queue, priority);
        InsertWaits(s.queue, MarkerPos(s.queue, priority), sub, id);
      }
    case Registering(j, info) => HandleFreeKnown(s.(judges := s.judges[j := info]), j, id);
    case Finishing(j, done) =>
      var t := s.(running := s.running - {done}, judges := s.judges[j := s.judges[j].(working := None)]);
      HandleFreeKnown(t, j, id);
    case Offering(j) => HandleFreeKnown(s.(pending := s.pending - {j}), j, id);
    case Aborting(gone) =>
      if gone !in s.running && Waiting(s.queue, gone) {
        WaitPosItem(s.queue, gone);
        RemoveWaits(s.queue, WaitPos(s.queue, gone), id);
      }
    case Removing(j) =>
      WakeKnown(Without(s, j), id);
    case _ =>
  }

  // ---- runs ----

  ghost predicate Run<J>(s: State<J>, es: seq<Event<J>>, t: State<J>)
    requires WellMarked(s.queue)
    decreases |es|
  {
    if es == [] then t == s
    else Possible(s, es[0]) && WellMarked(Next(s, es[0]).queue) && Run(Next(s, es[0]), es[1..], t)
  }

  /** No offer of the run comes too late. */
  ghost predicate AllTimely<J>(s: State<J>, es: seq<Event<J>>)
    requires WellMarked(s.queue)
    decreases |es|
  {
    es == []
    || (Possible(s, es[0]) && Timely(s, es[0]) && WellMarked(Next(s, es[0]).queue)
        && AllTimely(Next(s, es[0]), es[1..]))
  }

  /** No event of the run ends id, at the state in which it happens. */
  ghost predicate NeverEnds<J>(s: State<J>, es: seq<Event<J>>, id: SubId)
    requires WellMarked(s.queue)
    decreases |es|
  {
    es == []
    || (Possible(s, es[0]) && !Ends(s, es[0], id)
        && WellMarked(Next(s, es[0]).queue) && NeverEnds(Next(s, es[0]), es[1..], id))
  }

  /** The scheduler before any judge connects. */
  function Initial<J>(): State<J> {
    State([Marker(0), Marker(1), Marker(2), Marker(3)], map[], map[], {})
  }

  lemma InitialOwned<J>()
    ensures Owned(Initial<J>())
  {
    var q := Initial<J>().queue;
    assert PrioAt(q, 0) == 0 && PrioAt(q, 1) == 1 && PrioAt(q, 2) == 2 && PrioAt(q, 3) == 3;
    assert q[0] == Marker(0) && q[1] == Marker(1) && q[2] == Marker(2) && q[3] == Marker(3);
  }

  /** Ownership holds in every state of every run in which no offer comes too late. */
  lemma {:induction false} RunOwned<J>(s: State<J>, es: seq<Event<J>>, t: State<J>)
    requires Owned(s) && Run(s, es, t) && AllTimely(s, es)
    ensures Owned(t)
    decreases |es|
  {
    hide Next, Possible, WellMarked, Timely;
    if es != [] {
      NextOwned(s, es[0]);
      RunOwned(Next(s, es[0]), es[1..], t);
    }
  }

  /** Once accepted, a submission is in exactly one place until it finishes, is aborted while waiting, or its judge
      goes. */
  lemma {:induction false} RunAccounted<J>(s: State<J>, es: seq<Event<J>>, t: State<J>, id: SubId)
    requires Owned(s) && Run(s, es, t) && AllTimely(s, es) && Known(s, id) && NeverEnds(s, es, id)
    ensures (id in t.running) != Waiting(t.queue, id)
    decreases |es|
  {
    hide Next, Possible, WellMarked, Ends, Waiting, Timely;
    if es != [] {
      NextOwned(s, es[0]);
      NextKnown(s, es[0], id);
      RunAccounted(Next(s, es[0]), es[1..], t, id);
    }
  }
}
