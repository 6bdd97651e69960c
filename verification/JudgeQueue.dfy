/** The waiting list of judge/bridge/judge_list.py: one list holding submissions and four priority markers.
    It behaves as four first-in first-out queues, one per priority. */
module JudgeQueue {
  import opened Prelude

  const PRIORITIES := 4
  const REJUDGE_PRIORITY := 2

  /** Database keys start at 1, so a submission id is never falsy. */
  type SubId = x: int | x >= 1 witness 1

  datatype Submission = Submission(id: SubId, problem: string, language: string, source: string,
                                   judgeId: Option<string>)

  datatype Entry = Marker(priority: int) | Item(sub: Submission)

  /** A connected judge as the scheduler sees it. */
  datatype Info = Info(name: Option<string>, problems: set<string>, executors: set<string>,
                       working: Option<SubId>, disabled: bool, load: real)

  predicate Pinned(judgeId: Option<string>) {
    judgeId.Some? && judgeId.value != ""
  }

  predicate CanJudge(info: Info, sub: Submission) {
    && sub.problem in info.problems
    && sub.language in info.executors
    && ((!Pinned(sub.judgeId) && !info.disabled) || info.name == sub.judgeId)
  }

  // ---- positions and priorities ----

  /** The priority of position k: one more than the last marker before it. */
  function PrioAt(q: seq<Entry>, k: nat): int
    requires k <= |q|
  {
    if k == 0 then 0 else if q[k - 1].Marker? then q[k - 1].priority + 1 else PrioAt(q, k - 1)
  }

  /** Markers 0 to 3 are present in order, and the last one ends the list. */
  ghost predicate WellMarked(q: seq<Entry>) {
    && (forall k {:trigger q[k].Marker?} :: 0 <= k < |q| && q[k].Marker? ==>
          q[k].priority == PrioAt(q, k) && 0 <= q[k].priority < PRIORITIES)
    && (forall p :: 0 <= p < PRIORITIES ==> Marker(p) in q)
    && |q| > 0 && q[|q| - 1] == Marker(PRIORITIES - 1)
  }

  lemma {:induction false} PrioMonotone(q: seq<Entry>, i: nat, j: nat)
    requires WellMarked(q) && i <= j <= |q|
    ensures PrioAt(q, i) <= PrioAt(q, j)
    ensures (exists k :: i <= k < j && q[k].Marker?) ==> PrioAt(q, i) < PrioAt(q, j)
    decreases j - i
  {
    if i < j {
      PrioMonotone(q, i, j - 1);
      assert q[j - 1].Marker? ==> q[j - 1].priority == PrioAt(q, j - 1);
    }
  }

  /** Each marker occurs once. */
  lemma MarkerUnique(q: seq<Entry>, i: nat, j: nat)
    requires WellMarked(q) && i < |q| && j < |q|
    requires q[i].Marker? && q[i] == q[j]
    ensures i == j
  {
    if i < j { PrioMonotone(q, i, j); }
    if j < i { PrioMonotone(q, j, i); }
  }

  function InsertAt(q: seq<Entry>, m: nat, x: Entry): seq<Entry>
    requires m <= |q|
  {
    q[..m] + [x] + q[m..]
  }

  function RemoveAt(q: seq<Entry>, m: nat): seq<Entry>
    requires m < |q|
  {
    q[..m] + q[m + 1..]
  }

  lemma {:induction false} PrioInsert(q: seq<Entry>, m: nat, sub: Submission, k: nat)
    requires m <= |q| && k <= |q| + 1
    ensures PrioAt(InsertAt(q, m, Item(sub)), k) == PrioAt(q, if k <= m then k else k - 1)
  {
    if k > 0 { PrioInsert(q, m, sub, k - 1); }
  }

  lemma {:induction false} PrioRemove(q: seq<Entry>, m: nat, k: nat)
    requires m < |q| && q[m].Item? && k < |q|
    ensures PrioAt(RemoveAt(q, m), k) == PrioAt(q, if k <= m then k else k + 1)
  {
    if k > 0 {
      PrioRemove(q, m, k - 1);
    }
  }

  lemma InsertWellMarked(q: seq<Entry>, m: nat, sub: Submission)
    requires WellMarked(q) && m < |q|
    ensures WellMarked(InsertAt(q, m, Item(sub)))
  {
    var r := InsertAt(q, m, Item(sub));
    forall k {:trigger r[k].Marker?} | 0 <= k < |r| && r[k].Marker?
      ensures r[k].priority == PrioAt(r, k) && 0 <= r[k].priority < PRIORITIES
    {
      PrioInsert(q, m, sub, k);
      assert r[k] == q[if k <= m then k else k - 1];
    }
    forall p | 0 <= p < PRIORITIES ensures Marker(p) in r {
      var k :| 0 <= k < |q| && q[k] == Marker(p);
      assert r[if k < m then k else k + 1] == Marker(p);
    }
  }

  lemma RemoveWellMarked(q: seq<Entry>, m: nat)
    requires WellMarked(q) && m < |q| && q[m].Item?
    ensures WellMarked(RemoveAt(q, m))
  {
    var r := RemoveAt(q, m);
    forall k {:trigger r[k].Marker?} | 0 <= k < |r| && r[k].Marker?
      ensures r[k].priority == PrioAt(r, k) && 0 <= r[k].priority < PRIORITIES
    {
      PrioRemove(q, m, k);
      assert r[k] == q[if k < m then k else k + 1];
    }
    forall p | 0 <= p < PRIORITIES ensures Marker(p) in r {
      var k :| 0 <= k < |q| && q[k] == Marker(p);
      assert r[if k < m then k else k - 1] == Marker(p);
    }
  }

  // ---- the four queues ----

  /** The submissions of priority p in q, in order, when q starts at priority `cur`. */
  function Section(q: seq<Entry>, p: int, cur: int): seq<Submission> {
    if q == [] then []
    else match q[0]
      case Marker(m) => Section(q[1..], p, m + 1)
      case Item(sub) => (if cur == p then [sub] else []) + Section(q[1..], p, cur)
  }

  /** The queue of priority p. */
  function Queue(q: seq<Entry>, p: int): seq<Submission> {
    Section(q, p, 0)
  }

  lemma {:induction false} SectionSplit(q: seq<Entry>, m: nat, p: int, cur: int)
    requires m <= |q|
    ensures Section(q, p, cur) == Section(q[..m], p, cur) + Section(q[m..], p, PrioFrom(q, m, cur))
  {
    if m == 0 {
      assert q[..0] == [] && q[0..] == q;
    } else {
      assert q[..m][0] == q[0] && q[..m][1..] == q[1..][..m - 1] && q[1..][m - 1..] == q[m..];
      match q[0]
      case Marker(b) =>
        SectionSplit(q[1..], m - 1, p, b + 1);
        PrioFromTail(q, m, cur);
      case Item(sub) =>
        SectionSplit(q[1..], m - 1, p, cur);
        PrioFromTail(q, m, cur);
    }
  }

  /** The priority after the first m entries of a list that starts at priority cur. */
  function PrioFrom(q: seq<Entry>, m: nat, cur: int): int
    requires m <= |q|
  {
    if m == 0 then cur else if q[m - 1].Marker? then q[m - 1].priority + 1 else PrioFrom(q, m - 1, cur)
  }

  lemma {:induction false} PrioFromTail(q: seq<Entry>, m: nat, cur: int)
    requires 0 < m <= |q|
    ensures PrioFrom(q, m, cur) == PrioFrom(q[1..], m - 1, if q[0].Marker? then q[0].priority + 1 else cur)
  {
    if m > 1 { PrioFromTail(q, m - 1, cur); }
  }

  lemma {:induction false} PrioFromZero(q: seq<Entry>, m: nat)
    requires m <= |q|
    ensures PrioFrom(q, m, 0) == PrioAt(q, m)
  {
    if m > 0 { PrioFromZero(q, m - 1); }
  }

  /** Position k splits its own queue, and lies after all queues of smaller and before all of larger priority. */
  lemma QueueSplit(q: seq<Entry>, k: nat, p: int)
    requires k < |q| && q[k].Item?
    ensures Queue(q, p) == Section(q[..k], p, 0)
                           + (if PrioAt(q, k) == p then [q[k].sub] else [])
                           + Section(q[k + 1..], p, PrioAt(q, k))
  {
    SectionSplit(q, k, p, 0);
    PrioFromZero(q, k);
    assert q[k..][0] == q[k] && q[k..][1..] == q[k + 1..];
  }

  /** Inserting before marker p appends to queue p and changes no other queue. */
  lemma {:induction false} InsertQueue(q: seq<Entry>, m: nat, p: int, sub: Submission, r: int)
    requires WellMarked(q) && m < |q| && q[m] == Marker(p)
    ensures Queue(InsertAt(q, m, Item(sub)), r) == Queue(q, r) + (if r == p then [sub] else [])
  {
    var q' := InsertAt(q, m, Item(sub));
    SectionSplit(q, m, r, 0);
    PrioFromZero(q, m);
    PrioInsert(q, m, sub, m);
    QueueSplit(q', m, r);
    assert q'[..m] == q[..m] && q'[m + 1..] == q[m..];
    assert PrioAt(q, m) == p;
    if r == p { NothingAfter(q, m, p); }
  }

  /** After marker p nothing has priority p. */
  lemma NothingAfter(q: seq<Entry>, m: nat, p: int)
    requires WellMarked(q) && m < |q| && q[m] == Marker(p)
    ensures Section(q[m..], p, p) == []
  {
    assert q[m..][0] == q[m] && q[m..][1..] == q[m + 1..];
    NothingLater(q, m + 1, p);
  }

  lemma {:induction false} NothingLater(q: seq<Entry>, k: nat, p: int)
    requires WellMarked(q) && k <= |q| && PrioAt(q, k) > p
    ensures Section(q[k..], p, PrioAt(q, k)) == []
    decreases |q| - k
  {
    if k < |q| {
      assert q[k..][0] == q[k] && q[k..][1..] == q[k + 1..];
      PrioMonotone(q, k, k + 1);
      NothingLater(q, k + 1, p);
    }
  }

  /** Removing an entry removes it from its queue and changes no other queue. */
  lemma RemoveQueue(q: seq<Entry>, k: nat, r: int)
    requires k < |q| && q[k].Item?
    ensures Queue(RemoveAt(q, k), r) == Section(q[..k], r, 0) + Section(q[k + 1..], r, PrioAt(q, k))
    ensures r != PrioAt(q, k) ==> Queue(RemoveAt(q, k), r) == Queue(q, r)
  {
    QueueSplit(q, k, r);
    var q' := RemoveAt(q, k);
    SectionSplit(q', k, r, 0);
    PrioFromZero(q', k);
    PrioRemove(q, k, k);
    assert q'[..k] == q[..k] && q'[k..] == q[k + 1..];
  }

  // ---- the scan of `_handle_free_judge` ----

  /** The position the walk from k stops at with a submission to dispatch. */
  function Scan(q: seq<Entry>, info: Info, reserved: bool, k: nat, priority: int): (r: Option<nat>)
    requires k <= |q|
    ensures r.Some? ==> k <= r.value < |q| && q[r.value].Item?
    decreases |q| - k
  {
    if k == |q| then None
    else match q[k]
      case Marker(p) => Scan(q, info, reserved, k + 1, p + 1)
      case Item(sub) =>
        if priority >= REJUDGE_PRIORITY && reserved then None
        else if CanJudge(info, sub) then Some(k)
        else Scan(q, info, reserved, k + 1, priority)
  }

  function Pick(q: seq<Entry>, info: Info, reserved: bool): (r: Option<nat>)
    ensures r.Some? ==> r.value < |q| && q[r.value].Item?
  {
    Scan(q, info, reserved, 0, 0)
  }

  /** Position k holds a submission this judge can take now, given the reserve. */
  predicate Fits(q: seq<Entry>, info: Info, reserved: bool, k: nat)
    requires k < |q|
  {
    q[k].Item? && CanJudge(info, q[k].sub) && (PrioAt(q, k) >= REJUDGE_PRIORITY ==> !reserved)
  }

  lemma {:induction false} ScanFirst(q: seq<Entry>, info: Info, reserved: bool, k: nat)
    requires WellMarked(q) && k <= |q|
    requires forall i :: 0 <= i < k ==> !Fits(q, info, reserved, i)
    ensures var r := Scan(q, info, reserved, k, PrioAt(q, k));
            && (r.Some? ==> Fits(q, info, reserved, r.value)
                            && forall i :: 0 <= i < r.value ==> !Fits(q, info, reserved, i))
            && (r.None? ==> forall i :: 0 <= i < |q| ==> !Fits(q, info, reserved, i))
    decreases |q| - k
  {
    if k < |q| {
      if q[k].Item? && PrioAt(q, k) >= REJUDGE_PRIORITY && reserved {
        forall i | k <= i < |q| ensures !Fits(q, info, reserved, i) {
          PrioMonotone(q, k, i);
        }
      } else if !Fits(q, info, reserved, k) {
        ScanFirst(q, info, reserved, k + 1);
      }
    }
  }

  /** The walk dispatches the first fitting submission in list order, and nothing only if none fits. */
  lemma PickFirst(q: seq<Entry>, info: Info, reserved: bool)
    requires WellMarked(q)
    ensures var r := Pick(q, info, reserved);
            && (r.Some? <==> exists k :: 0 <= k < |q| && Fits(q, info, reserved, k))
            && (r.Some? ==> Fits(q, info, reserved, r.value)
                            && forall i :: 0 <= i < r.value ==> !Fits(q, info, reserved, i))
  {
    ScanFirst(q, info, reserved, 0);
  }

  lemma {:induction false} SectionMember(q: seq<Entry>, k: nat, p: int, sub: Submission)
    requires k <= |q|
    ensures sub in Section(q[..k], p, 0) <==> exists i :: 0 <= i < k && q[i] == Item(sub) && PrioAt(q, i) == p
  {
    if k > 0 {
      SectionMember(q, k - 1, p, sub);
      var r := q[..k];
      SectionSplit(r, k - 1, p, 0);
      PrioFromZero(r, k - 1);
      PrioPrefix(q, k, k - 1);
      assert r[..k - 1] == q[..k - 1] && r[k - 1..] == [q[k - 1]];
      assert Section([q[k - 1]], p, PrioAt(q, k - 1))
          == if q[k - 1].Item? && PrioAt(q, k - 1) == p then [q[k - 1].sub] else [];
    }
  }

  lemma {:induction false} PrioPrefix(q: seq<Entry>, k: nat, m: nat)
    requires m <= k <= |q|
    ensures PrioAt(q[..k], m) == PrioAt(q, m)
  {
    if m > 0 { PrioPrefix(q, k, m - 1); }
  }

  /** In terms of the four queues: the dispatched submission is preceded, in its own queue and in every queue of
      smaller priority, only by submissions this judge cannot take. */
  lemma PickFair(q: seq<Entry>, info: Info, reserved: bool, p: int, sub: Submission)
    requires WellMarked(q)
    requires Pick(q, info, reserved).Some?
    ensures var k := Pick(q, info, reserved).value;
            && (PrioAt(q, k) >= REJUDGE_PRIORITY ==> !reserved)
            && Queue(q, PrioAt(q, k))
               == Section(q[..k], PrioAt(q, k), 0) + [q[k].sub] + Section(q[k + 1..], PrioAt(q, k), PrioAt(q, k))
            && (sub in Section(q[..k], PrioAt(q, k), 0) ==> !CanJudge(info, sub))
            && (p < PrioAt(q, k) && sub in Queue(q, p) ==> !CanJudge(info, sub))
  {
    PickFirst(q, info, reserved);
    var k := Pick(q, info, reserved).value;
    QueueSplit(q, k, PrioAt(q, k));
    SectionMember(q, k, PrioAt(q, k), sub);
    SectionMember(q, |q|, p, sub);
    assert q[..|q|] == q;
    forall i | 0 <= i < |q| && q[i] == Item(sub) && PrioAt(q, i) == p && p < PrioAt(q, k)
      ensures !CanJudge(info, sub)
    {
      if i >= k { PrioMonotone(q, k, i); }
      assert !Fits(q, info, reserved, i);
    }
    forall i | 0 <= i < k && q[i] == Item(sub) && PrioAt(q, i) == PrioAt(q, k)
      ensures !CanJudge(info, sub)
    {
      assert !Fits(q, info, reserved, i);
    }
  }
}
