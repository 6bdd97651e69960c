/** The scheduler's code (judge/bridge/judge_list.py, class `JudgeList`; the judge fields of
    judge/bridge/judge_handler.py), each method proved to be the corresponding step of the state machine. */
module JudgeList {
  import opened Prelude
  import opened JudgeQueue
  import opened LinkedList
  import opened Scheduler

  class Judge {
    var name: Option<string>
    var problems: set<string>
    var executors: set<string>
    var working: Option<SubId>
    var disabled: bool
    var load: real

    function Info(): Info
      reads this
    {
      JudgeQueue.Info(name, problems, executors, working, disabled, load)
    }

    /** `submit`, when sending succeeds: the judge is busy from here on. */
    method Submit(id: SubId)
      modifies this`working
      ensures working == Some(id)
    {
      working := Some(id);
    }
  }

  /** What `disconnect` compares with the judges' names: a name, or the handler that `register` passes. */
  datatype Target = ByName(name: Option<string>) | ByHandler(judge: Judge)

  class Dispatcher {
    const queue: DoublyLinked
    var priority: seq<Node>
    var judges: set<Judge>
    var nodeMap: map<SubId, Node>
    var submissionMap: map<SubId, Judge>
    /** Judges whose handler has found them idle after a new problem list and not yet looked for work. */
    ghost var pending: set<Judge>

    /** node_map is a bijection between waiting ids and the list's non-marker nodes, and `priority` holds the
        markers. */
    ghost predicate Valid()
      reads this, queue, queue.nodes
    {
      && queue.Valid()
      && WellMarked(Values(queue.nodes))
      && |priority| == PRIORITIES
      && (forall p :: 0 <= p < PRIORITIES ==> priority[p] in queue.nodes && priority[p].value == Marker(p))
      && (forall n :: n in queue.nodes && n.value.Item? ==> n.value.sub.id in nodeMap && nodeMap[n.value.sub.id] == n)
      && (forall id :: id in nodeMap ==>
            nodeMap[id] in queue.nodes && nodeMap[id].value.Item? && nodeMap[id].value.sub.id == id)
    }

    ghost function Infos(): map<Judge, Info>
      reads this, judges
    {
      map j | j in judges :: j.Info()
    }

    ghost function Abs(): State<Judge>
      reads this, queue, judges
    {
      State(Values(queue.nodes), Infos(), submissionMap, pending)
    }

    constructor ()
      ensures Valid() && fresh(queue)
      ensures Abs() == Initial<Judge>()
    {
      hide WellMarked, PrioAt, DistinctIds, DoublyLinked.Valid;
      var q := new DoublyLinked();
      var m0 := q.Append(Marker(0));
      var m1 := q.Append(Marker(1));
      var m2 := q.Append(Marker(2));
      var m3 := q.Append(Marker(3));
      queue := q;
      priority := [m0, m1, m2, m3];
      judges := {};
      nodeMap := map[];
      submissionMap := map[];
      pending := {};
      new;
      assert queue.nodes == [m0, m1, m2, m3];
      assert Values(queue.nodes) == Initial<Judge>().queue;
      InitialOwned<Judge>();
    }

    // ---- the bijection ----

    lemma NodeOf(id: SubId)
      requires Valid()
      ensures id in nodeMap <==> Waiting(Values(queue.nodes), id)
    {
      var q := Values(queue.nodes);
      if id in nodeMap {
        var k :| 0 <= k < |queue.nodes| && queue.nodes[k] == nodeMap[id];
        assert WaitsAt(q, k, id);
      }
      if k: nat :| k < |q| && WaitsAt(q, k, id) {
        assert queue.nodes[k] in queue.nodes && queue.nodes[k].value == q[k];
      }
    }

    lemma Distinct()
      requires Valid()
      ensures DistinctIds(Values(queue.nodes))
    {
      var q := Values(queue.nodes);
      forall i: nat, k: nat, id | WaitsAt(q, i, id) && WaitsAt(q, k, id) ensures i == k {
        assert queue.nodes[i].value == q[i] && queue.nodes[k].value == q[k];
        assert queue.nodes[i] == nodeMap[id] == queue.nodes[k];
      }
    }

    // ---- reading the judges ----

    function CountEnabled(): nat
      reads this, judges
    {
      |set j | j in judges && !j.disabled|
    }

    function CountFree(): nat
      reads this, judges
    {
      |set j | j in judges && j.working.None? && !j.disabled|
    }

    lemma Counts()
      ensures Reserved(Infos()) <==> CountEnabled() > 1 && CountFree() <= 1
    {
      assert (set j | j in judges && !j.disabled) == Enabled(Infos());
      assert (set j | j in judges && j.working.None? && !j.disabled) == FreeJudges(Infos());
    }

    // ---- the steps ----

    /** Takes a waiting submission out of the list and the index. */
    method Unlist(node: Node, ghost k: nat)
      requires Valid()
      requires k < |queue.nodes| && queue.nodes[k] == node && node.value.Item?
      modifies `nodeMap, queue, queue.nodes
      ensures Valid()
      ensures Values(queue.nodes) == RemoveAt(Values(old(queue.nodes)), k)
    {
      hide WellMarked, PrioAt, DoublyLinked.Valid, Values, RemoveAt;
      ValuesRemove(queue.nodes, k);
      RemoveWellMarked(Values(queue.nodes), k);
      queue.Remove(node, k);
      nodeMap := nodeMap - {node.value.sub.id};
    }

    /** Hands the submission at node k to the judge. */
    method DispatchNode(judge: Judge, node: Node, ghost k: nat)
      requires Valid() && judge in judges
      requires k < |queue.nodes| && queue.nodes[k] == node && node.value.Item?
      modifies `nodeMap, `submissionMap, queue, queue.nodes, judge`working
      ensures Valid()
      ensures Abs() == Dispatch(old(Abs()), node.value.sub.id, judge).(queue := RemoveAt(old(Abs().queue), k))
    {
      hide WellMarked, PrioAt, DoublyLinked.Valid, Values, RemoveAt;
      var id := node.value.sub.id;
      submissionMap := submissionMap[id := judge];
      judge.Submit(id);
      Unlist(node, k);
      assert Infos() == old(Infos())[judge := old(Infos())[judge].(working := Some(id))];
    }

    /** The walk of `_handle_free_judge`: the node to dispatch, if any. */
    method FindWork(judge: Judge) returns (found: Node?, ghost at: nat)
      requires Valid() && judge in judges
      ensures found == null ==> Pick(Values(queue.nodes), judge.Info(), Reserved(Infos())).None?
      ensures found != null ==>
                && at < |queue.nodes| && queue.nodes[at] == found && found.value.Item?
                && Pick(Values(queue.nodes), judge.Info(), Reserved(Infos())) == Some(at)
    {
      hide WellMarked, PrioAt, DoublyLinked.Valid, CanJudge, Reserved;
      queue.FirstOf();
      Counts();
      var node := queue.first;
      var priority := 0;
      ghost var q, info, reserved := Values(queue.nodes), judge.Info(), Reserved(Infos());
      at := 0;
      while node != null
        invariant at <= |queue.nodes| && node == (if at < |queue.nodes| then queue.nodes[at] else null)
        invariant Scan(q, info, reserved, at, priority) == Pick(q, info, reserved)
        decreases |queue.nodes| - at
      {
        assert q[at] == node.value;
        queue.NextOf(at);
        match node.value {
          case Marker(p) =>
            priority := p + 1;
          case Item(sub) =>
            if priority >= REJUDGE_PRIORITY && CountEnabled() > 1 && CountFree() <= 1 {
              return null, at;
            }
            if CanJudge(judge.Info(), sub) {
              return node, at;
            }
        }
        node := node.next;
        at := at + 1;
      }
      found := null;
    }

    method HandleFreeJudge(judge: Judge)
      requires Valid() && judge in judges
      modifies `nodeMap, `submissionMap, queue, queue.nodes, judge`working
      ensures Valid()
      ensures Abs() == HandleFree(old(Abs()), judge)
    {
      hide WellMarked, PrioAt, DoublyLinked.Valid, CanJudge, Reserved, Pick, RemoveAt;
      var node, k := FindWork(judge);
      if node != null {
        DispatchNode(judge, node, k);
      }
    }

    /** `disconnect`: tells every judge to go whose name equals what is passed. */
    method Disconnect(target: Target) returns (told: set<Judge>)
      ensures told == set j | j in judges && target == ByName(j.name)
    {
      told := {};
      var left := judges;
      while left != {}
        invariant left <= judges
        invariant told == set j | j in judges - left && target == ByName(j.name)
        decreases left
      {
        var judge :| judge in left;
        if target == ByName(judge.name) {
          told := told + {judge};
        }
        left := left - {judge};
      }
    }

    /** Judges of the same name are to be disconnected first, but the handler itself is passed, which equals no name. */
    method Register(judge: Judge) returns (told: set<Judge>)
      requires Valid()
      modifies `judges, `nodeMap, `submissionMap, queue, queue.nodes, judge`working
      ensures Valid() && told == {}
      ensures Abs() == Scheduler.Register(old(Abs()), judge, old(judge.Info()))
    {
      hide WellMarked, PrioAt, DoublyLinked.Valid, CanJudge, Values, HandleFree;
      told := Disconnect(ByHandler(judge));
      judges := judges + {judge};
      assert Infos() == old(Infos())[judge := old(judge.Info())];
      HandleFreeJudge(judge);
    }

    /** A new problem list, set without the lock. */
    method SetProblems(judge: Judge, problems: set<string>)
      requires Valid() && judge in judges
      modifies `pending, judge`problems
      ensures Valid()
      ensures Abs() == Scheduler.SetProblems(old(Abs()), judge, problems)
    {
      hide WellMarked, PrioAt, DoublyLinked.Valid, CanJudge, Values;
      judge.problems := problems;
      pending := if judge.working.None? then pending + {judge} else pending;
      assert Infos() == old(Infos())[judge := old(Infos())[judge].(problems := problems)];
    }

    /** The handler's test whether to look for work, also without the lock. */
    method TestIdle(judge: Judge) returns (idle: bool)
      requires Valid() && judge in judges
      modifies `pending
      ensures Valid() && idle == Idle(judge.Info())
      ensures Abs() == if idle then old(Abs()) else Skip(old(Abs()), judge)
    {
      hide WellMarked, PrioAt, DoublyLinked.Valid, Values;
      idle := judge.working.None?;
      pending := if idle then pending else pending - {judge};
    }

    method UpdateProblems(judge: Judge)
      requires Valid() && judge in judges
      modifies `pending, `nodeMap, `submissionMap, queue, queue.nodes, judge`working
      ensures Valid()
      ensures Abs() == Offer(old(Abs()), judge)
    {
      hide WellMarked, PrioAt, DoublyLinked.Valid, CanJudge, Values, HandleFree;
      pending := pending - {judge};
      assert Abs() == old(Abs()).(pending := old(pending) - {judge});
      HandleFreeJudge(judge);
    }

    method UpdateDisableJudge(name: Option<string>, disabled: bool)
      requires Valid()
      modifies judges
      ensures Valid()
      ensures Abs() == SetDisabled(old(Abs()), name, disabled)
    {
      hide WellMarked, PrioAt, DoublyLinked.Valid, Values;
      var left := judges;
      while left != {}
        invariant left <= judges && Valid()
        invariant forall j :: j in judges ==>
          j.Info() == if j !in left && old(j.name) == name then old(j.Info()).(disabled := disabled) else old(j.Info())
        decreases left
      {
        var judge :| judge in left;
        if judge.name == name {
          judge.disabled := disabled;
        }
        left := left - {judge};
      }
    }

    /** A finish report for a submission that is not running raises a KeyError and changes nothing. */
    method OnJudgeFree(judge: Judge, submission: SubId) returns (ok: bool)
      requires Valid() && judge in judges
      modifies `nodeMap, `submissionMap, queue, queue.nodes, judge`working
      ensures Valid()
      ensures ok == Finish(old(Abs()), judge, submission).Some?
      ensures Abs() == if ok then Finish(old(Abs()), judge, submission).value else old(Abs())
    {
      hide WellMarked, PrioAt, DoublyLinked.Valid, CanJudge, Values, HandleFree;
      if submission !in submissionMap {
        return false;
      }
      submissionMap := submissionMap - {submission};
      judge.working := None;
      assert Infos() == old(Infos())[judge := old(Infos())[judge].(working := None)];
      HandleFreeJudge(judge);
      ok := true;
    }

    /** If one judge is left and it is idle, it is given work. */
    method WakeLast()
      requires Valid()
      modifies `nodeMap, `submissionMap, queue, queue.nodes, judges
      ensures Valid()
      ensures Abs() == Wake(old(Abs()))
    {
      hide WellMarked, PrioAt, DoublyLinked.Valid, CanJudge, Values, HandleFree;
      assert Infos().Keys == judges;
      if |judges| == 1 {
        OnlyOne(judges);
        var last :| last in judges;
        if last.working.None? {
          HandleFreeJudge(last);
        }
      }
    }

    method Remove(judge: Judge)
      requires Valid()
      requires judge !in judges ==> judge.working.None? && judge !in pending
      modifies `judges, `nodeMap, `submissionMap, `pending, queue, queue.nodes, judges
      ensures Valid()
      ensures Abs() == Scheduler.Remove(old(Abs()), judge)
    {
      hide WellMarked, PrioAt, DoublyLinked.Valid, CanJudge, Values, HandleFree, Wake;
      if judge.working.Some? {
        submissionMap := submissionMap - {judge.working.value};
      }
      judges := judges - {judge};
      pending := pending - {judge};
      assert Infos() == old(Infos()) - {judge};
      if judge !in old(judges) { assert Infos() == old(Infos()) && pending == old(pending); }
      WakeLast();
    }

    /** The index of a node in the list. */
    ghost function At(node: Node): (k: nat)
      requires Valid() && node in queue.nodes
      reads this, queue, queue.nodes
      ensures k < |queue.nodes| && queue.nodes[k] == node
    {
      var k :| 0 <= k < |queue.nodes| && queue.nodes[k] == node;
      k
    }

    lemma AtWaits(id: SubId)
      requires Valid() && id in nodeMap
      ensures Waiting(Values(queue.nodes), id)
      ensures At(nodeMap[id]) == WaitPos(Values(queue.nodes), id)
    {
      hide WellMarked, PrioAt, DoublyLinked.Valid;
      NodeOf(id);
      Distinct();
      var q := Values(queue.nodes);
      assert WaitsAt(q, At(nodeMap[id]), id) && WaitsAt(q, WaitPos(q, id), id);
    }

    /** Returns whether a judge was told to stop. */
    method Abort(submission: SubId) returns (aborted: bool)
      requires Valid()
      modifies `nodeMap, queue, queue.nodes
      ensures Valid()
      ensures aborted == (submission in old(submissionMap))
      ensures Abs() == Scheduler.Abort(old(Abs()), submission)
    {
      hide WellMarked, PrioAt, DoublyLinked.Valid, Values, Waiting, WaitPos, RemoveAt;
      if submission in submissionMap {
        return true;
      }
      NodeOf(submission);
      if submission in nodeMap {
        AtWaits(submission);
        Unlist(nodeMap[submission], At(nodeMap[submission]));
      }
      aborted := false;
    }

    /** One of the judges reporting least load. */
    method LeastLoad(js: set<Judge>) returns (best: Judge)
      requires js != {}
      ensures best in js && forall j :: j in js ==> best.load <= j.load
    {
      best :| best in js;
      var left := js - {best};
      while left != {}
        invariant left <= js && best in js
        invariant forall j :: j in js && j !in left ==> best.load <= j.load
        decreases left
      {
        var j :| j in left;
        if j.load < best.load {
          best := j;
        }
        left := left - {j};
      }
    }

    lemma MarkerAt(p: int)
      requires Valid() && 0 <= p < PRIORITIES
      ensures Marker(p) in Values(queue.nodes)
      ensures At(priority[p]) == MarkerPos(Values(queue.nodes), p)
    {
      hide PrioAt, DoublyLinked.Valid;
      var q := Values(queue.nodes);
      assert q[At(priority[p])] == Marker(p);
      MarkerUnique(q, At(priority[p]), MarkerPos(q, p));
    }

    method Enlist(sub: Submission, p: int)
      requires Valid() && 0 <= p < PRIORITIES && sub.id !in nodeMap
      modifies `nodeMap, queue, queue.nodes
      ensures Valid()
      ensures Marker(p) in Values(old(queue.nodes))
      ensures Values(queue.nodes)
           == InsertAt(Values(old(queue.nodes)), MarkerPos(Values(old(queue.nodes)), p), Item(sub))
    {
      hide WellMarked, PrioAt, DoublyLinked.Valid, Values, InsertAt, MarkerPos;
      MarkerAt(p);
      ghost var k := At(priority[p]);
      ghost var before := queue.nodes;
      var n := queue.InsertBefore(Item(sub), priority[p], k);
      ValuesInsert(before, k, n);
      InsertWellMarked(Values(before), k, sub);
      nodeMap := nodeMap[sub.id := n];
    }

    /** The judges that may be given the submission now. */
    method FindAvailable(sub: Submission, p: int) returns (available: set<Judge>)
      ensures available == Choices(Infos(), sub, p)
    {
      hide CanJudge;
      var candidates := set j | j in judges && CanJudge(j.Info(), sub);
      available := set j | j in candidates && j.working.None? && !j.disabled;
      assert candidates == Candidates(Infos(), sub) && available == Available(Infos(), sub);
      if |candidates| > 1 && |available| == 1 && p >= REJUDGE_PRIORITY {
        available := {};
      }
    }

    method DispatchDirect(judge: Judge, id: SubId)
      requires Valid() && judge in judges
      modifies `submissionMap, judge`working
      ensures Valid()
      ensures Abs() == Dispatch(old(Abs()), id, judge)
    {
      hide WellMarked, DoublyLinked.Valid, Values;
      submissionMap := submissionMap[id := judge];
      judge.Submit(id);
      assert Infos() == old(Infos())[judge := old(Infos())[judge].(working := Some(id))];
    }

    method JudgeSubmission(sub: Submission, p: int) returns (ghost choice: Option<Judge>)
      requires Valid() && 0 <= p < PRIORITIES
      modifies `nodeMap, `submissionMap, queue, queue.nodes, judges
      ensures Valid()
      ensures !Known(old(Abs()), sub.id) ==> LegalChoice(old(Abs()), sub, p, choice)
      ensures Abs() == Submit(old(Abs()), sub, p, choice)
    {
      hide PrioAt, WellMarked, DoublyLinked.Valid, CanJudge, Values, MarkerPos, InsertAt, Waiting, Dispatch, Choices;
      choice := None;
      NodeOf(sub.id);
      if sub.id in submissionMap || sub.id in nodeMap {
        return;
      }
      var available := FindAvailable(sub, p);
      if available != {} {
        ChoicesThere(Infos(), sub, p);
        var judge := LeastLoad(available);
        choice := Some(judge);
        DispatchDirect(judge, sub.id);
      } else {
        Enlist(sub, p);
        assert Infos() == old(Infos());
      }
    }
  }

  lemma ChoicesThere(infos: map<Judge, Info>, sub: Submission, p: int)
    ensures Choices(infos, sub, p) <= infos.Keys
  {}
}
