/** A doubly linked list with stable nodes, as judge/bridge/judge_list.py uses one: append, insert before a node,
    remove a node, walk from the first. */
module LinkedList {
  import opened JudgeQueue

  class Node {
    const value: Entry
    var prev: Node?
    var next: Node?

    constructor (value: Entry)
      ensures this.value == value && prev == null && next == null
    {
      this.value := value;
      prev, next := null, null;
    }
  }

  ghost function Values(nodes: seq<Node>): (r: seq<Entry>)
    ensures |r| == |nodes|
  {
    seq(|nodes|, i requires 0 <= i < |nodes| => nodes[i].value)
  }

  lemma ValuesRemove(nodes: seq<Node>, k: nat)
    requires k < |nodes|
    ensures Values(nodes)[k] == nodes[k].value
    ensures Values(nodes[..k] + nodes[k + 1..]) == RemoveAt(Values(nodes), k)
  {}

  lemma ValuesInsert(nodes: seq<Node>, k: nat, n: Node)
    requires k <= |nodes|
    ensures Values(nodes[..k] + [n] + nodes[k..]) == InsertAt(Values(nodes), k, n.value)
  {}

  class DoublyLinked {
    var first: Node?
    var last: Node?
    ghost var nodes: seq<Node>

    ghost predicate Valid()
      reads this, nodes
    {
      && (forall i, j :: 0 <= i < j < |nodes| ==> nodes[i] != nodes[j])
      && (if nodes == [] then first == null && last == null
          else
            && first == nodes[0] && nodes[0].prev == null
            && last == nodes[|nodes| - 1] && nodes[|nodes| - 1].next == null
            && (forall i {:trigger nodes[i].prev} :: 1 <= i < |nodes| ==> nodes[i].prev == nodes[i - 1])
            && (forall i {:trigger nodes[i].next} :: 0 <= i < |nodes| - 1 ==> nodes[i].next == nodes[i + 1]))
    }

    lemma NextOf(k: nat)
      requires Valid() && k < |nodes|
      ensures nodes[k].next == if k + 1 < |nodes| then nodes[k + 1] else null
    {
      if k + 1 < |nodes| { assert nodes[k].next == nodes[k + 1]; }
    }

    lemma FirstOf()
      requires Valid()
      ensures first == if nodes == [] then null else nodes[0]
    {}

    constructor ()
      ensures Valid() && nodes == []
    {
      first, last := null, null;
      nodes := [];
    }

    method Append(value: Entry) returns (n: Node)
      requires Valid()
      modifies this, last
      ensures Valid() && fresh(n) && n.value == value
      ensures nodes == old(nodes) + [n]
    {
      n := new Node(value);
      if last == null {
        first := n;
      } else {
        n.prev := last;
        last.next := n;
      }
      last := n;
      nodes := nodes + [n];
    }

    method InsertBefore(value: Entry, node: Node, ghost k: nat) returns (n: Node)
      requires Valid() && k < |nodes| && nodes[k] == node
      modifies this, nodes
      ensures Valid() && fresh(n) && n.value == value
      ensures nodes == old(nodes)[..k] + [n] + old(nodes)[k..]
    {
      n := new Node(value);
      n.prev := node.prev;
      n.next := node;
      if node.prev == null {
        first := n;
      } else {
        node.prev.next := n;
      }
      node.prev := n;
      nodes := nodes[..k] + [n] + nodes[k..];
    }

    method Remove(node: Node, ghost k: nat)
      requires Valid() && k < |nodes| && nodes[k] == node
      modifies this, nodes
      ensures Valid()
      ensures nodes == old(nodes)[..k] + old(nodes)[k + 1..]
      ensures forall n :: n in nodes <==> n in old(nodes) && n != node
    {
      forall n | n in nodes && n != node ensures n in nodes[..k] + nodes[k + 1..] {
        var i :| 0 <= i < |nodes| && nodes[i] == n;
        assert n == (nodes[..k] + nodes[k + 1..])[if i < k then i else i - 1];
      }
      if node.prev == null {
        first := node.next;
      } else {
        node.prev.next := node.next;
      }
      if node.next == null {
        last := node.prev;
      } else {
        node.next.prev := node.prev;
      }
      nodes := nodes[..k] + nodes[k + 1..];
    }
  }
}
