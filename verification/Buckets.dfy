/** A bucket's nodes in memory: the list walk of a put, which splices one node into a chain of
    next pointers in place. */
module Buckets {
  import opened Calendar

  class QueueNode<P(!new)> {
    const entry: Entry<P>
    var next: QueueNode?<P>

    constructor (entry: Entry<P>)
      ensures this.entry == entry && next == null
    {
      this.entry := entry;
      next := null;
    }
  }

  function Follower<P(!new)>(spine: seq<QueueNode<P>>, i: nat): QueueNode?<P> {
    if i < |spine| then spine[i] else null
  }

  /** spine are the nodes that the next pointers lead through from head on. */
  ghost predicate Chain<P(!new)>(head: QueueNode?<P>, spine: seq<QueueNode<P>>)
    reads spine
  {
    && head == Follower(spine, 0)
    && (forall i, j :: 0 <= i < j < |spine| ==> spine[i] != spine[j])
    && forall i {:trigger spine[i].next} :: 0 <= i < |spine| ==> spine[i].next == Follower(spine, i + 1)
  }

  /** The list such nodes stand for. */
  ghost function AsList<P(!new)>(spine: seq<QueueNode<P>>): List<P> {
    if spine == [] then Nil else Node(spine[0].entry, AsList(spine[1..]))
  }

  ghost function With<P(!new)>(spine: seq<QueueNode<P>>, k: nat, n: QueueNode<P>): seq<QueueNode<P>>
    requires k <= |spine|
  {
    spine[..k] + [n] + spine[k..]
  }

  /** Behind the nodes that are not later, before one that is: there the list has the new entry. */
  lemma {:induction false} InsertedAt<P(!new)>(spine: seq<QueueNode<P>>, k: nat, n: QueueNode<P>)
    requires k <= |spine| && forall i :: 0 <= i < k ==> spine[i].entry.priority <= n.entry.priority
    requires k < |spine| ==> spine[k].entry.priority > n.entry.priority
    ensures AsList(With(spine, k, n)) == Insert(AsList(spine), n.entry)
  {
    var more := With(spine, k, n);
    if k == 0 {
      assert more[1..] == spine;
    } else {
      assert more[1..] == With(spine[1..], k - 1, n);
      InsertedAt(spine[1..], k - 1, n);
    }
  }

  /** Walking past the nodes that are not later, to the last of them. */
  method Walk<P(!new)>(head: QueueNode<P>, ghost spine: seq<QueueNode<P>>, priority: real)
    returns (traverse: QueueNode<P>, ghost k: nat)
    requires Chain(head, spine) && head.entry.priority <= priority
    ensures 1 <= k <= |spine| && traverse == spine[k - 1]
    ensures forall i :: 0 <= i < k ==> spine[i].entry.priority <= priority
    ensures k < |spine| ==> spine[k].entry.priority > priority
  {
    traverse := head;
    k := 1;
    while traverse.next != null && traverse.next.entry.priority <= priority
      invariant 1 <= k <= |spine| && traverse == spine[k - 1]
      invariant forall i :: 0 <= i < k ==> spine[i].entry.priority <= priority
      decreases |spine| - k
    {
      traverse := traverse.next;
      k := k + 1;
    }
  }

  /** Linking a node behind the k-th of a chain. */
  method LinkBehind<P(!new)>(head: QueueNode<P>, ghost spine: seq<QueueNode<P>>, traverse: QueueNode<P>, ghost k: nat, node: QueueNode<P>)
    requires Chain(head, spine) && 1 <= k <= |spine| && traverse == spine[k - 1] && node !in spine
    modifies traverse`next, node`next
    ensures Chain(head, With(spine, k, node))
  {
    node.next := traverse.next;
    traverse.next := node;
    ghost var more := With(spine, k, node);
    forall i | 0 <= i < |more| ensures more[i].next == Follower(more, i + 1) {
      if i < k - 1 {
        assert more[i] == spine[i] && spine[i] != traverse;
      } else if i > k {
        assert more[i] == spine[i - 1] && spine[i - 1] != traverse;
      }
    }
  }

  /** Linking a node before a chain. */
  method LinkFirst<P(!new)>(head: QueueNode?<P>, ghost spine: seq<QueueNode<P>>, node: QueueNode<P>)
    requires Chain(head, spine) && node !in spine
    modifies node`next
    ensures Chain(node, With(spine, 0, node))
  {
    node.next := head;
    ghost var more := With(spine, 0, node);
    forall i | 0 <= i < |more| ensures more[i].next == Follower(more, i + 1) {
      assert i > 0 ==> more[i] == spine[i - 1];
    }
  }

  /** The list part of a put: all nodes stay, and stay in order, and the new one is where it
      belongs. Only next pointers of this chain change. */
  method SpliceIn<P(!new)>(head: QueueNode?<P>, ghost spine: seq<QueueNode<P>>, e: Entry<P>)
    returns (first: QueueNode<P>, node: QueueNode<P>, ghost k: nat)
    requires Chain(head, spine)
    modifies spine`next
    ensures k <= |spine| && fresh(node) && node.entry == e && Chain(first, With(spine, k, node))
    ensures AsList(With(spine, k, node)) == Insert(AsList(spine), e)
  {
    node := new QueueNode(e);
    if head == null || head.entry.priority > e.priority {
      k := 0;
      LinkFirst(head, spine, node);
      first := node;
    } else {
      var traverse;
      traverse, k := Walk(head, spine, e.priority);
      LinkBehind(head, spine, traverse, k, node);
      first := head;
    }
    InsertedAt(spine, k, node);
  }

  /** What a dequeue does: the head goes, and its successor is the new head. */
  method Unlink<P(!new)>(head: QueueNode<P>, ghost spine: seq<QueueNode<P>>) returns (rest: QueueNode?<P>)
    requires Chain(head, spine)
    ensures Chain(rest, spine[1..]) && AsList(spine) == Node(head.entry, AsList(spine[1..]))
  {
    rest := head.next;
    assert spine[0].next == Follower(spine, 1);
  }
}
