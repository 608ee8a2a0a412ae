/** Linked lists through a next field of the element itself, as the mailbox's messages and the ready
    queue's actors are linked, and the head/tail FIFO cache both are popped from. */
module IntrusiveList {

  class Node<T> {
    const item: T
    var next: Node?<T>

    constructor (item: T)
      ensures this.item == item && next == null
    {
      this.item := item;
      next := null;
    }
  }

  /** Following next from p visits exactly xs and arrives at q. */
  ghost predicate Segment<T>(p: Node?<T>, xs: seq<Node<T>>, q: Node?<T>)
    reads xs
  {
    if xs == [] then p == q else p == xs[0] && Segment(xs[0].next, xs[1..], q)
  }

  ghost predicate Linked<T>(p: Node?<T>, xs: seq<Node<T>>)
    reads xs
  {
    Segment(p, xs, null)
  }

  lemma {:induction false} Joined<T>(p: Node?<T>, xs: seq<Node<T>>, q: Node?<T>, ys: seq<Node<T>>, r: Node?<T>)
    requires Segment(p, xs, q) && Segment(q, ys, r)
    ensures Segment(p, xs + ys, r)
  {
    if xs == [] {
      assert xs + ys == ys;
    } else {
      Joined(xs[0].next, xs[1..], q, ys, r);
      assert (xs + ys)[1..] == xs[1..] + ys;
    }
  }

  lemma {:induction false} SplitAt<T>(p: Node?<T>, xs: seq<Node<T>>, r: Node?<T>, k: nat)
    requires Segment(p, xs, r) && k < |xs|
    ensures Segment(p, xs[..k], xs[k]) && Segment(xs[k], xs[k..], r)
  {
    if k > 0 {
      SplitAt(xs[0].next, xs[1..], r, k - 1);
      assert xs[..k][1..] == xs[1..][..k - 1];
      assert xs[k..] == xs[1..][k - 1..];
    }
  }

  lemma {:induction false} SameLength<T>(p: Node?<T>, xs: seq<Node<T>>, ys: seq<Node<T>>)
    requires Linked(p, xs) && Linked(p, ys)
    ensures |xs| == |ys|
  {
    if xs != [] && ys != [] { SameLength(xs[0].next, xs[1..], ys[1..]); }
  }

  /** A list that ends has no cycle and meets no node twice. */
  lemma LinkedDistinct<T>(p: Node?<T>, xs: seq<Node<T>>, i: nat, j: nat)
    requires Linked(p, xs) && i < j < |xs|
    ensures xs[i] != xs[j]
  {
    SplitAt(p, xs, null, i);
    SplitAt(p, xs, null, j);
    if xs[i] == xs[j] { SameLength(xs[i], xs[i..], xs[j..]); }
  }

  lemma LinkedFirst<T>(p: Node?<T>, xs: seq<Node<T>>)
    requires Linked(p, xs) && xs != []
    ensures xs[0] !in xs[1..]
  {
    forall j | 0 < j < |xs| ensures xs[0] != xs[j] { LinkedDistinct(p, xs, 0, j); }
  }

  lemma LinkedLast<T>(p: Node?<T>, xs: seq<Node<T>>)
    requires Linked(p, xs) && xs != []
    ensures Last(xs) !in xs[..|xs| - 1]
    ensures Segment(p, xs[..|xs| - 1], Last(xs))
  {
    SplitAt(p, xs, null, |xs| - 1);
    forall i | 0 <= i < |xs| - 1 ensures xs[i] != Last(xs) { LinkedDistinct(p, xs, i, |xs| - 1); }
  }

  predicate Apart<T>(xs: seq<Node<T>>, ys: seq<Node<T>>) {
    forall i :: 0 <= i < |xs| ==> xs[i] !in ys
  }

  predicate Within<T>(xs: seq<Node<T>>, ys: seq<Node<T>>, zs: seq<Node<T>>) {
    forall i :: 0 <= i < |xs| ==> xs[i] in ys || xs[i] in zs
  }

  function Last<T>(xs: seq<Node<T>>): Node?<T> {
    if xs == [] then null else xs[|xs| - 1]
  }

  // ---------------------------------------------------------------- nodes that threads push meanwhile

  /** No node twice. */
  predicate Newcomers<T>(nodes: seq<Node?<T>>) {
    forall i, j :: 0 <= i < j < |nodes| && nodes[i] != null ==> nodes[i] != nodes[j]
  }

  lemma NewcomersDiffer<T>(node: Node<T>, rivals: seq<Node?<T>>, i: nat)
    requires Newcomers([node] + rivals) && i < |rivals| && rivals[i] != null
    ensures rivals[i] != node
    ensures forall k :: i < k < |rivals| ==> rivals[k] != rivals[i]
  {
    var all := [node] + rivals;
    assert all[0] == node;
    assert forall k :: 0 <= k < |rivals| ==> all[k + 1] == rivals[k];
  }

  function Present<T>(nodes: seq<Node?<T>>): seq<Node<T>> {
    if nodes == [] then []
    else Present(nodes[..|nodes| - 1]) + if nodes[|nodes| - 1] == null then [] else [nodes[|nodes| - 1]]
  }

  lemma PresentAppend<T>(nodes: seq<Node?<T>>, n: Node?<T>)
    ensures Present(nodes + [n]) == Present(nodes) + if n == null then [] else [n]
  {
    assert (nodes + [n])[..|nodes|] == nodes;
  }

  lemma PresentNext<T>(nodes: seq<Node?<T>>, i: nat)
    requires i < |nodes|
    ensures Present(nodes[..i + 1]) == Present(nodes[..i]) + if nodes[i] == null then [] else [nodes[i]]
  {
    assert nodes[..i + 1] == nodes[..i] + [nodes[i]];
    PresentAppend(nodes[..i], nodes[i]);
  }

  class Fifo<T> {
    var head: Node?<T>
    var tail: Node?<T>
    ghost var items: seq<Node<T>>

    ghost predicate Valid()
      reads this, items
    {
      Linked(head, items) && tail == Last(items)
    }

    constructor ()
      ensures Valid() && items == []
    {
      head, tail, items := null, null, [];
    }

    /** The append step of fetch_more: hang a whole linked list behind the cached one. */
    method Append(first: Node?<T>, last: Node?<T>, ghost xs: seq<Node<T>>)
      requires Valid() && Linked(first, xs) && last == Last(xs) && Apart(items, xs)
      modifies this, tail
      ensures Valid() && items == old(items) + xs
    {
      if first == null { return; }
      if tail == null {
        assert items + xs == xs;
        head := first;
      } else {
        LinkedLast(head, items);
        ghost var front := items[..|items| - 1];
        assert items == front + [tail] && tail in items;
        tail.next := first;
        assert Segment(head, front, tail);
        assert Segment(tail, [tail], first);
        Joined(head, front, tail, [tail], first);
        Joined(head, items, first, xs, null);
      }
      tail := last;
      items := items + xs;
    }

    method Clear()
      modifies this
      ensures Valid() && items == []
    {
      head, tail, items := null, null, [];
    }

    /** Unlink the oldest node. */
    method TakeFirst() returns (node: Node<T>)
      requires Valid() && items != []
      modifies this, head
      ensures Valid() && [node] + items == old(items) && node.next == null && node !in items
    {
      LinkedFirst(head, items);
      node := head;
      head := node.next;
      if head == null { tail := null; }
      node.next := null;
      items := items[1..];
    }
  }
}
