/** A worker's queue of actors ready to run: the mailbox's algorithm without tags. It is FIFO in push
    order across all producers. */
module ReadyQueue {

  import opened IntrusiveList

  datatype Actor = Actor(id: nat)

  function Backwards(xs: seq<Node<Actor>>): seq<Node<Actor>> {
    if xs == [] then [] else Backwards(xs[1..]) + [xs[0]]
  }

  /** fetch_more's loop on values: each node goes in front of the newer ones. */
  function Onto(rest: seq<Node<Actor>>, acc: seq<Node<Actor>>): seq<Node<Actor>> {
    if rest == [] then acc else Onto(rest[1..], [rest[0]] + acc)
  }

  lemma {:induction false} OntoBackwards(rest: seq<Node<Actor>>, acc: seq<Node<Actor>>)
    ensures Onto(rest, acc) == Backwards(rest) + acc
  {
    if rest == [] {
      assert [] + acc == acc;
    } else {
      OntoBackwards(rest[1..], [rest[0]] + acc);
      assert Backwards(rest[1..]) + ([rest[0]] + acc) == Backwards(rest) + acc;
    }
  }

  lemma {:induction false} BackwardsEnds(xs: seq<Node<Actor>>)
    ensures |Backwards(xs)| == |xs|
    ensures xs != [] ==> Last(Backwards(xs)) == xs[0]
    ensures Within(Backwards(xs), xs, []) && Within(xs, Backwards(xs), [])
  {
    if xs != [] { BackwardsEnds(xs[1..]); }
  }

  /** Reverse a newest-first list in place. */
  method Reverse(top: Node?<Actor>, ghost taken: seq<Node<Actor>>) returns (first: Node?<Actor>)
    requires Linked(top, taken)
    modifies taken
    ensures Linked(first, Onto(taken, []))
  {
    first := null;
    var node := top;
    ghost var rest: seq<Node<Actor>>, acc: seq<Node<Actor>> := taken, [];
    while node != null
      invariant forall i :: 0 <= i < |rest| ==> rest[i] in taken
      invariant Onto(rest, acc) == Onto(taken, [])
      invariant Linked(node, rest) && Linked(first, acc) && Apart(acc, rest)
      decreases |rest|
    {
      LinkedFirst(node, rest);
      ghost var more := rest[1..];
      assert rest == [node] + more && node !in acc;
      var next := node.next;
      node.next := first;
      assert Linked(first, acc) && Linked(next, more);
      assert ([node] + acc)[1..] == acc;
      acc, rest := [node] + acc, more;
      first := node;
      node := next;
    }
  }

  class ReadyQueue {
    var stack: Node?<Actor>
    const cache: Fifo<Actor>
    ghost var pushed: seq<Node<Actor>>  // newest first

    ghost predicate Valid()
      reads this, cache, cache.items, pushed
    {
      cache.Valid() && Linked(stack, pushed) && Apart(cache.items, pushed)
    }

    /** The waiting actors in the order they were pushed. */
    ghost function Waiting(): seq<Node<Actor>>
      reads this, cache
    {
      cache.items + Backwards(pushed)
    }

    constructor ()
      ensures Valid() && Waiting() == [] && fresh(cache)
    {
      stack, pushed := null, [];
      cache := new Fifo();
    }

    ghost predicate Queued(n: Node<Actor>)
      reads this`pushed, cache
    {
      n in cache.items || n in pushed
    }

    /** A successful exchange: node, linked to the top, becomes the top. */
    method Publish(node: Node<Actor>)
      requires Valid() && !Queued(node) && node.next == stack
      modifies this`stack, this`pushed
      ensures Valid() && Waiting() == old(Waiting()) + [node] && pushed == [node] + old(pushed)
    {
      ghost var before := pushed;
      stack, pushed := node, [node] + pushed;
      assert pushed[1..] == before;
    }

    method LinkToTop(node: Node<Actor>)
      requires Valid() && !Queued(node)
      modifies node
      ensures Valid() && node.next == stack
    {
      node.next := stack;
      assert Linked(cache.head, cache.items) && Linked(stack, pushed);
    }

    /** After i failed exchanges node is linked to the top again, and the rivals so far wait. */
    ghost predicate Trying(node: Node<Actor>, rivals: seq<Node?<Actor>>, i: nat, start: seq<Node<Actor>>)
      reads this, node, cache, cache.items, pushed
    {
      && i <= |rivals|
      && Valid() && !Queued(node) && node.next == stack
      && Waiting() == start + Present(rivals[..i])
      && forall k :: i <= k < |rivals| && rivals[k] != null ==> !Queued(rivals[k])
    }

    /** One failed exchange: a rival was first, or there was no reason. */
    method Retry(node: Node<Actor>, rivals: seq<Node?<Actor>>, i: nat, ghost start: seq<Node<Actor>>)
      requires i < |rivals| && Trying(node, rivals, i, start) && Newcomers([node] + rivals)
      modifies this`stack, this`pushed, node, rivals[i]
      ensures Trying(node, rivals, i + 1, start)
    {
      PresentNext(rivals, i);
      if rivals[i] != null {
        NewcomersDiffer(node, rivals, i);
        Yield(node, rivals[i]);
      }
    }

    /** An actor is pushed only while it is not queued. An exchange of the top fails when another thread
        has pushed in between (a rival), or for no reason (null); then the top is loaded again. */
    method Push(node: Node<Actor>, rivals: seq<Node?<Actor>>)
      requires Valid() && !Queued(node) && Newcomers([node] + rivals)
      requires forall i :: 0 <= i < |rivals| && rivals[i] != null ==> !Queued(rivals[i])
      modifies this`stack, this`pushed, node, rivals
      ensures Valid() && Waiting() == old(Waiting()) + Present(rivals) + [node]
    {
      ghost var start := Waiting();
      LinkToTop(node);
      assert start + Present(rivals[..0]) == start;
      var i := 0;
      while i < |rivals|
        invariant i <= |rivals| && Trying(node, rivals, i, start)
      {
        Retry(node, rivals, i, start);
        i := i + 1;
      }
      assert rivals[..i] == rivals;
      Publish(node);
    }

    /** Another thread pushes first; node is linked to the new top. */
    method Yield(node: Node<Actor>, rival: Node<Actor>)
      requires Valid() && !Queued(node) && !Queued(rival) && rival != node
      modifies this`stack, this`pushed, node, rival
      ensures Valid() && Waiting() == old(Waiting()) + [rival] && pushed == [rival] + old(pushed)
      ensures node.next == stack
    {
      LinkToTop(rival);
      Publish(rival);
      LinkToTop(node);
    }

    method FetchMore() returns (some: bool)
      requires Valid()
      modifies this, cache, cache.items, pushed
      ensures Valid() && Waiting() == old(Waiting()) && cache.items == Waiting()
      ensures some <==> old(pushed) != []
      ensures Within(cache.items, old(cache.items), old(pushed))
    {
      ghost var taken := pushed;
      var last := stack;
      stack, pushed := null, [];
      if last == null { return false; }
      var first := Reverse(last, taken);
      assert Linked(cache.head, cache.items);
      OntoBackwards(taken, []);
      BackwardsEnds(taken);
      assert Onto(taken, []) == Backwards(taken);
      cache.Append(first, last, Backwards(taken));
      return true;
    }

    /** The actor that has waited longest, or null when none waits. */
    method Pop() returns (node: Node?<Actor>)
      requires Valid()
      modifies this, cache, cache.items, pushed
      ensures Valid()
      ensures old(Waiting()) == [] ==> node == null && Waiting() == []
      ensures old(Waiting()) != [] ==> node != null && [node] + Waiting() == old(Waiting())
      ensures node != null ==> node.next == null && node !in cache.items && node !in pushed
    {
      if cache.head == null {
        var some := FetchMore();
        if !some { return null; }
      }
      node := cache.TakeFirst();
    }

    method MaybeNonempty() returns (some: bool)
      requires Valid()
      ensures some <==> Waiting() != []
    {
      BackwardsEnds(pushed);
      some := cache.head != null || stack != null;
    }
  }
}
