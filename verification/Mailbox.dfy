/** The mailbox data structure, pointer by pointer: a tagged LIFO stack that producers push on and
    two linked FIFO caches, one for calls and one for everything else, that its owner pops from.
    Every operation refines a plain pair of FIFO queues with an open/blocked/closed status. */
module Mailbox {

  import opened Common
  import opened IntrusiveList

  // ---------------------------------------------------------------- the plain pair of queues

  datatype Status = Open | Blocked | Closed

  datatype Box = Box(status: Status, calls: seq<Node<Kind>>, others: seq<Node<Kind>>)

  datatype PushResult = Success | Unblocked | Refused

  function Size(b: Box): nat {
    |b.calls| + |b.others|
  }

  function Pushed(b: Box, n: Node<Kind>): Box {
    if b.status.Closed? then b
    else if n.item.Call? then Box(Open, b.calls + [n], b.others)
    else Box(Open, b.calls, b.others + [n])
  }

  lemma PoppedSizes(b: Box)
    requires Front(b) != null
    ensures |Popped(b).calls| == |b.calls| - if b.calls != [] then 1 else 0
    ensures |Popped(b).others| == |b.others| - if b.calls != [] then 0 else 1
  {
  }

  function PushedAll(b: Box, nodes: seq<Node<Kind>>): Box {
    if nodes == [] then b else Pushed(PushedAll(b, nodes[..|nodes| - 1]), nodes[|nodes| - 1])
  }

  lemma PushedAllAppend(b: Box, nodes: seq<Node<Kind>>, n: Node<Kind>)
    ensures PushedAll(b, nodes + [n]) == Pushed(PushedAll(b, nodes), n)
  {
    assert (nodes + [n])[..|nodes|] == nodes;
  }

  lemma {:induction false} PushedAllClosed(b: Box, nodes: seq<Node<Kind>>)
    ensures PushedAll(b, nodes).status.Closed? <==> b.status.Closed?
    ensures b.status.Closed? ==> PushedAll(b, nodes) == b
  {
    if nodes != [] { PushedAllClosed(b, nodes[..|nodes| - 1]); }
  }

  /** How many of these nodes are of one kind. */
  function Tally(nodes: seq<Node<Kind>>, call: bool): nat {
    if nodes == [] then 0
    else Tally(nodes[..|nodes| - 1], call) + if nodes[|nodes| - 1].item.Call? == call then 1 else 0
  }

  lemma TallyAppend(nodes: seq<Node<Kind>>, n: Node<Kind>, call: bool)
    ensures Tally(nodes + [n], call) == Tally(nodes, call) + if n.item.Call? == call then 1 else 0
  {
    assert (nodes + [n])[..|nodes|] == nodes;
  }

  lemma {:induction false} PushedAllSizes(b: Box, nodes: seq<Node<Kind>>)
    requires !b.status.Closed?
    ensures |PushedAll(b, nodes).calls| == |b.calls| + Tally(nodes, true)
    ensures |PushedAll(b, nodes).others| == |b.others| + Tally(nodes, false)
  {
    if nodes != [] {
      PushedAllClosed(b, nodes[..|nodes| - 1]);
      PushedAllSizes(b, nodes[..|nodes| - 1]);
    }
  }

  /** The nodes of one kind, in their order. */
  function Kinded(nodes: seq<Node<Kind>>, call: bool): seq<Node<Kind>> {
    if nodes == [] then [] else Kinded(nodes[..|nodes| - 1], call) + Only(nodes[|nodes| - 1], call)
  }

  lemma KindedAppend(nodes: seq<Node<Kind>>, n: Node<Kind>, call: bool)
    ensures Kinded(nodes + [n], call) == Kinded(nodes, call) + Only(n, call)
  {
    assert (nodes + [n])[..|nodes|] == nodes;
  }

  function Queue(b: Box, call: bool): seq<Node<Kind>> {
    if call then b.calls else b.others
  }

  /** Whatever is pushed goes behind what is queued of its kind, and leaves the mailbox open. */
  lemma {:induction false} PushedAllQueues(b: Box, nodes: seq<Node<Kind>>, call: bool)
    requires !b.status.Closed?
    ensures Queue(PushedAll(b, nodes), call) == Queue(b, call) + Kinded(nodes, call)
    ensures PushedAll(b, nodes).status == if nodes == [] then b.status else Open
  {
    if nodes != [] {
      PushedAllClosed(b, nodes[..|nodes| - 1]);
      PushedAllQueues(b, nodes[..|nodes| - 1], call);
    }
  }

  lemma PushedLast(b: Box, nodes: seq<Node<Kind>>, n: Node<Kind>)
    requires !b.status.Closed?
    ensures var after := Pushed(PushedAll(b, nodes), n);
            && after.status.Open?
            && after.calls == b.calls + Kinded(nodes, true) + Only(n, true)
            && after.others == b.others + Kinded(nodes, false) + Only(n, false)
  {
    PushedAllClosed(b, nodes);
    PushedAllQueues(b, nodes, true);
    PushedAllQueues(b, nodes, false);
  }

  lemma NextPushed(b: Box, rivals: seq<Node?<Kind>>, i: nat)
    requires i < |rivals|
    ensures PushedAll(b, Present(rivals[..i + 1]))
         == var before := PushedAll(b, Present(rivals[..i])); if rivals[i] == null then before else Pushed(before, rivals[i])
  {
    PresentNext(rivals, i);
    if rivals[i] == null {
      assert Present(rivals[..i]) + [] == Present(rivals[..i]);
    } else {
      PushedAllAppend(b, Present(rivals[..i]), rivals[i]);
    }
  }

  lemma NextTally(rivals: seq<Node?<Kind>>, i: nat, call: bool)
    requires i < |rivals|
    ensures Tally(Present(rivals[..i + 1]), call)
         == Tally(Present(rivals[..i]), call) + if rivals[i] != null && rivals[i].item.Call? == call then 1 else 0
  {
    PresentNext(rivals, i);
    if rivals[i] == null {
      assert Present(rivals[..i]) + [] == Present(rivals[..i]);
    } else {
      TallyAppend(Present(rivals[..i]), rivals[i], call);
    }
  }

  /** The next message: calls first, oldest first within a kind. */
  function Front(b: Box): Node?<Kind> {
    if b.calls != [] then b.calls[0] else if b.others != [] then b.others[0] else null
  }

  function Popped(b: Box): Box {
    if b.calls != [] then b.(calls := b.calls[1..])
    else if b.others != [] then b.(others := b.others[1..])
    else b
  }

  lemma FrontIsNext(b: Box)
    requires AllOf(b.calls, true) && AllOf(b.others, false)
    ensures Front(b) == null ==> Size(b) == 0 && Popped(b) == b
    ensures Front(b) != null && Front(b).item.Call? ==> b == Popped(b).(calls := [Front(b)] + Popped(b).calls)
    ensures Front(b) != null && !Front(b).item.Call? ==>
              b.calls == [] && b == Popped(b).(others := [Front(b)] + Popped(b).others)
  {
  }

  predicate AllOf(xs: seq<Node<Kind>>, call: bool) {
    forall i :: 0 <= i < |xs| ==> xs[i].item.Call? == call
  }

  function Only(n: Node<Kind>, call: bool): seq<Node<Kind>> {
    if n.item.Call? == call then [n] else []
  }

  /** The messages of one kind on a newest-first stack, in the order they were pushed. */
  function Arrived(stack: seq<Node<Kind>>, call: bool): seq<Node<Kind>> {
    if stack == [] then [] else Arrived(stack[1..], call) + Only(stack[0], call)
  }

  lemma {:induction false} ArrivedKind(stack: seq<Node<Kind>>, call: bool)
    ensures AllOf(Arrived(stack, call), call)
  {
    if stack != [] { ArrivedKind(stack[1..], call); }
  }

  lemma {:induction false} ArrivedHas(stack: seq<Node<Kind>>, call: bool, n: Node<Kind>)
    ensures n in Arrived(stack, call) <==> n in stack && n.item.Call? == call
  {
    if stack != [] { ArrivedHas(stack[1..], call, n); }
  }

  lemma {:induction false} ArrivedSplits(stack: seq<Node<Kind>>)
    ensures multiset(stack) == multiset(Arrived(stack, true)) + multiset(Arrived(stack, false))
  {
    if stack != [] {
      assert stack == [stack[0]] + stack[1..];
      ArrivedSplits(stack[1..]);
    }
  }

  lemma DroppedAll(calls: seq<Node<Kind>>, others: seq<Node<Kind>>, stack: seq<Node<Kind>>)
    ensures var all: seq<Node<Kind>> := calls + others + stack;
            var first: seq<Node<Kind>> := calls + Arrived(stack, true);
            var second: seq<Node<Kind>> := others + Arrived(stack, false);
            multiset(all) == multiset(first) + multiset(second)
  {
    ArrivedSplits(stack);
  }

  lemma {:induction false} ArrivedAllOf(xs: seq<Node<Kind>>, call: bool)
    requires AllOf(xs, call)
    ensures |Arrived(xs, call)| == |xs| && Arrived(xs, !call) == []
  {
    if xs != [] { ArrivedAllOf(xs[1..], call); }
  }

  lemma ArrivedWithin(stack: seq<Node<Kind>>, call: bool)
    ensures Within(Arrived(stack, call), stack, [])
  {
    forall i | 0 <= i < |Arrived(stack, call)|
      ensures Arrived(stack, call)[i] in stack
    {
      ArrivedHas(stack, call, Arrived(stack, call)[i]);
    }
  }

  lemma ArrivedApart(xs: seq<Node<Kind>>, stack: seq<Node<Kind>>)
    requires Apart(xs, stack)
    ensures Apart(xs, Arrived(stack, true)) && Apart(xs, Arrived(stack, false))
  {
    forall n | n in xs
      ensures n !in Arrived(stack, true) && n !in Arrived(stack, false)
    {
      ArrivedHas(stack, true, n);
      ArrivedHas(stack, false, n);
    }
  }

  /** The reversed stack can be hung behind the two caches. */
  lemma ArrivedFits(calls: seq<Node<Kind>>, others: seq<Node<Kind>>, stack: seq<Node<Kind>>)
    requires AllOf(calls, true) && AllOf(others, false) && Apart(calls, stack) && Apart(others, stack)
    ensures Apart(calls, Arrived(stack, true)) && Apart(calls, Arrived(stack, false))
    ensures Apart(others, Arrived(stack, true)) && Apart(others, Arrived(stack, false))
    ensures Apart(calls, others)
    ensures AllOf(calls + Arrived(stack, true), true) && AllOf(others + Arrived(stack, false), false)
    ensures Within(calls + Arrived(stack, true), calls, stack)
    ensures Within(others + Arrived(stack, false), others, stack)
  {
    ArrivedKind(stack, true);
    ArrivedKind(stack, false);
    ArrivedApart(calls, stack);
    ArrivedApart(others, stack);
    ArrivedWithin(stack, true);
    ArrivedWithin(stack, false);
  }

  // ---------------------------------------------------------------- the mailbox

  datatype Word = EmptyTag | BlockedTag | ClosedTag | Top(node: Node<Kind>)

  function StatusOf(w: Word): Status {
    match w
    case BlockedTag => Blocked
    case ClosedTag => Closed
    case _ => Open
  }

  class Mailbox {
    var word: Word
    const calls: Fifo<Kind>
    const others: Fifo<Kind>
    var callCount: nat
    var otherCount: nat
    ghost var stack: seq<Node<Kind>>  // newest first

    ghost function View(): Box
      reads this`word, this`stack, calls, others
    {
      Box(StatusOf(word), calls.items + Arrived(stack, true), others.items + Arrived(stack, false))
    }

    ghost predicate StackOk()
      reads this`word, this`stack, stack
    {
      if word.Top? then stack != [] && Linked(word.node, stack) else stack == []
    }

    ghost predicate Shape()
      reads this`word, this`stack, calls, others, calls.items, others.items, stack
    {
      && calls != others && calls.Valid() && others.Valid() && StackOk()
      && AllOf(calls.items, true) && AllOf(others.items, false)
      && Apart(calls.items, stack) && Apart(others.items, stack)
      && (word.BlockedTag? || word.ClosedTag? ==> calls.items == [] && others.items == [])
    }

    /** The lists are well formed and, with no operation in flight, both counters are exact. */
    ghost predicate Valid()
      reads this, calls, others, calls.items, others.items, stack
    {
      Shape() && callCount == |View().calls| && otherCount == |View().others|
    }

    constructor ()
      ensures Valid() && View() == Box(Open, [], [])
      ensures fresh(calls) && fresh(others)
    {
      word, callCount, otherCount, stack := EmptyTag, 0, 0, [];
      var c := new Fifo<Kind>();
      var o := new Fifo<Kind>();
      calls, others := c, o;
    }

    ghost predicate Queued(n: Node<Kind>)
      reads this`stack, calls, others
    {
      n in stack || n in calls.items || n in others.items
    }

    /** The successful exchange of push: node, already linked to the old top, becomes the top. */
    method Publish(node: Node<Kind>)
      requires Shape() && !word.ClosedTag? && !Queued(node)
      requires Linked(node.next, stack)
      modifies this`word, this`stack
      ensures Shape() && View() == Pushed(old(View()), node)
      ensures word == Top(node) && stack == [node] + old(stack)
    {
      ghost var before := stack;
      word := Top(node);
      stack := [node] + stack;
      assert stack[1..] == before;
      assert Linked(node, stack);
      assert Arrived(stack, true) == Arrived(before, true) + Only(node, true);
      assert Arrived(stack, false) == Arrived(before, false) + Only(node, false);
      assert calls.items + (Arrived(before, true) + Only(node, true)) == calls.items + Arrived(before, true) + Only(node, true);
      assert others.items + (Arrived(before, false) + Only(node, false)) == others.items + Arrived(before, false) + Only(node, false);
    }

    /** The body of push's loop before the exchange. */
    method LinkToTop(node: Node<Kind>)
      requires Shape() && !Queued(node) && !word.ClosedTag?
      modifies node
      ensures Shape() && Linked(node.next, stack)
    {
      node.next := if word.Top? then word.node else null;
      assert Linked(calls.head, calls.items) && Linked(others.head, others.items);
      assert word.Top? ==> Linked(word.node, stack);
    }

    /** fetch_add or fetch_sub on the counter for a kind. */
    method Count(call: bool, d: int)
      requires (if call then callCount else otherCount) + d >= 0
      modifies this`callCount, this`otherCount
      ensures callCount == old(callCount) + if call then d else 0
      ensures otherCount == old(otherCount) + if call then 0 else d
    {
      if call { callCount := callCount + d; } else { otherCount := otherCount + d; }
    }

    /** The other threads' fetch_adds; each counts its message before it links it. */
    method CountAll(rivals: seq<Node?<Kind>>)
      modifies this`callCount, this`otherCount
      ensures callCount == old(callCount) + Tally(Present(rivals), true)
      ensures otherCount == old(otherCount) + Tally(Present(rivals), false)
    {
      for i := 0 to |rivals|
        invariant callCount == old(callCount) + Tally(Present(rivals[..i]), true)
        invariant otherCount == old(otherCount) + Tally(Present(rivals[..i]), false)
      {
        NextTally(rivals, i, true);
        NextTally(rivals, i, false);
        if rivals[i] != null { Count(rivals[i].item.Call?, 1); }
      }
      assert rivals[..|rivals|] == rivals;
    }

    /** Another thread's exchange comes first; node is linked to the new top. */
    method Yield(node: Node<Kind>, rival: Node<Kind>)
      requires Shape() && !word.ClosedTag? && !Queued(node) && !Queued(rival) && rival != node
      modifies this`word, this`stack, node, rival
      ensures Shape() && View() == Pushed(old(View()), rival) && !word.ClosedTag?
      ensures Linked(node.next, stack) && stack == [rival] + old(stack)
    {
      LinkToTop(rival);
      Publish(rival);
      LinkToTop(node);
    }

    /** After i failed exchanges node is linked to the top again, and the rivals so far are in. */
    ghost predicate Trying(node: Node<Kind>, rivals: seq<Node?<Kind>>, i: nat, start: Box)
      reads this`word, this`stack, node, calls, others, calls.items, others.items, stack
    {
      && i <= |rivals|
      && Shape() && !Queued(node) && Linked(node.next, stack) && !word.ClosedTag?
      && View() == PushedAll(start, Present(rivals[..i]))
      && forall k :: i <= k < |rivals| && rivals[k] != null ==> !Queued(rivals[k])
    }

    /** One failed exchange: a rival was first, or there was no reason. */
    method Retry(node: Node<Kind>, rivals: seq<Node?<Kind>>, i: nat, ghost start: Box)
      requires i < |rivals| && Trying(node, rivals, i, start) && Newcomers([node] + rivals)
      modifies this`word, this`stack, node, rivals[i]
      ensures Trying(node, rivals, i + 1, start)
    {
      NextPushed(start, rivals, i);
      if rivals[i] != null {
        NewcomersDiffer(node, rivals, i);
        Yield(node, rivals[i]);
      }
    }

    method Start(node: Node<Kind>, ghost rivals: seq<Node?<Kind>>)
      requires Shape() && !word.ClosedTag? && !Queued(node)
      requires forall i :: 0 <= i < |rivals| && rivals[i] != null ==> !Queued(rivals[i])
      modifies node
      ensures Trying(node, rivals, 0, old(View()))
    {
      assert rivals[..0] == [];
      LinkToTop(node);
    }

    /** The loop of push on a mailbox that is not closed, up to the exchange that succeeds. An exchange
        fails when another thread has pushed in between (a rival), or for no reason (null); then the top
        is loaded again. */
    method LinkAmong(node: Node<Kind>, rivals: seq<Node?<Kind>>)
      requires Shape() && !word.ClosedTag? && !Queued(node) && Newcomers([node] + rivals)
      requires forall i :: 0 <= i < |rivals| && rivals[i] != null ==> !Queued(rivals[i])
      modifies this`word, this`stack, node, rivals
      ensures Shape() && View() == PushedAll(old(View()), Present(rivals)) && !word.ClosedTag?
      ensures Linked(node.next, stack) && !Queued(node)
    {
      ghost var start := View();
      Start(node, rivals);
      var i := 0;
      while i < |rivals|
        invariant i <= |rivals| && Trying(node, rivals, i, start)
      {
        Retry(node, rivals, i, start);
        i := i + 1;
      }
      assert rivals[..i] == rivals;
    }

    method Push(node: Node<Kind>, rivals: seq<Node?<Kind>>) returns (r: PushResult)
      requires Valid() && !Queued(node) && Newcomers([node] + rivals)
      requires forall i :: 0 <= i < |rivals| && rivals[i] != null ==> !Queued(rivals[i])
      modifies this, node, rivals
      ensures Valid()
      ensures r.Refused? <==> old(View()).status.Closed?
      ensures r.Unblocked? <==> old(View()).status.Blocked? && Present(rivals) == []
      ensures r.Refused? ==> View() == old(View()) && node.next == old(node.next)
      ensures !r.Refused? ==>
                && View().status.Open?
                && View().calls == old(View()).calls + Kinded(Present(rivals), true) + Only(node, true)
                && View().others == old(View()).others + Kinded(Present(rivals), false) + Only(node, false)
    {
      Count(node.item.Call?, 1);
      if word.ClosedTag? {
        Count(node.item.Call?, -1);
        return Refused;
      }
      PushedLast(View(), Present(rivals), node);
      r := PushOpen(node, rivals);
    }

    /** push once node is counted and the mailbox found open or blocked. */
    method PushOpen(node: Node<Kind>, rivals: seq<Node?<Kind>>) returns (r: PushResult)
      requires Shape() && !word.ClosedTag? && !Queued(node) && Newcomers([node] + rivals)
      requires callCount == |View().calls| + if node.item.Call? then 1 else 0
      requires otherCount == |View().others| + if node.item.Call? then 0 else 1
      requires forall i :: 0 <= i < |rivals| && rivals[i] != null ==> !Queued(rivals[i])
      modifies this`word, this`stack, this`callCount, this`otherCount, node, rivals
      ensures Valid() && View() == Pushed(PushedAll(old(View()), Present(rivals)), node)
      ensures r == if old(View()).status.Blocked? && Present(rivals) == [] then Unblocked else Success
    {
      PushedAllClosed(View(), Present(rivals));
      PushedAllSizes(View(), Present(rivals));
      CountAll(rivals);
      r := Insert(node, rivals);
    }

    /** push between counting the message and the answer. */
    method Insert(node: Node<Kind>, rivals: seq<Node?<Kind>>) returns (r: PushResult)
      requires Shape() && !word.ClosedTag? && !Queued(node) && Newcomers([node] + rivals)
      requires forall i :: 0 <= i < |rivals| && rivals[i] != null ==> !Queued(rivals[i])
      modifies this`word, this`stack, node, rivals
      ensures Shape() && View() == Pushed(PushedAll(old(View()), Present(rivals)), node) && !word.ClosedTag?
      ensures r == if old(View()).status.Blocked? && Present(rivals) == [] then Unblocked else Success
    {
      PushedAllQueues(View(), Present(rivals), true);
      LinkAmong(node, rivals);
      r := if word.BlockedTag? then Unblocked else Success;
      Publish(node);
    }

    /** Exchange the whole stack for a tag. */
    method TakeHead(tag: Word, spurious: nat) returns (list: Node?<Kind>)
      requires Shape() && !tag.Top?
      modifies this`word, this`stack
      ensures word == tag && stack == [] && Linked(list, old(stack))
    {
      var failures := spurious;
      var head := word;
      while head != tag
        invariant head == word == old(word) && stack == old(stack) && StackOk()
        decreases failures
      {
        if failures == 0 {
          word := tag;
          stack := [];
          list := if head.Top? then head.node else null;
          return;
        }
        failures := failures - 1;
        head := word;
      }
      list := null;
    }

    /** Move the stack into the caches; the queues it represents do not change. */
    method FetchMore(spurious: nat) returns (some: bool)
      requires Shape() && !word.BlockedTag? && !word.ClosedTag?
      modifies this`word, this`stack, calls, others, calls.items, others.items, stack
      ensures Shape() && View() == old(View()) && word == EmptyTag
      ensures calls.items == View().calls && others.items == View().others
      ensures some <==> old(stack) != []
      ensures Within(calls.items, old(calls.items), old(stack))
      ensures Within(others.items, old(others.items), old(stack))
    {
      ghost var taken := stack;
      var node := TakeHead(EmptyTag, spurious);
      some := node != null;
      AbsorbAny(node, taken);
      assert calls.items + [] == calls.items && others.items + [] == others.items;
    }

    method AbsorbAny(top: Node?<Kind>, ghost taken: seq<Node<Kind>>)
      requires calls != others && calls.Valid() && others.Valid() && Linked(top, taken)
      requires AllOf(calls.items, true) && AllOf(others.items, false)
      requires Apart(calls.items, taken) && Apart(others.items, taken)
      modifies calls, others, calls.items, others.items, taken
      ensures calls.Valid() && calls.items == old(calls.items) + Arrived(taken, true)
      ensures others.Valid() && others.items == old(others.items) + Arrived(taken, false)
      ensures AllOf(calls.items, true) && AllOf(others.items, false)
      ensures Within(calls.items, old(calls.items), taken) && Within(others.items, old(others.items), taken)
    {
      if top == null {
        assert calls.items + [] == calls.items && others.items + [] == others.items;
      } else {
        Absorb(top, taken);
      }
    }

    /** What fetch_more does with a non-empty stack it has taken. */
    method Absorb(top: Node<Kind>, ghost taken: seq<Node<Kind>>)
      requires calls != others && calls.Valid() && others.Valid() && Linked(top, taken)
      requires AllOf(calls.items, true) && AllOf(others.items, false)
      requires Apart(calls.items, taken) && Apart(others.items, taken)
      modifies calls, others, calls.items, others.items, taken
      ensures calls.Valid() && calls.items == old(calls.items) + Arrived(taken, true)
      ensures others.Valid() && others.items == old(others.items) + Arrived(taken, false)
      ensures AllOf(calls.items, true) && AllOf(others.items, false)
      ensures Within(calls.items, old(calls.items), taken) && Within(others.items, old(others.items), taken)
    {
      var askFirst, askLast, otherFirst, otherLast := Reverse(top, taken);
      assert Linked(calls.head, calls.items) && Linked(others.head, others.items);
      ReversedAll(taken);
      ArrivedFits(calls.items, others.items, taken);
      AppendBoth(askFirst, askLast, otherFirst, otherLast, Arrived(taken, true), Arrived(taken, false));
    }

    method AppendBoth(askFirst: Node?<Kind>, askLast: Node?<Kind>, otherFirst: Node?<Kind>, otherLast: Node?<Kind>,
                      ghost asks: seq<Node<Kind>>, ghost rest: seq<Node<Kind>>)
      requires calls != others && calls.Valid() && others.Valid()
      requires Apart(calls.items, others.items) && Apart(calls.items, asks) && Apart(calls.items, rest)
      requires Apart(others.items, rest) && Apart(others.items, asks)
      requires Linked(askFirst, asks) && askLast == Last(asks)
      requires Linked(otherFirst, rest) && otherLast == Last(rest)
      modifies calls, others, calls.tail, others.tail
      ensures calls.Valid() && calls.items == old(calls.items) + asks
      ensures others.Valid() && others.items == old(others.items) + rest
    {
      assert calls.tail == null || calls.tail in calls.items;
      assert others.tail == null || others.tail in others.items;
      calls.Append(askFirst, askLast, asks);
      assert Linked(others.head, others.items);
      assert Linked(otherFirst, rest);
      others.Append(otherFirst, otherLast, rest);
      assert Linked(calls.head, calls.items);
    }

    /** Approximate while pushes are in flight; exact here. */
    method HasMessages() returns (some: bool)
      requires Valid()
      ensures some <==> Size(View()) > 0
    {
      some := callCount + otherCount > 0;
    }

    /** The nodes in the mailbox's hands are those of the two queues. */
    lemma QueuedInView(n: Node<Kind>)
      requires Shape()
      ensures Queued(n) <==> n in View().calls || n in View().others
    {
      ArrivedHas(stack, true, n);
      ArrivedHas(stack, false, n);
    }

    lemma ViewKinds()
      requires Shape()
      ensures AllOf(View().calls, true) && AllOf(View().others, false)
    {
      ArrivedKind(stack, true);
      ArrivedKind(stack, false);
    }

    /** A call may be on the stack while ordinary messages are cached. */
    method FetchCalls(spurious: nat)
      requires Valid() && View().status.Open?
      modifies this`word, this`stack, calls, others, calls.items, others.items, stack
      ensures Valid() && View() == old(View())
      ensures calls.items == [] ==> View().calls == []
      ensures Footed(old(calls.items), old(others.items), old(stack))
    {
      if calls.head == null && callCount > 0 {
        var _ := FetchMore(spurious);
      }
    }

    /** Nothing is linked in that was not there. */
    ghost predicate Footed(cs: seq<Node<Kind>>, os: seq<Node<Kind>>, st: seq<Node<Kind>>)
      reads this`stack, calls, others
    {
      Within(calls.items, cs, st) && Within(others.items, os, st) && Within(stack, st, [])
    }

    /** The start of pop: after it, a queued message that pop should return is cached. */
    method Refill(spurious: nat) returns (some: bool)
      requires Valid() && View().status.Open?
      modifies this`word, this`stack, calls, others, calls.items, others.items, stack
      ensures Valid() && View() == old(View())
      ensures some <==> Size(View()) > 0
      ensures some && calls.items == [] ==> View().calls == [] && others.items != []
      ensures calls.head != null ==> calls.head in old(calls.items) || calls.head in old(stack)
      ensures others.head != null ==> others.head in old(others.items) || others.head in old(stack)
    {
      FetchCalls(spurious);
      some := FetchAny(spurious);
    }

    method FetchAny(spurious: nat) returns (some: bool)
      requires Valid() && View().status.Open? && (calls.items == [] ==> View().calls == [])
      modifies this`word, this`stack, calls, others, calls.items, others.items, stack
      ensures Valid() && View() == old(View())
      ensures some <==> Size(View()) > 0
      ensures some && calls.items == [] ==> View().calls == [] && others.items != []
      ensures Footed(old(calls.items), old(others.items), old(stack))
    {
      if calls.head == null && others.head == null {
        some := FetchMore(spurious);
        return;
      }
      return true;
    }

    /** Calls before everything else, oldest first. Only its owner pops, and only while the mailbox
        is neither blocked nor closed. */
    method Pop(spurious: nat) returns (node: Node?<Kind>)
      requires Valid() && View().status.Open?
      modifies this, calls, others, calls.items, others.items, stack
      ensures Valid() && node == Front(old(View())) && View() == Popped(old(View()))
      ensures node == null ==> Size(old(View())) == 0 && View() == old(View())
      ensures node != null && node.item.Call? ==> old(View()) == View().(calls := [node] + View().calls)
      ensures node != null && !node.item.Call? ==>
                old(View()).calls == [] && old(View()) == View().(others := [node] + View().others)
      ensures node != null ==> node.next == null && !Queued(node)
    {
      ViewKinds();
      FrontIsNext(View());
      var some := Refill(spurious);
      if !some { return null; }
      node := TakeCounted();
    }

    method TakeCounted() returns (node: Node<Kind>)
      requires Valid() && (calls.items == [] ==> View().calls == [] && others.items != [])
      modifies this`callCount, this`otherCount, calls, others, calls.head, others.head
      ensures Valid() && node == Front(old(View())) && View() == Popped(old(View()))
      ensures node.next == null && !Queued(node)
    {
      PoppedSizes(View());
      node := TakeCached();
      Count(node.item.Call?, -1);
    }

    method TakeCached() returns (node: Node<Kind>)
      requires Shape() && (calls.items == [] ==> View().calls == [] && others.items != [])
      modifies calls, others, calls.head, others.head
      ensures Shape() && node == Front(old(View())) && View() == Popped(old(View()))
      ensures node.next == null && !Queued(node) && (node.item.Call? <==> old(View()).calls != [])
    {
      if calls.head != null {
        node := TakeCall();
      } else {
        node := TakeOther();
      }
    }

    method TakeCall() returns (node: Node<Kind>)
      requires Shape() && calls.items != []
      modifies calls, calls.head
      ensures Shape() && old(View()) == View().(calls := [node] + View().calls)
      ensures node.item.Call? && node.next == null && !Queued(node)
    {
      assert calls.head !in stack && calls.head !in others.items;
      node := calls.TakeFirst();
      assert Linked(others.head, others.items) && StackOk();
    }

    method TakeOther() returns (node: Node<Kind>)
      requires Shape() && others.items != []
      modifies others, others.head
      ensures Shape() && old(View()) == View().(others := [node] + View().others)
      ensures !node.item.Call? && node.next == null && !Queued(node)
    {
      assert others.head !in stack && others.head !in calls.items;
      node := others.TakeFirst();
      assert Linked(calls.head, calls.items) && StackOk();
    }

    method TryBlock() returns (ok: bool)
      requires Valid()
      modifies this`word
      ensures Valid()
      ensures ok <==> old(View()).status.Open? && Size(old(View())) == 0
      ensures View().status == if ok then Blocked else old(View()).status
      ensures View().calls == old(View()).calls && View().others == old(View()).others
    {
      if calls.head != null || others.head != null { return false; }
      if word == EmptyTag {
        word := BlockedTag;
        return true;
      }
      return false;
    }

    method TryUnblock() returns (ok: bool)
      requires Valid()
      modifies this`word
      ensures Valid()
      ensures ok <==> old(View()).status.Blocked?
      ensures View().status == if ok then Open else old(View()).status
      ensures View().calls == old(View()).calls && View().others == old(View()).others
    {
      ok := word == BlockedTag;
      if ok { word := EmptyTag; }
    }

    /** close's walk over one list: uncount and report each node. */
    method Drain(first: Node?<Kind>, ghost xs: seq<Node<Kind>>) returns (dropped: seq<Node<Kind>>)
      requires Linked(first, xs)
      requires callCount >= |Arrived(xs, true)| && otherCount >= |Arrived(xs, false)|
      modifies this`callCount, this`otherCount
      ensures dropped == xs
      ensures callCount == old(callCount) - |Arrived(xs, true)|
      ensures otherCount == old(otherCount) - |Arrived(xs, false)|
    {
      dropped := [];
      var node := first;
      ghost var rest := xs;
      while node != null
        invariant Linked(node, rest) && dropped + rest == xs
        invariant callCount - |Arrived(rest, true)| == old(callCount) - |Arrived(xs, true)|
        invariant otherCount - |Arrived(rest, false)| == old(otherCount) - |Arrived(xs, false)|
        decreases |rest|
      {
        Count(node.item.Call?, -1);
        dropped := dropped + [node];
        node := node.next;
        rest := rest[1..];
      }
    }

    /** Close for good: cached calls, cached messages, then the stack newest first, are all reported
        dropped, each once. */
    method Close(spurious: nat) returns (dropped: seq<Node<Kind>>)
      requires Valid()
      modifies this, calls, others
      ensures Valid() && View() == Box(Closed, [], [])
      ensures dropped == old(calls.items) + old(others.items) + old(stack)
      ensures multiset(dropped) == multiset(old(View()).calls) + multiset(old(View()).others)
    {
      ghost var left := stack;
      DroppedAll(calls.items, others.items, left);
      var list := TakeHead(ClosedTag, spurious);
      dropped := DrainAll(list, left);
    }

    /** What close does once it has the stack: the three lists, in order. */
    method DrainAll(list: Node?<Kind>, ghost left: seq<Node<Kind>>) returns (dropped: seq<Node<Kind>>)
      requires calls != others && calls.Valid() && others.Valid() && Linked(list, left)
      requires AllOf(calls.items, true) && AllOf(others.items, false)
      requires callCount == |calls.items| + |Arrived(left, true)|
      requires otherCount == |others.items| + |Arrived(left, false)|
      modifies this`callCount, this`otherCount, calls, others
      ensures calls.Valid() && calls.items == [] && others.Valid() && others.items == []
      ensures dropped == old(calls.items) + old(others.items) + left
      ensures callCount == 0 && otherCount == 0
    {
      dropped := DrainCaches();
      assert Linked(list, left);
      var rest := Drain(list, left);
      dropped := dropped + rest;
    }

    /** The two cached lists, calls first. */
    method DrainCaches() returns (dropped: seq<Node<Kind>>)
      requires calls != others && calls.Valid() && others.Valid()
      requires AllOf(calls.items, true) && AllOf(others.items, false)
      requires callCount >= |calls.items| && otherCount >= |others.items|
      modifies this`callCount, this`otherCount, calls, others
      ensures calls.Valid() && calls.items == [] && others.Valid() && others.items == []
      ensures dropped == old(calls.items) + old(others.items)
      ensures callCount == old(callCount) - |old(calls.items)|
      ensures otherCount == old(otherCount) - |old(others.items)|
    {
      ArrivedAllOf(calls.items, true);
      ArrivedAllOf(others.items, false);
      var first := Drain(calls.head, calls.items);
      calls.Clear();
      var second := Drain(others.head, others.items);
      others.Clear();
      dropped := first + second;
    }
  }

  /** One accumulator per kind, each taking the next older node in front. */
  function Reversed(rest: seq<Node<Kind>>, asks: seq<Node<Kind>>, oths: seq<Node<Kind>>): (seq<Node<Kind>>, seq<Node<Kind>>) {
    if rest == [] then (asks, oths)
    else if rest[0].item.Call? then Reversed(rest[1..], [rest[0]] + asks, oths)
    else Reversed(rest[1..], asks, [rest[0]] + oths)
  }

  lemma {:induction false} ReversedArrives(rest: seq<Node<Kind>>, asks: seq<Node<Kind>>, oths: seq<Node<Kind>>)
    ensures Reversed(rest, asks, oths) == (Arrived(rest, true) + asks, Arrived(rest, false) + oths)
  {
    if rest == [] {
      assert [] + asks == asks && [] + oths == oths;
    } else if rest[0].item.Call? {
      ReversedArrives(rest[1..], [rest[0]] + asks, oths);
      assert Arrived(rest[1..], true) + ([rest[0]] + asks) == Arrived(rest, true) + asks;
      assert Arrived(rest[1..], false) == Arrived(rest, false);
    } else {
      ReversedArrives(rest[1..], asks, [rest[0]] + oths);
      assert Arrived(rest[1..], false) + ([rest[0]] + oths) == Arrived(rest, false) + oths;
      assert Arrived(rest[1..], true) == Arrived(rest, true);
    }
  }

  lemma ReversedAll(stack: seq<Node<Kind>>)
    ensures Reversed(stack, [], []) == (Arrived(stack, true), Arrived(stack, false))
  {
    ReversedArrives(stack, [], []);
    assert Arrived(stack, true) + [] == Arrived(stack, true);
    assert Arrived(stack, false) + [] == Arrived(stack, false);
  }

  /** fetch_more's loop: reverse a newest-first list in place, splitting it by kind. */
  method Reverse(top: Node?<Kind>, ghost taken: seq<Node<Kind>>)
    returns (askFirst: Node?<Kind>, askLast: Node?<Kind>, otherFirst: Node?<Kind>, otherLast: Node?<Kind>)
    requires Linked(top, taken)
    modifies taken
    ensures var (asks, oths) := Reversed(taken, [], []);
            && Linked(askFirst, asks) && askLast == Last(asks)
            && Linked(otherFirst, oths) && otherLast == Last(oths)
  {
    askFirst, askLast, otherFirst, otherLast := null, null, null, null;
    var node := top;
    ghost var rest: seq<Node<Kind>>, asks: seq<Node<Kind>>, oths: seq<Node<Kind>> := taken, [], [];
    while node != null
      invariant forall i :: 0 <= i < |rest| ==> rest[i] in taken
      invariant Reversed(rest, asks, oths) == Reversed(taken, [], [])
      invariant Linked(node, rest) && Apart(asks, rest) && Apart(oths, rest)
      invariant Linked(askFirst, asks) && askLast == Last(asks)
      invariant Linked(otherFirst, oths) && otherLast == Last(oths)
      decreases |rest|
    {
      var next := node.next;
      ghost var more := rest[1..];
      assert rest == [node] + more;
      if node.item.Call? {
        askFirst, askLast := Prepend(node, more, askFirst, askLast, asks, otherFirst, oths);
        asks := [node] + asks;
      } else {
        otherFirst, otherLast := Prepend(node, more, otherFirst, otherLast, oths, askFirst, asks);
        oths := [node] + oths;
      }
      rest := more;
      node := next;
    }
    assert rest == [];
  }

  /** Move the first node of one list in front of another; a third list is not touched. */
  method Prepend(node: Node<Kind>, ghost more: seq<Node<Kind>>, first: Node?<Kind>, last: Node?<Kind>, ghost xs: seq<Node<Kind>>,
                 ghost p: Node?<Kind>, ghost ys: seq<Node<Kind>>)
    returns (first': Node<Kind>, last': Node?<Kind>)
    requires Linked(node, [node] + more) && Apart(xs, [node] + more) && Apart(ys, [node] + more)
    requires Linked(first, xs) && last == Last(xs) && Linked(p, ys)
    modifies node
    ensures Linked(first', [node] + xs) && last' == Last([node] + xs) && Linked(p, ys)
    ensures Linked(old(node.next), more) && Apart([node] + xs, more) && Apart(ys, more)
  {
    LinkedFirst(node, [node] + more);
    assert ([node] + more)[1..] == more && ([node] + xs)[1..] == xs;
    assert node !in xs && node !in ys && node !in more;
    node.next := first;
    last' := if first == null then node else last;
    first' := node;
  }
}
