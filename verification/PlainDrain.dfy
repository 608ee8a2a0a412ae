/** The end of a plain actor that accepts no more messages: its mailbox is drained by the real pop, what
    is left when time is up is discarded, and the mailbox is closed. */
module PlainDrain {
  import opened Common
  import opened IntrusiveList
  import opened Mailbox

  function Messages(b: Box): seq<Node<Kind>> {
    b.calls + b.others
  }

  /** Among messages that are destroyed unhandled, those that are dead letters. */
  function DeadLetters(xs: seq<Node<Kind>>): seq<Node<Kind>> {
    if xs == [] then []
    else DeadLetters(xs[..|xs| - 1]) + if xs[|xs| - 1].item.Shutdown? then [] else [xs[|xs| - 1]]
  }

  lemma DeadLettersAppend(xs: seq<Node<Kind>>, n: Node<Kind>)
    ensures DeadLetters(xs + [n]) == DeadLetters(xs) + if n.item.Shutdown? then [] else [n]
  {
    assert (xs + [n])[..|xs|] == xs;
  }

  /** Each message is reported as often as it is destroyed, control traffic never. */
  lemma {:induction false} DeadLettersAre(xs: seq<Node<Kind>>, n: Node<Kind>)
    ensures multiset(DeadLetters(xs))[n] == if n.item.Shutdown? then 0 else multiset(xs)[n]
    ensures (forall i :: 0 <= i < |xs| ==> !xs[i].item.Shutdown?) ==> DeadLetters(xs) == xs
  {
    if xs != [] {
      assert xs == xs[..|xs| - 1] + [xs[|xs| - 1]];
      DeadLettersAre(xs[..|xs| - 1], n);
    }
  }

  /** Everything the mailbox holds is among these nodes. */
  ghost predicate HeldAmong(mailbox: Mailbox, nodes: set<Node<Kind>>)
    reads mailbox, mailbox.calls, mailbox.others
  {
    && (forall i :: 0 <= i < |mailbox.calls.items| ==> mailbox.calls.items[i] in nodes)
    && (forall i :: 0 <= i < |mailbox.others.items| ==> mailbox.others.items[i] in nodes)
    && (forall i :: 0 <= i < |mailbox.stack| ==> mailbox.stack[i] in nodes)
  }

  /** The owner may pop. */
  ghost predicate Ready(mailbox: Mailbox, nodes: set<Node<Kind>>)
    reads mailbox, mailbox.calls, mailbox.others, mailbox.calls.items, mailbox.others.items, mailbox.stack
  {
    mailbox.Valid() && mailbox.View().status.Open? && HeldAmong(mailbox, nodes)
  }

  lemma StillAmong(mailbox: Mailbox, nodes: set<Node<Kind>>)
    requires mailbox.Shape()
    requires forall n :: n in Messages(mailbox.View()) ==> n in nodes
    ensures HeldAmong(mailbox, nodes)
  {
    forall n | n in mailbox.calls.items || n in mailbox.others.items || n in mailbox.stack
      ensures n in nodes
    {
      mailbox.QueuedInView(n);
    }
  }

  /** pop, and what the mailbox then still holds. */
  method Next(mailbox: Mailbox, ghost nodes: set<Node<Kind>>) returns (node: Node?<Kind>)
    requires Ready(mailbox, nodes)
    modifies mailbox, mailbox.calls, mailbox.others, nodes
    ensures Ready(mailbox, nodes)
    ensures node == null ==> Messages(old(mailbox.View())) == [] == Messages(mailbox.View())
    ensures node != null ==> Messages(old(mailbox.View())) == [node] + Messages(mailbox.View())
  {
    ViewAmong(mailbox, nodes);
    ghost var before := mailbox.View();
    node := mailbox.Pop(0);
    PoppedMessages(before);
    StillAmong(mailbox, nodes);
  }

  lemma ViewAmong(mailbox: Mailbox, nodes: set<Node<Kind>>)
    requires mailbox.Shape() && HeldAmong(mailbox, nodes)
    ensures forall n :: n in Messages(mailbox.View()) ==> n in nodes
  {
    forall n | n in Messages(mailbox.View())
      ensures n in nodes
    {
      mailbox.QueuedInView(n);
    }
  }

  lemma PoppedMessages(b: Box)
    ensures Front(b) == null ==> Messages(b) == []
    ensures Front(b) != null ==> Messages(b) == [Front(b)] + Messages(Popped(b))
    ensures forall n :: n in Messages(Popped(b)) ==> n in Messages(b)
  {
  }

  /** The owner may pop, and these are the messages left. */
  ghost predicate Left(mailbox: Mailbox, nodes: set<Node<Kind>>, rest: seq<Node<Kind>>)
    reads mailbox, mailbox.calls, mailbox.others, mailbox.calls.items, mailbox.others.items, mailbox.stack
  {
    Ready(mailbox, nodes) && Messages(mailbox.View()) == rest
  }

  /** The next message, or null. */
  method TakeNext(mailbox: Mailbox, ghost nodes: set<Node<Kind>>, ghost rest: seq<Node<Kind>>)
    returns (node: Node?<Kind>, ghost rest': seq<Node<Kind>>)
    requires Left(mailbox, nodes, rest)
    modifies mailbox, mailbox.calls, mailbox.others, nodes
    ensures Left(mailbox, nodes, rest')
    ensures if node == null then rest == [] == rest' else rest == [node] + rest'
  {
    node := Next(mailbox, nodes);
    rest' := Messages(mailbox.View());
  }

  /** One message of the discarding loop. */
  method DiscardOne(mailbox: Mailbox, ghost nodes: set<Node<Kind>>, node: Node<Kind>, ghost rest: seq<Node<Kind>>,
                    left: seq<Node<Kind>>, dead: seq<Node<Kind>>, ghost all: seq<Node<Kind>>)
    returns (next: Node?<Kind>, left': seq<Node<Kind>>, dead': seq<Node<Kind>>, ghost rest': seq<Node<Kind>>)
    requires Left(mailbox, nodes, rest) && Discarding(node, rest, left, dead, all)
    modifies mailbox, mailbox.calls, mailbox.others, nodes
    ensures Left(mailbox, nodes, rest') && Discarding(next, rest', left', dead', all)
    ensures |left'| == |left| + 1
  {
    dead' := Report(dead, node, left);
    assert left + ([node] + rest) == left + [node] + rest;
    left' := left + [node];
    next, rest' := TakeNext(mailbox, nodes, rest);
  }

  /** node is popped and not yet discarded, the rest not yet popped. */
  predicate Discarding(node: Node?<Kind>, rest: seq<Node<Kind>>, left: seq<Node<Kind>>, dead: seq<Node<Kind>>, all: seq<Node<Kind>>) {
    && dead == DeadLetters(left) && |left| <= |all|
    && if node == null then rest == [] && left == all else left + ([node] + rest) == all
  }

  /** discard_pending_messages: pop until nothing is left; a pending system_shutdown is not reported. */
  method Discard(mailbox: Mailbox, ghost nodes: set<Node<Kind>>) returns (left: seq<Node<Kind>>, dead: seq<Node<Kind>>)
    requires Ready(mailbox, nodes)
    modifies mailbox, mailbox.calls, mailbox.others, nodes
    ensures Left(mailbox, nodes, [])
    ensures left == Messages(old(mailbox.View())) && dead == DeadLetters(left)
  {
    left, dead := [], [];
    ghost var all := Messages(mailbox.View());
    ghost var rest;
    var node;
    node, rest := TakeNext(mailbox, nodes, all);
    while node != null
      invariant Left(mailbox, nodes, rest) && Discarding(node, rest, left, dead, all)
      decreases |all| - |left|
    {
      node, left, dead, rest := DiscardOne(mailbox, nodes, node, rest, left, dead, all);
    }
  }

  method Report(dead: seq<Node<Kind>>, node: Node<Kind>, ghost left: seq<Node<Kind>>) returns (dead': seq<Node<Kind>>)
    requires dead == DeadLetters(left)
    ensures dead' == DeadLetters(left + [node])
  {
    DeadLettersAppend(left, node);
    dead' := if node.item.Shutdown? then dead else dead + [node];
  }

  lemma EmptyBox(b: Box)
    requires Messages(b) == [] && b.status.Open?
    ensures b == Box(Open, [], [])
  {
    assert |b.calls| + |b.others| == |Messages(b)|;
  }

  predicate Handling(handled: seq<Node<Kind>>, rest: seq<Node<Kind>>, all: seq<Node<Kind>>, some: bool) {
    handled + rest == all && (some <==> rest != [])
  }

  /** The drain: while there are messages and time, pop one and handle it. */
  method HandleMessages(mailbox: Mailbox, ghost nodes: set<Node<Kind>>, expired: nat -> bool)
    returns (handled: seq<Node<Kind>>, ghost rest: seq<Node<Kind>>)
    requires Ready(mailbox, nodes)
    modifies mailbox, mailbox.calls, mailbox.others, nodes
    ensures Left(mailbox, nodes, rest) && handled + rest == Messages(old(mailbox.View()))
    ensures !expired(|handled|) ==> rest == []
    ensures forall n :: 0 <= n < |handled| ==> !expired(n)
  {
    handled := [];
    ghost var all := Messages(mailbox.View());
    rest := all;
    var some := mailbox.HasMessages();
    while some && !expired(|handled|)
      invariant Left(mailbox, nodes, rest) && Handling(handled, rest, all, some)
      invariant forall n :: 0 <= n < |handled| ==> !expired(n)
      decreases |rest|
    {
      handled, some, rest := HandleOne(mailbox, nodes, handled, rest, all);
    }
  }

  /** process_next_message, and has_messages for the next round. */
  method HandleOne(mailbox: Mailbox, ghost nodes: set<Node<Kind>>, handled: seq<Node<Kind>>,
                   ghost rest: seq<Node<Kind>>, ghost all: seq<Node<Kind>>)
    returns (handled': seq<Node<Kind>>, some: bool, ghost rest': seq<Node<Kind>>)
    requires Left(mailbox, nodes, rest) && rest != [] && Handling(handled, rest, all, true)
    modifies mailbox, mailbox.calls, mailbox.others, nodes
    ensures Left(mailbox, nodes, rest') && Handling(handled', rest', all, some)
    ensures |handled'| == |handled| + 1 && |rest'| == |rest| - 1
  {
    var node;
    node, rest' := TakeNext(mailbox, nodes, rest);
    assert handled + ([node] + rest') == handled + [node] + rest';
    handled' := handled + [node];
    some := mailbox.HasMessages();
  }

  /** run_stop_to_completion of a plain actor: drain, discard the rest, close. Messages are handled and
      discarded in delivery order, each once; without a timeout none is discarded. */
  method Drain(mailbox: Mailbox, ghost nodes: set<Node<Kind>>, expired: nat -> bool)
    returns (handled: seq<Node<Kind>>, left: seq<Node<Kind>>, dead: seq<Node<Kind>>)
    requires Ready(mailbox, nodes)
    modifies mailbox, mailbox.calls, mailbox.others, nodes
    ensures mailbox.Valid() && mailbox.View() == Box(Closed, [], [])
    ensures handled + left == Messages(old(mailbox.View())) && dead == DeadLetters(left)
    ensures !expired(|handled|) ==> left == []
    ensures forall n :: 0 <= n < |handled| ==> !expired(n)
  {
    ghost var rest;
    handled, rest := HandleMessages(mailbox, nodes, expired);
    left, dead := Discard(mailbox, nodes);
    EmptyBox(mailbox.View());
    var _ := mailbox.Close(0);
  }
}
