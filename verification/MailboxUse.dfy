/** Any use of a mailbox by one thread after another: what was pushed is popped in order, each kind in its
    own, and every successful try_block is followed by exactly one wake-up before the next. */
module MailboxUse {
  import opened Common
  import opened IntrusiveList
  import opened Mailbox
  import opened PlainDrain

  datatype Op =
    | Push(kind: Kind)
    | Pop             // the owner pops only while the mailbox is neither blocked nor closed
    | TryBlock
    | TryUnblock
    | Close

  /** A try_block that succeeded; a push that answered Unblocked, or a try_unblock that succeeded. */
  datatype Event = Slept | Woken

  /** What the callers saw: messages accepted, popped and dropped, in order, and sleeping and waking. */
  datatype History = History(
    accepted: seq<Node<Kind>>,
    popped: seq<Node<Kind>>,
    dropped: seq<Node<Kind>>,
    events: seq<Event>,
    closed: bool
  )

  /** By the answers so far the owner is asleep. */
  predicate Asleep(events: seq<Event>) {
    events != [] && events[|events| - 1].Slept?
  }

  /** Only who is awake goes to sleep, and only who sleeps is woken. */
  predicate Alternating(events: seq<Event>) {
    events == [] ||
    (Alternating(events[..|events| - 1]) && (events[|events| - 1].Woken? <==> Asleep(events[..|events| - 1])))
  }

  lemma NextEvent(events: seq<Event>, e: Event)
    requires Alternating(events) && (e.Woken? <==> Asleep(events))
    ensures Alternating(events + [e]) && (Asleep(events + [e]) <==> e.Slept?)
  {
    assert (events + [e])[..|events|] == events;
  }

  predicate InOrder(b: Box, h: History, call: bool) {
    Kinded(h.accepted, call) == Kinded(h.popped, call) + Queue(b, call)
  }

  /** Until the mailbox is closed: what is popped of a kind comes first in what was accepted of it, and the
      rest is queued. */
  predicate BothInOrder(b: Box, h: History) {
    InOrder(b, h, true) && InOrder(b, h, false)
  }

  /** Closing drops exactly what was accepted and not popped, each message once. */
  predicate Ended(h: History) {
    && multiset(h.accepted) == multiset(h.popped) + multiset(h.dropped)
    && IsPrefix(Kinded(h.popped, true), Kinded(h.accepted, true))
    && IsPrefix(Kinded(h.popped, false), Kinded(h.accepted, false))
  }

  /** The answers tell the state of the mailbox. */
  predicate Tells(b: Box, h: History) {
    && Alternating(h.events)
    && (h.closed <==> b.status.Closed?)
    && if h.closed then Size(b) == 0 && Ended(h)
       else h.dropped == [] && BothInOrder(b, h) && (Asleep(h.events) <==> b.status.Blocked?)
  }

  // ---------------------------------------------------------------- one operation on a box

  predicate Pushes(b: Box, b': Box, n: Node<Kind>, r: PushResult) {
    && (r.Refused? <==> b.status.Closed?) && (r.Unblocked? <==> b.status.Blocked?)
    && if r.Refused? then b' == b
       else b'.status.Open? && b'.calls == b.calls + Only(n, true) && b'.others == b.others + Only(n, false)
  }

  predicate Pops(b: Box, b': Box, n: Node?<Kind>) {
    && b'.status == b.status
    && if n == null then b' == b
       else if n.item.Call? then b == b'.(calls := [n] + b'.calls)
       else b == b'.(others := [n] + b'.others)
  }

  function AfterPush(h: History, n: Node<Kind>, r: PushResult): History {
    match r
    case Refused => h
    case Unblocked => h.(accepted := h.accepted + [n], events := h.events + [Woken])
    case Success => h.(accepted := h.accepted + [n])
  }

  lemma PushInOrder(b: Box, b': Box, h: History, h': History, n: Node<Kind>, call: bool)
    requires InOrder(b, h, call) && Queue(b', call) == Queue(b, call) + Only(n, call)
    requires h'.accepted == h.accepted + [n] && h'.popped == h.popped
    ensures InOrder(b', h', call)
  {
    KindedAppend(h.accepted, n, call);
    Regroup(Kinded(h.popped, call), Queue(b, call), Only(n, call));
  }

  lemma Regroup<T>(xs: seq<T>, ys: seq<T>, zs: seq<T>)
    ensures xs + ys + zs == xs + (ys + zs)
  {
  }

  lemma PushTells(b: Box, b': Box, h: History, n: Node<Kind>, r: PushResult)
    requires Tells(b, h) && Pushes(b, b', n, r)
    ensures Tells(b', AfterPush(h, n, r))
  {
    if !r.Refused? {
      var h' := AfterPush(h, n, r);
      PushInOrder(b, b', h, h', n, true);
      PushInOrder(b, b', h, h', n, false);
      if r.Unblocked? { NextEvent(h.events, Woken); }
    }
  }

  lemma PopInOrder(b: Box, b': Box, h: History, h': History, n: Node<Kind>, call: bool)
    requires InOrder(b, h, call) && Queue(b, call) == Only(n, call) + Queue(b', call)
    requires h'.popped == h.popped + [n] && h'.accepted == h.accepted
    ensures InOrder(b', h', call)
  {
    KindedAppend(h.popped, n, call);
    Regroup(Kinded(h.popped, call), Only(n, call), Queue(b', call));
  }

  function AfterPop(h: History, n: Node?<Kind>): History {
    if n == null then h else h.(popped := h.popped + [n])
  }

  lemma PopTells(b: Box, b': Box, h: History, n: Node?<Kind>)
    requires Tells(b, h) && b.status.Open? && Pops(b, b', n)
    ensures Tells(b', AfterPop(h, n))
  {
    if n != null {
      assert [] + b'.calls == b'.calls && [] + b'.others == b'.others;
      PopInOrder(b, b', h, AfterPop(h, n), n, true);
      PopInOrder(b, b', h, AfterPop(h, n), n, false);
    }
  }

  lemma BlockTells(b: Box, b': Box, h: History)
    requires Tells(b, h) && b.status.Open? && b' == b.(status := Blocked)
    ensures Tells(b', h.(events := h.events + [Slept]))
  {
    NextEvent(h.events, Slept);
    QueuesTell(b, b', h, h.(events := h.events + [Slept]));
  }

  lemma UnblockTells(b: Box, b': Box, h: History)
    requires Tells(b, h) && b.status.Blocked? && b' == b.(status := Open)
    ensures Tells(b', h.(events := h.events + [Woken]))
  {
    NextEvent(h.events, Woken);
    QueuesTell(b, b', h, h.(events := h.events + [Woken]));
  }

  lemma QueuesTell(b: Box, b': Box, h: History, h': History)
    requires BothInOrder(b, h) && b'.calls == b.calls && b'.others == b.others
    requires h'.accepted == h.accepted && h'.popped == h.popped
    ensures BothInOrder(b', h')
  {
  }

  lemma {:induction false} KindedSplits(xs: seq<Node<Kind>>)
    ensures multiset(xs) == multiset(Kinded(xs, true)) + multiset(Kinded(xs, false))
  {
    if xs != [] {
      assert xs == xs[..|xs| - 1] + [xs[|xs| - 1]];
      KindedSplits(xs[..|xs| - 1]);
    }
  }

  lemma CloseEnds(b: Box, h: History, dropped: seq<Node<Kind>>)
    requires BothInOrder(b, h) && multiset(dropped) == multiset(b.calls) + multiset(b.others)
    ensures Ended(h.(dropped := dropped, closed := true))
  {
    KindedSplits(h.accepted);
    KindedSplits(h.popped);
    PrefixOf(Kinded(h.popped, true), b.calls);
    PrefixOf(Kinded(h.popped, false), b.others);
  }

  lemma PrefixOf<T>(xs: seq<T>, ys: seq<T>)
    ensures IsPrefix(xs, xs + ys)
  {
  }

  lemma CloseTells(b: Box, h: History, dropped: seq<Node<Kind>>)
    requires Tells(b, h) && multiset(dropped) == multiset(b.calls) + multiset(b.others)
    ensures Tells(Box(Closed, [], []), h.(dropped := h.dropped + dropped, closed := true))
  {
    if h.closed {
      NothingDropped(b, dropped);
      assert h.dropped + dropped == h.dropped;
    } else {
      CloseEnds(b, h, dropped);
      assert h.dropped + dropped == dropped;
    }
  }

  lemma NothingDropped(b: Box, dropped: seq<Node<Kind>>)
    requires Size(b) == 0 && multiset(dropped) == multiset(b.calls) + multiset(b.others)
    ensures dropped == []
  {
    assert |multiset(dropped)| == |dropped|;
  }

  // ---------------------------------------------------------------- operations on the mailbox

  /** A mailbox whose messages are among these nodes. */
  ghost predicate Holding(mailbox: Mailbox, nodes: set<Node<Kind>>)
    reads mailbox, mailbox.calls, mailbox.others, mailbox.calls.items, mailbox.others.items, mailbox.stack
  {
    mailbox.Valid() && HeldAmong(mailbox, nodes)
  }

  method PushNew(mailbox: Mailbox, ghost nodes: set<Node<Kind>>, kind: Kind) returns (node: Node<Kind>, r: PushResult)
    requires Holding(mailbox, nodes)
    modifies mailbox, mailbox.calls, mailbox.others, nodes
    ensures fresh(node) && Holding(mailbox, nodes + {node}) && Pushes(old(mailbox.View()), mailbox.View(), node, r)
  {
    node := new Node(kind);
    ViewAmong(mailbox, nodes);
    ghost var before := mailbox.View();
    r := mailbox.Push(node, []);
    assert before.calls + [] == before.calls && before.others + [] == before.others;
    StillAmong(mailbox, nodes + {node});
  }

  method PopOne(mailbox: Mailbox, ghost nodes: set<Node<Kind>>) returns (node: Node?<Kind>)
    requires Ready(mailbox, nodes)
    modifies mailbox, mailbox.calls, mailbox.others, nodes
    ensures Holding(mailbox, nodes) && Pops(old(mailbox.View()), mailbox.View(), node)
  {
    ViewAmong(mailbox, nodes);
    node := mailbox.Pop(0);
    StillAmong(mailbox, nodes);
  }

  method CloseNow(mailbox: Mailbox, ghost nodes: set<Node<Kind>>) returns (dropped: seq<Node<Kind>>)
    requires Holding(mailbox, nodes)
    modifies mailbox, mailbox.calls, mailbox.others
    ensures Holding(mailbox, nodes) && mailbox.View() == Box(Closed, [], [])
    ensures multiset(dropped) == multiset(old(mailbox.View()).calls) + multiset(old(mailbox.View()).others)
  {
    dropped := mailbox.Close(0);
    StillAmong(mailbox, nodes);
  }

  ghost predicate InUse(mailbox: Mailbox, nodes: set<Node<Kind>>, h: History)
    reads mailbox, mailbox.calls, mailbox.others, mailbox.calls.items, mailbox.others.items, mailbox.stack
  {
    Holding(mailbox, nodes) && Tells(mailbox.View(), h)
  }

  const NOTHING: History := History([], [], [], [], false)

  method Create() returns (mailbox: Mailbox)
    ensures fresh(mailbox) && fresh(mailbox.calls) && fresh(mailbox.others) && InUse(mailbox, {}, NOTHING)
  {
    mailbox := new Mailbox();
    assert Tells(Box(Open, [], []), NOTHING);
    StillAmong(mailbox, {});
  }

  method Send(mailbox: Mailbox, ghost nodes: set<Node<Kind>>, h: History, kind: Kind)
    returns (h': History, node: Node<Kind>)
    requires InUse(mailbox, nodes, h)
    modifies mailbox, mailbox.calls, mailbox.others, nodes
    ensures fresh(node) && InUse(mailbox, nodes + {node}, h')
  {
    ghost var before := mailbox.View();
    var r;
    node, r := PushNew(mailbox, nodes, kind);
    h' := AfterPush(h, node, r);
    PushTells(before, mailbox.View(), h, node, r);
  }

  method Receive(mailbox: Mailbox, ghost nodes: set<Node<Kind>>, h: History) returns (h': History)
    requires InUse(mailbox, nodes, h)
    modifies mailbox, mailbox.calls, mailbox.others, nodes
    ensures InUse(mailbox, nodes, h')
  {
    if h.closed || Asleep(h.events) { return h; }
    ghost var before := mailbox.View();
    var node := PopOne(mailbox, nodes);
    h' := AfterPop(h, node);
    PopTells(before, mailbox.View(), h, node);
  }

  method Sleep(mailbox: Mailbox, ghost nodes: set<Node<Kind>>, h: History) returns (h': History)
    requires InUse(mailbox, nodes, h)
    modifies mailbox`word
    ensures InUse(mailbox, nodes, h')
  {
    ghost var before := mailbox.View();
    var ok := mailbox.TryBlock();
    if !ok { return h; }
    h' := h.(events := h.events + [Slept]);
    BlockTells(before, mailbox.View(), h);
  }

  method Wake(mailbox: Mailbox, ghost nodes: set<Node<Kind>>, h: History) returns (h': History)
    requires InUse(mailbox, nodes, h)
    modifies mailbox`word
    ensures InUse(mailbox, nodes, h')
  {
    ghost var before := mailbox.View();
    var ok := mailbox.TryUnblock();
    if !ok { return h; }
    h' := h.(events := h.events + [Woken]);
    UnblockTells(before, mailbox.View(), h);
  }

  method End(mailbox: Mailbox, ghost nodes: set<Node<Kind>>, h: History) returns (h': History)
    requires InUse(mailbox, nodes, h)
    modifies mailbox, mailbox.calls, mailbox.others
    ensures InUse(mailbox, nodes, h')
  {
    ghost var before := mailbox.View();
    var dropped := CloseNow(mailbox, nodes);
    h' := h.(dropped := h.dropped + dropped, closed := true);
    CloseTells(before, h, dropped);
  }

  /** One operation, and what its caller then knows. */
  method Perform(mailbox: Mailbox, ghost nodes: set<Node<Kind>>, h: History, op: Op)
    returns (h': History, ghost nodes': set<Node<Kind>>)
    requires InUse(mailbox, nodes, h)
    modifies mailbox, mailbox.calls, mailbox.others, nodes
    ensures InUse(mailbox, nodes', h') && fresh(nodes' - nodes)
  {
    nodes' := nodes;
    match op {
      case Push(kind) =>
        var node;
        h', node := Send(mailbox, nodes, h, kind);
        nodes' := nodes + {node};
      case Pop => h' := Receive(mailbox, nodes, h);
      case TryBlock => h' := Sleep(mailbox, nodes, h);
      case TryUnblock => h' := Wake(mailbox, nodes, h);
      case Close => h' := End(mailbox, nodes, h);
    }
  }

  /** Whatever operations are performed on a new mailbox, in any order: until it is closed what was popped
      of each kind is the first part of what was accepted, in push order, and the rest is queued; closing
      drops that rest, each message once; and an owner that went to sleep is woken exactly once, by the
      next push or by a try_unblock, before it sleeps again. */
  method Drive(ops: seq<Op>) returns (h: History, ghost left: Box)
    ensures Tells(left, h)
  {
    var mailbox := Create();
    ghost var nodes: set<Node<Kind>> := {};
    h := NOTHING;
    var i := 0;
    while i < |ops|
      invariant i <= |ops| && fresh(mailbox) && fresh(mailbox.calls) && fresh(mailbox.others) && fresh(nodes)
      invariant InUse(mailbox, nodes, h)
    {
      h, nodes := Perform(mailbox, nodes, h, ops[i]);
      i := i + 1;
    }
    left := mailbox.View();
  }
}
