/** The tagged stack under the mailbox and the ready queue, link by link, with any number of threads
    pushing at once: between the load of the top and the exchange other threads may push, and the owner
    may take the whole stack, relink what it took, hand nodes back and change the tag. The ready queue
    is the case without the blocked and closed tags. */
module LinkedStack {
  import opened Common

  type Tid = nat
  type Node = nat

  datatype Word = EmptyTag | BlockedTag | ClosedTag | Top(node: Node)

  datatype Pc =
    | Load(n: Node)
    | Link(n: Node, seen: Word)
    | Swap(n: Node, seen: Word)

  /** Who may write a node's link. History only. */
  datatype Role = Outside | Carried(t: Tid) | Stacked | Taken

  datatype State = State(
    word: Word,
    next: map<Node, Option<Node>>,
    threads: map<Tid, Pc>,
    // history
    roles: map<Node, Role>,
    chain: seq<Node>,    // the stack, newest first
    pushed: seq<Node>,   // in the order the exchanges succeeded
    taken: seq<Node>     // in the order of pushed
  )

  datatype Step =
    | Begin(t: Tid, n: Node)
    | Run(t: Tid, spurious: bool)
    | Take
    | Relink(n: Node, l: Option<Node>)
    | Release(n: Node)
    | Block | Unblock | Close

  function LinkTo(seen: Word): Option<Node> {
    if seen.Top? then Some(seen.node) else None
  }

  function Backwards(xs: seq<Node>): seq<Node> {
    if xs == [] then [] else Backwards(xs[1..]) + [xs[0]]
  }

  // ---------------------------------------------------------------- steps

  /** The loop of push. */
  predicate RunStep(s: State, s': State, t: Tid, spurious: bool) {
    && t in s.threads && s.threads[t].n in s.next && s.threads[t].n in s.roles
    && match s.threads[t]
       case Load(n) => s' == s.(threads := s.threads[t := Link(n, s.word)])
       case Link(n, seen) =>
         if seen.ClosedTag? then  // the caller keeps the node
           s' == s.(threads := s.threads - {t}, roles := s.roles[n := Outside])
         else
           s' == s.(next := s.next[n := LinkTo(seen)], threads := s.threads[t := Swap(n, seen)])
       case Swap(n, seen) =>
         if spurious || s.word != seen then
           s' == s.(threads := s.threads[t := Link(n, s.word)])
         else
           s' == s.(word := Top(n), threads := s.threads - {t}, roles := s.roles[n := Stacked],
                    chain := [n] + s.chain, pushed := s.pushed + [n])
  }

  function TakenRoles(roles: map<Node, Role>, chain: seq<Node>): map<Node, Role> {
    map n | n in roles :: if n in chain then Taken else roles[n]
  }

  /** Exchange the stack for a tag. */
  function TakeAll(s: State, tag: Word): State {
    s.(word := tag, roles := TakenRoles(s.roles, s.chain), chain := [], taken := s.taken + Backwards(s.chain))
  }

  predicate NextStep(s: State, s': State, step: Step) {
    match step
    case Begin(t, n) =>
      t !in s.threads && n in s.roles && n in s.next && s.roles[n].Outside?
      && s' == s.(threads := s.threads[t := Load(n)], roles := s.roles[n := Carried(t)])
    case Run(t, spurious) => RunStep(s, s', t, spurious)
    case Take => (s.word.Top? || s.word.EmptyTag?) && s' == TakeAll(s, EmptyTag)
    case Relink(n, l) => n in s.roles && n in s.next && s.roles[n].Taken? && s' == s.(next := s.next[n := l])
    case Release(n) => n in s.roles && s.roles[n].Taken? && s' == s.(roles := s.roles[n := Outside])
    case Block => s.word.EmptyTag? && s' == s.(word := BlockedTag)
    case Unblock => s.word.BlockedTag? && s' == s.(word := EmptyTag)
    case Close => s' == TakeAll(s, ClosedTag)
  }

  ghost predicate Next(s: State, s': State) {
    exists step :: NextStep(s, s', step)
  }

  function Initial(nodes: set<Node>): State {
    State(EmptyTag, map n | n in nodes :: None, map[], map n | n in nodes :: Outside, [], [], [])
  }

  ghost predicate IsRun(nodes: set<Node>, run: seq<State>) {
    && run != [] && run[0] == Initial(nodes)
    && forall i :: 0 <= i < |run| - 1 ==> Next(run[i], run[i + 1])
  }

  ghost predicate Reachable(nodes: set<Node>, s: State) {
    exists run :: IsRun(nodes, run) && run[|run| - 1] == s
  }

  // ---------------------------------------------------------------- invariant

  /** From p on, the links spell out the chain and then end. */
  predicate Linked(p: Option<Node>, chain: seq<Node>, next: map<Node, Option<Node>>)
    decreases |chain|
  {
    if chain == [] then p.None?
    else p == Some(chain[0]) && chain[0] in next && Linked(next[chain[0]], chain[1..], next)
  }

  predicate WordInv(s: State) {
    Linked(LinkTo(s.word), s.chain, s.next)
  }

  /** Each thread works on a node of its own, whose link it has set from what it saw. */
  predicate ThreadInv(s: State) {
    && (forall t :: t in s.threads ==>
          && s.threads[t].n in s.roles && s.roles[s.threads[t].n] == Carried(t)
          && s.threads[t].n in s.next
          && (s.threads[t].Swap? ==> s.next[s.threads[t].n] == LinkTo(s.threads[t].seen) && !s.threads[t].seen.ClosedTag?))
    && (forall n :: n in s.roles && s.roles[n].Carried? ==> s.roles[n].t in s.threads && s.threads[s.roles[n].t].n == n)
  }

  ghost predicate ChainInv(s: State) {
    && s.roles.Keys == s.next.Keys
    && (forall n :: n in s.chain <==> n in s.roles && s.roles[n].Stacked?)
    && s.pushed == s.taken + Backwards(s.chain)
  }

  ghost predicate Inv(s: State) {
    WordInv(s) && ThreadInv(s) && ChainInv(s)
  }

  // ---------------------------------------------------------------- preservation

  /** Writing the link of a node that is not on the stack leaves the stack. */
  lemma {:induction false} OthersLinked(p: Option<Node>, chain: seq<Node>, next: map<Node, Option<Node>>, n: Node, l: Option<Node>)
    requires Linked(p, chain, next) && n !in chain
    ensures Linked(p, chain, next[n := l])
    decreases |chain|
  {
    if chain != [] { OthersLinked(next[chain[0]], chain[1..], next, n, l); }
  }

  lemma RunKeepsWord(s: State, s': State, t: Tid, spurious: bool)
    requires Inv(s) && RunStep(s, s', t, spurious)
    ensures WordInv(s')
  {
    var pc := s.threads[t];
    match pc
    case Load(_) =>
    case Link(n, seen) =>
      if !seen.ClosedTag? { OthersLinked(LinkTo(s.word), s.chain, s.next, n, LinkTo(seen)); }
    case Swap(n, seen) =>
      assert ([n] + s.chain)[1..] == s.chain;
  }

  lemma RunKeepsThreads(s: State, s': State, t: Tid, spurious: bool)
    requires ThreadInv(s) && RunStep(s, s', t, spurious)
    ensures ThreadInv(s')
  {
  }

  lemma RunKeepsChain(s: State, s': State, t: Tid, spurious: bool)
    requires ThreadInv(s) && ChainInv(s) && RunStep(s, s', t, spurious)
    ensures ChainInv(s')
  {
    var pc := s.threads[t];
    if pc.Swap? {
      assert ([pc.n] + s.chain)[1..] == s.chain;
      assert s.taken + (Backwards(s.chain) + [pc.n]) == s.taken + Backwards(s.chain) + [pc.n];
    }
  }

  lemma TakeKeepsInv(s: State, tag: Word)
    requires Inv(s) && !tag.Top?
    ensures Inv(TakeAll(s, tag))
  {
    var s' := TakeAll(s, tag);
    assert s'.taken + [] == s'.taken;
    assert forall n :: n in s.roles ==> s'.roles[n] == if s.roles[n].Stacked? then Taken else s.roles[n];
  }

  lemma OwnerKeepsInv(s: State, s': State, step: Step)
    requires Inv(s) && NextStep(s, s', step) && (step.Relink? || step.Release? || step.Block? || step.Unblock?)
    ensures Inv(s')
  {
    if step.Relink? { OthersLinked(LinkTo(s.word), s.chain, s.next, step.n, step.l); }
  }

  lemma BeginKeepsInv(s: State, s': State, t: Tid, n: Node)
    requires Inv(s) && NextStep(s, s', Begin(t, n))
    ensures Inv(s')
  {
  }

  lemma NextKeepsInv(s: State, s': State, step: Step)
    requires Inv(s) && NextStep(s, s', step)
    ensures Inv(s')
  {
    match step
    case Begin(t, n) => BeginKeepsInv(s, s', t, n);
    case Run(t, spurious) =>
      RunKeepsWord(s, s', t, spurious);
      RunKeepsThreads(s, s', t, spurious);
      RunKeepsChain(s, s', t, spurious);
    case Take => TakeKeepsInv(s, EmptyTag);
    case Close => TakeKeepsInv(s, ClosedTag);
    case _ => OwnerKeepsInv(s, s', step);
  }

  lemma {:induction false} InvOnRun(nodes: set<Node>, run: seq<State>, i: nat)
    requires IsRun(nodes, run) && i < |run|
    ensures Inv(run[i])
  {
    if i > 0 {
      InvOnRun(nodes, run, i - 1);
      assert Next(run[i - 1], run[i - 1 + 1]);
      var step :| NextStep(run[i - 1], run[i], step);
      NextKeepsInv(run[i - 1], run[i], step);
    }
  }

  lemma ReachableInv(nodes: set<Node>, s: State)
    requires Reachable(nodes, s)
    ensures Inv(s)
  {
    var run :| IsRun(nodes, run) && run[|run| - 1] == s;
    InvOnRun(nodes, run, |run| - 1);
  }

  // ---------------------------------------------------------------- theorems

  /** Whatever happened between the load and the exchange, ABA included, a successful exchange puts the
      node on top of the stack as it is now, and the links spell it out; it opens a blocked mailbox and
      never replaces the closed tag. */
  lemma PushGoesOnTop(nodes: set<Node>, s: State, s': State, t: Tid)
    requires Reachable(nodes, s) && RunStep(s, s', t, false) && s.threads[t].Swap? && s.word == s.threads[t].seen
    ensures s'.chain == [s.threads[t].n] + s.chain && s.threads[t].n !in s.chain
    ensures s'.word == Top(s.threads[t].n) && Linked(LinkTo(s'.word), s'.chain, s'.next)
    ensures !s.word.ClosedTag? && (s.word.BlockedTag? ==> s.chain == [])
  {
    ReachableInv(nodes, s);
    RunKeepsWord(s, s', t, false);
  }

  /** The owner's exchange gets exactly what is on the stack, linked newest first, and leaves it empty. */
  lemma TakeGetsTheStack(nodes: set<Node>, s: State, s': State)
    requires Reachable(nodes, s) && NextStep(s, s', Take)
    ensures Linked(LinkTo(s.word), s.chain, s'.next) && s'.chain == [] && s'.word.EmptyTag?
    ensures s'.taken == s.taken + Backwards(s.chain)
  {
    ReachableInv(nodes, s);
  }

  /** Nodes are taken in the order their exchanges succeeded, and the rest of that order is exactly what
      the links spell out from the top: none lost, none twice, no cycle. */
  lemma TakenInPushOrder(nodes: set<Node>, s: State)
    requires Reachable(nodes, s)
    ensures s.pushed == s.taken + Backwards(s.chain)
    ensures Linked(LinkTo(s.word), s.chain, s.next)
    ensures forall i, j :: 0 <= i < j < |s.chain| ==> s.chain[i] != s.chain[j]
  {
    ReachableInv(nodes, s);
    forall i, j | 0 <= i < j < |s.chain|
      ensures s.chain[i] != s.chain[j]
    {
      Acyclic(LinkTo(s.word), s.chain, s.next, i, j);
    }
  }

  lemma {:induction false} Suffix(p: Option<Node>, chain: seq<Node>, next: map<Node, Option<Node>>, k: nat)
    requires Linked(p, chain, next) && k < |chain|
    ensures Linked(Some(chain[k]), chain[k..], next)
    decreases k
  {
    if k > 0 {
      Suffix(next[chain[0]], chain[1..], next, k - 1);
      assert chain[1..][k - 1..] == chain[k..];
    }
  }

  lemma {:induction false} SameLength(p: Option<Node>, xs: seq<Node>, ys: seq<Node>, next: map<Node, Option<Node>>)
    requires Linked(p, xs, next) && Linked(p, ys, next)
    ensures |xs| == |ys|
    decreases |xs|
  {
    if xs != [] && ys != [] { SameLength(next[xs[0]], xs[1..], ys[1..], next); }
  }

  lemma Acyclic(p: Option<Node>, chain: seq<Node>, next: map<Node, Option<Node>>, i: nat, j: nat)
    requires Linked(p, chain, next) && i < j < |chain|
    ensures chain[i] != chain[j]
  {
    Suffix(p, chain, next, i);
    Suffix(p, chain, next, j);
    if chain[i] == chain[j] { SameLength(Some(chain[i]), chain[i..], chain[j..], next); }
  }

  // ---------------------------------------------------------------- a push that nobody disturbs

  /** Who saw the closed tag saw what stays. */
  predicate SeenInv(s: State) {
    forall t :: t in s.threads && !s.threads[t].Load? && s.threads[t].seen.ClosedTag? ==> s.word.ClosedTag?
  }

  lemma NextKeepsSeen(s: State, s': State)
    requires ThreadInv(s) && SeenInv(s) && Next(s, s')
    ensures SeenInv(s')
  {
    var step :| NextStep(s, s', step);
    if step.Run? && s.threads[step.t].Swap? {
      assert !s.threads[step.t].seen.ClosedTag?;
    }
  }

  lemma {:induction false} SeenOnRun(nodes: set<Node>, run: seq<State>, i: nat)
    requires IsRun(nodes, run) && i < |run|
    ensures SeenInv(run[i])
  {
    if i > 0 {
      SeenOnRun(nodes, run, i - 1);
      InvOnRun(nodes, run, i - 1);
      assert Next(run[i - 1], run[i - 1 + 1]);
      NextKeepsSeen(run[i - 1], run[i]);
    }
  }

  lemma ReachableSeen(nodes: set<Node>, s: State)
    requires Reachable(nodes, s)
    ensures Inv(s) && SeenInv(s)
  {
    var run :| IsRun(nodes, run) && run[|run| - 1] == s;
    InvOnRun(nodes, run, |run| - 1);
    SeenOnRun(nodes, run, |run| - 1);
  }

  lemma Extend(nodes: set<Node>, s: State, s': State, step: Step)
    requires Reachable(nodes, s) && NextStep(s, s', step)
    ensures Reachable(nodes, s')
  {
    var run :| IsRun(nodes, run) && run[|run| - 1] == s;
    var longer := run + [s'];
    forall i | 0 <= i < |longer| - 1
      ensures Next(longer[i], longer[i + 1])
    {
      if i < |run| - 1 { assert Next(run[i], run[i + 1]); }
    }
    assert IsRun(nodes, longer) && longer[|longer| - 1] == s';
  }

  /** A push gives its node back only if the mailbox is closed. */
  lemma RefusedOnlyIfClosed(nodes: set<Node>, s: State, s': State, t: Tid, spurious: bool)
    requires Reachable(nodes, s) && RunStep(s, s', t, spurious) && t !in s'.threads && s'.pushed == s.pushed
    ensures s.word.ClosedTag?
  {
    ReachableSeen(nodes, s);
    if s.threads[t].Swap? { assert |s'.pushed| == |s.pushed|; }
  }

  /** Whatever it has seen so far, a push that now runs alone gets done: its node is on top of what was
      there, or the mailbox is closed and the node is the caller's again. */
  lemma SoloPush(nodes: set<Node>, s: State, t: Tid) returns (s': State)
    requires Reachable(nodes, s) && t in s.threads
    ensures Reachable(nodes, s') && s'.threads == s.threads - {t} && s.threads[t].n in s'.roles
    ensures if s.word.ClosedTag? then s'.chain == s.chain && s'.word == s.word && s'.roles[s.threads[t].n].Outside?
            else s'.chain == [s.threads[t].n] + s.chain && s'.word == Top(s.threads[t].n)
  {
    ReachableSeen(nodes, s);
    match s.threads[t] {
      case Load(n) =>
        var s1 := s.(threads := s.threads[t := Link(n, s.word)]);
        Extend(nodes, s, s1, Run(t, false));
        s' := SoloLink(nodes, s1, t);
        assert s1.threads - {t} == s.threads - {t};
      case Link(n, seen) =>
        s' := SoloLink(nodes, s, t);
      case Swap(n, seen) =>
        if s.word == seen {
          s' := SoloSwap(nodes, s, t);
        } else {
          var s1 := s.(threads := s.threads[t := Link(n, s.word)]);
          Extend(nodes, s, s1, Run(t, false));
          s' := SoloLink(nodes, s1, t);
          assert s1.threads - {t} == s.threads - {t};
        }
    }
  }

  lemma SoloSwap(nodes: set<Node>, s: State, t: Tid) returns (s': State)
    requires Reachable(nodes, s) && t in s.threads && s.threads[t].Swap? && s.threads[t].seen == s.word
    ensures Reachable(nodes, s') && s'.threads == s.threads - {t} && s.threads[t].n in s'.roles
    ensures !s.word.ClosedTag? && s'.chain == [s.threads[t].n] + s.chain && s'.word == Top(s.threads[t].n)
  {
    ReachableInv(nodes, s);
    var n := s.threads[t].n;
    s' := s.(word := Top(n), threads := s.threads - {t}, roles := s.roles[n := Stacked],
             chain := [n] + s.chain, pushed := s.pushed + [n]);
    Extend(nodes, s, s', Run(t, false));
  }

  lemma SoloLink(nodes: set<Node>, s: State, t: Tid) returns (s': State)
    requires Reachable(nodes, s) && t in s.threads && s.threads[t].Link?
    ensures Reachable(nodes, s') && s'.threads == s.threads - {t} && s.threads[t].n in s'.roles
    ensures if s.word.ClosedTag? then s'.chain == s.chain && s'.word == s.word && s'.roles[s.threads[t].n].Outside?
            else s'.chain == [s.threads[t].n] + s.chain && s'.word == Top(s.threads[t].n)
    decreases s.threads[t].seen != s.word
  {
    ReachableSeen(nodes, s);
    var n, seen := s.threads[t].n, s.threads[t].seen;
    if seen.ClosedTag? {
      s' := s.(threads := s.threads - {t}, roles := s.roles[n := Outside]);
      Extend(nodes, s, s', Run(t, false));
    } else {
      var s1 := s.(next := s.next[n := LinkTo(seen)], threads := s.threads[t := Swap(n, seen)]);
      Extend(nodes, s, s1, Run(t, false));
      if seen == s.word {
        s' := SoloSwap(nodes, s1, t);
        assert s1.threads - {t} == s.threads - {t};
      } else {
        var s2 := s1.(threads := s1.threads[t := Link(n, s.word)]);
        Extend(nodes, s1, s2, Run(t, false));
        s' := SoloLink(nodes, s2, t);
        assert s2.threads - {t} == s.threads - {t};
      }
    }
  }
}
