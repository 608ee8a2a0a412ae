/** The mailbox under any number of concurrent producers, one atomic access a step: what its two
    counters say, and in which order messages come out. The linked lists behind it are the subject
    of the Mailbox module; here they are sequences in push order. */
module MailboxOrder {
  import opened Common

  type Sender = nat

  datatype Msg = Msg(call: bool, sender: Sender, serial: nat)

  datatype Status = Open | Blocked | Closed

  /** A producer between counting its message and publishing or uncounting it. */
  datatype ProducerPc = Publishing(m: Msg) | Uncounting(m: Msg)

  /** The owner inside pop() or close(). before is how many pushes had taken effect when pop() began. */
  datatype ConsumerPc =
    | Idle
    | Check(before: nat)     // about to read the call counter
    | FetchCalls(before: nat)
    | Choose(before: nat)
    | FetchAny(before: nat)
    | Take(before: nat)
    | Uncount(m: Msg)
    | Dropping(rest: seq<Msg>)

  datatype Word = Word(status: Status, stack: seq<Msg>)  // oldest first
  datatype Counts = Counts(calls: int, others: int)
  datatype Caches = Caches(calls: seq<Msg>, others: seq<Msg>)

  datatype State = State(
    word: Word,
    counts: Counts,
    caches: Caches,
    producers: map<Sender, ProducerPc>,
    pc: ConsumerPc,
    // history
    serials: map<Sender, nat>,
    pushed: seq<Msg>,
    delivered: seq<Msg>
  )

  datatype Step =
    | BeginPush(t: Sender, call: bool) | TryPush(t: Sender) | UncountPush(t: Sender)
    | BeginPop | RunPop
    | TryBlock | TryUnblock
    | BeginClose | DropOne

  // ---------------------------------------------------------------- steps

  function Count(c: Counts, call: bool): int {
    if call then c.calls else c.others
  }

  function Add(c: Counts, call: bool, d: int): Counts {
    if call then c.(calls := c.calls + d) else c.(others := c.others + d)
  }

  function Cached(c: Caches, call: bool): seq<Msg> {
    if call then c.calls else c.others
  }

  /** The messages of one kind, in order. */
  function Only(xs: seq<Msg>, call: bool): seq<Msg> {
    if xs == [] then []
    else (if xs[0].call == call then [xs[0]] else []) + Only(xs[1..], call)
  }

  function Fetched(c: Caches, stack: seq<Msg>): Caches {
    Caches(c.calls + Only(stack, true), c.others + Only(stack, false))
  }

  function NextSerial(s: State, t: Sender): nat {
    if t in s.serials then s.serials[t] else 0
  }

  predicate PushStep(s: State, s': State, step: Step)
    requires step.BeginPush? || step.TryPush? || step.UncountPush?
  {
    match step
    case BeginPush(t, call) =>
      var m := Msg(call, t, NextSerial(s, t));
      t !in s.producers
      && s' == s.(counts := Add(s.counts, call, 1), producers := s.producers[t := Publishing(m)],
                  serials := s.serials[t := NextSerial(s, t) + 1])
    case TryPush(t) =>
      && t in s.producers && s.producers[t].Publishing?
      && var m := s.producers[t].m;
         if s.word.status.Closed? then
           s' == s.(producers := s.producers[t := Uncounting(m)])
         else
           s' == s.(word := Word(Open, s.word.stack + [m]), producers := s.producers - {t}, pushed := s.pushed + [m])
    case UncountPush(t) =>
      t in s.producers && s.producers[t].Uncounting?
      && s' == s.(counts := Add(s.counts, s.producers[t].m.call, -1), producers := s.producers - {t})
  }

  /** Exchange the stack for the empty tag and split it into the caches. */
  function Fetch(s: State, pc: ConsumerPc): State {
    s.(word := Word(Open, []), caches := Fetched(s.caches, s.word.stack), pc := pc)
  }

  function TakeFrom(s: State): State
    requires s.caches.calls != [] || s.caches.others != []
  {
    if s.caches.calls != [] then
      var m := s.caches.calls[0];
      s.(caches := s.caches.(calls := s.caches.calls[1..]), pc := Uncount(m), delivered := s.delivered + [m])
    else
      var m := s.caches.others[0];
      s.(caches := s.caches.(others := s.caches.others[1..]), pc := Uncount(m), delivered := s.delivered + [m])
  }

  predicate PopStep(s: State, s': State) {
    match s.pc
    case Check(b) =>
      s' == s.(pc := if s.caches.calls == [] && s.counts.calls > 0 then FetchCalls(b) else Choose(b))
    case FetchCalls(b) => s' == Fetch(s, Choose(b))
    case Choose(b) =>
      s' == s.(pc := if s.caches.calls == [] && s.caches.others == [] then FetchAny(b) else Take(b))
    case FetchAny(b) => s' == Fetch(s, if s.word.stack == [] then Idle else Take(b))
    case Take(_) => (s.caches.calls != [] || s.caches.others != []) && s' == TakeFrom(s)
    case Uncount(m) => s' == s.(counts := Add(s.counts, m.call, -1), pc := Idle)
    case _ => false
  }

  function Reverse(xs: seq<Msg>): seq<Msg> {
    if xs == [] then [] else Reverse(xs[1..]) + [xs[0]]
  }

  predicate OwnerStep(s: State, s': State, step: Step)
    requires step.BeginPop? || step.TryBlock? || step.TryUnblock? || step.BeginClose? || step.DropOne?
  {
    match step
    case BeginPop => s.pc.Idle? && s.word.status.Open? && s' == s.(pc := Check(|s.pushed|))
    case TryBlock =>
      s.pc.Idle? && s.caches == Caches([], []) && s.word == Word(Open, []) && s' == s.(word := Word(Blocked, []))
    case TryUnblock => s.word.status.Blocked? && s' == s.(word := s.word.(status := Open))
    case BeginClose =>
      s.pc.Idle?
      && s' == s.(word := Word(Closed, []), caches := Caches([], []),
                  pc := Dropping(s.caches.calls + s.caches.others + Reverse(s.word.stack)))
    case DropOne =>
      s.pc.Dropping?
      && s' == if s.pc.rest == [] then s.(pc := Idle)
               else s.(counts := Add(s.counts, s.pc.rest[0].call, -1), pc := Dropping(s.pc.rest[1..]))
  }

  predicate NextStep(s: State, s': State, step: Step) {
    match step
    case BeginPush(_, _) => PushStep(s, s', step)
    case TryPush(_) => PushStep(s, s', step)
    case UncountPush(_) => PushStep(s, s', step)
    case RunPop => PopStep(s, s')
    case _ => OwnerStep(s, s', step)
  }

  ghost predicate Next(s: State, s': State) {
    exists step :: NextStep(s, s', step)
  }

  const INITIAL: State :=
    State(Word(Open, []), Counts(0, 0), Caches([], []), map[], Idle, map[], [], [])

  ghost predicate IsRun(run: seq<State>) {
    && run != [] && run[0] == INITIAL
    && forall i :: 0 <= i < |run| - 1 ==> Next(run[i], run[i + 1])
  }

  ghost predicate Reachable(s: State) {
    exists run :: IsRun(run) && run[|run| - 1] == s
  }

  // ---------------------------------------------------------------- invariant

  /** Producers that have counted a message of this kind and not published or uncounted it. */
  function Counting(producers: map<Sender, ProducerPc>, call: bool): set<Sender> {
    set t | t in producers && producers[t].m.call == call
  }

  /** Messages the owner has taken and not yet uncounted. */
  function Owed(pc: ConsumerPc, call: bool): nat {
    match pc
    case Uncount(m) => if m.call == call then 1 else 0
    case Dropping(rest) => |Only(rest, call)|
    case _ => 0
  }

  function Queued(s: State, call: bool): nat {
    |Cached(s.caches, call)| + |Only(s.word.stack, call)|
  }

  predicate CountInv(s: State, call: bool) {
    Count(s.counts, call) == Queued(s, call) + |Counting(s.producers, call)| + Owed(s.pc, call)
  }

  predicate AllOf(xs: seq<Msg>, call: bool) {
    forall i :: 0 <= i < |xs| ==> xs[i].call == call
  }

  predicate ShapeInv(s: State) {
    && AllOf(s.caches.calls, true) && AllOf(s.caches.others, false)
    && (s.word.status.Closed? ==> s.caches == Caches([], []) && s.word.stack == [] && (s.pc.Idle? || s.pc.Dropping?))
    && (s.word.status.Blocked? ==> s.caches == Caches([], []) && s.word.stack == [] && s.pc.Idle?)
    && (s.pc.Dropping? ==> s.word.status.Closed?)
    && (s.pc.Take? ==> s.caches.calls != [] || s.caches.others != [])
    && (s.pc.FetchAny? ==> s.caches == Caches([], []))
  }

  /** While the mailbox is not closed, the pushes of one kind are those delivered, then those cached,
      then those on the stack, in this order. */
  predicate FifoInv(s: State, call: bool) {
    && IsPrefix(Only(s.delivered, call), Only(s.pushed, call))
    && (!s.word.status.Closed? ==>
          Only(s.pushed, call) == Only(s.delivered, call) + Cached(s.caches, call) + Only(s.word.stack, call))
  }

  predicate Popping(pc: ConsumerPc) {
    pc.Check? || pc.FetchCalls? || pc.Choose? || pc.FetchAny? || pc.Take?
  }

  /** Every call pushed before this pop began has been delivered. */
  predicate CallsServed(s: State, before: nat) {
    before <= |s.pushed| && |Only(s.pushed[..before], true)| <= |Only(s.delivered, true)|
  }

  predicate PriorityInv(s: State) {
    && (Popping(s.pc) ==> s.pc.before <= |s.pushed|)
    && ((s.pc.Choose? || s.pc.FetchAny? || s.pc.Take?) && s.caches.calls == [] ==> CallsServed(s, s.pc.before))
  }

  predicate InSerialOrder(xs: seq<Msg>) {
    forall i, j :: 0 <= i < j < |xs| && xs[i].sender == xs[j].sender ==> xs[i].serial < xs[j].serial
  }

  predicate SerialInv(s: State) {
    && InSerialOrder(s.pushed)
    && (forall i :: 0 <= i < |s.pushed| ==> s.pushed[i].serial < NextSerial(s, s.pushed[i].sender))
    && (forall t :: t in s.producers ==> s.producers[t].m.sender == t && s.producers[t].m.serial + 1 == NextSerial(s, t))
    && (forall t, i :: t in s.producers && 0 <= i < |s.pushed| && s.pushed[i].sender == t ==>
          s.pushed[i].serial < s.producers[t].m.serial)
  }

  predicate Inv(s: State) {
    && ShapeInv(s) && CountInv(s, true) && CountInv(s, false) && FifoInv(s, true) && FifoInv(s, false)
    && PriorityInv(s) && SerialInv(s)
  }

  // ---------------------------------------------------------------- sequences by kind

  lemma {:induction false} OnlyAppend(xs: seq<Msg>, ys: seq<Msg>, call: bool)
    ensures Only(xs + ys, call) == Only(xs, call) + Only(ys, call)
  {
    if xs == [] {
      assert xs + ys == ys;
    } else {
      assert (xs + ys)[1..] == xs[1..] + ys;
      OnlyAppend(xs[1..], ys, call);
      var first := if xs[0].call == call then [xs[0]] else [];
      assert first + (Only(xs[1..], call) + Only(ys, call)) == first + Only(xs[1..], call) + Only(ys, call);
    }
  }

  lemma {:induction false} OnlyAllOf(xs: seq<Msg>, call: bool)
    requires AllOf(xs, call)
    ensures Only(xs, call) == xs && Only(xs, !call) == []
  {
    if xs != [] {
      OnlyAllOf(xs[1..], call);
      assert xs == [xs[0]] + xs[1..];
    }
  }

  lemma {:induction false} OnlyKind(xs: seq<Msg>, call: bool)
    ensures AllOf(Only(xs, call), call)
  {
    if xs != [] { OnlyKind(xs[1..], call); }
  }

  lemma {:induction false} OnlyReverse(xs: seq<Msg>, call: bool)
    ensures |Only(Reverse(xs), call)| == |Only(xs, call)|
  {
    if xs != [] {
      OnlyReverse(xs[1..], call);
      OnlyAppend(Reverse(xs[1..]), [xs[0]], call);
    }
  }

  lemma OnlyOne(m: Msg, call: bool)
    ensures Only([m], call) == if m.call == call then [m] else []
  {
    assert Only([m][1..], call) == [];
  }

  lemma OnlyPrefix(xs: seq<Msg>, n: nat, call: bool)
    requires n <= |xs|
    ensures IsPrefix(Only(xs[..n], call), Only(xs, call))
  {
    assert xs == xs[..n] + xs[n..];
    OnlyAppend(xs[..n], xs[n..], call);
  }

  lemma {:induction false} OnlyMember(xs: seq<Msg>, call: bool, m: Msg)
    requires m in Only(xs, call)
    ensures m in xs
  {
    if m != xs[0] { OnlyMember(xs[1..], call, m); }
  }

  lemma RestInOrder(xs: seq<Msg>)
    requires InSerialOrder(xs) && xs != []
    ensures InSerialOrder(xs[1..])
    ensures forall m :: m in xs[1..] && m.sender == xs[0].sender ==> xs[0].serial < m.serial
  {
    var rest := xs[1..];
    assert forall i :: 0 <= i < |rest| ==> rest[i] == xs[i + 1];
  }

  lemma FrontInOrder(m: Msg, rest: seq<Msg>)
    requires InSerialOrder(rest) && forall x :: x in rest && x.sender == m.sender ==> m.serial < x.serial
    ensures InSerialOrder([m] + rest)
  {
  }

  /** Leaving out the other kind keeps each sender's order. */
  lemma {:induction false} OnlyKeepsSerials(xs: seq<Msg>, call: bool)
    requires InSerialOrder(xs)
    ensures InSerialOrder(Only(xs, call))
  {
    if xs != [] {
      RestInOrder(xs);
      OnlyKeepsSerials(xs[1..], call);
      var rest := Only(xs[1..], call);
      forall x | x in rest ensures x in xs[1..] { OnlyMember(xs[1..], call, x); }
      FrontInOrder(xs[0], rest);
      assert Only(xs, call) == if xs[0].call == call then [xs[0]] + rest else rest;
    }
  }

  // ---------------------------------------------------------------- counters

  lemma CountingLeaves(producers: map<Sender, ProducerPc>, t: Sender, call: bool)
    requires t in producers
    ensures |Counting(producers, call)| == |Counting(producers - {t}, call)| + if producers[t].m.call == call then 1 else 0
  {
    var rest := Counting(producers - {t}, call);
    assert t !in rest;
    assert Counting(producers, call) == if producers[t].m.call == call then rest + {t} else rest;
  }

  lemma CountingSet(producers: map<Sender, ProducerPc>, t: Sender, p: ProducerPc, call: bool)
    ensures |Counting(producers[t := p], call)| == |Counting(producers - {t}, call)| + if p.m.call == call then 1 else 0
  {
    CountingLeaves(producers[t := p], t, call);
    assert producers[t := p] - {t} == producers - {t};
  }

  lemma PushKeepsCount(s: State, s': State, step: Step, call: bool)
    requires step.BeginPush? || step.TryPush? || step.UncountPush?
    requires CountInv(s, call) && PushStep(s, s', step)
    ensures CountInv(s', call)
  {
    match step {
      case BeginPush(t, c) =>
        CountingSet(s.producers, t, s'.producers[t], call);
        assert s.producers - {t} == s.producers;
      case TryPush(t) =>
        var m := s.producers[t].m;
        CountingLeaves(s.producers, t, call);
        if s.word.status.Closed? {
          CountingSet(s.producers, t, Uncounting(m), call);
        } else {
          OnlyAppend(s.word.stack, [m], call);
          OnlyOne(m, call);
        }
      case UncountPush(t) =>
        CountingLeaves(s.producers, t, call);
    }
  }

  lemma PopKeepsCount(s: State, s': State, call: bool)
    requires CountInv(s, call) && ShapeInv(s) && PopStep(s, s')
    ensures CountInv(s', call)
  {
    if s.pc.Take? {
      TakeKeepsCount(s, call);
    } else if s.pc.FetchCalls? || s.pc.FetchAny? {
      FetchKeepsCount(s, s'.pc, call);
    }
  }

  lemma TakeKeepsCount(s: State, call: bool)
    requires CountInv(s, call) && ShapeInv(s) && s.pc.Take?
    ensures CountInv(TakeFrom(s), call)
  {
  }

  lemma FetchKeepsCount(s: State, pc: ConsumerPc, call: bool)
    requires CountInv(s, call) && Owed(pc, call) == 0 == Owed(s.pc, call)
    ensures CountInv(Fetch(s, pc), call)
  {
  }

  lemma OwnerKeepsCount(s: State, s': State, step: Step, call: bool)
    requires step.BeginPop? || step.TryBlock? || step.TryUnblock? || step.BeginClose? || step.DropOne?
    requires CountInv(s, call) && ShapeInv(s) && OwnerStep(s, s', step)
    ensures CountInv(s', call)
  {
    if step.BeginClose? {
      var c := s.caches;
      OnlyAppend(c.calls + c.others, Reverse(s.word.stack), call);
      OnlyAppend(c.calls, c.others, call);
      OnlyAllOf(c.calls, true);
      OnlyAllOf(c.others, false);
      OnlyReverse(s.word.stack, call);
    }
  }

  // ---------------------------------------------------------------- order

  lemma PushKeepsFifo(s: State, s': State, step: Step, call: bool)
    requires step.BeginPush? || step.TryPush? || step.UncountPush?
    requires FifoInv(s, call) && PushStep(s, s', step)
    ensures FifoInv(s', call)
  {
    if step.TryPush? && !s.word.status.Closed? {
      var m := s.producers[step.t].m;
      OnlyAppend(s.word.stack, [m], call);
      OnlyAppend(s.pushed, [m], call);
      GrowBehind(Only(s.delivered, call), Cached(s.caches, call), Only(s.word.stack, call), Only([m], call));
    }
  }

  lemma GrowBehind(d: seq<Msg>, c: seq<Msg>, stack: seq<Msg>, x: seq<Msg>)
    ensures d + c + stack + x == d + c + (stack + x)
    ensures IsPrefix(d, d + c + stack + x)
  {
  }

  lemma ShiftOne(d: seq<Msg>, c: seq<Msg>, rest: seq<Msg>)
    requires c != []
    ensures d + c + rest == d + [c[0]] + c[1..] + rest
    ensures IsPrefix(d + [c[0]], d + c + rest)
  {
    assert c == [c[0]] + c[1..];
  }

  lemma TakeKeepsFifo(s: State, call: bool)
    requires FifoInv(s, call) && ShapeInv(s) && s.pc.Take?
    ensures FifoInv(TakeFrom(s), call)
  {
    var d, c, rest := Only(s.delivered, call), Cached(s.caches, call), Only(s.word.stack, call);
    var m := TakeFrom(s).pc.m;
    OnlyAppend(s.delivered, [m], call);
    OnlyOne(m, call);
    if m.call == call {
      assert c != [] && m == c[0];
      ShiftOne(d, c, rest);
      assert Cached(TakeFrom(s).caches, call) == c[1..];
    } else {
      assert d + [] == d;
      assert Cached(TakeFrom(s).caches, call) == c;
    }
  }

  lemma FetchKeepsFifo(s: State, pc: ConsumerPc, call: bool)
    requires FifoInv(s, call) && !s.word.status.Closed?
    ensures FifoInv(Fetch(s, pc), call)
  {
    var c, stack := Cached(s.caches, call), Only(s.word.stack, call);
    assert Only(s.delivered, call) + c + stack == Only(s.delivered, call) + (c + stack) + [];
  }

  lemma PopKeepsFifo(s: State, s': State, call: bool)
    requires FifoInv(s, call) && ShapeInv(s) && PopStep(s, s')
    ensures FifoInv(s', call)
  {
    if s.pc.Take? {
      TakeKeepsFifo(s, call);
    } else if s.pc.FetchCalls? || s.pc.FetchAny? {
      FetchKeepsFifo(s, s'.pc, call);
    }
  }

  lemma OwnerKeepsFifo(s: State, s': State, step: Step, call: bool)
    requires step.BeginPop? || step.TryBlock? || step.TryUnblock? || step.BeginClose? || step.DropOne?
    requires FifoInv(s, call) && OwnerStep(s, s', step)
    ensures FifoInv(s', call)
  {
  }

  lemma PushKeepsShape(s: State, s': State, step: Step)
    requires step.BeginPush? || step.TryPush? || step.UncountPush?
    requires ShapeInv(s) && PushStep(s, s', step)
    ensures ShapeInv(s')
  {
  }

  lemma PopKeepsShape(s: State, s': State)
    requires ShapeInv(s) && PopStep(s, s')
    ensures ShapeInv(s')
  {
    OnlyKind(s.word.stack, true);
    OnlyKind(s.word.stack, false);
    if s.pc.FetchAny? && s.word.stack != [] {
      OnlySplits(s.word.stack);
    }
  }

  lemma {:induction false} OnlySplits(xs: seq<Msg>)
    ensures |Only(xs, true)| + |Only(xs, false)| == |xs|
  {
    if xs != [] { OnlySplits(xs[1..]); }
  }

  lemma OwnerKeepsShape(s: State, s': State, step: Step)
    requires step.BeginPop? || step.TryBlock? || step.TryUnblock? || step.BeginClose? || step.DropOne?
    requires ShapeInv(s) && OwnerStep(s, s', step)
    ensures ShapeInv(s')
  {
  }

  /** With no call cached and none on the stack, every call pushed so far has been delivered. */
  lemma NoCallQueued(s: State, before: nat)
    requires FifoInv(s, true) && !s.word.status.Closed? && Queued(s, true) == 0 && before <= |s.pushed|
    ensures CallsServed(s, before)
  {
    OnlyPrefix(s.pushed, before, true);
  }

  lemma PushKeepsPriority(s: State, s': State, step: Step)
    requires step.BeginPush? || step.TryPush? || step.UncountPush?
    requires PriorityInv(s) && PushStep(s, s', step)
    ensures PriorityInv(s')
  {
    if Popping(s.pc) {
      assert s'.pushed[..s.pc.before] == s.pushed[..s.pc.before];
    }
  }

  lemma PopKeepsPriority(s: State, s': State)
    requires PriorityInv(s) && FifoInv(s, true) && CountInv(s, true) && ShapeInv(s) && PopStep(s, s')
    ensures PriorityInv(s')
  {
    if (s.pc.Check? || s.pc.FetchCalls?) && s'.pc.Choose? && s'.caches.calls == [] {
      NoCallQueued(s, s.pc.before);
    }
  }

  lemma OwnerKeepsPriority(s: State, s': State, step: Step)
    requires step.BeginPop? || step.TryBlock? || step.TryUnblock? || step.BeginClose? || step.DropOne?
    requires PriorityInv(s) && OwnerStep(s, s', step)
    ensures PriorityInv(s')
  {
  }

  lemma BeginKeepsSerials(s: State, s': State, step: Step)
    requires step.BeginPush? && SerialInv(s) && PushStep(s, s', step)
    ensures SerialInv(s')
  {
    assert s'.pushed == s.pushed;
    assert forall t :: NextSerial(s, t) <= NextSerial(s', t);
    assert forall t :: t != step.t ==> NextSerial(s, t) == NextSerial(s', t);
  }

  lemma PublishKeepsSerials(s: State, s': State, step: Step)
    requires step.TryPush? && SerialInv(s) && PushStep(s, s', step)
    ensures SerialInv(s')
  {
    assert s'.serials == s.serials;
  }

  /** What SerialInv looks at: a step that leaves it alone, or drops a producer, keeps it. */
  lemma SerialsFrame(s: State, s': State)
    requires SerialInv(s) && s'.pushed == s.pushed && s'.serials == s.serials
    requires forall t :: t in s'.producers ==> t in s.producers && s'.producers[t].m == s.producers[t].m
    ensures SerialInv(s')
  {
  }

  lemma PushKeepsInv(s: State, s': State, step: Step)
    requires step.BeginPush? || step.TryPush? || step.UncountPush?
    requires Inv(s) && PushStep(s, s', step)
    ensures Inv(s')
  {
    PushKeepsShape(s, s', step);
    PushKeepsCount(s, s', step, true);
    PushKeepsCount(s, s', step, false);
    PushKeepsFifo(s, s', step, true);
    PushKeepsFifo(s, s', step, false);
    PushKeepsPriority(s, s', step);
    match step {
      case BeginPush(_, _) => BeginKeepsSerials(s, s', step);
      case TryPush(_) => PublishKeepsSerials(s, s', step);
      case _ => SerialsFrame(s, s');
    }
  }

  lemma PopKeepsInv(s: State, s': State)
    requires Inv(s) && PopStep(s, s')
    ensures Inv(s')
  {
    PopKeepsShape(s, s');
    PopKeepsCount(s, s', true);
    PopKeepsCount(s, s', false);
    PopKeepsFifo(s, s', true);
    PopKeepsFifo(s, s', false);
    PopKeepsPriority(s, s');
    SerialsFrame(s, s');
  }

  lemma OwnerKeepsInv(s: State, s': State, step: Step)
    requires step.BeginPop? || step.TryBlock? || step.TryUnblock? || step.BeginClose? || step.DropOne?
    requires Inv(s) && OwnerStep(s, s', step)
    ensures Inv(s')
  {
    OwnerKeepsShape(s, s', step);
    OwnerKeepsCount(s, s', step, true);
    OwnerKeepsCount(s, s', step, false);
    OwnerKeepsFifo(s, s', step, true);
    OwnerKeepsFifo(s, s', step, false);
    OwnerKeepsPriority(s, s', step);
    SerialsFrame(s, s');
  }

  lemma NextKeepsInv(s: State, s': State, step: Step)
    requires Inv(s) && NextStep(s, s', step)
    ensures Inv(s')
  {
    match step {
      case BeginPush(_, _) => PushKeepsInv(s, s', step);
      case TryPush(_) => PushKeepsInv(s, s', step);
      case UncountPush(_) => PushKeepsInv(s, s', step);
      case RunPop => PopKeepsInv(s, s');
      case _ => OwnerKeepsInv(s, s', step);
    }
  }

  lemma {:induction false} InvOnRun(run: seq<State>, i: nat)
    requires IsRun(run) && i < |run|
    ensures Inv(run[i])
  {
    if i == 0 {
      assert Counting(INITIAL.producers, true) == {} && Counting(INITIAL.producers, false) == {};
    } else {
      InvOnRun(run, i - 1);
      assert Next(run[i - 1], run[i - 1 + 1]);
      var step :| NextStep(run[i - 1], run[i], step);
      NextKeepsInv(run[i - 1], run[i], step);
    }
  }

  lemma ReachableInv(s: State)
    requires Reachable(s)
    ensures Inv(s)
  {
    var run :| IsRun(run) && run[|run| - 1] == s;
    InvOnRun(run, |run| - 1);
  }

  // ---------------------------------------------------------------- theorems

  /** A counter is never below the number of queued messages of its kind, so never negative, and is
      exact when no operation is in flight. */
  lemma CountersCover(s: State, call: bool)
    requires Reachable(s)
    ensures Count(s.counts, call) >= Queued(s, call) >= 0
    ensures s.producers == map[] && s.pc.Idle? ==> Count(s.counts, call) == Queued(s, call)
  {
    ReachableInv(s);
    if s.producers == map[] {
      assert Counting(s.producers, call) == {};
    }
  }

  /** Messages of one kind are delivered in the order their pushes took effect, and until the mailbox
      closes the undelivered rest of that order is exactly what is queued. */
  lemma DeliveredInPushOrder(s: State, call: bool)
    requires Reachable(s)
    ensures IsPrefix(Only(s.delivered, call), Only(s.pushed, call))
    ensures !s.word.status.Closed? ==>
              Only(s.pushed, call)[|Only(s.delivered, call)|..] == Cached(s.caches, call) + Only(s.word.stack, call)
  {
    ReachableInv(s);
    if !s.word.status.Closed? { RestQueued(s, call); }
  }

  lemma RestQueued(s: State, call: bool)
    requires FifoInv(s, call) && !s.word.status.Closed?
    ensures Only(s.pushed, call)[|Only(s.delivered, call)|..] == Cached(s.caches, call) + Only(s.word.stack, call)
  {
    var d, rest := Only(s.delivered, call), Cached(s.caches, call) + Only(s.word.stack, call);
    assert Only(s.pushed, call) == d + rest;
  }

  /** Calls first: a pop that takes an ordinary message does so only when every call whose push took
      effect before that pop began has been delivered. */
  lemma CallsOvertakeMessages(s: State, s': State)
    requires Reachable(s) && s.pc.Take? && PopStep(s, s') && !s'.pc.m.call
    ensures s.pc.before <= |s.pushed|
    ensures IsPrefix(Only(s.pushed[..s.pc.before], true), Only(s.delivered, true))
  {
    ReachableInv(s);
    OnlyPrefix(s.pushed, s.pc.before, true);
    var early, all := Only(s.pushed[..s.pc.before], true), Only(s.pushed, true);
    assert early == all[..|early|];
    assert Only(s.delivered, true) == all[..|Only(s.delivered, true)|];
  }

  /** Two messages of one kind from one sender are delivered in the order it sent them. */
  lemma SenderOrderKept(s: State, call: bool)
    requires Reachable(s)
    ensures InSerialOrder(Only(s.delivered, call))
  {
    ReachableInv(s);
    OnlyKeepsSerials(s.pushed, call);
    var d := Only(s.delivered, call);
    assert forall i :: 0 <= i < |d| ==> d[i] == Only(s.pushed, call)[..|d|][i];
  }

  /** A push that finds the mailbox open or blocked takes effect, and opens it; only a closed one refuses. */
  lemma PushTakesEffect(s: State, s': State, t: Sender)
    requires NextStep(s, s', TryPush(t))
    ensures t in s.producers
    ensures var m := s.producers[t].m;
            if s.word.status.Closed? then s'.pushed == s.pushed && s'.word == s.word
            else
              && s'.pushed == s.pushed + [m] && s'.word.status.Open? && t !in s'.producers
              && Queued(s', m.call) == Queued(s, m.call) + 1 && Queued(s', !m.call) == Queued(s, !m.call)
  {
    if !s.word.status.Closed? {
      OnlyAppend(s.word.stack, [s.producers[t].m], true);
      OnlyAppend(s.word.stack, [s.producers[t].m], false);
    }
  }

  /** A pop comes back without a message only in a step at which nothing was queued. */
  lemma EmptyPopSawNothing(s: State, s': State)
    requires Reachable(s) && Popping(s.pc) && PopStep(s, s') && s'.pc.Idle?
    ensures Queued(s, true) == 0 && Queued(s, false) == 0 && s'.delivered == s.delivered
  {
    ReachableInv(s);
  }

  // ---------------------------------------------------------------- a pop that nobody disturbs

  lemma Extend(s: State, s': State, step: Step)
    requires Reachable(s) && NextStep(s, s', step)
    ensures Reachable(s')
  {
    var run :| IsRun(run) && run[|run| - 1] == s;
    var longer := run + [s'];
    forall i | 0 <= i < |longer| - 1
      ensures Next(longer[i], longer[i + 1])
    {
      if i < |run| - 1 { assert Next(run[i], run[i + 1]); }
    }
    assert IsRun(longer) && longer[|longer| - 1] == s';
  }

  /** What is queued of one kind, oldest first. */
  function Waiting(s: State, call: bool): seq<Msg> {
    Cached(s.caches, call) + Only(s.word.stack, call)
  }

  lemma FetchKeepsWaiting(s: State, pc: ConsumerPc, call: bool)
    ensures Waiting(Fetch(s, pc), call) == Waiting(s, call) == Cached(Fetch(s, pc).caches, call)
  {
  }

  lemma SomeCallCounted(s: State)
    requires Reachable(s) && Waiting(s, true) != []
    ensures s.counts.calls > 0
  {
    CountersCover(s, true);
  }

  /** A pop that runs alone delivers the oldest call, else the oldest message, and nothing only when
      nothing is queued. */
  lemma SoloPop(s: State) returns (s': State)
    requires Reachable(s) && s.pc.Idle? && s.word.status.Open?
    ensures Reachable(s') && (s'.pc.Idle? || s'.pc.Uncount?) && s'.producers == s.producers && s'.pushed == s.pushed
    ensures s'.delivered ==
            s.delivered + if Waiting(s, true) != [] then [Waiting(s, true)[0]]
                          else if Waiting(s, false) != [] then [Waiting(s, false)[0]]
                          else []
  {
    var s1 := s.(pc := Check(|s.pushed|));
    Extend(s, s1, BeginPop);
    var s2 := SoloCheck(s1);
    s' := SoloTake(s2);
  }

  predicate SameWaiting(s: State, s': State) {
    && Waiting(s', true) == Waiting(s, true) && Waiting(s', false) == Waiting(s, false)
    && s'.delivered == s.delivered && s'.producers == s.producers && s'.pushed == s.pushed
  }

  /** Up to the choice of a queue a call that is queued has come to the cache. */
  lemma SoloCheck(s: State) returns (s': State)
    requires Reachable(s) && s.pc.Check?
    ensures Reachable(s') && s'.pc.Choose? && SameWaiting(s, s')
    ensures s'.caches.calls == [] ==> Waiting(s, true) == []
  {
    if s.caches.calls == [] && s.counts.calls > 0 {
      var s1 := s.(pc := FetchCalls(s.pc.before));
      Extend(s, s1, RunPop);
      s' := Fetch(s1, Choose(s.pc.before));
      FetchKeepsWaiting(s1, s'.pc, true);
      FetchKeepsWaiting(s1, s'.pc, false);
      Extend(s1, s', RunPop);
    } else {
      if Waiting(s, true) != [] { SomeCallCounted(s); }
      s' := s.(pc := Choose(s.pc.before));
      Extend(s, s', RunPop);
    }
  }

  lemma SoloTake(s: State) returns (s': State)
    requires Reachable(s) && s.pc.Choose? && (s.caches.calls == [] ==> Waiting(s, true) == [])
    ensures Reachable(s') && (s'.pc.Idle? || s'.pc.Uncount?) && s'.producers == s.producers && s'.pushed == s.pushed
    ensures s'.delivered ==
            s.delivered + if Waiting(s, true) != [] then [Waiting(s, true)[0]]
                          else if Waiting(s, false) != [] then [Waiting(s, false)[0]]
                          else []
  {
    if s.caches.calls == [] && s.caches.others == [] {
      var s1 := s.(pc := FetchAny(s.pc.before));
      Extend(s, s1, RunPop);
      FetchKeepsWaiting(s1, Idle, true);
      FetchKeepsWaiting(s1, Idle, false);
      if s.word.stack == [] {
        s' := Fetch(s1, Idle);
        Extend(s1, s', RunPop);
        assert s.delivered + [] == s.delivered;
      } else {
        var s2 := Fetch(s1, Take(s.pc.before));
        Extend(s1, s2, RunPop);
        SomeWaiting(s.word.stack);
        s' := TakeFrom(s2);
        Extend(s2, s', RunPop);
      }
    } else {
      var s2 := s.(pc := Take(s.pc.before));
      Extend(s, s2, RunPop);
      s' := TakeFrom(s2);
      Extend(s2, s', RunPop);
    }
  }

  lemma SomeWaiting(stack: seq<Msg>)
    requires stack != []
    ensures Only(stack, true) != [] || Only(stack, false) != []
  {
  }
}
