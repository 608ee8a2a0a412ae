/** What selective receive keeps over whole runs: the order of messages of one type under any filter
    changes, and the end of a drain although handlers may change the filter. */
module StatefulDrain {
  import opened Common
  import opened SelectiveStash

  // ---------------------------------------------------------------- order of one type

  /** Messages that must not overtake each other: one type and kind. */
  datatype Lane = Lane(typ: Type, kind: Kind)

  predicate InLane(m: Msg, lane: Lane) {
    m.typ == lane.typ && m.kind == lane.kind
  }

  function Of(xs: seq<Msg>, lane: Lane): seq<Msg> {
    if xs == [] then []
    else (if InLane(xs[0], lane) then [xs[0]] else []) + Of(xs[1..], lane)
  }

  lemma {:induction false} OfAppend(xs: seq<Msg>, ys: seq<Msg>, lane: Lane)
    ensures Of(xs + ys, lane) == Of(xs, lane) + Of(ys, lane)
  {
    if xs == [] {
      assert xs + ys == ys;
    } else {
      assert (xs + ys)[1..] == xs[1..] + ys;
      OfAppend(xs[1..], ys, lane);
    }
  }

  lemma {:induction false} OfNone(xs: seq<Msg>, lane: Lane)
    requires forall i :: 0 <= i < |xs| ==> !InLane(xs[i], lane)
    ensures Of(xs, lane) == []
  {
    if xs != [] { OfNone(xs[1..], lane); }
  }

  function Handled(o: Outcome): seq<Msg> {
    if o.handled.Some? then [o.handled.value] else []
  }

  /** Taking the oldest accepted message takes the first of its lane. */
  lemma OldestIsFirst(f: Filter, held: seq<Msg>, lane: Lane)
    requires NoFramework(held)
    ensures var o := Process(f, held, []); Of(Handled(o), lane) + Of(o.held, lane) == Of(held, lane)
  {
    var k := Oldest(f, held, 0);
    if k < |held| {
      var m := held[k];
      assert held == held[..k] + ([m] + held[k + 1..]);
      OfAppend(held[..k], [m] + held[k + 1..], lane);
      OfAppend([m], held[k + 1..], lane);
      OfAppend(held[..k], held[k + 1..], lane);
      if InLane(m, lane) { OfNone(held[..k], lane); } else { OfNone([m], lane); }
    }
  }

  /** A framework message passes only messages that are not of its lane. */
  lemma PassesHeld(held: seq<Msg>, mailbox: seq<Msg>, lane: Lane)
    requires NoFramework(held) && mailbox != [] && !mailbox[0].kind.User?
    ensures Of([mailbox[0]], lane) + Of(held, lane) + Of(mailbox[1..], lane) == Of(held, lane) + Of(mailbox, lane)
  {
    var m, rest := mailbox[0], mailbox[1..];
    assert mailbox == [m] + rest;
    OfAppend([m], rest, lane);
    if InLane(m, lane) { OfNone(held, lane); } else { OfNone([m], lane); }
  }

  lemma JoinsHeld(held: seq<Msg>, mailbox: seq<Msg>, lane: Lane)
    requires mailbox != []
    ensures Of(held + [mailbox[0]], lane) + Of(mailbox[1..], lane) == Of(held, lane) + Of(mailbox, lane)
  {
    var m, rest := mailbox[0], mailbox[1..];
    assert mailbox == [m] + rest;
    OfAppend([m], rest, lane);
    OfAppend(held, [m], lane);
  }

  lemma {:induction false} ProcessKeepsLane(f: Filter, held: seq<Msg>, mailbox: seq<Msg>, lane: Lane)
    requires NoFramework(held)
    ensures var o := Process(f, held, mailbox);
            && Of(Handled(o), lane) + Of(o.held, lane) + Of(o.mailbox, lane) == Of(held, lane) + Of(mailbox, lane)
            && NoFramework(o.held)
    decreases mailbox
  {
    if mailbox == [] {
      OldestIsFirst(f, held, lane);
    } else if !mailbox[0].kind.User? {
      PassesHeld(held, mailbox, lane);
    } else {
      ProcessKeepsLane(f, held + [mailbox[0]], mailbox[1..], lane);
      JoinsHeld(held, mailbox, lane);
    }
  }

  // ---------------------------------------------------------------- runs

  datatype State = State(
    filter: Filter,
    held: seq<Msg>,
    mailbox: seq<Msg>,
    // history
    arrived: seq<Msg>,
    handled: seq<Msg>
  )

  /** at is where the mailbox puts an arriving message: calls go ahead of ordinary messages, but no
      message overtakes one of its own lane. */
  datatype Step = Arrive(m: Msg, at: nat) | Change(op: FilterOp) | ProcessOne

  function MyLane(m: Msg): Lane {
    Lane(m.typ, m.kind)
  }

  predicate NextStep(s: State, s': State, step: Step) {
    match step
    case Arrive(m, at) =>
      && at <= |s.mailbox| && (forall i :: at <= i < |s.mailbox| ==> !InLane(s.mailbox[i], MyLane(m)))
      && s' == s.(mailbox := s.mailbox[..at] + [m] + s.mailbox[at..], arrived := s.arrived + [m])
    case Change(op) => s' == s.(filter := Changed(s.filter, op))
    case ProcessOne =>
      var o := Process(s.filter, s.held, s.mailbox);
      s' == s.(held := o.held, mailbox := o.mailbox, handled := s.handled + Handled(o))
  }

  ghost predicate Next(s: State, s': State) {
    exists step :: NextStep(s, s', step)
  }

  const INITIAL: State := State(Filter(true, {}), [], [], [], [])

  ghost predicate IsRun(run: seq<State>) {
    && run != [] && run[0] == INITIAL
    && forall i :: 0 <= i < |run| - 1 ==> Next(run[i], run[i + 1])
  }

  predicate LaneInv(s: State, lane: Lane) {
    Of(s.arrived, lane) == Of(s.handled, lane) + Of(s.held, lane) + Of(s.mailbox, lane)
  }

  lemma Swaps(x: seq<Msg>, y: seq<Msg>, z: seq<Msg>)
    requires y == [] || z == []
    ensures x + y + z == x + z + y
  {
  }

  lemma InsertedLast(before: seq<Msg>, m: Msg, after: seq<Msg>, lane: Lane)
    requires forall i :: 0 <= i < |after| ==> !InLane(after[i], MyLane(m))
    ensures Of(before + [m] + after, lane) == Of(before + after, lane) + Of([m], lane)
  {
    OfAppend(before, after, lane);
    OfAppend(before + [m], after, lane);
    OfAppend(before, [m], lane);
    assert Of([m], lane) == [] || Of(after, lane) == [] by {
      if InLane(m, lane) { OfNone(after, lane); } else { OfNone([m], lane); }
    }
    Swaps(Of(before, lane), Of([m], lane), Of(after, lane));
  }

  lemma ArriveKeepsLane(s: State, s': State, m: Msg, at: nat, lane: Lane)
    requires LaneInv(s, lane) && NextStep(s, s', Arrive(m, at))
    ensures LaneInv(s', lane)
  {
    assert s.mailbox == s.mailbox[..at] + s.mailbox[at..];
    InsertedLast(s.mailbox[..at], m, s.mailbox[at..], lane);
    OfAppend(s.arrived, [m], lane);
  }

  lemma ProcessKeepsLaneInv(s: State, s': State, lane: Lane)
    requires LaneInv(s, lane) && NoFramework(s.held) && NextStep(s, s', ProcessOne)
    ensures LaneInv(s', lane) && NoFramework(s'.held)
  {
    var o := Process(s.filter, s.held, s.mailbox);
    ProcessKeepsLane(s.filter, s.held, s.mailbox, lane);
    OfAppend(s.handled, Handled(o), lane);
    Regrouped(Of(s.handled, lane), Of(Handled(o), lane), Of(o.held, lane), Of(o.mailbox, lane),
              Of(s.held, lane), Of(s.mailbox, lane));
  }

  lemma Regrouped(h: seq<Msg>, x: seq<Msg>, y: seq<Msg>, z: seq<Msg>, held: seq<Msg>, mailbox: seq<Msg>)
    requires x + y + z == held + mailbox
    ensures (h + x) + y + z == h + held + mailbox
  {
    assert (h + x) + y + z == h + (x + y + z);
    assert h + held + mailbox == h + (held + mailbox);
  }

  /** Messages of one type are handled in the order they arrived, whatever the filter did in between;
      those not yet handled are held or queued, in the same order; framework messages are never held. */
  lemma {:induction false} TypeOrderKept(run: seq<State>, n: nat, lane: Lane)
    requires IsRun(run) && n < |run|
    ensures Of(run[n].arrived, lane) == Of(run[n].handled, lane) + Of(run[n].held, lane) + Of(run[n].mailbox, lane)
    ensures NoFramework(run[n].held)
  {
    if n > 0 {
      TypeOrderKept(run, n - 1, lane);
      assert Next(run[n - 1], run[n - 1 + 1]);
      var step :| NextStep(run[n - 1], run[n], step);
      match step {
        case Arrive(m, at) => ArriveKeepsLane(run[n - 1], run[n], m, at, lane);
        case Change(_) =>
        case ProcessOne => ProcessKeepsLaneInv(run[n - 1], run[n], lane);
      }
    }
  }

  // ---------------------------------------------------------------- drain

  predicate HasWork(f: Filter, held: seq<Msg>, mailbox: seq<Msg>) {
    mailbox != [] || exists i :: 0 <= i < |held| && Accepts(f, held[i])
  }

  /** Every round with work to do either handles a message, or leaves an empty mailbox and nothing to
      do: messages only leave, and the pair (mailbox + held, mailbox) goes down. */
  lemma {:induction false} ProcessProgresses(f: Filter, held: seq<Msg>, mailbox: seq<Msg>)
    ensures var o := Process(f, held, mailbox);
            && |o.held| + |o.mailbox| + |Handled(o)| == |held| + |mailbox|
            && |o.mailbox| <= |mailbox|
            && (o.handled.None? ==> !HasWork(f, o.held, o.mailbox))
            && (!HasWork(f, held, mailbox) ==> o == Outcome(None, held, mailbox))
            && (HasWork(f, held, mailbox) ==> o.handled.Some? || |o.mailbox| < |mailbox|)
    decreases mailbox
  {
    if mailbox != [] && mailbox[0].kind.User? {
      ProcessProgresses(f, held + [mailbox[0]], mailbox[1..]);
    }
  }

  lemma {:induction false} ProcessConserves(f: Filter, held: seq<Msg>, mailbox: seq<Msg>)
    ensures var o := Process(f, held, mailbox);
            multiset(Handled(o)) + multiset(o.held) + multiset(o.mailbox) == multiset(held) + multiset(mailbox)
    decreases mailbox
  {
    if mailbox != [] {
      assert mailbox == [mailbox[0]] + mailbox[1..];
      if mailbox[0].kind.User? { ProcessConserves(f, held + [mailbox[0]], mailbox[1..]); }
    } else {
      var k := Oldest(f, held, 0);
      if k < |held| { assert held == held[..k] + [held[k]] + held[k + 1..]; }
    }
  }

  /** Among messages that are destroyed unhandled, those that are dead letters: a pending
      system_shutdown is control traffic. */
  function DeadLetters(xs: seq<Msg>): seq<Msg> {
    if xs == [] then []
    else (if xs[0].kind.Shutdown? then [] else [xs[0]]) + DeadLetters(xs[1..])
  }

  lemma {:induction false} DeadLettersAre(xs: seq<Msg>, m: Msg)
    ensures multiset(DeadLetters(xs))[m] == if m.kind.Shutdown? then 0 else multiset(xs)[m]
  {
    if xs != [] {
      assert xs == [xs[0]] + xs[1..];
      DeadLettersAre(xs[1..], m);
    }
  }

  lemma {:induction false} DeadLettersAppend(xs: seq<Msg>, ys: seq<Msg>)
    ensures DeadLetters(xs + ys) == DeadLetters(xs) + DeadLetters(ys)
  {
    if xs == [] {
      assert xs + ys == ys;
    } else {
      assert (xs + ys)[1..] == xs[1..] + ys;
      DeadLettersAppend(xs[1..], ys);
    }
  }

  /** Nothing held is control traffic. */
  lemma {:induction false} HeldAreDeadLetters(held: seq<Msg>)
    requires NoFramework(held)
    ensures DeadLetters(held) == held
  {
    if held != [] {
      HeldAreDeadLetters(held[1..]);
      assert held == [held[0]] + held[1..];
    }
  }

  /** run_stop_to_completion of a stateful actor that accepts no more messages: rounds of
      process_next until it has nothing to do or its time is up, then every leftover is discarded.
      handler(n) is what the n-th round's handler does to the filter. It ends whatever handlers do and
      without the clock, after at most one round more than there are messages. */
  method Drain(stash: Stash, handler: nat -> seq<FilterOp>, expired: nat -> bool)
    returns (handled: seq<Msg>, left: seq<Msg>, dead: seq<Msg>, rounds: nat)
    requires stash.Valid()
    modifies stash
    ensures stash.Valid() && stash.held == [] && stash.mailbox == []
    ensures multiset(handled) + multiset(left) == multiset(old(stash.held)) + multiset(old(stash.mailbox))
    ensures dead == DeadLetters(left)
    ensures rounds <= |old(stash.held)| + |old(stash.mailbox)| + 1
    ensures !expired(rounds) ==> forall m :: m in left ==> m.kind.User? && !Accepts(stash.filter, m)
  {
    handled, rounds := [], 0;
    var some := stash.HasWork();
    while some && !expired(rounds)
      invariant stash.Valid()
      invariant some <==> HasWork(stash.filter, stash.held, stash.mailbox)
      invariant multiset(handled) + (multiset(stash.held) + multiset(stash.mailbox))
             == multiset(old(stash.held)) + multiset(old(stash.mailbox))
      invariant rounds + |stash.held| + |stash.mailbox| + (if some then 1 else 0)
             <= |old(stash.held)| + |old(stash.mailbox)| + 1
      decreases |stash.held| + |stash.mailbox|, |stash.mailbox|
    {
      var done := Round(stash, handler(rounds));
      Regroup(handled, done, stash.held, stash.mailbox);
      handled := handled + done;
      some := stash.HasWork();
      rounds := rounds + 1;
    }
    left, dead := DiscardPending(stash);
  }

  /** discard_pending_messages of a stateful actor: the mailbox, then what only the stash has. left is
      everything that is destroyed, dead what is reported. */
  method DiscardPending(stash: Stash) returns (left: seq<Msg>, dead: seq<Msg>)
    requires stash.Valid()
    modifies stash`mailbox, stash`held, stash`heldCount, stash`acceptableCount
    ensures stash.Valid() && stash.mailbox == [] && stash.held == []
    ensures left == old(stash.mailbox) + old(stash.held) && dead == DeadLetters(left)
  {
    var mail, reported := DiscardMail(stash);
    ghost var held := stash.held;
    var dropped := stash.DropHeld();
    left, dead := mail + dropped, reported + dropped;
    HeldAreDeadLetters(held);
    DeadLettersAppend(mail, held);
  }

  lemma Regroup(handled: seq<Msg>, done: seq<Msg>, held: seq<Msg>, mailbox: seq<Msg>)
    ensures multiset(handled + done) + (multiset(held) + multiset(mailbox))
         == multiset(handled) + (multiset(done) + multiset(held) + multiset(mailbox))
  {
  }

  /** One round: process_next, and whatever its handler does to the filter. */
  method Round(stash: Stash, ops: seq<FilterOp>) returns (done: seq<Msg>)
    requires stash.Valid() && HasWork(stash.filter, stash.held, stash.mailbox)
    modifies stash
    ensures stash.Valid() && |stash.mailbox| <= |old(stash.mailbox)|
    ensures |stash.held| + |stash.mailbox| + |done| == |old(stash.held)| + |old(stash.mailbox)|
    ensures multiset(done) + multiset(stash.held) + multiset(stash.mailbox)
         == multiset(old(stash.held)) + multiset(old(stash.mailbox))
    ensures if done == [] then
              |stash.mailbox| < |old(stash.mailbox)| && !HasWork(stash.filter, stash.held, stash.mailbox)
            else |done| == 1 && stash.filter == ChangedBy(old(stash.filter), ops)
  {
    ProcessProgresses(stash.filter, stash.held, stash.mailbox);
    ProcessConserves(stash.filter, stash.held, stash.mailbox);
    var next := stash.ProcessNext();
    done := [];
    if next.Some? {
      done := [next.value];
      RunHandler(stash, ops);
    }
  }

  /** The filter operations of one handler. */
  method RunHandler(stash: Stash, ops: seq<FilterOp>)
    requires stash.Valid()
    modifies stash`filter, stash`acceptableCount
    ensures stash.Valid() && stash.filter == ChangedBy(old(stash.filter), ops)
  {
    var rest := ops;
    while rest != []
      invariant stash.Valid() && ChangedBy(stash.filter, rest) == ChangedBy(old(stash.filter), ops)
      decreases |rest|
    {
      stash.Change(rest[0]);
      rest := rest[1..];
    }
  }

  /** Pop what is left in the mailbox, reporting each message but control traffic. */
  method DiscardMail(stash: Stash) returns (left: seq<Msg>, dead: seq<Msg>)
    requires stash.Valid()
    modifies stash`mailbox
    ensures stash.Valid() && stash.mailbox == []
    ensures left == old(stash.mailbox) && dead == DeadLetters(left)
  {
    left, dead := [], [];
    while stash.mailbox != []
      invariant stash.Valid() && left + stash.mailbox == old(stash.mailbox) && dead == DeadLetters(left)
      decreases |stash.mailbox|
    {
      var m := stash.mailbox[0];
      DeadLettersAppend(left, [m]);
      assert DeadLetters([m]) == if m.kind.Shutdown? then [] else [m];
      left := left + [m];
      if !m.kind.Shutdown? { dead := dead + [m]; }
      stash.mailbox := stash.mailbox[1..];
    }
  }
}
