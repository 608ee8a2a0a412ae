/** Selective receive: messages of types the current state does not accept are held and looked at
    again when the filter changes; framework messages (calls, system shutdown) never wait. */
module SelectiveStash {
  import opened Common

  type Type = nat

  datatype Msg = Msg(id: nat, typ: Type, kind: Kind)

  datatype Filter = Filter(all: bool, types: set<Type>)

  datatype FilterOp = Accept(t: Type) | Reject(t: Type) | AcceptAll | RejectAll

  /** Rejecting while everything is accepted does nothing: there is no list to remove from. */
  function Changed(f: Filter, op: FilterOp): Filter {
    match op
    case Accept(t) => Filter(false, f.types + {t})
    case Reject(t) => if f.all then f else Filter(false, f.types - {t})
    case AcceptAll => Filter(true, {})
    case RejectAll => Filter(false, {})
  }

  /** Accepting everything leaves no list of types behind. */
  predicate Tidy(f: Filter) {
    f.all ==> f.types == {}
  }

  /** What the filter operations mean for a message m: accept(t) ends accepting everything, and then
      accepts t besides what was listed; reject(t) takes t off the list, but does nothing while everything
      is accepted; the other two accept all messages and none. */
  lemma ChangedAccepts(f: Filter, op: FilterOp, m: Msg)
    requires Tidy(f)
    ensures Tidy(Changed(f, op))
    ensures op.Accept? ==> (Accepts(Changed(f, op), m) <==> m.typ == op.t || (!f.all && Accepts(f, m)))
    ensures op.Reject? && !f.all ==> (Accepts(Changed(f, op), m) <==> m.typ != op.t && Accepts(f, m))
    ensures op.Reject? && f.all ==> Accepts(Changed(f, op), m)
    ensures op.AcceptAll? ==> Accepts(Changed(f, op), m)
    ensures op.RejectAll? ==> !Accepts(Changed(f, op), m)
  {
  }

  function ChangedBy(f: Filter, ops: seq<FilterOp>): Filter
    decreases |ops|
  {
    if ops == [] then f else ChangedBy(Changed(f, ops[0]), ops[1..])
  }

  predicate Accepts(f: Filter, m: Msg) {
    f.all || m.typ in f.types
  }

  function Without(xs: seq<Msg>, k: nat): seq<Msg>
    requires k < |xs|
  {
    xs[..k] + xs[k + 1..]
  }

  /** How many of the first n messages the filter accepts. */
  function Acceptable(f: Filter, xs: seq<Msg>, n: nat): nat
    requires n <= |xs|
  {
    if n == 0 then 0 else Acceptable(f, xs, n - 1) + if Accepts(f, xs[n - 1]) then 1 else 0
  }

  // ---------------------------------------------------------------- one call of process_next

  datatype Outcome = Outcome(handled: Option<Msg>, held: seq<Msg>, mailbox: seq<Msg>)

  /** The index of the oldest accepted message from i on, or the length. */
  function Oldest(f: Filter, xs: seq<Msg>, i: nat): (k: nat)
    requires i <= |xs|
    ensures i <= k <= |xs|
    ensures forall j :: i <= j < k ==> !Accepts(f, xs[j])
    ensures k < |xs| ==> Accepts(f, xs[k])
    decreases |xs| - i
  {
    if i == |xs| || Accepts(f, xs[i]) then i else Oldest(f, xs, i + 1)
  }

  function Process(f: Filter, held: seq<Msg>, mailbox: seq<Msg>): Outcome
    decreases mailbox
  {
    if mailbox != [] then
      if !mailbox[0].kind.User? then Outcome(Some(mailbox[0]), held, mailbox[1..])
      else Process(f, held + [mailbox[0]], mailbox[1..])
    else
      var k := Oldest(f, held, 0);
      if k < |held| then Outcome(Some(held[k]), Without(held, k), []) else Outcome(None, held, [])
  }

  predicate NoFramework(xs: seq<Msg>) {
    forall i :: 0 <= i < |xs| ==> xs[i].kind.User?
  }

  /** What one call should do, said without the loop: a framework message is taken at once and those
      before it are held; otherwise the oldest accepted message of held ++ mailbox is taken. */
  ghost predicate IsNext(f: Filter, held: seq<Msg>, mailbox: seq<Msg>, o: Outcome) {
    if NoFramework(mailbox) then
      o.mailbox == [] && IsOldest(f, held + mailbox, o.handled, o.held)
    else
      exists k :: TakesFramework(held, mailbox, k, o)
  }

  ghost predicate IsOldest(f: Filter, all: seq<Msg>, handled: Option<Msg>, rest: seq<Msg>) {
    if handled.None? then rest == all && forall i :: 0 <= i < |all| ==> !Accepts(f, all[i])
    else exists k :: TakesAt(f, all, k, handled.value, rest)
  }

  predicate TakesAt(f: Filter, all: seq<Msg>, k: nat, m: Msg, rest: seq<Msg>) {
    && k < |all| && all[k] == m && Accepts(f, m) && rest == Without(all, k)
    && forall i :: 0 <= i < k ==> !Accepts(f, all[i])
  }

  predicate TakesFramework(held: seq<Msg>, mailbox: seq<Msg>, k: nat, o: Outcome) {
    && k < |mailbox| && !mailbox[k].kind.User? && NoFramework(mailbox[..k])
    && o == Outcome(Some(mailbox[k]), held + mailbox[..k], mailbox[k + 1..])
  }

  lemma {:induction false} ProcessTakesNext(f: Filter, held: seq<Msg>, mailbox: seq<Msg>)
    ensures IsNext(f, held, mailbox, Process(f, held, mailbox))
    decreases mailbox
  {
    var o := Process(f, held, mailbox);
    if mailbox == [] {
      assert held + mailbox == held;
      if o.handled.Some? { assert TakesAt(f, held, Oldest(f, held, 0), o.handled.value, o.held); }
    } else if !mailbox[0].kind.User? {
      assert mailbox[..0] == [] && held + [] == held;
      assert TakesFramework(held, mailbox, 0, o);
    } else {
      ProcessTakesNext(f, held + [mailbox[0]], mailbox[1..]);
      HoldKeepsNext(f, held, mailbox, o);
    }
  }

  /** Moving an ordinary message behind the held ones does not change what comes next. */
  lemma HoldKeepsNext(f: Filter, held: seq<Msg>, mailbox: seq<Msg>, o: Outcome)
    requires mailbox != [] && mailbox[0].kind.User? && IsNext(f, held + [mailbox[0]], mailbox[1..], o)
    ensures IsNext(f, held, mailbox, o)
  {
    var more, rest := held + [mailbox[0]], mailbox[1..];
    assert more + rest == held + mailbox;
    if NoFramework(rest) {
      assert NoFramework(mailbox);
    } else {
      var k: nat :| TakesFramework(more, rest, k, o);
      assert mailbox[..k + 1] == [mailbox[0]] + rest[..k];
      assert held + mailbox[..k + 1] == more + rest[..k];
      assert mailbox[k + 1 + 1..] == rest[k + 1..];
      assert TakesFramework(held, mailbox, k + 1, o);
      assert !mailbox[k + 1].kind.User?;
    }
  }

  /** Only one outcome fits that description. */
  lemma NextIsUnique(f: Filter, held: seq<Msg>, mailbox: seq<Msg>, o: Outcome, p: Outcome)
    requires IsNext(f, held, mailbox, o) && IsNext(f, held, mailbox, p)
    ensures o == p
  {
    if !NoFramework(mailbox) {
      var k: nat :| TakesFramework(held, mailbox, k, o);
      var j: nat :| TakesFramework(held, mailbox, j, p);
      FrameworkUnique(held, mailbox, k, j, o, p);
    } else if o.handled.Some? && p.handled.Some? {
      var all := held + mailbox;
      var k: nat :| TakesAt(f, all, k, o.handled.value, o.held);
      var j: nat :| TakesAt(f, all, j, p.handled.value, p.held);
      assert k == j;
    }
  }

  lemma FrameworkUnique(held: seq<Msg>, mailbox: seq<Msg>, k: nat, j: nat, o: Outcome, p: Outcome)
    requires TakesFramework(held, mailbox, k, o) && TakesFramework(held, mailbox, j, p)
    ensures o == p
  {
    assert forall i :: 0 <= i < j ==> mailbox[i] == mailbox[..j][i];
    assert forall i :: 0 <= i < k ==> mailbox[i] == mailbox[..k][i];
  }

  // ---------------------------------------------------------------- the stash

  lemma {:induction false} AcceptableSame(f: Filter, xs: seq<Msg>, ys: seq<Msg>, n: nat)
    requires n <= |xs| && n <= |ys| && xs[..n] == ys[..n]
    ensures Acceptable(f, xs, n) == Acceptable(f, ys, n)
  {
    if n > 0 {
      assert xs[n - 1] == xs[..n][n - 1] == ys[..n][n - 1] == ys[n - 1];
      assert xs[..n - 1] == xs[..n][..n - 1] == ys[..n - 1];
      AcceptableSame(f, xs, ys, n - 1);
    }
  }

  lemma {:induction false} AcceptableWithout(f: Filter, xs: seq<Msg>, k: nat, n: nat)
    requires k < n <= |xs|
    ensures Acceptable(f, Without(xs, k), n - 1) == Acceptable(f, xs, n) - if Accepts(f, xs[k]) then 1 else 0
  {
    if n == k + 1 {
      AcceptableSame(f, Without(xs, k), xs, k);
    } else {
      AcceptableWithout(f, xs, k, n - 1);
      assert Without(xs, k)[n - 2] == xs[n - 1];
    }
  }

  lemma {:induction false} AcceptableZero(f: Filter, xs: seq<Msg>, n: nat)
    requires n <= |xs|
    ensures Acceptable(f, xs, n) == 0 <==> forall i :: 0 <= i < n ==> !Accepts(f, xs[i])
  {
    if n > 0 { AcceptableZero(f, xs, n - 1); }
  }

  class Stash {
    var held: seq<Msg>
    var filter: Filter
    var heldCount: nat
    var acceptableCount: nat
    var mailbox: seq<Msg>  // the actor's mailbox, in the order pop() returns its messages

    /** The counters other threads read agree with the held list, and no framework message waits. */
    predicate Valid()
      reads this
    {
      && Tidy(filter)
      && heldCount == |held|
      && acceptableCount == Acceptable(filter, held, |held|)
      && NoFramework(held)
    }

    constructor ()
      ensures Valid() && held == [] && mailbox == [] && filter == Filter(true, {})
    {
      held, mailbox, filter, heldCount, acceptableCount := [], [], Filter(true, {}), 0, 0;
    }

    method Recount()
      modifies this`acceptableCount
      ensures acceptableCount == Acceptable(filter, held, |held|)
    {
      var n := 0;
      for i := 0 to |held|
        invariant n == Acceptable(filter, held, i)
      {
        if Accepts(filter, held[i]) { n := n + 1; }
      }
      acceptableCount := n;
    }

    method Change(op: FilterOp)
      requires Valid()
      modifies this`filter, this`acceptableCount
      ensures Valid() && filter == Changed(old(filter), op)
      ensures op.Accept? ==> forall m ::
                Accepts(filter, m) <==> m.typ == op.t || (!old(filter).all && Accepts(old(filter), m))
      ensures op.Reject? ==> forall m ::
                Accepts(filter, m) <==> old(filter).all || (m.typ != op.t && Accepts(old(filter), m))
      ensures op.AcceptAll? ==> forall m :: Accepts(filter, m)
      ensures op.RejectAll? ==> forall m :: !Accepts(filter, m)
    {
      match op {
        case Accept(t) => filter := Filter(false, filter.types + {t});
        case Reject(t) =>
          if filter.all { return; }
          filter := filter.(types := filter.types - {t});
        case AcceptAll => filter := Filter(true, {});
        case RejectAll => filter := Filter(false, {});
      }
      Recount();
    }

    /** Take from the mailbox until it is empty or yields a framework message. */
    method TakeMail() returns (msg: Option<Msg>)
      requires Valid()
      modifies this`held, this`heldCount, this`acceptableCount, this`mailbox
      ensures Valid()
      ensures if msg.Some? then Process(filter, old(held), old(mailbox)) == Outcome(msg, held, mailbox)
              else mailbox == [] && Process(filter, old(held), old(mailbox)) == Process(filter, held, [])
    {
      while mailbox != []
        invariant Valid()
        invariant Process(filter, held, mailbox) == Process(filter, old(held), old(mailbox))
        decreases |mailbox|
      {
        var m := mailbox[0];
        mailbox := mailbox[1..];
        if !m.kind.User? { return Some(m); }
        if Accepts(filter, m) { acceptableCount := acceptableCount + 1; }
        AcceptableSame(filter, held, held + [m], |held|);
        held := held + [m];
        heldCount := heldCount + 1;
      }
      msg := None;
    }

    /** The message to run next, or None; its handler runs once this returns. */
    method ProcessNext() returns (handled: Option<Msg>)
      requires Valid()
      modifies this`held, this`heldCount, this`acceptableCount, this`mailbox
      ensures Valid()
      ensures Outcome(handled, held, mailbox) == Process(filter, old(held), old(mailbox))
    {
      handled := TakeMail();
      if handled.Some? { return; }
      for i := 0 to |held|
        invariant Valid() && mailbox == []
        invariant Process(filter, held, []) == Process(filter, old(held), old(mailbox))
        invariant Oldest(filter, held, 0) == Oldest(filter, held, i)
      {
        if Accepts(filter, held[i]) {
          handled := Some(held[i]);
          AcceptableWithout(filter, held, i, |held|);
          held := Without(held, i);
          heldCount := heldCount - 1;
          acceptableCount := acceptableCount - 1;
          return;
        }
      }
    }

    method HasWork() returns (some: bool)
      requires Valid()
      ensures some <==> mailbox != [] || exists i :: 0 <= i < |held| && Accepts(filter, held[i])
    {
      AcceptableZero(filter, held, |held|);
      some := |mailbox| > 0 || acceptableCount > 0;
    }

    /** Report every held message dead. */
    method DropHeld() returns (dead: seq<Msg>)
      requires Valid()
      modifies this`held, this`heldCount, this`acceptableCount
      ensures Valid() && dead == old(held) && held == []
    {
      dead := [];
      for i := 0 to |held|
        invariant dead == held[..i]
      {
        dead := dead + [held[i]];
      }
      held := [];
      heldCount := 0;
      acceptableCount := 0;
    }
  }
}
