/** No step loses or duplicates a message. */
module ActorLedger {
  import opened Common
  import opened ActorProtocol
  import opened ActorInvariant
  import opened ActorControl

  // ---------------------------------------------------------------- one executor step

  /** How often m is queued, in the hand of an executor at pc, or accounted for. */
  function Total(h: Shared, pc: Exec, m: Message): nat {
    InQueues(h.q, m) + Hand(pc)[m] + Settled(h.l, m)
  }

  lemma {:induction false} KindsSplit(ms: seq<Message>)
    ensures multiset(OfKind(ms, true)) + multiset(OfKind(ms, false)) == multiset(ms)
  {
    if ms != [] {
      KindsSplit(ms[1..]);
      assert ms == [ms[0]] + ms[1..];
    }
  }

  lemma FetchBalances(h: Shared, m: Message)
    ensures InQueues(FetchMore(h).q, m) == InQueues(h.q, m) && FetchMore(h).l == h.l
  {
    KindsSplit(h.q.stack);
    assert (multiset(OfKind(h.q.stack, true)) + multiset(OfKind(h.q.stack, false)))[m] == multiset(h.q.stack)[m];
  }

  lemma FrontBalances(q: Queues, m: Message)
    requires !CachesEmpty(q)
    ensures InQueues(q, m) == InQueues(DropFront(q), m) + multiset{FrontMessage(q)}[m]
  {
    if q.calls != [] {
      assert q.calls == [q.calls[0]] + q.calls[1..];
    } else {
      assert q.others == [q.others[0]] + q.others[1..];
    }
  }

  lemma UnstashBalances(ms: seq<Message>, i: nat)
    requires i < |ms|
    ensures multiset(ms) == multiset(ms[..i] + ms[i + 1..]) + multiset{ms[i]}
  {
    assert ms == ms[..i] + [ms[i]] + ms[i + 1..];
  }

  lemma LastBalances(ms: seq<Message>, m: Message)
    requires ms != []
    ensures multiset(ms)[m] == multiset(ms[..|ms| - 1])[m] + multiset{ms[|ms| - 1]}[m]
  {
    assert ms == ms[..|ms| - 1] + [ms[|ms| - 1]];
  }

  lemma DropBalances(h: Shared, taken: seq<Message>, m: Message)
    ensures var r := DropStep(h, taken);
            Total(r.0, r.1, m) == Total(h, DropAll(taken), m)
  {
    if !CachesEmpty(h.q) {
      FrontBalances(h.q, m);
    } else if taken != [] {
      LastBalances(taken, m);
    }
  }

  lemma FetchTotal(h: Shared, pc: Exec, pc': Exec, m: Message)
    requires NoHand(pc) && NoHand(pc')
    ensures Total(FetchMore(h), pc', m) == Total(h, pc, m)
  {
    FetchBalances(h, m);
    HandEmpty(pc, m);
    HandEmpty(pc', m);
  }

  lemma DiscardFrontTotal(h: Shared, pc: Exec, m: Message)
    requires !CachesEmpty(h.q)
    ensures Total(h.(q := DropFront(h.q), l := Discarded(h.l, FrontMessage(h.q))), pc, m) == Total(h, pc, m)
  {
    FrontBalances(h.q, m);
    SettledOnce(h.l, FrontMessage(h.q), m);
  }

  lemma HeldBalances(h: Shared, here: Exec, next: Exec, m: Message)
    ensures var r := HeldStep(h, here, next);
            InQueues(r.0.q, m) + Settled(r.0.l, m) == InQueues(h.q, m) + Settled(h.l, m)
  {
    if h.q.held != [] {
      assert h.q.held == [h.q.held[0]] + h.q.held[1..];
    }
  }

  /** A message popped is stashed or in hand. */
  lemma TakeFrontBalances(c: Config, h: Shared, who: Who, m: Message)
    requires !CachesEmpty(h.q)
    ensures var r := TakeStep(c, h, who, Front).value;
            Total(r.0, r.1, m) == Total(h, Process, m)
  {
    var rest, x := DropFront(h.q), FrontMessage(h.q);
    FrontBalances(h.q, m);
    HandEmpty(Process, m);
    if c.stateful && x.kind.User? {
      StashedTotal(h, rest, x, m);
    } else {
      HandHas(Dispatch(x), m);
      assert Total(h.(q := rest), Dispatch(x), m) == InQueues(rest, m) + multiset{x}[m] + Settled(h.l, m);
    }
  }

  lemma StashedTotal(h: Shared, rest: Queues, x: Message, m: Message)
    ensures Total(h.(q := rest.(held := rest.held + [x])), Process, m)
         == InQueues(rest, m) + multiset{x}[m] + Settled(h.l, m)
  {
    StashBalances(rest, x, m);
    HandEmpty(Process, m);
  }

  lemma StashBalances(q: Queues, x: Message, m: Message)
    ensures InQueues(q.(held := q.held + [x]), m) == InQueues(q, m) + multiset{x}[m]
  {
    assert multiset(q.held + [x])[m] == multiset(q.held)[m] + multiset{x}[m];
  }

  lemma ScanBalances(h: Shared, who: Who, move: Move, m: Message)
    requires ScanStep(h, who, move).Some?
    ensures var r := ScanStep(h, who, move).value;
            Total(r.0, r.1, m) == Total(h, Scan, m)
  {
    if move.Unstash? {
      UnstashBalances(h.q.held, move.i);
      var left := h.q.held[..move.i] + h.q.held[move.i + 1..];
      assert multiset(h.q.held)[m] == (multiset(left) + multiset{h.q.held[move.i]})[m];
    }
  }

  /** Whatever moved, no message was lost, duplicated or let in. */
  ghost predicate Balanced(h: Shared, h': Shared, pc: Exec, pc': Exec) {
    && (forall m :: Total(h', pc', m) == Total(h, pc, m))
    && h'.l.entered == h.l.entered && h'.l.begun == h.l.begun
  }

  predicate NoHand(pc: Exec) {
    !(pc.Dispatch? || pc.ShutdownHook? || pc.ShutdownState? || pc.DropAll?)
  }

  lemma StayBalanced(h: Shared, h': Shared, pc: Exec, pc': Exec)
    requires h'.q == h.q && h'.l == h.l && NoHand(pc) && NoHand(pc')
    ensures Balanced(h, h', pc, pc')
  {
  }

  lemma CloseBalanced(h: Shared, h': Shared)
    requires h'.q == h.q.(stack := []) && h'.l == h.l
    ensures Balanced(h, h', CloseWord, DropAll(h.q.stack))
  {
  }

  lemma DiscardBalanced(h: Shared, h': Shared, here: Exec, next: Exec, pc': Exec, move: Move)
    requires DiscardStep(h, here, next, move) == Some((h', pc')) && NoHand(here) && NoHand(next)
    ensures Balanced(h, h', here, pc')
  {
    if move.Front? {
      forall m ensures Total(h', here, m) == Total(h, here, m) { DiscardFrontTotal(h, here, m); }
    } else {
      forall m ensures Total(h', pc', m) == Total(h, here, m) { FetchTotal(h, here, pc', m); }
    }
  }

  lemma HandEmpty(pc: Exec, m: Message)
    requires NoHand(pc)
    ensures Hand(pc)[m] == 0
  {
  }

  /** A message handled or consumed is settled once more. */
  lemma SettledOnce(l: Ledger, x: Message, m: Message)
    ensures Settled(l.(dispatched := l.dispatched + multiset{x}), m) == Settled(l, m) + multiset{x}[m]
    ensures Settled(Discarded(l, x), m) == Settled(l, m) + multiset{x}[m]
  {
  }

  lemma HeldBalanced(h: Shared, h': Shared, here: Exec, next: Exec, pc': Exec)
    requires HeldStep(h, here, next) == (h', pc') && NoHand(here) && NoHand(next)
    ensures Balanced(h, h', here, pc')
  {
    forall m ensures Total(h', pc', m) == Total(h, here, m) {
      HeldBalances(h, here, next, m);
    }
  }

  lemma DropBalanced(h: Shared, h': Shared, taken: seq<Message>, pc': Exec)
    requires DropStep(h, taken) == (h', pc')
    ensures Balanced(h, h', DropAll(taken), pc')
  {
    forall m ensures Total(h', pc', m) == Total(h, DropAll(taken), m) {
      DropBalances(h, taken, m);
    }
  }

  /** service_stop only moves messages: queued ones to the ledger, or into the closing drain. */
  lemma ServiceBalanced(h: Shared, h': Shared, who: Who, pc: Exec, pc': Exec, move: Move)
    requires ServiceStep(h, who, pc, move) == Some((h', pc'))
    ensures Balanced(h, h', pc, pc')
  {
    match pc
    case FirstDiscard => DiscardBalanced(h, h', FirstDiscard, FirstHeld, pc', move);
    case LastDiscard => DiscardBalanced(h, h', LastDiscard, LastHeld, pc', move);
    case FirstHeld => HeldBalanced(h, h', FirstHeld, DrainTest, pc');
    case LastHeld => HeldBalanced(h, h', LastHeld, CloseWord, pc');
    case CloseWord => CloseBalanced(h, h');
    case DropAll(taken) => DropBalanced(h, h', taken, pc');
    case _ => StayBalanced(h, h', pc, pc');
  }

  lemma TakeBalanced(c: Config, h: Shared, h': Shared, who: Who, pc': Exec, move: Move)
    requires TakeStep(c, h, who, move) == Some((h', pc'))
    ensures Balanced(h, h', Process, pc')
  {
    if move.Front? {
      forall m ensures Total(h', pc', m) == Total(h, Process, m) { TakeFrontBalances(c, h, who, m); }
    } else {
      forall m ensures Total(h', pc', m) == Total(h, Process, m) { FetchTotal(h, Process, pc', m); }
    }
  }

  lemma ScanBalanced(h: Shared, h': Shared, who: Who, pc': Exec, move: Move)
    requires ScanStep(h, who, move) == Some((h', pc'))
    ensures Balanced(h, h', Scan, pc')
  {
    forall m ensures Total(h', pc', m) == Total(h, Scan, m) {
      ScanBalances(h, who, move, m);
    }
  }

  /** What becomes of the message in hand. */
  predicate Handles(h: Shared, h': Shared, pc: Exec, pc': Exec)
    requires pc.Dispatch? || pc.ShutdownHook? || pc.ShutdownState?
  {
    && h'.q == h.q
    && if pc'.ShutdownHook? || pc'.ShutdownState? then
         pc'.msg == pc.msg && h'.l == h.l
       else
         NoHand(pc') && (h'.l == h.l.(dispatched := h.l.dispatched + multiset{pc.msg}) || h'.l == Discarded(h.l, pc.msg))
  }

  lemma DispatchHandles(c: Config, h: Shared, h': Shared, who: Who, pc: Exec, pc': Exec, move: Move)
    requires pc.Dispatch? || pc.ShutdownHook? || pc.ShutdownState?
    requires ProcessStep(c, h, who, pc, move) == Some((h', pc'))
    ensures Handles(h, h', pc, pc')
  {
  }

  lemma HandHas(pc: Exec, m: Message)
    requires pc.Dispatch? || pc.ShutdownHook? || pc.ShutdownState?
    ensures Hand(pc)[m] == multiset{pc.msg}[m]
  {
  }

  lemma HandlesSettles(h: Shared, h': Shared, pc: Exec, pc': Exec, m: Message)
    requires pc.Dispatch? || pc.ShutdownHook? || pc.ShutdownState?
    requires Handles(h, h', pc, pc')
    ensures Hand(pc')[m] + Settled(h'.l, m) == Hand(pc)[m] + Settled(h.l, m)
  {
    HandHas(pc, m);
    if pc'.ShutdownHook? || pc'.ShutdownState? {
      HandHas(pc', m);
    } else {
      HandEmpty(pc', m);
      SettledOnce(h.l, pc.msg, m);
    }
  }

  /** dispatch_message: the message in hand is handled, kept in hand, or consumed. */
  lemma DispatchBalanced(c: Config, h: Shared, h': Shared, who: Who, pc: Exec, pc': Exec, move: Move)
    requires pc.Dispatch? || pc.ShutdownHook? || pc.ShutdownState?
    requires ProcessStep(c, h, who, pc, move) == Some((h', pc'))
    ensures Balanced(h, h', pc, pc')
  {
    DispatchHandles(c, h, h', who, pc, pc', move);
    forall m ensures Total(h', pc', m) == Total(h, pc, m) {
      HandlesSettles(h, h', pc, pc', m);
    }
  }

  /** process_next moves messages between the queues, the hand and the ledger. */
  lemma ProcessBalanced(c: Config, h: Shared, h': Shared, who: Who, pc: Exec, pc': Exec, move: Move)
    requires pc.ShutdownState? ==> pc.msg.kind.Shutdown?
    requires ProcessStep(c, h, who, pc, move) == Some((h', pc'))
    ensures Balanced(h, h', pc, pc')
  {
    match pc
    case Process => TakeBalanced(c, h, h', who, pc', move);
    case Scan => ScanBalanced(h, h', who, pc', move);
    case _ => DispatchBalanced(c, h, h', who, pc, pc', move);
  }

  // ---------------------------------------------------------------- the invariant

  lemma WorkerRunKeepsLedger(c: Config, s: State, s': State, move: Move)
    requires ControlInv(s) && LedgerInv(s) && WorkerRunStep(c, s, s', move)
    ensures LedgerInv(s') && s'.h.l.entered == s.h.l.entered && s'.h.l.begun == s.h.l.begun
  {
    if InService(s.worker) {
      ServiceBalanced(s.h, s'.h, Worker, s.worker, s'.worker, move);
      ServiceControlKind(s.h, Worker, s.worker, move);
      WorkerBalanced(s, s');
    } else if IsProcessing(s.worker) {
      ProcessBalanced(c, s.h, s'.h, Worker, s.worker, s'.worker, move);
      ProcessControlKind(c, s.h, Worker, s.worker, move);
      WorkerBalanced(s, s');
    } else {
      TurnLeavesData(c, s.h, s.worker, s.handled, move);
      StayBalanced(s.h, s'.h, s.worker, s'.worker);
      WorkerBalanced(s, s');
    }
  }

  lemma TurnLeavesData(c: Config, h: Shared, pc: Exec, handled: nat, move: Move)
    requires TurnStep(c, h, pc, handled, move).Some?
    ensures var r := TurnStep(c, h, pc, handled, move).value;
            r.0.q == h.q && r.0.l == h.l && NoHand(pc) && NoHand(r.1)
  {
  }

  lemma WorkerBalanced(s: State, s': State)
    requires WorkerMoved(s, s') && Balanced(s.h, s'.h, s.worker, s'.worker)
    requires forall m :: Accounted(s, m)
    ensures forall m :: Accounted(s', m)
  {
    forall m ensures Accounted(s', m) {
      assert Accounted(s, m) && Total(s'.h, s'.worker, m) == Total(s.h, s.worker, m);
    }
  }

  lemma ServiceControlKind(h: Shared, who: Who, pc: Exec, move: Move)
    requires ServiceStep(h, who, pc, move).Some?
    requires forall m :: m in h.l.control ==> m.kind.Shutdown?
    ensures var r := ServiceStep(h, who, pc, move).value;
            && (forall m :: m in r.0.l.control ==> m.kind.Shutdown?)
            && !r.1.ShutdownHook? && !r.1.ShutdownState?
  {
  }

  lemma ProcessControlKind(c: Config, h: Shared, who: Who, pc: Exec, move: Move)
    requires ProcessStep(c, h, who, pc, move).Some?
    requires forall m :: m in h.l.control ==> m.kind.Shutdown?
    requires pc.ShutdownHook? ==> pc.msg.kind.Shutdown?
    requires pc.ShutdownState? ==> pc.msg.kind.Shutdown?
    ensures var r := ProcessStep(c, h, who, pc, move).value;
            && (forall m :: m in r.0.l.control ==> m.kind.Shutdown?)
            && (r.1.ShutdownHook? ==> r.1.msg.kind.Shutdown?)
            && (r.1.ShutdownState? ==> r.1.msg.kind.Shutdown?)
  {
  }

  lemma LateBalanced(s: State, s': State, pc': Exec)
    requires WaiterMoved(s, s', pc') && Balanced(s.h, s'.h, s.waiter.pc, pc')
    requires forall m :: Accounted(s, m)
    ensures forall m :: Accounted(s', m)
  {
    forall m ensures Accounted(s', m) {
      assert Accounted(s, m) && Total(s'.h, pc', m) == Total(s.h, s.waiter.pc, m);
      assert WaiterPc(s') == pc';
    }
  }

  lemma LateServiceKeepsLedger(s: State, s': State, pc': Exec, move: Move)
    requires LedgerInv(s) && WaiterMoved(s, s', pc')
    requires ServiceStep(s.h, Waiter, s.waiter.pc, move) == Some((s'.h, pc'))
    ensures LedgerInv(s') && s'.h.l.entered == s.h.l.entered && s'.h.l.begun == s.h.l.begun
  {
    ServiceBalanced(s.h, s'.h, Waiter, s.waiter.pc, pc', move);
    ServiceControlKind(s.h, Waiter, s.waiter.pc, move);
    LateBalanced(s, s', pc');
  }

  lemma LateProcessKeepsLedger(c: Config, s: State, s': State, pc': Exec, move: Move)
    requires ExecutorInv(s) && LedgerInv(s) && WaiterMoved(s, s', pc')
    requires !InService(s.waiter.pc) && ProcessStep(c, s.h, Waiter, s.waiter.pc, move) == Some((s'.h, pc'))
    ensures LedgerInv(s') && s'.h.l.entered == s.h.l.entered && s'.h.l.begun == s.h.l.begun
  {
    ProcessBalanced(c, s.h, s'.h, Waiter, s.waiter.pc, pc', move);
    ProcessControlKind(c, s.h, Waiter, s.waiter.pc, move);
    LateBalanced(s, s', pc');
  }

  lemma WaitKeepsLedger(c: Config, s: State, s': State, move: Move)
    requires ControlInv(s) && LedgerInv(s) && WaitStep(c, s, s', move)
    ensures LedgerInv(s') && s'.h.l.entered == s.h.l.entered && s'.h.l.begun == s.h.l.begun
  {
    if s.waiter.Completing? && InService(s.waiter.pc) {
      LateServiceKeepsLedger(s, s', ServiceStep(s.h, Waiter, s.waiter.pc, move).value.1, move);
    } else if s.waiter.Completing? {
      LateProcessKeepsLedger(c, s, s', ProcessStep(c, s.h, Waiter, s.waiter.pc, move).value.1, move);
    } else {
      LedgerFrame(s, s');
    }
  }

  /** What entered and is not with the shared structures: must be in an executor's hand. */
  function Slack(h: Shared, m: Message): int {
    h.l.entered[m] - InQueues(h.q, m) - Settled(h.l, m)
  }

  lemma PushedSlack(h: Shared, x: Message, m: Message)
    ensures Slack(Pushed(h, x), m) == Slack(h, m)
  {
    assert multiset(h.q.stack + [x])[m] == multiset(h.q.stack)[m] + multiset{x}[m];
  }

  lemma RefusedSlack(h: Shared, x: Message, m: Message)
    ensures Slack(Refused(h, x), m) == Slack(h, m)
  {
  }

  lemma ProduceSlack(h: Shared, t: Tid, pc: Producer, fails: bool, m: Message)
    ensures Slack(ProduceTo(h, t, pc, fails).0, m) == Slack(h, m)
  {
    if Carries(pc) {
      PushedSlack(h, pc.m, m);
      RefusedSlack(h, pc.m, m);
    }
  }

  lemma ProduceKeepsLedger(s: State, s': State, t: Tid, fails: bool)
    requires LedgerInv(s) && ProduceStep(s, s', t, fails)
    ensures LedgerInv(s')
  {
    forall m ensures Slack(s'.h, m) == Slack(s.h, m) {
      ProduceSlack(s.h, t, s.producers[t], fails, m);
    }
    SlackKeepsLedger(s, s');
  }

  lemma SlackKeepsLedger(s: State, s': State)
    requires LedgerInv(s) && s'.worker == s.worker && s'.waiter == s.waiter
    requires s'.h.l.control == s.h.l.control
    requires forall m :: Slack(s'.h, m) == Slack(s.h, m)
    ensures LedgerInv(s')
  {
    forall m ensures Accounted(s', m) {
      assert Accounted(s, m) && Slack(s'.h, m) == Slack(s.h, m);
    }
  }

  /** Every message begun has entered or is carried, while t moves on from p to p'. */
  lemma MovedKeepsCarried(s: State, s': State, t: Tid)
    requires OriginInv(s) && t in s.producers && s'.h.l.begun == s.h.l.begun
    requires s.h.l.entered <= s'.h.l.entered
    requires forall u :: u in s.producers && u != t ==> u in s'.producers && s'.producers[u] == s.producers[u]
    requires Carries(s.producers[t]) ==>
               s.producers[t].m in s'.h.l.entered
               || (t in s'.producers && Carries(s'.producers[t]) && s'.producers[t].m == s.producers[t].m)
    ensures forall x :: x in s'.h.l.begun ==> x in s'.h.l.entered || Carried(s'.producers, x)
  {
    forall x | x in s'.h.l.begun
      ensures x in s'.h.l.entered || Carried(s'.producers, x)
    {
      if x !in s.h.l.entered {
        var u :| u in s.producers && Carries(s.producers[u]) && s.producers[u].m == x;
        assert u != t ==> u in s'.producers && s'.producers[u] == s.producers[u];
      }
    }
  }

  /** A producer hands its message over: it is no longer carried, and it has entered. */
  lemma HandOverKeepsOrigin(s: State, s': State, t: Tid, m: Message)
    requires OriginInv(s) && t in s.producers && Carries(s.producers[t]) && s.producers[t].m == m
    requires s'.h.l.entered == s.h.l.entered + multiset{m} && s'.h.l.begun == s.h.l.begun
    requires s'.producers == s.producers - {t} || s'.producers == s.producers[t := Schedule]
    ensures OriginInv(s')
  {
    EnteredOnce(s.h.l.entered, m);
    MovedKeepsCarried(s, s', t);
  }

  lemma EnteredOnce(entered: multiset<Message>, m: Message)
    requires m !in entered
    ensures (entered + multiset{m})[m] == 1
    ensures forall x :: x in entered + multiset{m} <==> x == m || x in entered
    ensures forall x :: x != m ==> (entered + multiset{m})[x] == entered[x]
  {
  }

  lemma StepOnKeepsOrigin(s: State, s': State, t: Tid)
    requires OriginInv(s) && t in s.producers && s'.h.l.entered == s.h.l.entered && s'.h.l.begun == s.h.l.begun
    requires || (!Carries(s.producers[t]) && s'.producers == s.producers - {t})
             || (&& Carries(s.producers[t]) && t in s'.producers && Carries(s'.producers[t])
                 && s'.producers == s.producers[t := s'.producers[t]]
                 && s'.producers[t].m == s.producers[t].m)
    ensures OriginInv(s')
  {
    MovedKeepsCarried(s, s', t);
  }

  lemma ProduceKeepsOrigin(s: State, s': State, t: Tid, fails: bool)
    requires OriginInv(s) && ProduceStep(s, s', t, fails)
    ensures OriginInv(s')
  {
    if s'.h.l.entered == s.h.l.entered {
      StepOnKeepsOrigin(s, s', t);
    } else {
      HandOverKeepsOrigin(s, s', t, s.producers[t].m);
    }
  }

  lemma BeginKeepsOrigin(s: State, s': State, t: Tid, m: Message)
    requires OriginInv(s) && t !in s.producers && m !in s.h.l.begun
    requires s'.h.l.entered == s.h.l.entered && s'.h.l.begun == s.h.l.begun + {m}
    requires s'.producers == s.producers[t := CheckState(m)]
    ensures OriginInv(s')
  {
    forall x | x in s'.h.l.begun
      ensures x in s'.h.l.entered || Carried(s'.producers, x)
    {
      if x == m {
        assert Carries(s'.producers[t]) && s'.producers[t].m == m;
      } else if x !in s.h.l.entered {
        var u :| u in s.producers && Carries(s.producers[u]) && s.producers[u].m == x;
        assert s'.producers[u] == s.producers[u];
      }
    }
  }

  /** The part of QueueInv that concerns one executor. */
  predicate QueueOk(h: Shared, pc: Exec) {
    && (!h.k.word.Open? ==> h.q.stack == [])
    && (h.k.word.Blocked? ==> CachesEmpty(h.q))
    && PartsDrained(h.q, pc)
    && (h.k.word.Closed? && pc.Away? ==> CachesEmpty(h.q) && h.q.held == [])
  }

  lemma ServiceKeepsQueues(h: Shared, who: Who, pc: Exec, move: Move)
    requires ServiceStep(h, who, pc, move).Some?
    requires QueueOk(h, pc)
    requires if AfterClose(pc) then h.k.word.Closed? else h.k.word.Open?
    ensures var r := ServiceStep(h, who, pc, move).value; QueueOk(r.0, r.1)
  {
  }

  lemma ProcessKeepsQueues(c: Config, h: Shared, who: Who, pc: Exec, move: Move)
    requires ProcessStep(c, h, who, pc, move).Some?
    requires QueueOk(h, pc) && h.k.word.Open?
    ensures var r := ProcessStep(c, h, who, pc, move).value; QueueOk(r.0, r.1)
  {
  }

  lemma TurnKeepsQueues(c: Config, h: Shared, pc: Exec, handled: nat, move: Move)
    requires TurnStep(c, h, pc, handled, move).Some?
    requires QueueOk(h, pc) && (h.k.word.Closed? ==> CachesEmpty(h.q) && h.q.held == [])
    ensures var r := TurnStep(c, h, pc, handled, move).value; QueueOk(r.0, r.1)
  {
  }

  lemma WorkerRunKeepsQueues(c: Config, s: State, s': State, move: Move)
    requires ControlInv(s) && QueueInv(s) && WorkerRunStep(c, s, s', move)
    ensures QueueInv(s')
  {
    if InService(s.worker) {
      ServiceKeepsQueues(s.h, Worker, s.worker, move);
    } else if IsProcessing(s.worker) {
      ProcessKeepsQueues(c, s.h, Worker, s.worker, move);
    } else {
      TurnKeepsQueues(c, s.h, s.worker, s.handled, move);
    }
  }

  lemma LateKeepsQueues(c: Config, s: State, s': State, move: Move)
    requires WordInv(s) && QueueInv(s) && Late(s) && WaitStep(c, s, s', move)
    requires InService(s.waiter.pc) || s.h.k.word.Open?
    ensures QueueInv(s')
  {
    if InService(s.waiter.pc) {
      ServiceKeepsQueues(s.h, Waiter, s.waiter.pc, move);
    } else {
      ProcessKeepsQueues(c, s.h, Waiter, s.waiter.pc, move);
    }
  }

  lemma WaitOnlyKeepsQueues(s: State, s': State)
    requires QueueInv(s) && WaitAloneStep(s, s')
    ensures QueueInv(s')
  {
    WaitAloneLeaves(s, s');
  }

  lemma WaitKeepsQueues(c: Config, s: State, s': State, move: Move)
    requires WordInv(s) && PhaseInv(s) && QueueInv(s) && WaitStep(c, s, s', move)
    ensures QueueInv(s')
  {
    if s.waiter.Completing? {
      assert Late(s);
      LateKeepsQueues(c, s, s', move);
    } else {
      WaitOnlyKeepsQueues(s, s');
    }
  }

  lemma ProduceKeepsQueues(s: State, s': State, t: Tid, fails: bool)
    requires QueueInv(s) && ProduceStep(s, s', t, fails)
    ensures QueueInv(s')
  {
  }

  lemma LedgerFrame(s: State, s': State)
    requires LedgerInv(s) && s'.h.q == s.h.q
    requires s'.h.l == s.h.l.(begun := s'.h.l.begun)
    requires s'.worker == s.worker || (s.worker.Away? && s'.worker.Enter?)
    requires Hand(WaiterPc(s')) == Hand(WaiterPc(s))
    ensures LedgerInv(s')
  {
    assert Hand(s'.worker) == Hand(s.worker);
    forall m ensures Accounted(s', m) {
      assert Accounted(s, m);
    }
  }

  /** Steps that touch no queue and no ledger entry. */
  predicate LeavesData(step: Step) {
    step.WorkerPop? || step.Create? || step.Stop? || IsOther(step)
  }

  predicate DataLeft(s: State, s': State) {
    && s'.h.q == s.h.q && s'.h.l == s.h.l.(begun := s'.h.l.begun)
    && (s'.worker == s.worker || (s.worker.Away? && s'.worker.Enter?))
    && WaiterPc(s') == WaiterPc(s)
  }

  lemma PopLeavesData(s: State, s': State)
    requires WorkerPopStep(s, s')
    ensures DataLeft(s, s')
  {
  }

  lemma CreateLeavesData(s: State, s': State)
    requires CreateStep(s, s')
    ensures DataLeft(s, s')
  {
  }

  lemma DataUnchanged(c: Config, s: State, s': State, step: Step)
    requires NextStep(c, s, s', step) && LeavesData(step)
    ensures DataLeft(s, s')
  {
    match step {
      case WorkerPop => PopLeavesData(s, s');
      case Create => CreateLeavesData(s, s');
      case _ => OtherLeavesData(c, s, s', step);
    }
  }

  lemma OtherLeavesData(c: Config, s: State, s': State, step: Step)
    requires NextStep(c, s, s', step) && (step.Stop? || IsOther(step))
    ensures DataLeft(s, s')
  {
  }

  /** Only an empty open mailbox is blocked, and no such step closes it. */
  predicate WordMove(s: State, s': State) {
    || s'.h.k.word == s.h.k.word || s'.h.k.word.Open?
    || (s'.h.k.word.Blocked? && NothingQueued(s.h.q))
  }

  lemma StopWord(s: State, s': State, t: Tid)
    requires StopStep(s, s', t)
    ensures WordMove(s, s')
  {
  }

  lemma OtherWord(c: Config, s: State, s': State, step: Step)
    requires NextStep(c, s, s', step) && LeavesData(step)
    ensures WordMove(s, s')
  {
    if step.Stop? {
      StopWord(s, s', step.t);
    }
  }

  lemma QueueFrame(s: State, s': State)
    requires QueueInv(s) && s'.h.q == s.h.q && WaiterPc(s') == WaiterPc(s)
    requires s'.worker == s.worker || (s.worker.Away? && s'.worker.Enter?)
    requires WordMove(s, s')
    ensures QueueInv(s')
  {
  }

  lemma OtherKeepsOrigin(c: Config, s: State, s': State, step: Step)
    requires OriginInv(s) && NextStep(c, s, s', step)
    requires LeavesData(step)
    ensures OriginInv(s')
  {
    if step.BeginEnqueue? {
      BeginKeepsOrigin(s, s', step.t, step.m);
    } else {
      assert s'.h.l == s.h.l && s'.producers == s.producers;
    }
  }

  lemma OtherKeepsData(c: Config, s: State, s': State, step: Step)
    requires Inv(s) && NextStep(c, s, s', step) && LeavesData(step)
    ensures QueueInv(s') && OriginInv(s') && LedgerInv(s')
  {
    DataUnchanged(c, s, s', step);
    LedgerFrame(s, s');
    OtherWord(c, s, s', step);
    QueueFrame(s, s');
    OtherKeepsOrigin(c, s, s', step);
  }

  lemma WorkerRunKeepsData(c: Config, s: State, s': State, move: Move)
    requires Inv(s) && WorkerRunStep(c, s, s', move)
    ensures QueueInv(s') && OriginInv(s') && LedgerInv(s')
  {
    WorkerRunKeepsLedger(c, s, s', move);
    WorkerRunKeepsQueues(c, s, s', move);
    OriginFrame(s, s');
  }

  lemma ProduceKeepsData(s: State, s': State, t: Tid, fails: bool)
    requires QueueInv(s) && OriginInv(s) && LedgerInv(s) && ProduceStep(s, s', t, fails)
    ensures QueueInv(s') && OriginInv(s') && LedgerInv(s')
  {
    ProduceKeepsLedger(s, s', t, fails);
    ProduceKeepsOrigin(s, s', t, fails);
    ProduceKeepsQueues(s, s', t, fails);
  }

  lemma WaitKeepsData(c: Config, s: State, s': State, move: Move)
    requires Inv(s) && WaitStep(c, s, s', move)
    ensures QueueInv(s') && OriginInv(s') && LedgerInv(s')
  {
    WaitKeepsLedger(c, s, s', move);
    WaitKeepsQueues(c, s, s', move);
    OriginFrame(s, s');
  }

  lemma NextKeepsData(c: Config, s: State, s': State, step: Step)
    requires Inv(s) && NextStep(c, s, s', step)
    ensures QueueInv(s') && OriginInv(s') && LedgerInv(s')
  {
    match step
    case WorkerRun(move) => WorkerRunKeepsData(c, s, s', move);
    case Produce(t, fails) => ProduceKeepsData(s, s', t, fails);
    case Wait(move) => WaitKeepsData(c, s, s', move);
    case _ => OtherKeepsData(c, s, s', step);
  }

  lemma OriginFrame(s: State, s': State)
    requires OriginInv(s)
    requires s'.h.l.entered == s.h.l.entered && s'.h.l.begun == s.h.l.begun && s'.producers == s.producers
    ensures OriginInv(s')
  {
  }

  lemma NextKeepsInv(c: Config, s: State, s': State, step: Step)
    requires !c.earlyStop && Inv(s) && NextStep(c, s, s', step)
    ensures Inv(s')
  {
    NextKeepsControl(c, s, s', step);
    NextKeepsData(c, s, s', step);
  }
}
