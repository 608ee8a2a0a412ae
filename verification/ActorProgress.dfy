/** A stop can always be carried to its end, and no executor is ever stuck. */
module ActorProgress {
  import opened Common
  import opened ActorProtocol
  import opened ActorInvariant
  import opened ActorControl
  import opened ActorTheorems
  import opened ActorArrivals

  /** How far service_stop is from its end. */
  function Remaining(pc: Exec): nat {
    match pc
    case Service => 12
    case FirstDiscard => 11
    case FirstHeld => 10
    case DrainTest => 9
    case HookShutdown => 8
    case HookStop => 7
    case LastDiscard => 6
    case LastHeld => 5
    case CloseWord => 4
    case DropAll(taken) => 3
    case Unlist => 2
    case MarkStopped => 1
    case _ => 0
  }

  /** Messages still to be thrown away; those on the stack are moved first. */
  function Size(q: Queues, pc: Exec): nat {
    2 * |q.stack| + |q.calls| + |q.others| + |q.held| + if pc.DropAll? then |pc.taken| else 0
  }

  lemma {:induction false} KindsShare(ms: seq<Message>)
    ensures |OfKind(ms, true)| + |OfKind(ms, false)| == |ms|
  {
    if ms != [] {
      KindsShare(ms[1..]);
    }
  }

  /** The move of a pop() that finds things as they are; past the drain's deadline. */
  function SoloMove(q: Queues, pc: Exec): Move {
    if pc.FirstDiscard? || pc.LastDiscard? then
      if !CachesEmpty(q) then Front else if q.stack != [] then Fetch else Empty
    else if pc.DrainTest? then No
    else Move.Go
  }

  predicate Nearer(q: Queues, pc: Exec, q': Queues, pc': Exec) {
    Remaining(pc') < Remaining(pc) || (pc' == pc && Size(q', pc') < Size(q, pc)) ||
    (pc.DropAll? && pc'.DropAll? && Size(q', pc') < Size(q, pc))
  }

  lemma DiscardNears(h: Shared, here: Exec, next: Exec)
    requires !here.DropAll? && Remaining(next) < Remaining(here) && (here.FirstDiscard? || here.LastDiscard?)
    ensures var r := DiscardStep(h, here, next, SoloMove(h.q, here));
            r.Some? && Nearer(h.q, here, r.value.0.q, r.value.1)
  {
    KindsShare(h.q.stack);
  }

  lemma ServiceNears(h: Shared, who: Who, pc: Exec)
    requires InService(pc) && !h.k.life.Stopped?
    ensures var r := ServiceStep(h, who, pc, SoloMove(h.q, pc));
            r.Some? && Nearer(h.q, pc, r.value.0.q, r.value.1)
  {
    match pc
    case FirstDiscard => DiscardNears(h, FirstDiscard, FirstHeld);
    case LastDiscard => DiscardNears(h, LastDiscard, LastHeld);
    case _ =>
  }

  /** s' follows from s by steps of the worker alone. */
  predicate WorkerOnly(s: State, s': State) {
    s' == s.(h := s'.h, worker := s'.worker, handled := s'.handled)
  }

  /** Left alone, a worker that is in service_stop once the deadline has passed completes the stop:
      on_shutdown and on_stop have run, the mailbox is closed and empty, and nothing was handled. */
  lemma {:induction false} SoloStopCompletes(c: Config, s: State) returns (s': State)
    requires !c.earlyStop && Reachable(c, s) && InService(s.worker)
    ensures Reachable(c, s') && WorkerOnly(s, s') && s'.worker.Away? && StoppedForGood(s')
    ensures s'.h.k.onShutdown == 1 && s'.h.k.onStop == 1 && NothingQueued(s'.h.q) && s'.h.q.held == []
    ensures s'.h.l.dispatched == s.h.l.dispatched && s'.h.l.entered == s.h.l.entered
    decreases Remaining(s.worker), Size(s.h.q, s.worker)
  {
    var next := SoloStep(c, s);
    if InService(next.worker) {
      s' := SoloStopCompletes(c, next);
    } else {
      s' := next;
      StopIsComplete(c, s, s');
    }
  }

  lemma SoloStep(c: Config, s: State) returns (s': State)
    requires !c.earlyStop && Reachable(c, s) && InService(s.worker)
    ensures Reachable(c, s') && WorkerOnly(s, s') && Nearer(s.h.q, s.worker, s'.h.q, s'.worker)
    ensures s'.h.l.dispatched == s.h.l.dispatched && s'.h.l.entered == s.h.l.entered
    ensures ServiceEffect(s.h.k, s'.h.k, Worker, s.worker, s'.worker)
    ensures InService(s'.worker) || s.worker.MarkStopped?
  {
    ReachableInv(c, s);
    var move := SoloMove(s.h.q, s.worker);
    ServiceNears(s.h, Worker, s.worker);
    ServiceDispatchesNothing(s.h, Worker, s.worker, move);
    ServiceEntersNothing(s.h, Worker, s.worker, move);
    ServiceHasEffect(s.h, Worker, s.worker, move);
    SoloStays(s.h, s.worker);
    var r := ServiceStep(s.h, Worker, s.worker, move).value;
    s' := s.(h := r.0, worker := r.1);
    Extend(c, s, s', WorkerRun(move));
  }

  lemma SoloStays(h: Shared, pc: Exec)
    requires InService(pc) && !h.k.life.Stopped? && (pc.Service? ==> h.k.executor != By(Waiter))
    requires ServiceStep(h, Worker, pc, SoloMove(h.q, pc)).Some?
    ensures InService(ServiceStep(h, Worker, pc, SoloMove(h.q, pc)).value.1) || pc.MarkStopped?
  {
    if pc.Service? {
      match h.k.executor {
        case Nobody =>
        case By(Worker) =>
        case By(Waiter) => assert false;
      }
    }
  }

  lemma ServiceEntersNothing(h: Shared, who: Who, pc: Exec, move: Move)
    requires ServiceStep(h, who, pc, move).Some?
    ensures ServiceStep(h, who, pc, move).value.0.l.entered == h.l.entered
  {
  }

  lemma StopIsComplete(c: Config, s: State, s': State)
    requires !c.earlyStop && Reachable(c, s) && Reachable(c, s') && WorkerOnly(s, s')
    requires s.worker.MarkStopped? && ServiceEffect(s.h.k, s'.h.k, Worker, s.worker, s'.worker)
    ensures s'.worker.Away? && StoppedForGood(s')
    ensures s'.h.k.onShutdown == 1 && s'.h.k.onStop == 1 && NothingQueued(s'.h.q) && s'.h.q.held == []
  {
    ReachableInv(c, s);
    ReachableInv(c, s');
  }

  // ---------------------------------------------------------------- a turn that nobody disturbs

  /** A worker that finds nothing to do and is left alone puts the actor to sleep and leaves it. */
  lemma SoloIdle(c: Config, s: State) returns (s': State)
    requires !c.earlyStop && Reachable(c, s) && s.worker.Poll? && !HasWork(s.h) && !s.h.k.phase.Requested?
    ensures Reachable(c, s') && s'.worker.Away? && s'.h.k.word.Blocked? && s'.h.q == s.h.q && s'.h.l == s.h.l
  {
    PollsOpen(c, s);
    var s1 := s.(worker := TryBlock);
    Extend(c, s, s1, WorkerRun(Empty));
    s' := SoloBlock(c, s1);
  }

  lemma SoloBlock(c: Config, s1: State) returns (s': State)
    requires !c.earlyStop && Reachable(c, s1) && s1.worker.TryBlock? && NothingQueued(s1.h.q) && s1.h.k.word.Open?
    requires !s1.h.k.phase.Requested?
    ensures Reachable(c, s') && s'.worker.Away? && s'.h.k.word.Blocked? && s'.h.q == s1.h.q && s'.h.l == s1.h.l
  {
    var s2 := s1.(h := s1.h.(k := s1.h.k.(word := Blocked, token := Idle)), worker := Recheck);
    Extend(c, s1, s2, WorkerRun(Move.Go));
    s' := s2.(worker := Away);
    Extend(c, s2, s', WorkerRun(Move.Go));
  }

  lemma PollsOpen(c: Config, s: State)
    requires !c.earlyStop && Reachable(c, s) && s.worker.Poll?
    ensures s.h.k.word.Open?
  {
    ReachableInv(c, s);
  }

  /** A plain actor's worker that is left alone handles the oldest call waiting, else the oldest message. */
  lemma SoloHandle(c: Config, s: State, m: Message) returns (s': State)
    requires !c.earlyStop && Reachable(c, s) && s.worker.Process? && !c.stateful && !m.kind.Shutdown?
    requires if Waiting(s.h.q, true) != [] then m == Waiting(s.h.q, true)[0]
             else Waiting(s.h.q, false) != [] && m == Waiting(s.h.q, false)[0]
    ensures Reachable(c, s') && s'.worker.LoopTop? && s'.h.l == s.h.l.(dispatched := s.h.l.dispatched + multiset{m})
    ensures |Waiting(s'.h.q, true)| + |Waiting(s'.h.q, false)| == |Waiting(s.h.q, true)| + |Waiting(s.h.q, false)| - 1
  {
    var s1 := s;
    if s.h.q.calls == [] {
      FetchKeepsOrder(s.h, true);
      FetchKeepsOrder(s.h, false);
      s1 := s.(h := FetchMore(s.h));
      Extend(c, s, s1, WorkerRun(Fetch));
    }
    s' := SoloTake(c, s1, m);
  }

  lemma FrontIs(c: Config, h: Shared, m: Message)
    requires !c.stateful && (h.q.calls == [] ==> Waiting(h.q, true) == [] && h.q.others != [])
    requires if Waiting(h.q, true) != [] then m == Waiting(h.q, true)[0]
             else Waiting(h.q, false) != [] && m == Waiting(h.q, false)[0]
    ensures TakeStep(c, h, Worker, Front) == Some((h.(q := DropFront(h.q)), Dispatch(m)))
    ensures |Waiting(DropFront(h.q), true)| + |Waiting(DropFront(h.q), false)|
         == |Waiting(h.q, true)| + |Waiting(h.q, false)| - 1
  {
    TakenInOrder(c, h, Worker, Front);
  }

  lemma SoloTake(c: Config, s: State, m: Message) returns (s': State)
    requires !c.earlyStop && Reachable(c, s) && s.worker.Process? && !c.stateful && !m.kind.Shutdown?
    requires s.h.q.calls == [] ==> Waiting(s.h.q, true) == [] && s.h.q.others != []
    requires if Waiting(s.h.q, true) != [] then m == Waiting(s.h.q, true)[0]
             else Waiting(s.h.q, false) != [] && m == Waiting(s.h.q, false)[0]
    ensures Reachable(c, s') && s'.worker.LoopTop? && s'.h.l == s.h.l.(dispatched := s.h.l.dispatched + multiset{m})
    ensures |Waiting(s'.h.q, true)| + |Waiting(s'.h.q, false)| == |Waiting(s.h.q, true)| + |Waiting(s.h.q, false)| - 1
  {
    var s1 := s.(h := s.h.(q := DropFront(s.h.q)), worker := Dispatch(m));
    FrontIs(c, s.h, m);
    Extend(c, s, s1, WorkerRun(Front));
    s' := s1.(h := s1.h.(l := s1.h.l.(dispatched := s1.h.l.dispatched + multiset{m})), worker := LoopTop);
    Extend(c, s1, s', WorkerRun(Move.Go));
  }

  // ---------------------------------------------------------------- an enqueue that nobody disturbs

  function StepsLeft(k: Control, pc: Producer): nat {
    match pc
    case CheckState(_) => 4
    case LoadWord(_) => 3
    case Cas(_, seen) => if seen == k.word then 1 else 2
    case Schedule => 0
  }

  /** Once left alone, an enqueue comes to its end: the message has entered, and an actor that was running
      and asleep is in the ready queue. */
  lemma {:induction false} SoloEnqueue(c: Config, s: State, t: Tid) returns (s': State)
    requires !c.earlyStop && Reachable(c, s) && t in s.producers
    ensures Reachable(c, s') && s'.producers == s.producers - {t} && s.h.l.entered <= s'.h.l.entered
    ensures Carries(s.producers[t]) ==> s.producers[t].m in s'.h.l.entered
    ensures s.producers[t].Schedule? ==> Me in s'.h.k.ready
    ensures s.h.k.life.Running? && s.h.k.word.Blocked? ==> Me in s'.h.k.ready
    decreases StepsLeft(s.h.k, s.producers[t])
  {
    var next := s.(h := ProduceTo(s.h, t, s.producers[t], false).0);
    match ProduceTo(s.h, t, s.producers[t], false).1 {
      case None =>
        s' := next.(producers := s.producers - {t});
        Extend(c, s, s', Produce(t, false));
        EnqueueEnds(c, s, t);
      case Some(pc) =>
        var mid := next.(producers := s.producers[t := pc]);
        Extend(c, s, mid, Produce(t, false));
        EnqueueGoesOn(s.h, t, s.producers[t]);
        s' := SoloEnqueue(c, mid, t);
        assert mid.producers - {t} == s.producers - {t};
    }
  }

  lemma EnqueueGoesOn(h: Shared, t: Tid, pc: Producer)
    requires ProduceTo(h, t, pc, false).1.Some?
    ensures var (h', pc') := ProduceTo(h, t, pc, false);
            && StepsLeft(h'.k, pc'.value) < StepsLeft(h.k, pc) && h.l.entered <= h'.l.entered && Carries(pc)
            && (if pc'.value.Schedule? then pc.m in h'.l.entered
                else Carries(pc'.value) && pc'.value.m == pc.m && h' == h)
  {
  }

  lemma EnqueueEnds(c: Config, s: State, t: Tid)
    requires !c.earlyStop && Reachable(c, s) && t in s.producers && ProduceTo(s.h, t, s.producers[t], false).1.None?
    ensures var h' := ProduceTo(s.h, t, s.producers[t], false).0;
            && s.h.l.entered <= h'.l.entered && (Carries(s.producers[t]) ==> s.producers[t].m in h'.l.entered)
            && (s.producers[t].Schedule? ==> Me in h'.k.ready)
            && (s.h.k.life.Running? && s.h.k.word.Blocked? ==> Me in h'.k.ready)
  {
    ReachableInv(c, s);
    var run: seq<State> :| IsRun(c, run) && run[|run| - 1] == s;
    SeenOnRun(c, run, |run| - 1);
    EnqueueLeaves(s.h, t, s.producers[t]);
  }

  lemma EnqueueLeaves(h: Shared, t: Tid, pc: Producer)
    requires ProduceTo(h, t, pc, false).1.None? && (pc.Cas? && pc.seen.Closed? ==> h.k.word.Closed?)
    ensures var h' := ProduceTo(h, t, pc, false).0;
            && h.l.entered <= h'.l.entered && (Carries(pc) ==> pc.m in h'.l.entered)
            && (pc.Schedule? ==> Me in h'.k.ready)
            && (h.k.life.Running? && h.k.word.Blocked? ==> pc.Schedule?)
  {
  }

  // ---------------------------------------------------------------- nobody is stuck

  lemma {:induction false} OldestFrom(h: Shared, n: nat, k: nat) returns (i: nat)
    requires n <= k < |h.q.held| && Accepts(h.filter, h.q.held[k])
    requires forall j :: 0 <= j < n ==> !Accepts(h.filter, h.q.held[j])
    ensures OldestAccepted(h, i)
    decreases k - n
  {
    if Accepts(h.filter, h.q.held[n]) {
      i := n;
    } else {
      i := OldestFrom(h, n + 1, k);
    }
  }

  lemma ProcessCanMove(c: Config, h: Shared, who: Who, pc: Exec) returns (move: Move)
    requires IsProcessing(pc)
    ensures ProcessStep(c, h, who, pc, move).Some?
  {
    move := Move.Go;
    if pc.Process? {
      move := if !CachesEmpty(h.q) then Front else if h.q.stack != [] then Fetch else Empty;
    } else if pc.Scan? && !NoneAccepted(h) {
      var k: nat :| k < |h.q.held| && Accepts(h.filter, h.q.held[k]);
      var i := OldestFrom(h, 0, k);
      move := Unstash(i);
    }
  }

  lemma ServiceCanMove(h: Shared, who: Who, pc: Exec) returns (move: Move)
    requires InService(pc)
    ensures ServiceStep(h, who, pc, move).Some?
  {
    move := SoloMove(h.q, pc);
  }

  lemma TurnCanMove(c: Config, h: Shared, pc: Exec, handled: nat)
    requires InTurn(pc) && !pc.Away?
    ensures TurnStep(c, h, pc, handled, Yes).Some?
  {
  }

  /** The thread in wait_for_shutdown() leaves the loop of complete_pending_stops with service_stop. */
  predicate Inside(w: WaitPc) {
    w.Completing? ==> !w.pc.Away?
  }

  lemma OthersLeaveWaiter(c: Config, s: State, s': State, step: Step)
    requires NextStep(c, s, s', step) && !step.Wait?
    ensures s'.waiter == s.waiter || s'.waiter.Joining?
  {
  }

  lemma NextStaysInside(c: Config, s: State, s': State)
    requires Inside(s.waiter) && Next(c, s, s')
    ensures Inside(s'.waiter)
  {
    var step :| NextStep(c, s, s', step);
    if !step.Wait? {
      OthersLeaveWaiter(c, s, s', step);
    } else if !s.waiter.Completing? {
      WaitAloneLeaves(s, s');
      assert s'.waiter.Completing? ==> s'.waiter.pc.Service?;
    }
  }

  lemma {:induction false} InsideOnRun(c: Config, run: seq<State>, i: nat)
    requires IsRun(c, run) && i < |run|
    ensures Inside(run[i].waiter)
  {
    if i > 0 {
      InsideOnRun(c, run, i - 1);
      assert StepAt(c, run, i - 1);
      NextStaysInside(c, run[i - 1], run[i]);
    }
  }

  /** Whatever the other threads have done, one that executes the actor has a step to take. */
  lemma ExecutorsNeverStuck(c: Config, s: State)
    requires !c.earlyStop && Reachable(c, s)
    ensures !s.worker.Away? ==> exists move, s' :: WorkerRunStep(c, s, s', move)
    ensures s.waiter.Completing? ==> exists move, s' :: WaitStep(c, s, s', move)
  {
    ReachableInv(c, s);
    if !s.worker.Away? {
      WorkerCanMove(c, s);
    }
    if s.waiter.Completing? {
      var run: seq<State> :| IsRun(c, run) && run[|run| - 1] == s;
      InsideOnRun(c, run, |run| - 1);
      WaiterCanMove(c, s);
    }
  }

  lemma WorkerCanMove(c: Config, s: State)
    requires !s.worker.Away?
    ensures exists move, s' :: WorkerRunStep(c, s, s', move)
  {
    if InService(s.worker) {
      var move := ServiceCanMove(s.h, Worker, s.worker);
      var r := ServiceStep(s.h, Worker, s.worker, move);
      assert WorkerRunStep(c, s, s.(h := r.value.0, worker := r.value.1), move);
    } else if IsProcessing(s.worker) {
      var move := ProcessCanMove(c, s.h, Worker, s.worker);
      var r := ProcessStep(c, s.h, Worker, s.worker, move);
      assert WorkerRunStep(c, s, s.(h := r.value.0, worker := r.value.1), move);
    } else {
      TurnCanMove(c, s.h, s.worker, s.handled);
      var r := TurnStep(c, s.h, s.worker, s.handled, Yes);
      assert WorkerRunStep(c, s, s.(h := r.value.0, worker := r.value.1, handled := r.value.2), Yes);
    }
  }

  lemma WaiterCanMove(c: Config, s: State)
    requires ExecutorInv(s) && s.waiter.Completing? && Holds(s.waiter.pc)
    ensures exists move, s' :: WaitStep(c, s, s', move)
  {
    if InService(s.waiter.pc) {
      var move := ServiceCanMove(s.h, Waiter, s.waiter.pc);
      var r := ServiceStep(s.h, Waiter, s.waiter.pc, move).value;
      assert WaitStep(c, s, s.(h := r.0, waiter := if r.1.Away? then Snapshot else Completing(r.1)), move);
    } else {
      var move := ProcessCanMove(c, s.h, Waiter, s.waiter.pc);
      var r := ProcessStep(c, s.h, Waiter, s.waiter.pc, move).value;
      assert WaitStep(c, s, s.(h := r.0, waiter := if r.1.Away? then Snapshot else Completing(r.1)), move);
    }
  }
}
