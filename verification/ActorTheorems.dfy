/** What holds in every reachable state of the actor protocol. */
module ActorTheorems {
  import opened Common
  import opened ActorProtocol
  import opened ActorInvariant
  import opened ActorControl
  import opened ActorLedger

  // ---------------------------------------------------------------- induction over runs

  lemma InitialInv()
    ensures Inv(Initial())
  {
  }

  lemma {:induction false} InvOnRun(c: Config, run: seq<State>, i: nat)
    requires !c.earlyStop && IsRun(c, run) && i < |run|
    ensures Inv(run[i])
  {
    if i == 0 {
      InitialInv();
    } else {
      InvOnRun(c, run, i - 1);
      assert StepAt(c, run, i - 1);
      var step :| NextStep(c, run[i - 1], run[i], step);
      NextKeepsInv(c, run[i - 1], run[i], step);
    }
  }

  lemma ReachableInv(c: Config, s: State)
    requires !c.earlyStop && Reachable(c, s)
    ensures Inv(s)
  {
    var run: seq<State> :| IsRun(c, run) && run[|run| - 1] == s;
    InvOnRun(c, run, |run| - 1);
  }

  // ---------------------------------------------------------------- one owner

  /** Producers that have unblocked the mailbox and not yet queued the actor. */
  function SchedulingProducers(s: State): set<Tid> {
    set t | t in s.producers && s.producers[t].Schedule?
  }

  function SchedulingStoppers(s: State): set<Tid> {
    set t | t in s.stoppers && s.stoppers[t].ScheduleStop?
  }

  /** In how many places the right to execute the actor is found. */
  function Owners(s: State): nat {
    (if s.h.k.word.Blocked? then 1 else 0)
    + |SchedulingProducers(s)| + |SchedulingStoppers(s)|
    + (if s.creator.Activated? then 0 else 1)
    + multiset(s.h.k.ready)[Me]
    + (if Holds(s.worker) then 1 else 0)
  }

  predicate StoppedForGood(s: State) {
    s.h.k.life.Stopped? && s.h.k.word.Closed?
  }

  lemma Singleton<T>(xs: set<T>, x: T)
    requires x in xs && forall y :: y in xs ==> y == x
    ensures |xs| == 1
  {
    assert xs == {x};
  }

  lemma ProducersHolding(s: State)
    requires TokenInv(s)
    ensures |SchedulingProducers(s)| == if s.h.k.token.WithProducer? then 1 else 0
  {
    if s.h.k.token.WithProducer? {
      Singleton(SchedulingProducers(s), s.h.k.token.p);
    } else {
      assert SchedulingProducers(s) == {};
    }
  }

  lemma StoppersHolding(s: State)
    requires TokenInv(s)
    ensures |SchedulingStoppers(s)| == if s.h.k.token.WithStopper? then 1 else 0
  {
    if s.h.k.token.WithStopper? {
      Singleton(SchedulingStoppers(s), s.h.k.token.r);
    } else {
      assert SchedulingStoppers(s) == {};
    }
  }

  /** At any moment exactly one of these has the actor: its blocked mailbox, one thread on its way
      to queueing it, one ready-queue entry, or its worker; after a stop carried out by the
      worker, nobody. */
  lemma SingleOwner(c: Config, s: State)
    requires !c.earlyStop && Reachable(c, s)
    ensures Owners(s) <= 1
    ensures Owners(s) == 0 ==> StoppedForGood(s)
    ensures s.waiter.Completing? ==> s.worker.Away? && s.h.k.workerExited
  {
    ReachableInv(c, s);
    ProducersHolding(s);
    StoppersHolding(s);
  }

  /** The intrusive link is free whenever somebody pushes the actor. */
  lemma NeverQueuedTwice(c: Config, s: State, s': State, step: Step)
    requires !c.earlyStop && Reachable(c, s) && NextStep(c, s, s', step)
    requires multiset(s'.h.k.ready)[Me] > multiset(s.h.k.ready)[Me]
    ensures Me !in s.h.k.ready && multiset(s'.h.k.ready)[Me] == 1
  {
    ReachableInv(c, s);
    NextKeepsControl(c, s, s', step);
  }

  // ---------------------------------------------------------------- nothing stranded

  /** Idle with work to do that nobody is going to look at. */
  ghost predicate Stranded(s: State) {
    && s.h.k.word.Blocked?
    && (!NothingQueued(s.h.q) || (s.h.k.phase.Requested? && !StopNoticed(s)))
  }

  lemma NothingStranded(c: Config, s: State)
    requires !c.earlyStop && Reachable(c, s)
    ensures !Stranded(s)
  {
    ReachableInv(c, s);
  }

  // ---------------------------------------------------------------- tags are never overwritten

  /** The executor is inside a pop(), so its next step may be take_head(empty). */
  predicate InPop(pc: Exec) {
    pc.Process? || pc.FirstDiscard? || pc.LastDiscard?
  }

  lemma PopFindsOpenMailbox(c: Config, s: State)
    requires !c.earlyStop && Reachable(c, s) && (InPop(s.worker) || InPop(WaiterPc(s)))
    ensures s.h.k.word.Open?
  {
    ReachableInv(c, s);
  }

  // ---------------------------------------------------------------- what only ever advances

  function Rank(life: Life): nat {
    match life case Running => 0 case Stopping => 1 case Stopped => 2
  }

  predicate Advances(k: Control, k': Control) {
    && Rank(k'.life) >= Rank(k.life)
    && (k.word.Closed? ==> k'.word.Closed?)
    && k'.onShutdown >= k.onShutdown && k'.onStop >= k.onStop
  }

  lemma ServiceAdvances(k: Control, k': Control, who: Who, pc: Exec, pc': Exec)
    requires ServiceEffect(k, k', who, pc, pc') && (AfterClose(pc) || k.word.Open?)
    ensures Advances(k, k')
  {
  }

  lemma ProcessAdvances(k: Control, k': Control, who: Who, pc: Exec, pc': Exec)
    requires ProcessEffect(k, k', who, pc, pc') && k.word.Open? && !k.life.Stopped?
    ensures Advances(k, k')
  {
  }

  lemma TurnAdvances(k: Control, k': Control, pc: Exec, pc': Exec)
    requires TurnEffect(k, k', pc, pc')
    ensures Advances(k, k')
  {
  }

  lemma WorkerAdvances(c: Config, s: State, s': State, move: Move)
    requires WordInv(s) && PhaseInv(s) && WorkerRunStep(c, s, s', move)
    ensures Advances(s.h.k, s'.h.k)
  {
    if InService(s.worker) {
      ServiceHasEffect(s.h, Worker, s.worker, move);
      ServiceAdvances(s.h.k, s'.h.k, Worker, s.worker, s'.worker);
    } else if IsProcessing(s.worker) {
      ProcessHasEffect(c, s.h, Worker, s.worker, move);
      ProcessAdvances(s.h.k, s'.h.k, Worker, s.worker, s'.worker);
    } else {
      TurnHasEffect(c, s.h, s.worker, s.handled, move);
      TurnAdvances(s.h.k, s'.h.k, s.worker, s'.worker);
    }
  }

  lemma CompletingAdvances(c: Config, s: State, s': State, move: Move)
    requires WordInv(s) && PhaseInv(s) && s.waiter.Completing? && WaitStep(c, s, s', move)
    ensures Advances(s.h.k, s'.h.k)
  {
    if InService(s.waiter.pc) {
      ServiceHasEffect(s.h, Waiter, s.waiter.pc, move);
      ServiceAdvances(s.h.k, s'.h.k, Waiter, s.waiter.pc, ServiceStep(s.h, Waiter, s.waiter.pc, move).value.1);
    } else {
      ProcessHasEffect(c, s.h, Waiter, s.waiter.pc, move);
      ProcessAdvances(s.h.k, s'.h.k, Waiter, s.waiter.pc, ProcessStep(c, s.h, Waiter, s.waiter.pc, move).value.1);
    }
  }

  lemma WaitAloneAdvances(s: State, s': State)
    requires WaitAloneStep(s, s')
    ensures Advances(s.h.k, s'.h.k)
  {
  }

  lemma WaiterAdvances(c: Config, s: State, s': State, move: Move)
    requires WordInv(s) && PhaseInv(s) && WaitStep(c, s, s', move)
    ensures Advances(s.h.k, s'.h.k)
  {
    if s.waiter.Completing? {
      CompletingAdvances(c, s, s', move);
    } else {
      WaitAloneAdvances(s, s');
    }
  }

  lemma StopToAdvances(k: Control, t: Tid, pc: Stopper)
    ensures Advances(k, StopTo(k, t, pc).0)
  {
  }

  lemma ProduceToAdvances(h: Shared, t: Tid, pc: Producer, fails: bool)
    ensures Advances(h.k, ProduceTo(h, t, pc, fails).0.k)
  {
  }

  lemma OtherAdvances(c: Config, s: State, s': State, step: Step)
    requires NextStep(c, s, s', step)
    requires step.WorkerPop? || step.Create? || IsOther(step)
    ensures Advances(s.h.k, s'.h.k)
  {
    if step.Create? { CreateAdvances(s, s'); }
  }

  lemma CreateAdvances(s: State, s': State)
    requires CreateStep(s, s')
    ensures Advances(s.h.k, s'.h.k)
  {
  }

  /** Closed is for ever, the life cycle only goes forward, hook counts only grow. */
  lemma EveryStepAdvances(c: Config, s: State, s': State, step: Step)
    requires !c.earlyStop && Reachable(c, s) && NextStep(c, s, s', step)
    ensures s.h.k.word.Closed? ==> s'.h.k.word.Closed?
    ensures Rank(s'.h.k.life) >= Rank(s.h.k.life)
    ensures s'.h.k.onShutdown >= s.h.k.onShutdown && s'.h.k.onStop >= s.h.k.onStop
  {
    ReachableInv(c, s);
    StepAdvances(c, s, s', step);
  }

  lemma StepAdvances(c: Config, s: State, s': State, step: Step)
    requires WordInv(s) && PhaseInv(s) && NextStep(c, s, s', step)
    ensures Advances(s.h.k, s'.h.k)
  {
    match step
    case WorkerRun(move) => WorkerAdvances(c, s, s', move);
    case Wait(move) => WaiterAdvances(c, s, s', move);
    case Stop(t) => StopToAdvances(s.h.k, t, s.stoppers[t]);
    case Produce(t, fails) => ProduceToAdvances(s.h, t, s.producers[t], fails);
    case _ => OtherAdvances(c, s, s', step);
  }

  // ---------------------------------------------------------------- conservation

  /** An enqueue that has returned has had its effect: only a message that some thread is still
      enqueueing has not entered. */
  lemma FinishedEnqueuesEntered(c: Config, s: State, m: Message)
    requires !c.earlyStop && Reachable(c, s) && m in s.h.l.begun
    ensures Carried(s.producers, m) <==> m !in s.h.l.entered
  {
    ReachableInv(c, s);
  }

  /** Once the stop is complete, every message whose enqueue has finished was dispatched once or
      reported dead once; only system_shutdown may instead be consumed silently. */
  lemma StopConservesMessages(c: Config, s: State, m: Message)
    requires !c.earlyStop && Reachable(c, s) && StoppedForGood(s)
    requires m in s.h.l.begun && !Carried(s.producers, m)
    ensures s.h.l.dispatched[m] + s.h.l.dead[m] + s.h.l.control[m] == 1
    ensures !m.kind.Shutdown? ==> s.h.l.dispatched[m] + s.h.l.dead[m] == 1
    ensures NothingQueued(s.h.q) && s.h.q.held == []
  {
    FinishedEnqueuesEntered(c, s, m);
    ReachableInv(c, s);
    assert Accounted(s, m) && s.h.l.entered[m] == 1;
    assert Hand(s.worker) == multiset{} && Hand(WaiterPc(s)) == multiset{};
    assert InQueues(s.h.q, m) == 0;
    assert m in s.h.l.control ==> m.kind.Shutdown?;
  }

  /** Before that, a message that entered is in exactly one place. */
  lemma MessagesConserved(c: Config, s: State, m: Message)
    requires !c.earlyStop && Reachable(c, s) && m in s.h.l.entered
    ensures InQueues(s.h.q, m) + Hand(s.worker)[m] + Hand(WaiterPc(s))[m]
            + s.h.l.dispatched[m] + s.h.l.dead[m] + s.h.l.control[m] == 1
  {
    ReachableInv(c, s);
    assert Accounted(s, m) && s.h.l.entered[m] == 1;
  }

  // ---------------------------------------------------------------- lifecycle hooks

  predicate InHandler(pc: Exec) {
    pc.Dispatch?
  }

  lemma HooksRunAtMostOnce(c: Config, s: State)
    requires !c.earlyStop && Reachable(c, s)
    ensures s.h.k.onShutdown <= 1 && s.h.k.onStop <= 1
    ensures s.h.k.onStop == 1 ==> !IsProcessing(s.worker) && !IsProcessing(WaiterPc(s))
    ensures s.h.k.phase.NoStop? || s.h.k.phase.Claiming? ==> s.h.k.onShutdown == 0
  {
    ReachableInv(c, s);
  }

  /** Only a step that ends a handler counts a message as dispatched. */
  lemma OnlyHandlersDispatch(c: Config, s: State, s': State, step: Step)
    requires NextStep(c, s, s', step)
    requires !InHandler(s.worker) && !InHandler(WaiterPc(s))
    ensures s'.h.l.dispatched == s.h.l.dispatched
  {
    if step.WorkerRun? && InService(s.worker) {
      ServiceDispatchesNothing(s.h, Worker, s.worker, step.move);
    } else if step.Wait? && InService(WaiterPc(s)) {
      ServiceDispatchesNothing(s.h, Waiter, WaiterPc(s), step.move);
    }
  }

  lemma ServiceDispatchesNothing(h: Shared, who: Who, pc: Exec, move: Move)
    requires ServiceStep(h, who, pc, move).Some?
    ensures ServiceStep(h, who, pc, move).value.0.l.dispatched == h.l.dispatched
  {
  }

  lemma Extend(c: Config, s: State, s': State, step: Step)
    requires Reachable(c, s) && NextStep(c, s, s', step)
    ensures Reachable(c, s')
  {
    var run: seq<State> :| IsRun(c, run) && run[|run| - 1] == s;
    var longer := run + [s'];
    forall i | 0 <= i < |longer| - 1 ensures StepAt(c, longer, i) {
      if i < |run| - 1 {
        assert StepAt(c, run, i);
      }
    }
    assert IsRun(c, longer) && longer[|longer| - 1] == s';
  }

  /** Once on_stop has run, no handler is running and none is ever entered again. */
  lemma NoHandlerAfterOnStop(c: Config, s: State, s': State, step: Step)
    requires !c.earlyStop && Reachable(c, s) && NextStep(c, s, s', step) && s.h.k.onStop == 1
    ensures !InHandler(s.worker) && !InHandler(WaiterPc(s))
    ensures s'.h.l.dispatched == s.h.l.dispatched && s'.h.k.onStop == 1
  {
    HooksRunAtMostOnce(c, s);
    OnlyHandlersDispatch(c, s, s', step);
    EveryStepAdvances(c, s, s', step);
    Extend(c, s, s', step);
    HooksRunAtMostOnce(c, s');
  }

  /** wait_for_shutdown leaves the actor stopped with on_stop run exactly once. */
  lemma WaitedActorIsStopped(c: Config, s: State)
    requires !c.earlyStop && Reachable(c, s) && s.waiter.Finished?
    ensures s.h.k.life.Stopped? && s.h.k.onStop == 1
    ensures s.h.k.phase.ByShutdown? ==> s.h.k.onShutdown == 1
    ensures s.h.k.phase.Requested? ==> (s.h.k.onShutdown == 1 <==> StoppedForGood(s))
  {
    ReachableInv(c, s);
  }
}
