/** What a stop does: what its caller asked for, to the messages it may do it to, for good. */
module ActorStops {
  import opened Common
  import opened ActorProtocol
  import opened ActorInvariant
  import opened ActorControl
  import opened ActorLedger
  import opened ActorTheorems
  import opened ActorLimits

  // ---------------------------------------------------------------- the mode of a stop

  predicate BeforeRecord(p: Stopper) {
    p.CheckRunning? || p.Claim? || p.Record?
  }

  /** The claimed stop has its mode on record. */
  predicate AfterRecord(p: Stopper) {
    p.CasState? || p.Rollback? || p.StoreRequested?
  }

  predicate CallerInv(s: State) {
    && (forall t :: t in s.stoppers && BeforeRecord(s.stoppers[t]) ==>
          t in s.modes && s.modes[t] == s.stoppers[t].discard)
    && (forall t :: t in s.stoppers && s.stoppers[t].Record? ==> s.asked == Some(s.stoppers[t].discard))
    && (forall t :: t in s.stoppers && AfterRecord(s.stoppers[t]) ==> s.asked == Some(s.h.k.discard))
    && (s.h.k.phase.Requested? ==> s.asked == Some(s.h.k.discard))
  }

  predicate Discarding(pc: Exec) {
    pc.FirstDiscard? || pc.FirstHeld?
  }

  /** Each executor does what the recorded mode says. */
  predicate ModeInv(s: State) {
    && CallerInv(s)
    && (Discarding(s.worker) || Discarding(WaiterPc(s)) ==> s.h.k.discard)
    && (IsProcessing(WaiterPc(s)) ==> !s.h.k.discard)
  }

  /** A requested stop stays requested, in its mode and with its executor. */
  predicate StopStays(k: Control, k': Control) {
    && (k.phase.Requested? ==> k'.phase.Requested? && k'.discard == k.discard)
    && (k.phase.ByShutdown? ==> k'.phase.ByShutdown?)
    && (k.executor != Nobody ==> k'.executor == k.executor)
    && (!k.listed ==> !k'.listed) && (k.workerExited ==> k'.workerExited)
  }

  lemma CallerFrame(s: State, s': State)
    requires CallerInv(s) && s'.stoppers == s.stoppers && s'.modes == s.modes && s'.asked == s.asked
    requires s'.h.k.discard == s.h.k.discard && (s'.h.k.phase.Requested? ==> s.h.k.phase.Requested?)
    ensures CallerInv(s')
  {
  }

  lemma ServiceKeepsMode(k: Control, k': Control, who: Who, pc: Exec, pc': Exec)
    requires ServiceEffect(k, k', who, pc, pc') && (Discarding(pc) ==> k.discard)
    ensures StopStays(k, k') && k'.discard == k.discard && (k'.phase.Requested? ==> k.phase.Requested?)
    ensures Discarding(pc') ==> k'.discard
    ensures IsProcessing(pc') ==> !k'.discard
  {
  }

  lemma ProcessKeepsMode(k: Control, k': Control, who: Who, pc: Exec, pc': Exec)
    requires ProcessEffect(k, k', who, pc, pc') && !Discarding(pc)
    ensures StopStays(k, k') && k'.discard == k.discard && (k'.phase.Requested? ==> k.phase.Requested?)
    ensures !Discarding(pc')
  {
  }

  lemma TurnKeepsMode(k: Control, k': Control, pc: Exec, pc': Exec)
    requires TurnEffect(k, k', pc, pc')
    ensures StopStays(k, k') && k'.discard == k.discard && (k'.phase.Requested? ==> k.phase.Requested?)
    ensures !Discarding(pc')
  {
  }

  lemma WorkerKeepsMode(c: Config, s: State, s': State, move: Move)
    requires ModeInv(s) && WorkerRunStep(c, s, s', move)
    ensures ModeInv(s') && StopStays(s.h.k, s'.h.k)
  {
    if InService(s.worker) {
      ServiceHasEffect(s.h, Worker, s.worker, move);
      ServiceKeepsMode(s.h.k, s'.h.k, Worker, s.worker, s'.worker);
    } else if IsProcessing(s.worker) {
      ProcessHasEffect(c, s.h, Worker, s.worker, move);
      ProcessKeepsMode(s.h.k, s'.h.k, Worker, s.worker, s'.worker);
    } else {
      TurnHasEffect(c, s.h, s.worker, s.handled, move);
      TurnKeepsMode(s.h.k, s'.h.k, s.worker, s'.worker);
    }
    CallerFrame(s, s');
  }

  lemma CompletingKeepsMode(c: Config, s: State, s': State, move: Move)
    requires ModeInv(s) && s.waiter.Completing? && WaitStep(c, s, s', move)
    requires InService(s.waiter.pc) || !Discarding(s.waiter.pc)
    requires IsProcessing(s.waiter.pc) ==> !s.h.k.discard
    ensures ModeInv(s') && StopStays(s.h.k, s'.h.k)
  {
    if InService(s.waiter.pc) {
      ServiceHasEffect(s.h, Waiter, s.waiter.pc, move);
      ServiceKeepsMode(s.h.k, s'.h.k, Waiter, s.waiter.pc, ServiceStep(s.h, Waiter, s.waiter.pc, move).value.1);
    } else {
      ProcessHasEffect(c, s.h, Waiter, s.waiter.pc, move);
      ProcessKeepsMode(s.h.k, s'.h.k, Waiter, s.waiter.pc, ProcessStep(c, s.h, Waiter, s.waiter.pc, move).value.1);
    }
    CallerFrame(s, s');
  }

  lemma WaitOnlyKeepsMode(s: State, s': State)
    requires ModeInv(s) && WaitAloneStep(s, s')
    ensures ModeInv(s') && StopStays(s.h.k, s'.h.k)
  {
    WaitAloneLeaves(s, s');
    CallerFrame(s, s');
  }

  lemma WaiterKeepsMode(c: Config, s: State, s': State, move: Move)
    requires ModeInv(s) && WaitStep(c, s, s', move)
    ensures ModeInv(s') && StopStays(s.h.k, s'.h.k)
  {
    if s.waiter.Completing? {
      CompletingKeepsMode(c, s, s', move);
    } else {
      WaitOnlyKeepsMode(s, s');
    }
  }

  /** Only the call that holds the claim gets at the phase and the recorded mode. */
  lemma StopKeepsCaller(s: State, s': State, t: Tid)
    requires StopperInv(s) && CallerInv(s) && StopStep(s, s', t)
    ensures CallerInv(s') && StopStays(s.h.k, s'.h.k)
  {
    if s.stoppers[t].Record? {
      RecordKeepsCaller(s, s', t);
    } else if Claims(s, t) {
      ClaimKeepsCaller(s, s', t);
    } else {
      CallKeepsCaller(s, s', t);
    }
  }

  lemma RecordKeepsCaller(s: State, s': State, t: Tid)
    requires StopperInv(s) && CallerInv(s) && StopStep(s, s', t) && s.stoppers[t].Record?
    ensures CallerInv(s') && StopStays(s.h.k, s'.h.k)
  {
  }

  lemma ClaimKeepsCaller(s: State, s': State, t: Tid)
    requires StopperInv(s) && CallerInv(s) && StopStep(s, s', t) && Claims(s, t)
    ensures CallerInv(s') && StopStays(s.h.k, s'.h.k)
  {
  }

  lemma CallKeepsCaller(s: State, s': State, t: Tid)
    requires StopperInv(s) && CallerInv(s) && StopStep(s, s', t) && !Claims(s, t) && !s.stoppers[t].Record?
    ensures CallerInv(s') && StopStays(s.h.k, s'.h.k)
  {
    assert s'.asked == s.asked && s'.modes == s.modes;
    CallLeavesMode(s.h.k, t, s.stoppers[t]);
  }

  lemma CallLeavesMode(k: Control, t: Tid, pc: Stopper)
    requires !pc.Record? && !(pc.Claim? && k.phase.NoStop?)
    ensures var (k', pc') := StopTo(k, t, pc);
            && k'.discard == k.discard
            && (pc'.Some? ==> !pc'.value.Record?)
            && (pc'.Some? && BeforeRecord(pc'.value) ==> BeforeRecord(pc) && pc'.value.discard == pc.discard)
            && (pc'.Some? && AfterRecord(pc'.value) ==> AfterRecord(pc))
            && (k'.phase.Requested? ==> k.phase.Requested? || AfterRecord(pc))
  {
  }

  lemma StopKeepsMode(s: State, s': State, t: Tid)
    requires StopperInv(s) && LifeInv(s) && ModeInv(s) && StopStep(s, s', t)
    ensures ModeInv(s') && StopStays(s.h.k, s'.h.k)
  {
    StopKeepsCaller(s, s', t);
    assert s.h.k.phase.Requested? ==> s'.h.k.discard == s.h.k.discard;
  }

  lemma ProduceKeepsMode(s: State, s': State, t: Tid, fails: bool)
    requires ModeInv(s) && ProduceStep(s, s', t, fails)
    ensures ModeInv(s') && StopStays(s.h.k, s'.h.k)
  {
    ProduceToLeavesStop(s.h, t, s.producers[t], fails);
    CallerFrame(s, s');
  }

  lemma ProduceToLeavesStop(h: Shared, t: Tid, pc: Producer, fails: bool)
    ensures var k' := ProduceTo(h, t, pc, fails).0.k;
            k' == h.k.(word := k'.word, token := k'.token, ready := k'.ready)
  {
  }

  lemma BeginStopKeepsMode(c: Config, s: State, s': State, t: Tid, discard: bool)
    requires ModeInv(s) && NextStep(c, s, s', BeginStop(t, discard))
    ensures ModeInv(s') && StopStays(s.h.k, s'.h.k)
  {
  }

  /** Nothing that a stop's mode depends on. */
  predicate ModeUntouched(s: State, s': State) {
    && s'.stoppers == s.stoppers && s'.modes == s.modes && s'.asked == s.asked && WaiterPc(s') == WaiterPc(s)
    && (s'.worker == s.worker || s'.worker.Enter?)
    && s'.h.k.discard == s.h.k.discard && s'.h.k.phase == s.h.k.phase && s'.h.k.executor == s.h.k.executor
    && s'.h.k.life == s.h.k.life && s'.h.k.listed == s.h.k.listed && (s.h.k.workerExited ==> s'.h.k.workerExited)
  }

  lemma PopLeavesMode(s: State, s': State)
    requires WorkerPopStep(s, s')
    ensures ModeUntouched(s, s')
  {
  }

  lemma CreateLeavesMode(s: State, s': State)
    requires CreateStep(s, s')
    ensures ModeUntouched(s, s')
  {
  }

  lemma OtherLeavesMode(c: Config, s: State, s': State, step: Step)
    requires NextStep(c, s, s', step) && IsOther(step) && !step.BeginStop?
    ensures ModeUntouched(s, s')
  {
  }

  lemma OtherKeepsMode(c: Config, s: State, s': State, step: Step)
    requires ModeInv(s) && NextStep(c, s, s', step)
    requires step.WorkerPop? || step.Create? || (IsOther(step) && !step.BeginStop?)
    ensures ModeInv(s') && StopStays(s.h.k, s'.h.k)
  {
    match step {
      case WorkerPop => PopLeavesMode(s, s');
      case Create => CreateLeavesMode(s, s');
      case _ => OtherLeavesMode(c, s, s', step);
    }
    CallerFrame(s, s');
  }

  lemma NextKeepsMode(c: Config, s: State, s': State, step: Step)
    requires StopperInv(s) && PhaseInv(s) && ModeInv(s) && NextStep(c, s, s', step)
    ensures ModeInv(s') && StopStays(s.h.k, s'.h.k)
  {
    match step
    case WorkerRun(move) => WorkerKeepsMode(c, s, s', move);
    case Wait(move) => WaiterKeepsMode(c, s, s', move);
    case Produce(t, fails) => ProduceKeepsMode(s, s', t, fails);
    case Stop(t) => StopKeepsMode(s, s', t);
    case BeginStop(t, discard) => BeginStopKeepsMode(c, s, s', t, discard);
    case _ => OtherKeepsMode(c, s, s', step);
  }

  lemma AnyKeepsMode(c: Config, s: State, s': State)
    requires StopperInv(s) && PhaseInv(s) && ModeInv(s) && Next(c, s, s')
    ensures ModeInv(s')
  {
    var step :| NextStep(c, s, s', step);
    NextKeepsMode(c, s, s', step);
  }

  lemma {:induction false} ModeOnRun(c: Config, run: seq<State>, i: nat)
    requires !c.earlyStop && IsRun(c, run) && i < |run|
    ensures ModeInv(run[i])
  {
    if i > 0 {
      ModeOnRun(c, run, i - 1);
      InvOnRun(c, run, i - 1);
      assert StepAt(c, run, i - 1);
      AnyKeepsMode(c, run[i - 1], run[i]);
    }
  }

  lemma ReachableMode(c: Config, s: State)
    requires !c.earlyStop && Reachable(c, s)
    ensures ModeInv(s)
  {
    var run: seq<State> :| IsRun(c, run) && run[|run| - 1] == s;
    ModeOnRun(c, run, |run| - 1);
  }

  /** The mode a stop is carried out in is the one its caller asked for. */
  lemma StopModeIsTheCallers(c: Config, s: State)
    requires !c.earlyStop && Reachable(c, s)
    ensures s.h.k.phase.Requested? ==> s.asked == Some(s.h.k.discard)
    ensures forall t :: t in s.stoppers && AfterRecord(s.stoppers[t]) ==> s.asked == Some(s.h.k.discard)
    ensures forall t :: Claims(s, t) ==> s.modes[t] == s.stoppers[t].discard
  {
    ReachableMode(c, s);
  }

  /** A stop once requested, by whoever, is never withdrawn, and its mode and executor stand. */
  lemma StopIsFinal(c: Config, s: State, s': State, step: Step)
    requires !c.earlyStop && Reachable(c, s) && NextStep(c, s, s', step)
    ensures s.h.k.phase.Requested? ==> s'.h.k.phase.Requested? && s'.h.k.discard == s.h.k.discard
    ensures s.h.k.phase.ByShutdown? ==> s'.h.k.phase.ByShutdown?
    ensures s.h.k.executor != Nobody ==> s'.h.k.executor == s.h.k.executor
  {
    ReachableInv(c, s);
    ReachableMode(c, s);
    NextKeepsMode(c, s, s', step);
  }

  // ---------------------------------------------------------------- what a step does to the ledger

  /** Only service_stop discards, and it handles nothing. */
  lemma ServiceSettles(h: Shared, who: Who, pc: Exec, move: Move)
    requires ServiceStep(h, who, pc, move).Some?
    ensures var l' := ServiceStep(h, who, pc, move).value.0.l;
            && l'.dispatched == h.l.dispatched && h.l.dead <= l'.dead
            && (l'.dead == h.l.dead || Discarding(pc) || AtHooks(pc))
  {
  }

  lemma ProcessSettles(c: Config, h: Shared, who: Who, pc: Exec, move: Move)
    requires ProcessStep(c, h, who, pc, move).Some?
    requires pc.ShutdownState? ==> pc.msg.kind.Shutdown?
    ensures var l' := ProcessStep(c, h, who, pc, move).value.0.l;
            && l'.dead == h.l.dead
            && (l'.dispatched == h.l.dispatched || (pc.Dispatch? && l'.dispatched == h.l.dispatched + multiset{pc.msg}))
  {
  }

  lemma ProduceSettles(h: Shared, t: Tid, pc: Producer, fails: bool)
    ensures var l' := ProduceTo(h, t, pc, fails).0.l;
            && l'.dispatched == h.l.dispatched
            && (l'.dead == h.l.dead || (Carries(pc) && l'.dead == h.l.dead + multiset{pc.m}))
  {
  }

  /** Dead letters are made by a discard, at the final hooks, or of a message that was refused. */
  predicate DeadOnlyBy(s: State, s': State, step: Step) {
    || s'.h.l.dead == s.h.l.dead
    || (step.WorkerRun? && (Discarding(s.worker) || AtHooks(s.worker)))
    || (step.Wait? && (Discarding(WaiterPc(s)) || AtHooks(WaiterPc(s))))
    || (step.Produce? && step.t in s.producers && Carries(s.producers[step.t])
        && s'.h.l.dead == s.h.l.dead + multiset{s.producers[step.t].m})
  }

  lemma WorkerSettles(c: Config, s: State, s': State, move: Move)
    requires LedgerInv(s) && WorkerRunStep(c, s, s', move)
    ensures s.h.l.dead <= s'.h.l.dead
    ensures s'.h.l.dead == s.h.l.dead || Discarding(s.worker) || AtHooks(s.worker)
    ensures || s'.h.l.dispatched == s.h.l.dispatched
            || (s.worker.Dispatch? && s'.h.l.dispatched == s.h.l.dispatched + multiset{s.worker.msg})
  {
    if InService(s.worker) {
      ServiceSettles(s.h, Worker, s.worker, move);
    } else if IsProcessing(s.worker) {
      ProcessSettles(c, s.h, Worker, s.worker, move);
    } else {
      TurnLeavesData(c, s.h, s.worker, s.handled, move);
    }
  }

  lemma WaiterSettles(c: Config, s: State, s': State, move: Move)
    requires ExecutorInv(s) && WaitStep(c, s, s', move)
    ensures s.h.l.dead <= s'.h.l.dead
    ensures s'.h.l.dead == s.h.l.dead || Discarding(WaiterPc(s)) || AtHooks(WaiterPc(s))
    ensures s'.h.l.dispatched == s.h.l.dispatched || WaiterPc(s).Dispatch?
  {
    if s.waiter.Completing? && InService(s.waiter.pc) {
      ServiceSettles(s.h, Waiter, s.waiter.pc, move);
    } else if s.waiter.Completing? {
      ProcessSettles(c, s.h, Waiter, s.waiter.pc, move);
    } else {
      WaitAloneLeaves(s, s');
    }
  }

  lemma StepSettles(c: Config, s: State, s': State, step: Step)
    requires ExecutorInv(s) && LedgerInv(s) && NextStep(c, s, s', step)
    ensures s.h.l.dead <= s'.h.l.dead && DeadOnlyBy(s, s', step)
    ensures !step.WorkerRun? && !step.Wait? ==> s'.h.l.dispatched == s.h.l.dispatched
  {
    match step
    case WorkerRun(move) => WorkerSettles(c, s, s', move);
    case Wait(move) => WaiterSettles(c, s, s', move);
    case Produce(t, fails) => ProduceSettles(s.h, t, s.producers[t], fails);
    case _ => DataUnchanged(c, s, s', step);
  }

  // ---------------------------------------------------------------- a stop in discard mode

  /** The worker is past its look at the stop phase and before the end of a handler. */
  predicate MidMessage(pc: Exec) {
    pc.Budget? || pc.Poll? || IsProcessing(pc)
  }

  /** How many messages may still be handled once a stop in discard mode is requested. */
  function Grace(s: State): nat {
    if s.h.k.executor == Nobody && MidMessage(s.worker) then 1 else 0
  }

  predicate DiscardRequested(k: Control) {
    k.phase.Requested? && k.discard
  }

  ghost predicate StopsInv(c: Config, s: State) {
    Inv(s) && ModeInv(s) && DrainerInv(c, s)
  }

  lemma ServiceSpendsGrace(k: Control, k': Control, pc: Exec, pc': Exec)
    requires ServiceEffect(k, k', Worker, pc, pc') && k.discard
    ensures k'.executor == Nobody ==> !MidMessage(pc')
  {
  }

  lemma ProcessSpendsGrace(k: Control, k': Control, pc: Exec, pc': Exec)
    requires ProcessEffect(k, k', Worker, pc, pc')
    ensures k'.executor == k.executor && IsProcessing(pc)
    ensures pc.Dispatch? ==> pc'.LoopTop? || !k.phase.Requested?
  {
  }

  lemma TurnSpendsGrace(k: Control, k': Control, pc: Exec, pc': Exec)
    requires TurnEffect(k, k', pc, pc') && k.phase.Requested? && !pc.DrainBudget?
    ensures k'.executor == k.executor && (MidMessage(pc') ==> MidMessage(pc))
  {
  }

  lemma WorkerSpendsGrace(c: Config, s: State, s': State, move: Move)
    requires StopsInv(c, s) && DiscardRequested(s.h.k) && WorkerRunStep(c, s, s', move)
    ensures |s'.h.l.dispatched| + Grace(s') <= |s.h.l.dispatched| + Grace(s)
  {
    WorkerSettles(c, s, s', move);
    if InService(s.worker) {
      ServiceHasEffect(s.h, Worker, s.worker, move);
      ServiceSpendsGrace(s.h.k, s'.h.k, s.worker, s'.worker);
    } else if IsProcessing(s.worker) {
      ProcessHasEffect(c, s.h, Worker, s.worker, move);
      ProcessSpendsGrace(s.h.k, s'.h.k, s.worker, s'.worker);
      GraceLeft(c, s);
    } else {
      TurnHasEffect(c, s.h, s.worker, s.handled, move);
      TurnSpendsGrace(s.h.k, s'.h.k, s.worker, s'.worker);
    }
  }

  /** A message in progress when the discard is requested is handled under no executor. */
  lemma GraceLeft(c: Config, s: State)
    requires TokenInv(s) && ExecutorInv(s) && DrainerInv(c, s) && s.h.k.discard && IsProcessing(s.worker)
    ensures s.h.k.executor == Nobody
  {
    assert Holds(s.worker) && s.h.k.token.Executing?;
    match s.h.k.executor {
      case Nobody =>
      case By(Worker) => assert false;
      case By(Waiter) => assert false;
    }
  }

  lemma WaiterSpendsGrace(c: Config, s: State, s': State, move: Move)
    requires StopsInv(c, s) && DiscardRequested(s.h.k) && WaitStep(c, s, s', move)
    ensures |s'.h.l.dispatched| + Grace(s') <= |s.h.l.dispatched| + Grace(s)
  {
    WaiterSettles(c, s, s', move);
    NextKeepsMode(c, s, s', Wait(move));
  }

  lemma ProduceSpendsNoGrace(s: State, s': State, t: Tid, fails: bool)
    requires ProduceStep(s, s', t, fails)
    ensures s'.h.l.dispatched == s.h.l.dispatched && Grace(s') == Grace(s)
  {
    ProduceSettles(s.h, t, s.producers[t], fails);
    ProduceToLeavesStop(s.h, t, s.producers[t], fails);
  }

  lemma OtherSpendsNoGrace(c: Config, s: State, s': State, step: Step)
    requires NextStep(c, s, s', step) && LeavesData(step)
    ensures s'.h.l.dispatched == s.h.l.dispatched && Grace(s') <= Grace(s)
  {
    DataUnchanged(c, s, s', step);
    ExecutorKept(c, s, s', step);
  }

  lemma StepSpendsGrace(c: Config, s: State, s': State, step: Step)
    requires StopsInv(c, s) && DiscardRequested(s.h.k) && NextStep(c, s, s', step)
    ensures |s'.h.l.dispatched| + Grace(s') <= |s.h.l.dispatched| + Grace(s)
  {
    match step
    case WorkerRun(move) => WorkerSpendsGrace(c, s, s', move);
    case Wait(move) => WaiterSpendsGrace(c, s, s', move);
    case Produce(t, fails) => ProduceSpendsNoGrace(s, s', t, fails);
    case _ => OtherSpendsNoGrace(c, s, s', step);
  }

  lemma NextSpendsGrace(c: Config, s: State, s': State)
    requires StopsInv(c, s) && DiscardRequested(s.h.k) && Next(c, s, s')
    ensures |s'.h.l.dispatched| + Grace(s') <= |s.h.l.dispatched| + Grace(s)
    ensures DiscardRequested(s'.h.k)
  {
    var step :| NextStep(c, s, s', step);
    StepSpendsGrace(c, s, s', step);
    NextKeepsMode(c, s, s', step);
  }

  lemma ExecutorKept(c: Config, s: State, s': State, step: Step)
    requires NextStep(c, s, s', step) && LeavesData(step)
    ensures s'.h.k.executor == s.h.k.executor
  {
    match step {
      case WorkerPop => PopLeavesMode(s, s');
      case Create => CreateLeavesMode(s, s');
      case Stop(t) => CallLeavesExecutor(s.h.k, t, s.stoppers[t]);
      case BeginStop(t, discard) =>
      case _ => OtherLeavesMode(c, s, s', step);
    }
  }

  lemma CallLeavesExecutor(k: Control, t: Tid, pc: Stopper)
    ensures StopTo(k, t, pc).0.executor == k.executor
  {
  }

  lemma ReachableStops(c: Config, run: seq<State>, i: nat)
    requires !c.earlyStop && IsRun(c, run) && i < |run|
    ensures StopsInv(c, run[i])
  {
    InvOnRun(c, run, i);
    ModeOnRun(c, run, i);
    PauseOnRun(c, run, i);
  }

  lemma GraceAtStep(c: Config, run: seq<State>, j: nat)
    requires !c.earlyStop && IsRun(c, run) && j + 1 < |run| && DiscardRequested(run[j].h.k)
    ensures |run[j + 1].h.l.dispatched| + Grace(run[j + 1]) <= |run[j].h.l.dispatched| + Grace(run[j])
    ensures DiscardRequested(run[j + 1].h.k)
  {
    ReachableStops(c, run, j);
    assert StepAt(c, run, j);
    NextSpendsGrace(c, run[j], run[j + 1]);
  }

  lemma {:induction false} GraceOnRun(c: Config, run: seq<State>, i: nat, j: nat)
    requires !c.earlyStop && IsRun(c, run) && i <= j < |run| && DiscardRequested(run[i].h.k)
    ensures |run[j].h.l.dispatched| + Grace(run[j]) <= |run[i].h.l.dispatched| + Grace(run[i])
    ensures DiscardRequested(run[j].h.k)
  {
    if i < j {
      GraceOnRun(c, run, i, j - 1);
      GraceAtStep(c, run, j - 1);
    }
  }

  /** After a stop in discard mode is requested at most the message in progress is still handled, and
      nothing once the stop has an executor. */
  lemma DiscardHandlesAtMostOneMore(c: Config, run: seq<State>, i: nat, j: nat)
    requires !c.earlyStop && IsRun(c, run) && i <= j < |run|
    requires run[i].h.k.phase.Requested? && run[i].asked == Some(true)
    ensures |run[j].h.l.dispatched| <= |run[i].h.l.dispatched| + if run[i].h.k.executor == Nobody then 1 else 0
  {
    ModeOnRun(c, run, i);
    GraceOnRun(c, run, i, j);
  }

  // ---------------------------------------------------------------- what is not discarded

  /** A message that was accepted becomes a dead letter only in a requested stop: at once if the caller
      asked for that, otherwise not before the final hooks. */
  lemma AcceptedDiesOnlyInStop(c: Config, s: State, s': State, step: Step, m: Message)
    requires !c.earlyStop && Reachable(c, s) && NextStep(c, s, s', step)
    requires m in s.h.l.entered && s'.h.l.dead[m] != s.h.l.dead[m]
    ensures s'.h.l.dead[m] > s.h.l.dead[m]
    ensures s.h.k.phase.Requested?
    ensures s.asked == Some(true) || AtHooks(s.worker) || AtHooks(WaiterPc(s))
  {
    ReachableInv(c, s);
    ReachableMode(c, s);
    StepSettles(c, s, s', step);
  }

  /** No executor of a stop in discard mode, or of one that reached its final hooks. */
  predicate Sparing(s: State) {
    !(s.h.k.phase.Requested? && s.asked == Some(true)) && !AtHooks(s.worker) && !AtHooks(WaiterPc(s))
  }

  lemma SparedAlong(c: Config, s: State, s': State, m: Message)
    requires !c.earlyStop && Reachable(c, s) && Next(c, s, s') && Sparing(s) && m in s.h.l.entered
    ensures m in s'.h.l.entered && s'.h.l.dead[m] == s.h.l.dead[m]
  {
    var step :| NextStep(c, s, s', step);
    if s'.h.l.dead[m] != s.h.l.dead[m] {
      AcceptedDiesOnlyInStop(c, s, s', step, m);
    }
    ReachableInv(c, s);
    NothingUnenters(c, s, s', step);
  }

  lemma SparedAtStep(c: Config, run: seq<State>, j: nat, m: Message)
    requires !c.earlyStop && IsRun(c, run) && j + 1 < |run| && Sparing(run[j]) && m in run[j].h.l.entered
    ensures m in run[j + 1].h.l.entered && run[j + 1].h.l.dead[m] == run[j].h.l.dead[m]
  {
    assert StepAt(c, run, j);
    OnRunReachable(c, run, j);
    SparedAlong(c, run[j], run[j + 1], m);
  }

  lemma {:induction false} AcceptedSurvivesDrain(c: Config, run: seq<State>, i: nat, j: nat, m: Message)
    requires !c.earlyStop && IsRun(c, run) && i <= j < |run| && m in run[i].h.l.entered
    requires forall k :: i <= k < j ==> Sparing(run[k])
    ensures m in run[j].h.l.entered && run[j].h.l.dead[m] == run[i].h.l.dead[m]
  {
    if i < j {
      AcceptedSurvivesDrain(c, run, i, j - 1, m);
      SparedAtStep(c, run, j - 1, m);
    }
  }

  lemma OnRunReachable(c: Config, run: seq<State>, i: nat)
    requires IsRun(c, run) && i < |run|
    ensures Reachable(c, run[i])
  {
    var start := run[..i + 1];
    forall k | 0 <= k < |start| - 1 ensures StepAt(c, start, k) {
      assert StepAt(c, run, k);
    }
    assert IsRun(c, start) && start[|start| - 1] == run[i];
  }

  lemma NothingUnenters(c: Config, s: State, s': State, step: Step)
    requires Inv(s) && NextStep(c, s, s', step)
    ensures s.h.l.entered <= s'.h.l.entered && s.h.l.begun <= s'.h.l.begun
  {
    match step
    case WorkerRun(move) => WorkerRunKeepsLedger(c, s, s', move);
    case Wait(move) => WaitKeepsLedger(c, s, s', move);
    case Produce(t, fails) => ProduceEnters(s.h, t, s.producers[t], fails);
    case _ => DataUnchanged(c, s, s', step); BegunGrows(c, s, s', step);
  }

  lemma ProduceEnters(h: Shared, t: Tid, pc: Producer, fails: bool)
    ensures h.l.entered <= ProduceTo(h, t, pc, fails).0.l.entered && ProduceTo(h, t, pc, fails).0.l.begun == h.l.begun
  {
  }

  lemma BegunGrows(c: Config, s: State, s': State, step: Step)
    requires NextStep(c, s, s', step) && LeavesData(step)
    ensures s.h.l.begun <= s'.h.l.begun
  {
  }

  predicate ReachesHooks(s: State, s': State) {
    (!AtHooks(s.worker) && AtHooks(s'.worker)) || (!AtHooks(WaiterPc(s)) && AtHooks(WaiterPc(s')))
  }

  /** A drain reaches the final hooks only past its deadline or with nothing left that the actor
      would handle. */
  lemma DrainEndsWithoutWork(c: Config, s: State, s': State, step: Step)
    requires !c.earlyStop && Reachable(c, s) && NextStep(c, s, s', step) && s.asked == Some(false)
    requires ReachesHooks(s, s')
    ensures step == WorkerRun(No) || step == Wait(No) || !HasWork(s.h)
  {
    ReachableInv(c, s);
    ReachableMode(c, s);
    match step
    case WorkerRun(move) => WorkerReachesHooks(c, s, s', move);
    case Wait(move) => WaiterReachesHooks(c, s, s', move);
    case _ => OthersReachNoHooks(c, s, s', step);
  }

  lemma OthersReachNoHooks(c: Config, s: State, s': State, step: Step)
    requires NextStep(c, s, s', step) && !step.WorkerRun? && !step.Wait?
    ensures AtHooks(s'.worker) ==> AtHooks(s.worker)
    ensures AtHooks(WaiterPc(s')) ==> AtHooks(WaiterPc(s))
  {
    if !step.Produce? {
      DataUnchanged(c, s, s', step);
    }
  }

  lemma WorkerReachesHooks(c: Config, s: State, s': State, move: Move)
    requires WorkerRunStep(c, s, s', move) && !AtHooks(s.worker) && AtHooks(s'.worker)
    ensures s.worker.DrainTest? && (s.h.k.discard || move.No? || !HasWork(s.h))
  {
    if InService(s.worker) {
      ServiceReachesHooks(s.h, Worker, s.worker, move);
    } else if IsProcessing(s.worker) {
      ProcessHasEffect(c, s.h, Worker, s.worker, move);
      ProcessStaysOut(s.h.k, s'.h.k, Worker, s.worker, s'.worker);
    } else {
      TurnHasEffect(c, s.h, s.worker, s.handled, move);
      TurnStaysOut(s.h.k, s'.h.k, s.worker, s'.worker);
    }
  }

  lemma ProcessStaysOut(k: Control, k': Control, who: Who, pc: Exec, pc': Exec)
    requires ProcessEffect(k, k', who, pc, pc')
    ensures !AtHooks(pc')
  {
  }

  lemma TurnStaysOut(k: Control, k': Control, pc: Exec, pc': Exec)
    requires TurnEffect(k, k', pc, pc')
    ensures !AtHooks(pc')
  {
  }

  lemma WaiterReachesHooks(c: Config, s: State, s': State, move: Move)
    requires ExecutorInv(s) && WaitStep(c, s, s', move) && !AtHooks(WaiterPc(s)) && AtHooks(WaiterPc(s'))
    ensures WaiterPc(s).DrainTest? && (s.h.k.discard || move.No? || !HasWork(s.h))
  {
    if s.waiter.Completing? && InService(s.waiter.pc) {
      ServiceReachesHooks(s.h, Waiter, s.waiter.pc, move);
    } else if s.waiter.Completing? {
      ProcessHasEffect(c, s.h, Waiter, s.waiter.pc, move);
      assert false;
    } else {
      WaitAloneLeaves(s, s');
      assert false;
    }
  }

  lemma ServiceReachesHooks(h: Shared, who: Who, pc: Exec, move: Move)
    requires ServiceStep(h, who, pc, move).Some? && !AtHooks(pc) && AtHooks(ServiceStep(h, who, pc, move).value.1)
    ensures pc.DrainTest? && (h.k.discard || move.No? || !HasWork(h))
  {
  }

  lemma HandsEmptyAtHooks(c: Config, s: State, s': State)
    requires ExecutorInv(s) && Next(c, s, s') && ReachesHooks(s, s')
    ensures Hand(s.worker) == multiset{} && Hand(WaiterPc(s)) == multiset{}
  {
    var step :| NextStep(c, s, s', step);
    match step
    case WorkerRun(move) => WorkerReachesHooks(c, s, s', move);
    case Wait(move) => WaiterReachesHooks(c, s, s', move);
    case _ => OthersReachNoHooks(c, s, s', step);
  }

  /** A stop in drain mode that comes to its end before the deadline, with nothing left that the actor
      would handle, has handled every message accepted before; only what the filter of a stateful
      actor does not accept is still held. */
  lemma DrainHandlesTheAccepted(c: Config, run: seq<State>, i: nat, j: nat, m: Message)
    requires !c.earlyStop && IsRun(c, run) && i <= j && j + 1 < |run|
    requires m in run[i].h.l.entered && m !in run[i].h.l.dead && !m.kind.Shutdown?
    requires forall k :: i <= k < j ==> Sparing(run[k])
    requires ReachesHooks(run[j], run[j + 1]) && !HasWork(run[j].h)
    ensures run[j].h.l.dispatched[m] == 1 || (m in run[j].h.q.held && !Accepts(run[j].h.filter, m))
  {
    AcceptedSurvivesDrain(c, run, i, j, m);
    InvOnRun(c, run, j);
    assert StepAt(c, run, j);
    HandsEmptyAtHooks(c, run[j], run[j + 1]);
    HandledOrHeld(run[j], m);
  }

  lemma HandledOrHeld(s: State, m: Message)
    requires OriginInv(s) && LedgerInv(s) && m in s.h.l.entered && m !in s.h.l.dead && !m.kind.Shutdown?
    requires !HasWork(s.h) && Hand(s.worker) == multiset{} && Hand(WaiterPc(s)) == multiset{}
    ensures s.h.l.dispatched[m] == 1 || (m in s.h.q.held && !Accepts(s.h.filter, m))
  {
    assert Accounted(s, m) && s.h.l.entered[m] == 1;
    assert m !in s.h.l.control;
    if m in s.h.q.held {
      var k :| 0 <= k < |s.h.q.held| && s.h.q.held[k] == m;
    } else {
      assert m !in multiset(s.h.q.held);
    }
  }

  // ---------------------------------------------------------------- system_shutdown

  /** Only ordinary messages are held; a shutdown that claimed the actor is in hand until the actor is
      stopping. */
  predicate ShutdownInv(s: State) {
    && (forall i :: 0 <= i < |s.h.q.held| ==> s.h.q.held[i].kind.User?)
    && (s.h.k.phase.ByShutdown? && s.h.k.life.Running? ==> s.worker.ShutdownHook? || s.worker.ShutdownState?)
  }

  lemma ServiceKeepsHeld(h: Shared, who: Who, pc: Exec, move: Move)
    requires ServiceStep(h, who, pc, move).Some? && forall i :: 0 <= i < |h.q.held| ==> h.q.held[i].kind.User?
    ensures var held := ServiceStep(h, who, pc, move).value.0.q.held;
            forall i :: 0 <= i < |held| ==> held[i].kind.User?
  {
  }

  lemma ProcessKeepsHeld(c: Config, h: Shared, who: Who, pc: Exec, move: Move)
    requires ProcessStep(c, h, who, pc, move).Some? && forall i :: 0 <= i < |h.q.held| ==> h.q.held[i].kind.User?
    ensures var held := ProcessStep(c, h, who, pc, move).value.0.q.held;
            forall i :: 0 <= i < |held| ==> held[i].kind.User?
  {
  }

  lemma WorkerKeepsShutdown(c: Config, s: State, s': State, move: Move)
    requires LifeInv(s) && ShutdownInv(s) && WorkerRunStep(c, s, s', move)
    ensures ShutdownInv(s')
  {
    if InService(s.worker) {
      ServiceKeepsHeld(s.h, Worker, s.worker, move);
      ServiceHasEffect(s.h, Worker, s.worker, move);
    } else if IsProcessing(s.worker) {
      ProcessKeepsHeld(c, s.h, Worker, s.worker, move);
      ProcessHasEffect(c, s.h, Worker, s.worker, move);
    } else {
      TurnLeavesData(c, s.h, s.worker, s.handled, move);
      TurnHasEffect(c, s.h, s.worker, s.handled, move);
    }
  }

  lemma WaiterKeepsShutdown(c: Config, s: State, s': State, move: Move)
    requires LifeInv(s) && ExecutorInv(s) && ShutdownInv(s) && WaitStep(c, s, s', move)
    ensures ShutdownInv(s')
  {
    if s.waiter.Completing? && InService(s.waiter.pc) {
      ServiceKeepsHeld(s.h, Waiter, s.waiter.pc, move);
      ServiceHasEffect(s.h, Waiter, s.waiter.pc, move);
    } else if s.waiter.Completing? {
      ProcessKeepsHeld(c, s.h, Waiter, s.waiter.pc, move);
      ProcessHasEffect(c, s.h, Waiter, s.waiter.pc, move);
    } else {
      WaitAloneStops(s, s');
    }
  }

  lemma WaitAloneStops(s: State, s': State)
    requires WaitAloneStep(s, s')
    ensures s'.h.q == s.h.q && s'.worker == s.worker && s'.h.k.phase == s.h.k.phase
    ensures s'.h.k.life == s.h.k.life || s'.h.k.life.Stopped?
  {
    WaitAloneLeaves(s, s');
  }

  lemma OthersKeepShutdown(c: Config, s: State, s': State, step: Step)
    requires StopperInv(s) && LifeInv(s) && ShutdownInv(s) && NextStep(c, s, s', step) && !step.WorkerRun? && !step.Wait?
    ensures ShutdownInv(s')
  {
    match step
    case Produce(t, fails) =>
      ProduceToLeavesStop(s.h, t, s.producers[t], fails);
      ProduceLeavesHeld(s.h, t, s.producers[t], fails);
    case Stop(t) => StopLeavesShutdown(s, s', t);
    case BeginStop(t, discard) =>
    case _ => OtherLeavesShutdown(c, s, s', step);
  }

  lemma ProduceLeavesHeld(h: Shared, t: Tid, pc: Producer, fails: bool)
    ensures ProduceTo(h, t, pc, fails).0.q.held == h.q.held
  {
  }

  lemma StopLeavesShutdown(s: State, s': State, t: Tid)
    requires StopperInv(s) && LifeInv(s) && StopStep(s, s', t)
    ensures s'.h.q == s.h.q && s'.worker == s.worker
    ensures s'.h.k.phase.ByShutdown? ==> s'.h.k == s.h.k || (s.h.k.phase.ByShutdown? && s'.h.k.life == s.h.k.life)
  {
  }

  lemma OtherLeavesShutdown(c: Config, s: State, s': State, step: Step)
    requires NextStep(c, s, s', step) && (step.WorkerPop? || step.Create? || (IsOther(step) && !step.BeginStop?))
    ensures s'.h.q == s.h.q && s'.h.k.phase == s.h.k.phase && s'.h.k.life == s.h.k.life
    ensures s'.worker == s.worker || (s.worker.Away? && s'.worker.Enter?)
  {
    DataUnchanged(c, s, s', step);
    match step {
      case WorkerPop => PopLeavesMode(s, s');
      case Create => CreateLeavesMode(s, s');
      case _ => OtherLeavesMode(c, s, s', step);
    }
  }

  lemma AnyKeepsShutdown(c: Config, s: State, s': State)
    requires StopperInv(s) && PhaseInv(s) && ShutdownInv(s) && Next(c, s, s')
    ensures ShutdownInv(s')
  {
    var step :| NextStep(c, s, s', step);
    match step
    case WorkerRun(move) => WorkerKeepsShutdown(c, s, s', move);
    case Wait(move) => WaiterKeepsShutdown(c, s, s', move);
    case _ => OthersKeepShutdown(c, s, s', step);
  }

  lemma {:induction false} ShutdownOnRun(c: Config, run: seq<State>, i: nat)
    requires !c.earlyStop && IsRun(c, run) && i < |run|
    ensures ShutdownInv(run[i])
  {
    if i > 0 {
      ShutdownOnRun(c, run, i - 1);
      InvOnRun(c, run, i - 1);
      assert StepAt(c, run, i - 1);
      AnyKeepsShutdown(c, run[i - 1], run[i]);
    }
  }

  lemma ReachableShutdown(c: Config, s: State)
    requires !c.earlyStop && Reachable(c, s)
    ensures Inv(s) && ShutdownInv(s)
  {
    var run: seq<State> :| IsRun(c, run) && run[|run| - 1] == s;
    InvOnRun(c, run, |run| - 1);
    ShutdownOnRun(c, run, |run| - 1);
  }

  /** A system_shutdown that was dispatched is consumed only once on_shutdown belongs to a stop or has run
      and the actor takes no more messages. */
  lemma ShutdownIsHonoured(c: Config, s: State, s': State, move: Move)
    requires !c.earlyStop && Reachable(c, s) && WorkerRunStep(c, s, s', move) && IsProcessing(s.worker)
    requires s'.h.l.control != s.h.l.control
    ensures !s'.h.k.phase.NoStop?
    ensures s'.h.k.phase.ByShutdown? ==> s'.h.k.onShutdown == 1 && !s'.h.k.life.Running?
  {
    ReachableShutdown(c, s);
    ProcessHasEffect(c, s.h, Worker, s.worker, move);
    ConsumedWhere(c, s.h, Worker, s.worker, move);
  }

  lemma ConsumedWhere(c: Config, h: Shared, who: Who, pc: Exec, move: Move)
    requires ProcessStep(c, h, who, pc, move).Some? && ProcessStep(c, h, who, pc, move).value.0.l.control != h.l.control
    ensures pc.ShutdownState? || (pc.Dispatch? && !h.k.phase.NoStop? && ProcessStep(c, h, who, pc, move).value.0.k == h.k)
  {
  }

  /** A system_shutdown that was accepted is never a dead letter. */
  lemma ShutdownNeverDies(c: Config, s: State, s': State, step: Step, m: Message)
    requires !c.earlyStop && Reachable(c, s) && NextStep(c, s, s', step) && m in s.h.l.entered && m.kind.Shutdown?
    ensures s'.h.l.dead[m] == s.h.l.dead[m]
  {
    ReachableShutdown(c, s);
    match step
    case WorkerRun(move) => WorkerSparesShutdown(c, s, s', move, m);
    case Wait(move) => WaiterSparesShutdown(c, s, s', move, m);
    case _ => StepSettles(c, s, s', step);
  }

  lemma WorkerSparesShutdown(c: Config, s: State, s': State, move: Move, m: Message)
    requires LedgerInv(s) && ShutdownInv(s) && WorkerRunStep(c, s, s', move) && m.kind.Shutdown?
    ensures s'.h.l.dead[m] == s.h.l.dead[m]
  {
    if InService(s.worker) {
      ServiceSparesShutdown(s.h, Worker, s.worker, move, m);
    } else {
      WorkerSettles(c, s, s', move);
    }
  }

  lemma WaiterSparesShutdown(c: Config, s: State, s': State, move: Move, m: Message)
    requires ExecutorInv(s) && ShutdownInv(s) && WaitStep(c, s, s', move) && m.kind.Shutdown?
    ensures s'.h.l.dead[m] == s.h.l.dead[m]
  {
    if s.waiter.Completing? && InService(s.waiter.pc) {
      ServiceSparesShutdown(s.h, Waiter, s.waiter.pc, move, m);
    } else {
      WaiterSettles(c, s, s', move);
    }
  }

  lemma ServiceSparesShutdown(h: Shared, who: Who, pc: Exec, move: Move, m: Message)
    requires ServiceStep(h, who, pc, move).Some? && m.kind.Shutdown?
    requires forall i :: 0 <= i < |h.q.held| ==> h.q.held[i].kind.User?
    ensures ServiceStep(h, who, pc, move).value.0.l.dead[m] == h.l.dead[m]
  {
    if (pc.FirstHeld? || pc.LastHeld?) && h.q.held != [] { assert h.q.held[0] != m; }
  }
}
