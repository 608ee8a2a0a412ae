/** Every step keeps the control part of the invariant. */
module ActorControl {
  import opened Common
  import opened ActorProtocol
  import opened ActorInvariant

  /** The worker took a step of run_actor and what it calls. */
  predicate WorkerMoved(s: State, s': State) {
    s' == s.(h := s'.h, worker := s'.worker, handled := s'.handled)
  }

  predicate WaiterMoved(s: State, s': State, pc': Exec) {
    s.waiter.Completing? && s' == s.(h := s'.h, waiter := if pc'.Away? then Snapshot else Completing(pc'))
  }

  /** Releasing or not reading a blocked mailbox leaves the promise about stops in place. */
  ghost predicate Noticed(s: State) {
    s.h.k.word.Blocked? && s.h.k.phase.Requested? ==> StopNoticed(s)
  }

  // ---------------------------------------------------------------- frames

  /** The token is where it was, and so is everyone who may hold it. */
  lemma TokenFrame(s: State, s': State)
    requires TokenInv(s)
    requires s'.creator.Activated? == s.creator.Activated? && Holds(s'.worker) == Holds(s.worker)
    requires s'.h.k.ready == s.h.k.ready && s'.h.k.token == s.h.k.token
    requires s'.h.k.word.Blocked? == s.h.k.word.Blocked?
    requires forall u :: (u in s'.producers && s'.producers[u].Schedule?) <==>
                         (u in s.producers && s.producers[u].Schedule?)
    requires forall u :: (u in s'.stoppers && s'.stoppers[u].ScheduleStop?) <==>
                         (u in s.stoppers && s.stoppers[u].ScheduleStop?)
    ensures TokenInv(s')
  {
  }

  /** Claims in progress see the phase and life they expect. */
  predicate ClaimsUndisturbed(k: Control, k': Control) {
    && (k.phase.Claiming? ==> k'.phase == k.phase && k'.life == k.life)
    && (k.phase.Requested? ==> k'.phase.Requested?)
  }

  lemma StopperFrame(s: State, s': State)
    requires StopperInv(s) && ClaimsUndisturbed(s.h.k, s'.h.k)
    requires s'.stoppers == s.stoppers
    requires !s'.creator.Activated? ==> !s.creator.Activated?
    requires s'.waiter.NotWaiting? == s.waiter.NotWaiting?
    ensures StopperInv(s')
  {
  }

  // ---------------------------------------------------------------- producers and foreign steps

  /** Only the mailbox word, the token and the ready queue change, and an open or blocked mailbox at
      most opens. */
  predicate QuietControl(k: Control, k': Control) {
    && k' == k.(word := k'.word, token := k'.token, ready := k'.ready, shutdownRequested := k'.shutdownRequested)
    && (k'.word == k.word || (!k.word.Closed? && k'.word.Open?))
    && (k'.token == k.token || (!k.token.Gone? && !k'.token.Gone?))
  }

  predicate Quiet(s: State, s': State) {
    && QuietControl(s.h.k, s'.h.k)
    && s'.worker == s.worker && s'.waiter == s.waiter && s'.creator == s.creator && s'.stoppers == s.stoppers
  }

  lemma QuietKeepsWord(s: State, s': State)
    requires WordInv(s) && Quiet(s, s')
    ensures WordInv(s')
  {
  }

  lemma QuietKeepsPhase(s: State, s': State)
    requires PhaseInv(s) && Quiet(s, s')
    ensures PhaseInv(s')
  {
  }

  lemma QuietKeepsHook(s: State, s': State)
    requires WordInv(s) && HookInv(s) && Quiet(s, s')
    ensures HookInv(s')
  {
  }

  lemma QuietKeepsControl(s: State, s': State)
    requires ControlInv(s) && TokenInv(s') && Quiet(s, s')
    ensures ControlInv(s')
  {
    QuietKeepsWord(s, s');
    QuietKeepsPhase(s, s');
    QuietKeepsHook(s, s');
    StopperFrame(s, s');
    assert Noticed(s');
  }

  lemma ProduceIsQuiet(h: Shared, t: Tid, pc: Producer, fails: bool)
    requires pc.Schedule? ==> h.k.token == WithProducer(t)
    requires h.k.word.Blocked? ==> h.k.token.Idle?
    ensures QuietControl(h.k, ProduceTo(h, t, pc, fails).0.k)
  {
  }

  /** The producer's step changes who has the token. */
  predicate TakesToken(h: Shared, pc: Producer, fails: bool) {
    pc.Schedule? || (pc.Cas? && pc.seen.Blocked? && h.k.word.Blocked? && !fails)
  }

  lemma ProduceKeepsToken(s: State, s': State, t: Tid, fails: bool)
    requires TokenInv(s) && ProduceStep(s, s', t, fails)
    ensures TokenInv(s')
  {
    if s.producers[t].Schedule? {
      ScheduleKeepsToken(s, s', t, fails);
    } else if TakesToken(s.h, s.producers[t], fails) {
      UnblockKeepsToken(s, s', t, fails);
    } else {
      EnqueueKeepsToken(s, s', t, fails);
    }
  }

  lemma ScheduleKeepsToken(s: State, s': State, t: Tid, fails: bool)
    requires TokenInv(s) && ProduceStep(s, s', t, fails) && s.producers[t].Schedule?
    ensures TokenInv(s')
  {
  }

  lemma UnblockKeepsToken(s: State, s': State, t: Tid, fails: bool)
    requires TokenInv(s) && ProduceStep(s, s', t, fails) && s.producers[t].Cas? && TakesToken(s.h, s.producers[t], fails)
    ensures TokenInv(s')
  {
  }

  lemma EnqueueKeepsToken(s: State, s': State, t: Tid, fails: bool)
    requires TokenInv(s) && ProduceStep(s, s', t, fails) && !TakesToken(s.h, s.producers[t], fails)
    ensures TokenInv(s')
  {
    EnqueueLeavesToken(s.h, t, s.producers[t], fails);
    TokenFrame(s, s');
  }

  lemma EnqueueLeavesToken(h: Shared, t: Tid, pc: Producer, fails: bool)
    requires !TakesToken(h, pc, fails)
    ensures var r := ProduceTo(h, t, pc, fails);
            && r.0.k.ready == h.k.ready && r.0.k.token == h.k.token && r.0.k.word.Blocked? == h.k.word.Blocked?
            && (r.1.Some? ==> !r.1.value.Schedule?)
  {
  }

  lemma ProduceKeepsControl(s: State, s': State, t: Tid, fails: bool)
    requires ControlInv(s) && ProduceStep(s, s', t, fails)
    ensures ControlInv(s')
  {
    ProduceKeepsToken(s, s', t, fails);
    ProduceIsQuiet(s.h, t, s.producers[t], fails);
    QuietKeepsControl(s, s');
  }

  // ---------------------------------------------------------------- stop_actor

  lemma ClaimKeepsToken(s: State, s': State, t: Tid)
    requires TokenInv(s) && StopStep(s, s', t)
    requires InClaim(s.stoppers[t]) || s.stoppers[t].CheckRunning? || s.stoppers[t].Claim?
    ensures TokenInv(s')
  {
    ClaimLeavesToken(s.h.k, t, s.stoppers[t]);
    TokenFrame(s, s');
  }

  lemma ClaimLeavesToken(k: Control, t: Tid, pc: Stopper)
    requires InClaim(pc) || pc.CheckRunning? || pc.Claim?
    ensures var r := StopTo(k, t, pc);
            && r.0.ready == k.ready && r.0.token == k.token && r.0.word == k.word
            && (r.1.Some? ==> !r.1.value.ScheduleStop?)
  {
  }

  lemma StopKeepsToken(s: State, s': State, t: Tid)
    requires TokenInv(s) && StopStep(s, s', t) && (s.stoppers[t].Unblock? || s.stoppers[t].ScheduleStop?)
    ensures TokenInv(s')
  {
  }

  lemma StopKeepsStopper(s: State, s': State, t: Tid)
    requires StopperInv(s) && LifeInv(s) && StopStep(s, s', t)
    ensures StopperInv(s')
  {
  }

  lemma StopKeepsWord(s: State, s': State, t: Tid)
    requires TokenInv(s) && WordInv(s) && StopperInv(s) && StopStep(s, s', t)
    ensures WordInv(s')
  {
  }

  lemma StopKeepsLife(s: State, s': State, t: Tid)
    requires TokenInv(s) && StopperInv(s) && LifeInv(s) && StopStep(s, s', t)
    ensures LifeInv(s')
  {
  }

  lemma StopKeepsExecutor(s: State, s': State, t: Tid)
    requires StopperInv(s) && ExecutorInv(s) && StopStep(s, s', t)
    ensures ExecutorInv(s')
  {
  }

  lemma StopKeepsNoticed(s: State, s': State, t: Tid)
    requires Noticed(s) && StopStep(s, s', t)
    ensures Noticed(s')
  {
    if s'.h.k.word.Blocked? && s'.h.k.phase.Requested? {
      if s.stoppers[t].StoreRequested? {
        assert s'.stoppers[t].Unblock?;
      } else if u :| u in s.stoppers && s.stoppers[u].Unblock? {
        assert u != t && s'.stoppers[u].Unblock?;
      }
    }
  }

  /** While a stop is being claimed nobody is in service and the actor is listed. */
  lemma StopKeepsShutdownHook(s: State, s': State, t: Tid)
    requires WordInv(s) && StopperInv(s) && LifeInv(s) && HookInv(s) && StopStep(s, s', t)
    ensures ShutdownHookInv(s')
  {
  }

  lemma StopKeepsStopHook(s: State, s': State, t: Tid)
    requires TokenInv(s) && WordInv(s) && StopperInv(s) && HookInv(s) && StopStep(s, s', t)
    ensures StopHookInv(s')
  {
  }

  lemma StopKeepsControl(s: State, s': State, t: Tid)
    requires ControlInv(s) && StopStep(s, s', t)
    ensures ControlInv(s')
  {
    if s.stoppers[t].Unblock? || s.stoppers[t].ScheduleStop? {
      StopKeepsToken(s, s', t);
    } else {
      ClaimKeepsToken(s, s', t);
    }
    StopKeepsStopper(s, s', t);
    StopKeepsWord(s, s', t);
    StopKeepsLife(s, s', t);
    StopKeepsExecutor(s, s', t);
    StopKeepsNoticed(s, s', t);
    StopKeepsShutdownHook(s, s', t);
    StopKeepsStopHook(s, s', t);
  }

  // ---------------------------------------------------------------- the worker in service_stop

  /** The worker gives the actor up for good. */
  lemma RetireKeepsToken(s: State, s': State)
    requires TokenInv(s) && WorkerMoved(s, s') && Holds(s.worker) && !Holds(s'.worker)
    requires s'.h.k.token.Gone? && s'.h.k.ready == s.h.k.ready && !s'.h.k.word.Blocked?
    ensures TokenInv(s')
  {
  }

  lemma ServiceKeepsToken(s: State, s': State)
    requires TokenInv(s) && WordInv(s) && InService(s.worker) && WorkerMoved(s, s')
    requires ServiceEffect(s.h.k, s'.h.k, Worker, s.worker, s'.worker)
    ensures TokenInv(s')
  {
    if s'.worker.Away? {
      RetireKeepsToken(s, s');
    } else {
      TokenFrame(s, s');
    }
  }

  lemma ServiceKeepsWord(s: State, s': State)
    requires TokenInv(s) && WordInv(s) && PhaseInv(s) && HookInv(s) && InService(s.worker) && WorkerMoved(s, s')
    requires ServiceEffect(s.h.k, s'.h.k, Worker, s.worker, s'.worker)
    ensures WordInv(s')
  {
  }

  lemma ServiceKeepsLife(s: State, s': State)
    requires TokenInv(s) && WordInv(s) && PhaseInv(s) && InService(s.worker) && WorkerMoved(s, s')
    requires ServiceEffect(s.h.k, s'.h.k, Worker, s.worker, s'.worker)
    ensures LifeInv(s')
  {
  }

  lemma ServiceKeepsExecutor(s: State, s': State)
    requires PhaseInv(s) && InService(s.worker) && WorkerMoved(s, s')
    requires ServiceEffect(s.h.k, s'.h.k, Worker, s.worker, s'.worker)
    ensures ExecutorInv(s')
  {
  }

  lemma ServiceKeepsShutdownHook(s: State, s': State)
    requires WordInv(s) && PhaseInv(s) && HookInv(s) && InService(s.worker) && WorkerMoved(s, s')
    requires ServiceEffect(s.h.k, s'.h.k, Worker, s.worker, s'.worker)
    ensures ShutdownHookInv(s')
  {
  }

  lemma ServiceKeepsStopHook(s: State, s': State)
    requires TokenInv(s) && WordInv(s) && PhaseInv(s) && HookInv(s) && InService(s.worker) && WorkerMoved(s, s')
    requires ServiceEffect(s.h.k, s'.h.k, Worker, s.worker, s'.worker)
    ensures StopHookInv(s')
  {
  }

  lemma ServiceKeepsControl(s: State, s': State)
    requires ControlInv(s) && InService(s.worker) && WorkerMoved(s, s')
    requires ServiceEffect(s.h.k, s'.h.k, Worker, s.worker, s'.worker)
    ensures ControlInv(s')
  {
    ServiceKeepsToken(s, s');
    ServiceKeepsWord(s, s');
    ServiceKeepsLife(s, s');
    ServiceKeepsExecutor(s, s');
    ServiceKeepsShutdownHook(s, s');
    ServiceKeepsStopHook(s, s');
    StopperFrame(s, s');
    assert !s'.h.k.word.Blocked?;
  }

  // ---------------------------------------------------------------- the worker processing a message

  lemma ProcessKeepsToken(s: State, s': State)
    requires TokenInv(s) && WordInv(s) && IsProcessing(s.worker) && WorkerMoved(s, s')
    requires ProcessEffect(s.h.k, s'.h.k, Worker, s.worker, s'.worker)
    ensures TokenInv(s')
  {
    TokenFrame(s, s');
  }

  lemma ProcessKeepsWord(s: State, s': State)
    requires WordInv(s) && LifeInv(s) && IsProcessing(s.worker) && WorkerMoved(s, s')
    requires ProcessEffect(s.h.k, s'.h.k, Worker, s.worker, s'.worker)
    ensures WordInv(s')
  {
  }

  lemma ProcessKeepsLife(s: State, s': State)
    requires TokenInv(s) && WordInv(s) && PhaseInv(s) && IsProcessing(s.worker) && WorkerMoved(s, s')
    requires ProcessEffect(s.h.k, s'.h.k, Worker, s.worker, s'.worker)
    ensures LifeInv(s')
  {
  }

  lemma ProcessKeepsExecutor(s: State, s': State)
    requires PhaseInv(s) && IsProcessing(s.worker) && WorkerMoved(s, s')
    requires ProcessEffect(s.h.k, s'.h.k, Worker, s.worker, s'.worker)
    ensures ExecutorInv(s')
  {
  }

  lemma ProcessKeepsHook(s: State, s': State)
    requires WordInv(s) && PhaseInv(s) && HookInv(s) && IsProcessing(s.worker) && WorkerMoved(s, s')
    requires ProcessEffect(s.h.k, s'.h.k, Worker, s.worker, s'.worker)
    ensures HookInv(s')
  {
  }

  lemma ProcessKeepsControl(s: State, s': State)
    requires ControlInv(s) && IsProcessing(s.worker) && WorkerMoved(s, s')
    requires ProcessEffect(s.h.k, s'.h.k, Worker, s.worker, s'.worker)
    ensures ControlInv(s')
  {
    ProcessKeepsToken(s, s');
    ProcessKeepsWord(s, s');
    ProcessKeepsLife(s, s');
    ProcessKeepsExecutor(s, s');
    ProcessKeepsHook(s, s');
    StopperFrame(s, s');
    assert !s'.h.k.word.Blocked?;
  }

  // ---------------------------------------------------------------- the worker in run_actor

  predicate InTurn(pc: Exec) {
    !InService(pc) && !IsProcessing(pc)
  }

  predicate TurnMoved(c: Config, s: State, s': State, move: Move) {
    InTurn(s.worker) && WorkerRunStep(c, s, s', move)
  }

  lemma TurnKeepsToken(s: State, s': State)
    requires TokenInv(s) && LifeInv(s) && WorkerMoved(s, s') && TurnEffect(s.h.k, s'.h.k, s.worker, s'.worker)
    ensures TokenInv(s')
  {
    if s'.h.k == s.h.k {
      TokenFrame(s, s');
    } else {
      TurnMovesToken(s, s');
    }
  }

  lemma TurnMovesToken(s: State, s': State)
    requires TokenInv(s) && WorkerMoved(s, s') && TurnEffect(s.h.k, s'.h.k, s.worker, s'.worker)
    requires s.worker.Requeue? || s.worker.TryBlock? || s.worker.TryUnblock?
    requires s'.h.k != s.h.k
    ensures TokenInv(s')
  {
  }

  lemma TurnKeepsWord(s: State, s': State)
    requires TokenInv(s) && WordInv(s) && PhaseInv(s) && WorkerMoved(s, s')
    requires TurnEffect(s.h.k, s'.h.k, s.worker, s'.worker)
    ensures WordInv(s')
  {
  }

  lemma TurnKeepsLife(s: State, s': State)
    requires TokenInv(s) && WordInv(s) && PhaseInv(s) && HookInv(s) && WorkerMoved(s, s')
    requires TurnEffect(s.h.k, s'.h.k, s.worker, s'.worker)
    ensures LifeInv(s')
  {
  }

  lemma TurnKeepsExecutor(s: State, s': State)
    requires PhaseInv(s) && WorkerMoved(s, s') && TurnEffect(s.h.k, s'.h.k, s.worker, s'.worker)
    ensures ExecutorInv(s')
  {
  }

  lemma TurnKeepsHook(s: State, s': State)
    requires WordInv(s) && PhaseInv(s) && HookInv(s) && WorkerMoved(s, s')
    requires TurnEffect(s.h.k, s'.h.k, s.worker, s'.worker)
    ensures HookInv(s')
  {
  }

  lemma TurnKeepsNoticed(s: State, s': State)
    requires Noticed(s) && WorkerMoved(s, s') && TurnEffect(s.h.k, s'.h.k, s.worker, s'.worker)
    ensures Noticed(s')
  {
  }

  lemma TurnKeepsControl(s: State, s': State)
    requires ControlInv(s) && WorkerMoved(s, s') && TurnEffect(s.h.k, s'.h.k, s.worker, s'.worker)
    ensures ControlInv(s')
  {
    TurnKeepsToken(s, s');
    TurnKeepsWord(s, s');
    TurnKeepsLife(s, s');
    TurnKeepsExecutor(s, s');
    TurnKeepsHook(s, s');
    TurnKeepsNoticed(s, s');
    StopperFrame(s, s');
  }

  lemma WorkerRunKeepsControl(c: Config, s: State, s': State, move: Move)
    requires ControlInv(s) && WorkerRunStep(c, s, s', move)
    ensures ControlInv(s')
  {
    if InService(s.worker) {
      ServiceHasEffect(s.h, Worker, s.worker, move);
      ServiceKeepsControl(s, s');
    } else if IsProcessing(s.worker) {
      ProcessHasEffect(c, s.h, Worker, s.worker, move);
      ProcessKeepsControl(s, s');
    } else {
      TurnHasEffect(c, s.h, s.worker, s.handled, move);
      TurnKeepsControl(s, s');
    }
  }

  // ---------------------------------------------------------------- stops completed by wait_for_shutdown

  /** The worker has exited, and the thread in wait_for_shutdown() carries out a requested stop. */
  predicate Late(s: State) {
    && s.waiter.Completing? && Holds(s.waiter.pc)
    && s.worker.Away? && s.h.k.workerExited && s.h.k.phase.Requested? && s.h.k.life.Stopping?
  }

  /** One step of service_stop on that thread. */
  predicate LateStep(s: State, s': State, pc': Exec) {
    && Late(s) && WaiterMoved(s, s', pc') && InService(s.waiter.pc)
    && ServiceEffect(s.h.k, s'.h.k, Waiter, s.waiter.pc, pc')
  }

  lemma LateServiceKeepsToken(s: State, s': State, pc': Exec)
    requires TokenInv(s) && WordInv(s) && LateStep(s, s', pc')
    ensures TokenInv(s')
  {
    TokenFrame(s, s');
  }

  lemma LateServiceKeepsWord(s: State, s': State, pc': Exec)
    requires WordInv(s) && StopHookInv(s) && LateStep(s, s', pc')
    ensures WordInv(s')
  {
  }

  lemma LateServiceKeepsLife(s: State, s': State, pc': Exec)
    requires WordInv(s) && LifeInv(s) && LateStep(s, s', pc')
    ensures LifeInv(s')
  {
  }

  lemma LateServiceKeepsExecutor(s: State, s': State, pc': Exec)
    requires ExecutorInv(s) && LateStep(s, s', pc')
    ensures ExecutorInv(s')
  {
  }

  lemma LateServiceKeepsShutdownHook(s: State, s': State, pc': Exec)
    requires WordInv(s) && HookInv(s) && LateStep(s, s', pc')
    ensures ShutdownHookInv(s')
  {
    if AfterShutdownHook(s.waiter.pc) {
      LateHooksKeepShutdownHook(s, s', pc');
    } else {
      LateDrainKeepsShutdownHook(s, s', pc');
    }
  }

  lemma LateHooksKeepShutdownHook(s: State, s': State, pc': Exec)
    requires WordInv(s) && HookInv(s) && LateStep(s, s', pc') && AfterShutdownHook(s.waiter.pc)
    ensures ShutdownHookInv(s')
  {
  }

  lemma LateDrainKeepsShutdownHook(s: State, s': State, pc': Exec)
    requires WordInv(s) && HookInv(s) && LateStep(s, s', pc') && !AfterShutdownHook(s.waiter.pc)
    ensures ShutdownHookInv(s')
  {
  }

  lemma LateServiceKeepsStopHook(s: State, s': State, pc': Exec)
    requires WordInv(s) && StopHookInv(s) && LateStep(s, s', pc')
    ensures StopHookInv(s')
  {
    if AfterClose(s.waiter.pc) {
      LateCloseKeepsStopHook(s, s', pc');
    } else {
      LateDrainKeepsStopHook(s, s', pc');
    }
  }

  lemma LateCloseKeepsStopHook(s: State, s': State, pc': Exec)
    requires WordInv(s) && StopHookInv(s) && LateStep(s, s', pc') && AfterClose(s.waiter.pc)
    ensures StopHookInv(s')
  {
  }

  lemma LateDrainKeepsStopHook(s: State, s': State, pc': Exec)
    requires WordInv(s) && StopHookInv(s) && LateStep(s, s', pc') && !AfterClose(s.waiter.pc)
    ensures StopHookInv(s')
  {
  }

  lemma LateServiceKeepsControl(s: State, s': State, pc': Exec)
    requires ControlInv(s) && LateStep(s, s', pc')
    ensures ControlInv(s')
  {
    LateServiceKeepsToken(s, s', pc');
    LateServiceKeepsWord(s, s', pc');
    LateServiceKeepsLife(s, s', pc');
    LateServiceKeepsExecutor(s, s', pc');
    LateServiceKeepsShutdownHook(s, s', pc');
    LateServiceKeepsStopHook(s, s', pc');
    StopperFrame(s, s');
    assert !s'.h.k.word.Blocked?;
  }

  /** The stop has been requested, so a late drain only dispatches; it cannot claim a shutdown. */
  lemma LateProcessIsQuiet(s: State, s': State, pc': Exec)
    requires WordInv(s) && PhaseInv(s) && WaiterMoved(s, s', pc') && !InService(s.waiter.pc)
    requires ProcessEffect(s.h.k, s'.h.k, Waiter, s.waiter.pc, pc')
    ensures s'.h.k == s.h.k && s.h.k.word.Open?
    ensures s' == s.(h := s'.h, waiter := Completing(pc'))
    ensures pc'.Process? || pc'.Scan? || pc'.Dispatch? || pc'.Service?
  {
  }

  lemma LateProcessKeepsControl(s: State, s': State, pc': Exec)
    requires ControlInv(s) && WaiterMoved(s, s', pc') && !InService(s.waiter.pc)
    requires ProcessEffect(s.h.k, s'.h.k, Waiter, s.waiter.pc, pc')
    ensures ControlInv(s')
  {
    LateProcessIsQuiet(s, s', pc');
    TokenFrame(s, s');
    StopperFrame(s, s');
    LateProcessKeepsRest(s, s', pc');
  }

  lemma LateProcessKeepsRest(s: State, s': State, pc': Exec)
    requires WordInv(s) && PhaseInv(s) && HookInv(s) && s.waiter.Completing? && s.h.k.word.Open?
    requires s.waiter.pc.Process? || s.waiter.pc.Scan? || s.waiter.pc.Dispatch?
    requires pc'.Process? || pc'.Scan? || pc'.Dispatch? || pc'.Service?
    requires s'.h.k == s.h.k && s' == s.(h := s'.h, waiter := Completing(pc'))
    ensures WordInv(s') && PhaseInv(s') && HookInv(s')
  {
  }

  // ---------------------------------------------------------------- wait_for_shutdown

  /** It changes no control word but the hook count and, at its end, the life cycle. */
  lemma WaitAloneLeaves(s: State, s': State)
    requires WaitAloneStep(s, s')
    ensures s' == s.(h := s.h.(k := s'.h.k), waiter := s'.waiter)
    ensures s'.h.k == s.h.k.(onStop := s'.h.k.onStop, life := s'.h.k.life)
    ensures WaiterPc(s).Away? && (WaiterPc(s').Away? || WaiterPc(s').Service?)
  {
  }

  lemma WaitKeepsWord(s: State, s': State)
    requires TokenInv(s) && WordInv(s) && StopInv(s) && HookInv(s) && WaitAloneStep(s, s')
    ensures WordInv(s')
  {
  }

  lemma WaitKeepsLife(s: State, s': State)
    requires WordInv(s) && PhaseInv(s) && WaitAloneStep(s, s')
    ensures LifeInv(s')
  {
  }

  lemma WaitKeepsExecutor(s: State, s': State)
    requires PhaseInv(s) && WaitAloneStep(s, s')
    ensures ExecutorInv(s')
  {
  }

  lemma WaitKeepsShutdownHook(s: State, s': State)
    requires WordInv(s) && PhaseInv(s) && HookInv(s) && WaitAloneStep(s, s')
    ensures ShutdownHookInv(s')
  {
    WaitAloneLeaves(s, s');
  }

  lemma WaitKeepsStopHook(s: State, s': State)
    requires WordInv(s) && PhaseInv(s) && HookInv(s) && WaitAloneStep(s, s')
    ensures StopHookInv(s')
  {
  }

  lemma WaitOnlyKeepsControl(s: State, s': State)
    requires ControlInv(s) && WaitAloneStep(s, s')
    ensures ControlInv(s')
  {
    TokenFrame(s, s');
    WaitKeepsWord(s, s');
    WaitKeepsLife(s, s');
    WaitKeepsExecutor(s, s');
    WaitKeepsShutdownHook(s, s');
    WaitKeepsStopHook(s, s');
    assert StopperInv(s');
    assert Noticed(s');
  }

  lemma WaitKeepsControl(c: Config, s: State, s': State, move: Move)
    requires ControlInv(s) && WaitStep(c, s, s', move)
    ensures ControlInv(s')
  {
    if s.waiter.Completing? && InService(s.waiter.pc) {
      ServiceHasEffect(s.h, Waiter, s.waiter.pc, move);
      assert Late(s);
      LateServiceKeepsControl(s, s', ServiceStep(s.h, Waiter, s.waiter.pc, move).value.1);
    } else if s.waiter.Completing? {
      ProcessHasEffect(c, s.h, Waiter, s.waiter.pc, move);
      LateProcessKeepsControl(s, s', ProcessStep(c, s.h, Waiter, s.waiter.pc, move).value.1);
    } else {
      WaitOnlyKeepsControl(s, s');
    }
  }

  // ---------------------------------------------------------------- ready queue and activation

  lemma PopForeignKeepsControl(s: State, s': State)
    requires ControlInv(s) && WorkerPopStep(s, s') && !s.h.k.ready[0].Me?
    ensures ControlInv(s')
  {
    PopLeaves(s.h.k.ready);
    PopForeignKeepsToken(s, s');
    QuietKeepsControl(s, s');
  }

  lemma PopLeaves(ready: seq<Entry>)
    requires ready != []
    ensures multiset(ready)[Me] == multiset(ready[1..])[Me] + if ready[0].Me? then 1 else 0
  {
    assert ready == [ready[0]] + ready[1..];
  }

  lemma PopForeignKeepsToken(s: State, s': State)
    requires TokenInv(s) && WorkerPopStep(s, s') && !s.h.k.ready[0].Me?
    requires multiset(s.h.k.ready)[Me] == multiset(s.h.k.ready[1..])[Me]
    ensures TokenInv(s')
  {
  }

  lemma PopMineKeepsToken(s: State, s': State)
    requires TokenInv(s) && WorkerPopStep(s, s') && s.h.k.ready[0].Me?
    requires multiset(s.h.k.ready)[Me] == multiset(s.h.k.ready[1..])[Me] + 1
    ensures TokenInv(s') && s.h.k.token.Queued?
  {
  }

  lemma PopMineKeepsWord(s: State, s': State)
    requires TokenInv(s) && WordInv(s) && PhaseInv(s) && WorkerPopStep(s, s') && s.h.k.ready[0].Me? && s.h.k.token.Queued?
    ensures WordInv(s')
  {
  }

  lemma PopMineKeepsPhase(s: State, s': State)
    requires TokenInv(s) && WordInv(s) && PhaseInv(s) && WorkerPopStep(s, s') && s.h.k.ready[0].Me? && s.h.k.token.Queued?
    ensures PhaseInv(s')
  {
  }

  lemma PopMineKeepsHook(s: State, s': State)
    requires WordInv(s) && PhaseInv(s) && HookInv(s) && WorkerPopStep(s, s') && s.h.k.ready[0].Me? && s.h.k.token.Queued?
    ensures HookInv(s')
  {
  }

  lemma PopMineKeepsControl(s: State, s': State)
    requires ControlInv(s) && WorkerPopStep(s, s') && s.h.k.ready[0].Me?
    ensures ControlInv(s')
  {
    PopLeaves(s.h.k.ready);
    PopMineKeepsToken(s, s');
    PopMineKeepsWord(s, s');
    PopMineKeepsPhase(s, s');
    PopMineKeepsHook(s, s');
    StopperFrame(s, s');
    assert !s.h.k.word.Blocked?;
  }

  lemma CreateKeepsToken(s: State, s': State)
    requires TokenInv(s) && CreateStep(s, s')
    ensures TokenInv(s')
  {
  }

  lemma CreateKeepsWord(s: State, s': State)
    requires TokenInv(s) && WordInv(s) && LifeInv(s) && StopperInv(s) && CreateStep(s, s')
    ensures WordInv(s')
  {
  }

  lemma CreateKeepsPhase(s: State, s': State)
    requires TokenInv(s) && StopperInv(s) && PhaseInv(s) && CreateStep(s, s')
    ensures PhaseInv(s')
  {
  }

  lemma CreateKeepsHook(s: State, s': State)
    requires TokenInv(s) && WordInv(s) && StopperInv(s) && PhaseInv(s) && HookInv(s) && CreateStep(s, s')
    ensures HookInv(s')
  {
  }

  lemma CreateKeepsControl(s: State, s': State)
    requires ControlInv(s) && CreateStep(s, s')
    ensures ControlInv(s')
  {
    CreateKeepsToken(s, s');
    CreateKeepsWord(s, s');
    CreateKeepsPhase(s, s');
    CreateKeepsHook(s, s');
    StopperFrame(s, s');
    assert !s'.h.k.phase.Requested? || s'.h.k == s.h.k;
  }

  // ---------------------------------------------------------------- everything else

  predicate IsOther(step: Step) {
    || step.WorkerExit? || step.Foreign? || step.StartFilter? || step.RequestShutdown?
    || step.BeginEnqueue? || step.BeginStop? || step.BeginWait?
  }

  predicate IsQuiet(step: Step) {
    step.Foreign? || step.StartFilter? || step.RequestShutdown? || step.BeginEnqueue?
  }

  lemma QuietKeepsToken(c: Config, s: State, s': State, step: Step)
    requires TokenInv(s) && NextStep(c, s, s', step) && IsQuiet(step)
    ensures TokenInv(s') && Quiet(s, s')
  {
  }

  lemma ExitKeepsControl(c: Config, s: State, s': State)
    requires ControlInv(s) && NextStep(c, s, s', WorkerExit)
    ensures ControlInv(s')
  {
    TokenFrame(s, s');
    StopperFrame(s, s');
    ExitKeepsRest(c, s, s');
    assert Noticed(s');
  }

  lemma ExitKeepsRest(c: Config, s: State, s': State)
    requires WordInv(s) && PhaseInv(s) && HookInv(s) && NextStep(c, s, s', WorkerExit)
    ensures WordInv(s') && PhaseInv(s') && HookInv(s')
  {
  }

  lemma BeginStopKeepsControl(c: Config, s: State, s': State, t: Tid, discard: bool)
    requires !c.earlyStop && ControlInv(s) && NextStep(c, s, s', BeginStop(t, discard))
    ensures ControlInv(s')
  {
    TokenFrame(s, s');
    BeginStopKeepsStoppers(c, s, s', t, discard);
    BeginStopKeepsRest(c, s, s', t, discard);
  }

  lemma BeginStopKeepsStoppers(c: Config, s: State, s': State, t: Tid, discard: bool)
    requires !c.earlyStop && StopperInv(s) && Noticed(s) && NextStep(c, s, s', BeginStop(t, discard))
    ensures StopperInv(s') && Noticed(s')
  {
    if s'.h.k.word.Blocked? && s'.h.k.phase.Requested? {
      if u :| u in s.stoppers && s.stoppers[u].Unblock? {
        assert s'.stoppers[u].Unblock?;
      }
    }
  }

  lemma BeginStopKeepsRest(c: Config, s: State, s': State, t: Tid, discard: bool)
    requires WordInv(s) && PhaseInv(s) && HookInv(s) && NextStep(c, s, s', BeginStop(t, discard))
    ensures WordInv(s') && PhaseInv(s') && HookInv(s')
  {
  }

  lemma BeginWaitKeepsControl(c: Config, s: State, s': State)
    requires ControlInv(s) && NextStep(c, s, s', BeginWait)
    ensures ControlInv(s')
  {
    TokenFrame(s, s');
    BeginWaitKeepsRest(c, s, s');
    assert StopperInv(s');
    assert Noticed(s');
  }

  lemma BeginWaitKeepsRest(c: Config, s: State, s': State)
    requires WordInv(s) && PhaseInv(s) && HookInv(s) && NextStep(c, s, s', BeginWait)
    ensures WordInv(s') && PhaseInv(s') && HookInv(s')
  {
  }

  lemma OtherKeepsControl(c: Config, s: State, s': State, step: Step)
    requires !c.earlyStop && ControlInv(s) && NextStep(c, s, s', step) && IsOther(step)
    ensures ControlInv(s')
  {
    match step
    case WorkerExit => ExitKeepsControl(c, s, s');
    case BeginStop(t, discard) => BeginStopKeepsControl(c, s, s', t, discard);
    case BeginWait => BeginWaitKeepsControl(c, s, s');
    case _ =>
      QuietKeepsToken(c, s, s', step);
      QuietKeepsControl(s, s');
  }

  lemma NextKeepsControl(c: Config, s: State, s': State, step: Step)
    requires !c.earlyStop && ControlInv(s) && NextStep(c, s, s', step)
    ensures ControlInv(s')
  {
    match step
    case WorkerPop =>
      if s.h.k.ready[0].Me? { PopMineKeepsControl(s, s'); } else { PopForeignKeepsControl(s, s'); }
    case WorkerRun(move) => WorkerRunKeepsControl(c, s, s', move);
    case Create => CreateKeepsControl(s, s');
    case Produce(t, fails) => ProduceKeepsControl(s, s', t, fails);
    case Stop(t) => StopKeepsControl(s, s', t);
    case Wait(move) => WaitKeepsControl(c, s, s', move);
    case _ => OtherKeepsControl(c, s, s', step);
  }
}
