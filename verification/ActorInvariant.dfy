/** The invariant of the actor protocol and its preservation by every step. */
module ActorInvariant {
  import opened Common
  import opened ActorProtocol

  function WaiterPc(s: State): Exec {
    if s.waiter.Completing? then s.waiter.pc else Away
  }

  // ---------------------------------------------------------------- the execution token

  /** The actor is queued exactly when its token says so, and then exactly once. */
  predicate ReadyInv(k: Control) {
    multiset(k.ready)[Me] == if k.token.Queued? then 1 else 0
  }

  predicate TokenInv(s: State) {
    && (s.h.k.word.Blocked? <==> s.h.k.token.Idle?)
    && (forall t :: t in s.producers && s.producers[t].Schedule? ==> s.h.k.token == WithProducer(t))
    && (s.h.k.token.WithProducer? ==> s.h.k.token.p in s.producers && s.producers[s.h.k.token.p].Schedule?)
    && (forall t :: t in s.stoppers && s.stoppers[t].ScheduleStop? ==> s.h.k.token == WithStopper(t))
    && (s.h.k.token.WithStopper? ==> s.h.k.token.r in s.stoppers && s.stoppers[s.h.k.token.r].ScheduleStop?)
    && ReadyInv(s.h.k)
    && (Holds(s.worker) <==> s.h.k.token.Executing?)
    && (!s.creator.Activated? <==> s.h.k.token.WithCreator?)
  }

  // ---------------------------------------------------------------- mailbox word

  /** The stop is over and nobody can reopen the mailbox. */
  predicate Sealed(s: State) {
    && s.h.k.word.Closed? && s.h.k.life.Stopped? && !s.h.k.listed
    && s.worker.Away? && WaiterPc(s).Away?
    && (s.h.k.token.Gone? || s.h.k.workerExited)
    && !(s.waiter.FinalHook? || s.waiter.FinalState?)
  }

  predicate WordInv(s: State) {
    && (Holds(s.worker) && !AfterClose(s.worker) ==> s.h.k.word.Open?)
    && (Holds(WaiterPc(s)) && !AfterClose(WaiterPc(s)) ==> s.h.k.word.Open?)
    && (AfterClose(s.worker) || AfterClose(WaiterPc(s)) ==> s.h.k.word.Closed?)
    && (s.h.k.word.Closed? ==> AfterClose(s.worker) || AfterClose(WaiterPc(s)) || Sealed(s))
  }

  predicate QueueInv(s: State) {
    && (!s.h.k.word.Open? ==> s.h.q.stack == [])
    && (s.h.k.word.Blocked? ==> CachesEmpty(s.h.q))
    && PartsDrained(s.h.q, s.worker) && PartsDrained(s.h.q, WaiterPc(s))
    && (s.h.k.word.Closed? && s.worker.Away? && WaiterPc(s).Away? ==> CachesEmpty(s.h.q) && s.h.q.held == [])
  }

  /** What the last stretch of a stop has already emptied. */
  predicate PartsDrained(q: Queues, pc: Exec) {
    && (pc.CloseWord? || AfterClose(pc) ==> q.held == [])
    && (pc.Unlist? || pc.MarkStopped? ==> CachesEmpty(q))
  }

  // ---------------------------------------------------------------- stop phase

  predicate InClaim(p: Stopper) {
    p.Record? || p.CasState? || p.Rollback? || p.StoreRequested?
  }

  /** Someone is still bound to look at the stop phase after the mailbox was blocked. */
  ghost predicate StopNoticed(s: State) {
    || s.worker.Recheck? || s.worker.TryUnblock?
    || exists t :: t in s.stoppers && s.stoppers[t].Unblock?
  }

  predicate StopperInv(s: State) {
    && (forall t :: t in s.stoppers && InClaim(s.stoppers[t]) ==>
          && s.h.k.phase.Claiming?
          && !s.stoppers[t].Rollback?
          && (s.stoppers[t].StoreRequested? ==> s.h.k.life.Stopping?)
          && (s.stoppers[t].Record? || s.stoppers[t].CasState? ==> s.h.k.life.Running?))
    && (forall t, u | t in s.stoppers && u in s.stoppers ::
          InClaim(s.stoppers[t]) && InClaim(s.stoppers[u]) ==> t == u)
    && (forall t :: t in s.stoppers && (s.stoppers[t].Unblock? || s.stoppers[t].ScheduleStop?) ==>
          s.h.k.phase.Requested?)
    && (!s.creator.Activated? ==> s.stoppers == map[] && s.waiter.NotWaiting?)
    && (!s.waiter.NotWaiting? ==> s.stoppers == map[])
  }

  predicate WaiterMayBeAt(pc: Exec) {
    InService(pc) || pc.Away? || pc.Process? || pc.Scan? || pc.Dispatch?
  }

  /** How the stop phase and the life cycle go together, and who may execute. */
  predicate LifeInv(s: State) {
    && (!s.creator.Activated? ==> s.h.k.phase.NoStop?)
    && (s.h.k.phase.NoStop? ==> s.h.k.life.Running? || s.waiter.Finished?)
    && (s.h.k.phase.Requested? ==> !s.h.k.life.Running?)
    && (s.worker.ShutdownHook? || s.worker.ShutdownState? ==> s.h.k.phase.ByShutdown? && s.h.k.life.Running?)
    && (InService(s.worker) ==> s.h.k.phase.Requested? && s.h.k.life.Stopping?)
    && (Holds(s.worker) ==> !s.h.k.life.Stopped?)
    && (Holds(WaiterPc(s)) ==> s.h.k.phase.Requested? && s.h.k.life.Stopping?)
    && (s.h.k.life.Stopped? ==> s.h.k.token.Gone? || s.h.k.workerExited)
    && (s.h.k.token.Gone? ==> s.h.k.life.Stopped? && s.h.k.word.Closed?)
  }

  /** Who carries out a stop, and where the thread in wait_for_shutdown() may be. */
  predicate ExecutorInv(s: State) {
    && WaiterMayBeAt(WaiterPc(s))
    && (s.h.k.executor != Nobody ==> s.h.k.phase.Requested?)
    && (InService(s.worker) && !s.worker.Service? ==> s.h.k.executor == By(Worker))
    && (Holds(WaiterPc(s)) && !WaiterPc(s).Service? ==> s.h.k.executor == By(Waiter))
    && (s.h.k.executor == By(Waiter) ==> s.h.k.workerExited)
    && (s.h.k.workerExited ==> s.worker.Away?)
    && (!s.waiter.NotWaiting? && !s.waiter.Joining? ==> s.h.k.workerExited)
    && (s.waiter.TestState? ==> s.h.k.phase.Requested?)
    && (s.waiter.FinalHook? || s.waiter.FinalState? ==> s.h.k.listed)
  }

  predicate PhaseInv(s: State) {
    LifeInv(s) && ExecutorInv(s)
  }

  ghost predicate StopInv(s: State) {
    && StopperInv(s)
    && PhaseInv(s)
    && (s.h.k.word.Blocked? && s.h.k.phase.Requested? ==> StopNoticed(s))
  }

  // ---------------------------------------------------------------- lifecycle hooks

  predicate ShutdownHookInv(s: State) {
    && s.h.k.onShutdown <= 1
    && (s.h.k.phase.NoStop? || s.h.k.phase.Claiming? ==> s.h.k.onShutdown == 0)
    && (s.h.k.phase.ByShutdown? ==> s.h.k.onShutdown == if s.worker.ShutdownHook? then 0 else 1)
    && (s.h.k.phase.Requested? ==>
          (s.h.k.onShutdown == 1 <==>
             AfterShutdownHook(s.worker) || AfterShutdownHook(WaiterPc(s)) || !s.h.k.listed))
  }

  predicate StopHookInv(s: State) {
    && s.h.k.onStop <= 1
    && (s.h.k.onStop == 1 <==>
          || AfterStopHook(s.worker) || AfterStopHook(WaiterPc(s)) || !s.h.k.listed
          || s.waiter.FinalState? || s.waiter.Finished?)
    && (!s.h.k.listed <==> s.worker.MarkStopped? || WaiterPc(s).MarkStopped? || Sealed(s))
    && (s.waiter.Finished? ==> s.h.k.life.Stopped?)
    && (s.h.k.life.Stopped? ==> !s.h.k.listed || s.waiter.Finished?)
  }

  predicate HookInv(s: State) {
    ShutdownHookInv(s) && StopHookInv(s)
  }

  // ---------------------------------------------------------------- message ledger

  function Hand(pc: Exec): multiset<Message> {
    match pc
    case Dispatch(m) => multiset{m}
    case ShutdownHook(m) => multiset{m}
    case ShutdownState(m) => multiset{m}
    case DropAll(taken) => multiset(taken)
    case _ => multiset{}
  }

  /** How often m is queued. */
  function InQueues(q: Queues, m: Message): nat {
    multiset(q.stack)[m] + multiset(q.calls)[m] + multiset(q.others)[m] + multiset(q.held)[m]
  }

  /** How often m has been accounted for. */
  function Settled(l: Ledger, m: Message): nat {
    l.dispatched[m] + l.dead[m] + l.control[m]
  }

  predicate Carries(p: Producer) {
    !p.Schedule?
  }

  /** Some thread is still enqueueing m. */
  ghost predicate Carried(producers: map<Tid, Producer>, m: Message) {
    exists t :: t in producers && Carries(producers[t]) && producers[t].m == m
  }

  ghost predicate OriginInv(s: State) {
    && (forall m :: m in s.h.l.entered ==> m in s.h.l.begun && s.h.l.entered[m] == 1)
    && (forall t :: t in s.producers && Carries(s.producers[t]) ==>
          s.producers[t].m in s.h.l.begun && s.producers[t].m !in s.h.l.entered)
    && (forall t, u | t in s.producers && u in s.producers && t != u ::
          Carries(s.producers[t]) && Carries(s.producers[u]) ==> s.producers[t].m != s.producers[u].m)
    && (forall m :: m in s.h.l.begun ==> m in s.h.l.entered || Carried(s.producers, m))
  }

  /** m is in one place for each time it entered. */
  predicate Accounted(s: State, m: Message) {
    s.h.l.entered[m] == InQueues(s.h.q, m) + Hand(s.worker)[m] + Hand(WaiterPc(s))[m] + Settled(s.h.l, m)
  }

  ghost predicate LedgerInv(s: State) {
    && (forall m :: Accounted(s, m))
    && (forall m :: m in s.h.l.control ==> m.kind.Shutdown?)
    && (s.worker.ShutdownHook? ==> s.worker.msg.kind.Shutdown?)
    && (s.worker.ShutdownState? ==> s.worker.msg.kind.Shutdown?)
  }

  ghost predicate ControlInv(s: State) {
    TokenInv(s) && WordInv(s) && StopInv(s) && HookInv(s)
  }

  ghost predicate Inv(s: State) {
    ControlInv(s) && QueueInv(s) && OriginInv(s) && LedgerInv(s)
  }

  // ---------------------------------------------------------------- control effect of executing

  /** What a step of service_stop may do to the control words. */
  predicate ServiceEffect(k: Control, k': Control, who: Who, pc: Exec, pc': Exec) {
    var retired := if who.Worker? then k.(token := Gone) else k;
    match pc
    case Service =>
      if k.executor == By(who) then k' == k && pc'.DrainTest?
      else if k.executor != Nobody then k' == retired && pc'.Away?
      else k' == k.(executor := By(who)) && pc' == if k.discard then FirstDiscard else DrainTest
    case FirstDiscard => (k' == k || k' == k.(word := Open)) && (pc'.FirstDiscard? || pc'.FirstHeld?)
    case FirstHeld => k' == k && (pc'.FirstHeld? || pc'.DrainTest?)
    case DrainTest =>
      if k.life.Stopped? then k' == retired && pc'.Away?
      else k' == k && (pc'.HookShutdown? || (!k.discard && pc' == if who.Worker? then DrainBudget else Process))
    case HookShutdown => k' == k.(onShutdown := k.onShutdown + 1) && pc'.HookStop?
    case HookStop => k' == k.(onStop := k.onStop + 1) && pc'.LastDiscard?
    case LastDiscard => (k' == k || k' == k.(word := Open)) && (pc'.LastDiscard? || pc'.LastHeld?)
    case LastHeld => k' == k && (pc'.LastHeld? || pc'.CloseWord?)
    case CloseWord => k' == k.(word := Closed) && pc'.DropAll?
    case DropAll(taken) => k' == k && (pc'.DropAll? || pc'.Unlist?)
    case Unlist => k' == k.(listed := false) && pc'.MarkStopped?
    case MarkStopped => k' == retired.(life := Stopped) && pc'.Away?
    case _ => false
  }

  lemma ServiceHasEffect(h: Shared, who: Who, pc: Exec, move: Move)
    requires ServiceStep(h, who, pc, move).Some?
    ensures var r := ServiceStep(h, who, pc, move).value;
            ServiceEffect(h.k, r.0.k, who, pc, r.1)
  {
  }

  /** What a step of process_next_message may do to the control words. */
  predicate ProcessEffect(k: Control, k': Control, who: Who, pc: Exec, pc': Exec) {
    match pc
    case Process =>
      && (k' == k || k' == k.(word := Open))
      && (pc'.Process? || pc'.Scan? || pc'.Dispatch? || pc' == AfterProcess(who))
    case Scan => k' == k && (pc'.Dispatch? || pc' == AfterProcess(who))
    case Dispatch(m) =>
      || (k' == k && pc' == AfterProcess(who))
      || (k.phase.NoStop? && k' == k.(phase := ByShutdown) && pc'.ShutdownHook?)
    case ShutdownHook(m) => k' == k.(onShutdown := k.onShutdown + 1) && pc'.ShutdownState?
    case ShutdownState(m) => k' == k.(life := Stopping) && pc' == AfterProcess(who)
    case _ => false
  }

  lemma ProcessHasEffect(c: Config, h: Shared, who: Who, pc: Exec, move: Move)
    requires ProcessStep(c, h, who, pc, move).Some?
    ensures var r := ProcessStep(c, h, who, pc, move).value;
            ProcessEffect(h.k, r.0.k, who, pc, r.1)
  {
  }

  /** What the rest of run_actor may do to the control words. */
  predicate TurnEffect(k: Control, k': Control, pc: Exec, pc': Exec) {
    match pc
    case Enter => if k.life.Stopped? then k' == k.(token := Gone) && pc'.Away? else k' == k && pc'.LoopTop?
    case LoopTop => k' == k && pc' == if k.phase.Requested? then Service else Budget
    case Budget => k' == k && (pc'.Requeue? || pc'.Poll?)
    case DrainBudget => k' == k && (pc'.Requeue? || pc'.Process?)
    case Requeue => k' == k.(ready := k.ready + [Me], token := Queued) && pc'.Away?
    case Poll => k' == k && (pc'.Process? || pc'.TryBlock?)
    case TryBlock =>
      || (k' == k && pc'.LoopTop?)
      || (k.word.Open? && k' == k.(word := Blocked, token := Idle) && pc'.Recheck?)
    case Recheck => k' == k && pc' == if k.phase.Requested? then TryUnblock else Away
    case TryUnblock =>
      if k.word.Blocked? then k' == k.(word := Open, token := Executing) && pc'.LoopTop? else k' == k && pc'.Away?
    case _ => false
  }

  lemma TurnHasEffect(c: Config, h: Shared, pc: Exec, handled: nat, move: Move)
    requires TurnStep(c, h, pc, handled, move).Some?
    ensures var r := TurnStep(c, h, pc, handled, move).value;
            TurnEffect(h.k, r.0.k, pc, r.1)
  {
  }
}
