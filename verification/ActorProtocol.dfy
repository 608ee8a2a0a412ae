/** The life of one pooled actor, as a state machine over atomic steps.

    Threads: the worker the actor is pinned to, the thread that creates the actor, any number of
    producers (tell, call, timer and shutdown messages), any number of stop_actor() callers, and
    the thread in wait_for_shutdown(). Each atomic load, store or compare-and-swap is one step;
    work on memory that only the stepping thread can reach is folded into a step. User handlers
    may do anything another thread could do: a handler that sends or stops is one more producer
    or stopper. Other actors of the same worker appear only as foreign ready-queue entries. */
module ActorProtocol {
  import opened Common
  import Stash = SelectiveStash

  /** typ is what the filter of a stateful actor goes by. */
  datatype Message = Message(id: nat, kind: Kind, typ: Stash.Type)

  type Tid = nat

  /** budget is max_messages_per_turn (0: unlimited); stateful selects the selective-receive actor;
      earlyStop lifts the rule that stop_actor() is called only after the actor was activated. */
  datatype Config = Config(budget: nat, stateful: bool, earlyStop: bool)

  /** The tag in the mailbox word. Open stands for the empty tag and for a non-empty stack. */
  datatype Word = Open | Blocked | Closed

  datatype Phase = NoStop | Claiming | Requested | ByShutdown

  datatype Life = Running | Stopping | Stopped

  datatype Who = Worker | Waiter

  datatype Executor = Nobody | By(who: Who)

  datatype Entry = Me | Other(n: nat)

  /** Where the right to execute the actor is. History only: no step reads it. */
  datatype Token =
    | WithCreator
    | Idle
    | WithProducer(p: Tid)
    | WithStopper(r: Tid)
    | Queued
    | Executing
    | Gone

  /** Program counter inside run_actor, service_stop and process_next_message. */
  datatype Exec =
    | Away
    | Enter
    | LoopTop
    | Service
    | FirstDiscard
    | FirstHeld
    | DrainTest
    | HookShutdown
    | HookStop
    | LastDiscard
    | LastHeld
    | CloseWord
    | DropAll(taken: seq<Message>)
    | Unlist
    | MarkStopped
    | Budget
    | DrainBudget
    | Requeue
    | Poll
    | Process
    | Scan
    | Dispatch(msg: Message)
    | ShutdownHook(msg: Message)
    | ShutdownState(msg: Message)
    | TryBlock
    | Recheck
    | TryUnblock

  /** enqueue_message / enqueue_call_message. */
  datatype Producer =
    | CheckState(m: Message)
    | LoadWord(m: Message)
    | Cas(m: Message, seen: Word)
    | Schedule

  /** stop_actor; discard is the stop mode of the call. */
  datatype Stopper =
    | CheckRunning(discard: bool)
    | Claim(discard: bool)
    | Record(discard: bool)
    | CasState
    | Rollback
    | StoreRequested
    | Unblock
    | ScheduleStop

  /** activate_after_start, entered once on_start() has returned. */
  datatype Creator = Activating | Scheduling | Activated

  /** wait_for_shutdown. */
  datatype WaitPc =
    | NotWaiting
    | Joining
    | TestPhase
    | TestState
    | Completing(pc: Exec)
    | Snapshot
    | FinalHook
    | FinalState
    | Finished

  /** The control words: everything the threads decide by. */
  datatype Control = Control(
    word: Word,
    phase: Phase,
    life: Life,
    discard: bool,
    executor: Executor,
    listed: bool,
    shutdownRequested: bool,
    workerExited: bool,
    ready: seq<Entry>,
    // history
    onShutdown: nat,
    onStop: nat,
    token: Token
  )

  /** Queued messages, oldest first: the stack in the word, the two caches, the stash. */
  datatype Queues = Queues(stack: seq<Message>, calls: seq<Message>, others: seq<Message>, held: seq<Message>)

  /** History of what became of every message. */
  datatype Ledger = Ledger(
    begun: set<Message>,            // enqueue_message was called
    entered: multiset<Message>,     // queued, or refused and reported
    dispatched: multiset<Message>,
    dead: multiset<Message>,
    control: multiset<Message>      // system_shutdown messages consumed
  )

  /** filter is the stash's; only the executing actor changes it. */
  datatype Shared = Shared(k: Control, q: Queues, l: Ledger, filter: Stash.Filter)

  datatype State = State(
    h: Shared,
    worker: Exec,
    handled: nat,
    waiter: WaitPc,
    creator: Creator,
    producers: map<Tid, Producer>,
    stoppers: map<Tid, Stopper>,
    // history
    modes: map<Tid, bool>,  // whether the latest stop_actor() call of a thread asks to discard
    asked: Option<bool>     // what the call that last claimed the stop asks
  )

  /** What a nondeterministic step chooses. At a has_messages() test: Yes, it answers true, on account
      of a message queued or on its way; Empty, it answers false; No, the drain deadline has passed. */
  datatype Move = Go | Fetch | Empty | Front | Yes | No | Unstash(i: nat) | Refilter(filter: Stash.Filter)

  // ---------------------------------------------------------------- mailbox

  predicate CachesEmpty(q: Queues) {
    q.calls == [] && q.others == []
  }

  predicate NothingQueued(q: Queues) {
    CachesEmpty(q) && q.stack == []
  }

  function OfKind(ms: seq<Message>, call: bool): seq<Message> {
    if ms == [] then []
    else if ms[0].kind.Call? == call then [ms[0]] + OfKind(ms[1..], call)
    else OfKind(ms[1..], call)
  }

  function Unstacked(q: Queues): Queues {
    q.(stack := [], calls := q.calls + OfKind(q.stack, true), others := q.others + OfKind(q.stack, false))
  }

  /** fetch_more: take_head(empty) replaces whatever the word holds, tag or list. */
  function FetchMore(h: Shared): Shared {
    h.(k := h.k.(word := Open), q := Unstacked(h.q))
  }

  function FrontMessage(q: Queues): Message
    requires !CachesEmpty(q)
  {
    if q.calls != [] then q.calls[0] else q.others[0]
  }

  function DropFront(q: Queues): Queues
    requires !CachesEmpty(q)
  {
    if q.calls != [] then q.(calls := q.calls[1..]) else q.(others := q.others[1..])
  }

  /** A message that is destroyed unhandled: a dead letter, unless it is control traffic. */
  function Discarded(l: Ledger, m: Message): Ledger {
    if m.kind.Shutdown? then l.(control := l.control + multiset{m})
    else l.(dead := l.dead + multiset{m})
  }

  predicate Accepts(f: Stash.Filter, m: Message) {
    f.all || m.typ in f.types
  }

  /** The stash holds nothing that the filter accepts: its cached count is 0. */
  predicate NoneAccepted(h: Shared) {
    forall i :: 0 <= i < |h.q.held| ==> !Accepts(h.filter, h.q.held[i])
  }

  /** Then has_messages() answers true. A plain actor holds nothing. */
  predicate HasWork(h: Shared) {
    !NothingQueued(h.q) || !NoneAccepted(h)
  }

  // ---------------------------------------------------------------- executing the actor

  function AfterProcess(who: Who): Exec {
    if who.Worker? then LoopTop else Service
  }

  /** service_stop returned true: the owning worker never runs the actor again. */
  function Retired(h: Shared, who: Who): Shared {
    if who.Worker? then h.(k := h.k.(token := Gone)) else h
  }

  /** One pass of a pop() loop that throws messages away; `next` follows when it finds nothing. */
  function DiscardStep(h: Shared, here: Exec, next: Exec, move: Move): Option<(Shared, Exec)> {
    match move
    case Fetch => if h.q.calls == [] then Some((FetchMore(h), here)) else None
    case Front =>
      if CachesEmpty(h.q) then None
      else Some((h.(q := DropFront(h.q), l := Discarded(h.l, FrontMessage(h.q))), here))
    case Empty => if NothingQueued(h.q) then Some((FetchMore(h), next)) else None
    case _ => None
  }

  /** drop_held, one message at a time. */
  function HeldStep(h: Shared, here: Exec, next: Exec): (Shared, Exec) {
    if h.q.held == [] then (h, next)
    else (h.(q := h.q.(held := h.q.held[1..]), l := h.l.(dead := h.l.dead + multiset{h.q.held[0]})), here)
  }

  /** The drain of close(): cached calls, other cached messages, then the stack, newest first. */
  function DropStep(h: Shared, taken: seq<Message>): (Shared, Exec) {
    if !CachesEmpty(h.q) then
      (h.(q := DropFront(h.q), l := Discarded(h.l, FrontMessage(h.q))), DropAll(taken))
    else if taken != [] then
      (h.(l := Discarded(h.l, taken[|taken| - 1])), DropAll(taken[..|taken| - 1]))
    else (h, Unlist)
  }

  /** service_stop, with discard_pending_messages and mailbox::close inlined. */
  function ServiceStep(h: Shared, who: Who, pc: Exec, move: Move): Option<(Shared, Exec)> {
    match pc
    case Service =>
      if h.k.executor == By(who) then Some((h, DrainTest))
      else if h.k.executor != Nobody then Some((Retired(h, who), Away))
      else Some((h.(k := h.k.(executor := By(who))), if h.k.discard then FirstDiscard else DrainTest))
    case FirstDiscard => DiscardStep(h, FirstDiscard, FirstHeld, move)
    case FirstHeld => Some(HeldStep(h, FirstHeld, DrainTest))
    case DrainTest =>
      if h.k.life.Stopped? then Some((Retired(h, who), Away))
      else if h.k.discard || move.No? || (move.Empty? && !HasWork(h)) then Some((h, HookShutdown))
      else if move.Yes? then Some((h, if who.Worker? then DrainBudget else Process))
      else None
    case HookShutdown => Some((h.(k := h.k.(onShutdown := h.k.onShutdown + 1)), HookStop))
    case HookStop => Some((h.(k := h.k.(onStop := h.k.onStop + 1)), LastDiscard))
    case LastDiscard => DiscardStep(h, LastDiscard, LastHeld, move)
    case LastHeld => Some(HeldStep(h, LastHeld, CloseWord))
    case CloseWord => Some((h.(k := h.k.(word := Closed), q := h.q.(stack := [])), DropAll(h.q.stack)))
    case DropAll(taken) => Some(DropStep(h, taken))
    case Unlist => Some((h.(k := h.k.(listed := false)), MarkStopped))
    case MarkStopped => Some((Retired(h.(k := h.k.(life := Stopped)), who), Away))
    case _ => None
  }

  /** pop(), and what selective_stash::process_next does with an ordinary message. */
  function TakeStep(c: Config, h: Shared, who: Who, move: Move): Option<(Shared, Exec)> {
    match move
    case Fetch => if h.q.calls == [] then Some((FetchMore(h), Process)) else None
    case Empty =>
      if NothingQueued(h.q) then Some((FetchMore(h), if c.stateful then Scan else AfterProcess(who)))
      else None
    case Front =>
      if CachesEmpty(h.q) then None
      else
        var m := FrontMessage(h.q);
        var rest := DropFront(h.q);
        if c.stateful && m.kind.User? then Some((h.(q := rest.(held := rest.held + [m])), Process))
        else Some((h.(q := rest), Dispatch(m)))
    case _ => None
  }

  predicate OldestAccepted(h: Shared, i: nat) {
    && i < |h.q.held| && Accepts(h.filter, h.q.held[i])
    && forall j :: 0 <= j < i ==> !Accepts(h.filter, h.q.held[j])
  }

  /** The oldest held message the filter accepts, if there is one. */
  function ScanStep(h: Shared, who: Who, move: Move): Option<(Shared, Exec)> {
    if move.Unstash? then
      if OldestAccepted(h, move.i) then
        Some((h.(q := h.q.(held := h.q.held[..move.i] + h.q.held[move.i + 1..])), Dispatch(h.q.held[move.i])))
      else None
    else if NoneAccepted(h) then Some((h, AfterProcess(who)))
    else None
  }

  /** The filter once a handler has returned. */
  function FilterAfter(h: Shared, move: Move): Stash.Filter {
    if move.Refilter? then move.filter else h.filter
  }

  /** process_next_message and dispatch_message; with a stash, selective_stash::process_next. */
  function ProcessStep(c: Config, h: Shared, who: Who, pc: Exec, move: Move): Option<(Shared, Exec)> {
    match pc
    case Process => TakeStep(c, h, who, move)
    case Scan => ScanStep(h, who, move)
    case Dispatch(m) =>
      if !m.kind.Shutdown? then
        Some((h.(l := h.l.(dispatched := h.l.dispatched + multiset{m}), filter := FilterAfter(h, move)), AfterProcess(who)))
      else if h.k.phase.NoStop? then Some((h.(k := h.k.(phase := ByShutdown)), ShutdownHook(m)))
      else Some((h.(l := Discarded(h.l, m)), AfterProcess(who)))
    case ShutdownHook(m) => Some((h.(k := h.k.(onShutdown := h.k.onShutdown + 1)), ShutdownState(m)))
    case ShutdownState(m) =>
      Some((h.(k := h.k.(life := Stopping), l := Discarded(h.l, m)), AfterProcess(who)))
    case _ => None
  }

  /** The rest of run_actor. The last component is the number of messages handled in this turn. */
  function TurnStep(c: Config, h: Shared, pc: Exec, handled: nat, move: Move): Option<(Shared, Exec, nat)> {
    match pc
    case Enter =>
      if h.k.life.Stopped? then Some((h.(k := h.k.(token := Gone)), Away, handled)) else Some((h, LoopTop, 0))
    case LoopTop => Some((h, if h.k.phase.Requested? then Service else Budget, handled))
    case Budget => Some((h, if c.budget > 0 && handled >= c.budget then Requeue else Poll, handled))
    case DrainBudget =>
      // service_stop has just seen messages, and only this thread lowers their count: no second look
      if c.budget > 0 && handled >= c.budget then Some((h, Requeue, handled))
      else Some((h, Process, handled + 1))
    case Requeue => Some((h.(k := h.k.(ready := h.k.ready + [Me], token := Queued)), Away, handled))
    case Poll =>
      if move.Yes? then Some((h, Process, handled + 1))
      else if move.Empty? && !HasWork(h) then Some((h, TryBlock, handled))
      else None
    case TryBlock =>
      if NothingQueued(h.q) && h.k.word.Open? then
        Some((h.(k := h.k.(word := Blocked, token := Idle)), Recheck, handled))
      else Some((h, LoopTop, handled))
    case Recheck => Some((h, if h.k.phase.Requested? then TryUnblock else Away, handled))
    case TryUnblock =>
      if h.k.word.Blocked? then Some((h.(k := h.k.(word := Open, token := Executing)), LoopTop, handled))
      else Some((h, Away, handled))
    case _ => None
  }

  predicate IsProcessing(pc: Exec) {
    pc.Process? || pc.Scan? || pc.Dispatch? || pc.ShutdownHook? || pc.ShutdownState?
  }

  predicate InService(pc: Exec) {
    pc.Service? || pc.FirstDiscard? || pc.FirstHeld? || pc.DrainTest? || AtHooks(pc)
  }

  predicate AtHooks(pc: Exec) {
    pc.HookShutdown? || AfterShutdownHook(pc)
  }

  predicate AfterShutdownHook(pc: Exec) {
    pc.HookStop? || AfterStopHook(pc)
  }

  predicate AfterStopHook(pc: Exec) {
    pc.LastDiscard? || pc.LastHeld? || pc.CloseWord? || AfterClose(pc)
  }

  predicate AfterClose(pc: Exec) {
    pc.DropAll? || pc.Unlist? || pc.MarkStopped?
  }

  /** The worker owns the actor: past try_block it is still in run_actor but has let go of it. */
  predicate Holds(pc: Exec) {
    !(pc.Away? || pc.Recheck? || pc.TryUnblock?)
  }

  // ---------------------------------------------------------------- steps

  datatype Step =
    | WorkerPop
    | WorkerRun(move: Move)
    | WorkerExit
    | Foreign(n: nat)
    | StartFilter(filter: Stash.Filter)
    | RequestShutdown
    | Create
    | BeginEnqueue(t: Tid, m: Message)
    | Produce(t: Tid, fails: bool)
    | BeginStop(t: Tid, discard: bool)
    | Stop(t: Tid)
    | BeginWait
    | Wait(move: Move)

  predicate WorkerPopStep(s: State, s': State) {
    && s.worker.Away? && !s.h.k.workerExited && s.h.k.ready != []
    && var rest := s.h.k.ready[1..];
       s' == if s.h.k.ready[0].Me?
             then s.(h := s.h.(k := s.h.k.(ready := rest, token := Executing)), worker := Enter)
             else s.(h := s.h.(k := s.h.k.(ready := rest)))
  }

  predicate WorkerRunStep(c: Config, s: State, s': State, move: Move) {
    if InService(s.worker) then
      var r := ServiceStep(s.h, Worker, s.worker, move);
      r.Some? && s' == s.(h := r.value.0, worker := r.value.1)
    else if IsProcessing(s.worker) then
      var r := ProcessStep(c, s.h, Worker, s.worker, move);
      r.Some? && s' == s.(h := r.value.0, worker := r.value.1)
    else
      var r := TurnStep(c, s.h, s.worker, s.handled, move);
      r.Some? && s' == s.(h := r.value.0, worker := r.value.1, handled := r.value.2)
  }

  /** ready_queue::push of this actor by whoever holds its token. */
  function Enqueued(h: Shared): Shared {
    h.(k := h.k.(ready := h.k.ready + [Me], token := Queued))
  }

  /** activate_after_start: block if nothing arrived during on_start(), else schedule. */
  predicate CreateStep(s: State, s': State) {
    match s.creator
    case Activating =>
      s' == if NothingQueued(s.h.q) && s.h.k.word.Open?
            then s.(h := s.h.(k := s.h.k.(word := Blocked, token := Idle)), creator := Activated)
            else s.(creator := Scheduling)
    case Scheduling => s' == s.(h := Enqueued(s.h), creator := Activated)
    case Activated => false
  }

  function Refused(h: Shared, m: Message): Shared {
    h.(l := h.l.(entered := h.l.entered + multiset{m}, dead := h.l.dead + multiset{m}))
  }

  function Pushed(h: Shared, m: Message): Shared {
    h.(k := h.k.(word := Open), q := h.q.(stack := h.q.stack + [m]),
       l := h.l.(entered := h.l.entered + multiset{m}))
  }

  /** Shared state and program counter after producer t's next step; None once it has returned. */
  function ProduceTo(h: Shared, t: Tid, pc: Producer, fails: bool): (Shared, Option<Producer>) {
    match pc
    case CheckState(m) => if h.k.life.Running? then (h, Some(LoadWord(m))) else (Refused(h, m), None)
    case LoadWord(m) => (h, Some(Cas(m, h.k.word)))
    case Cas(m, seen) =>
      if seen.Closed? then (Refused(h, m), None)
      else if fails || h.k.word != seen then (h, Some(Cas(m, h.k.word)))
      else if seen.Blocked? then
        var pushed := Pushed(h, m);
        (pushed.(k := pushed.k.(token := WithProducer(t))), Some(Schedule))
      else (Pushed(h, m), None)
    case Schedule => (Enqueued(h), None)
  }

  predicate ProduceStep(s: State, s': State, t: Tid, fails: bool) {
    && t in s.producers
    && var (h', pc') := ProduceTo(s.h, t, s.producers[t], fails);
       s' == s.(h := h', producers := if pc'.None? then s.producers - {t} else s.producers[t := pc'.value])
  }

  /** Control words and program counter after stopper t's next step; None once it has returned. */
  function StopTo(k: Control, t: Tid, pc: Stopper): (Control, Option<Stopper>) {
    match pc
    case CheckRunning(discard) => (k, if k.life.Running? then Some(Claim(discard)) else None)
    case Claim(discard) => if k.phase.NoStop? then (k.(phase := Claiming), Some(Record(discard))) else (k, None)
    case Record(discard) => (k.(discard := discard), Some(CasState))
    case CasState =>
      if k.life.Running? then (k.(life := Stopping), Some(StoreRequested)) else (k, Some(Rollback))
    case Rollback => (k.(phase := NoStop), None)
    case StoreRequested => (k.(phase := Requested), Some(Unblock))
    case Unblock =>
      if k.word.Blocked? then (k.(word := Open, token := WithStopper(t)), Some(ScheduleStop)) else (k, None)
    case ScheduleStop => (k.(ready := k.ready + [Me], token := Queued), None)
  }

  /** This call's compare-and-swap of the stop phase is about to succeed. */
  predicate Claims(s: State, t: Tid) {
    t in s.stoppers && t in s.modes && s.stoppers[t].Claim? && s.h.k.phase.NoStop?
  }

  predicate StopStep(s: State, s': State, t: Tid) {
    && t in s.stoppers
    && var (k', pc') := StopTo(s.h.k, t, s.stoppers[t]);
       s' == s.(h := s.h.(k := k'),
                stoppers := if pc'.None? then s.stoppers - {t} else s.stoppers[t := pc'.value],
                asked := if Claims(s, t) then Some(s.modes[t]) else s.asked)
  }

  /** complete_pending_stops: service_stop and process_next_message by turns, on this thread. */
  predicate CompleteStep(c: Config, s: State, s': State, pc: Exec, move: Move) {
    var r := if InService(pc) then ServiceStep(s.h, Waiter, pc, move)
             else ProcessStep(c, s.h, Waiter, pc, move);
    && r.Some?
    && s' == s.(h := r.value.0,
                waiter := if r.value.1.Away? then Snapshot else Completing(r.value.1))
  }

  /** The rest of wait_for_shutdown: join the worker, and on_stop for what is still listed. */
  predicate WaitAloneStep(s: State, s': State) {
    match s.waiter
    case Joining => s.h.k.workerExited && s' == s.(waiter := TestPhase)
    case TestPhase => s' == s.(waiter := if s.h.k.phase.Requested? then TestState else Snapshot)
    case TestState => s' == s.(waiter := if s.h.k.life.Stopped? then Snapshot else Completing(Service))
    case Snapshot => s' == s.(waiter := if s.h.k.listed then FinalHook else Finished)
    case FinalHook => s' == s.(h := s.h.(k := s.h.k.(onStop := s.h.k.onStop + 1)), waiter := FinalState)
    case FinalState => s' == s.(h := s.h.(k := s.h.k.(life := Stopped)), waiter := Finished)
    case _ => false
  }

  predicate WaitStep(c: Config, s: State, s': State, move: Move) {
    if s.waiter.Completing? then CompleteStep(c, s, s', s.waiter.pc, move) else WaitAloneStep(s, s')
  }

  predicate NextStep(c: Config, s: State, s': State, step: Step) {
    match step
    case WorkerPop => WorkerPopStep(s, s')
    case WorkerRun(move) => WorkerRunStep(c, s, s', move)
    case WorkerExit =>
      && s.worker.Away? && s.h.k.shutdownRequested
      && s' == s.(h := s.h.(k := s.h.k.(workerExited := true)))
    case Foreign(n) => s' == s.(h := s.h.(k := s.h.k.(ready := s.h.k.ready + [Other(n)])))
    case StartFilter(f) =>  // accept and reject calls of on_start()
      s.creator.Activating? && s' == s.(h := s.h.(filter := f))
    case RequestShutdown => s' == s.(h := s.h.(k := s.h.k.(shutdownRequested := true)))
    case Create => CreateStep(s, s')
    case BeginEnqueue(t, m) =>
      && t !in s.producers && m !in s.h.l.begun
      && s' == s.(h := s.h.(l := s.h.l.(begun := s.h.l.begun + {m})),
                  producers := s.producers[t := CheckState(m)])
    case Produce(t, fails) => ProduceStep(s, s', t, fails)
    case BeginStop(t, discard) =>
      && t !in s.stoppers && (s.creator.Activated? || c.earlyStop) && s.waiter.NotWaiting?
      && s' == s.(stoppers := s.stoppers[t := CheckRunning(discard)], modes := s.modes[t := discard])
    case Stop(t) => StopStep(s, s', t)
    case BeginWait =>
      && s.waiter.NotWaiting? && s.creator.Activated? && s.stoppers == map[]
      && s' == s.(waiter := Joining)
    case Wait(move) => WaitStep(c, s, s', move)
  }

  ghost predicate Next(c: Config, s: State, s': State) {
    exists step :: NextStep(c, s, s', step)
  }

  function Initial(): State {
    State(Shared(Control(Open, NoStop, Running, false, Nobody, true, false, false, [], 0, 0, WithCreator),
                 Queues([], [], [], []),
                 Ledger({}, multiset{}, multiset{}, multiset{}, multiset{}),
                 Stash.Filter(true, {})),
          Away, 0, NotWaiting, Activating, map[], map[], map[], None)
  }

  ghost predicate StepAt(c: Config, run: seq<State>, i: nat)
    requires i + 1 < |run|
  {
    Next(c, run[i], run[i + 1])
  }

  ghost predicate IsRun(c: Config, run: seq<State>) {
    && run != [] && run[0] == Initial()
    && forall i :: 0 <= i < |run| - 1 ==> StepAt(c, run, i)
  }

  ghost predicate Reachable(c: Config, s: State) {
    exists run: seq<State> :: IsRun(c, run) && run[|run| - 1] == s
  }
}
