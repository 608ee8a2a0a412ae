/** Two promises of the stop protocol that hold only under a condition, with runs that break them
    without it. */
module ActorLimits {
  import opened Common
  import opened ActorProtocol
  import opened ActorInvariant
  import opened ActorControl
  import opened ActorTheorems

  // ---------------------------------------------------------------- stopping before activation

  lemma Start(c: Config)
    ensures Reachable(c, Initial())
  {
    assert IsRun(c, [Initial()]);
  }

  lemma GoStop(c: Config, s: State, s': State, t: Tid)
    requires Reachable(c, s) && StopStep(s, s', t)
    ensures Reachable(c, s')
  {
    Extend(c, s, s', Stop(t));
  }

  lemma GoWork(c: Config, s: State, s': State, move: Move)
    requires Reachable(c, s) && WorkerRunStep(c, s, s', move)
    ensures Reachable(c, s')
  {
    Extend(c, s, s', WorkerRun(move));
  }

  lemma GoProduce(c: Config, s: State, s': State, t: Tid)
    requires Reachable(c, s) && ProduceStep(s, s', t, false)
    ensures Reachable(c, s')
  {
    Extend(c, s, s', Produce(t, false));
  }

  lemma GoWait(c: Config, s: State, s': State)
    requires Reachable(c, s) && WaitStep(c, s, s', Go)
    ensures Reachable(c, s')
  {
    Extend(c, s, s', Wait(Go));
  }

  /** A whole stop_actor() call that finds the actor busy: it claims, requests its mode and returns. */
  lemma StopBusyActor(c: Config, s: State, discard: bool) returns (s': State)
    requires Reachable(c, s) && s.stoppers == map[] && s.waiter.NotWaiting? && (s.creator.Activated? || c.earlyStop)
    requires s.h.k.life.Running? && s.h.k.phase.NoStop? && !s.h.k.word.Blocked?
    ensures Reachable(c, s')
    ensures s' == s.(h := s.h.(k := s.h.k.(phase := Requested, life := Stopping, discard := discard)),
                     modes := s.modes[0 := discard], asked := Some(discard))
  {
    var s1 := s.(stoppers := map[0 := CheckRunning(discard)], modes := s.modes[0 := discard]);
    Extend(c, s, s1, BeginStop(0, discard));
    var s2 := StopOn(c, s1, s1.h.k, Claim(discard));
    var s3 := StopOn(c, s2, s2.h.k.(phase := Claiming), Record(discard));
    s' := StopClaimed(c, s3, discard);
  }

  lemma StopOn(c: Config, s: State, k: Control, pc: Stopper) returns (s': State)
    requires Reachable(c, s) && 0 in s.stoppers && s.stoppers.Keys == {0}
    requires StopTo(s.h.k, 0, s.stoppers[0]) == (k, Some(pc))
    ensures Reachable(c, s')
    ensures s' == s.(h := s.h.(k := k), stoppers := map[0 := pc], asked := if Claims(s, 0) then Some(s.modes[0]) else s.asked)
  {
    assert s.stoppers[0 := pc] == map[0 := pc];
    s' := s.(h := s.h.(k := k), stoppers := map[0 := pc], asked := if Claims(s, 0) then Some(s.modes[0]) else s.asked);
    GoStop(c, s, s', 0);
  }

  lemma StopClaimed(c: Config, s: State, discard: bool) returns (s': State)
    requires Reachable(c, s) && s.stoppers == map[0 := Record(discard)]
    requires s.h.k.life.Running? && !s.h.k.word.Blocked?
    ensures Reachable(c, s')
    ensures s' == s.(h := s.h.(k := s.h.k.(phase := Requested, life := Stopping, discard := discard)), stoppers := map[])
  {
    var s4 := StopOn(c, s, s.h.k.(discard := discard), CasState);
    var s5 := StopOn(c, s4, s4.h.k.(life := Stopping), StoreRequested);
    var s6 := StopOn(c, s5, s5.h.k.(phase := Requested), Unblock);
    s' := s6.(stoppers := map[]);
    GoStop(c, s6, s', 0);
  }

  /** stop_actor() runs to the end while on_start() is still in progress; activate_after_start then
      blocks the mailbox and does not look at the stop phase. */
  lemma EarlyStopStrands(c: Config) returns (s: State)
    requires c.earlyStop
    ensures Reachable(c, s) && Stranded(s) && s.creator.Activated? && s.stoppers == map[]
  {
    Start(c);
    var s1 := StopBusyActor(c, Initial(), false);
    s := s1.(h := s1.h.(k := s1.h.k.(word := Blocked, token := Idle)), creator := Activated);
    Extend(c, s1, s, Create);
  }

  /** No reachable state strands the actor exactly when stops wait for activation. */
  lemma StrandedIffStoppedEarly(c: Config)
    ensures (forall s :: Reachable(c, s) ==> !Stranded(s)) <==> !c.earlyStop
  {
    if c.earlyStop {
      var s := EarlyStopStrands(c);
    } else {
      forall s | Reachable(c, s) ensures !Stranded(s) {
        NothingStranded(c, s);
      }
    }
  }

  // ---------------------------------------------------------------- stops left to wait_for_shutdown

  /** The worker cannot put the actor down in the middle of a drain. */
  predicate NoPause(c: Config, k: Control) {
    c.budget == 0 || k.discard
  }

  /** What the worker may be doing once it carries out a stop. */
  predicate DrainerInv(c: Config, s: State) {
    && (c.budget == 0 ==> !s.worker.Requeue?)
    && (s.worker.DrainBudget? ==> s.h.k.executor == By(Worker) && !s.h.k.discard)
    && (s.h.k.executor == By(Worker) && !s.h.k.token.Gone? ==>
          && !(s.worker.Budget? || s.worker.Poll? || s.worker.TryBlock? || s.worker.Recheck? || s.worker.TryUnblock?)
          && (s.h.k.discard ==> InService(s.worker) && !s.worker.Service?)
          && (c.budget == 0 ==> !s.worker.Away?))
  }

  /** wait_for_shutdown() is past completing the pending stops. */
  predicate PastCompleting(w: WaitPc) {
    w.Snapshot? || w.FinalHook? || w.FinalState? || w.Finished?
  }

  predicate CompletedInv(c: Config, s: State) {
    s.h.k.phase.Requested? && NoPause(c, s.h.k) && PastCompleting(s.waiter) ==> StoppedForGood(s)
  }

  predicate PauseInv(c: Config, s: State) {
    DrainerInv(c, s) && CompletedInv(c, s)
  }

  lemma ServiceKeepsDrainer(c: Config, s: State, s': State)
    requires PhaseInv(s) && DrainerInv(c, s) && InService(s.worker) && WorkerMoved(s, s')
    requires ServiceEffect(s.h.k, s'.h.k, Worker, s.worker, s'.worker)
    ensures DrainerInv(c, s')
  {
  }

  lemma ProcessKeepsDrainer(c: Config, s: State, s': State)
    requires PhaseInv(s) && DrainerInv(c, s) && IsProcessing(s.worker) && WorkerMoved(s, s')
    requires ProcessEffect(s.h.k, s'.h.k, Worker, s.worker, s'.worker)
    ensures DrainerInv(c, s')
  {
  }

  lemma TurnKeepsDrainer(c: Config, s: State, s': State, move: Move)
    requires PhaseInv(s) && DrainerInv(c, s) && TurnMoved(c, s, s', move)
    ensures DrainerInv(c, s')
  {
    TurnHasEffect(c, s.h, s.worker, s.handled, move);
  }

  /** While the worker runs, wait_for_shutdown() is still joining it. */
  lemma WorkerKeepsPause(c: Config, s: State, s': State, move: Move)
    requires PhaseInv(s) && PauseInv(c, s) && WorkerRunStep(c, s, s', move)
    ensures PauseInv(c, s')
  {
    if InService(s.worker) {
      ServiceHasEffect(s.h, Worker, s.worker, move);
      ServiceKeepsDrainer(c, s, s');
    } else if IsProcessing(s.worker) {
      ProcessHasEffect(c, s.h, Worker, s.worker, move);
      ProcessKeepsDrainer(c, s, s');
    } else {
      TurnKeepsDrainer(c, s, s', move);
    }
    assert !s.worker.Away?;
  }

  lemma LateServiceKeepsPause(c: Config, s: State, s': State, pc': Exec)
    requires TokenInv(s) && WordInv(s) && PhaseInv(s) && PauseInv(c, s) && LateStep(s, s', pc')
    ensures PauseInv(c, s')
  {
  }

  lemma WaitOnlyKeepsDrainer(c: Config, s: State, s': State)
    requires DrainerInv(c, s) && WaitAloneStep(s, s')
    ensures DrainerInv(c, s')
  {
    WaitAloneLeaves(s, s');
  }

  lemma WaitOnlyKeepsCompleted(c: Config, s: State, s': State)
    requires WordInv(s) && PhaseInv(s) && HookInv(s) && CompletedInv(c, s) && WaitAloneStep(s, s')
    ensures CompletedInv(c, s')
  {
  }

  lemma WaiterKeepsPause(c: Config, s: State, s': State, move: Move)
    requires ControlInv(s) && PauseInv(c, s) && WaitStep(c, s, s', move)
    ensures PauseInv(c, s')
  {
    if s.waiter.Completing? && InService(s.waiter.pc) {
      ServiceHasEffect(s.h, Waiter, s.waiter.pc, move);
      assert Late(s);
      LateServiceKeepsPause(c, s, s', ServiceStep(s.h, Waiter, s.waiter.pc, move).value.1);
    } else if s.waiter.Completing? {
      ProcessHasEffect(c, s.h, Waiter, s.waiter.pc, move);
      LateProcessIsQuiet(s, s', ProcessStep(c, s.h, Waiter, s.waiter.pc, move).value.1);
    } else {
      WaitOnlyKeepsDrainer(c, s, s');
      WaitOnlyKeepsCompleted(c, s, s');
    }
  }

  lemma StopKeepsPause(c: Config, s: State, s': State, t: Tid)
    requires TokenInv(s) && StopperInv(s) && ExecutorInv(s) && PauseInv(c, s) && StopStep(s, s', t)
    ensures PauseInv(c, s')
  {
  }

  lemma PopKeepsPause(c: Config, s: State, s': State)
    requires TokenInv(s) && PhaseInv(s) && PauseInv(c, s) && WorkerPopStep(s, s')
    ensures PauseInv(c, s')
  {
    PopLeaves(s.h.k.ready);
  }

  lemma QuietKeepsPause(c: Config, s: State, s': State)
    requires WordInv(s) && PauseInv(c, s) && Quiet(s, s')
    ensures PauseInv(c, s')
  {
  }

  lemma CreateKeepsPause(c: Config, s: State, s': State)
    requires TokenInv(s) && PhaseInv(s) && StopperInv(s) && PauseInv(c, s) && CreateStep(s, s')
    ensures PauseInv(c, s')
  {
  }

  lemma ExitKeepsPause(c: Config, s: State, s': State)
    requires PauseInv(c, s) && NextStep(c, s, s', WorkerExit)
    ensures PauseInv(c, s')
  {
  }

  lemma BeginKeepsPause(c: Config, s: State, s': State, step: Step)
    requires PauseInv(c, s) && NextStep(c, s, s', step) && (step.BeginStop? || step.BeginWait?)
    ensures PauseInv(c, s')
  {
  }

  lemma NextKeepsPause(c: Config, s: State, s': State, step: Step)
    requires !c.earlyStop && ControlInv(s) && PauseInv(c, s) && NextStep(c, s, s', step)
    ensures PauseInv(c, s')
  {
    match step
    case WorkerPop => PopKeepsPause(c, s, s');
    case WorkerRun(move) => WorkerKeepsPause(c, s, s', move);
    case Produce(t, fails) =>
      ProduceIsQuiet(s.h, t, s.producers[t], fails);
      QuietKeepsPause(c, s, s');
    case Wait(move) => WaiterKeepsPause(c, s, s', move);
    case Stop(t) => StopKeepsPause(c, s, s', t);
    case Create => CreateKeepsPause(c, s, s');
    case WorkerExit => ExitKeepsPause(c, s, s');
    case _ =>
      if IsQuiet(step) {
        QuietKeepsToken(c, s, s', step);
        QuietKeepsPause(c, s, s');
      } else {
        BeginKeepsPause(c, s, s', step);
      }
  }

  lemma {:induction false} PauseOnRun(c: Config, run: seq<State>, i: nat)
    requires !c.earlyStop && IsRun(c, run) && i < |run|
    ensures PauseInv(c, run[i])
  {
    if i > 0 {
      PauseOnRun(c, run, i - 1);
      InvOnRun(c, run, i - 1);
      assert StepAt(c, run, i - 1);
      var step :| NextStep(c, run[i - 1], run[i], step);
      NextKeepsPause(c, run[i - 1], run[i], step);
    }
  }

  /** A stop in discard mode, or with unlimited turns, is always carried out completely. */
  lemma PendingStopCompleted(c: Config, s: State)
    requires !c.earlyStop && Reachable(c, s) && s.waiter.Finished?
    requires s.h.k.phase.Requested? && NoPause(c, s.h.k)
    ensures StoppedForGood(s) && s.h.k.onShutdown == 1
  {
    var run: seq<State> :| IsRun(c, run) && run[|run| - 1] == s;
    PauseOnRun(c, run, |run| - 1);
    WaitedActorIsStopped(c, s);
  }

  // ---------------------------------------------------------------- a drain that is never resumed

  /** The worker is at the top of its loop after handling n messages of this turn; one more
      message, a call, waits in the stack; nothing else is going on. */
  ghost predicate Busy(s: State, n: nat) {
    && s.worker.LoopTop? && s.handled == n
    && s.h.k == Initial().h.k.(token := Executing)
    && |s.h.q.stack| == 1 && s.h.q.stack[0].kind.Call?
    && CachesEmpty(s.h.q) && s.h.q.held == []
    && (forall m :: m in s.h.l.begun ==> m.id <= n)
    && s.waiter.NotWaiting? && s.creator.Activated? && s.producers == map[] && s.stoppers == map[]
  }

  lemma FirstTurn(c: Config) returns (s: State)
    ensures Reachable(c, s) && Busy(s, 0)
  {
    Start(c);
    var m := Message(0, Call, 0);
    var s0 := Initial();
    var s1 := s0.(h := s0.h.(k := s0.h.k.(word := Blocked, token := Idle)), creator := Activated);
    Extend(c, s0, s1, Create);
    var s2 := s1.(h := s1.h.(l := s1.h.l.(begun := {m})), producers := map[0 := CheckState(m)]);
    assert s2.h.l.begun == s1.h.l.begun + {m};
    Extend(c, s1, s2, BeginEnqueue(0, m));
    var s3 := s2.(producers := map[0 := LoadWord(m)]);
    GoProduce(c, s2, s3, 0);
    var s4 := s3.(producers := map[0 := Cas(m, Blocked)]);
    GoProduce(c, s3, s4, 0);
    s := FirstPush(c, s4, m);
  }

  lemma FirstPush(c: Config, s4: State, m: Message) returns (s: State)
    requires Reachable(c, s4) && s4.producers == map[0 := Cas(m, Blocked)] && m.kind.Call? && m.id == 0
    requires s4.h.k == Initial().h.k.(word := Blocked, token := Idle)
    requires s4.h.q == Queues([], [], [], []) && s4.h.l.begun == {m}
    requires s4.worker.Away? && s4.waiter.NotWaiting? && s4.creator.Activated? && s4.stoppers == map[]
    ensures Reachable(c, s) && Busy(s, 0)
  {
    var pushed := Pushed(s4.h, m);
    var s5 := s4.(h := pushed.(k := pushed.k.(token := WithProducer(0))), producers := map[0 := Schedule]);
    GoProduce(c, s4, s5, 0);
    var s6 := s5.(h := Enqueued(s5.h), producers := map[]);
    GoProduce(c, s5, s6, 0);
    var s7 := s6.(h := s6.h.(k := s6.h.k.(ready := [], token := Executing)), worker := Enter);
    assert s6.h.k.ready == [Me] && s6.h.k.ready[1..] == [];
    Extend(c, s6, s7, WorkerPop);
    s := s7.(worker := LoopTop, handled := 0);
    GoWork(c, s7, s, Move.Go);
  }

  /** The worker handles the waiting call. */
  lemma HandleOne(c: Config, s: State, n: nat) returns (s': State)
    requires Reachable(c, s) && Busy(s, n) && (c.budget == 0 || n < c.budget)
    ensures Reachable(c, s')
    ensures s' == s.(h := s'.h, handled := n + 1)
    ensures s'.h.k == s.h.k && s'.h.q == Queues([], [], [], []) && s'.h.l.begun == s.h.l.begun
  {
    var m := s.h.q.stack[0];
    var s1 := s.(worker := Budget);
    GoWork(c, s, s1, Move.Go);
    var s2 := s1.(worker := Poll);
    GoWork(c, s1, s2, Move.Go);
    var s3 := s2.(worker := Process, handled := n + 1);
    GoWork(c, s2, s3, Yes);
    assert s.h.q.stack == [m];
    s' := TakeOne(c, s3, m);
  }

  lemma TakeOne(c: Config, s3: State, m: Message) returns (s': State)
    requires Reachable(c, s3) && s3.worker.Process? && s3.h.q == Queues([m], [], [], []) && m.kind.Call?
    requires s3.h.k.word.Open?
    ensures Reachable(c, s')
    ensures s' == s3.(h := s'.h, worker := LoopTop)
    ensures s'.h.k == s3.h.k && s'.h.q == Queues([], [], [], []) && s'.h.l.begun == s3.h.l.begun
  {
    var s4 := FetchOne(c, s3, m);
    var s5 := TakeFetched(c, s4, m);
    s' := s5.(h := s5.h.(l := s5.h.l.(dispatched := s5.h.l.dispatched + multiset{m})), worker := LoopTop);
    GoWork(c, s5, s', Move.Go);
  }

  lemma FetchOne(c: Config, s: State, m: Message) returns (s': State)
    requires Reachable(c, s) && s.worker.Process? && s.h.q == Queues([m], [], [], []) && m.kind.Call?
    requires s.h.k.word.Open?
    ensures Reachable(c, s') && s' == s.(h := s.h.(q := Queues([], [m], [], [])))
  {
    assert [m][1..] == [];
    assert OfKind([m][1..], true) == [] && OfKind([m][1..], false) == [];
    assert OfKind([m], true) == [m] && OfKind([m], false) == [];
    s' := s.(h := s.h.(q := Queues([], [m], [], [])));
    assert FetchMore(s.h) == s'.h;
    GoWork(c, s, s', Fetch);
  }

  lemma TakeFetched(c: Config, s: State, m: Message) returns (s': State)
    requires Reachable(c, s) && s.worker.Process? && s.h.q == Queues([], [m], [], []) && m.kind.Call?
    ensures Reachable(c, s') && s' == s.(h := s.h.(q := Queues([], [], [], [])), worker := Dispatch(m))
  {
    assert [m][1..] == [];
    s' := s.(h := s.h.(q := Queues([], [], [], [])), worker := Dispatch(m));
    assert DropFront(s.h.q) == s'.h.q && FrontMessage(s.h.q) == m;
    GoWork(c, s, s', Front);
  }

  /** A producer pushes the next call onto the unblocked mailbox. */
  lemma PushOne(c: Config, s: State, n: nat) returns (s': State)
    requires Reachable(c, s) && s.producers == map[] && s.h.k.life.Running? && s.h.k.word.Open?
    requires s.h.q == Queues([], [], [], []) && (forall m :: m in s.h.l.begun ==> m.id < n)
    ensures Reachable(c, s')
    ensures s' == s.(h := s'.h) && s'.h.k == s.h.k
    ensures s'.h.q == Queues([Message(n, Call, 0)], [], [], []) && s'.h.l.begun == s.h.l.begun + {Message(n, Call, 0)}
  {
    var m := Message(n, Call, 0);
    var s1 := s.(h := s.h.(l := s.h.l.(begun := s.h.l.begun + {m})), producers := map[0 := CheckState(m)]);
    Extend(c, s, s1, BeginEnqueue(0, m));
    var s2 := s1.(producers := map[0 := LoadWord(m)]);
    GoProduce(c, s1, s2, 0);
    var s3 := s2.(producers := map[0 := Cas(m, Open)]);
    GoProduce(c, s2, s3, 0);
    s' := s3.(h := Pushed(s3.h, m), producers := map[]);
    GoProduce(c, s3, s', 0);
  }

  lemma {:induction false} BusyTurn(c: Config, n: nat) returns (s: State)
    requires n <= c.budget
    ensures Reachable(c, s) && Busy(s, n)
  {
    if n == 0 {
      s := FirstTurn(c);
    } else {
      var s0 := BusyTurn(c, n - 1);
      var s1 := HandleOne(c, s0, n - 1);
      s := PushOne(c, s1, n);
    }
  }

  /** The worker claims the stop, finds its turn used up, and goes to the back of the queue. */
  lemma PauseDrain(c: Config, s: State, n: nat) returns (s': State)
    requires Reachable(c, s) && c.budget > 0 && n == c.budget && s.handled == n && s.worker.LoopTop?
    requires s.h.k == Initial().h.k.(token := Executing, phase := Requested, life := Stopping)
    ensures Reachable(c, s')
    ensures s' == s.(h := s.h.(k := s.h.k.(executor := By(Worker), ready := [Me], token := Queued)), worker := Away)
  {
    var s1 := s.(worker := Service);
    GoWork(c, s, s1, Move.Go);
    var s2 := s1.(h := s1.h.(k := s1.h.k.(executor := By(Worker))), worker := DrainTest);
    GoWork(c, s1, s2, Move.Go);
    s' := GoToBack(c, s2);
  }

  lemma GoToBack(c: Config, s: State) returns (s': State)
    requires Reachable(c, s) && s.worker.DrainTest? && c.budget > 0 && s.handled >= c.budget
    requires s.h.k.life.Stopping? && !s.h.k.discard
    ensures Reachable(c, s')
    ensures s' == s.(h := s.h.(k := s.h.k.(ready := s.h.k.ready + [Me], token := Queued)), worker := Away)
  {
    var s1 := s.(worker := DrainBudget);
    GoWork(c, s, s1, Yes);
    var s2 := s1.(worker := Requeue);
    GoWork(c, s1, s2, Move.Go);
    s' := s2.(h := s2.h.(k := s2.h.k.(ready := s2.h.k.ready + [Me], token := Queued)), worker := Away);
    GoWork(c, s2, s', Move.Go);
  }

  /** The system is shut down and waited for: service_stop takes the exited worker for a live executor. */
  lemma WaitAbandons(c: Config, s: State) returns (s': State)
    requires Reachable(c, s) && s.worker.Away? && s.waiter.NotWaiting? && s.creator.Activated? && s.stoppers == map[]
    requires s.h.k.phase.Requested? && s.h.k.life.Stopping? && s.h.k.executor == By(Worker) && s.h.k.listed
    ensures Reachable(c, s') && s'.waiter.Finished?
    ensures s'.h.q == s.h.q && s'.h.l == s.h.l && s'.h.k.word == s.h.k.word && s'.h.k.phase.Requested?
    ensures s'.h.k.onShutdown == s.h.k.onShutdown
  {
    var s1 := s.(h := s.h.(k := s.h.k.(shutdownRequested := true)));
    Extend(c, s, s1, RequestShutdown);
    var s2 := s1.(h := s1.h.(k := s1.h.k.(workerExited := true)));
    Extend(c, s1, s2, WorkerExit);
    var s3 := s2.(waiter := Joining);
    Extend(c, s2, s3, BeginWait);
    s' := WaitOut(c, s3);
  }

  lemma WaitOut(c: Config, s3: State) returns (s': State)
    requires Reachable(c, s3) && s3.waiter.Joining? && s3.h.k.workerExited
    requires s3.h.k.phase.Requested? && s3.h.k.life.Stopping? && s3.h.k.executor == By(Worker) && s3.h.k.listed
    ensures Reachable(c, s') && s'.waiter.Finished?
    ensures s'.h.q == s3.h.q && s'.h.l == s3.h.l && s'.h.k.word == s3.h.k.word && s'.h.k.phase.Requested?
    ensures s'.h.k.onShutdown == s3.h.k.onShutdown
  {
    var s4 := s3.(waiter := TestPhase);
    GoWait(c, s3, s4);
    var s5 := s4.(waiter := TestState);
    GoWait(c, s4, s5);
    var s6 := s5.(waiter := Completing(Service));
    GoWait(c, s5, s6);
    var s7 := s6.(waiter := Snapshot);
    GoWait(c, s6, s7);
    var s8 := s7.(waiter := FinalHook);
    GoWait(c, s7, s8);
    var s9 := s8.(h := s8.h.(k := s8.h.k.(onStop := s8.h.k.onStop + 1)), waiter := FinalState);
    GoWait(c, s8, s9);
    s' := s9.(h := s9.h.(k := s9.h.k.(life := Stopped)), waiter := Finished);
    GoWait(c, s9, s');
  }

  /** With a turn limit, a drain that is between turns when the worker exits is never finished: the
      mailbox stays open with a message in it, and on_shutdown has not run. */
  lemma PausedDrainAbandoned(c: Config) returns (s: State)
    requires c.budget > 0
    ensures Reachable(c, s) && s.waiter.Finished? && s.h.k.phase.Requested?
    ensures s.h.k.word.Open? && s.h.q.stack != [] && s.h.k.onShutdown == 0
  {
    var s1 := BusyTurn(c, c.budget);
    var s2 := StopBusyActor(c, s1, false);
    var s3 := PauseDrain(c, s2, c.budget);
    s := WaitAbandons(c, s3);
  }

  /** wait_for_shutdown completes every requested stop exactly when turns are unlimited. */
  lemma PendingStopsCompletedIffUnlimited(c: Config)
    requires !c.earlyStop
    ensures (forall s :: Reachable(c, s) && s.waiter.Finished? && s.h.k.phase.Requested? ==> StoppedForGood(s))
            <==> c.budget == 0
  {
    if c.budget > 0 {
      var s := PausedDrainAbandoned(c);
    } else {
      forall s | Reachable(c, s) && s.waiter.Finished? && s.h.k.phase.Requested? ensures StoppedForGood(s) {
        PendingStopCompleted(c, s);
      }
    }
  }
}
