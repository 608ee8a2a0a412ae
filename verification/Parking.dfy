/** The parking handshake of one worker: park_worker against wake_worker and shutdown().

    The worker announces itself in `sleeping`, then looks at its queue and at the shutdown flag
    under its mutex before it waits. A producer looks at `sleeping` after it has pushed. */
module Parking {

  type Tid = nat

  datatype WorkerPc =
    | Working
    | SetSleeping
    | LockToPark
    | TestReady(timedOut: bool)
    | TestShutdown(timedOut: bool)
    | AboutToWait
    | Waiting
    | Relock(timedOut: bool)
    | Unlock
    | ClearSleeping

  /** push then wake_worker; or, for the thread in shutdown(), set the flag, lock, unlock, notify. */
  datatype ThreadPc =
    | Push
    | LoadSleeping
    | LockToWake
    | NotifyHolding
    | SetShutdown
    | LockForShutdown
    | UnlockForShutdown
    | NotifyAll

  datatype Mutex = Free | HeldByWorker | HeldBy(t: Tid)

  datatype State = State(
    ready: nat,
    shutdown: bool,
    sleeping: bool,
    mutex: Mutex,
    worker: WorkerPc,
    threads: map<Tid, ThreadPc>
  )

  datatype Step =
    | WorkerGo
    | WorkerPop
    | WorkerRequeue
    | WorkerPark
    | Timeout
    | Spurious
    | Begin(t: Tid, pc: ThreadPc)
    | Run(t: Tid)

  /** notify_one / notify_all: a waiting worker goes on to re-acquire its mutex. */
  function Notified(w: WorkerPc): WorkerPc {
    if w.Waiting? then Relock(false) else w
  }

  predicate WorkerStep(s: State, s': State) {
    match s.worker
    case Working => false
    case SetSleeping => s' == s.(sleeping := true, worker := LockToPark)
    case LockToPark => s.mutex.Free? && s' == s.(mutex := HeldByWorker, worker := TestReady(false))
    case TestReady(timedOut) => s' == s.(worker := if s.ready > 0 then Unlock else TestShutdown(timedOut))
    case TestShutdown(timedOut) =>
      s' == s.(worker := if s.shutdown || timedOut then Unlock else AboutToWait)
    case AboutToWait => s' == s.(mutex := Free, worker := Waiting)
    case Waiting => false
    case Relock(timedOut) => s.mutex.Free? && s' == s.(mutex := HeldByWorker, worker := TestReady(timedOut))
    case Unlock => s' == s.(mutex := Free, worker := ClearSleeping)
    case ClearSleeping => s' == s.(sleeping := false, worker := Working)
  }

  predicate ThreadStep(s: State, s': State, t: Tid) {
    && t in s.threads
    && match s.threads[t]
       case Push => s' == s.(ready := s.ready + 1, threads := s.threads[t := LoadSleeping])
       case LoadSleeping =>
         s' == s.(threads := if s.sleeping then s.threads[t := LockToWake] else s.threads - {t})
       case LockToWake =>
         s.mutex.Free? && s' == s.(mutex := HeldBy(t), threads := s.threads[t := NotifyHolding])
       case NotifyHolding =>
         s' == s.(worker := Notified(s.worker), mutex := Free, threads := s.threads - {t})
       case SetShutdown => s' == s.(shutdown := true, threads := s.threads[t := LockForShutdown])
       case LockForShutdown =>
         s.mutex.Free? && s' == s.(mutex := HeldBy(t), threads := s.threads[t := UnlockForShutdown])
       case UnlockForShutdown => s' == s.(mutex := Free, threads := s.threads[t := NotifyAll])
       case NotifyAll => s' == s.(worker := Notified(s.worker), threads := s.threads - {t})
  }

  predicate NextStep(s: State, s': State, step: Step) {
    match step
    case WorkerGo => WorkerStep(s, s')
    case WorkerPop => s.worker.Working? && s.ready > 0 && s' == s.(ready := s.ready - 1)
    case WorkerRequeue => s.worker.Working? && s' == s.(ready := s.ready + 1)
    case WorkerPark => s.worker.Working? && s' == s.(worker := SetSleeping)
    case Timeout => s.worker.Waiting? && s' == s.(worker := Relock(true))
    case Spurious => s.worker.Waiting? && s' == s.(worker := Relock(false))
    case Begin(t, pc) =>
      t !in s.threads && (pc.Push? || pc.SetShutdown?) && s' == s.(threads := s.threads[t := pc])
    case Run(t) => ThreadStep(s, s', t)
  }

  ghost predicate Next(s: State, s': State) {
    exists step :: NextStep(s, s', step)
  }

  function Initial(): State {
    State(0, false, false, Free, Working, map[])
  }

  ghost predicate IsRun(run: seq<State>) {
    && run != [] && run[0] == Initial()
    && forall i :: 0 <= i < |run| - 1 ==> Next(run[i], run[i + 1])
  }

  // ---------------------------------------------------------------- invariant

  predicate WorkerInside(w: WorkerPc) {
    w.TestReady? || w.TestShutdown? || w.AboutToWait? || w.Unlock?
  }

  predicate Inside(p: ThreadPc) {
    p.NotifyHolding? || p.UnlockForShutdown?
  }

  predicate MutexInv(s: State) {
    && (s.mutex.HeldByWorker? <==> WorkerInside(s.worker))
    && (forall t :: t in s.threads && Inside(s.threads[t]) ==> s.mutex == HeldBy(t))
    && (s.mutex.HeldBy? ==> s.mutex.t in s.threads && Inside(s.threads[s.mutex.t]))
    && (s.sleeping <==> !s.worker.Working? && !s.worker.SetSleeping?)
  }

  /** A thread that has pushed and whose notify is still to come. */
  predicate OwesWake(p: ThreadPc) {
    p.LoadSleeping? || p.LockToWake? || p.NotifyHolding?
  }

  predicate OwesShutdown(p: ThreadPc) {
    p.LockForShutdown? || p.UnlockForShutdown? || p.NotifyAll?
  }

  ghost predicate WakePending(s: State) {
    exists t :: t in s.threads && OwesWake(s.threads[t])
  }

  /** While the worker holds its mutex, only a thread that has not locked yet counts. */
  ghost predicate ShutdownPending(s: State) {
    exists t :: t in s.threads && (if s.worker.AboutToWait? then s.threads[t].LockForShutdown?
                                   else OwesShutdown(s.threads[t]))
  }

  ghost predicate PendingInv(s: State) {
    && (s.worker.TestShutdown? || s.worker.AboutToWait? || s.worker.Waiting? ==>
          s.ready > 0 ==> WakePending(s))
    && (s.worker.AboutToWait? || s.worker.Waiting? ==> s.shutdown ==> ShutdownPending(s))
  }

  ghost predicate Inv(s: State) {
    MutexInv(s) && PendingInv(s)
  }

  lemma ThreadKeepsMutex(s: State, s': State, t: Tid)
    requires MutexInv(s) && ThreadStep(s, s', t)
    ensures MutexInv(s')
  {
  }

  lemma ThreadKeepsPending(s: State, s': State, t: Tid)
    requires Inv(s) && ThreadStep(s, s', t)
    ensures PendingInv(s')
  {
    if (s'.worker.TestShutdown? || s'.worker.AboutToWait? || s'.worker.Waiting?) && s'.ready > 0 {
      if s.threads[t].Push? {
        assert OwesWake(s'.threads[t]);
      } else {
        var u :| u in s.threads && OwesWake(s.threads[u]);
        assert u in s'.threads && OwesWake(s'.threads[u]);
      }
    }
    if (s'.worker.AboutToWait? || s'.worker.Waiting?) && s'.shutdown {
      if s.threads[t].SetShutdown? {
        assert s'.threads[t].LockForShutdown?;
      } else {
        var u :| u in s.threads && (if s.worker.AboutToWait? then s.threads[u].LockForShutdown?
                                    else OwesShutdown(s.threads[u]));
        assert u in s'.threads && OwesShutdown(s'.threads[u]);
      }
    }
  }

  lemma WorkerKeepsInv(s: State, s': State)
    requires Inv(s) && WorkerStep(s, s')
    ensures Inv(s')
  {
    assert WakePending(s) ==> WakePending(s');
    if s.worker.AboutToWait? && s.shutdown {
      var u :| u in s.threads && s.threads[u].LockForShutdown?;
      assert u in s'.threads && OwesShutdown(s'.threads[u]);
    }
  }

  lemma NextKeepsInv(s: State, s': State, step: Step)
    requires Inv(s) && NextStep(s, s', step)
    ensures Inv(s')
  {
    match step
    case WorkerGo => WorkerKeepsInv(s, s');
    case Run(t) =>
      ThreadKeepsMutex(s, s', t);
      ThreadKeepsPending(s, s', t);
    case Begin(t, pc) =>
      if WakePending(s) {
        var u :| u in s.threads && OwesWake(s.threads[u]);
        assert OwesWake(s'.threads[u]);
      }
      if ShutdownPending(s) {
        var u :| u in s.threads && (if s.worker.AboutToWait? then s.threads[u].LockForShutdown?
                                    else OwesShutdown(s.threads[u]));
        assert u in s'.threads && s'.threads[u] == s.threads[u];
      }
    case _ =>
  }

  lemma {:induction false} InvOnRun(run: seq<State>, i: nat)
    requires IsRun(run) && i < |run|
    ensures Inv(run[i])
  {
    if i > 0 {
      InvOnRun(run, i - 1);
      assert Next(run[i - 1], run[i - 1 + 1]);
      var step :| NextStep(run[i - 1], run[i], step);
      NextKeepsInv(run[i - 1], run[i], step);
    }
  }

  // ---------------------------------------------------------------- theorems

  /** The worker never sleeps on work or on a shutdown request that nobody is about to signal, so
      the 100 ms timeout is never what saves it. */
  lemma NoLostWakeup(run: seq<State>, i: nat)
    requires IsRun(run) && i < |run| && run[i].worker.Waiting?
    ensures run[i].sleeping
    ensures run[i].ready > 0 ==> exists t :: t in run[i].threads && OwesWake(run[i].threads[t])
    ensures run[i].shutdown ==> exists t :: t in run[i].threads && OwesShutdown(run[i].threads[t])
  {
    InvOnRun(run, i);
  }

  function Distance(p: ThreadPc): nat {
    match p
    case LoadSleeping => 3
    case LockToWake => 2
    case NotifyHolding => 1
    case LockForShutdown => 3
    case UnlockForShutdown => 2
    case NotifyAll => 1
    case _ => 4
  }

  /** Such a thread is not stuck either: one of them can step now, and its step either wakes the
      worker or brings its own notify nearer. */
  lemma WakeupProgresses(run: seq<State>, i: nat) returns (t: Tid, s': State)
    requires IsRun(run) && i < |run| && run[i].worker.Waiting?
    requires run[i].ready > 0 || run[i].shutdown
    ensures ThreadStep(run[i], s', t) && (OwesWake(run[i].threads[t]) || OwesShutdown(run[i].threads[t]))
    ensures || s'.worker == Relock(false)
            || (s'.worker.Waiting? && t in s'.threads && Distance(s'.threads[t]) < Distance(run[i].threads[t]))
  {
    var s := run[i];
    InvOnRun(run, i);
    if s.mutex.HeldBy? {
      t := s.mutex.t;
    } else if s.ready > 0 {
      t :| t in s.threads && OwesWake(s.threads[t]);
    } else {
      t :| t in s.threads && OwesShutdown(s.threads[t]);
    }
    match s.threads[t]
    case LoadSleeping => s' := s.(threads := s.threads[t := LockToWake]);
    case LockToWake => s' := s.(mutex := HeldBy(t), threads := s.threads[t := NotifyHolding]);
    case NotifyHolding => s' := s.(worker := Relock(false), mutex := Free, threads := s.threads - {t});
    case LockForShutdown => s' := s.(mutex := HeldBy(t), threads := s.threads[t := UnlockForShutdown]);
    case UnlockForShutdown => s' := s.(mutex := Free, threads := s.threads[t := NotifyAll]);
    case NotifyAll => s' := s.(worker := Relock(false), threads := s.threads - {t});
  }

  /** A worker that has parked leaves the mutex to at most one thread at a time. */
  lemma MutexExcludes(run: seq<State>, i: nat, t: Tid, u: Tid)
    requires IsRun(run) && i < |run|
    requires t in run[i].threads && Inside(run[i].threads[t])
    ensures !WorkerInside(run[i].worker)
    ensures u in run[i].threads && Inside(run[i].threads[u]) ==> u == t
  {
    InvOnRun(run, i);
  }

  function StepsToWork(w: WorkerPc): nat {
    match w
    case Relock(_) => 5
    case TestReady(_) => 4
    case TestShutdown(_) => 3
    case Unlock => 2
    case ClearSleeping => 1
    case _ => 0
  }

  /** A worker that was woken, finds its mutex free and has work or a shutdown to see goes back to work by
      its own steps, and is no longer marked as sleeping. */
  lemma {:induction false} WokenWorkerWorks(s: State) returns (steps: seq<State>)
    requires MutexInv(s) && StepsToWork(s.worker) > 0 && (s.worker.Relock? ==> s.mutex.Free?)
    requires s.ready > 0 || s.shutdown
    requires s.worker.TestShutdown? ==> s.shutdown
    ensures steps != [] && steps[0] == s
    ensures forall i :: 0 <= i < |steps| - 1 ==> WorkerStep(steps[i], steps[i + 1])
    ensures var last := steps[|steps| - 1];
            last.worker.Working? && !last.sleeping && !last.mutex.HeldByWorker? && last.ready == s.ready
    decreases StepsToWork(s.worker)
  {
    var next := match s.worker
      case Relock(timedOut) => s.(mutex := HeldByWorker, worker := TestReady(timedOut))
      case TestReady(timedOut) => s.(worker := if s.ready > 0 then Unlock else TestShutdown(timedOut))
      case TestShutdown(_) => s.(worker := Unlock)
      case Unlock => s.(mutex := Free, worker := ClearSleeping)
      case _ => s.(sleeping := false, worker := Working);
    assert WorkerStep(s, next);
    if next.worker.Working? {
      steps := [s, next];
    } else {
      var rest := WokenWorkerWorks(next);
      steps := [s] + rest;
    }
  }

  /** A worker that starts to park with no work and no shutdown to see, and is left alone, waits, marked as
      sleeping and with its mutex released. */
  lemma IdleWorkerSleeps(s: State) returns (steps: seq<State>)
    requires s.worker.SetSleeping? && s.mutex.Free? && s.ready == 0 && !s.shutdown
    ensures steps != [] && steps[0] == s
    ensures forall i :: 0 <= i < |steps| - 1 ==> WorkerStep(steps[i], steps[i + 1])
    ensures steps[|steps| - 1] == s.(sleeping := true, worker := Waiting)
  {
    var s1 := s.(sleeping := true, worker := LockToPark);
    var s2 := s1.(mutex := HeldByWorker, worker := TestReady(false));
    var s3 := s2.(worker := TestShutdown(false));
    var s4 := s3.(worker := AboutToWait);
    var s5 := s4.(mutex := Free, worker := Waiting);
    steps := [s, s1, s2, s3, s4, s5];
  }
}
