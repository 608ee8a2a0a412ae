/** A stateful actor that goes idle holds no message that its filter accepts: has_messages() counts
    those, and nothing changes the stash or the filter while the actor is not executed. */
module ActorStash {
  import opened Common
  import opened ActorProtocol
  import opened ActorInvariant
  import opened ActorControl
  import opened ActorTheorems

  predicate StashInv(c: Config, s: State) {
    && (!s.creator.Activated? ==> s.h.q.held == [])
    && (c.stateful && (s.h.k.word.Blocked? || s.worker.TryBlock?) ==> NoneAccepted(s.h))
  }

  lemma TurnKeepsStash(c: Config, s: State, s': State, move: Move)
    requires TokenInv(s) && StashInv(c, s) && TurnMoved(c, s, s', move)
    ensures StashInv(c, s')
  {
  }

  /** An executing thread has the mailbox open or has closed it, and leaves it so. */
  lemma ServiceKeepsStash(c: Config, s: State, s': State)
    requires TokenInv(s) && WordInv(s) && InService(s.worker) && WorkerMoved(s, s')
    requires ServiceEffect(s.h.k, s'.h.k, Worker, s.worker, s'.worker)
    ensures StashInv(c, s')
  {
  }

  lemma ProcessKeepsStash(c: Config, s: State, s': State)
    requires TokenInv(s) && WordInv(s) && IsProcessing(s.worker) && WorkerMoved(s, s')
    requires ProcessEffect(s.h.k, s'.h.k, Worker, s.worker, s'.worker)
    ensures StashInv(c, s')
  {
  }

  lemma WorkerKeepsStash(c: Config, s: State, s': State, move: Move)
    requires TokenInv(s) && WordInv(s) && StashInv(c, s) && WorkerRunStep(c, s, s', move)
    ensures StashInv(c, s')
  {
    if InService(s.worker) {
      ServiceHasEffect(s.h, Worker, s.worker, move);
      ServiceKeepsStash(c, s, s');
    } else if IsProcessing(s.worker) {
      ProcessHasEffect(c, s.h, Worker, s.worker, move);
      ProcessKeepsStash(c, s, s');
    } else {
      TurnKeepsStash(c, s, s', move);
    }
  }

  lemma CompletingKeepsStash(c: Config, s: State, s': State, pc': Exec)
    requires WordInv(s) && PhaseInv(s) && StopperInv(s) && WaiterMoved(s, s', pc') && Holds(s.waiter.pc)
    requires || ServiceEffect(s.h.k, s'.h.k, Waiter, s.waiter.pc, pc')
             || ProcessEffect(s.h.k, s'.h.k, Waiter, s.waiter.pc, pc')
    ensures StashInv(c, s')
  {
  }

  lemma WaiterKeepsStash(c: Config, s: State, s': State, move: Move)
    requires WordInv(s) && PhaseInv(s) && StopperInv(s) && StashInv(c, s) && WaitStep(c, s, s', move)
    ensures StashInv(c, s')
  {
    if s.waiter.Completing? {
      var pc := s.waiter.pc;
      if InService(pc) {
        ServiceHasEffect(s.h, Waiter, pc, move);
        CompletingKeepsStash(c, s, s', ServiceStep(s.h, Waiter, pc, move).value.1);
      } else {
        ProcessHasEffect(c, s.h, Waiter, pc, move);
        CompletingKeepsStash(c, s, s', ProcessStep(c, s.h, Waiter, pc, move).value.1);
      }
    }
  }

  lemma ProduceToLeavesStash(h: Shared, t: Tid, pc: Producer, fails: bool)
    ensures var h' := ProduceTo(h, t, pc, fails).0;
            h'.q.held == h.q.held && h'.filter == h.filter && (h'.k.word.Blocked? ==> h.k.word.Blocked?)
  {
  }

  lemma StopToLeavesStash(k: Control, t: Tid, pc: Stopper)
    ensures StopTo(k, t, pc).0.word.Blocked? ==> k.word.Blocked?
  {
  }

  lemma OtherKeepsStash(c: Config, s: State, s': State, step: Step)
    requires TokenInv(s) && StashInv(c, s) && NextStep(c, s, s', step)
    requires step.WorkerPop? || step.Create? || IsOther(step)
    ensures StashInv(c, s')
  {
  }

  lemma NextKeepsStash(c: Config, s: State, s': State, step: Step)
    requires TokenInv(s) && WordInv(s) && StopperInv(s) && PhaseInv(s) && StashInv(c, s) && NextStep(c, s, s', step)
    ensures StashInv(c, s')
  {
    match step
    case WorkerRun(move) => WorkerKeepsStash(c, s, s', move);
    case Wait(move) => WaiterKeepsStash(c, s, s', move);
    case Produce(t, fails) => ProduceToLeavesStash(s.h, t, s.producers[t], fails);
    case Stop(t) => StopToLeavesStash(s.h.k, t, s.stoppers[t]);
    case _ => OtherKeepsStash(c, s, s', step);
  }

  lemma {:induction false} StashOnRun(c: Config, run: seq<State>, i: nat)
    requires !c.earlyStop && IsRun(c, run) && i < |run|
    ensures StashInv(c, run[i])
  {
    if i > 0 {
      StashOnRun(c, run, i - 1);
      InvOnRun(c, run, i - 1);
      assert StepAt(c, run, i - 1);
      var step :| NextStep(c, run[i - 1], run[i], step);
      NextKeepsStash(c, run[i - 1], run[i], step);
    }
  }

  /** No held message that the current filter accepts waits while the actor is idle. */
  lemma NoAcceptedMessageWaits(c: Config, s: State, i: nat)
    requires !c.earlyStop && Reachable(c, s) && c.stateful && s.h.k.word.Blocked? && i < |s.h.q.held|
    ensures !Accepts(s.h.filter, s.h.q.held[i])
  {
    var run: seq<State> :| IsRun(c, run) && run[|run| - 1] == s;
    StashOnRun(c, run, |run| - 1);
  }
}
