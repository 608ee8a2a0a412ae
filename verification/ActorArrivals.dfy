/** Which messages an actor accepts, and in which order it takes them. */
module ActorArrivals {
  import opened Common
  import opened ActorProtocol
  import opened ActorInvariant
  import opened ActorControl
  import opened ActorLedger
  import opened ActorTheorems
  import opened ActorStops

  // ---------------------------------------------------------------- refused messages

  /** A producer that saw the closed tag saw what stays. */
  predicate SeenInv(s: State) {
    forall t :: t in s.producers && s.producers[t].Cas? && s.producers[t].seen.Closed? ==> s.h.k.word.Closed?
  }

  lemma ProducersKept(c: Config, s: State, s': State, step: Step)
    requires NextStep(c, s, s', step) && !step.Produce? && !step.BeginEnqueue?
    ensures s'.producers == s.producers
  {
  }

  lemma NextKeepsSeen(c: Config, s: State, s': State, step: Step)
    requires WordInv(s) && PhaseInv(s) && SeenInv(s) && NextStep(c, s, s', step)
    ensures SeenInv(s')
  {
    StepAdvances(c, s, s', step);
    if !step.Produce? && !step.BeginEnqueue? {
      ProducersKept(c, s, s', step);
    } else if step.Produce? {
      ProduceSees(s.h, step.t, s.producers[step.t], step.fails);
    }
  }

  lemma ProduceSees(h: Shared, t: Tid, pc: Producer, fails: bool)
    ensures var r := ProduceTo(h, t, pc, fails);
            r.1.Some? && r.1.value.Cas? && r.1.value.seen.Closed? ==> h.k.word.Closed? && r.0.k.word.Closed?
  {
  }

  lemma {:induction false} SeenOnRun(c: Config, run: seq<State>, i: nat)
    requires !c.earlyStop && IsRun(c, run) && i < |run|
    ensures SeenInv(run[i])
  {
    if i > 0 {
      SeenOnRun(c, run, i - 1);
      InvOnRun(c, run, i - 1);
      assert StepAt(c, run, i - 1);
      var step :| NextStep(c, run[i - 1], run[i], step);
      NextKeepsSeen(c, run[i - 1], run[i], step);
    }
  }

  lemma ProduceRefuses(h: Shared, t: Tid, pc: Producer, fails: bool)
    ensures ProduceTo(h, t, pc, fails).0.l.dead == h.l.dead
            || (pc.CheckState? && !h.k.life.Running?) || (pc.Cas? && pc.seen.Closed?)
  {
  }

  lemma ClosedIsStopping(s: State)
    requires ControlInv(s) && s.h.k.word.Closed?
    ensures !s.h.k.life.Running?
  {
  }

  /** What has not entered is not a dead letter yet, whatever a step does to what has. */
  lemma NotYetDead(s: State, m: Message)
    requires LedgerInv(s) && m !in s.h.l.entered
    ensures m !in s.h.l.dead
  {
    assert Accounted(s, m);
  }

  /** A message is refused only by an actor that is stopping or stopped. */
  lemma RefusedOnlyWhenStopping(c: Config, s: State, s': State, step: Step, m: Message)
    requires !c.earlyStop && Reachable(c, s) && NextStep(c, s, s', step)
    requires m !in s.h.l.entered && m in s'.h.l.dead
    ensures !s.h.k.life.Running?
  {
    ReachableInv(c, s);
    NotYetDead(s, m);
    if step.Produce? {
      var run: seq<State> :| IsRun(c, run) && run[|run| - 1] == s;
      SeenOnRun(c, run, |run| - 1);
      ProduceRefuses(s.h, step.t, s.producers[step.t], step.fails);
      if s.h.k.word.Closed? { ClosedIsStopping(s); }
    } else {
      NextKeepsInv(c, s, s', step);
      OthersEnterNothing(c, s, s', step);
      NotYetDead(s', m);
    }
  }

  lemma OthersEnterNothing(c: Config, s: State, s': State, step: Step)
    requires Inv(s) && NextStep(c, s, s', step) && !step.Produce?
    ensures s'.h.l.entered == s.h.l.entered
  {
    match step
    case WorkerRun(move) => WorkerRunKeepsLedger(c, s, s', move);
    case Wait(move) => WaitKeepsLedger(c, s, s', move);
    case _ => DataUnchanged(c, s, s', step);
  }

  // ---------------------------------------------------------------- messages sent after the stop

  /** m was sent too late: whoever carries it has yet to see the state. */
  predicate Late(s: State, m: Message) {
    && !s.h.k.life.Running?
    && (m in s.h.l.entered ==> m in s.h.l.dead)
    && forall t :: t in s.producers && Carries(s.producers[t]) && s.producers[t].m == m ==> s.producers[t].CheckState?
  }

  lemma ProduceKeepsLate(s: State, s': State, t: Tid, fails: bool, m: Message)
    requires Late(s, m) && ProduceStep(s, s', t, fails)
    ensures Late(s', m)
  {
    LateProduce(s.h, t, s.producers[t], fails, m);
  }

  lemma LateProduce(h: Shared, t: Tid, pc: Producer, fails: bool, m: Message)
    requires !h.k.life.Running? && (m in h.l.entered ==> m in h.l.dead)
    requires Carries(pc) && pc.m == m ==> pc.CheckState?
    ensures var r := ProduceTo(h, t, pc, fails);
            && !r.0.k.life.Running? && (m in r.0.l.entered ==> m in r.0.l.dead)
            && (r.1.Some? && Carries(r.1.value) ==> r.1.value.m != m)
  {
  }

  lemma NextKeepsLate(c: Config, s: State, s': State, m: Message)
    requires Inv(s) && Late(s, m) && Next(c, s, s')
    ensures Late(s', m)
  {
    var step :| NextStep(c, s, s', step);
    if step.Produce? {
      ProduceKeepsLate(s, s', step.t, step.fails, m);
    } else {
      OthersKeepLate(c, s, s', step, m);
    }
  }

  lemma OthersKeepLate(c: Config, s: State, s': State, step: Step, m: Message)
    requires Inv(s) && Late(s, m) && NextStep(c, s, s', step) && !step.Produce?
    ensures Late(s', m)
  {
    StepAdvances(c, s, s', step);
    StepSettles(c, s, s', step);
    OthersEnterNothing(c, s, s', step);
    if !step.BeginEnqueue? {
      ProducersKept(c, s, s', step);
    }
  }

  lemma UnsentIsLate(s: State, m: Message)
    requires OriginInv(s) && !s.h.k.life.Running? && m !in s.h.l.begun
    ensures Late(s, m)
  {
  }

  lemma LateAtStep(c: Config, run: seq<State>, j: nat, m: Message)
    requires !c.earlyStop && IsRun(c, run) && j + 1 < |run| && Late(run[j], m)
    ensures Late(run[j + 1], m)
  {
    InvOnRun(c, run, j);
    assert StepAt(c, run, j);
    NextKeepsLate(c, run[j], run[j + 1], m);
  }

  lemma {:induction false} LateOnRun(c: Config, run: seq<State>, i: nat, j: nat, m: Message)
    requires !c.earlyStop && IsRun(c, run) && i <= j < |run| && Late(run[i], m)
    ensures Late(run[j], m)
  {
    if i < j {
      LateOnRun(c, run, i, j - 1, m);
      LateAtStep(c, run, j - 1, m);
    }
  }

  /** What is sent once the actor is stopping is never handled: it becomes a dead letter, once. */
  lemma SentAfterStopDies(c: Config, run: seq<State>, i: nat, j: nat, m: Message)
    requires !c.earlyStop && IsRun(c, run) && i <= j < |run| && !run[i].h.k.life.Running? && m !in run[i].h.l.begun
    ensures m in run[j].h.l.entered ==> run[j].h.l.dead[m] == 1 && m !in run[j].h.l.dispatched
    ensures m in run[j].h.l.begun && !Carried(run[j].producers, m) ==> m in run[j].h.l.entered
  {
    InvOnRun(c, run, i);
    UnsentIsLate(run[i], m);
    LateOnRun(c, run, i, j, m);
    InvOnRun(c, run, j);
    assert Accounted(run[j], m);
  }

  // ---------------------------------------------------------------- order

  /** What is queued of one kind, oldest first. */
  function Waiting(q: Queues, call: bool): seq<Message> {
    (if call then q.calls else q.others) + OfKind(q.stack, call)
  }

  lemma {:induction false} OfKindAppend(ms: seq<Message>, m: Message, call: bool)
    ensures OfKind(ms + [m], call) == OfKind(ms, call) + if m.kind.Call? == call then [m] else []
  {
    if ms == [] {
      assert ms + [m] == [m] && [m][1..] == [];
    } else {
      OfKindAppend(ms[1..], m, call);
      assert (ms + [m])[1..] == ms[1..] + [m];
    }
  }

  /** An accepted message goes behind all that are queued of its kind. */
  lemma EnqueueGoesLast(h: Shared, t: Tid, pc: Producer, fails: bool)
    ensures var h' := ProduceTo(h, t, pc, fails).0;
            if h'.q == h.q then true
            else
              && Carries(pc) && h'.q.held == h.q.held
              && Waiting(h'.q, pc.m.kind.Call?) == Waiting(h.q, pc.m.kind.Call?) + [pc.m]
              && Waiting(h'.q, !pc.m.kind.Call?) == Waiting(h.q, !pc.m.kind.Call?)
  {
    if Carries(pc) {
      OfKindAppend(h.q.stack, pc.m, true);
      OfKindAppend(h.q.stack, pc.m, false);
    }
  }

  lemma FetchKeepsOrder(h: Shared, call: bool)
    ensures Waiting(FetchMore(h).q, call) == Waiting(h.q, call) && FetchMore(h).q.held == h.q.held
  {
    assert OfKind([], call) == [];
  }

  /** The executor takes the oldest of a kind, an ordinary message only when no call is in the cache; it
      handles it, or stashes it behind what is held. Looking for messages reorders nothing. */
  lemma TakenInOrder(c: Config, h: Shared, who: Who, move: Move)
    requires TakeStep(c, h, who, move).Some?
    ensures var (h', pc') := TakeStep(c, h, who, move).value;
            var call := h.q.calls != [];
            if move.Front? then
              && Waiting(h.q, call) != []
              && Waiting(h'.q, call) == Waiting(h.q, call)[1..] && Waiting(h'.q, !call) == Waiting(h.q, !call)
              && var m := Waiting(h.q, call)[0];
                 || (pc' == Dispatch(m) && h'.q.held == h.q.held)
                 || (c.stateful && m.kind.User? && pc'.Process? && h'.q.held == h.q.held + [m])
            else
              && !pc'.Dispatch? && h'.q.held == h.q.held
              && Waiting(h'.q, true) == Waiting(h.q, true) && Waiting(h'.q, false) == Waiting(h.q, false)
              && (!pc'.Process? ==> Waiting(h.q, true) == [] && Waiting(h.q, false) == [])
  {
    FetchKeepsOrder(h, true);
    FetchKeepsOrder(h, false);
  }
}
