/** The turns of one actor: what a turn handles, and that the actor's worker takes turns as WorkerTurns
    describes. */
module ActorTurns {
  import opened Common
  import opened ActorProtocol
  import opened ActorInvariant
  import opened ActorControl
  import opened ActorLedger
  import opened ActorTheorems
  import opened ActorStops
  import Turns = WorkerTurns

  // ---------------------------------------------------------------- the budget

  /** A turn goes on only within the budget, and is cut short only by the budget. */
  predicate BudgetInv(c: Config, s: State) {
    && (c.budget > 0 ==> s.handled <= c.budget)
    && (s.worker.Poll? ==> Turns.WithinBudget(c.budget, s.handled))
    && (s.worker.Requeue? ==> !Turns.WithinBudget(c.budget, s.handled))
  }

  /** What a step of the worker does to its count: one more exactly when it starts on a message. */
  predicate Counts(c: Config, s: State, s': State) {
    && (s'.worker.Poll? ==> s.worker.Budget? && Turns.WithinBudget(c.budget, s'.handled))
    && (s'.worker.Requeue? ==> !Turns.WithinBudget(c.budget, s'.handled))
    && if s.worker.Enter? then s'.worker.Away? || s'.handled == 0
       else if (s.worker.Poll? || s.worker.DrainBudget?) && s'.worker.Process? then
         s'.handled == s.handled + 1 && (s.worker.Poll? || Turns.WithinBudget(c.budget, s.handled))
       else s'.handled == s.handled && (IsProcessing(s'.worker) ==> IsProcessing(s.worker))
  }

  lemma TurnCounts(c: Config, s: State, s': State, move: Move)
    requires TurnMoved(c, s, s', move)
    ensures Counts(c, s, s')
  {
  }

  lemma WorkerCounts(c: Config, s: State, s': State, move: Move)
    requires WorkerRunStep(c, s, s', move)
    ensures Counts(c, s, s') && !s.worker.Away? && !s'.worker.Enter?
  {
    if InService(s.worker) {
      ServiceHasEffect(s.h, Worker, s.worker, move);
    } else if IsProcessing(s.worker) {
      ProcessHasEffect(c, s.h, Worker, s.worker, move);
    } else {
      TurnCounts(c, s, s', move);
    }
  }

  /** Every other step leaves the worker and its count, or starts a turn. */
  lemma OthersLeaveWorker(c: Config, s: State, s': State, step: Step)
    requires NextStep(c, s, s', step) && !step.WorkerRun?
    ensures s'.handled == s.handled
    ensures s'.worker == s.worker || (step.WorkerPop? && s.worker.Away? && s'.worker.Enter?)
  {
  }

  lemma NextKeepsBudget(c: Config, s: State, s': State)
    requires BudgetInv(c, s) && Next(c, s, s')
    ensures BudgetInv(c, s')
  {
    var step :| NextStep(c, s, s', step);
    if step.WorkerRun? {
      WorkerCounts(c, s, s', step.move);
    } else {
      OthersLeaveWorker(c, s, s', step);
    }
  }

  lemma {:induction false} BudgetOnRun(c: Config, run: seq<State>, i: nat)
    requires IsRun(c, run) && i < |run|
    ensures BudgetInv(c, run[i])
  {
    if i > 0 {
      BudgetOnRun(c, run, i - 1);
      assert StepAt(c, run, i - 1);
      NextKeepsBudget(c, run[i - 1], run[i]);
    }
  }

  /** Messages handled, and the one in hand. */
  function Progress(s: State): nat {
    |s.h.l.dispatched| + if IsProcessing(s.worker) then 1 else 0
  }

  lemma WorkerProgresses(c: Config, s: State, s': State, move: Move)
    requires LedgerInv(s) && WorkerRunStep(c, s, s', move) && !s.worker.Enter?
    ensures Progress(s') - s'.handled <= Progress(s) - s.handled
  {
    WorkerSettles(c, s, s', move);
    WorkerCounts(c, s, s', move);
    if s.worker.Dispatch? {
      ProcessHasEffect(c, s.h, Worker, s.worker, move);
      DispatchEnds(c, s.h, s.worker, move);
    }
  }

  lemma DispatchEnds(c: Config, h: Shared, pc: Exec, move: Move)
    requires pc.Dispatch? && ProcessStep(c, h, Worker, pc, move).Some?
    ensures var r := ProcessStep(c, h, Worker, pc, move).value;
            r.0.l.dispatched != h.l.dispatched ==> r.1.LoopTop?
  {
  }

  lemma StepProgresses(c: Config, s: State, s': State)
    requires Inv(s) && Next(c, s, s') && !s.worker.Away? && !s.worker.Enter?
    ensures Progress(s') - s'.handled <= Progress(s) - s.handled
  {
    var step :| NextStep(c, s, s', step);
    if step.WorkerRun? {
      WorkerProgresses(c, s, s', step.move);
    } else {
      OthersLeaveWorker(c, s, s', step);
      StepSettles(c, s, s', step);
      if step.Wait? { WaiterSettles(c, s, s', step.move); }
    }
  }

  lemma TurnBegins(c: Config, s: State, s': State)
    requires Inv(s) && Next(c, s, s') && s.worker.Enter?
    ensures Progress(s') == |s.h.l.dispatched|
  {
    var step :| NextStep(c, s, s', step);
    if step.WorkerRun? {
      WorkerSettles(c, s, s', step.move);
      WorkerCounts(c, s, s', step.move);
      TurnHasEffect(c, s.h, s.worker, s.handled, step.move);
    } else {
      OthersLeaveWorker(c, s, s', step);
      StepSettles(c, s, s', step);
      if step.Wait? { WaiterSettles(c, s, s', step.move); }
    }
  }

  /** At i the worker enters run_actor, and up to j it has not come out of it. */
  predicate SameTurn(run: seq<State>, i: nat, j: nat)
    requires i < j < |run|
  {
    run[i].worker.Enter? && forall k :: i < k < j ==> !run[k].worker.Away? && !run[k].worker.Enter?
  }

  lemma ProgressAtStep(c: Config, run: seq<State>, j: nat)
    requires !c.earlyStop && IsRun(c, run) && j + 1 < |run|
    ensures !run[j].worker.Away? && !run[j].worker.Enter? ==>
              Progress(run[j + 1]) - run[j + 1].handled <= Progress(run[j]) - run[j].handled
    ensures run[j].worker.Enter? ==> Progress(run[j + 1]) == |run[j].h.l.dispatched|
  {
    InvOnRun(c, run, j);
    assert StepAt(c, run, j);
    if run[j].worker.Enter? {
      TurnBegins(c, run[j], run[j + 1]);
    } else if !run[j].worker.Away? {
      StepProgresses(c, run[j], run[j + 1]);
    }
  }

  lemma {:induction false} ProgressOnRun(c: Config, run: seq<State>, i: nat, j: nat)
    requires !c.earlyStop && IsRun(c, run) && i < j < |run| && SameTurn(run, i, j)
    ensures Progress(run[j]) - run[j].handled <= |run[i].h.l.dispatched|
  {
    ProgressAtStep(c, run, j - 1);
    if i + 1 < j {
      ProgressOnRun(c, run, i, j - 1);
    }
  }

  /** One turn handles at most max_messages_per_turn messages. */
  lemma TurnHandlesWithinBudget(c: Config, run: seq<State>, i: nat, j: nat)
    requires !c.earlyStop && IsRun(c, run) && i < j < |run| && SameTurn(run, i, j) && c.budget > 0
    ensures |run[j].h.l.dispatched| <= |run[i].h.l.dispatched| + c.budget
  {
    ProgressOnRun(c, run, i, j);
    BudgetOnRun(c, run, j);
  }

  // ---------------------------------------------------------------- turns of the worker

  /** This actor is 0 among those of its worker. */
  function IdOf(e: Entry): Turns.Id {
    if e.Me? then 0 else e.n + 1
  }

  function Ids(ready: seq<Entry>): (ids: seq<Turns.Id>)
    ensures |ids| == |ready|
  {
    if ready == [] then [] else [IdOf(ready[0])] + Ids(ready[1..])
  }

  lemma {:induction false} IdsAppend(ready: seq<Entry>, e: Entry)
    ensures Ids(ready + [e]) == Ids(ready) + [IdOf(e)]
  {
    if ready == [] {
      assert ready + [e] == [e] && [e][1..] == [];
    } else {
      IdsAppend(ready[1..], e);
      assert (ready + [e])[1..] == ready[1..] + [e];
    }
  }

  function CurrentTurn(s: State): Option<Turns.Turn> {
    if s.worker.Away? then None else Some(Turns.Turn(0, if s.worker.Enter? then 0 else s.handled))
  }

  predicate Shows(s: State, w: Turns.State) {
    w.ready == Ids(s.h.k.ready) && w.current == CurrentTurn(s)
  }

  /** One step of the worker model, or none. */
  ghost predicate AtMostOne(budget: nat, w: Turns.State, w': Turns.State) {
    w' == w || Turns.Next(budget, w, w')
  }

  /** The worker takes the front entry; another actor's turn is over at once. */
  lemma PopIsTurn(c: Config, s: State, s': State, w: Turns.State) returns (mid: Turns.State, w': Turns.State)
    requires WorkerPopStep(s, s') && Shows(s, w)
    ensures AtMostOne(c.budget, w, mid) && AtMostOne(c.budget, mid, w') && Shows(s', w')
  {
    var id := IdOf(s.h.k.ready[0]);
    assert Ids(s.h.k.ready)[0] == id && Ids(s.h.k.ready)[1..] == Ids(s.h.k.ready[1..]);
    mid := w.(ready := w.ready[1..], current := Some(Turns.Turn(id, 0)), started := w.started + [id]);
    assert Turns.NextStep(c.budget, w, mid, Turns.Begin);
    if s.h.k.ready[0].Me? {
      w' := mid;
    } else {
      w' := mid.(current := None);
      assert Turns.NextStep(c.budget, mid, w', Turns.Finish);
    }
  }

  /** Somebody queues an actor. */
  lemma PushIsSchedule(c: Config, s: State, s': State, e: Entry, w: Turns.State) returns (w': Turns.State)
    requires s'.h.k.ready == s.h.k.ready + [e] && CurrentTurn(s') == CurrentTurn(s) && Shows(s, w)
    ensures AtMostOne(c.budget, w, w') && Shows(s', w')
  {
    IdsAppend(s.h.k.ready, e);
    w' := w.(ready := w.ready + [IdOf(e)]);
    assert Turns.NextStep(c.budget, w, w', Turns.Schedule(IdOf(e)));
  }

  lemma RunLeavesReady(c: Config, s: State, s': State, move: Move)
    requires WorkerRunStep(c, s, s', move)
    ensures s'.h.k.ready == if s.worker.Requeue? then s.h.k.ready + [Me] else s.h.k.ready
    ensures s.worker.Requeue? ==> s'.worker.Away?
  {
    if InService(s.worker) {
      ServiceHasEffect(s.h, Worker, s.worker, move);
    } else if IsProcessing(s.worker) {
      ProcessHasEffect(c, s.h, Worker, s.worker, move);
    } else {
      TurnHasEffect(c, s.h, s.worker, s.handled, move);
    }
  }

  /** A step of run_actor handles a message, gives up the turn, ends it, or does not show. */
  lemma RunIsTurn(c: Config, s: State, s': State, move: Move, w: Turns.State) returns (w': Turns.State)
    requires BudgetInv(c, s) && WorkerRunStep(c, s, s', move) && Shows(s, w)
    ensures AtMostOne(c.budget, w, w') && Shows(s', w')
  {
    RunLeavesReady(c, s, s', move);
    WorkerCounts(c, s, s', move);
    if s.worker.Requeue? {
      IdsAppend(s.h.k.ready, Me);
      w' := w.(ready := w.ready + [0], current := None);
      assert Turns.NextStep(c.budget, w, w', Turns.Requeue);
    } else if s'.worker.Away? {
      w' := w.(current := None);
      assert Turns.NextStep(c.budget, w, w', Turns.Finish);
    } else if !s.worker.Enter? && s'.handled == s.handled + 1 {
      w' := w.(current := Some(Turns.Turn(0, s'.handled)), handled := w.handled + 1);
      assert Turns.NextStep(c.budget, w, w', Turns.Handle);
    } else {
      w' := w;
    }
  }

  /** The actor, or another of the worker, was put at the back of the ready queue, or nothing was. */
  lemma OthersSchedule(c: Config, s: State, s': State, step: Step)
    requires NextStep(c, s, s', step) && !step.WorkerRun? && !step.WorkerPop?
    ensures || s'.h.k.ready == s.h.k.ready
            || s'.h.k.ready == s.h.k.ready + [Me]
            || (step.Foreign? && s'.h.k.ready == s.h.k.ready + [Other(step.n)])
  {
    match step
    case Produce(t, fails) => ProduceSchedules(s.h, t, s.producers[t], fails);
    case Stop(t) => StopSchedules(s.h.k, t, s.stoppers[t]);
    case Wait(move) => WaitLeavesReady(c, s, s', move);
    case _ =>
  }

  lemma ProduceSchedules(h: Shared, t: Tid, pc: Producer, fails: bool)
    ensures var ready := ProduceTo(h, t, pc, fails).0.k.ready;
            ready == h.k.ready || ready == h.k.ready + [Me]
  {
  }

  lemma StopSchedules(k: Control, t: Tid, pc: Stopper)
    ensures StopTo(k, t, pc).0.ready == k.ready || StopTo(k, t, pc).0.ready == k.ready + [Me]
  {
  }

  lemma WaitLeavesReady(c: Config, s: State, s': State, move: Move)
    requires WaitStep(c, s, s', move)
    ensures s'.h.k.ready == s.h.k.ready
  {
    if s.waiter.Completing? && InService(s.waiter.pc) {
      ServiceHasEffect(s.h, Waiter, s.waiter.pc, move);
    } else if s.waiter.Completing? {
      ProcessHasEffect(c, s.h, Waiter, s.waiter.pc, move);
    } else {
      WaitAloneLeaves(s, s');
    }
  }

  lemma NextIsTurn(c: Config, s: State, s': State, w: Turns.State) returns (mid: Turns.State, w': Turns.State)
    requires BudgetInv(c, s) && Next(c, s, s') && Shows(s, w)
    ensures AtMostOne(c.budget, w, mid) && AtMostOne(c.budget, mid, w') && Shows(s', w')
  {
    var step :| NextStep(c, s, s', step);
    if step.WorkerPop? {
      mid, w' := PopIsTurn(c, s, s', w);
    } else if step.WorkerRun? {
      mid := RunIsTurn(c, s, s', step.move, w);
      w' := mid;
    } else {
      OthersLeaveWorker(c, s, s', step);
      OthersSchedule(c, s, s', step);
      if s'.h.k.ready == s.h.k.ready {
        mid := w;
      } else {
        mid := PushIsSchedule(c, s, s', if s'.h.k.ready == s.h.k.ready + [Me] then Me else Other(step.n), w);
      }
      w' := mid;
    }
  }

  ghost predicate RunsTo(budget: nat, turns: seq<Turns.State>, w: Turns.State) {
    Turns.IsRun(budget, turns) && turns[|turns| - 1] == w
  }

  lemma OneMore(budget: nat, turns: seq<Turns.State>, w: Turns.State, w': Turns.State) returns (longer: seq<Turns.State>)
    requires RunsTo(budget, turns, w) && AtMostOne(budget, w, w')
    ensures RunsTo(budget, longer, w') && |turns| <= |longer| && turns == longer[..|turns|]
  {
    longer := if w' == w then turns else turns + [w'];
    forall i | 0 <= i < |longer| - 1
      ensures Turns.StepAt(budget, longer, i)
    {
      if i < |turns| - 1 {
        assert Turns.StepAt(budget, turns, i);
      }
    }
  }

  /** State k of the run is shown by state at[k] of the turns, in order. */
  predicate ShowsAlong(run: seq<State>, turns: seq<Turns.State>, at: seq<nat>) {
    && |at| <= |run|
    && (forall k :: 0 <= k < |at| ==> at[k] < |turns| && Shows(run[k], turns[at[k]]))
    && (forall k, m :: 0 <= k <= m < |at| ==> at[k] <= at[m])
  }

  lemma ShowsFurther(run: seq<State>, turns: seq<Turns.State>, at: seq<nat>, longer: seq<Turns.State>)
    requires turns != [] && ShowsAlong(run, turns, at) && |at| < |run|
    requires |turns| <= |longer| && turns == longer[..|turns|] && Shows(run[|at|], longer[|longer| - 1])
    ensures ShowsAlong(run, longer, at + [|longer| - 1])
  {
    forall k | 0 <= k < |at|
      ensures at[k] < |longer| && Shows(run[k], longer[at[k]])
    {
      assert turns[at[k]] == longer[at[k]];
    }
  }

  lemma OneStepMore(c: Config, s: State, s': State, turns: seq<Turns.State>) returns (longer: seq<Turns.State>)
    requires BudgetInv(c, s) && Next(c, s, s') && turns != []
    requires RunsTo(c.budget, turns, turns[|turns| - 1]) && Shows(s, turns[|turns| - 1])
    ensures |turns| <= |longer| && turns == longer[..|turns|]
    ensures RunsTo(c.budget, longer, longer[|longer| - 1]) && Shows(s', longer[|longer| - 1])
  {
    var mid, w' := NextIsTurn(c, s, s', turns[|turns| - 1]);
    var more := OneMore(c.budget, turns, turns[|turns| - 1], mid);
    longer := OneMore(c.budget, more, mid, w');
  }

  /** These turns are a run that shows the first states of the actor's run, all of them up to i. */
  ghost predicate Traces(budget: nat, run: seq<State>, i: nat, turns: seq<Turns.State>, at: seq<nat>)
    requires i < |run|
  {
    && turns != [] && Turns.IsRun(budget, turns) && Shows(run[i], turns[|turns| - 1])
    && |at| == i + 1 && ShowsAlong(run, turns, at)
  }

  lemma TraceBegins(c: Config, run: seq<State>)
    requires run != [] && run[0] == Initial()
    ensures Traces(c.budget, run, 0, [Turns.INITIAL], [0])
  {
  }

  lemma TraceGoesOn(c: Config, run: seq<State>, i: nat, turns: seq<Turns.State>, at: seq<nat>)
    returns (turns': seq<Turns.State>, at': seq<nat>)
    requires i + 1 < |run| && Traces(c.budget, run, i, turns, at)
    requires BudgetInv(c, run[i]) && Next(c, run[i], run[i + 1])
    ensures Traces(c.budget, run, i + 1, turns', at')
  {
    turns' := OneStepMore(c, run[i], run[i + 1], turns);
    ShowsFurther(run, turns, at, turns');
    at' := at + [|turns'| - 1];
  }

  /** Every run of the actor protocol shows a run of its worker's turns, with the same ready queue and
      the same turn in progress all along: what WorkerTurns proves of waiting holds for the actor. */
  lemma {:induction false} RunShowsTurns(c: Config, run: seq<State>, i: nat) returns (turns: seq<Turns.State>, at: seq<nat>)
    requires IsRun(c, run) && i < |run|
    ensures Traces(c.budget, run, i, turns, at)
  {
    if i == 0 {
      turns, at := [Turns.INITIAL], [0];
      TraceBegins(c, run);
    } else {
      turns, at := RunShowsTurns(c, run, i - 1);
      BudgetOnRun(c, run, i - 1);
      assert StepAt(c, run, i - 1);
      turns, at := TraceGoesOn(c, run, i - 1, turns, at);
    }
  }
}
