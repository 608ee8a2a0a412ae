/** One worker taking turns: it pops the actor that has waited longest and runs it for at most a
    budget of messages; an actor that uses up its budget goes to the back of the queue. */
module WorkerTurns {
  import opened Common

  type Id = nat

  datatype Turn = Turn(actor: Id, handled: nat)

  datatype State = State(
    ready: seq<Id>,
    current: Option<Turn>,
    // history
    started: seq<Id>,  // the actors whose turns began, in order
    handled: nat       // messages handled in all turns
  )

  datatype Step = Schedule(actor: Id) | Begin | Handle | Requeue | Finish

  /** A budget of 0 is no limit. */
  predicate WithinBudget(budget: nat, handled: nat) {
    budget == 0 || handled < budget
  }

  predicate NextStep(budget: nat, s: State, s': State, step: Step) {
    match step
    case Schedule(a) => s' == s.(ready := s.ready + [a])
    case Begin =>
      s.current.None? && s.ready != []
      && s' == s.(ready := s.ready[1..], current := Some(Turn(s.ready[0], 0)), started := s.started + [s.ready[0]])
    case Handle =>
      s.current.Some? && WithinBudget(budget, s.current.value.handled)
      && s' == s.(current := Some(s.current.value.(handled := s.current.value.handled + 1)), handled := s.handled + 1)
    case Requeue =>
      s.current.Some? && !WithinBudget(budget, s.current.value.handled)
      && s' == s.(ready := s.ready + [s.current.value.actor], current := None)
    case Finish =>  // idle or stopped
      s.current.Some? && s' == s.(current := None)
  }

  ghost predicate Next(budget: nat, s: State, s': State) {
    exists step :: NextStep(budget, s, s', step)
  }

  const INITIAL: State := State([], None, [], 0)

  ghost predicate StepAt(budget: nat, run: seq<State>, i: nat)
    requires i + 1 < |run|
  {
    Next(budget, run[i], run[i + 1])
  }

  ghost predicate IsRun(budget: nat, run: seq<State>) {
    && run != [] && run[0] == INITIAL
    && forall i :: 0 <= i < |run| - 1 ==> StepAt(budget, run, i)
  }

  /** The turns begun after s was passed. */
  function TurnsSince(s: State, later: State): seq<Id>
    requires IsPrefix(s.started, later.started)
  {
    later.started[|s.started|..]
  }

  /** How much of its budget the current turn has left. */
  function Left(budget: nat, s: State): int {
    if s.current.Some? then budget - s.current.value.handled else 0
  }

  // ---------------------------------------------------------------- what every stretch of a run keeps

  /** Turns begin in the order the actors were queued, whatever else is queued meanwhile. */
  ghost predicate InOrder(s: State, later: State) {
    IsPrefix(s.started, later.started) && IsPrefix(s.ready, TurnsSince(s, later) + later.ready)
  }

  lemma StepKeepsOrder(budget: nat, s: State, mid: State, later: State, step: Step)
    requires InOrder(s, mid) && NextStep(budget, mid, later, step)
    ensures InOrder(s, later)
  {
    var before, after := TurnsSince(s, mid) + mid.ready, TurnsSince(s, later) + later.ready;
    match step {
      case Begin =>
        assert mid.ready == [mid.ready[0]] + mid.ready[1..];
        assert after == before;
      case Schedule(a) => assert after == before + [a];
      case Requeue => assert after == before + [mid.current.value.actor];
      case _ => assert after == before;
    }
  }

  lemma {:induction false} OrderOnRun(budget: nat, run: seq<State>, i: nat, j: nat)
    requires IsRun(budget, run) && i <= j < |run|
    ensures InOrder(run[i], run[j])
    decreases j - i
  {
    if i < j {
      OrderOnRun(budget, run, i, j - 1);
      assert StepAt(budget, run, j - 1);
      var step :| NextStep(budget, run[j - 1], run[j], step);
      StepKeepsOrder(budget, run[i], run[j - 1], run[j], step);
    } else {
      assert TurnsSince(run[i], run[j]) + run[j].ready == run[i].ready;
    }
  }

  /** Every turn handles at most the budget. */
  lemma {:induction false} TurnWithinBudget(budget: nat, run: seq<State>, i: nat)
    requires IsRun(budget, run) && i < |run| && budget > 0
    ensures run[i].current.Some? ==> run[i].current.value.handled <= budget
  {
    if i > 0 {
      TurnWithinBudget(budget, run, i - 1);
      assert StepAt(budget, run, i - 1);
    }
  }

  lemma {:induction false} WorkOnRun(budget: nat, run: seq<State>, i: nat, j: nat)
    requires IsRun(budget, run) && i <= j < |run| && budget > 0
    ensures IsPrefix(run[i].started, run[j].started)
    ensures run[j].handled - run[i].handled + Left(budget, run[j])
         <= Left(budget, run[i]) + budget * |TurnsSince(run[i], run[j])|
    decreases j - i
  {
    OrderOnRun(budget, run, i, j);
    if i < j {
      WorkOnRun(budget, run, i, j - 1);
      TurnWithinBudget(budget, run, j - 1);
      assert StepAt(budget, run, j - 1);
      var step :| NextStep(budget, run[j - 1], run[j], step);
      var before, after := |TurnsSince(run[i], run[j - 1])|, |TurnsSince(run[i], run[j])|;
      if step.Begin? {
        assert after == before + 1;
        assert budget * after == budget * before + budget;
      } else {
        assert after == before;
      }
    }
  }

  // ---------------------------------------------------------------- theorems

  /** The actor at position k of the queue gets exactly the k+1-st turn begun from now on. Until then
      it waits behind k fewer entries for each turn begun, and the messages handled meanwhile are at
      most what the turn in progress may still handle plus one full budget for each entry ahead. */
  lemma BoundedWaiting(budget: nat, run: seq<State>, i: nat, j: nat, k: nat)
    requires IsRun(budget, run) && i <= j < |run| && k < |run[i].ready| && budget > 0
    ensures IsPrefix(run[i].started, run[j].started)
    ensures var begun := TurnsSince(run[i], run[j]);
            if |begun| > k then
              begun[k] == run[i].ready[k]
            else
              && k - |begun| < |run[j].ready| && run[j].ready[k - |begun|] == run[i].ready[k]
              && run[j].handled - run[i].handled <= Left(budget, run[i]) + budget * k
              && run[j].handled - run[i].handled <= budget * (k + 1)
  {
    OrderOnRun(budget, run, i, j);
    WorkOnRun(budget, run, i, j);
    TurnWithinBudget(budget, run, i);
    TurnWithinBudget(budget, run, j);
    var begun := TurnsSince(run[i], run[j]);
    assert (begun + run[j].ready)[k] == run[i].ready[k];
    if |begun| <= k {
      Scaled(budget, |begun|, k);
    }
  }

  lemma Scaled(budget: nat, n: nat, k: nat)
    requires n <= k
    ensures budget * n <= budget * k && budget * (k + 1) == budget * k + budget
  {
  }

  /** Between i and j the actor at position k of the queue at i was not given its turn. */
  ghost predicate Waits(budget: nat, run: seq<State>, i: nat, j: nat, k: nat) {
    && IsRun(budget, run) && i <= j < |run| && k < |run[i].ready|
    && IsPrefix(run[i].started, run[j].started) && |TurnsSince(run[i], run[j])| <= k
  }

  ghost predicate WaitBound(budget: nat, k: nat, most: int) {
    forall run: seq<State>, i: nat, j: nat :: Waits(budget, run, i, j, k) ==> run[j].handled - run[i].handled <= most
  }

  /** A wait is bounded by a number of messages exactly when the turn budget is not 0. */
  lemma WaitBoundedIffBudget(budget: nat, k: nat)
    ensures (exists most :: WaitBound(budget, k, most)) <==> budget > 0
  {
    if budget > 0 {
      forall run: seq<State>, i: nat, j: nat | Waits(budget, run, i, j, k)
        ensures run[j].handled - run[i].handled <= budget * (k + 1)
      {
        BoundedWaiting(budget, run, i, j, k);
      }
      assert WaitBound(budget, k, budget * (k + 1));
    } else if most :| WaitBound(budget, k, most) {
      var n := if most < 0 then 0 else most + 1;
      var run := LongTurn(k, n);
      LongTurnIsRun(k, n);
      assert Waits(0, run, k + 3, k + 3 + n, k);
    }
  }

  // ---------------------------------------------------------------- an unlimited turn

  function Ids(n: nat): seq<Id> {
    seq(n, i => i)
  }

  /** k + 2 actors are queued, the first starts its turn and handles message after message. */
  function LongTurnAt(k: nat, i: nat): State {
    if i <= k + 2 then State(Ids(i), None, [], 0)
    else State(Ids(k + 2)[1..], Some(Turn(0, i - (k + 3))), [0], i - (k + 3))
  }

  function LongTurn(k: nat, n: nat): seq<State> {
    seq(k + 4 + n, i requires 0 <= i => LongTurnAt(k, i))
  }

  lemma LongTurnIsRun(k: nat, n: nat)
    ensures IsRun(0, LongTurn(k, n))
  {
    var run := LongTurn(k, n);
    assert Ids(0) == [];
    forall i | 0 <= i < |run| - 1
      ensures StepAt(0, run, i)
    {
      if i < k + 2 {
        assert Ids(i + 1) == Ids(i) + [i];
        assert NextStep(0, run[i], run[i + 1], Schedule(i));
      } else if i == k + 2 {
        assert Ids(k + 2)[0] == 0;
        assert NextStep(0, run[i], run[i + 1], Begin);
      } else {
        assert NextStep(0, run[i], run[i + 1], Handle);
      }
    }
  }
}
