/** What the timer manager promises over whole runs of schedule, cancel, clear and the timer thread.
    Drive shows that any use of a Manager is such a run. */
module TimerRuns {

  import opened Common
  import opened TimerManager

  datatype State = State(
    active: map<Id, Plan>,
    nextId: Id,
    // history
    first: map<Id, Plan>,   // what each timer was scheduled with
    cancelled: set<Id>,     // timers a cancel() has returned for
    cleared: set<Id>,       // timers scheduled before stop() cleared the tables
    log: seq<Fired>         // extractions
  )

  datatype Step = Schedule(plan: Plan) | Cancel(id: Id) | Extract(id: Id) | Clear

  predicate NextStep(s: State, s': State, step: Step) {
    match step
    case Schedule(plan) =>
      s' == s.(active := s.active[s.nextId := plan], nextId := s.nextId + 1, first := s.first[s.nextId := plan])
    case Cancel(id) =>
      s' == s.(active := s.active - {id}, cancelled := if id in s.first then s.cancelled + {id} else s.cancelled)
    case Extract(id) =>
      Earliest(s.active, id)
      && s' == s.(active := Extracted(s.active, id), log := s.log + [Fired(id, s.active[id].fire)])
    case Clear => s' == s.(active := map[], cleared := s.cleared + s.first.Keys)
  }

  ghost predicate Next(s: State, s': State) {
    exists step :: NextStep(s, s', step)
  }

  const INITIAL: State := State(map[], 1, map[], {}, {}, [])

  ghost predicate IsRun(run: seq<State>) {
    && run != [] && run[0] == INITIAL
    && forall i :: 0 <= i < |run| - 1 ==> Next(run[i], run[i + 1])
  }

  /** The fire times one timer was extracted for, in order. */
  function Dues(log: seq<Fired>, id: Id): seq<Time> {
    if log == [] then []
    else Dues(log[..|log| - 1], id) + if log[|log| - 1].id == id then [log[|log| - 1].due] else []
  }

  lemma DuesAppend(log: seq<Fired>, f: Fired, id: Id)
    ensures Dues(log + [f], id) == Dues(log, id) + if f.id == id then [f.due] else []
  {
    assert (log + [f])[..|log|] == log;
  }

  /** The n-th time, counting from 0, of a timer scheduled with p. */
  function NthTime(p: Plan, n: nat): Time {
    p.fire + n * p.interval
  }

  lemma NthTimeStep(p: Plan, n: nat)
    ensures NthTime(p, n + 1) == NthTime(p, n) + p.interval
  {
    assert (n + 1) * p.interval == n * p.interval + p.interval;
  }

  predicate OnSchedule(p: Plan, dues: seq<Time>) {
    && (forall n :: 0 <= n < |dues| ==> dues[n] == NthTime(p, n))
    && (p.interval == 0 ==> |dues| <= 1)
  }

  predicate Inv(s: State, id: Id) {
    var dues := Dues(s.log, id);
    && (id in s.first ==> id < s.nextId && OnSchedule(s.first[id], dues))
    && (id !in s.first ==> dues == [] && id !in s.active)
    && (id in s.active ==>
          && s.active[id] == s.first[id].(fire := NthTime(s.first[id], |dues|))
          && (s.first[id].interval == 0 ==> dues == []))
    && (id in s.cancelled ==> id in s.first && id !in s.active)
    && (id in s.cleared ==> id in s.first && id !in s.active)
    && (id in s.first && id !in s.cancelled && id !in s.cleared && (s.first[id].interval > 0 || dues == []) ==> id in s.active)
  }

  lemma ExtractKeepsInv(s: State, s': State, extracted: Id, id: Id)
    requires Inv(s, id) && NextStep(s, s', Extract(extracted))
    ensures Inv(s', id)
  {
    DuesAppend(s.log, Fired(extracted, s.active[extracted].fire), id);
    if id == extracted {
      NthTimeStep(s.first[id], |Dues(s.log, id)|);
    }
  }

  lemma NextKeepsInv(s: State, s': State, step: Step, id: Id)
    requires Inv(s, id) && NextStep(s, s', step)
    ensures Inv(s', id)
  {
    match step {
      case Schedule(plan) => assert NthTime(plan, 0) == plan.fire;
      case Cancel(_) =>
      case Extract(e) => ExtractKeepsInv(s, s', e, id);
      case Clear =>
    }
  }

  lemma {:induction false} InvOnRun(run: seq<State>, i: nat, id: Id)
    requires IsRun(run) && i < |run|
    ensures Inv(run[i], id)
  {
    if i > 0 {
      InvOnRun(run, i - 1, id);
      assert Next(run[i - 1], run[i - 1 + 1]);
      var step :| NextStep(run[i - 1], run[i], step);
      NextKeepsInv(run[i - 1], run[i], step, id);
    }
  }

  // ---------------------------------------------------------------- theorems

  /** The extraction of a timer after n others is for exactly first + n * interval, and a one-shot is
      extracted at most once. */
  lemma ExtractedOnSchedule(run: seq<State>, i: nat, id: Id)
    requires IsRun(run) && i < |run|
    ensures var dues := Dues(run[i].log, id);
            if id in run[i].first then
              && (forall n :: 0 <= n < |dues| ==> dues[n] == run[i].first[id].fire + n * run[i].first[id].interval)
              && (run[i].first[id].interval == 0 ==> |dues| <= 1)
            else dues == []
  {
    InvOnRun(run, i, id);
    assert forall n :: 0 <= n < |Dues(run[i].log, id)| && id in run[i].first ==>
      Dues(run[i].log, id)[n] == NthTime(run[i].first[id], n);
  }

  /** A timer is active exactly until it is cancelled, the tables are cleared or, a one-shot, it has been
      extracted; a periodic one never runs out, and the next extraction is for the next of its times. */
  lemma ActiveUntilDone(run: seq<State>, i: nat, id: Id)
    requires IsRun(run) && i < |run| && id in run[i].first
    ensures var s := run[i];
            var dues := Dues(s.log, id);
            && (id in s.active <==>
                  id !in s.cancelled && id !in s.cleared && (s.first[id].interval > 0 || dues == []))
            && (id in s.active ==> s.active[id].interval == s.first[id].interval
                                   && s.active[id].fire == s.first[id].fire + |dues| * s.first[id].interval)
  {
    InvOnRun(run, i, id);
  }

  /** Once cancel() has returned, the timer is never extracted again. */
  lemma {:induction false} NothingAfterCancel(run: seq<State>, i: nat, j: nat, id: Id)
    requires IsRun(run) && i <= j < |run| && id in run[i].cancelled
    ensures id in run[j].cancelled && id !in run[j].active
    ensures Dues(run[j].log, id) == Dues(run[i].log, id)
    decreases j
  {
    InvOnRun(run, j, id);
    if i < j {
      NothingAfterCancel(run, i, j - 1, id);
      assert Next(run[j - 1], run[j - 1 + 1]);
      var step :| NextStep(run[j - 1], run[j], step);
      if step.Extract? {
        DuesAppend(run[j - 1].log, Fired(step.id, run[j - 1].active[step.id].fire), id);
      }
    }
  }

  // ---------------------------------------------------------------- the Manager's runs

  datatype Op = DoSchedule(now: Time, delay: nat, interval: nat) | DoCancel(id: Id) | DoPass(now: Time) | DoClear

  function Last(run: seq<State>): State
    requires run != []
  {
    run[|run| - 1]
  }

  lemma Longer(run: seq<State>, s': State, step: Step)
    requires IsRun(run) && NextStep(Last(run), s', step)
    ensures IsRun(run + [s'])
  {
    var longer := run + [s'];
    forall i | 0 <= i < |longer| - 1
      ensures Next(longer[i], longer[i + 1])
    {
      if i < |run| - 1 { assert Next(run[i], run[i + 1]); }
    }
  }

  /** The manager is where the run ends. */
  ghost predicate Matches(manager: Manager, run: seq<State>)
    reads manager
  {
    IsRun(run) && manager.active == Last(run).active && manager.nextId == Last(run).nextId
  }

  /** One operation on a manager is one step of a run, or, for a pass that extracts nothing, none. */
  method Perform(manager: Manager, op: Op, run: seq<State>) returns (run': seq<State>, fired: Option<Fired>)
    requires manager.Valid() && Matches(manager, run)
    modifies manager, manager.queue
    ensures manager.Valid() && Matches(manager, run')
    ensures forall t :: t in manager.queue ==> t in old(manager.queue) || fresh(t)
    ensures Last(run').log == Last(run).log + if fired.Some? then [fired.value] else []
    ensures op.DoSchedule? ==> Last(run').first == Last(run).first[Last(run).nextId := Plan(op.now + op.delay, op.interval)]
                               && Last(run').nextId == Last(run).nextId + 1
    ensures !op.DoSchedule? ==> Last(run').first == Last(run).first && Last(run').nextId == Last(run).nextId
    ensures Last(run').cancelled == if op.DoCancel? && op.id in Last(run).first then Last(run).cancelled + {op.id}
                                    else Last(run).cancelled
    ensures Last(run').cleared == if op.DoClear? then Last(run).first.Keys + Last(run).cleared else Last(run).cleared
  {
    var s := Last(run);
    var s' := s;
    var step := Clear;
    fired := None;
    match op {
      case DoSchedule(now, delay, interval) =>
        var id := manager.Schedule(now, delay, interval);
        step := Schedule(Plan(now + delay, interval));
        s' := s.(active := s.active[id := step.plan], nextId := id + 1, first := s.first[id := step.plan]);
      case DoCancel(id) =>
        manager.Cancel(id);
        step := Cancel(id);
        s' := s.(active := s.active - {id}, cancelled := if id in s.first then s.cancelled + {id} else s.cancelled);
      case DoPass(now) =>
        fired := manager.Pass(now);
        if fired.None? { return run, None; }
        var id := fired.value.id;
        step := Extract(id);
        s' := s.(active := Extracted(s.active, id), log := s.log + [fired.value]);
      case DoClear =>
        manager.Clear();
        s' := s.(active := map[], cleared := s.cleared + s.first.Keys);
    }
    Longer(run, s', step);
    run' := run + [s'];
  }

  /** What the first n operations schedule, in order. */
  function Plans(ops: seq<Op>, n: nat): seq<Plan>
    requires n <= |ops|
  {
    if n == 0 then []
    else Plans(ops, n - 1) + match ops[n - 1]
                             case DoSchedule(now, delay, interval) => [Plan(now + delay, interval)]
                             case _ => []
  }

  /** The run has scheduled these, under ids from 1 on. */
  ghost predicate Scheduled(s: State, plans: seq<Plan>) {
    && s.nextId == |plans| + 1
    && (forall id :: id in s.first <==> 1 <= id <= |plans|)
    && forall id :: id in s.first ==> s.first[id] == plans[id - 1]
  }

  /** Any use of a timer manager: what its passes extract is, timer by timer, on schedule, and no timer
      is extracted again once a cancel has returned for it. */
  method Drive(ops: seq<Op>) returns (run: seq<State>, fired: seq<Fired>)
    ensures IsRun(run) && fired == Last(run).log && Scheduled(Last(run), Plans(ops, |ops|))
    ensures forall id :: id in Last(run).first ==> OnSchedule(Last(run).first[id], Dues(fired, id))
    ensures forall id :: id !in Last(run).first ==> Dues(fired, id) == []
    ensures forall i, id :: 0 <= i < |run| && id in run[i].cancelled ==> Dues(fired, id) == Dues(run[i].log, id)
  {
    var manager := new Manager();
    run, fired := [INITIAL], [];
    for k := 0 to |ops|
      invariant manager.Valid() && fresh(manager) && (forall t :: t in manager.queue ==> fresh(t))
      invariant Matches(manager, run) && fired == Last(run).log && Scheduled(Last(run), Plans(ops, k))
    {
      var extracted: Option<Fired>;
      run, extracted := Perform(manager, ops[k], run);
      if extracted.Some? { fired := fired + [extracted.value]; }
    }
    forall id
      ensures id in Last(run).first ==> OnSchedule(Last(run).first[id], Dues(fired, id))
      ensures id !in Last(run).first ==> Dues(fired, id) == []
    {
      InvOnRun(run, |run| - 1, id);
    }
    forall i, id | 0 <= i < |run| && id in run[i].cancelled
      ensures Dues(fired, id) == Dues(run[i].log, id)
    {
      NothingAfterCancel(run, i, |run| - 1, id);
    }
  }
}
