/** The set of timers an actor remembers so that they can be cancelled when it stops: finished timers
    are pruned only now and then, yet no live one is ever forgotten and the set stays small. */
module ActorTimers {

  import opened TimerManager

  const PRUNE_FLOOR: nat := 64
  const INVALID_ID: Id := 0

  function Max(a: int, b: int): int {
    if a >= b then a else b
  }

  datatype Tracking = Tracking(tracked: set<Id>, pruneAt: nat)

  /** track_timer, given the timers active in the manager when it prunes. */
  function Tracked(t: Tracking, id: Id, active: set<Id>): Tracking {
    if id == INVALID_ID then t
    else if |t.tracked| >= t.pruneAt then
      var left := t.tracked * active;
      Tracking(left + {id}, Max(PRUNE_FLOOR, 2 * |left|))
    else t.(tracked := t.tracked + {id})
  }

  /** A live timer is never forgotten; finished ones are, but only once the set has reached its limit, and
      then the next prune is at least as many insertions away as timers are left. */
  lemma TrackedIs(t: Tracking, id: Id, active: set<Id>)
    ensures id == INVALID_ID ==> Tracked(t, id, active) == t
    ensures id != INVALID_ID ==> forall i :: i in Tracked(t, id, active).tracked <==>
              i == id || (i in t.tracked && (i in active || |t.tracked| < t.pruneAt))
    ensures id != INVALID_ID && |t.tracked| < t.pruneAt ==> Tracked(t, id, active).pruneAt == t.pruneAt
    ensures id != INVALID_ID && |t.tracked| >= t.pruneAt ==>
              var limit, left := Tracked(t, id, active).pruneAt, |t.tracked * active|;
              limit >= PRUNE_FLOOR && limit - left >= left && (limit == PRUNE_FLOOR || limit == 2 * left)
  {
  }

  class Actor {
    var timers: set<Id>
    var pruneAt: nat

    constructor ()
      ensures timers == {} && pruneAt == PRUNE_FLOOR
    {
      timers, pruneAt := {}, PRUNE_FLOOR;
    }

    method TrackTimer(id: Id, manager: Manager)
      requires manager.Valid()
      modifies this
      ensures Tracking(timers, pruneAt) == Tracked(Tracking(old(timers), old(pruneAt)), id, manager.active.Keys)
    {
      if id == INVALID_ID { return; }
      if |timers| >= pruneAt {
        timers := manager.RetainActive(timers);
        pruneAt := if 2 * |timers| > PRUNE_FLOOR then 2 * |timers| else PRUNE_FLOOR;
      }
      timers := timers + {id};
    }

    method CancelTimer(id: Id, manager: Manager)
      requires manager.Valid()
      modifies this, manager, manager.queue
      ensures manager.Valid() && pruneAt == old(pruneAt)
      ensures id == INVALID_ID ==> timers == old(timers) && manager.active == old(manager.active)
      ensures id != INVALID_ID ==> timers == old(timers) - {id} && manager.active == old(manager.active) - {id}
    {
      if id == INVALID_ID { return; }
      timers := timers - {id};
      manager.Cancel(id);
    }

    /** cancel_actor_timers. */
    method CancelAll(manager: Manager)
      requires manager.Valid()
      modifies this, manager, manager.queue
      ensures manager.Valid() && timers == {} && pruneAt == old(pruneAt)
      ensures manager.active == old(manager.active) - old(timers)
    {
      CancelEach(manager, timers);
      timers := {};
    }
  }

  lemma MinusOne(m: map<Id, Plan>, ids: set<Id>, rest: set<Id>, id: Id)
    requires id in rest && rest <= ids
    ensures m - (ids - rest) - {id} == m - (ids - (rest - {id}))
  {
    assert ids - (rest - {id}) == (ids - rest) + {id};
  }

  method CancelEach(manager: Manager, ids: set<Id>)
    requires manager.Valid()
    modifies manager, manager.queue
    ensures manager.Valid() && manager.active == old(manager.active) - ids
  {
    var rest := ids;
    while rest != {}
      invariant manager.Valid() && rest <= ids && manager.queue == old(manager.queue)
      invariant manager.active == old(manager.active) - (ids - rest)
      decreases |rest|
    {
      var id :| id in rest;
      MinusOne(old(manager.active), ids, rest, id);
      manager.Cancel(id);
      rest := rest - {id};
    }
  }

  // ---------------------------------------------------------------- runs

  /** One actor, its timers, and everything else the manager has. */
  datatype State = State(
    t: Tracking,
    pending: set<Id>,  // scheduled and not yet tracked: at most one, the actor has one thread
    active: set<Id>,
    // history
    mine: set<Id>,     // every timer this actor scheduled
    peak: nat          // the most of them active at once
  )

  datatype Step = Schedule(id: Id) | Track(id: Id) | Ended(id: Id) | Foreign(id: Id) | Cancel(id: Id) | CancelAll

  predicate NextStep(s: State, s': State, step: Step) {
    match step
    case Schedule(id) =>
      id != INVALID_ID && id !in s.mine && id !in s.active && s.pending == {}
      && s' == s.(pending := {id}, active := s.active + {id}, mine := s.mine + {id},
                  peak := Max(s.peak, |(s.mine + {id}) * (s.active + {id})|))
    case Track(id) => id in s.pending && s' == s.(pending := s.pending - {id}, t := Tracked(s.t, id, s.active))
    case Ended(id) =>  // a one-shot fired, at any moment, on the timer thread
      s' == s.(active := s.active - {id})
    case Foreign(id) => id !in s.mine && s' == s.(active := s.active + {id})
    case Cancel(id) =>
      s.pending == {} && id != INVALID_ID
      && s' == s.(t := s.t.(tracked := s.t.tracked - {id}), active := s.active - {id})
    case CancelAll =>
      s.pending == {} && s' == s.(t := s.t.(tracked := {}), active := s.active - s.t.tracked)
  }

  ghost predicate Next(s: State, s': State) {
    exists step :: NextStep(s, s', step)
  }

  const INITIAL: State := State(Tracking({}, PRUNE_FLOOR), {}, {}, {}, 0)

  ghost predicate IsRun(run: seq<State>) {
    && run != [] && run[0] == INITIAL
    && forall i :: 0 <= i < |run| - 1 ==> Next(run[i], run[i + 1])
  }

  function Live(s: State): set<Id> {
    s.mine * s.active
  }

  predicate Inv(s: State) {
    && Live(s) <= s.t.tracked + s.pending
    && s.t.tracked <= s.mine && s.pending <= s.mine && INVALID_ID !in s.pending
    && |s.t.tracked| <= s.t.pruneAt
    && PRUNE_FLOOR <= s.t.pruneAt <= Max(PRUNE_FLOOR, 2 * s.peak)
    && |Live(s)| <= s.peak
  }

  lemma Smaller(a: set<Id>, b: set<Id>)
    requires a <= b
    ensures |a| <= |b|
  {
    assert b == a + (b - a);
  }

  lemma AddsOne(a: set<Id>, id: Id)
    ensures |a| <= |a + {id}| <= |a| + 1
  {
    assert id in a ==> a + {id} == a;
  }

  lemma TrackKeepsInv(s: State, s': State, id: Id)
    requires Inv(s) && NextStep(s, s', Track(id))
    ensures Inv(s')
  {
    var left := s.t.tracked * s.active;
    Smaller(left, Live(s));
    AddsOne(left, id);
    AddsOne(s.t.tracked, id);
    assert Live(s') == Live(s);
  }

  lemma ShrinkKeepsInv(s: State, s': State)
    requires Inv(s) && s'.t.pruneAt == s.t.pruneAt && s'.t.tracked <= s.t.tracked && s'.pending == s.pending
    requires s'.mine == s.mine && s'.peak == s.peak && Live(s') <= Live(s) && Live(s') <= s'.t.tracked + s'.pending
    ensures Inv(s')
  {
    Smaller(s'.t.tracked, s.t.tracked);
    Smaller(Live(s'), Live(s));
  }

  lemma NextKeepsInv(s: State, s': State, step: Step)
    requires Inv(s) && NextStep(s, s', step)
    ensures Inv(s')
  {
    match step {
      case Schedule(id) => assert Live(s') == Live(s) + {id};
      case Track(id) => TrackKeepsInv(s, s', id);
      case Ended(_) => ShrinkKeepsInv(s, s');
      case Foreign(id) => assert Live(s') == Live(s);
      case Cancel(_) => ShrinkKeepsInv(s, s');
      case CancelAll => ShrinkKeepsInv(s, s');
    }
  }

  lemma {:induction false} InvOnRun(run: seq<State>, i: nat)
    requires IsRun(run) && i < |run|
    ensures Inv(run[i])
  {
    if i > 0 {
      InvOnRun(run, i - 1);
      assert Next(run[i - 1], run[i - 1 + 1]);
      var step :| NextStep(run[i - 1], run[i], step);
      NextKeepsInv(run[i - 1], run[i], step);
    }
  }

  /** Every live timer of the actor is in its set, or about to be put there, despite pruning; and the
      set never exceeds max(64, 2 * the most timers the actor had live at once). */
  lemma TrackingCompleteAndBounded(run: seq<State>, i: nat)
    requires IsRun(run) && i < |run|
    ensures run[i].mine * run[i].active <= run[i].t.tracked + run[i].pending
    ensures |run[i].t.tracked| <= Max(64, 2 * run[i].peak)
  {
    InvOnRun(run, i);
  }

  /** After cancel_actor_timers none of the actor's timers is active. */
  lemma CancelAllLeavesNone(run: seq<State>, i: nat, s': State)
    requires IsRun(run) && i < |run| && NextStep(run[i], s', CancelAll)
    ensures s'.mine * s'.active == {}
  {
    InvOnRun(run, i);
  }
}
