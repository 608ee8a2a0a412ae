/** The timer manager's tables: a queue ordered by fire time in which cancelled timers stay until they
    reach its head, a lookup map and a callback map. Each method is one stretch of code under the
    manager's mutex. */
module TimerManager {
  import opened Common

  type Id = nat
  type Time = int

  /** What a timer will do: fire at fire, and every interval after that unless interval is 0. */
  datatype Plan = Plan(fire: Time, interval: nat)

  datatype Fired = Fired(id: Id, due: Time)

  // ---------------------------------------------------------------- what the methods do to the active timers

  predicate Earliest(active: map<Id, Plan>, id: Id) {
    id in active && forall other :: other in active ==> active[id].fire <= active[other].fire
  }

  function Extracted(active: map<Id, Plan>, id: Id): map<Id, Plan>
    requires id in active
  {
    var p := active[id];
    if p.interval > 0 then active[id := p.(fire := p.fire + p.interval)] else active - {id}
  }

  // ---------------------------------------------------------------- the tables

  class Timer {
    const id: Id
    const interval: nat
    var fire: Time
    var cancelled: bool

    constructor (id: Id, fire: Time, interval: nat)
      ensures this.id == id && this.fire == fire && this.interval == interval && !cancelled
    {
      this.id, this.fire, this.interval, this.cancelled := id, fire, interval, false;
    }
  }

  /** No timer is in the queue twice. */
  predicate Simple(queue: multiset<Timer>) {
    forall t :: t in queue ==> queue[t] == 1
  }

  lemma AddOne(queue: multiset<Timer>, timer: Timer)
    requires Simple(queue) && timer !in queue
    ensures Simple(queue + multiset{timer})
    ensures forall t :: t in queue + multiset{timer} <==> t == timer || t in queue
  {
  }

  lemma RemoveOne(queue: multiset<Timer>, timer: Timer)
    requires Simple(queue) && timer in queue
    ensures Simple(queue - multiset{timer}) && queue - multiset{timer} + multiset{timer} == queue
    ensures forall t :: t in queue - multiset{timer} <==> t != timer && t in queue
  {
  }

  class Manager {
    var queue: multiset<Timer>  // the entries of the priority queue
    var lookup: map<Id, Timer>
    var callbacks: set<Id>
    var nextId: Id
    ghost var active: map<Id, Plan>  // the timers that will still fire, unless cancelled

    /** Both maps have the same keys, and these are, one to one, the entries of the queue that are not
        cancelled. */
    ghost predicate Valid()
      reads this, queue
    {
      && active.Keys == lookup.Keys == callbacks
      && (forall id :: id in lookup ==> Entered(id, lookup[id]) && active[id] == PlanOf(lookup[id]))
      && Simple(queue) && (forall t :: t in queue ==> t.id < nextId)
      && (forall t :: t in queue && !t.cancelled ==> t.id in lookup && lookup[t.id] == t)
    }

    ghost predicate Entered(id: Id, t: Timer)
      reads this, queue
    {
      t in queue && t.id == id && !t.cancelled
    }

    function PlanOf(t: Timer): Plan
      reads t
    {
      Plan(t.fire, t.interval)
    }

    constructor ()
      ensures Valid() && active == map[] && queue == multiset{} && nextId == 1
    {
      queue, lookup, callbacks, nextId, active := multiset{}, map[], {}, 1, map[];
    }

    method Schedule(now: Time, delay: nat, interval: nat) returns (id: Id)
      requires Valid()
      modifies this
      ensures Valid() && id == old(nextId) && nextId == id + 1
      ensures forall t :: t in queue ==> t in old(queue) || fresh(t)
      ensures id !in old(active) && active == old(active)[id := Plan(now + delay, interval)]
    {
      assert forall i :: i in lookup ==> i < nextId;
      id := nextId;
      nextId := nextId + 1;
      var timer := new Timer(id, now + delay, interval);
      Insert(timer);
    }

    /** The locked part of schedule. */
    method Insert(timer: Timer)
      requires Valid() && timer !in queue && timer.id !in lookup && timer.id < nextId && !timer.cancelled
      modifies this`queue, this`lookup, this`callbacks, this`active
      ensures Valid() && active == old(active)[timer.id := PlanOf(timer)] && queue == old(queue) + multiset{timer}
    {
      AddOne(queue, timer);
      queue := queue + multiset{timer};
      lookup := lookup[timer.id := timer];
      callbacks := callbacks + {timer.id};
      active := active[timer.id := PlanOf(timer)];
      forall id | id in lookup
        ensures Entered(id, lookup[id]) && active[id] == PlanOf(lookup[id])
      {
        if id != timer.id { assert old(Entered(id, lookup[id])); }
      }
      forall t | t in queue && !t.cancelled
        ensures t.id in lookup && lookup[t.id] == t
      {
        if t != timer { assert t in old(queue) && t.id in old(lookup); }
      }
    }

    /** Safe for ids that are unknown, finished or already cancelled. */
    method Cancel(id: Id)
      requires Valid()
      modifies this, queue
      ensures Valid() && active == old(active) - {id} && nextId == old(nextId) && queue == old(queue)
    {
      if id in lookup {
        lookup[id].cancelled := true;
        lookup := lookup - {id};
      }
      callbacks := callbacks - {id};
      active := active - {id};
      forall i | i in lookup
        ensures Entered(i, lookup[i]) && active[i] == PlanOf(lookup[i])
      {
        assert old(Entered(i, lookup[i]));
      }
    }

    method ActiveCount() returns (n: nat)
      requires Valid()
      ensures n == |active|
    {
      n := |lookup|;
      assert active.Keys == lookup.Keys;
    }

    method RetainActive(ids: set<Id>) returns (left: set<Id>)
      requires Valid()
      ensures left == ids * active.Keys
    {
      left := set id | id in ids && id in callbacks;
    }

    /** stop() once the thread is joined. */
    method Clear()
      requires Valid()
      modifies this
      ensures Valid() && active == map[] && queue == multiset{} && nextId == old(nextId)
    {
      while queue != multiset{}
        invariant nextId == old(nextId)
        decreases |queue|
      {
        var t :| t in queue;
        queue := queue - multiset{t};
      }
      lookup, callbacks, active := map[], {}, map[];
    }

    /** The head of the priority queue: an entry none is due before. */
    method Top() returns (top: Timer)
      requires queue != multiset{}
      ensures top in queue && forall t :: t in queue ==> top.fire <= t.fire
    {
      top :| top in queue;
      var rest := queue - multiset{top};
      while rest != multiset{}
        invariant top in queue && rest <= queue
        invariant forall t :: t in queue ==> t in rest || top.fire <= t.fire
        decreases |rest|
      {
        var t :| t in rest;
        if t.fire < top.fire { top := t; }
        rest := rest - multiset{t};
      }
    }

    /** One pass of the timer thread's loop: drop a cancelled head, wait, or extract the head. What is
        extracted is active, due, and none active is due before it; a pass that extracts nothing has
        shortened the queue or left nothing due. */
    method Pass(now: Time) returns (fired: Option<Fired>)
      requires Valid()
      modifies this, queue
      ensures Valid() && nextId == old(nextId) && queue <= old(queue)
      ensures fired.None? ==> active == old(active)
      ensures fired.None? ==> |queue| < |old(queue)| || NothingDue(now)
      ensures fired.Some? ==> Earliest(old(active), fired.value.id)
      ensures fired.Some? ==> old(active)[fired.value.id].fire == fired.value.due <= now
      ensures fired.Some? ==>
                var p := old(active)[fired.value.id];
                if p.interval > 0 then active == old(active)[fired.value.id := Plan(p.fire + p.interval, p.interval)]
                else active == old(active) - {fired.value.id}
    {
      if queue == multiset{} { return None; }
      var timer := Top();
      if timer.cancelled {
        DropCancelled(timer);
        return None;
      }
      if now < timer.fire { return None; }
      fired := Extract(timer);
    }

    /** The head of the queue, unless cancelled, is the earliest active timer. */
    lemma TopIsEarliest(timer: Timer)
      requires Valid() && timer in queue && !timer.cancelled && forall t :: t in queue ==> timer.fire <= t.fire
      ensures Earliest(active, timer.id) && active[timer.id] == PlanOf(timer)
    {
      forall other | other in active
        ensures timer.fire <= active[other].fire
      {
        assert Entered(other, lookup[other]);
      }
    }

    method Extract(timer: Timer) returns (fired: Option<Fired>)
      requires Valid() && timer in queue && !timer.cancelled && forall t :: t in queue ==> timer.fire <= t.fire
      modifies this`queue, this`lookup, this`callbacks, this`active, timer
      ensures Valid() && queue <= old(queue)
      ensures fired == Some(Fired(timer.id, old(timer.fire))) && Earliest(old(active), timer.id)
      ensures old(active)[timer.id] == old(PlanOf(timer))
      ensures active == if timer.interval > 0 then old(active)[timer.id := Plan(old(timer.fire) + timer.interval, timer.interval)]
                        else old(active) - {timer.id}
    {
      TopIsEarliest(timer);
      fired := Some(Fired(timer.id, timer.fire));
      if timer.interval > 0 {
        Repeat(timer);
      } else {
        Finish(timer);
      }
    }

    predicate NothingDue(now: Time)
      reads this`queue, queue
    {
      forall t :: t in queue ==> now < t.fire
    }

    method DropCancelled(timer: Timer)
      requires Valid() && timer in queue && timer.cancelled
      modifies this`queue
      ensures Valid() && active == old(active) && queue <= old(queue) && |queue| < |old(queue)|
    {
      RemoveOne(queue, timer);
      assert |queue - multiset{timer}| == |queue| - 1;
      queue := queue - multiset{timer};
    }

    /** Take a periodic timer off the queue and put it back for its next time. */
    method Reinsert(timer: Timer)
      requires Simple(queue) && timer in queue
      modifies this`queue, timer`fire
      ensures queue == old(queue) && timer.fire == old(timer.fire) + timer.interval
    {
      RemoveOne(queue, timer);
      queue := queue - multiset{timer};
      timer.fire := timer.fire + timer.interval;
      queue := queue + multiset{timer};
    }

    method Repeat(timer: Timer)
      requires Valid() && timer in queue && !timer.cancelled && timer.interval > 0
      modifies this`queue, this`active, timer
      ensures Valid() && timer.id in old(active) && active == Extracted(old(active), timer.id)
      ensures queue == old(queue)
    {
      assert timer.id in lookup && lookup[timer.id] == timer;
      Reinsert(timer);
      active := active[timer.id := PlanOf(timer)];
      forall id | id in lookup
        ensures Entered(id, lookup[id]) && active[id] == PlanOf(lookup[id])
      {
        assert old(Entered(id, lookup[id]));
        if id != timer.id { assert lookup[id] != timer; }
      }
    }

    /** A one-shot leaves the queue and both maps. */
    method Finish(timer: Timer)
      requires Valid() && timer in queue && !timer.cancelled && timer.interval == 0
      modifies this`queue, this`lookup, this`callbacks, this`active
      ensures Valid() && timer.id in old(active) && active == Extracted(old(active), timer.id)
      ensures queue == old(queue) - multiset{timer}
    {
      RemoveOne(queue, timer);
      queue := queue - multiset{timer};
      lookup := lookup - {timer.id};
      callbacks := callbacks - {timer.id};
      active := active - {timer.id};
    }
  }
}
