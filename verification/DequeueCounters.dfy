/** The counter protocol by which consumers share one producer's sub-queue: each consumer adds to
    the optimistic count, decides against the tail whether it may keep what it asked for, and
    either advances the head or adds to the overcommit. dequeue() is dequeue_bulk() with max 1. */
module DequeueCounters {
  import opened Common

  type Tid = nat

  /** Fate of one unit of the optimistic count (history). */
  datatype Slot =
    | Undecided(t: Tid)
    | Won(t: Tid, taken: bool)      // taken: the head has been advanced for it
    | Lost(t: Tid, counted: bool)   // counted: the overcommit has been raised for it

  datatype Consumer =
    | LoadTail(max: nat)
    | LoadOvercommit(max: nat, tail: int)
    | LoadOptimistic(max: nat, tail: int, over: int)
    | Claim(want: nat, over: int)
    | Decide(lo: nat, want: nat, over: int)
    | GiveBack(lo: nat, want: nat, actual: nat, won: bool)
    | Advance(lo: nat, want: nat, actual: nat)
    | Take(next: nat, end: nat)     // moving out the elements with indices [next, end)

  /** The storage of one element: constructed by the producer, moved out and destroyed by a consumer. */
  datatype Cell = Full | Emptied(t: Tid)

  /** The head went from first to first + count on behalf of t (history). */
  datatype Grant = Grant(t: Tid, first: nat, count: nat)

  datatype State = State(
    tail: nat,
    optimistic: nat,
    overcommit: int,
    head: nat,
    cells: seq<Cell>,      // by index
    consumers: map<Tid, Consumer>,
    // history
    slots: seq<Slot>,
    grants: seq<Grant>
  )

  datatype Step = Enqueue(n: nat) | Begin(t: Tid, max: nat) | Run(t: Tid)

  function Min(a: int, b: int): int {
    if a < b then a else b
  }

  /** slots with [lo, hi) overwritten. */
  function Fill(slots: seq<Slot>, lo: nat, hi: nat, v: Slot): (r: seq<Slot>)
    ensures |r| == |slots|
    ensures lo <= hi <= |slots| ==> forall i :: 0 <= i < |slots| ==> r[i] == if lo <= i < hi then v else slots[i]
  {
    if lo <= hi <= |slots| then slots[..lo] + Repeat(v, hi - lo) + slots[hi..] else slots
  }

  /** The consumer keeps [lo, mid) and loses [mid, hi). */
  function Decided(slots: seq<Slot>, lo: nat, mid: nat, hi: nat, t: Tid): (r: seq<Slot>)
    ensures |r| == |slots|
    ensures lo <= mid <= hi <= |slots| ==> forall i :: 0 <= i < |slots| ==>
              r[i] == if lo <= i < mid then Won(t, false) else if mid <= i < hi then Lost(t, false) else slots[i]
  {
    Fill(Fill(slots, lo, mid, Won(t, false)), mid, hi, Lost(t, false))
  }

  /** How many of its units a deciding consumer keeps. */
  function Kept(tail: nat, lo: nat, want: nat, over: int): nat {
    var room := tail - (lo - over);
    if 0 < room then Min(want, room) else 0
  }

  predicate RunStep(s: State, s': State, t: Tid) {
    && t in s.consumers
    && match s.consumers[t]
       case LoadTail(max) => s' == s.(consumers := s.consumers[t := LoadOvercommit(max, s.tail)])
       case LoadOvercommit(max, tail) =>
         s' == s.(consumers := s.consumers[t := LoadOptimistic(max, tail, s.overcommit)])
       case LoadOptimistic(max, tail, over) =>
         var desired := tail - (s.optimistic - over);
         s' == s.(consumers := if 0 < desired then s.consumers[t := Claim(Min(desired, max), over)]
                               else s.consumers - {t})
       case Claim(want, over) =>
         s' == s.(optimistic := s.optimistic + want,
                  slots := s.slots + Repeat(Undecided(t), want),
                  consumers := s.consumers[t := Decide(s.optimistic, want, over)])
       case Decide(lo, want, over) =>
         var room := s.tail - (lo - over);
         var actual := Kept(s.tail, lo, want, over);
         s' == s.(slots := Decided(s.slots, lo, lo + actual, lo + want, t),
                  consumers := s.consumers[t := if 0 < room && actual == want then Advance(lo, want, actual)
                                                else GiveBack(lo, want, actual, 0 < room)])
       case GiveBack(lo, want, actual, won) =>
         s' == s.(overcommit := s.overcommit + (want - actual),
                  slots := Fill(s.slots, lo + actual, lo + want, Lost(t, true)),
                  consumers := if won then s.consumers[t := Advance(lo, want, actual)] else s.consumers - {t})
       case Advance(lo, want, actual) =>
         s' == s.(head := s.head + actual,
                  grants := s.grants + [Grant(t, s.head, actual)],
                  slots := Fill(s.slots, lo, lo + actual, Won(t, true)),
                  consumers := s.consumers[t := Take(s.head, s.head + actual)])
       case Take(next, end) =>
         if next < end then
           s' == s.(cells := if next < |s.cells| then s.cells[next := Emptied(t)] else s.cells,
                    consumers := s.consumers[t := Take(next + 1, end)])
         else
           s' == s.(consumers := s.consumers - {t})
  }

  predicate NextStep(s: State, s': State, step: Step) {
    match step
    case Enqueue(n) => s' == s.(tail := s.tail + n, cells := s.cells + Repeat(Full, n))
    case Begin(t, max) => t !in s.consumers && s' == s.(consumers := s.consumers[t := LoadTail(max)])
    case Run(t) => RunStep(s, s', t)
  }

  ghost predicate Next(s: State, s': State) {
    exists step :: NextStep(s, s', step)
  }

  function Initial(): State {
    State(0, 0, 0, 0, [], map[], [], [])
  }

  ghost predicate IsRun(run: seq<State>) {
    && run != [] && run[0] == Initial()
    && forall i :: 0 <= i < |run| - 1 ==> Next(run[i], run[i + 1])
  }

  // ---------------------------------------------------------------- counting slots

  datatype Class = AnyWon | AnyLost | TakenWon | CountedLost

  predicate Is(v: Slot, k: Class) {
    match k
    case AnyWon => v.Won?
    case AnyLost => v.Lost?
    case TakenWon => v.Won? && v.taken
    case CountedLost => v.Lost? && v.counted
  }

  /** Units of class k among the first n. */
  function Count(slots: seq<Slot>, n: nat, k: Class): nat
    requires n <= |slots|
  {
    if n == 0 then 0 else Count(slots, n - 1, k) + if Is(slots[n - 1], k) then 1 else 0
  }

  lemma {:induction false} CountMonotone(a: seq<Slot>, b: seq<Slot>, n: nat, k: Class)
    requires n <= |a| && n <= |b| && forall i :: 0 <= i < n ==> Is(a[i], k) ==> Is(b[i], k)
    ensures Count(a, n, k) <= Count(b, n, k)
  {
    if n > 0 {
      CountMonotone(a, b, n - 1, k);
    }
  }

  lemma CountSame(a: seq<Slot>, b: seq<Slot>, n: nat, k: Class)
    requires n <= |a| && n <= |b| && forall i :: 0 <= i < n ==> Is(a[i], k) == Is(b[i], k)
    ensures Count(a, n, k) == Count(b, n, k)
  {
    CountMonotone(a, b, n, k);
    CountMonotone(b, a, n, k);
  }

  lemma {:induction false} CountPrefix(slots: seq<Slot>, lo: nat, n: nat, k: Class)
    requires lo <= n <= |slots|
    ensures Count(slots, lo, k) <= Count(slots, n, k)
  {
    if lo < n {
      CountPrefix(slots, lo, n - 1, k);
    }
  }

  function Clamp(n: int, lo: int, hi: int): int {
    if n < lo then lo else if n > hi then hi else n
  }

  /** Rewriting a uniform range shifts a count by the length of the range, or not at all. */
  lemma {:induction false} CountFill(slots: seq<Slot>, lo: nat, hi: nat, v: Slot, k: Class, n: nat)
    requires lo <= hi <= |slots| && n <= |slots|
    requires forall i :: lo <= i < hi ==> !Is(slots[i], k)
    ensures Count(Fill(slots, lo, hi, v), n, k)
            == Count(slots, n, k) + (if Is(v, k) then Clamp(n, lo, hi) - lo else 0)
  {
    if n > 0 {
      CountFill(slots, lo, hi, v, k, n - 1);
    }
  }

  // ---------------------------------------------------------------- invariant

  /** The slots a consumer is responsible for are in the state its program counter says. */
  predicate OwnSlots(s: State, t: Tid, p: Consumer) {
    match p
    case Decide(lo, want, over) =>
      && lo + want <= |s.slots|
      && forall i :: lo <= i < lo + want ==> s.slots[i] == Undecided(t)
    case GiveBack(lo, want, actual, won) =>
      && actual <= want && lo + want <= |s.slots| && (!won ==> actual == 0)
      && (forall i :: lo <= i < lo + actual ==> s.slots[i] == Won(t, false))
      && (forall i :: lo + actual <= i < lo + want ==> s.slots[i] == Lost(t, false))
    case Advance(lo, want, actual) =>
      && actual <= want && lo + want <= |s.slots|
      && forall i :: lo <= i < lo + actual ==> s.slots[i] == Won(t, false)
    case _ => true
  }

  /** The overcommit a consumer has read was raised by units that precede its own. */
  predicate ReadBehind(s: State, p: Consumer) {
    match p
    case LoadOptimistic(_, _, over) => over <= Count(s.slots, |s.slots|, AnyLost)
    case Claim(_, over) => over <= Count(s.slots, |s.slots|, AnyLost)
    case Decide(lo, _, over) => lo <= |s.slots| && over <= Count(s.slots, lo, AnyLost)
    case _ => true
  }

  predicate Pending(v: Slot) {
    v.Undecided? || (v.Won? && !v.taken) || (v.Lost? && !v.counted)
  }

  /** Unit i is in the hands of a consumer that will settle it. */
  predicate Settles(p: Consumer, i: nat) {
    match p
    case Decide(lo, want, _) => lo <= i < lo + want
    case GiveBack(lo, want, _, _) => lo <= i < lo + want
    case Advance(lo, _, actual) => lo <= i < lo + actual
    case _ => false
  }

  predicate CountersInv(s: State) {
    && Count(s.slots, |s.slots|, CountedLost) == s.overcommit
    && Count(s.slots, |s.slots|, TakenWon) == s.head
  }

  predicate SlotsInv(s: State) {
    && |s.slots| == s.optimistic
    && (forall t :: t in s.consumers ==> OwnSlots(s, t, s.consumers[t]))
    && (forall i :: 0 <= i < |s.slots| && Pending(s.slots[i]) ==>
          s.slots[i].t in s.consumers && Settles(s.consumers[s.slots[i].t], i))
  }

  predicate ReadInv(s: State) {
    forall t :: t in s.consumers ==> ReadBehind(s, s.consumers[t])
  }

  /** A won unit fits below the tail even if every earlier unit that is not yet lost wins. */
  predicate Fits(s: State, c: nat)
    requires c < |s.slots|
  {
    c + 1 - Count(s.slots, c, AnyLost) <= s.tail
  }

  predicate WonInv(s: State) {
    forall c :: 0 <= c < |s.slots| && s.slots[c].Won? ==> Fits(s, c)
  }

  predicate Inv(s: State) {
    CountersInv(s) && SlotsInv(s) && ReadInv(s) && WonInv(s)
  }

  // ---------------------------------------------------------------- preservation

  lemma LostGrows(a: seq<Slot>, b: seq<Slot>, c: nat)
    requires c <= |a| <= |b|
    requires forall i :: 0 <= i < |a| ==> a[i].Lost? ==> b[i].Lost?
    ensures Count(a, c, AnyLost) <= Count(b, c, AnyLost) <= Count(b, |b|, AnyLost)
  {
    CountMonotone(a, b, c, AnyLost);
    CountPrefix(b, c, |b|, AnyLost);
  }

  lemma OvercommitIsLost(s: State)
    requires CountersInv(s)
    ensures s.overcommit <= Count(s.slots, |s.slots|, AnyLost)
  {
    CountSub(s.slots, |s.slots|);
  }

  lemma {:induction false} CountSub(slots: seq<Slot>, n: nat)
    requires n <= |slots|
    ensures Count(slots, n, CountedLost) <= Count(slots, n, AnyLost)
    ensures Count(slots, n, TakenWon) <= Count(slots, n, AnyWon)
  {
    if n > 0 {
      CountSub(slots, n - 1);
    }
  }

  lemma {:induction false} ClaimKeepsCounts(slots: seq<Slot>, want: nat, t: Tid, n: nat, k: Class)
    requires |slots| <= n <= |slots| + want
    ensures Count(slots + Repeat(Undecided(t), want), n, k) == Count(slots, |slots|, k)
  {
    var r := slots + Repeat(Undecided(t), want);
    if n > |slots| {
      ClaimKeepsCounts(slots, want, t, n - 1, k);
      assert r[n - 1] == Undecided(t);
    } else {
      CountSame(slots, r, n, k);
    }
  }

  lemma ClaimKeepsCounters(s: State, s': State, t: Tid, want: nat)
    requires CountersInv(s) && s'.slots == s.slots + Repeat(Undecided(t), want)
    requires s'.overcommit == s.overcommit && s'.head == s.head
    ensures CountersInv(s')
  {
    ClaimKeepsCounts(s.slots, want, t, |s'.slots|, CountedLost);
    ClaimKeepsCounts(s.slots, want, t, |s'.slots|, TakenWon);
  }

  lemma FillKeepsCounters(s: State, s': State, lo: nat, hi: nat, v: Slot)
    requires CountersInv(s) && lo <= hi <= |s.slots|
    requires forall i :: lo <= i < hi ==> Pending(s.slots[i])
    requires s'.slots == Fill(s.slots, lo, hi, v)
    requires s'.overcommit == s.overcommit + if Is(v, CountedLost) then hi - lo else 0
    requires s'.head == s.head + if Is(v, TakenWon) then hi - lo else 0
    ensures CountersInv(s')
  {
    CountFill(s.slots, lo, hi, v, CountedLost, |s.slots|);
    CountFill(s.slots, lo, hi, v, TakenWon, |s.slots|);
  }

  lemma DecideKeepsCounters(s: State, s': State)
    requires CountersInv(s) && |s'.slots| == |s.slots|
    requires forall i :: 0 <= i < |s.slots| ==>
               s'.slots[i] == s.slots[i] || (Pending(s.slots[i]) && Pending(s'.slots[i]))
    requires s'.overcommit == s.overcommit && s'.head == s.head
    ensures CountersInv(s')
  {
    CountSame(s.slots, s'.slots, |s.slots|, CountedLost);
    CountSame(s.slots, s'.slots, |s.slots|, TakenWon);
  }

  lemma DecideShape(s: State, s': State, t: Tid)
    requires SlotsInv(s) && RunStep(s, s', t) && s.consumers[t].Decide?
    ensures |s'.slots| == |s.slots|
    ensures forall i :: 0 <= i < |s.slots| ==>
              s'.slots[i] == s.slots[i] || (Pending(s.slots[i]) && Pending(s'.slots[i]))
  {
    assert OwnSlots(s, t, s.consumers[t]);
  }

  lemma RunKeepsCounters(s: State, s': State, t: Tid)
    requires CountersInv(s) && SlotsInv(s) && RunStep(s, s', t)
    ensures CountersInv(s')
  {
    match s.consumers[t]
    case Claim(want, over) => ClaimKeepsCounters(s, s', t, want);
    case Decide(_, _, _) =>
      DecideShape(s, s', t);
      DecideKeepsCounters(s, s');
    case GiveBack(_, _, _, _) => GiveBackKeepsCounters(s, s', t);
    case Advance(_, _, _) => AdvanceKeepsCounters(s, s', t);
    case _ =>
  }

  lemma GiveBackKeepsCounters(s: State, s': State, t: Tid)
    requires CountersInv(s) && SlotsInv(s) && RunStep(s, s', t) && s.consumers[t].GiveBack?
    ensures CountersInv(s')
  {
    var p := s.consumers[t];
    assert OwnSlots(s, t, p);
    FillKeepsCounters(s, s', p.lo + p.actual, p.lo + p.want, Lost(t, true));
  }

  lemma AdvanceKeepsCounters(s: State, s': State, t: Tid)
    requires CountersInv(s) && SlotsInv(s) && RunStep(s, s', t) && s.consumers[t].Advance?
    ensures CountersInv(s')
  {
    var p := s.consumers[t];
    assert OwnSlots(s, t, p);
    FillKeepsCounters(s, s', p.lo, p.lo + p.actual, Won(t, true));
  }

  /** What a step does to the history: units of t only, never a lost one back. */
  lemma RunLocal(s: State, s': State, t: Tid)
    requires SlotsInv(s) && RunStep(s, s', t)
    ensures |s.slots| <= |s'.slots|
    ensures forall i :: 0 <= i < |s.slots| ==> s'.slots[i] == s.slots[i] || (s.slots[i].t == t && s'.slots[i].t == t && Pending(s.slots[i]))
    ensures forall i :: 0 <= i < |s.slots| ==> s.slots[i].Lost? ==> s'.slots[i].Lost?
  {
    assert OwnSlots(s, t, s.consumers[t]);
  }

  lemma RunKeepsOwnSlots(s: State, s': State, t: Tid)
    requires SlotsInv(s) && RunStep(s, s', t)
    ensures t in s'.consumers ==> OwnSlots(s', t, s'.consumers[t])
  {
    assert OwnSlots(s, t, s.consumers[t]);
  }

  lemma RunKeepsOthersSlots(s: State, s': State, t: Tid, u: Tid)
    requires SlotsInv(s) && RunStep(s, s', t) && u != t && u in s.consumers
    ensures u in s'.consumers && s'.consumers[u] == s.consumers[u] && OwnSlots(s', u, s'.consumers[u])
  {
    RunLocal(s, s', t);
    assert OwnSlots(s, u, s.consumers[u]);
  }

  /** A unit that another consumer has to settle stays with it. */
  lemma OthersKeepPending(s: State, s': State, t: Tid, i: nat)
    requires SlotsInv(s) && RunStep(s, s', t) && i < |s.slots| && i < |s'.slots|
    requires Pending(s.slots[i]) && s'.slots[i] == s.slots[i] && s.slots[i].t != t
    ensures s'.slots[i].t in s'.consumers && Settles(s'.consumers[s'.slots[i].t], i)
  {
    assert Settles(s.consumers[s.slots[i].t], i);
  }

  lemma OwnKeepPending(s: State, s': State, t: Tid, i: nat)
    requires RunStep(s, s', t) && OwnSlots(s, t, s.consumers[t]) && |s.slots| == s.optimistic
    requires i < |s'.slots| && Pending(s'.slots[i]) && (i < |s.slots| ==> Settles(s.consumers[t], i))
    ensures s'.slots[i].t == t && t in s'.consumers && Settles(s'.consumers[t], i)
  {
  }

  lemma RunKeepsPending(s: State, s': State, t: Tid, i: nat)
    requires SlotsInv(s) && RunStep(s, s', t) && i < |s'.slots| && Pending(s'.slots[i])
    ensures s'.slots[i].t in s'.consumers && Settles(s'.consumers[s'.slots[i].t], i)
  {
    RunLocal(s, s', t);
    assert i < |s.slots| ==> Pending(s.slots[i]);
    if i < |s.slots| && s.slots[i].t != t {
      OthersKeepPending(s, s', t, i);
    } else {
      OwnKeepPending(s, s', t, i);
    }
  }

  lemma RunKeepsSlots(s: State, s': State, t: Tid)
    requires SlotsInv(s) && RunStep(s, s', t)
    ensures SlotsInv(s')
  {
    forall u | u in s'.consumers ensures OwnSlots(s', u, s'.consumers[u]) {
      if u == t {
        RunKeepsOwnSlots(s, s', t);
      } else {
        RunKeepsOthersSlots(s, s', t, u);
      }
    }
    forall i | 0 <= i < |s'.slots| && Pending(s'.slots[i])
      ensures s'.slots[i].t in s'.consumers && Settles(s'.consumers[s'.slots[i].t], i) {
      RunKeepsPending(s, s', t, i);
    }
  }

  lemma RunKeepsReads(s: State, s': State, t: Tid)
    requires CountersInv(s) && SlotsInv(s) && ReadInv(s) && RunStep(s, s', t)
    ensures ReadInv(s')
  {
    RunLocal(s, s', t);
    LostGrows(s.slots, s'.slots, |s.slots|);
    OvercommitIsLost(s);
    forall u | u in s'.consumers ensures ReadBehind(s', s'.consumers[u]) {
      assert u in s.consumers && ReadBehind(s, s.consumers[u]);
      if u != t {
        OthersRead(s, s', s.consumers[u]);
      } else if s.consumers[t].Claim? {
        assert s'.consumers[t].lo == |s.slots|;
      }
    }
  }

  lemma OthersRead(s: State, s': State, p: Consumer)
    requires ReadBehind(s, p) && |s.slots| <= |s'.slots|
    requires forall i :: 0 <= i < |s.slots| ==> s.slots[i].Lost? ==> s'.slots[i].Lost?
    ensures ReadBehind(s', p)
  {
    LostGrows(s.slots, s'.slots, if p.Decide? then p.lo else |s.slots|);
  }

  /** The units a consumer wins fit: the overcommit it read was all raised by earlier units. */
  lemma DecideFits(s: State, s': State, t: Tid, c: nat)
    requires Inv(s) && RunStep(s, s', t) && s.consumers[t].Decide?
    requires c < |s'.slots| && s'.slots[c].Won? && !s.slots[c].Won?
    ensures Fits(s', c)
  {
    var p := s.consumers[t];
    assert OwnSlots(s, t, p) && ReadBehind(s, p);
    RunLocal(s, s', t);
    LostGrows(s.slots, s'.slots, p.lo);
    CountPrefix(s'.slots, p.lo, c, AnyLost);
  }

  lemma RunKeepsWon(s: State, s': State, t: Tid)
    requires Inv(s) && RunStep(s, s', t)
    ensures WonInv(s')
  {
    RunLocal(s, s', t);
    assert OwnSlots(s, t, s.consumers[t]);
    forall c | 0 <= c < |s'.slots| && s'.slots[c].Won? ensures Fits(s', c) {
      if c < |s.slots| && s.slots[c].Won? {
        assert Fits(s, c);
        LostGrows(s.slots, s'.slots, c);
      } else {
        DecideFits(s, s', t, c);
      }
    }
  }

  lemma NextKeepsInv(s: State, s': State, step: Step)
    requires Inv(s) && NextStep(s, s', step)
    ensures Inv(s')
  {
    match step
    case Run(t) =>
      RunKeepsCounters(s, s', t);
      RunKeepsSlots(s, s', t);
      RunKeepsReads(s, s', t);
      RunKeepsWon(s, s', t);
    case Enqueue(n) =>
      forall c | 0 <= c < |s'.slots| && s'.slots[c].Won? ensures Fits(s', c) {
        assert Fits(s, c);
      }
      forall u | u in s'.consumers ensures OwnSlots(s', u, s'.consumers[u]) && ReadBehind(s', s'.consumers[u]) {
        assert OwnSlots(s, u, s.consumers[u]) && ReadBehind(s, s.consumers[u]);
      }
    case Begin(t, max) =>
      forall c | 0 <= c < |s'.slots| && s'.slots[c].Won? ensures Fits(s', c) {
        assert Fits(s, c);
      }
      forall u | u in s'.consumers ensures OwnSlots(s', u, s'.consumers[u]) && ReadBehind(s', s'.consumers[u]) {
        assert u != t ==> OwnSlots(s, u, s.consumers[u]) && ReadBehind(s, s.consumers[u]);
      }
  }

  lemma {:induction false} InvOnRun(run: seq<State>, i: nat)
    requires IsRun(run) && i < |run|
    ensures Inv(run[i])
  {
    if i > 0 {
      InvOnRun(run, i - 1);
      assert Next(run[i - 1], run[i - 1 + 1]);
      var step :| NextStep(run[i - 1], run[i], step);
      NextKeepsInv(run[i - 1], run[i], step);
    }
  }

  // ---------------------------------------------------------------- theorems

  /** Won and lost units together are no more than all units. */
  lemma {:induction false} WonAndLost(slots: seq<Slot>, n: nat)
    requires n <= |slots|
    ensures Count(slots, n, AnyWon) + Count(slots, n, AnyLost) <= n
  {
    if n > 0 {
      WonAndLost(slots, n - 1);
    }
  }

  lemma {:induction false} WonBelowTail(s: State, n: nat)
    requires WonInv(s) && n <= |s.slots|
    ensures Count(s.slots, n, AnyWon) <= s.tail
  {
    if n > 0 {
      if s.slots[n - 1].Won? {
        assert Fits(s, n - 1);
        WonAndLost(s.slots, n - 1);
      } else {
        WonBelowTail(s, n - 1);
      }
    }
  }

  /** Claims never exceed what was enqueued: the units won so far, advanced or not, fit below the
      tail, and with them the head. */
  lemma ClaimsNeverExceedTail(run: seq<State>, i: nat)
    requires IsRun(run) && i < |run|
    ensures Count(run[i].slots, |run[i].slots|, AnyWon) <= run[i].tail
    ensures run[i].head <= run[i].tail
  {
    InvOnRun(run, i);
    WonBelowTail(run[i], |run[i].slots|);
    CountSub(run[i].slots, |run[i].slots|);
  }

  // ---------------------------------------------------------------- indices and elements

  function End(g: Grant): nat {
    g.first + g.count
  }

  predicate Covers(g: Grant, i: int) {
    g.first <= i < End(g)
  }

  predicate Takes(s: State, t: Tid, i: int) {
    t in s.consumers && s.consumers[t].Take? && s.consumers[t].next <= i < s.consumers[t].end
  }

  /** Each grant begins where the one before it ends, and the last one ends at the head. */
  predicate GrantsInv(grants: seq<Grant>, head: nat)
    decreases |grants|
  {
    if grants == [] then head == 0
    else
      var last := |grants| - 1;
      End(grants[last]) == head && GrantsInv(grants[..last], grants[last].first)
  }

  /** What a consumer is about to move out is there, below the head, and nobody else's. */
  ghost predicate RangesInv(s: State) {
    && |s.cells| == s.tail
    && (forall t :: t in s.consumers && s.consumers[t].Take? ==> s.consumers[t].next <= s.consumers[t].end <= s.head)
    && (forall t, i :: Takes(s, t, i) ==> i < |s.cells| && s.cells[i].Full?)
    && (forall t, u, i :: Takes(s, t, i) && Takes(s, u, i) ==> t == u)
    && (forall i :: s.head <= i < |s.cells| ==> s.cells[i].Full?)
  }

  /** A granted element is moved out, or about to be, by the consumer it was granted to. */
  ghost predicate GranteeInv(s: State) {
    forall k, i :: 0 <= k < |s.grants| && Covers(s.grants[k], i) && i < |s.cells| ==>
      if s.cells[i].Full? then Takes(s, s.grants[k].t, i) else s.cells[i].t == s.grants[k].t
  }

  ghost predicate ElementsInv(s: State) {
    GrantsInv(s.grants, s.head) && RangesInv(s) && GranteeInv(s)
  }

  predicate TouchesNoElement(p: Consumer) {
    !p.Advance? && !p.Take?
  }

  lemma QuietKeepsElements(s: State, s': State, t: Tid)
    requires ElementsInv(s) && RunStep(s, s', t) && TouchesNoElement(s.consumers[t])
    ensures ElementsInv(s')
  {
    SameTakes(s, s', t);
  }

  lemma SameTakes(s: State, s': State, t: Tid)
    requires RunStep(s, s', t) && TouchesNoElement(s.consumers[t])
    ensures s'.cells == s.cells && s'.grants == s.grants && s'.head == s.head && s'.tail == s.tail
    ensures forall u, i :: Takes(s', u, i) <==> Takes(s, u, i)
    ensures forall u :: u in s'.consumers && s'.consumers[u].Take? ==> u in s.consumers && s'.consumers[u] == s.consumers[u]
  {
  }

  lemma AdvanceKeepsElements(s: State, s': State, t: Tid)
    requires ElementsInv(s) && RunStep(s, s', t) && s.consumers[t].Advance? && s'.head <= s'.tail
    ensures ElementsInv(s')
  {
    forall u, i | Takes(s', u, i)
      ensures if u == t then s.head <= i < s'.head else Takes(s, u, i) && i < s.head
    {
      assert u != t ==> Takes(s, u, i);
    }
    assert s'.grants[..|s.grants|] == s.grants;
    forall k, i | 0 <= k < |s'.grants| && Covers(s'.grants[k], i) && i < |s'.cells|
      ensures if s'.cells[i].Full? then Takes(s', s'.grants[k].t, i) else s'.cells[i].t == s'.grants[k].t
    {
      if k < |s.grants| {
        assert s'.grants[k] == s.grants[k];
        assert s.cells[i].Full? ==> Takes(s, s.grants[k].t, i);
      }
    }
  }

  lemma TakeKeepsRanges(s: State, s': State, t: Tid)
    requires RangesInv(s) && RunStep(s, s', t) && s.consumers[t].Take?
    ensures RangesInv(s')
  {
    var next, end := s.consumers[t].next, s.consumers[t].end;
    forall u, i | Takes(s', u, i)
      ensures Takes(s, u, i) && (next < end ==> i != next)
    {
      assert next < end ==> Takes(s, t, next);
      assert u != t ==> Takes(s, u, i);
    }
  }

  lemma TakeKeepsGrantee(s: State, s': State, t: Tid)
    requires RangesInv(s) && GranteeInv(s) && RunStep(s, s', t) && s.consumers[t].Take?
    ensures GranteeInv(s')
  {
    var next, end := s.consumers[t].next, s.consumers[t].end;
    forall k, i | 0 <= k < |s'.grants| && Covers(s'.grants[k], i) && i < |s'.cells|
      ensures if s'.cells[i].Full? then Takes(s', s'.grants[k].t, i) else s'.cells[i].t == s'.grants[k].t
    {
      var g := s.grants[k];
      assert if s.cells[i].Full? then Takes(s, g.t, i) else s.cells[i].t == g.t;
      if next < end && i == next { assert Takes(s, t, next); }
    }
  }

  lemma NextKeepsElements(s: State, s': State, step: Step)
    requires ElementsInv(s) && NextStep(s, s', step) && s.head <= s.tail && s'.head <= s'.tail
    ensures ElementsInv(s')
  {
    match step
    case Run(t) =>
      if s.consumers[t].Advance? {
        AdvanceKeepsElements(s, s', t);
      } else if s.consumers[t].Take? {
        TakeKeepsRanges(s, s', t);
        TakeKeepsGrantee(s, s', t);
      } else {
        QuietKeepsElements(s, s', t);
      }
    case Enqueue(n) => EnqueueKeepsElements(s, s', n);
    case Begin(t, max) =>
      assert forall u, i :: Takes(s', u, i) <==> Takes(s, u, i);
  }

  lemma EnqueueKeepsElements(s: State, s': State, n: nat)
    requires ElementsInv(s) && NextStep(s, s', Enqueue(n)) && s.head <= s.tail
    ensures ElementsInv(s')
  {
    assert forall u, i :: Takes(s', u, i) <==> Takes(s, u, i);
    forall k, i | 0 <= k < |s'.grants| && Covers(s'.grants[k], i) && i < |s'.cells|
      ensures if s'.cells[i].Full? then Takes(s', s'.grants[k].t, i) else s'.cells[i].t == s'.grants[k].t
    {
      GrantsBelowHead(s.grants, s.head, k);
      assert s'.cells[i] == s.cells[i];
    }
  }

  lemma {:induction false} GrantsBelowHead(grants: seq<Grant>, head: nat, k: nat)
    requires GrantsInv(grants, head) && k < |grants|
    ensures End(grants[k]) <= head
    decreases |grants|
  {
    var last := |grants| - 1;
    if k < last { GrantsBelowHead(grants[..last], grants[last].first, k); }
  }

  lemma {:induction false} ElementsOnRun(run: seq<State>, i: nat)
    requires IsRun(run) && i < |run|
    ensures ElementsInv(run[i])
  {
    if i > 0 {
      ElementsOnRun(run, i - 1);
      ClaimsNeverExceedTail(run, i - 1);
      ClaimsNeverExceedTail(run, i);
      assert Next(run[i - 1], run[i - 1 + 1]);
      var step :| NextStep(run[i - 1], run[i], step);
      NextKeepsElements(run[i - 1], run[i], step);
    }
  }

  lemma {:induction false} GrantsApart(grants: seq<Grant>, head: nat, k: nat, l: nat)
    requires GrantsInv(grants, head) && k < l < |grants|
    ensures End(grants[k]) <= grants[l].first
    decreases |grants|
  {
    var last := |grants| - 1;
    if l < last {
      GrantsApart(grants[..last], grants[last].first, k, l);
    } else {
      GrantsBelowHead(grants[..last], grants[last].first, k);
    }
  }

  lemma {:induction false} GrantsCover(grants: seq<Grant>, head: nat, i: nat) returns (k: nat)
    requires GrantsInv(grants, head) && i < head
    ensures k < |grants| && Covers(grants[k], i)
    decreases |grants|
  {
    var last := |grants| - 1;
    if grants[last].first <= i {
      k := last;
    } else {
      k := GrantsCover(grants[..last], grants[last].first, i);
    }
  }

  ghost predicate Granted(grants: seq<Grant>, x: int) {
    exists k :: 0 <= k < |grants| && Covers(grants[k], x)
  }

  /** Each index goes to exactly one consumer: what head's fetch-and-add returned to the consumers is,
      over any run, a list of disjoint ranges that cover [0, head) and lie below the tail. */
  lemma IndicesGivenOnce(run: seq<State>, i: nat)
    requires IsRun(run) && i < |run|
    ensures forall k, l :: 0 <= k < l < |run[i].grants| ==> End(run[i].grants[k]) <= run[i].grants[l].first
    ensures forall x :: 0 <= x < run[i].head ==> Granted(run[i].grants, x)
    ensures forall k, x :: 0 <= k < |run[i].grants| && Covers(run[i].grants[k], x) ==> 0 <= x < run[i].head
    ensures forall k :: 0 <= k < |run[i].grants| ==> End(run[i].grants[k]) <= run[i].tail
  {
    ElementsOnRun(run, i);
    ClaimsNeverExceedTail(run, i);
    var s := run[i];
    forall k, l | 0 <= k < l < |s.grants|
      ensures End(s.grants[k]) <= s.grants[l].first
    {
      GrantsApart(s.grants, s.head, k, l);
    }
    forall k | 0 <= k < |s.grants|
      ensures End(s.grants[k]) <= s.head
    {
      GrantsBelowHead(s.grants, s.head, k);
    }
    forall x | 0 <= x < s.head
      ensures Granted(s.grants, x)
    {
      var k := GrantsCover(s.grants, s.head, x);
    }
    forall x, k | 0 <= k < |s.grants| && Covers(s.grants[k], x)
      ensures 0 <= x < s.head
    {
      GrantsBelowHead(s.grants, s.head, k);
    }
  }

  /** A grant is made once: later states of the run only add grants, and a consumer gets as its range
      what no earlier grant has. */
  lemma {:induction false} GrantsStay(run: seq<State>, i: nat, j: nat)
    requires IsRun(run) && i <= j < |run|
    ensures IsPrefix(run[i].grants, run[j].grants)
    ensures forall x :: 0 <= x < |run[i].cells| && run[i].cells[x].Emptied? ==>
              x < |run[j].cells| && run[j].cells[x] == run[i].cells[x]
    decreases j - i
  {
    if i < j {
      GrantsStay(run, i, j - 1);
      ElementsOnRun(run, j - 1);
      assert Next(run[j - 1], run[j - 1 + 1]);
      var step :| NextStep(run[j - 1], run[j], step);
      StepKeepsEmptied(run[j - 1], run[j], step);
    }
  }

  lemma StepKeepsEmptied(s: State, s': State, step: Step)
    requires RangesInv(s) && NextStep(s, s', step)
    ensures IsPrefix(s.grants, s'.grants) && |s.cells| <= |s'.cells|
    ensures forall x :: 0 <= x < |s.cells| && s.cells[x].Emptied? ==> s'.cells[x] == s.cells[x]
  {
    if step.Run? && s.consumers[step.t].Take? && s.consumers[step.t].next < s.consumers[step.t].end {
      assert Takes(s, step.t, s.consumers[step.t].next);
    }
  }

  /** A consumer never moves out an element that is not there, or that another one moves out: every
      index of its range holds an enqueued element, and is in no other consumer's range. */
  lemma TakesWhatIsThere(run: seq<State>, i: nat, t: Tid, x: int)
    requires IsRun(run) && i < |run| && Takes(run[i], t, x)
    ensures 0 <= x < run[i].tail && x < |run[i].cells| && run[i].cells[x].Full?
    ensures forall u :: Takes(run[i], u, x) ==> u == t
  {
    ElementsOnRun(run, i);
  }

  /** The consumer of a grant has moved out everything it was granted. */
  predicate TakenOut(cells: seq<Cell>, g: Grant) {
    End(g) <= |cells| && forall x :: g.first <= x < End(g) ==> cells[x] == Emptied(g.t)
  }

  /** With no consumer in flight every element below the head was moved out, by the consumer that was
      granted its index, and every element above it is still there. */
  lemma EachElementTakenOnce(run: seq<State>, i: nat)
    requires IsRun(run) && i < |run| && run[i].consumers == map[]
    ensures |run[i].cells| == run[i].tail && run[i].head <= run[i].tail
    ensures forall x :: run[i].head <= x < run[i].tail ==> run[i].cells[x].Full?
    ensures forall k :: 0 <= k < |run[i].grants| ==> TakenOut(run[i].cells, run[i].grants[k])
  {
    ElementsOnRun(run, i);
    ClaimsNeverExceedTail(run, i);
    var s := run[i];
    forall k | 0 <= k < |s.grants|
      ensures TakenOut(s.cells, s.grants[k])
    {
      GrantsBelowHead(s.grants, s.head, k);
      forall x | s.grants[k].first <= x < End(s.grants[k])
        ensures s.cells[x] == Emptied(s.grants[k].t)
      {
        assert Covers(s.grants[k], x) && !Takes(s, s.grants[k].t, x);
      }
    }
  }

  // ---------------------------------------------------------------- at rest

  lemma {:induction false} AllSettled(slots: seq<Slot>, n: nat)
    requires n <= |slots| && forall i :: 0 <= i < |slots| ==> !Pending(slots[i])
    ensures Count(slots, n, TakenWon) + Count(slots, n, CountedLost) == n
  {
    if n > 0 {
      AllSettled(slots, n - 1);
    }
  }

  /** With no consumer in flight the counters agree. */
  lemma QuiescentCounters(run: seq<State>, i: nat)
    requires IsRun(run) && i < |run| && run[i].consumers == map[]
    ensures run[i].optimistic - run[i].overcommit == run[i].head
  {
    InvOnRun(run, i);
    AllSettled(run[i].slots, |run[i].slots|);
  }

  ghost predicate Reachable(s: State) {
    exists run: seq<State> :: IsRun(run) && run[|run| - 1] == s
  }

  lemma Extend(s: State, s': State, step: Step)
    requires Reachable(s) && NextStep(s, s', step)
    ensures Reachable(s')
  {
    var run: seq<State> :| IsRun(run) && run[|run| - 1] == s;
    var longer := run + [s'];
    forall j | 0 <= j < |longer| - 1 ensures Next(longer[j], longer[j + 1]) {
      if j < |run| - 1 {
        assert Next(run[j], run[j + 1]);
      }
    }
    assert IsRun(longer) && longer[|longer| - 1] == s';
  }

  /** A consumer running alone from there takes exactly what there is, up to its maximum. */
  lemma SoloDequeue(s: State, t: Tid, max: nat) returns (s': State)
    requires Reachable(s) && s.consumers == map[] && s.head < s.tail
    ensures Reachable(s') && s'.consumers == map[] && s'.tail == s.tail
    ensures s'.head == s.head + Min(max, s.tail - s.head)
    ensures s'.grants == s.grants + [Grant(t, s.head, s'.head - s.head)]
  {
    var run: seq<State> :| IsRun(run) && run[|run| - 1] == s;
    QuiescentCounters(run, |run| - 1);
    var want: nat := Min(s.tail - s.head, max);
    var s1 := s.(consumers := map[t := LoadTail(max)]);
    Extend(s, s1, Begin(t, max));
    var s2 := s1.(consumers := map[t := LoadOvercommit(max, s.tail)]);
    Extend(s1, s2, Run(t));
    var s3 := s2.(consumers := map[t := LoadOptimistic(max, s.tail, s.overcommit)]);
    Extend(s2, s3, Run(t));
    var s4 := s3.(consumers := map[t := Claim(want, s.overcommit)]);
    Extend(s3, s4, Run(t));
    var s5 := SoloClaimed(s4, t, want);
    s' := SoloTakes(s5, t);
  }

  lemma SoloClaimed(s4: State, t: Tid, want: nat) returns (s': State)
    requires Reachable(s4) && s4.consumers == map[t := Claim(want, s4.overcommit)]
    requires s4.optimistic - s4.overcommit == s4.head && want <= s4.tail - s4.head && s4.head < s4.tail
    ensures Reachable(s') && s'.consumers == map[t := Take(s4.head, s4.head + want)]
    ensures s'.tail == s4.tail && s'.head == s4.head + want && s'.grants == s4.grants + [Grant(t, s4.head, want)]
  {
    var lo := s4.optimistic;
    var s5 := s4.(optimistic := lo + want, slots := s4.slots + Repeat(Undecided(t), want),
                  consumers := map[t := Decide(lo, want, s4.overcommit)]);
    Extend(s4, s5, Run(t));
    s' := SoloDecide(s5, t);
  }

  lemma SoloDecide(s: State, t: Tid) returns (s': State)
    requires Reachable(s) && t in s.consumers && s.consumers == map[t := s.consumers[t]] && s.consumers[t].Decide?
    requires var p := s.consumers[t]; p.want <= s.tail - (p.lo - p.over) && 0 < s.tail - (p.lo - p.over)
    ensures Reachable(s') && s'.consumers == map[t := Take(s.head, s.head + s.consumers[t].want)]
    ensures s'.tail == s.tail && s'.head == s.head + s.consumers[t].want
    ensures s'.grants == s.grants + [Grant(t, s.head, s.consumers[t].want)]
  {
    var p := s.consumers[t];
    assert Kept(s.tail, p.lo, p.want, p.over) == p.want;
    var s1 := s.(slots := Decided(s.slots, p.lo, p.lo + p.want, p.lo + p.want, t),
                 consumers := map[t := Advance(p.lo, p.want, p.want)]);
    Extend(s, s1, Run(t));
    s' := SoloAdvance(s1, t);
  }

  lemma SoloAdvance(s: State, t: Tid) returns (s': State)
    requires Reachable(s) && t in s.consumers && s.consumers == map[t := s.consumers[t]] && s.consumers[t].Advance?
    ensures Reachable(s') && s'.consumers == map[t := Take(s.head, s.head + s.consumers[t].actual)]
    ensures s'.tail == s.tail && s'.head == s.head + s.consumers[t].actual
    ensures s'.grants == s.grants + [Grant(t, s.head, s.consumers[t].actual)]
  {
    var p := s.consumers[t];
    s' := s.(head := s.head + p.actual, grants := s.grants + [Grant(t, s.head, p.actual)],
             slots := Fill(s.slots, p.lo, p.lo + p.actual, Won(t, true)),
             consumers := map[t := Take(s.head, s.head + p.actual)]);
    Extend(s, s', Run(t));
  }

  lemma {:induction false} SoloTakes(s: State, t: Tid) returns (s': State)
    requires Reachable(s) && t in s.consumers && s.consumers == map[t := s.consumers[t]] && s.consumers[t].Take?
    ensures Reachable(s') && s'.consumers == map[]
    ensures s'.tail == s.tail && s'.head == s.head && s'.grants == s.grants
    decreases s.consumers[t].end - s.consumers[t].next
  {
    var next, end := s.consumers[t].next, s.consumers[t].end;
    if next < end {
      var s1 := s.(cells := if next < |s.cells| then s.cells[next := Emptied(t)] else s.cells,
                   consumers := map[t := Take(next + 1, end)]);
      Extend(s, s1, Run(t));
      s' := SoloTakes(s1, t);
    } else {
      s' := s.(consumers := map[]);
      Extend(s, s', Run(t));
    }
  }
}
