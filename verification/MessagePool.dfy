/** The message pool: per-thread caches in front of one shared free list per size class, with a cap
    enforced by reserving first and correcting after. Any number of threads, one access to a shared
    counter or list a step; the shared list is a bag whose bulk enqueue may fail and whose bulk
    dequeue may return fewer blocks than it holds. */
module MessagePool {
  import opened Common

  const SIZE_CLASSES: seq<nat> := [64, 128, 256, 512, 1024]
  const NUM_CLASSES: nat := 5
  const MAX_POOLED_SIZE: nat := 1024
  const CACHE_CAPACITY: nat := 32
  const TRANSFER_BATCH: nat := 16

  /** home is the class whose block size the block was made with. */
  datatype Block = Block(home: nat, serial: nat)

  datatype Pc =
    | Idle
    | Subtract(n: nat, size: nat)                                     // dequeued, not yet uncounted
    | Load(blocks: seq<Block>, pending: seq<Block>)                   // release_to_shared begins
    | Reserve(max: nat, blocks: seq<Block>, pending: seq<Block>)
    | Correct(keep: nat, blocks: seq<Block>, pending: seq<Block>)
    | Enqueue(blocks: seq<Block>, pending: seq<Block>)
    | Uncount(blocks: seq<Block>, pending: seq<Block>)                // the enqueue failed

  /** A thread as one size class sees it; it is no longer alive once its cache was flushed at exit. */
  datatype Thread = Thread(alive: bool, cache: seq<Block>, pc: Pc)

  datatype Class = Class(
    shared: seq<Block>,
    count: int,
    threads: seq<Thread>,
    made: nat,           // blocks made so far
    freed: seq<Block>    // blocks returned to the heap
  )

  datatype State = State(
    cap: nat,            // 0 is no cap
    classes: seq<Class>,
    users: multiset<Block>,
    headers: map<Block, nat>
  )

  /** taken and left are what a bulk dequeue returns and leaves. */
  datatype Action =
    | Alloc(size: nat, taken: seq<Block>, left: seq<Block>)
    | Free(block: Block)
    | Exit
    | Prewarm(n: nat)
    | Run(ok: bool)

  datatype Step = SetCap(cap: nat) | Act(i: nat, t: nat, action: Action)

  // ---------------------------------------------------------------- size classes

  /** The index loop of size_class_index, from class i on. */
  function SizeClassFrom(size: nat, i: nat): nat
    requires i <= NUM_CLASSES
    decreases NUM_CLASSES - i
  {
    if i < NUM_CLASSES && size > SIZE_CLASSES[i] then SizeClassFrom(size, i + 1) else i
  }

  function SizeClassIndex(size: nat): nat {
    SizeClassFrom(size, 0)
  }

  /** The smallest class that fits; none exactly for the sizes that bypass the pool. */
  lemma SizeClassFits(size: nat)
    ensures SizeClassIndex(size) < NUM_CLASSES <==> size <= MAX_POOLED_SIZE
    ensures forall i :: 0 <= i < NUM_CLASSES ==> (size <= SIZE_CLASSES[i] <==> SizeClassIndex(size) <= i)
  {
    assert SizeClassFrom(size, 5) == 5;
    assert SizeClassFrom(size, 4) == if size > 1024 then 5 else 4;
    assert SizeClassFrom(size, 3) == if size > 512 then SizeClassFrom(size, 4) else 3;
    assert SizeClassFrom(size, 2) == if size > 256 then SizeClassFrom(size, 3) else 2;
    assert SizeClassFrom(size, 1) == if size > 128 then SizeClassFrom(size, 2) else 1;
  }

  // ---------------------------------------------------------------- steps

  /** What one step of a thread does to its class. given goes to a user who asked for size bytes. */
  datatype Effect = Effect(
    shared: seq<Block>, count: int, thread: Thread, made: nat, freed: seq<Block>, given: seq<Block>, size: nat)

  function Fresh(home: nat, from: nat, n: nat): seq<Block> {
    if n == 0 then [] else Fresh(home, from, n - 1) + [Block(home, from + n - 1)]
  }

  /** allocate after any refill: a cached block, else a new one. */
  function HandOut(home: nat, c: Class, th: Thread, count: int, size: nat): Effect {
    if th.cache != [] then
      var last := |th.cache| - 1;
      Effect(c.shared, count, th.(cache := th.cache[..last], pc := Idle), 0, [], [th.cache[last]], size)
    else
      Effect(c.shared, count, th.(pc := Idle), 1, [], [Block(home, c.made)], size)
  }

  function Finish(th: Thread, pending: seq<Block>): Thread {
    th.(cache := th.cache + pending, pc := Idle)
  }

  function Quiet(c: Class, th: Thread): Effect {
    Effect(c.shared, c.count, th, 0, [], [], 0)
  }

  /** The next access of a thread inside allocate's refill or release_to_shared. */
  function RunAct(home: nat, cap: nat, c: Class, th: Thread, ok: bool): Effect
    requires th.pc.Correct? ==> th.pc.keep <= |th.pc.blocks|
  {
    match th.pc
    case Idle => Quiet(c, th)
    case Subtract(n, size) => HandOut(home, c, th, c.count - n, size)
    case Load(bs, p) => Quiet(c, th.(pc := Reserve(cap, bs, p)))
    case Reserve(max, bs, p) =>
      var over := max > 0 && c.count + |bs| > max;
      var keep := if c.count >= max then 0 else max - c.count;
      Effect(c.shared, c.count + |bs|,
             th.(pc := if over then Correct(keep, bs, p) else Enqueue(bs, p)), 0, [], [], 0)
    case Correct(keep, bs, p) =>
      Effect(c.shared, c.count - (|bs| - keep),
             if keep == 0 then Finish(th, p) else th.(pc := Enqueue(bs[..keep], p)), 0, bs[keep..], [], 0)
    case Enqueue(bs, p) =>
      if ok then Effect(c.shared + bs, c.count, Finish(th, p), 0, [], [], 0)
      else Quiet(c, th.(pc := Uncount(bs, p)))
    case Uncount(bs, p) => Effect(c.shared, c.count - |bs|, Finish(th, p), 0, bs, [], 0)
  }

  predicate Dequeues(shared: seq<Block>, taken: seq<Block>, left: seq<Block>, limit: nat) {
    |taken| <= limit && multiset(shared) == multiset(taken) + multiset(left)
  }

  /** Whether a thread can begin this action, or has the access to make. */
  predicate Enabled(c: Class, th: Thread, a: Action) {
    match a
    case Run(_) => !th.pc.Idle? && (th.pc.Correct? ==> th.pc.keep <= |th.pc.blocks|)
    case Alloc(_, taken, left) =>
      th.pc.Idle? && (th.cache == [] ==> Dequeues(c.shared, taken, left, if th.alive then TRANSFER_BATCH else 1))
    case Free(_) => th.pc.Idle?
    case Exit => th.pc.Idle? && th.alive
    case Prewarm(n) => th.pc.Idle? && 0 < n <= TRANSFER_BATCH
  }

  function ActOn(home: nat, cap: nat, c: Class, th: Thread, a: Action): Effect
    requires Enabled(c, th, a)
  {
    match a
    case Run(ok) => RunAct(home, cap, c, th, ok)
    case Alloc(size, taken, left) =>
      if th.cache != [] then HandOut(home, c, th, c.count, size)
      else Quiet(c, th.(cache := taken, pc := Subtract(|taken|, size))).(shared := left)
    case Free(b) =>
      if !th.alive then Quiet(c, th.(pc := Load([b], [])))
      else if |th.cache| == CACHE_CAPACITY then
        var keep := CACHE_CAPACITY - TRANSFER_BATCH;
        Quiet(c, th.(cache := th.cache[..keep], pc := Load(th.cache[keep..], [b])))
      else Quiet(c, th.(cache := th.cache + [b]))
    case Exit =>
      Quiet(c, if th.cache == [] then th.(alive := false) else Thread(false, [], Load(th.cache, [])))
    case Prewarm(n) => Quiet(c, th.(pc := Load(Fresh(home, c.made, n), []))).(made := n)
  }

  function Updated(c: Class, t: nat, e: Effect): Class
    requires t < |c.threads|
  {
    Class(e.shared, e.count, c.threads[t := e.thread], c.made + e.made, c.freed + e.freed)
  }

  function Back(a: Action): seq<Block> {
    if a.Free? then [a.block] else []
  }

  /** The class an allocation or release works on is chosen by size: the size asked for, or the one
      stored in the block's header. */
  predicate RightClass(s: State, i: nat, a: Action) {
    && (a.Alloc? ==> a.size <= MAX_POOLED_SIZE && i == SizeClassIndex(a.size))
    && (a.Free? ==> a.block in s.users && a.block in s.headers
                    && s.headers[a.block] <= MAX_POOLED_SIZE && i == SizeClassIndex(s.headers[a.block]))
  }

  function WithHeaders(headers: map<Block, nat>, e: Effect): map<Block, nat> {
    if e.given == [] then headers else headers[e.given[0] := e.size]
  }

  predicate NextStep(s: State, s': State, step: Step) {
    match step
    case SetCap(cap) => s' == s.(cap := cap)
    case Act(i, t, a) =>
      && i < |s.classes| && t < |s.classes[i].threads|
      && RightClass(s, i, a) && Enabled(s.classes[i], s.classes[i].threads[t], a)
      && var e := ActOn(i, s.cap, s.classes[i], s.classes[i].threads[t], a);
         s' == State(s.cap, s.classes[i := Updated(s.classes[i], t, e)],
                     s.users - multiset(Back(a)) + multiset(e.given), WithHeaders(s.headers, e))
  }

  ghost predicate Next(s: State, s': State) {
    exists step :: NextStep(s, s', step)
  }

  function Initial(cap: nat, threads: nat): State {
    State(cap, Repeat(Class([], 0, Repeat(Thread(true, [], Idle), threads), 0, []), NUM_CLASSES), multiset{}, map[])
  }

  ghost predicate IsRun(cap: nat, threads: nat, run: seq<State>) {
    && run != [] && run[0] == Initial(cap, threads)
    && forall i :: 0 <= i < |run| - 1 ==> Next(run[i], run[i + 1])
  }

  // ---------------------------------------------------------------- sums over threads

  function Total(threads: seq<Thread>, f: Thread -> int, n: nat): int
    requires n <= |threads|
  {
    if n == 0 then 0 else Total(threads, f, n - 1) + f(threads[n - 1])
  }

  lemma {:induction false} TotalUpdate(threads: seq<Thread>, f: Thread -> int, t: nat, th: Thread, n: nat)
    requires t < |threads| && n <= |threads|
    ensures Total(threads[t := th], f, n) == Total(threads, f, n) + if t < n then f(th) - f(threads[t]) else 0
  {
    if n > 0 { TotalUpdate(threads, f, t, th, n - 1); }
  }

  lemma {:induction false} TotalAtMost(threads: seq<Thread>, f: Thread -> int, g: Thread -> int, n: nat)
    requires n <= |threads| && forall th :: f(th) <= g(th)
    ensures Total(threads, f, n) <= Total(threads, g, n)
  {
    if n > 0 { TotalAtMost(threads, f, g, n - 1); }
  }

  lemma {:induction false} TotalZero(threads: seq<Thread>, f: Thread -> int, n: nat)
    requires n <= |threads| && forall i :: 0 <= i < n ==> f(threads[i]) == 0
    ensures Total(threads, f, n) == 0
  {
    if n > 0 { TotalZero(threads, f, n - 1); }
  }

  /** How much of count a thread accounts for: blocks counted and not yet on the list, or taken off it
      and not yet uncounted. */
  function Reserved(th: Thread): int {
    match th.pc
    case Subtract(n, _) => n
    case Correct(_, bs, _) => |bs|
    case Enqueue(bs, _) => |bs|
    case Uncount(bs, _) => |bs|
    case _ => 0
  }

  /** How many blocks a thread may still put on the list under a reservation it has. */
  function Entitled(th: Thread): int {
    match th.pc
    case Correct(keep, bs, _) => if keep <= |bs| then keep else |bs|
    case Enqueue(bs, _) => |bs|
    case _ => 0
  }

  function Releasing(pc: Pc): seq<Block> {
    if pc.Idle? || pc.Subtract? then [] else pc.blocks
  }

  function Pending(pc: Pc): seq<Block> {
    if pc.Idle? || pc.Subtract? then [] else pc.pending
  }

  /** How often a thread has b: cached, being released, or waiting for room in the cache. */
  function Held(th: Thread, b: Block): int {
    multiset(th.cache)[b] + multiset(Releasing(th.pc))[b] + multiset(Pending(th.pc))[b]
  }

  function HeldOf(b: Block): Thread -> int {
    th => Held(th, b)
  }

  // ---------------------------------------------------------------- invariant

  predicate ThreadOk(th: Thread) {
    && |th.cache| + |Pending(th.pc)| <= CACHE_CAPACITY
    && (th.pc.Correct? ==> th.pc.keep <= |th.pc.blocks|)
    && (th.pc.Subtract? ==> |th.cache| == th.pc.n && (!th.alive ==> th.pc.n <= 1))
    && (!th.alive && !th.pc.Subtract? ==> th.cache == [] && Pending(th.pc) == [])
  }

  predicate CountOk(c: Class) {
    c.count == |c.shared| + Total(c.threads, Reserved, |c.threads|)
  }

  predicate CapOk(c: Class, cap: nat) {
    && |c.shared| + Total(c.threads, Entitled, |c.threads|) <= cap
    && forall t :: 0 <= t < |c.threads| && c.threads[t].pc.Reserve? ==> c.threads[t].pc.max == cap
  }

  /** How often b is in the class's hands: on the list, with a thread, or returned to the heap. */
  function InClass(c: Class, b: Block): int {
    multiset(c.shared)[b] + Total(c.threads, HeldOf(b), |c.threads|) + multiset(c.freed)[b]
  }

  predicate BlockOk(s: State, b: Block) {
    && (forall i :: 0 <= i < |s.classes| && i != b.home ==> InClass(s.classes[i], b) == 0)
    && if b.home < |s.classes| then
         s.users[b] + InClass(s.classes[b.home], b) == if b.serial < s.classes[b.home].made then 1 else 0
       else s.users[b] == 0
  }

  predicate HeadersOk(s: State) {
    forall b :: b in s.users ==>
      b in s.headers && s.headers[b] <= MAX_POOLED_SIZE && SizeClassIndex(s.headers[b]) == b.home
  }

  /** A thread in the middle of an allocation is refilling the class its request belongs to. */
  predicate SizeOk(i: nat, th: Thread) {
    th.pc.Subtract? ==> th.pc.size <= MAX_POOLED_SIZE && SizeClassIndex(th.pc.size) == i
  }

  predicate ThreadsOk(i: nat, threads: seq<Thread>) {
    forall t :: 0 <= t < |threads| ==> ThreadOk(threads[t]) && SizeOk(i, threads[t])
  }

  ghost predicate Inv(s: State) {
    && |s.classes| == NUM_CLASSES
    && (forall i :: 0 <= i < |s.classes| ==> CountOk(s.classes[i]) && ThreadsOk(i, s.classes[i].threads))
    && (forall b :: BlockOk(s, b))
    && HeadersOk(s)
  }

  // ---------------------------------------------------------------- one thread's step

  lemma SplitBag(xs: seq<Block>, k: nat)
    requires k <= |xs|
    ensures multiset(xs) == multiset(xs[..k]) + multiset(xs[k..])
  {
    assert xs == xs[..k] + xs[k..];
  }

  function IsMade(home: nat, from: nat, n: nat, b: Block): int {
    if b.home == home && from <= b.serial < from + n then 1 else 0
  }

  lemma {:induction false} FreshOnce(home: nat, from: nat, n: nat, b: Block)
    ensures multiset(Fresh(home, from, n))[b] == IsMade(home, from, n, b) && |Fresh(home, from, n)| == n
  {
    if n > 0 {
      FreshOnce(home, from, n - 1, b);
      var last := Block(home, from + n - 1);
      BagAppend(Fresh(home, from, n - 1), last, b);
      assert Fresh(home, from, n) == Fresh(home, from, n - 1) + [last];
    }
  }

  lemma BagAppend(xs: seq<Block>, x: Block, b: Block)
    ensures multiset(xs + [x])[b] == multiset(xs)[b] + if x == b then 1 else 0
  {
  }

  lemma ActKeepsThread(home: nat, cap: nat, c: Class, th: Thread, a: Action)
    requires Enabled(c, th, a) && ThreadOk(th)
    ensures ThreadOk(ActOn(home, cap, c, th, a).thread)
  {
  }

  /** Every access changes count by exactly what it adds to the list, reserves or gives up. */
  lemma ActCounts(home: nat, cap: nat, c: Class, th: Thread, a: Action)
    requires Enabled(c, th, a) && ThreadOk(th)
    ensures var e := ActOn(home, cap, c, th, a);
            e.count - |e.shared| - Reserved(e.thread) == c.count - |c.shared| - Reserved(th)
  {
    if a.Alloc? && th.cache == [] {
      assert |multiset(c.shared)| == |multiset(a.taken)| + |multiset(a.left)|;
    }
  }

  /** A new reservation is granted only what count leaves below the cap. */
  lemma ActCap(home: nat, cap: nat, c: Class, th: Thread, a: Action)
    requires Enabled(c, th, a) && ThreadOk(th) && cap > 0 && (th.pc.Reserve? ==> th.pc.max == cap)
    ensures var e := ActOn(home, cap, c, th, a);
            && (e.thread.pc.Reserve? ==> e.thread.pc.max == cap)
            && (|| |e.shared| + Entitled(e.thread) <= |c.shared| + Entitled(th)
                || (e.shared == c.shared && Entitled(th) == 0 && c.count + Entitled(e.thread) <= cap))
  {
    if a.Alloc? && th.cache == [] {
      assert |multiset(c.shared)| == |multiset(a.taken)| + |multiset(a.left)|;
    }
  }

  /** No block appears or disappears: what a step gives out, lists, holds and frees is what was there,
      what came back and what it made. */
  ghost predicate Conserves(home: nat, c: Class, th: Thread, a: Action, e: Effect, b: Block) {
    multiset(e.given)[b] + multiset(e.shared)[b] + Held(e.thread, b) + multiset(e.freed)[b]
    == multiset(c.shared)[b] + Held(th, b) + multiset(Back(a))[b] + IsMade(home, c.made, e.made, b)
  }

  lemma HandOutConserves(home: nat, c: Class, th: Thread, count: int, size: nat, a: Action, b: Block)
    requires (th.pc.Idle? || th.pc.Subtract?) && Back(a) == []
    ensures Conserves(home, c, th, a, HandOut(home, c, th, count, size), b)
  {
    if th.cache != [] {
      assert th.cache == th.cache[..|th.cache| - 1] + [th.cache[|th.cache| - 1]];
    }
  }

  lemma FinishHeld(th: Thread, p: seq<Block>, b: Block)
    ensures Held(Finish(th, p), b) == multiset(th.cache)[b] + multiset(p)[b]
  {
  }

  lemma RunConserves(home: nat, cap: nat, c: Class, th: Thread, ok: bool, b: Block)
    requires Enabled(c, th, Run(ok))
    ensures Conserves(home, c, th, Run(ok), RunAct(home, cap, c, th, ok), b)
  {
    match th.pc {
      case Subtract(n, size) => HandOutConserves(home, c, th, c.count - n, size, Run(ok), b);
      case Correct(_, _, _) => CorrectConserves(home, cap, c, th, ok, b);
      case Enqueue(_, _) => EnqueueConserves(home, cap, c, th, ok, b);
      case Uncount(_, _) => EnqueueConserves(home, cap, c, th, ok, b);
      case _ => ReserveConserves(home, cap, c, th, ok, b);
    }
  }

  lemma ReserveConserves(home: nat, cap: nat, c: Class, th: Thread, ok: bool, b: Block)
    requires th.pc.Load? || th.pc.Reserve?
    ensures Conserves(home, c, th, Run(ok), RunAct(home, cap, c, th, ok), b)
  {
    var e := RunAct(home, cap, c, th, ok);
    assert e.shared == c.shared && e.thread.cache == th.cache;
    assert Releasing(e.thread.pc) == Releasing(th.pc) && Pending(e.thread.pc) == Pending(th.pc);
  }

  lemma EnqueueConserves(home: nat, cap: nat, c: Class, th: Thread, ok: bool, b: Block)
    requires th.pc.Enqueue? || th.pc.Uncount?
    ensures Conserves(home, c, th, Run(ok), RunAct(home, cap, c, th, ok), b)
  {
    FinishHeld(th, th.pc.pending, b);
    assert multiset(c.shared + th.pc.blocks)[b] == multiset(c.shared)[b] + multiset(th.pc.blocks)[b];
  }

  lemma CorrectConserves(home: nat, cap: nat, c: Class, th: Thread, ok: bool, b: Block)
    requires Enabled(c, th, Run(ok)) && th.pc.Correct?
    ensures Conserves(home, c, th, Run(ok), RunAct(home, cap, c, th, ok), b)
  {
    if th.pc.keep == 0 {
      FinishHeld(th, th.pc.pending, b);
      assert th.pc.blocks[0..] == th.pc.blocks;
    } else {
      PartConserves(home, cap, c, th, ok, b);
    }
  }

  lemma PartConserves(home: nat, cap: nat, c: Class, th: Thread, ok: bool, b: Block)
    requires Enabled(c, th, Run(ok)) && th.pc.Correct? && th.pc.keep > 0
    ensures Conserves(home, c, th, Run(ok), RunAct(home, cap, c, th, ok), b)
  {
    var bs, keep := th.pc.blocks, th.pc.keep;
    SplitBag(bs, keep);
    assert multiset(bs)[b] == multiset(bs[..keep])[b] + multiset(bs[keep..])[b];
  }

  lemma ActConserves(home: nat, cap: nat, c: Class, th: Thread, a: Action, b: Block)
    requires Enabled(c, th, a)
    ensures Conserves(home, c, th, a, ActOn(home, cap, c, th, a), b)
  {
    match a {
      case Run(ok) => RunConserves(home, cap, c, th, ok, b);
      case Alloc(size, taken, left) =>
        if th.cache != [] { HandOutConserves(home, c, th, c.count, size, a, b); }
      case Free(_) =>
        if |th.cache| == CACHE_CAPACITY { SplitBag(th.cache, CACHE_CAPACITY - TRANSFER_BATCH); }
      case Exit =>
      case Prewarm(n) => FreshOnce(home, c.made, n, b);
    }
  }

  // ---------------------------------------------------------------- one class

  lemma UpdateKeepsCount(c: Class, t: nat, e: Effect)
    requires CountOk(c) && t < |c.threads|
    requires e.count - |e.shared| - Reserved(e.thread) == c.count - |c.shared| - Reserved(c.threads[t])
    ensures CountOk(Updated(c, t, e))
  {
    TotalUpdate(c.threads, Reserved, t, e.thread, |c.threads|);
  }

  lemma UpdateKeepsCap(c: Class, t: nat, e: Effect, cap: nat)
    requires CountOk(c) && CapOk(c, cap) && t < |c.threads|
    requires e.thread.pc.Reserve? ==> e.thread.pc.max == cap
    requires || |e.shared| + Entitled(e.thread) <= |c.shared| + Entitled(c.threads[t])
             || (e.shared == c.shared && Entitled(c.threads[t]) == 0 && c.count + Entitled(e.thread) <= cap)
    ensures CapOk(Updated(c, t, e), cap)
  {
    TotalUpdate(c.threads, Entitled, t, e.thread, |c.threads|);
    TotalAtMost(c.threads, Entitled, Reserved, |c.threads|);
  }

  lemma UpdateInClass(c: Class, t: nat, e: Effect, b: Block)
    requires t < |c.threads|
    ensures InClass(Updated(c, t, e), b) - multiset(e.shared)[b] - Held(e.thread, b) - multiset(e.freed)[b]
         == InClass(c, b) - multiset(c.shared)[b] - Held(c.threads[t], b)
  {
    TotalUpdate(c.threads, HeldOf(b), t, e.thread, |c.threads|);
  }

  lemma {:induction false} TotalNatural(threads: seq<Thread>, f: Thread -> int, n: nat)
    requires n <= |threads| && forall th :: f(th) >= 0
    ensures Total(threads, f, n) >= 0
    ensures forall t :: 0 <= t < n ==> f(threads[t]) <= Total(threads, f, n)
  {
    if n > 0 { TotalNatural(threads, f, n - 1); }
  }

  lemma InClassNatural(c: Class, b: Block)
    ensures InClass(c, b) >= 0
  {
    TotalNatural(c.threads, HeldOf(b), |c.threads|);
  }

  // ---------------------------------------------------------------- all classes

  /** How a step changes the number of times b is in a class and with users. */
  lemma ClassBalance(s: State, i: nat, t: nat, a: Action, b: Block)
    requires i < |s.classes| && t < |s.classes[i].threads| && Enabled(s.classes[i], s.classes[i].threads[t], a)
    ensures var c := s.classes[i];
            var e := ActOn(i, s.cap, c, c.threads[t], a);
            && InClass(Updated(c, t, e), b) + multiset(e.given)[b]
               == InClass(c, b) + multiset(Back(a))[b] + IsMade(i, c.made, e.made, b)
            && InClass(Updated(c, t, e), b) >= 0
  {
    var c := s.classes[i];
    var e := ActOn(i, s.cap, c, c.threads[t], a);
    ActConserves(i, s.cap, c, c.threads[t], a, b);
    UpdateInClass(c, t, e, b);
    InClassNatural(Updated(c, t, e), b);
  }

  /** A block comes back to the class it was made for. */
  lemma FreedAtHome(s: State, i: nat, a: Action, b: Block)
    requires HeadersOk(s) && RightClass(s, i, a)
    ensures b.home != i ==> multiset(Back(a))[b] == 0
    ensures (s.users - multiset(Back(a)))[b] == s.users[b] - multiset(Back(a))[b]
  {
  }

  lemma ActKeepsBlock(s: State, s': State, i: nat, t: nat, a: Action, b: Block)
    requires NextStep(s, s', Act(i, t, a)) && HeadersOk(s) && BlockOk(s, b)
    ensures BlockOk(s', b)
    ensures b.home != i ==> multiset(ActOn(i, s.cap, s.classes[i], s.classes[i].threads[t], a).given)[b] == 0
  {
    var e := ActOn(i, s.cap, s.classes[i], s.classes[i].threads[t], a);
    ClassBalance(s, i, t, a, b);
    FreedAtHome(s, i, a, b);
    assert s'.users[b] == s.users[b] - multiset(Back(a))[b] + multiset(e.given)[b];
    assert s'.classes[i] == Updated(s.classes[i], t, e);
    assert forall j :: 0 <= j < |s.classes| && j != i ==> s'.classes[j] == s.classes[j];
  }

  lemma GivenSize(home: nat, cap: nat, c: Class, th: Thread, a: Action)
    requires Enabled(c, th, a) && SizeOk(home, th) && ThreadOk(th)
    requires a.Alloc? ==> a.size <= MAX_POOLED_SIZE && home == SizeClassIndex(a.size)
    ensures var e := ActOn(home, cap, c, th, a);
            && SizeOk(home, e.thread)
            && (e.given != [] ==> |e.given| == 1 && e.size <= MAX_POOLED_SIZE && SizeClassIndex(e.size) == home)
  {
  }

  lemma ActKeepsHeaders(s: State, s': State, i: nat, t: nat, a: Action)
    requires Inv(s) && NextStep(s, s', Act(i, t, a))
    ensures HeadersOk(s')
  {
    var th := s.classes[i].threads[t];
    var e := ActOn(i, s.cap, s.classes[i], th, a);
    GivenSize(i, s.cap, s.classes[i], th, a);
    forall b | b in s'.users
      ensures b in s'.headers && s'.headers[b] <= MAX_POOLED_SIZE && SizeClassIndex(s'.headers[b]) == b.home
    {
      if e.given != [] && b == e.given[0] {
        assert BlockOk(s, b);
        ActKeepsBlock(s, s', i, t, a, b);
        assert e.given == [b] && multiset(e.given)[b] == 1;
      } else {
        assert e.given == [] || e.given == [e.given[0]];
        assert b in s.users;
      }
    }
  }

  lemma ActKeepsClass(s: State, s': State, i: nat, t: nat, a: Action)
    requires NextStep(s, s', Act(i, t, a))
    requires CountOk(s.classes[i]) && ThreadsOk(i, s.classes[i].threads)
    ensures CountOk(s'.classes[i]) && ThreadsOk(i, s'.classes[i].threads)
  {
    var c := s.classes[i];
    var e := ActOn(i, s.cap, c, c.threads[t], a);
    ActCounts(i, s.cap, c, c.threads[t], a);
    UpdateKeepsCount(c, t, e);
    ActKeepsThread(i, s.cap, c, c.threads[t], a);
    GivenSize(i, s.cap, c, c.threads[t], a);
  }

  lemma NextKeepsInv(s: State, s': State, step: Step)
    requires Inv(s) && NextStep(s, s', step)
    ensures Inv(s')
  {
    if step.Act? {
      ActKeepsClass(s, s', step.i, step.t, step.action);
      ActKeepsHeaders(s, s', step.i, step.t, step.action);
      forall b
        ensures BlockOk(s', b)
      {
        assert BlockOk(s, b);
        ActKeepsBlock(s, s', step.i, step.t, step.action, b);
      }
    } else {
      forall b
        ensures BlockOk(s', b)
      {
        assert BlockOk(s, b);
      }
    }
  }

  lemma InitialInv(cap: nat, threads: nat)
    ensures Inv(Initial(cap, threads))
    ensures forall i :: 0 <= i < NUM_CLASSES ==> CapOk(Initial(cap, threads).classes[i], cap)
  {
    var s := Initial(cap, threads);
    var c := s.classes[0];
    assert forall i :: 0 <= i < NUM_CLASSES ==> s.classes[i] == c;
    TotalZero(c.threads, Reserved, |c.threads|);
    TotalZero(c.threads, Entitled, |c.threads|);
    forall b
      ensures BlockOk(s, b)
    {
      TotalZero(c.threads, HeldOf(b), |c.threads|);
    }
  }

  lemma {:induction false} InvOnRun(cap: nat, threads: nat, run: seq<State>, n: nat)
    requires IsRun(cap, threads, run) && n < |run|
    ensures Inv(run[n])
  {
    if n == 0 {
      InitialInv(cap, threads);
    } else {
      InvOnRun(cap, threads, run, n - 1);
      assert Next(run[n - 1], run[n - 1 + 1]);
      var step :| NextStep(run[n - 1], run[n], step);
      NextKeepsInv(run[n - 1], run[n], step);
    }
  }

  // ---------------------------------------------------------------- theorems

  /** Every block ever made is in exactly one place: with one user, on its own class's list, in one
      thread's hands there, or returned to the heap; and in no other class. */
  lemma BlocksConserved(cap: nat, threads: nat, run: seq<State>, n: nat, b: Block)
    requires IsRun(cap, threads, run) && n < |run| && b.home < NUM_CLASSES
    ensures |run[n].classes| == NUM_CLASSES
    ensures run[n].users[b] + InClass(run[n].classes[b.home], b)
         == if b.serial < run[n].classes[b.home].made then 1 else 0
    ensures forall i :: 0 <= i < NUM_CLASSES && i != b.home ==> InClass(run[n].classes[i], b) == 0
  {
    InvOnRun(cap, threads, run, n);
    assert BlockOk(run[n], b);
  }

  /** count is the blocks on the list plus the reservations in flight, so it never wraps below zero. */
  lemma CountCoversList(cap: nat, threads: nat, run: seq<State>, n: nat, i: nat)
    requires IsRun(cap, threads, run) && n < |run| && i < NUM_CLASSES
    ensures i < |run[n].classes|
    ensures var c := run[n].classes[i];
            && c.count == |c.shared| + Total(c.threads, Reserved, |c.threads|)
            && c.count >= |c.shared|
            && ((forall t :: 0 <= t < |c.threads| ==> c.threads[t].pc.Idle?) ==> c.count == |c.shared|)
  {
    InvOnRun(cap, threads, run, n);
    var c := run[n].classes[i];
    TotalNatural(c.threads, Reserved, |c.threads|);
    if forall t :: 0 <= t < |c.threads| ==> c.threads[t].pc.Idle? {
      TotalZero(c.threads, Reserved, |c.threads|);
    }
  }

  /** A cap that is not changed is never exceeded, however many threads release at once. */
  lemma CapHolds(cap: nat, threads: nat, run: seq<State>, n: nat, i: nat)
    requires IsRun(cap, threads, run) && n < |run| && i < NUM_CLASSES && cap > 0
    requires forall k :: 0 <= k < |run| ==> run[k].cap == cap
    ensures i < |run[n].classes| && |run[n].classes[i].shared| <= cap
  {
    InvOnRun(cap, threads, run, n);
    CapOnRun(cap, threads, run, n, i);
    TotalNatural(run[n].classes[i].threads, Entitled, |run[n].classes[i].threads|);
  }

  lemma {:induction false} CapOnRun(cap: nat, threads: nat, run: seq<State>, n: nat, i: nat)
    requires IsRun(cap, threads, run) && n < |run| && i < NUM_CLASSES && cap > 0
    requires forall k :: 0 <= k < |run| ==> run[k].cap == cap
    ensures i < |run[n].classes| && CapOk(run[n].classes[i], cap)
  {
    if n == 0 {
      InitialInv(cap, threads);
    } else {
      CapOnRun(cap, threads, run, n - 1, i);
      InvOnRun(cap, threads, run, n - 1);
      assert Next(run[n - 1], run[n - 1 + 1]);
      NextKeepsCap(run[n - 1], run[n], i);
    }
  }

  lemma NextKeepsCap(s: State, s': State, i: nat)
    requires Inv(s) && Next(s, s') && i < NUM_CLASSES && s.cap == s'.cap > 0 && CapOk(s.classes[i], s.cap)
    ensures i < |s'.classes| && CapOk(s'.classes[i], s.cap)
  {
    var step :| NextStep(s, s', step);
    if step.Act? && step.i == i {
      var c := s.classes[i];
      var th := c.threads[step.t];
      ActCap(i, s.cap, c, th, step.action);
      UpdateKeepsCap(c, step.t, ActOn(i, s.cap, c, th, step.action), s.cap);
    }
  }

  /** deallocate always picks the class the block was made for, and a block handed out is at least as
      large as the size asked for. */
  lemma BlockReturnsHome(cap: nat, threads: nat, run: seq<State>, n: nat, b: Block)
    requires IsRun(cap, threads, run) && n < |run| && b in run[n].users
    ensures b in run[n].headers && b.home < NUM_CLASSES
    ensures SizeClassIndex(run[n].headers[b]) == b.home && run[n].headers[b] <= SIZE_CLASSES[b.home]
  {
    InvOnRun(cap, threads, run, n);
    SizeClassFits(run[n].headers[b]);
  }

  /** A thread's cache never outgrows its array. */
  lemma CacheFits(cap: nat, threads: nat, run: seq<State>, n: nat, i: nat, t: nat)
    requires IsRun(cap, threads, run) && n < |run| && i < NUM_CLASSES
    requires i < |run[n].classes| && t < |run[n].classes[i].threads|
    ensures |run[n].classes[i].threads[t].cache| <= CACHE_CAPACITY
  {
    InvOnRun(cap, threads, run, n);
    assert ThreadOk(run[n].classes[i].threads[t]);
  }

  // ---------------------------------------------------------------- what pooling is for

  /** The class as a thread's next access finds it when nobody else has stepped. */
  function Then(c: Class, e: Effect): Class {
    c.(shared := e.shared, count := e.count, made := c.made + e.made, freed := c.freed + e.freed)
  }

  /** A thread that frees a block gets the same block back when it next allocates, with no access to
      anything shared and nothing made or returned to the heap. */
  lemma FreeThenAlloc(home: nat, cap: nat, c: Class, th: Thread, b: Block, size: nat, taken: seq<Block>, left: seq<Block>)
    requires th.alive && th.pc.Idle? && |th.cache| < CACHE_CAPACITY
    ensures Enabled(c, th, Free(b))
    ensures var e := ActOn(home, cap, c, th, Free(b));
            && Then(c, e) == c && Enabled(Then(c, e), e.thread, Alloc(size, taken, left))
            && var e' := ActOn(home, cap, Then(c, e), e.thread, Alloc(size, taken, left));
               e'.given == [b] && e'.thread == th && Then(c, e') == c
  {
    assert (th.cache + [b])[..|th.cache|] == th.cache;
  }

  /** An allocation makes a block only when the thread's cache is empty and its dequeue got nothing. */
  lemma MadeOnlyWhenDry(home: nat, cap: nat, c: Class, th: Thread, a: Action)
    requires Enabled(c, th, a) && ThreadOk(th) && !a.Prewarm?
    ensures var e := ActOn(home, cap, c, th, a);
            e.made > 0 ==> th.cache == [] && th.pc.Subtract? && th.pc.n == 0
  {
  }

  /** A release gets a place for as many of its blocks as the cap leaves, all of them without a cap. */
  lemma ReservesAllThatFits(home: nat, cap: nat, c: Class, th: Thread, ok: bool)
    requires th.pc.Reserve? && c.count >= 0
    ensures var room := th.pc.max - c.count;
            var e := RunAct(home, cap, c, th, ok);
            && Entitled(e.thread) <= |th.pc.blocks|
            && (Entitled(e.thread) == |th.pc.blocks| <==> th.pc.max == 0 || |th.pc.blocks| <= room || th.pc.blocks == [])
            && (Entitled(e.thread) < |th.pc.blocks| ==> Entitled(e.thread) == if room > 0 then room else 0)
  {
  }

  /** Blocks go back to the heap only above the cap or after a failed enqueue. */
  lemma FreedOnlyAboveCap(home: nat, cap: nat, c: Class, th: Thread, a: Action)
    requires Enabled(c, th, a)
    ensures var e := ActOn(home, cap, c, th, a);
            && (e.freed != [] ==> th.pc.Correct? || th.pc.Uncount?)
            && (e.thread.pc.Correct? && !th.pc.Correct? ==> th.pc.Reserve? && 0 < th.pc.max < c.count + |th.pc.blocks|)
  {
  }

  /** No thread is about to return blocks to the heap, and none ever was. */
  predicate Keeps(s: State) {
    s.cap == 0 && forall i :: 0 <= i < |s.classes| ==> ClassKeeps(s.classes[i])
  }

  predicate ClassKeeps(c: Class) {
    c.freed == [] && forall t :: 0 <= t < |c.threads| ==> KeepsAll(c.threads[t].pc)
  }

  predicate KeepsAll(pc: Pc) {
    !pc.Correct? && !pc.Uncount? && (pc.Reserve? ==> pc.max == 0)
  }

  lemma ActKeepsAll(home: nat, c: Class, th: Thread, a: Action)
    requires Enabled(c, th, a) && KeepsAll(th.pc)
    ensures var e := ActOn(home, 0, c, th, a);
            e.freed == [] && (KeepsAll(e.thread.pc) || e.thread.pc.Uncount?)
  {
  }

  /** No bulk enqueue has just failed. */
  predicate NoneFailed(s: State) {
    forall i :: 0 <= i < |s.classes| ==>
      forall t :: 0 <= t < |s.classes[i].threads| ==> !s.classes[i].threads[t].pc.Uncount?
  }

  lemma UpdateKeeps(c: Class, t: nat, e: Effect)
    requires ClassKeeps(c) && t < |c.threads| && e.freed == [] && KeepsAll(e.thread.pc)
    ensures ClassKeeps(Updated(c, t, e))
  {
  }

  lemma NextKeeps(s: State, s': State)
    requires Keeps(s) && Next(s, s') && s'.cap == 0 && NoneFailed(s')
    ensures Keeps(s')
  {
    var step :| NextStep(s, s', step);
    if step.Act? {
      var c := s.classes[step.i];
      ActKeepsAll(step.i, c, c.threads[step.t], step.action);
      assert !s'.classes[step.i].threads[step.t].pc.Uncount?;
      UpdateKeeps(c, step.t, ActOn(step.i, 0, c, c.threads[step.t], step.action));
    }
  }

  /** Without a cap, and as long as no enqueue fails, the pool returns nothing to the heap. */
  lemma {:induction false} NothingFreedWithoutCap(threads: nat, run: seq<State>, n: nat)
    requires IsRun(0, threads, run) && n < |run|
    requires forall k :: 0 <= k <= n ==> run[k].cap == 0 && NoneFailed(run[k])
    ensures Keeps(run[n])
    ensures forall i :: 0 <= i < |run[n].classes| ==> run[n].classes[i].freed == []
  {
    if n > 0 {
      NothingFreedWithoutCap(threads, run, n - 1);
      assert Next(run[n - 1], run[n - 1 + 1]);
      NextKeeps(run[n - 1], run[n]);
    }
  }
}
