/** The reference-counted free list under concurrent add() and try_get().

    A node's count holds one reference for the list and one for each thread that has promised to
    read its next link; its top bit says that it should go back on the list once the count is 0. */
module FreeList {
  import opened Common

  type Tid = nat
  type Node = nat

  datatype Cell = Cell(refs: int, flag: bool, next: Option<Node>)

  /** Where add_knowing_refcount_is_zero goes on: out of add(), or back into the try_get() loop. */
  datatype After = Return | Resume(cur: Option<Node>)

  datatype Pc =
    | AddFlag(n: Node)
    | AddLoad(n: Node, k: After)
    | AddNext(n: Node, hd: Option<Node>, k: After)
    | AddRefs(n: Node, hd: Option<Node>, k: After)
    | AddSwing(n: Node, hd: Option<Node>, k: After)
    | AddBack(n: Node, hd: Option<Node>, k: After)
    | GetLoad
    | GetRefs(n: Node)
    | GetCas(n: Node, refs: int, flag: bool)
    | GetNext(n: Node)
    | GetSwing(n: Node, next: Option<Node>)
    | GetDropTwo(n: Node)
    | GetDropOne(n: Node, cur: Option<Node>)

  /** Who is responsible for a node. History only. */
  datatype Role =
    | Owned             // outside the list, with a user
    | Entering(t: Tid)  // add() has been called
    | Parked            // flagged; the last thread to drop its reference will add it
    | Adding(t: Tid)    // flagged with no references; t may write its next link
    | Publishing(t: Tid)
    | Listed
    | Taken(t: Tid)     // swung off the list, references not yet dropped

  datatype State = State(
    head: Option<Node>,
    cells: map<Node, Cell>,
    threads: map<Tid, Pc>,
    // history
    roles: map<Node, Role>,
    chain: seq<Node>,
    adds: map<Node, nat>,
    gets: map<Node, nat>
  )

  datatype Step = BeginAdd(t: Tid, n: Node) | BeginGet(t: Tid) | Run(t: Tid)

  // ---------------------------------------------------------------- steps

  datatype ChainMove = Keep | PushFront | PopFront

  /** What one step of a thread does: the new head, the new contents of the cell it works on, that
      node's new role if it changes, and the thread's next program counter, None once it returned. */
  datatype Effect = Effect(
    head: Option<Node>, cell: Cell, role: Option<Role>, pc: Option<Pc>, move: ChainMove, got: bool)

  function Continue(k: After): Option<Pc> {
    if k.Resume? && k.cur.Some? then Some(GetRefs(k.cur.value)) else None
  }

  /** add and add_knowing_refcount_is_zero, on the cell c of node pc.n. */
  function AddAct(head: Option<Node>, c: Cell, t: Tid, pc: Pc): Effect
    requires pc.AddFlag? || pc.AddLoad? || pc.AddNext? || pc.AddRefs? || pc.AddSwing? || pc.AddBack?
  {
    match pc
    case AddFlag(n) =>
      var flagged := c.(flag := true);
      if c.refs == 0 then Effect(head, flagged, Some(Adding(t)), Some(AddLoad(n, Return)), Keep, false)
      else Effect(head, flagged, Some(Parked), None, Keep, false)
    case AddLoad(n, k) => Effect(head, c, None, Some(AddNext(n, head, k)), Keep, false)
    case AddNext(n, hd, k) => Effect(head, c.(next := hd), None, Some(AddRefs(n, hd, k)), Keep, false)
    case AddRefs(n, hd, k) =>
      Effect(head, c.(refs := 1, flag := false), Some(Publishing(t)), Some(AddSwing(n, hd, k)), Keep, false)
    case AddSwing(n, hd, k) =>
      if head == hd then Effect(Some(n), c, Some(Listed), Continue(k), PushFront, false)
      else Effect(head, c, None, Some(AddBack(n, head, k)), Keep, false)
    case AddBack(n, hd, k) =>
      var back := c.(refs := c.refs - 1, flag := true);
      if c.refs == 1 && !c.flag then Effect(head, back, Some(Adding(t)), Some(AddNext(n, hd, k)), Keep, false)
      else Effect(head, back, Some(Parked), Continue(k), Keep, false)
  }

  /** try_get after it has a candidate n, on the cell c of n. */
  function GetAct(head: Option<Node>, c: Cell, t: Tid, pc: Pc): Effect
    requires pc.GetRefs? || pc.GetCas? || pc.GetNext? || pc.GetSwing? || pc.GetDropTwo? || pc.GetDropOne?
  {
    match pc
    case GetRefs(n) =>
      Effect(head, c, None, Some(if c.refs == 0 then GetLoad else GetCas(n, c.refs, c.flag)), Keep, false)
    case GetCas(n, refs, flag) =>
      if c.refs == refs && c.flag == flag then
        Effect(head, c.(refs := refs + 1), None, Some(GetNext(n)), Keep, false)
      else Effect(head, c, None, Some(GetLoad), Keep, false)
    case GetNext(n) => Effect(head, c, None, Some(GetSwing(n, c.next)), Keep, false)
    case GetSwing(n, next) =>
      if head == Some(n) then Effect(next, c, Some(Taken(t)), Some(GetDropTwo(n)), PopFront, false)
      else Effect(head, c, None, Some(GetDropOne(n, head)), Keep, false)
    case GetDropTwo(n) => Effect(head, c.(refs := c.refs - 2), Some(Owned), None, Keep, true)
    case GetDropOne(n, cur) =>
      var dropped := c.(refs := c.refs - 1);
      if c.flag && c.refs == 1 then
        Effect(head, dropped, Some(Adding(t)), Some(AddLoad(n, Resume(cur))), Keep, false)
      else Effect(head, dropped, None, Continue(Resume(cur)), Keep, false)
  }

  predicate IsAdd(pc: Pc) {
    pc.AddFlag? || pc.AddLoad? || pc.AddNext? || pc.AddRefs? || pc.AddSwing? || pc.AddBack?
  }

  function Act(head: Option<Node>, c: Cell, t: Tid, pc: Pc): Effect
    requires !pc.GetLoad?
  {
    if IsAdd(pc) then AddAct(head, c, t, pc) else GetAct(head, c, t, pc)
  }

  function SetPc(threads: map<Tid, Pc>, t: Tid, pc: Option<Pc>): map<Tid, Pc> {
    if pc.Some? then threads[t := pc.value] else threads - {t}
  }

  function Moved(chain: seq<Node>, n: Node, move: ChainMove): seq<Node> {
    match move
    case Keep => chain
    case PushFront => [n] + chain
    case PopFront => if chain == [] then [] else chain[1..]
  }

  function RoleAfter(r: Role, e: Effect): Role {
    if e.role.Some? then e.role.value else r
  }

  predicate Runs(s: State, t: Tid) {
    && t in s.threads && !s.threads[t].GetLoad?
    && var n := s.threads[t].n; n in s.cells && n in s.roles && n in s.gets && n in s.adds
  }

  function Apply(s: State, t: Tid, e: Effect): State
    requires Runs(s, t)
  {
    var pc := s.threads[t];
    s.(head := e.head,
       cells := s.cells[pc.n := e.cell],
       threads := SetPc(s.threads, t, e.pc),
       roles := s.roles[pc.n := RoleAfter(s.roles[pc.n], e)],
       chain := Moved(s.chain, pc.n, e.move),
       gets := s.gets[pc.n := s.gets[pc.n] + if e.got then 1 else 0])
  }

  /** The state after thread t, not at GetLoad, took its step. */
  function StepOf(s: State, t: Tid): State
    requires Runs(s, t)
  {
    Apply(s, t, Act(s.head, s.cells[s.threads[t].n], t, s.threads[t]))
  }

  predicate RunStep(s: State, s': State, t: Tid) {
    && t in s.threads
    && if s.threads[t].GetLoad? then
         s' == s.(threads := SetPc(s.threads, t, if s.head.Some? then Some(GetRefs(s.head.value)) else None))
       else
         Runs(s, t) && s' == StepOf(s, t)
  }

  predicate NextStep(s: State, s': State, step: Step) {
    match step
    case BeginAdd(t, n) =>
      // add() may be called only for a node its caller owns
      && t !in s.threads && n in s.roles && s.roles[n].Owned? && n in s.adds
      && s' == s.(threads := s.threads[t := AddFlag(n)], roles := s.roles[n := Entering(t)],
                  adds := s.adds[n := s.adds[n] + 1])
    case BeginGet(t) => t !in s.threads && s' == s.(threads := s.threads[t := GetLoad])
    case Run(t) => RunStep(s, s', t)
  }

  ghost predicate Next(s: State, s': State) {
    exists step :: NextStep(s, s', step)
  }

  /** All nodes start outside the list, unreferenced. */
  function Initial(all: set<Node>): State {
    State(None, map n | n in all :: Cell(0, false, None), map[],
          map n | n in all :: Owned, [], map n | n in all :: 0, map n | n in all :: 0)
  }

  ghost predicate IsRun(all: set<Node>, run: seq<State>) {
    && run != [] && run[0] == Initial(all)
    && forall i :: 0 <= i < |run| - 1 ==> Next(run[i], run[i + 1])
  }

  // ---------------------------------------------------------------- invariant

  /** The thread has a counted reference to n: it is between its increment and its decrement. */
  predicate HoldsRef(pc: Pc, n: Node) {
    match pc
    case GetNext(m) => m == n
    case GetSwing(m, _) => m == n
    case GetDropTwo(m) => m == n
    case GetDropOne(m, _) => m == n
    case _ => false
  }

  function Holders(threads: map<Tid, Pc>, n: Node): set<Tid> {
    set t | t in threads && HoldsRef(threads[t], n)
  }

  function ListRef(r: Role): int {
    if r.Publishing? || r.Listed? || r.Taken? then 1 else 0
  }

  /** The role a thread's program counter gives the node it works on. */
  function Duty(pc: Pc, t: Tid): Option<(Node, Role)> {
    match pc
    case AddFlag(n) => Some((n, Entering(t)))
    case AddLoad(n, _) => Some((n, Adding(t)))
    case AddNext(n, _, _) => Some((n, Adding(t)))
    case AddRefs(n, _, _) => Some((n, Adding(t)))
    case AddSwing(n, _, _) => Some((n, Publishing(t)))
    case AddBack(n, _, _) => Some((n, Publishing(t)))
    case GetDropTwo(n) => Some((n, Taken(t)))
    case _ => None
  }

  predicate HasThread(r: Role) {
    r.Entering? || r.Adding? || r.Publishing? || r.Taken?
  }

  predicate Known(nodes: set<Node>, o: Option<Node>) {
    o.Some? ==> o.value in nodes
  }

  predicate PcKnown(nodes: set<Node>, pc: Pc) {
    && (pc.GetLoad? || pc.n in nodes)
    && (pc.GetDropOne? ==> Known(nodes, pc.cur))
    && (pc.GetSwing? ==> Known(nodes, pc.next))
    && (pc.AddLoad? || pc.AddNext? || pc.AddRefs? || pc.AddSwing? || pc.AddBack? ==>
          pc.k.Resume? ==> Known(nodes, pc.k.cur))
    && (pc.AddNext? || pc.AddRefs? || pc.AddSwing? || pc.AddBack? ==> Known(nodes, pc.hd))
  }

  /** Everything mentioned anywhere is a known node. */
  predicate DomainInv(s: State) {
    && s.cells.Keys == s.roles.Keys == s.adds.Keys == s.gets.Keys
    && Known(s.cells.Keys, s.head)
    && (forall n :: n in s.cells ==> Known(s.cells.Keys, s.cells[n].next))
    && (forall t :: t in s.threads ==> PcKnown(s.cells.Keys, s.threads[t]))
  }

  predicate DutyInv(s: State) {
    && (forall t :: t in s.threads && Duty(s.threads[t], t).Some? ==>
          var d := Duty(s.threads[t], t).value; d.0 in s.roles && s.roles[d.0] == d.1)
    && (forall n :: n in s.roles && HasThread(s.roles[n]) ==>
          s.roles[n].t in s.threads && Duty(s.threads[s.roles[n].t], s.roles[n].t) == Some((n, s.roles[n])))
  }

  predicate CellOk(s: State, n: Node)
    requires n in s.cells && n in s.roles
  {
    var c := s.cells[n];
    var r := s.roles[n];
    && c.refs == |Holders(s.threads, n)| + ListRef(r)
    && (c.flag <==> r.Parked? || r.Adding?)
    && (r.Parked? ==> c.refs > 0)
    && (r.Adding? ==> c.refs == 0)
  }

  predicate RefsInv(s: State) {
    forall n :: n in s.cells && n in s.roles ==> CellOk(s, n)
  }

  /** A link that a thread has read, or written and not yet published, is still what it was. */
  predicate LinkOk(s: State, pc: Pc) {
    match pc
    case GetSwing(n, next) => n in s.cells && s.cells[n].next == next
    case AddRefs(n, hd, _) => n in s.cells && s.cells[n].next == hd
    case AddSwing(n, hd, _) => n in s.cells && s.cells[n].next == hd
    case GetCas(_, refs, _) => refs > 0
    case _ => true
  }

  predicate LinkInv(s: State) {
    forall t :: t in s.threads ==> LinkOk(s, s.threads[t])
  }

  function First(chain: seq<Node>): Option<Node> {
    if chain == [] then None else Some(chain[0])
  }

  ghost predicate Linked(head: Option<Node>, chain: seq<Node>, cells: map<Node, Cell>) {
    && head == First(chain)
    && (forall i, j :: 0 <= i < j < |chain| ==> chain[i] != chain[j])
    && (forall i :: 0 <= i < |chain| ==> chain[i] in cells && cells[chain[i]].next == First(chain[i + 1..]))
  }

  ghost predicate ChainInv(s: State) {
    && Linked(s.head, s.chain, s.cells)
    && (forall n :: n in s.roles && s.roles[n].Listed? <==> n in s.chain)
  }

  predicate CountInv(s: State) {
    forall n :: n in s.adds && n in s.gets && n in s.roles ==>
      s.adds[n] == s.gets[n] + if s.roles[n].Owned? then 0 else 1
  }

  ghost predicate Inv(s: State) {
    DomainInv(s) && DutyInv(s) && RefsInv(s) && LinkInv(s) && ChainInv(s) && CountInv(s)
  }

  // ---------------------------------------------------------------- preservation

  lemma WithoutThread(threads: map<Tid, Pc>, t: Tid, n: Node)
    requires t in threads
    ensures |Holders(threads, n)| == |Holders(threads - {t}, n)| + if HoldsRef(threads[t], n) then 1 else 0
  {
    var x := Holders(threads - {t}, n);
    assert t !in x;
    assert Holders(threads, n) == if HoldsRef(threads[t], n) then x + {t} else x;
  }

  lemma HoldersChange(threads: map<Tid, Pc>, t: Tid, pc': Option<Pc>, n: Node)
    requires t in threads
    ensures |Holders(SetPc(threads, t, pc'), n)| == |Holders(threads, n)|
              - (if HoldsRef(threads[t], n) then 1 else 0)
              + (if Holding(pc', n) then 1 else 0)
  {
    WithoutThread(threads, t, n);
    if pc'.Some? {
      WithoutThread(SetPc(threads, t, pc'), t, n);
      assert SetPc(threads, t, pc') - {t} == threads - {t};
    }
  }

  lemma HolderCounts(threads: map<Tid, Pc>, n: Node, t: Tid)
    requires t in threads && HoldsRef(threads[t], n)
    ensures |Holders(threads, n)| > 0
  {
    assert t in Holders(threads, n);
  }

  predicate Holding(pc: Option<Pc>, n: Node) {
    pc.Some? && HoldsRef(pc.value, n)
  }

  /** What thread t at pc knows about its node. */
  predicate Before(c: Cell, r: Role, t: Tid, pc: Pc, holders: nat) {
    && c.refs == holders + ListRef(r)
    && (c.flag <==> r.Parked? || r.Adding?)
    && (r.Parked? ==> c.refs > 0)
    && (r.Adding? ==> c.refs == 0)
    && (Duty(pc, t).Some? ==> r == Duty(pc, t).value.1)
    && (!pc.GetLoad? && HoldsRef(pc, pc.n) ==> holders > 0)
    && (HasThread(r) && r.t == t ==> Duty(pc, t).Some?)
    && (pc.GetCas? ==> pc.refs > 0)
  }

  /** The step accounts for every reference it takes, drops or hands over. */
  lemma ActAccounts(head: Option<Node>, c: Cell, r: Role, t: Tid, pc: Pc, holders: nat)
    requires !pc.GetLoad? && Before(c, r, t, pc, holders)
    requires pc.GetSwing? && head == Some(pc.n) ==> r.Listed?
    ensures var e := Act(head, c, t, pc);
            var r' := RoleAfter(r, e);
            && e.cell.refs - ListRef(r') - (if Holding(e.pc, pc.n) then 1 else 0)
               == c.refs - ListRef(r) - (if HoldsRef(pc, pc.n) then 1 else 0)
            && (e.cell.flag <==> r'.Parked? || r'.Adding?)
            && (r'.Parked? ==> e.cell.refs > 0)
            && (r'.Adding? ==> e.cell.refs == 0)
  {
  }

  lemma KnowsNode(s: State, t: Tid)
    requires Inv(s) && t in s.threads && !s.threads[t].GetLoad?
    ensures var pc := s.threads[t];
            && pc.n in s.cells && pc.n in s.roles
            && Before(s.cells[pc.n], s.roles[pc.n], t, pc, |Holders(s.threads, pc.n)|)
            && (pc.GetSwing? && s.head == Some(pc.n) ==> s.roles[pc.n].Listed?)
  {
    var pc := s.threads[t];
    assert CellOk(s, pc.n);
    assert LinkOk(s, pc);
    if HoldsRef(pc, pc.n) {
      HolderCounts(s.threads, pc.n, t);
    }
    if s.head == Some(pc.n) {
      assert pc.n == s.chain[0];
    }
  }

  predicate EffectKnown(nodes: set<Node>, e: Effect) {
    Known(nodes, e.head) && Known(nodes, e.cell.next) && (e.pc.Some? ==> PcKnown(nodes, e.pc.value))
  }

  lemma ActKnown(nodes: set<Node>, head: Option<Node>, c: Cell, t: Tid, pc: Pc)
    requires !pc.GetLoad? && Known(nodes, head) && Known(nodes, c.next) && PcKnown(nodes, pc)
    ensures EffectKnown(nodes, Act(head, c, t, pc))
  {
  }

  lemma ApplyKeepsDomain(s: State, t: Tid, e: Effect)
    requires DomainInv(s) && Runs(s, t) && EffectKnown(s.cells.Keys, e)
    ensures DomainInv(Apply(s, t, e))
  {
    var s' := Apply(s, t, e);
    assert s'.cells.Keys == s.cells.Keys && s'.roles.Keys == s.roles.Keys && s'.gets.Keys == s.gets.Keys;
    forall u | u in s'.threads
      ensures PcKnown(s'.cells.Keys, s'.threads[u])
    {
      if u != t { assert PcKnown(s.cells.Keys, s.threads[u]); }
    }
  }

  predicate EffectDuty(r: Role, t: Tid, pc: Pc, e: Effect)
    requires !pc.GetLoad?
  {
    var r' := RoleAfter(r, e);
    && (e.pc.Some? && Duty(e.pc.value, t).Some? ==> Duty(e.pc.value, t) == Some((pc.n, r')))
    && (HasThread(r') && r'.t == t ==> e.pc.Some? && Duty(e.pc.value, t) == Some((pc.n, r')))
    && (HasThread(r) && r.t != t ==> r' == r)
    && (HasThread(r') && r'.t != t ==> r' == r)
    && (Duty(pc, t).Some? ==> Duty(pc, t).value.0 == pc.n)
  }

  /** Duties stay with the thread: it works on one node and its role follows. */
  lemma ActDuty(head: Option<Node>, c: Cell, r: Role, t: Tid, pc: Pc, holders: nat)
    requires !pc.GetLoad? && Before(c, r, t, pc, holders)
    requires pc.GetSwing? && head == Some(pc.n) ==> r.Listed?
    ensures EffectDuty(r, t, pc, Act(head, c, t, pc))
    ensures forall m :: m != pc.n ==> !Holding(Act(head, c, t, pc).pc, m)
  {
  }

  lemma ApplyKeepsDuty(s: State, t: Tid, e: Effect)
    requires DutyInv(s) && Runs(s, t) && EffectDuty(s.roles[s.threads[t].n], t, s.threads[t], e)
    ensures DutyInv(Apply(s, t, e))
  {
    var pc := s.threads[t];
    var s' := Apply(s, t, e);
    forall u | u in s'.threads && Duty(s'.threads[u], u).Some?
      ensures var d := Duty(s'.threads[u], u).value; d.0 in s'.roles && s'.roles[d.0] == d.1
    {
      if u != t {
        assert s'.threads[u] == s.threads[u];
        var d := Duty(s.threads[u], u).value;
        assert s.roles[d.0] == d.1;
        assert HasThread(d.1) && d.1.t == u;
      }
    }
    forall n | n in s'.roles && HasThread(s'.roles[n])
      ensures var u := s'.roles[n].t;
              u in s'.threads && Duty(s'.threads[u], u) == Some((n, s'.roles[n]))
    {
      var u := s'.roles[n].t;
      if n != pc.n || u != t {
        assert s'.roles[n] == s.roles[n];
        assert u in s.threads && Duty(s.threads[u], u) == Some((n, s.roles[n]));
      }
    }
  }

  lemma ActKeepsRefs(s: State, t: Tid)
    requires Inv(s) && Runs(s, t)
    ensures RefsInv(StepOf(s, t))
  {
    var pc := s.threads[t];
    var s' := StepOf(s, t);
    KnowsNode(s, t);
    var e := Act(s.head, s.cells[pc.n], t, pc);
    ActAccounts(s.head, s.cells[pc.n], s.roles[pc.n], t, pc, |Holders(s.threads, pc.n)|);
    ActDuty(s.head, s.cells[pc.n], s.roles[pc.n], t, pc, |Holders(s.threads, pc.n)|);
    forall n | n in s'.cells && n in s'.roles
      ensures CellOk(s', n)
    {
      assert CellOk(s, n);
      HoldersChange(s.threads, t, e.pc, n);
    }
  }

  predicate LinkAfter(n: Node, c: Cell, pc: Option<Pc>) {
    pc.Some? ==>
      match pc.value
      case GetSwing(m, next) => m == n && c.next == next
      case AddRefs(m, hd, _) => m == n && c.next == hd
      case AddSwing(m, hd, _) => m == n && c.next == hd
      case GetCas(_, refs, _) => refs > 0
      case _ => true
  }

  /** A step rewrites a link only when nobody holds a counted reference to the node. */
  lemma ActLink(head: Option<Node>, c: Cell, r: Role, t: Tid, pc: Pc, holders: nat)
    requires !pc.GetLoad? && Before(c, r, t, pc, holders)
    ensures Act(head, c, t, pc).cell.next != c.next ==> pc.AddNext? && holders == 0 && r == Adding(t)
    ensures LinkAfter(pc.n, c, Some(pc)) ==> LinkAfter(pc.n, Act(head, c, t, pc).cell, Act(head, c, t, pc).pc)
  {
  }

  lemma ApplyKeepsLinks(s: State, t: Tid, e: Effect)
    requires DutyInv(s) && LinkInv(s) && Runs(s, t)
    requires LinkAfter(s.threads[t].n, e.cell, e.pc)
    requires var n := s.threads[t].n;
             e.cell.next != s.cells[n].next ==> Holders(s.threads, n) == {} && s.roles[n] == Adding(t)
    ensures LinkInv(Apply(s, t, e))
  {
    var pc := s.threads[t];
    var s' := Apply(s, t, e);
    forall u | u in s'.threads
      ensures LinkOk(s', s'.threads[u])
    {
      if u != t {
        var pcu := s.threads[u];
        assert s'.threads[u] == pcu;
        assert LinkOk(s, pcu);
        if HoldsRef(pcu, pc.n) {
          HolderCounts(s.threads, pc.n, u);
        } else if Duty(pcu, u).Some? {
          assert s.roles[Duty(pcu, u).value.0] == Duty(pcu, u).value.1;
        }
      }
    }
  }

  lemma PushKeepsLinked(chain: seq<Node>, cells: map<Node, Cell>, n: Node)
    requires Linked(First(chain), chain, cells) && n !in chain && n in cells && cells[n].next == First(chain)
    ensures Linked(Some(n), [n] + chain, cells)
  {
    var longer := [n] + chain;
    assert longer[1..] == chain;
    forall i | 0 <= i < |longer|
      ensures longer[i] in cells && cells[longer[i]].next == First(longer[i + 1..])
    {
      if i > 0 {
        assert longer[i] == chain[i - 1];
        assert longer[i + 1..] == chain[i - 1 + 1..];
      }
    }
  }

  lemma PopKeepsLinked(chain: seq<Node>, cells: map<Node, Cell>)
    requires chain != [] && Linked(First(chain), chain, cells)
    ensures Linked(cells[chain[0]].next, chain[1..], cells)
    ensures chain[0] !in chain[1..]
    ensures forall m :: m in chain <==> m == chain[0] || m in chain[1..]
  {
    var rest := chain[1..];
    assert chain[0 + 1..] == rest;
    forall i | 0 <= i < |rest|
      ensures rest[i] in cells && cells[rest[i]].next == First(rest[i + 1..])
    {
      assert rest[i] == chain[i + 1];
      assert rest[i + 1..] == chain[i + 1 + 1..];
    }
  }

  /** Changing a cell off the list, or a cell's count, leaves the list as it is. */
  lemma CellKeepsLinked(head: Option<Node>, chain: seq<Node>, cells: map<Node, Cell>, n: Node, c: Cell)
    requires Linked(head, chain, cells) && n in cells && (n in chain ==> c.next == cells[n].next)
    ensures Linked(head, chain, cells[n := c])
  {
    forall i | 0 <= i < |chain|
      ensures chain[i] in cells[n := c] && cells[n := c][chain[i]].next == First(chain[i + 1..])
    {
      assert chain[i] in cells && cells[chain[i]].next == First(chain[i + 1..]);
    }
  }

  /** How a step may change the list. */
  predicate EffectChain(head: Option<Node>, n: Node, c: Cell, r: Role, e: Effect) {
    var r' := RoleAfter(r, e);
    && (e.cell.next != c.next ==> !r.Listed?)
    && match e.move
       case Keep => e.head == head && (r'.Listed? <==> r.Listed?)
       case PushFront => e.head == Some(n) && e.cell.next == head && !r.Listed? && r'.Listed?
       case PopFront => head == Some(n) && e.head == c.next == e.cell.next && r.Listed? && !r'.Listed?
  }

  lemma ActChain(head: Option<Node>, c: Cell, r: Role, t: Tid, pc: Pc, holders: nat)
    requires !pc.GetLoad? && Before(c, r, t, pc, holders) && LinkAfter(pc.n, c, Some(pc))
    requires pc.GetSwing? && head == Some(pc.n) ==> r.Listed?
    ensures EffectChain(head, pc.n, c, r, Act(head, c, t, pc))
  {
  }

  lemma ApplyKeepsChain(s: State, t: Tid, e: Effect)
    requires ChainInv(s) && Runs(s, t)
    requires EffectChain(s.head, s.threads[t].n, s.cells[s.threads[t].n], s.roles[s.threads[t].n], e)
    ensures ChainInv(Apply(s, t, e))
  {
    var n := s.threads[t].n;
    var cells' := s.cells[n := e.cell];
    CellKeepsLinked(s.head, s.chain, s.cells, n, e.cell);
    match e.move {
      case Keep =>
      case PushFront =>
        PushKeepsLinked(s.chain, cells', n);
      case PopFront =>
        PopKeepsLinked(s.chain, cells');
    }
  }

  /** A node is handed out only by the step that ends its time on the list. */
  lemma ActCounts(head: Option<Node>, c: Cell, r: Role, t: Tid, pc: Pc, holders: nat)
    requires !pc.GetLoad? && Before(c, r, t, pc, holders)
    requires pc.GetSwing? && head == Some(pc.n) ==> r.Listed?
    ensures var e := Act(head, c, t, pc);
            (e.got <==> !r.Owned? && RoleAfter(r, e).Owned?) && (r.Owned? ==> RoleAfter(r, e).Owned?)
  {
  }

  lemma ApplyKeepsCounts(s: State, t: Tid, e: Effect)
    requires CountInv(s) && Runs(s, t)
    requires var r := s.roles[s.threads[t].n];
             (e.got <==> !r.Owned? && RoleAfter(r, e).Owned?) && (r.Owned? ==> RoleAfter(r, e).Owned?)
    ensures CountInv(Apply(s, t, e))
  {
  }

  lemma ActKeepsInv(s: State, t: Tid)
    requires Inv(s) && Runs(s, t)
    ensures Inv(StepOf(s, t))
  {
    var pc := s.threads[t];
    var c, r, holders := s.cells[pc.n], s.roles[pc.n], |Holders(s.threads, pc.n)|;
    var e := Act(s.head, c, t, pc);
    KnowsNode(s, t);
    assert PcKnown(s.cells.Keys, pc);
    ActKnown(s.cells.Keys, s.head, c, t, pc);
    ApplyKeepsDomain(s, t, e);
    ActDuty(s.head, c, r, t, pc, holders);
    ApplyKeepsDuty(s, t, e);
    ActKeepsRefs(s, t);
    ActLink(s.head, c, r, t, pc, holders);
    assert LinkOk(s, pc);
    ApplyKeepsLinks(s, t, e);
    ActChain(s.head, c, r, t, pc, holders);
    ApplyKeepsChain(s, t, e);
    ActCounts(s.head, c, r, t, pc, holders);
    ApplyKeepsCounts(s, t, e);
  }

  /** A thread that enters, or reloads the head, neither holds a reference nor has a duty. */
  predicate Idle(pc: Pc) {
    pc.GetLoad? || pc.GetRefs?
  }

  lemma ThreadsKeepRefs(s: State, t: Tid, pc: Option<Pc>)
    requires RefsInv(s) && (t in s.threads ==> Idle(s.threads[t])) && (pc.Some? ==> Idle(pc.value) || pc.value.AddFlag?)
    ensures RefsInv(s.(threads := SetPc(s.threads, t, pc)))
  {
    var s' := s.(threads := SetPc(s.threads, t, pc));
    forall n | n in s'.cells && n in s'.roles
      ensures CellOk(s', n)
    {
      assert CellOk(s, n);
      assert Holders(s'.threads, n) == Holders(s.threads, n);
    }
  }

  lemma IdleKeepsInv(s: State, t: Tid, pc: Option<Pc>)
    requires Inv(s) && (t in s.threads ==> Idle(s.threads[t]))
    requires pc.Some? ==> Idle(pc.value) && PcKnown(s.cells.Keys, pc.value)
    ensures Inv(s.(threads := SetPc(s.threads, t, pc)))
  {
    ThreadsKeepRefs(s, t, pc);
    var s' := s.(threads := SetPc(s.threads, t, pc));
    IdleKeepsThreads(s, t, pc);
    IdleKeepsDuty(s, t, pc);
    assert ChainInv(s') && CountInv(s');
  }

  lemma IdleKeepsThreads(s: State, t: Tid, pc: Option<Pc>)
    requires DomainInv(s) && LinkInv(s)
    requires pc.Some? ==> (Idle(pc.value) || pc.value.AddFlag?) && PcKnown(s.cells.Keys, pc.value)
    ensures var s' := s.(threads := SetPc(s.threads, t, pc)); DomainInv(s') && LinkInv(s')
  {
    var s' := s.(threads := SetPc(s.threads, t, pc));
    forall u | u in s'.threads
      ensures PcKnown(s'.cells.Keys, s'.threads[u]) && LinkOk(s', s'.threads[u])
    {
      if u != t {
        assert s'.threads[u] == s.threads[u];
        assert PcKnown(s.cells.Keys, s.threads[u]) && LinkOk(s, s.threads[u]);
      }
    }
  }

  lemma IdleKeepsDuty(s: State, t: Tid, pc: Option<Pc>)
    requires DutyInv(s) && (t in s.threads ==> Idle(s.threads[t])) && (pc.Some? ==> Idle(pc.value))
    ensures DutyInv(s.(threads := SetPc(s.threads, t, pc)))
  {
  }

  lemma BeginAddKeepsDuty(s: State, s': State, t: Tid, n: Node)
    requires DutyInv(s) && NextStep(s, s', BeginAdd(t, n))
    ensures DutyInv(s')
  {
    forall u | u in s'.threads && Duty(s'.threads[u], u).Some?
      ensures var d := Duty(s'.threads[u], u).value; d.0 in s'.roles && s'.roles[d.0] == d.1
    {
      if u != t {
        var d := Duty(s.threads[u], u).value;
        assert d.0 in s.roles && s.roles[d.0] == d.1;
      }
    }
  }

  /** Roles and add counts matter to no thread's links. */
  lemma BeginAddKeepsThreads(s: State, s': State, t: Tid, n: Node)
    requires DomainInv(s) && LinkInv(s) && NextStep(s, s', BeginAdd(t, n))
    ensures DomainInv(s') && LinkInv(s')
  {
    assert n in s.cells.Keys;
    IdleKeepsThreads(s, t, Some(AddFlag(n)));
    var mid := s.(threads := SetPc(s.threads, t, Some(AddFlag(n))));
    assert s'.roles.Keys == s.roles.Keys && s'.adds.Keys == s.adds.Keys;
    forall u | u in s'.threads
      ensures PcKnown(s'.cells.Keys, s'.threads[u]) && LinkOk(s', s'.threads[u])
    {
      assert PcKnown(mid.cells.Keys, mid.threads[u]) && LinkOk(mid, mid.threads[u]);
    }
  }

  lemma BeginAddKeepsRefs(s: State, s': State, t: Tid, n: Node)
    requires RefsInv(s) && NextStep(s, s', BeginAdd(t, n))
    ensures RefsInv(s')
  {
    ThreadsKeepRefs(s, t, Some(AddFlag(n)));
    var mid := s.(threads := SetPc(s.threads, t, Some(AddFlag(n))));
    forall m | m in s'.cells && m in s'.roles
      ensures CellOk(s', m)
    {
      assert CellOk(mid, m);
    }
  }

  lemma BeginAddKeepsLists(s: State, s': State, t: Tid, n: Node)
    requires ChainInv(s) && CountInv(s) && NextStep(s, s', BeginAdd(t, n))
    ensures ChainInv(s') && CountInv(s')
  {
  }

  lemma BeginAddKeepsInv(s: State, s': State, t: Tid, n: Node)
    requires Inv(s) && NextStep(s, s', BeginAdd(t, n))
    ensures Inv(s')
  {
    BeginAddKeepsThreads(s, s', t, n);
    BeginAddKeepsDuty(s, s', t, n);
    BeginAddKeepsRefs(s, s', t, n);
    BeginAddKeepsLists(s, s', t, n);
  }

  lemma InvRuns(s: State, t: Tid)
    requires DomainInv(s) && t in s.threads && !s.threads[t].GetLoad?
    ensures Runs(s, t)
  {
    assert PcKnown(s.cells.Keys, s.threads[t]);
    assert s.threads[t].n in s.cells.Keys;
  }

  lemma NextKeepsInv(s: State, s': State, step: Step)
    requires Inv(s) && NextStep(s, s', step)
    ensures Inv(s')
  {
    match step {
      case BeginAdd(t, n) => BeginAddKeepsInv(s, s', t, n);
      case BeginGet(t) => IdleKeepsInv(s, t, Some(GetLoad));
      case Run(t) =>
        if s.threads[t].GetLoad? {
          IdleKeepsInv(s, t, if s.head.Some? then Some(GetRefs(s.head.value)) else None);
        } else {
          InvRuns(s, t);
          ActKeepsInv(s, t);
        }
    }
  }

  lemma {:induction false} InvOnRun(all: set<Node>, run: seq<State>, i: nat)
    requires IsRun(all, run) && i < |run|
    ensures Inv(run[i])
  {
    if i == 0 {
      var s := Initial(all);
      forall n | n in s.cells
        ensures CellOk(s, n)
      {
        assert Holders(s.threads, n) == {};
      }
    } else {
      InvOnRun(all, run, i - 1);
      assert Next(run[i - 1], run[i - 1 + 1]);
      var step :| NextStep(run[i - 1], run[i], step);
      NextKeepsInv(run[i - 1], run[i], step);
    }
  }

  // ---------------------------------------------------------------- theorems

  ghost predicate Reachable(all: set<Node>, s: State) {
    exists run :: IsRun(all, run) && run[|run| - 1] == s
  }

  lemma ReachableInv(all: set<Node>, s: State)
    requires Reachable(all, s)
    ensures Inv(s)
  {
    var run :| IsRun(all, run) && run[|run| - 1] == s;
    InvOnRun(all, run, |run| - 1);
  }

  /** Between its increment and its decrement a thread sees a fixed next link, whatever step any
      thread takes. */
  lemma LinkFixedWhileHeld(all: set<Node>, s: State, s': State, t: Tid, n: Node)
    requires Reachable(all, s) && Next(s, s')
    requires t in s.threads && HoldsRef(s.threads[t], n)
    ensures n in s.cells && n in s'.cells && s'.cells[n].next == s.cells[n].next
  {
    ReachableInv(all, s);
    assert PcKnown(s.cells.Keys, s.threads[t]);
    var step :| NextStep(s, s', step);
    HolderCounts(s.threads, n, t);
    if step.Run? && !s.threads[step.t].GetLoad? && s.threads[step.t].n == n {
      HeldLinkKept(s, step.t, n);
    }
  }

  lemma HeldLinkKept(s: State, u: Tid, n: Node)
    requires Inv(s) && Runs(s, u) && s.threads[u].n == n && |Holders(s.threads, n)| > 0
    ensures n in StepOf(s, u).cells && StepOf(s, u).cells[n].next == s.cells[n].next
  {
    KnowsNode(s, u);
    ActLink(s.head, s.cells[n], s.roles[n], u, s.threads[u], |Holders(s.threads, n)|);
  }

  /** No ABA: when try_get's swing of the head succeeds, the link it installs, read any number of
      steps earlier, is the node's true successor on the list, and the list loses just its front. */
  lemma SwingInstallsSuccessor(all: set<Node>, s: State, s': State, t: Tid)
    requires Reachable(all, s) && RunStep(s, s', t) && s.threads[t].GetSwing? && s.head == Some(s.threads[t].n)
    ensures s.chain != [] && s.chain[0] == s.threads[t].n
    ensures s'.chain == s.chain[1..] && s'.head == First(s'.chain)
    ensures s.threads[t].n !in s'.chain
    ensures !s.cells[s.threads[t].n].flag
  {
    ReachableInv(all, s);
    SwingStep(s, s', t);
  }

  lemma SwingStep(s: State, s': State, t: Tid)
    requires RefsInv(s) && LinkInv(s) && ChainInv(s) && RunStep(s, s', t)
    requires s.threads[t].GetSwing? && s.head == Some(s.threads[t].n)
    ensures s.chain != [] && s.chain[0] == s.threads[t].n
    ensures s'.chain == s.chain[1..] && s'.head == First(s'.chain)
    ensures s.threads[t].n !in s'.chain
    ensures !s.cells[s.threads[t].n].flag
  {
    var n := s.threads[t].n;
    assert LinkOk(s, s.threads[t]);
    PopKeepsLinked(s.chain, s.cells);
    assert n in s.chain;
    assert CellOk(s, n);
  }

  /** try_get returns a node exactly once per add of it, and only one thread at a time has it. */
  lemma GetsMatchAdds(all: set<Node>, s: State, n: Node)
    requires Reachable(all, s) && n in all
    ensures n in s.adds && n in s.gets && n in s.roles
    ensures s.gets[n] <= s.adds[n] <= s.gets[n] + 1
    ensures s.adds[n] == s.gets[n] <==> s.roles[n].Owned?
    ensures forall t, u :: t in s.threads && u in s.threads && s.threads[t] == s.threads[u] == GetDropTwo(n) ==> t == u
  {
    ReachableInv(all, s);
    NodesStay(all, s);
    forall t, u | t in s.threads && u in s.threads && s.threads[t] == s.threads[u] == GetDropTwo(n)
      ensures t == u
    {
      assert Duty(s.threads[t], t) == Some((n, Taken(t))) && Duty(s.threads[u], u) == Some((n, Taken(u)));
    }
  }

  lemma {:induction false} NodesOnRun(all: set<Node>, run: seq<State>, i: nat)
    requires IsRun(all, run) && i < |run|
    ensures run[i].cells.Keys == all
  {
    if i > 0 {
      NodesOnRun(all, run, i - 1);
      assert Next(run[i - 1], run[i - 1 + 1]);
    }
  }

  lemma NodesStay(all: set<Node>, s: State)
    requires Reachable(all, s)
    ensures s.cells.Keys == all
  {
    var run :| IsRun(all, run) && run[|run| - 1] == s;
    NodesOnRun(all, run, |run| - 1);
  }

  /** No node is lost: with no operation in flight, every node that was added and not taken is on the
      list, exactly once, and the next links from the head spell out the list. */
  lemma QuiescentListComplete(all: set<Node>, s: State, n: Node)
    requires Reachable(all, s) && s.threads == map[] && n in all
    ensures n in s.adds && n in s.gets && n in s.cells
    ensures n in s.chain <==> s.adds[n] == s.gets[n] + 1
    ensures multiset(s.chain)[n] <= 1
    ensures s.head == First(s.chain)
    ensures forall i :: 0 <= i < |s.chain| ==> s.chain[i] in s.cells && s.cells[s.chain[i]].next == First(s.chain[i + 1..])
    ensures s.cells[n] == Cell(if n in s.chain then 1 else 0, false, s.cells[n].next)
  {
    ReachableInv(all, s);
    NodesStay(all, s);
    assert Holders(s.threads, n) == {};
    assert CellOk(s, n);
    NoRepeats(s.chain, n);
  }

  lemma {:induction false} NoRepeats(chain: seq<Node>, n: Node)
    requires forall i, j :: 0 <= i < j < |chain| ==> chain[i] != chain[j]
    ensures multiset(chain)[n] == if n in chain then 1 else 0
  {
    if chain != [] {
      assert chain == [chain[0]] + chain[1..];
      NoRepeats(chain[1..], n);
    }
  }

  /** No thread ever stands before a step it cannot take. */
  lemma NeverStuck(all: set<Node>, s: State, t: Tid)
    requires Reachable(all, s) && t in s.threads
    ensures exists s' :: RunStep(s, s', t)
  {
    ReachableInv(all, s);
    assert PcKnown(s.cells.Keys, s.threads[t]);
    if s.threads[t].GetLoad? {
      assert RunStep(s, s.(threads := SetPc(s.threads, t, if s.head.Some? then Some(GetRefs(s.head.value)) else None)), t);
    } else {
      InvRuns(s, t);
      assert RunStep(s, StepOf(s, t), t);
    }
  }

  // ---------------------------------------------------------------- what try_get returns

  lemma Extend(all: set<Node>, s: State, s': State, step: Step)
    requires Reachable(all, s) && NextStep(s, s', step)
    ensures Reachable(all, s')
  {
    var run :| IsRun(all, run) && run[|run| - 1] == s;
    var longer := run + [s'];
    forall i | 0 <= i < |longer| - 1
      ensures Next(longer[i], longer[i + 1])
    {
      if i < |run| - 1 { assert Next(run[i], run[i + 1]); }
    }
    assert IsRun(all, longer) && longer[|longer| - 1] == s';
  }

  /** A thread that runs try_get alone while the list is not empty gets the node at its head. */
  lemma SoloGet(all: set<Node>, s: State, t: Tid) returns (s': State)
    requires Reachable(all, s) && s.threads == map[] && s.chain != []
    ensures Reachable(all, s') && s'.threads == map[]
    ensures s.chain[0] in s.gets && s'.gets == s.gets[s.chain[0] := s.gets[s.chain[0]] + 1]
    ensures s'.chain == s.chain[1..] && s'.head == First(s.chain[1..])
  {
    var n := s.chain[0];
    FrontAtRest(all, s);
    var s1 := s.(threads := map[t := GetLoad]);
    Extend(all, s, s1, BeginGet(t));
    var s2 := s.(threads := map[t := GetRefs(n)]);
    assert RunStep(s1, s2, t);
    Extend(all, s1, s2, Run(t));
    s' := SoloTake(all, s2, t, n);
  }

  lemma FrontAtRest(all: set<Node>, s: State)
    requires Reachable(all, s) && s.threads == map[] && s.chain != []
    ensures var n := s.chain[0];
            && s.head == Some(n) && n in s.cells && s.cells[n] == Cell(1, false, First(s.chain[1..]))
  {
    var n := s.chain[0];
    ReachableInv(all, s);
    assert n in s.chain && Holders(s.threads, n) == {};
    assert CellOk(s, n);
  }

  lemma SoloTake(all: set<Node>, s: State, t: Tid, n: Node) returns (s': State)
    requires Reachable(all, s) && s.threads == map[t := GetRefs(n)]
    requires s.chain != [] && s.chain[0] == n && s.head == Some(n) && n in s.cells && s.cells[n].refs == 1 && !s.cells[n].flag
    requires s.cells[n].next == First(s.chain[1..])
    ensures Reachable(all, s') && s'.threads == map[]
    ensures n in s.gets && s'.gets == s.gets[n := s.gets[n] + 1]
    ensures s'.chain == s.chain[1..] && s'.head == First(s.chain[1..])
  {
    SoloRuns(all, s, t);
    var s3 := StepOf(s, t);
    Extend(all, s, s3, Run(t));
    assert s3.threads == map[t := GetCas(n, 1, false)] && s3.cells == s.cells;
    SoloRuns(all, s3, t);
    var s4 := StepOf(s3, t);
    Extend(all, s3, s4, Run(t));
    assert s4.threads == map[t := GetNext(n)] && s4.cells[n] == s.cells[n].(refs := 2);
    s' := SoloSwing(all, s4, t, n);
  }

  lemma SoloSwing(all: set<Node>, s: State, t: Tid, n: Node) returns (s': State)
    requires Reachable(all, s) && s.threads == map[t := GetNext(n)]
    requires s.chain != [] && s.head == Some(n) && n in s.cells
    requires s.cells[n].next == First(s.chain[1..])
    ensures Reachable(all, s') && s'.threads == map[]
    ensures n in s.gets && s'.gets == s.gets[n := s.gets[n] + 1]
    ensures s'.chain == s.chain[1..] && s'.head == First(s.chain[1..])
  {
    SoloRuns(all, s, t);
    var s5 := StepOf(s, t);
    Extend(all, s, s5, Run(t));
    assert s5.threads == map[t := GetSwing(n, s.cells[n].next)];
    SoloRuns(all, s5, t);
    var s6 := StepOf(s5, t);
    Extend(all, s5, s6, Run(t));
    assert s6.threads == map[t := GetDropTwo(n)];
    SoloRuns(all, s6, t);
    s' := StepOf(s6, t);
    Extend(all, s6, s', Run(t));
  }

  /** A thread that runs add alone puts its node at the head of the list. */
  lemma SoloAdd(all: set<Node>, s: State, t: Tid, n: Node) returns (s': State)
    requires Reachable(all, s) && s.threads == map[] && n in all && n in s.roles && s.roles[n].Owned?
    ensures Reachable(all, s') && s'.threads == map[]
    ensures s'.chain == [n] + s.chain && s'.head == Some(n) && s'.gets == s.gets
    ensures n in s.adds && s'.adds == s.adds[n := s.adds[n] + 1]
  {
    OwnedAtRest(all, s, n);
    var s1 := s.(threads := map[t := AddFlag(n)], roles := s.roles[n := Entering(t)], adds := s.adds[n := s.adds[n] + 1]);
    Extend(all, s, s1, BeginAdd(t, n));
    SoloRuns(all, s1, t);
    var s2 := StepOf(s1, t);
    Extend(all, s1, s2, Run(t));
    assert s2.threads == map[t := AddLoad(n, Return)] && s2.gets == s.gets;
    s' := SoloPublish(all, s2, t, n);
  }

  lemma OwnedAtRest(all: set<Node>, s: State, n: Node)
    requires Reachable(all, s) && s.threads == map[] && n in all && n in s.roles && s.roles[n].Owned?
    ensures n in s.cells && n in s.adds && n in s.gets && s.cells[n].refs == 0
  {
    GetsMatchAdds(all, s, n);
    QuiescentListComplete(all, s, n);
  }

  lemma SoloPublish(all: set<Node>, s: State, t: Tid, n: Node) returns (s': State)
    requires Reachable(all, s) && s.threads == map[t := AddLoad(n, Return)]
    ensures Reachable(all, s') && s'.threads == map[]
    ensures s'.chain == [n] + s.chain && s'.head == Some(n) && s'.gets == s.gets && s'.adds == s.adds
  {
    SoloRuns(all, s, t);
    var s3 := StepOf(s, t);
    Extend(all, s, s3, Run(t));
    assert s3.threads == map[t := AddNext(n, s.head, Return)] && s3.head == s.head && s3.chain == s.chain && s3.gets == s.gets;
    SoloRuns(all, s3, t);
    var s4 := StepOf(s3, t);
    Extend(all, s3, s4, Run(t));
    assert s4.threads == map[t := AddRefs(n, s.head, Return)] && s4.head == s.head && s4.chain == s.chain && s4.gets == s.gets;
    s' := SoloLink(all, s4, t, n);
  }

  lemma SoloLink(all: set<Node>, s: State, t: Tid, n: Node) returns (s': State)
    requires Reachable(all, s) && s.threads == map[t := AddRefs(n, s.head, Return)]
    ensures Reachable(all, s') && s'.threads == map[]
    ensures s'.chain == [n] + s.chain && s'.head == Some(n) && s'.gets == s.gets && s'.adds == s.adds
  {
    SoloRuns(all, s, t);
    var s5 := StepOf(s, t);
    Extend(all, s, s5, Run(t));
    assert s5.threads == map[t := AddSwing(n, s.head, Return)] && s5.head == s.head && s5.chain == s.chain && s5.gets == s.gets;
    SoloRuns(all, s5, t);
    s' := StepOf(s5, t);
    Extend(all, s5, s', Run(t));
  }

  lemma SoloRuns(all: set<Node>, s: State, t: Tid)
    requires Reachable(all, s) && t in s.threads && !s.threads[t].GetLoad?
    ensures Runs(s, t)
  {
    ReachableInv(all, s);
    InvRuns(s, t);
  }

  /** The thread is inside try_get, also while try_get finishes another thread's add. */
  predicate InGet(pc: Pc) {
    if IsAdd(pc) then !pc.AddFlag? && pc.k.Resume? else true
  }

  /** It will leave without a node once it has settled its reference. */
  predicate GivesUp(pc: Pc) {
    || (pc.GetDropOne? && pc.cur.None?)
    || (IsAdd(pc) && !pc.AddFlag? && pc.k.Resume? && pc.k.cur.None?)
  }

  /** The list was empty at moment k, during the try_get that t is in at moment i. */
  ghost predicate SawEmptyAt(run: seq<State>, k: nat, i: nat, t: Tid) {
    && k <= i < |run| && run[k].head.None?
    && forall l :: k <= l <= i ==> t in run[l].threads
  }

  lemma {:induction false} GivingUpSawEmpty(all: set<Node>, run: seq<State>, i: nat, t: Tid) returns (k: nat)
    requires IsRun(all, run) && i < |run| && t in run[i].threads && GivesUp(run[i].threads[t])
    ensures SawEmptyAt(run, k, i, t)
  {
    assert run[0].threads == map[];
    RunGaveUpBefore(all, run, i, t);
    if GivesUp(run[i - 1].threads[t]) {
      k := GivingUpSawEmpty(all, run, i - 1, t);
    } else {
      k := i - 1;
    }
    SawLonger(run, k, i, t);
  }

  lemma RunGaveUpBefore(all: set<Node>, run: seq<State>, i: nat, t: Tid)
    requires IsRun(all, run) && 0 < i < |run| && t in run[i].threads && GivesUp(run[i].threads[t])
    ensures t in run[i - 1].threads && (GivesUp(run[i - 1].threads[t]) || run[i - 1].head.None?)
  {
    assert Next(run[i - 1], run[i - 1 + 1]);
    GaveUpBefore(run[i - 1], run[i], t);
  }

  lemma SawLonger(run: seq<State>, k: nat, i: nat, t: Tid)
    requires 0 < i < |run| && SawEmptyAt(run, k, i - 1, t) && t in run[i].threads
    ensures SawEmptyAt(run, k, i, t)
  {
  }

  /** A thread starts to give up only when it finds the head empty. */
  lemma GaveUpBefore(s: State, s': State, t: Tid)
    requires Next(s, s') && t in s'.threads && GivesUp(s'.threads[t])
    ensures t in s.threads && (GivesUp(s.threads[t]) || s.head.None?)
  {
    var step :| NextStep(s, s', step);
    if step == Run(t) {
      StepGaveUpBefore(s, s', t);
    } else {
      OthersLeaveThread(s, s', step, t);
    }
  }

  lemma StepGaveUpBefore(s: State, s': State, t: Tid)
    requires RunStep(s, s', t) && t in s'.threads && GivesUp(s'.threads[t])
    ensures t in s.threads && (GivesUp(s.threads[t]) || s.head.None?)
  {
    if !s.threads[t].GetLoad? { ActGivesUp(s.head, s.cells[s.threads[t].n], t, s.threads[t]); }
  }

  lemma OthersLeaveThread(s: State, s': State, step: Step, t: Tid)
    requires NextStep(s, s', step) && step != Run(t) && t in s'.threads && GivesUp(s'.threads[t])
    ensures t in s.threads && s'.threads[t] == s.threads[t]
  {
  }

  lemma ActGivesUp(head: Option<Node>, c: Cell, t: Tid, pc: Pc)
    requires !pc.GetLoad?
    ensures var next := Act(head, c, t, pc).pc;
            && (next.Some? && GivesUp(next.value) ==> GivesUp(pc) || head.None?)
            && (next.None? && InGet(pc) && !pc.GetDropTwo? ==> GivesUp(pc))
  {
  }

  /** Under any interleaving, try_get leaves without a node only if the list was empty at some moment
      of this very call. */
  lemma LeavesEmptyHandedOnlyIfEmpty(all: set<Node>, run: seq<State>, i: nat, t: Tid) returns (k: nat)
    requires IsRun(all, run) && i + 1 < |run|
    requires t in run[i].threads && InGet(run[i].threads[t])
    requires t !in run[i + 1].threads && run[i + 1].gets == run[i].gets
    ensures SawEmptyAt(run, k, i, t)
  {
    assert Next(run[i], run[i + 1]);
    var step :| NextStep(run[i], run[i + 1], step);
    InvOnRun(all, run, i);
    LeavingGivesUp(run[i], run[i + 1], step, t);
    if GivesUp(run[i].threads[t]) {
      k := GivingUpSawEmpty(all, run, i, t);
    } else {
      k := i;
    }
  }

  lemma LeavingGivesUp(s: State, s': State, step: Step, t: Tid)
    requires NextStep(s, s', step) && t in s.threads && t !in s'.threads && InGet(s.threads[t]) && s'.gets == s.gets
    ensures GivesUp(s.threads[t]) || s.head.None?
  {
    assert step == Run(t);
    if !s.threads[t].GetLoad? {
      ActGivesUp(s.head, s.cells[s.threads[t].n], t, s.threads[t]);
      var n := s.threads[t].n;
      assert s'.gets[n] == s.gets[n];
    }
  }
}
