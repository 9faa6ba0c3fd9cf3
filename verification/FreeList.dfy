/** moodycamel's lock-free free list: a stack of nodes whose reference counts keep a node's
    `freeListNext` stable while some thread may still use it.

    A machine of threads that add nodes they own and take nodes; one atomic access per step. */
module FreeList {
  import opened Options
  import opened PackedWords
  import opened Sequences
  import opened Sums

  /** The top bit of a reference word: the node should be on the list. */
  const SHOULD: nat := 0x8000_0000

  /** The caller of add_knowing_refcount_is_zero: `add`, or `try_get` going on with a head. */
  datatype Caller = FromAdd | FromGet(head: Option<nat>)

  datatype Pc =
    | Idle
    // add
    | AddFlag(node: nat)
    // add_knowing_refcount_is_zero
    | LoadHead(node: nat, caller: Caller)
    | StoreNext(node: nat, head: Option<nat>, caller: Caller)
    | StoreRefs(node: nat, head: Option<nat>, caller: Caller)
    | CasAdd(node: nat, head: Option<nat>, caller: Caller)
    | BackOff(node: nat, head: Option<nat>, caller: Caller)
    // try_get
    | GetHead
    | LoadRefs(node: nat)
    | CasRefs(node: nat, refs: nat)
    | LoadNext(node: nat)
    | CasHead(node: nat, next: Option<nat>)
    | DropTwo(node: nat)
    | DropOne(node: nat, head: Option<nat>)

  /** A node given to `add`, or returned by `try_get`. */
  datatype Event = Added(node: nat) | Got(node: nat)

  /** `owned` (nodes in clients' hands), `chain` (the list's nodes, in order) and `log` are history. */
  datatype State = State(
    head: Option<nat>, refs: seq<uint32>, next: seq<Option<nat>>, procs: seq<Pc>,
    owned: set<nat>, chain: seq<nat>, log: seq<Event>)

  datatype Config = Config(nodes: nat, threads: nat)

  /** The code's only assumption: fewer threads than the 31-bit count can hold. */
  predicate Config?(c: Config) { c.threads + 2 < SHOULD }

  function Init(c: Config): State {
    State(None, seq(c.nodes, _ => 0), seq(c.nodes, _ => None), seq(c.threads, _ => Idle),
          UpTo(c.nodes), [], [])
  }

  function UpTo(n: nat): (r: set<nat>)
    ensures forall i: nat :: i in r <==> i < n
  {
    if n == 0 then {} else UpTo(n - 1) + {n - 1}
  }

  predicate IsNode(s: State, n: nat) { n < |s.refs| && n < |s.next| }

  /** The node a program point works on, if any. */
  function NodeOf(pc: Pc): Option<nat> {
    if pc.Idle? || pc.GetHead? then None else Some(pc.node)
  }

  /** A thread can always move, except that it calls `add` only with a node it owns. */
  predicate Enabled(s: State, p: nat) {
    p < |s.procs| && !s.procs[p].Idle?
    && (NodeOf(s.procs[p]).Some? ==> IsNode(s, NodeOf(s.procs[p]).value))
  }

  function Goto(s: State, p: nat, pc: Pc): State
    requires p < |s.procs|
  {
    s.(procs := s.procs[p := pc])
  }

  /** The loop test of try_get with a freshly read head. */
  function Loop(head: Option<nat>): Pc { if head.Some? then LoadRefs(head.value) else Idle }

  function Return(caller: Caller): Pc { if caller.FromGet? then Loop(caller.head) else Idle }

  function StepAdd(s: State, p: nat): State
    requires Enabled(s, p)
  {
    match s.procs[p]
    case AddFlag(n) =>
      Goto(s, p, if s.refs[n] == 0 then LoadHead(n, FromAdd) else Idle)
        .(refs := s.refs[n := (s.refs[n] + SHOULD) % W32])
    case LoadHead(n, k) => Goto(s, p, StoreNext(n, s.head, k))
    case StoreNext(n, h, k) => Goto(s, p, StoreRefs(n, h, k)).(next := s.next[n := h])
    case StoreRefs(n, h, k) => Goto(s, p, CasAdd(n, h, k)).(refs := s.refs[n := 1])
    case CasAdd(n, h, k) =>
      if s.head == h then Goto(s, p, Return(k)).(head := Some(n), chain := [n] + s.chain)
      else Goto(s, p, BackOff(n, s.head, k))
    case BackOff(n, h, k) =>
      Goto(s, p, if s.refs[n] == 1 then StoreNext(n, h, k) else Return(k))
        .(refs := s.refs[n := (s.refs[n] + SHOULD - 1) % W32])
    case _ => s
  }

  function StepGet(s: State, p: nat): State
    requires Enabled(s, p)
  {
    match s.procs[p]
    case GetHead => Goto(s, p, Loop(s.head))
    case LoadRefs(n) => Goto(s, p, if s.refs[n] % SHOULD == 0 then GetHead else CasRefs(n, s.refs[n]))
    case CasRefs(n, r) =>
      if s.refs[n] == r then Goto(s, p, LoadNext(n)).(refs := s.refs[n := (r + 1) % W32])
      else Goto(s, p, GetHead)
    case LoadNext(n) => Goto(s, p, CasHead(n, s.next[n]))
    case CasHead(n, x) =>
      if s.head == Some(n) then Goto(s, p, DropTwo(n)).(head := x, chain := if |s.chain| > 0 then s.chain[1..] else [])
      else Goto(s, p, DropOne(n, s.head))
    case DropTwo(n) =>
      Goto(s, p, Idle).(refs := s.refs[n := (s.refs[n] - 2) % W32], owned := s.owned + {n}, log := s.log + [Got(n)])
    case DropOne(n, h) =>
      Goto(s, p, if s.refs[n] == SHOULD + 1 then LoadHead(n, FromGet(h)) else Loop(h))
        .(refs := s.refs[n := (s.refs[n] - 1) % W32])
    case _ => s
  }

  predicate AddStep?(pc: Pc) {
    pc.AddFlag? || pc.LoadHead? || pc.StoreNext? || pc.StoreRefs? || pc.CasAdd? || pc.BackOff?
  }

  function Step(s: State, p: nat): State
    requires Enabled(s, p)
  {
    if AddStep?(s.procs[p]) then StepAdd(s, p) else StepGet(s, p)
  }

  /** An idle thread calls try_get, or add with a node in a client's hands. */
  function CallGet(s: State, p: nat): State
    requires p < |s.procs|
  {
    Goto(s, p, GetHead)
  }

  function CallAdd(s: State, p: nat, n: nat): State
    requires p < |s.procs|
  {
    Goto(s, p, AddFlag(n)).(owned := s.owned - {n}, log := s.log + [Added(n)])
  }

  predicate Moves(s: State, p: nat, n: nat, s': State) {
    || (Enabled(s, p) && s' == Step(s, p))
    || (p < |s.procs| && s.procs[p].Idle? && s' == CallGet(s, p))
    || (p < |s.procs| && s.procs[p].Idle? && n in s.owned && s' == CallAdd(s, p, n))
  }

  ghost predicate Next(s: State, s': State) {
    exists p: nat, n: nat :: Moves(s, p, n, s')
  }

  ghost predicate IsRun(c: Config, run: seq<State>) {
    && |run| > 0
    && run[0] == Init(c)
    && forall i :: 0 < i < |run| ==> Next(run[i - 1], run[i])
  }

  // ---------------------------------------------------------------- counting, node by node

  /** The thread has incremented n's count and not yet given the increment back. */
  function Holds(n: nat): Pc -> int {
    (pc: Pc) =>
      if (pc.LoadNext? || pc.CasHead? || pc.DropOne? || pc.DropTwo?) && pc.node == n then 1 else 0
  }
  /** The thread is inside add_knowing_refcount_is_zero, before it stores the count 1. */
  function Preparing(n: nat): Pc -> int {
    (pc: Pc) => if (pc.LoadHead? || pc.StoreNext? || pc.StoreRefs?) && pc.node == n then 1 else 0
  }
  /** The thread has stored the count 1 and tries to publish the node. */
  function Publishing(n: nat): Pc -> int {
    (pc: Pc) => if (pc.CasAdd? || pc.BackOff?) && pc.node == n then 1 else 0
  }
  function Flagging(n: nat): Pc -> int {
    (pc: Pc) => if pc.AddFlag? && pc.node == n then 1 else 0
  }
  /** The thread has unlinked n and still owes it the list's reference. */
  function Taking(n: nat): Pc -> int {
    (pc: Pc) => if pc.DropTwo? && pc.node == n then 1 else 0
  }

  datatype Tally = Tally(holds: int, preparing: int, publishing: int, flagging: int, taking: int)

  function Count1(pc: Pc, n: nat): Tally {
    Tally(Holds(n)(pc), Preparing(n)(pc), Publishing(n)(pc), Flagging(n)(pc), Taking(n)(pc))
  }

  function Count(procs: seq<Pc>, n: nat): Tally {
    Tally(Sum(procs, Holds(n)), Sum(procs, Preparing(n)), Sum(procs, Publishing(n)), Sum(procs, Flagging(n)),
          Sum(procs, Taking(n)))
  }

  function Shift(t: Tally, from: Tally, to: Tally): Tally {
    Tally(t.holds - from.holds + to.holds, t.preparing - from.preparing + to.preparing,
          t.publishing - from.publishing + to.publishing, t.flagging - from.flagging + to.flagging,
          t.taking - from.taking + to.taking)
  }

  lemma CountUpdate(procs: seq<Pc>, p: nat, pc: Pc, n: nat)
    requires p < |procs|
    ensures Count(procs[p := pc], n) == Shift(Count(procs, n), Count1(procs[p], n), Count1(pc, n))
  {
    hide Sum;
    SumUpdate(procs, p, pc, Holds(n)); SumUpdate(procs, p, pc, Preparing(n)); SumUpdate(procs, p, pc, Publishing(n));
    SumUpdate(procs, p, pc, Flagging(n)); SumUpdate(procs, p, pc, Taking(n));
  }

  function One(pc: Pc): int { 1 }

  predicate AtLeast(t: Tally, u: Tally) {
    && t.holds >= u.holds && t.preparing >= u.preparing && t.publishing >= u.publishing
    && t.flagging >= u.flagging && t.taking >= u.taking
  }

  lemma CountBounds(procs: seq<Pc>, p: nat, n: nat)
    requires p < |procs|
    ensures AtLeast(Count(procs, n), Count1(procs[p], n))
    ensures 0 <= Count(procs, n).taking <= Count(procs, n).holds <= |procs|
  {
    hide Sum;
    SumAtLeast(procs, p, Holds(n)); SumAtLeast(procs, p, Preparing(n)); SumAtLeast(procs, p, Publishing(n));
    SumAtLeast(procs, p, Flagging(n)); SumAtLeast(procs, p, Taking(n));
    SumMonotone(procs, Taking(n), Holds(n));
    SumMonotone(procs, Holds(n), One);
    SumConstant(procs, One, 1);
  }

  // ---------------------------------------------------------------- the invariant

  function Bit(b: bool): int { if b then 1 else 0 }

  /** The places a node can be in, apart from waiting for its last reference to be dropped. */
  function Places(owned: bool, listed: bool, t: Tally): int {
    Bit(owned) + Bit(listed) + t.flagging + t.preparing + t.publishing + t.taking
  }

  /** A node marked SHOULD_BE_ON_FREELIST that nobody is adding. */
  function Stranded(owned: bool, listed: bool, t: Tally): int { 1 - Places(owned, listed, t) }

  /** A node is in exactly one place; its word counts the threads that hold it and the list's own
      reference, and carries the mark exactly while it is being prepared or waits; it is not
      prepared while held, and it waits only while held. */
  predicate NodeOk(refs: nat, owned: bool, listed: bool, t: Tally, threads: nat) {
    && t.holds >= 0 && t.preparing >= 0 && t.publishing >= 0 && t.flagging >= 0 && t.taking >= 0
    && t.holds <= threads
    && Places(owned, listed, t) <= 1
    && refs == t.holds + Bit(listed) + t.publishing + t.taking
               + SHOULD * (t.preparing + Stranded(owned, listed, t))
    && (t.preparing == 1 ==> t.holds == 0)
    && (Stranded(owned, listed, t) == 1 ==> t.holds > 0)
  }

  function After(chain: seq<nat>, i: nat): Option<nat> {
    if i + 1 < |chain| then Some(chain[i + 1]) else None
  }

  /** Following `next` from the head visits exactly the chain, then ends. */
  predicate Linked(head: Option<nat>, next: seq<Option<nat>>, chain: seq<nat>) {
    && head == (if |chain| == 0 then None else Some(chain[0]))
    && (forall i :: 0 <= i < |chain| ==> chain[i] < |next|)
    && (forall i :: 0 <= i < |chain| ==> next[chain[i]] == After(chain, i))
    && Distinct(chain)
  }

  predicate ValidHead(h: Option<nat>, nodes: nat) { h.Some? ==> h.value < nodes }

  predicate Fact(next: seq<Option<nat>>, nodes: nat, pc: Pc) {
    && (NodeOf(pc).Some? ==> NodeOf(pc).value < nodes)
    && |next| == nodes
    && match pc
       case StoreRefs(n, h, k) => next[n] == h && ValidHead(h, nodes) && ValidHead(if k.FromGet? then k.head else None, nodes)
       case CasAdd(n, h, k) => next[n] == h && ValidHead(h, nodes) && ValidHead(if k.FromGet? then k.head else None, nodes)
       case LoadHead(n, k) => ValidHead(if k.FromGet? then k.head else None, nodes)
       case StoreNext(n, h, k) => ValidHead(h, nodes) && ValidHead(if k.FromGet? then k.head else None, nodes)
       case BackOff(n, h, k) => ValidHead(h, nodes) && ValidHead(if k.FromGet? then k.head else None, nodes)
       case CasHead(n, x) => next[n] == x
       case DropOne(n, h) => ValidHead(h, nodes)
       case CasRefs(n, r) => r % SHOULD != 0
       case _ => true
  }

  /** Between two returns of the same node there is an add of it. */
  ghost predicate Alternates(log: seq<Event>, owned: set<nat>) {
    && (forall i, j :: 0 <= i < j < |log| && log[i].Got? && log[j] == log[i] ==>
          Added(log[i].node) in log[i..j])
    && (forall i :: 0 <= i < |log| && log[i].Got? && log[i].node !in owned ==> Added(log[i].node) in log[i..])
  }

  ghost predicate Inv(c: Config, s: State) {
    && Config?(c)
    && |s.refs| == |s.next| == c.nodes && |s.procs| == c.threads
    && (forall n :: 0 <= n < c.nodes ==> NodeOk(s.refs[n], n in s.owned, n in s.chain, Count(s.procs, n), c.threads))
    && Linked(s.head, s.next, s.chain)
    && (forall p :: 0 <= p < |s.procs| ==> Fact(s.next, c.nodes, s.procs[p]))
    && (forall n :: n in s.owned ==> n < c.nodes)
    && Alternates(s.log, s.owned)
  }

  // ---------------------------------------------------------------- every step keeps it

  /** A step that concerns node n leaves every other node in order. */
  lemma NodesAfter(c: Config, s: State, p: nat, n: nat, s': State)
    requires Inv(c, s) && p < |s.procs| && n < c.nodes && |s'.procs| == |s.procs| && |s'.refs| == c.nodes
    requires s'.procs == s.procs[p := s'.procs[p]] && s'.refs == s.refs[n := s'.refs[n]]
    requires forall m: nat :: m != n ==> Count1(s.procs[p], m) == Count1(s'.procs[p], m)
    requires forall m: nat :: m != n ==> (m in s'.owned <==> m in s.owned) && (m in s'.chain <==> m in s.chain)
    requires NodeOk(s'.refs[n], n in s'.owned, n in s'.chain,
                    Shift(Count(s.procs, n), Count1(s.procs[p], n), Count1(s'.procs[p], n)), c.threads)
    ensures forall m :: 0 <= m < c.nodes ==> NodeOk(s'.refs[m], m in s'.owned, m in s'.chain, Count(s'.procs, m), c.threads)
  {
    hide Sum, NodeOk, Linked, Fact, Alternates;
    forall m | 0 <= m < c.nodes
      ensures NodeOk(s'.refs[m], m in s'.owned, m in s'.chain, Count(s'.procs, m), c.threads)
    {
      CountUpdate(s.procs, p, s'.procs[p], m);
    }
  }

  /** What the counts say about the node a thread works on. */
  lemma Here(c: Config, s: State, p: nat)
    requires Inv(c, s) && p < |s.procs| && NodeOf(s.procs[p]).Some?
    ensures var n := NodeOf(s.procs[p]).value;
            && n < c.nodes && AtLeast(Count(s.procs, n), Count1(s.procs[p], n))
            && NodeOk(s.refs[n], n in s.owned, n in s.chain, Count(s.procs, n), c.threads)
            && 0 <= Count(s.procs, n).taking <= Count(s.procs, n).holds
  {
    hide Sum;
    CountBounds(s.procs, p, NodeOf(s.procs[p]).value);
  }

  lemma AddFlagStep(c: Config, s: State, p: nat)
    requires Inv(c, s) && Enabled(s, p) && s.procs[p].AddFlag?
    ensures Inv(c, Step(s, p))
  {
    hide Sum, Count, Linked, Alternates;
    Here(c, s, p);
    NodesAfter(c, s, p, s.procs[p].node, Step(s, p));
  }

  lemma LoadHeadStep(c: Config, s: State, p: nat)
    requires Inv(c, s) && Enabled(s, p) && s.procs[p].LoadHead?
    ensures Inv(c, Step(s, p))
  {
    hide Sum, Count, Alternates, NodeOk;
    Here(c, s, p);
    NodesAfter(c, s, p, s.procs[p].node, Step(s, p));
  }

  lemma StoreRefsStep(c: Config, s: State, p: nat)
    requires Inv(c, s) && Enabled(s, p) && s.procs[p].StoreRefs?
    ensures Inv(c, Step(s, p))
  {
    hide Sum, Count, Linked, Alternates;
    Here(c, s, p);
    NodesAfter(c, s, p, s.procs[p].node, Step(s, p));
  }

  lemma BackOffStep(c: Config, s: State, p: nat)
    requires Inv(c, s) && Enabled(s, p) && s.procs[p].BackOff?
    ensures Inv(c, Step(s, p))
  {
    hide Sum, Count, Linked, Alternates;
    Here(c, s, p);
    NodesAfter(c, s, p, s.procs[p].node, Step(s, p));
  }

  /** A word with a non-zero count belongs to a node that is not being prepared; one more
      holder does not overflow it. */
  lemma OneMoreHolder(refs: uint32, owned: bool, listed: bool, t: Tally, threads: nat)
    requires NodeOk(refs, owned, listed, t, threads) && refs % SHOULD != 0 && t.holds + 1 <= threads
    requires threads + 2 < SHOULD
    ensures NodeOk((refs + 1) % W32, owned, listed, t.(holds := t.holds + 1), threads)
  {
  }

  lemma CasRefsStep(c: Config, s: State, p: nat)
    requires Inv(c, s) && Enabled(s, p) && s.procs[p].CasRefs?
    ensures Inv(c, Step(s, p))
  {
    hide Sum, Count, Linked, Alternates, NodeOk;
    var n := s.procs[p].node;
    Here(c, s, p);
    if s.refs[n] == s.procs[p].refs {
      CountUpdate(s.procs, p, LoadNext(n), n);
      CountBounds(s.procs[p := LoadNext(n)], p, n);
      OneMoreHolder(s.refs[n], n in s.owned, n in s.chain, Count(s.procs, n), c.threads);
    }
    NodesAfter(c, s, p, n, Step(s, p));
  }

  lemma LoadNextStep(c: Config, s: State, p: nat)
    requires Inv(c, s) && Enabled(s, p) && s.procs[p].LoadNext?
    ensures Inv(c, Step(s, p))
  {
    hide Sum, Count, Linked, Alternates;
    Here(c, s, p);
    NodesAfter(c, s, p, s.procs[p].node, Step(s, p));
  }

  lemma DropOneStep(c: Config, s: State, p: nat)
    requires Inv(c, s) && Enabled(s, p) && s.procs[p].DropOne?
    ensures Inv(c, Step(s, p))
  {
    hide Sum, Count, Linked, Alternates;
    Here(c, s, p);
    NodesAfter(c, s, p, s.procs[p].node, Step(s, p));
  }

  /** No thread that read the old link is still going to use it: the node's count is zero. */
  lemma StoreNextStep(c: Config, s: State, p: nat)
    requires Inv(c, s) && Enabled(s, p) && s.procs[p].StoreNext?
    ensures Inv(c, Step(s, p))
  {
    hide Sum, Count, Alternates;
    var n := s.procs[p].node;
    Here(c, s, p);
    NodesAfter(c, s, p, n, Step(s, p));
    forall q | 0 <= q < |s.procs| && q != p ensures Fact(Step(s, p).next, c.nodes, s.procs[q]) {
      SoleUser(c, s, p, q, n);
    }
  }

  /** While n is being prepared nobody holds it, and nobody else prepares or publishes it. */
  lemma SoleUser(c: Config, s: State, p: nat, q: nat, n: nat)
    requires Inv(c, s) && p < |s.procs| && q < |s.procs| && q != p
    requires n < c.nodes && Preparing(n)(s.procs[p]) == 1
    ensures Count1(s.procs[q], n) == Tally(0, 0, 0, 0, 0)
  {
    hide Sum, Linked, Alternates;
    CountBounds(s.procs, q, n);
    CountBounds(s.procs, p, n);
    SumAtLeast(s.procs, p, Preparing(n));
    assert NodeOk(s.refs[n], n in s.owned, n in s.chain, Count(s.procs, n), c.threads);
  }

  lemma CasAddStep(c: Config, s: State, p: nat)
    requires Inv(c, s) && Enabled(s, p) && s.procs[p].CasAdd?
    ensures Inv(c, Step(s, p))
  {
    hide Sum, Count, Alternates;
    Here(c, s, p);
    NodesAfter(c, s, p, s.procs[p].node, Step(s, p));
  }

  lemma CasHeadStep(c: Config, s: State, p: nat)
    requires Inv(c, s) && Enabled(s, p) && s.procs[p].CasHead?
    ensures Inv(c, Step(s, p))
  {
    hide Sum, Count, Alternates;
    Here(c, s, p);
    var n := s.procs[p].node;
    if s.head == Some(n) {
      assert s.chain == [n] + s.chain[1..];
      assert n !in s.chain[1..];
    }
    NodesAfter(c, s, p, n, Step(s, p));
  }

  /** The code's assertion: the mark is clear on a node just unlinked, and it is in nobody's hands. */
  lemma MarkClear(c: Config, s: State, p: nat)
    requires Inv(c, s) && Enabled(s, p) && s.procs[p].DropTwo?
    ensures s.refs[s.procs[p].node] / SHOULD % 2 == 0
    ensures s.procs[p].node !in s.owned && s.refs[s.procs[p].node] >= 2
  {
    hide Sum, Count, Linked, Alternates;
    Here(c, s, p);
  }

  lemma DropTwoStep(c: Config, s: State, p: nat)
    requires Inv(c, s) && Enabled(s, p) && s.procs[p].DropTwo?
    ensures Inv(c, Step(s, p))
  {
    hide Sum, Count, Linked, Alternates;
    var n := s.procs[p].node;
    Here(c, s, p);
    MarkClear(c, s, p);
    NodesAfter(c, s, p, n, Step(s, p));
    LogGot(s.log, s.owned, n);
  }

  lemma LogGot(log: seq<Event>, owned: set<nat>, n: nat)
    requires Alternates(log, owned) && n !in owned
    ensures Alternates(log + [Got(n)], owned + {n})
  {
    var log' := log + [Got(n)];
    forall i, j | 0 <= i < j < |log'| && log'[i].Got? && log'[j] == log'[i] ensures Added(log'[i].node) in log'[i..j] {
      if j < |log| {
        assert log'[i..j] == log[i..j];
      } else {
        assert log'[i..j] == log[i..];
      }
    }
    forall i | 0 <= i < |log'| && log'[i].Got? && log'[i].node !in owned + {n} ensures Added(log'[i].node) in log'[i..] {
      assert log'[i..] == log[i..] + [Got(n)];
    }
  }

  lemma LogAdded(log: seq<Event>, owned: set<nat>, n: nat)
    requires Alternates(log, owned)
    ensures Alternates(log + [Added(n)], owned - {n})
  {
    var log' := log + [Added(n)];
    forall i, j | 0 <= i < j < |log'| && log'[i].Got? && log'[j] == log'[i] ensures Added(log'[i].node) in log'[i..j] {
      assert log'[i..j] == log[i..j];
    }
    forall i | 0 <= i < |log'| && log'[i].Got? && log'[i].node !in owned - {n} ensures Added(log'[i].node) in log'[i..] {
      assert log'[i..] == log[i..] + [Added(n)];
    }
  }

  /** Steps that touch no node's word, place or link. */
  lemma ReadStep(c: Config, s: State, p: nat)
    requires Inv(c, s) && Enabled(s, p) && (s.procs[p].GetHead? || s.procs[p].LoadRefs?)
    ensures Inv(c, Step(s, p))
  {
    hide Sum, Count, Alternates, NodeOk;
    forall n | 0 <= n < c.nodes ensures Count(Step(s, p).procs, n) == Count(s.procs, n) {
      CountUpdate(s.procs, p, Step(s, p).procs[p], n);
    }
  }

  lemma CallGetStep(c: Config, s: State, p: nat)
    requires Inv(c, s) && p < |s.procs| && s.procs[p].Idle?
    ensures Inv(c, CallGet(s, p))
  {
    hide Sum, Count, Alternates, NodeOk, Linked;
    forall n | 0 <= n < c.nodes ensures Count(CallGet(s, p).procs, n) == Count(s.procs, n) {
      CountUpdate(s.procs, p, GetHead, n);
    }
  }

  lemma CallAddStep(c: Config, s: State, p: nat, n: nat)
    requires Inv(c, s) && p < |s.procs| && s.procs[p].Idle? && n in s.owned
    ensures Inv(c, CallAdd(s, p, n))
  {
    hide Sum, Count, Linked, Alternates;
    NodesAfter(c, s, p, n, CallAdd(s, p, n));
    LogAdded(s.log, s.owned, n);
  }

  lemma MovesKeepsInv(c: Config, s: State, p: nat, n: nat, s': State)
    requires Inv(c, s) && Moves(s, p, n, s')
    ensures Inv(c, s')
  {
    hide Inv, Step, CallGet, CallAdd, IsNode;
    if s.procs[p].Idle? {
      if s' == CallGet(s, p) { CallGetStep(c, s, p); } else { CallAddStep(c, s, p, n); }
    } else {
      match s.procs[p]
      case AddFlag(_) => AddFlagStep(c, s, p);
      case LoadHead(_, _) => LoadHeadStep(c, s, p);
      case StoreNext(_, _, _) => StoreNextStep(c, s, p);
      case StoreRefs(_, _, _) => StoreRefsStep(c, s, p);
      case CasAdd(_, _, _) => CasAddStep(c, s, p);
      case BackOff(_, _, _) => BackOffStep(c, s, p);
      case GetHead => ReadStep(c, s, p);
      case LoadRefs(_) => ReadStep(c, s, p);
      case CasRefs(_, _) => CasRefsStep(c, s, p);
      case LoadNext(_) => LoadNextStep(c, s, p);
      case CasHead(_, _) => CasHeadStep(c, s, p);
      case DropTwo(_) => DropTwoStep(c, s, p);
      case DropOne(_, _) => DropOneStep(c, s, p);
    }
  }

  lemma InitInv(c: Config)
    requires Config?(c)
    ensures Inv(c, Init(c))
  {
    hide Sum;
    var s := Init(c);
    forall n: nat ensures Count(s.procs, n) == Tally(0, 0, 0, 0, 0) {
      SumConstant(s.procs, Holds(n), 0); SumConstant(s.procs, Preparing(n), 0); SumConstant(s.procs, Publishing(n), 0);
      SumConstant(s.procs, Flagging(n), 0); SumConstant(s.procs, Taking(n), 0);
    }
  }

  lemma {:induction false} RunInv(c: Config, run: seq<State>, k: nat)
    requires Config?(c) && IsRun(c, run) && k < |run|
    ensures Inv(c, run[k])
  {
    hide Inv, Init, Step, CallGet, CallAdd;
    if k == 0 {
      InitInv(c);
    } else {
      RunInv(c, run, k - 1);
      var p: nat, n: nat :| Moves(run[k - 1], p, n, run[k]);
      MovesKeepsInv(c, run[k - 1], p, n, run[k]);
    }
  }

  // ---------------------------------------------------------------- what every run guarantees

  /** In every run: the list is a duplicate-free chain of nodes that ends, a node that a client
      owns is not on it, the assertion in try_get never fails, and no node is returned twice
      without an add in between. */
  lemma FreeListSafety(c: Config, run: seq<State>, k: nat)
    requires Config?(c) && IsRun(c, run) && k < |run|
    ensures var s := run[k];
            && Linked(s.head, s.next, s.chain)
            && (forall n :: n in s.chain ==> n !in s.owned)
            && (forall p :: 0 <= p < |s.procs| && Enabled(s, p) && s.procs[p].DropTwo? ==>
                  s.refs[s.procs[p].node] / SHOULD % 2 == 0 && s.procs[p].node !in s.owned)
            && (forall i, j :: 0 <= i < j < |s.log| && s.log[i].Got? && s.log[j] == s.log[i] ==>
                  Added(s.log[i].node) in s.log[i..j])
  {
    hide Sum, Count;
    var s := run[k];
    RunInv(c, run, k);
    forall p: nat | p < |s.procs| && Enabled(s, p) && s.procs[p].DropTwo?
      ensures s.refs[s.procs[p].node] / SHOULD % 2 == 0 && s.procs[p].node !in s.owned
    {
      MarkClear(c, s, p);
    }
  }

  /** No node is lost: one that is nowhere else carries the mark and is held by some thread, and
      the thread that drops the last reference puts it back; when all threads are idle every
      node is owned by a client or on the list. */
  lemma NoNodeLost(c: Config, run: seq<State>, k: nat, n: nat)
    requires Config?(c) && IsRun(c, run) && k < |run| && n < c.nodes
    ensures var s := run[k];
            n in s.owned || n in s.chain
            || (exists p :: 0 <= p < |s.procs| && NodeOf(s.procs[p]) == Some(n))
    ensures var s := run[k];
            (forall p :: 0 <= p < |s.procs| ==> s.procs[p].Idle?) ==> n in s.owned || n in s.chain
  {
    hide Sum, Linked, Alternates;
    var s := run[k];
    RunInv(c, run, k);
    var t := Count(s.procs, n);
    assert NodeOk(s.refs[n], n in s.owned, n in s.chain, t, c.threads);
    if n !in s.owned && n !in s.chain {
      SumMonotone(s.procs, Taking(n), Holds(n));
      if t.holds > 0 { var p := SumWitness(s.procs, Holds(n)); }
      else if t.flagging > 0 { var p := SumWitness(s.procs, Flagging(n)); }
      else if t.preparing > 0 { var p := SumWitness(s.procs, Preparing(n)); }
      else { var p := SumWitness(s.procs, Publishing(n)); }
    }
  }

  /** A marked node with one reference left, held by a thread about to give it back: that thread
      goes on to add the node. */
  lemma LastHolderAdds(c: Config, run: seq<State>, k: nat, p: nat)
    requires Config?(c) && IsRun(c, run) && k < |run|
    requires p < |run[k].procs| && run[k].procs[p].DropOne?
    ensures var s := run[k];
            var n := s.procs[p].node;
            && Enabled(s, p)
            && (Stranded(n in s.owned, n in s.chain, Count(s.procs, n)) == 1 && Count(s.procs, n).holds == 1
                <==> Step(s, p).procs[p].LoadHead?)
  {
    hide Sum, Count, Linked, Alternates;
    RunInv(c, run, k);
    Here(c, run[k], p);
  }
}
