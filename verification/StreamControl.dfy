/** `for_each(range) >> concurrent(max) >> ... >> reduce` as one interleaved machine.

    Process 0 is the caller that starts the stream; process i + 1 is the completion of element
    i. Any of them may find itself running `for_each`'s polling loop: the starter by calling
    `start`, an element because the result it brought back released a poll. Every step below
    is one atomic access of the code (a load, a store, or one successful CAS or fetch_add) or
    one step of code that only the token holder runs. Interleaving is sequentially consistent. */
module StreamControl {
  import opened PackedWords
  import opened Sequences
  import opened Sums
  import B = Backpressure
  import C = CompletionCounter
  import P = PollToken

  /** The stream's elements and the limit of `concurrent` (0: unlimited). */
  datatype Config = Config(range: seq<int>, max: uint64)

  /** Where a process stands. `nested` records the caller of the polling loop: an element's
      completion (true) or the starter (false). */
  datatype Pc =
    // an element, from its push to the end of its completion
    | NotPushed | InFlight | ElemSub | ElemPoll | ElemAddDone | DoneFromAdd | ElemDone
    // the starter
    | Start | StartDone
    // the polling loop and what it calls
    | CheckEnd(nested: bool) | Count(nested: bool) | Read(nested: bool)
    | Advance(x: int, nested: bool) | Push(x: int, nested: bool)
    | Add(nested: bool) | SelfPoll(nested: bool) | Consume(nested: bool)
    | LoadCount(nested: bool) | Release(count: uint32, nested: bool)
    | SetTotal(count: uint32, nested: bool) | DoneFromTotal(nested: bool)
    // a poll made inside the loop got the token: the loop would be entered recursively
    | Recursed(nested: bool)

  /** `pushed` to `delivered` are history: the values pushed downstream, the elements folded by
      reduce (in order), the counts announced by push_stream_done, and what reduce took each
      time it was told that all is done. */
  datatype State = State(
    flag: uint64, pending: uint64, counter: uint64,
    it: nat, pushCount: uint32, procs: seq<Pc>,
    pushed: seq<int>, folded: seq<nat>, streamDones: seq<nat>, delivered: seq<seq<nat>>)

  predicate Config?(c: Config) {
    |c.range| < W32 - 1 && c.max <= B.MAX_LIMIT
  }

  function Init(c: Config): State {
    State(0, 0, 0, 0, 0, [Start] + seq(|c.range|, _ => NotPushed), [], [], [], [])
  }

  predicate Enabled(s: State, p: nat) {
    p < |s.procs| && !(s.procs[p].NotPushed? || s.procs[p].ElemDone? || s.procs[p].StartDone? || s.procs[p].Recursed?)
  }

  /** Return from the polling loop. */
  function Return(nested: bool): Pc { if nested then ElemAddDone else StartDone }

  function Goto(s: State, p: nat, pc: Pc): State
    requires p < |s.procs|
  {
    s.(procs := s.procs[p := pc])
  }

  function StepElement(c: Config, s: State, p: nat): State
    requires Enabled(s, p)
  {
    match s.procs[p]
    case InFlight => // the result, exception or skip reaches reduce and is folded
      Goto(s, p, ElemSub).(folded := s.folded + [if p == 0 then 0 else p - 1])
    case ElemSub => // concurrent's poll_next
      if c.max == 0 then Goto(s, p, ElemAddDone)
      else
        var v := B.SubPending(s.pending, c.max);
        Goto(s, p, if !v.oldRes && v.newRes then ElemPoll else ElemAddDone).(pending := v.word)
    case ElemPoll => // for_each's poll_next
      var g := P.Acquire(s.flag);
      Goto(s, p, if g.granted then CheckEnd(true) else ElemAddDone).(flag := g.word)
    case ElemAddDone =>
      Goto(s, p, if C.AddDoneHits(s.counter) then DoneFromAdd else ElemDone).(counter := C.AddDoneWord(s.counter))
    case DoneFromAdd => // reduce's push_done
      Goto(s, p, ElemDone).(delivered := s.delivered + [s.folded])
    case _ => s
  }

  function StepLoop(c: Config, s: State, p: nat): State
    requires Enabled(s, p)
  {
    match s.procs[p]
    case Start => // the result of the acquisition is ignored: the loop is entered anyway
      Goto(s, p, CheckEnd(false)).(flag := P.Acquire(s.flag).word)
    case CheckEnd(n) => Goto(s, p, if s.it == |c.range| then LoadCount(n) else Count(n))
    case Count(n) => Goto(s, p, Read(n)).(pushCount := (s.pushCount + 1) % W32)
    case Read(n) => Goto(s, p, Advance(if s.it < |c.range| then c.range[s.it] else 0, n))
    case Advance(x, n) => Goto(s, p, Push(x, n)).(it := s.it + 1)
    case Push(x, n) =>
      var e := s.it;
      var s1 := Goto(s, p, if c.max == 0 then SelfPoll(n) else Add(n)).(pushed := s.pushed + [x]);
      if e < |s.procs| then Goto(s1, e, InFlight) else s1
    case Add(n) =>
      var v := B.AddPending(s.pending, c.max);
      Goto(s, p, if v.newRes then SelfPoll(n) else Consume(n)).(pending := v.word)
    case SelfPoll(n) =>
      var g := P.Acquire(s.flag);
      Goto(s, p, if g.granted then Recursed(n) else Consume(n)).(flag := g.word)
    case Consume(n) =>
      var g := P.Consume(s.flag);
      Goto(s, p, if g.granted then CheckEnd(n) else Return(n)).(flag := g.word)
    case LoadCount(n) => Goto(s, p, Release(s.pushCount, n))
    case Release(k, n) => Goto(s, p, SetTotal(k, n)).(flag := 0)
    case SetTotal(k, n) =>
      Goto(s, p, if C.SetTotalHits(s.counter, k) then DoneFromTotal(n) else Return(n))
        .(counter := C.SetTotalWord(s.counter, k), streamDones := s.streamDones + [k])
    case DoneFromTotal(n) => // reduce's push_done
      Goto(s, p, Return(n)).(delivered := s.delivered + [s.folded])
    case _ => s
  }

  predicate ElementStep?(pc: Pc) {
    pc.InFlight? || pc.ElemSub? || pc.ElemPoll? || pc.ElemAddDone? || pc.DoneFromAdd?
  }

  /** Process p takes its next step; which process moves is the scheduler's choice. */
  function Step(c: Config, s: State, p: nat): State
    requires Enabled(s, p)
  {
    if ElementStep?(s.procs[p]) then StepElement(c, s, p) else StepLoop(c, s, p)
  }

  predicate StepsTo(c: Config, s: State, p: nat, s': State) {
    Enabled(s, p) && s' == Step(c, s, p)
  }

  ghost predicate Next(c: Config, s: State, s': State) {
    exists p: nat :: StepsTo(c, s, p, s')
  }

  ghost predicate IsRun(c: Config, run: seq<State>) {
    && |run| > 0
    && run[0] == Init(c)
    && forall i :: 0 < i < |run| ==> Next(c, run[i - 1], run[i])
  }

  // ---------------------------------------------------------------- counting processes

  function Holds(pc: Pc): int {
    if pc.CheckEnd? || pc.Count? || pc.Read? || pc.Advance? || pc.Push? || pc.Add? || pc.SelfPoll?
       || pc.Consume? || pc.LoadCount? || pc.Release? then 1 else 0
  }
  function Served(pc: Pc): int { if pc.SelfPoll? || pc.Consume? then 1 else 0 }
  function Polls(pc: Pc): int { if pc.Start? || pc.ElemPoll? || pc.SelfPoll? then 1 else 0 }
  function AtAdd(pc: Pc): int { if pc.Add? then 1 else 0 }
  function Folded(pc: Pc): int {
    if pc.NotPushed? || pc.InFlight? || pc.Start? || pc.StartDone? then 0
    else if pc.ElemSub? || pc.ElemPoll? || pc.ElemAddDone? || pc.DoneFromAdd? || pc.ElemDone? then 1
    else if pc.nested then 1 else 0
  }
  function Subbed(pc: Pc): int { if pc.ElemSub? then 0 else Folded(pc) }
  function Added(pc: Pc): int { if pc.DoneFromAdd? || pc.ElemDone? then 1 else 0 }
  function Started(pc: Pc): int { if pc.InFlight? then 1 else Folded(pc) }
  function Ending(pc: Pc): int { if pc.LoadCount? || pc.Release? || pc.SetTotal? then 1 else 0 }
  function Announcing(pc: Pc): int { if pc.SetTotal? then 1 else 0 }
  function Finishing(pc: Pc): int { if pc.DoneFromTotal? || pc.DoneFromAdd? then 1 else 0 }

  datatype Tally = Tally(holds: int, served: int, polls: int, atAdd: int, folded: int, subbed: int,
                         added: int, started: int, ending: int, announcing: int, finishing: int)

  function Count1(pc: Pc): Tally {
    Tally(Holds(pc), Served(pc), Polls(pc), AtAdd(pc), Folded(pc), Subbed(pc), Added(pc), Started(pc),
          Ending(pc), Announcing(pc), Finishing(pc))
  }

  function CountAll(procs: seq<Pc>): Tally {
    Tally(Sum(procs, Holds), Sum(procs, Served), Sum(procs, Polls), Sum(procs, AtAdd), Sum(procs, Folded),
          Sum(procs, Subbed), Sum(procs, Added), Sum(procs, Started), Sum(procs, Ending),
          Sum(procs, Announcing), Sum(procs, Finishing))
  }

  function Shift(t: Tally, from: Tally, to: Tally): Tally {
    Tally(t.holds - from.holds + to.holds, t.served - from.served + to.served, t.polls - from.polls + to.polls,
          t.atAdd - from.atAdd + to.atAdd, t.folded - from.folded + to.folded, t.subbed - from.subbed + to.subbed,
          t.added - from.added + to.added, t.started - from.started + to.started, t.ending - from.ending + to.ending,
          t.announcing - from.announcing + to.announcing, t.finishing - from.finishing + to.finishing)
  }

  lemma CountUpdate(procs: seq<Pc>, p: nat, pc: Pc)
    requires p < |procs|
    ensures CountAll(procs[p := pc]) == Shift(CountAll(procs), Count1(procs[p]), Count1(pc))
  {
    hide Sum;
    SumUpdate(procs, p, pc, Holds); SumUpdate(procs, p, pc, Served); SumUpdate(procs, p, pc, Polls);
    SumUpdate(procs, p, pc, AtAdd); SumUpdate(procs, p, pc, Folded); SumUpdate(procs, p, pc, Subbed);
    SumUpdate(procs, p, pc, Added); SumUpdate(procs, p, pc, Started); SumUpdate(procs, p, pc, Ending);
    SumUpdate(procs, p, pc, Announcing); SumUpdate(procs, p, pc, Finishing);
  }

  predicate AtLeast(t: Tally, u: Tally) {
    && t.holds >= u.holds && t.served >= u.served && t.polls >= u.polls && t.atAdd >= u.atAdd
    && t.folded >= u.folded && t.subbed >= u.subbed && t.added >= u.added && t.started >= u.started
    && t.ending >= u.ending && t.announcing >= u.announcing && t.finishing >= u.finishing
  }

  lemma CountBounds(procs: seq<Pc>, p: nat)
    requires p < |procs|
    ensures AtLeast(CountAll(procs), Count1(procs[p]))
    ensures CountAll(procs).served <= CountAll(procs).holds
    ensures CountAll(procs).atAdd <= CountAll(procs).holds
    ensures CountAll(procs).subbed <= CountAll(procs).folded <= CountAll(procs).started
    ensures CountAll(procs).added <= CountAll(procs).folded
    ensures CountAll(procs).announcing <= CountAll(procs).ending
  {
    hide Sum;
    SumAtLeast(procs, p, Holds); SumAtLeast(procs, p, Served); SumAtLeast(procs, p, Polls);
    SumAtLeast(procs, p, AtAdd); SumAtLeast(procs, p, Folded); SumAtLeast(procs, p, Subbed);
    SumAtLeast(procs, p, Added); SumAtLeast(procs, p, Started); SumAtLeast(procs, p, Ending);
    SumAtLeast(procs, p, Announcing); SumAtLeast(procs, p, Finishing);
    SumMonotone(procs, Served, Holds);
    SumMonotone(procs, AtAdd, Holds);
    SumMonotone(procs, Subbed, Folded);
    SumMonotone(procs, Folded, Started);
    SumMonotone(procs, Added, Folded);
    SumMonotone(procs, Announcing, Ending);
  }

  function One(pc: Pc): int { 1 }

  /** Only elements are ever counted as finished. */
  lemma FinishedElements(procs: seq<Pc>)
    requires |procs| > 0 && Added(procs[0]) == 0
    ensures CountAll(procs).added <= |procs| - 1
  {
    SumUpdate(procs, 0, ElemDone, Added);
    SumMonotone(procs[0 := ElemDone], Added, One);
    SumConstant(procs[0 := ElemDone], One, 1);
  }

  /** Two different processes inside the loop would count twice. */
  lemma UniqueHolder(procs: seq<Pc>, p: nat, q: nat)
    requires p < |procs| && q < |procs|
    requires CountAll(procs).holds <= 1 && Holds(procs[p]) == 1 && Holds(procs[q]) == 1
    ensures p == q
  {
    SumAtLeast(procs, p, Holds);
  }

  /** The only holder is not at a served position, so no served permit is outstanding. */
  lemma NotServed(procs: seq<Pc>, p: nat)
    requires p < |procs| && CountAll(procs).holds <= 1
    requires Holds(procs[p]) == 1 && Served(procs[p]) == 0
    ensures CountAll(procs).served == 0
  {
    CountBounds(procs, p);
    if CountAll(procs).served > 0 {
      var q := SumWitness(procs, Served);
      UniqueHolder(procs, p, q);
    }
  }

  // ---------------------------------------------------------------- the invariant

  predicate StarterPc(pc: Pc) {
    match pc
    case Start | StartDone => true
    case NotPushed | InFlight | ElemSub | ElemPoll | ElemAddDone | DoneFromAdd | ElemDone | Recursed(_) => false
    case _ => !pc.nested
  }

  predicate ElementPc(pc: Pc) {
    match pc
    case Start | StartDone | Recursed(_) => false
    case NotPushed | InFlight | ElemSub | ElemPoll | ElemAddDone | DoneFromAdd | ElemDone => true
    case _ => pc.nested
  }

  /** Every process is where its kind can be, and elements are pushed in order. */
  predicate Shape(c: Config, s: State) {
    && |s.procs| == |c.range| + 1
    && |s.pushed| <= |c.range|
    && StarterPc(s.procs[0])
    && (forall i :: 0 < i < |s.procs| ==> ElementPc(s.procs[i]))
    && (forall i :: 0 < i < |s.procs| ==> (s.procs[i].NotPushed? <==> i > |s.pushed|))
    && (s.procs[0].Start? ==> |s.pushed| == 0)
  }

  /** The token is held by exactly the process in the loop, and a free token has nothing pending. */
  predicate Token(flag: uint64, holds: int) {
    && Lo(flag) == holds <= 1
    && (Lo(flag) == 0 <==> Hi(flag) == 0)
  }

  predicate Ended(ends: nat, announcing: int) { announcing + ends > 0 }

  /** There is room for another element. */
  predicate Room(max: uint64, pending: uint64) { max == 0 || B.Balance(pending) < max }

  /** One poll permit is outstanding exactly while there is room and the stream goes on. */
  predicate Permits(max: uint64, flag: uint64, pending: uint64, ends: nat, announcing: int, polls: int, served: int) {
    && Hi(flag) + polls - served == (if !Ended(ends, announcing) && Room(max, pending) then 1 else 0)
    && (Ended(ends, announcing) ==> Lo(flag) == 0 && Room(max, pending))
  }

  /** The backpressure word is the number of elements handed out minus results returned. */
  predicate Balanced(max: uint64, pending: uint64, pushed: nat, atAdd: int, subbed: int) {
    max > 0 ==> B.Balance(pending) == pushed - atAdd - subbed && B.Balance(pending) <= max
  }

  /** What the process in the loop knows about iterator and push count. */
  predicate LoopFact(c: Config, s: State, pc: Pc) {
    match pc
    case Count(_) => s.it == s.pushCount == |s.pushed| < |c.range|
    case Read(_) => s.it + 1 == s.pushCount == |s.pushed| + 1 <= |c.range|
    case Advance(x, _) => s.it + 1 == s.pushCount == |s.pushed| + 1 <= |c.range| && x == c.range[s.it]
    case Push(x, _) => s.it == s.pushCount == |s.pushed| + 1 <= |c.range| && x == c.range[s.it - 1]
    case LoadCount(_) => s.it == s.pushCount == |s.pushed| == |c.range|
    case Release(k, _) => s.it == s.pushCount == |s.pushed| == |c.range| == k
    case SetTotal(k, _) => s.it == s.pushCount == |s.pushed| == |c.range| == k
    case Add(_) => s.it == s.pushCount == |s.pushed| && c.max > 0
    case CheckEnd(_) | SelfPoll(_) | Consume(_) => s.it == s.pushCount == |s.pushed|
    case _ => true
  }

  predicate Iteration(c: Config, s: State, holds: int) {
    && s.it <= |c.range|
    && (forall i :: 0 <= i < |s.procs| ==> LoopFact(c, s, s.procs[i]))
    && (holds == 0 ==> s.it == s.pushCount == |s.pushed|)
    && |s.pushed| <= |c.range| && s.pushed == c.range[..|s.pushed|]
  }

  /** The end is announced at most once, with the true length. */
  predicate Announced(c: Config, pushed: nat, streamDones: seq<nat>, ending: int) {
    && ending + |streamDones| <= 1
    && (|streamDones| == 1 ==> streamDones[0] == pushed == |c.range|)
  }

  /** The fold history holds exactly the elements past their fold, each once. */
  predicate Folding(folded: seq<nat>, procs: seq<Pc>, pushed: nat, folds: int, started: int) {
    && |folded| == folds
    && started == pushed
    && Distinct(folded)
    && (forall k :: 0 <= k < |folded| ==> folded[k] + 1 < |procs| && Folded(procs[folded[k] + 1]) == 1)
    && (forall i :: 0 < i < |procs| && Folded(procs[i]) == 1 ==> i - 1 in folded)
  }

  /** The completion counter, and the one push_done it leads to. */
  predicate Completion(c: Config, counter: uint64, ends: nat, folded: seq<nat>, delivered: seq<seq<nat>>,
                       added: int, finishing: int) {
    && Lo(counter) == added <= |c.range|
    && Hi(counter) == (if ends == 0 then 0 else |c.range| + 1)
    && finishing + |delivered| == (if ends > 0 && added == |c.range| then 1 else 0)
    && (forall k :: 0 <= k < |delivered| ==> delivered[k] == folded && |folded| == |c.range|)
  }

  predicate Inv(c: Config, s: State) {
    var t := CountAll(s.procs);
    && Config?(c)
    && Shape(c, s)
    && Token(s.flag, t.holds)
    && Permits(c.max, s.flag, s.pending, |s.streamDones|, t.announcing, t.polls, t.served)
    && Balanced(c.max, s.pending, |s.pushed|, t.atAdd, t.subbed)
    && Iteration(c, s, t.holds)
    && Announced(c, |s.pushed|, s.streamDones, t.ending)
    && Folding(s.folded, s.procs, |s.pushed|, t.folded, t.started)
    && Completion(c, s.counter, |s.streamDones|, s.folded, s.delivered, t.added, t.finishing)
  }

  // ---------------------------------------------------------------- every step keeps it

  /** p stays the kind of process it is, and on the same side of its fold. */
  predicate SameKind(p: nat, from: Pc, to: Pc) {
    && Folded(from) == Folded(to) && !from.InFlight? && !to.InFlight? && !from.NotPushed? && !to.NotPushed?
    && if p == 0 then StarterPc(to) && !to.Start? else ElementPc(to)
  }

  lemma KindHere(c: Config, s: State, p: nat)
    requires Shape(c, s) && p < |s.procs|
    ensures |s.procs| == |c.range| + 1 && |s.pushed| <= |c.range|
    ensures if p == 0 then StarterPc(s.procs[0]) else ElementPc(s.procs[p])
  {
  }

  /** Such a step of one process that pushes and folds nothing keeps the shape and the fold history. */
  lemma KeepsKind(c: Config, s: State, s': State, p: nat, folds: int, started: int)
    requires p < |s.procs| == |s'.procs| && s'.procs == s.procs[p := s'.procs[p]] && SameKind(p, s.procs[p], s'.procs[p])
    requires s'.pushed == s.pushed && s'.folded == s.folded
    requires Shape(c, s) && Folding(s.folded, s.procs, |s.pushed|, folds, started)
    ensures Shape(c, s') && Folding(s'.folded, s'.procs, |s'.pushed|, folds, started)
    ensures started == |s.pushed| && folds == |s.folded|
  {
    hide Distinct;
  }

  /** A step outside the loop keeps what the loop knows. */
  lemma KeepsPlace(c: Config, s: State, s': State, p: nat, holds: int, holds': int)
    requires p < |s.procs| == |s'.procs| && s'.procs == s.procs[p := s'.procs[p]] && LoopFact(c, s', s'.procs[p])
    requires s'.pushed == s.pushed && s'.it == s.it && s'.pushCount == s.pushCount
    requires Iteration(c, s, holds) && (holds' == 0 ==> holds == 0 || s.it == s.pushCount == |s.pushed|)
    ensures Iteration(c, s', holds')
  {
  }

  lemma FoldStep(c: Config, s: State, p: nat)
    requires Inv(c, s) && Enabled(s, p) && s.procs[p].InFlight?
    ensures Inv(c, Step(c, s, p))
  {
    hide Sum, Hi, Lo, Token, Permits, Balanced, Announced;
    CountUpdate(s.procs, p, ElemSub);
    CountBounds(s.procs[p := ElemSub], p);
  }

  lemma SubStep(c: Config, s: State, p: nat)
    requires Inv(c, s) && Enabled(s, p) && s.procs[p].ElemSub?
    ensures Inv(c, Step(c, s, p))
  {
    hide Sum, Hi, Lo, B.SubPending, B.Balance, Shape, Folding, Iteration, Announced, Completion;
    var s', t := Step(c, s, p), CountAll(s.procs);
    KindHere(c, s, p);
    CountBounds(s.procs, p);
    CountUpdate(s.procs, p, s'.procs[p]);
    KeepsKind(c, s, s', p, t.folded, t.started);
    KeepsPlace(c, s, s', p, t.holds, CountAll(s'.procs).holds);
    CountBounds(s'.procs, p);
    if c.max > 0 {
      B.SubPendingMeaning(s.pending, c.max);
    }
  }

  lemma ElemPollStep(c: Config, s: State, p: nat)
    requires Inv(c, s) && Enabled(s, p) && s.procs[p].ElemPoll?
    ensures Inv(c, Step(c, s, p))
  {
    hide Sum, Hi, Lo, P.Acquire, Balanced, Announced, Completion, Distinct, B.Balance;
    CountBounds(s.procs, p);
    CountUpdate(s.procs, p, Step(c, s, p).procs[p]);
    P.AcquireMeaning(s.flag);
  }

  lemma AddDoneStep(c: Config, s: State, p: nat)
    requires Inv(c, s) && Enabled(s, p) && s.procs[p].ElemAddDone?
    ensures Inv(c, Step(c, s, p))
  {
    hide Sum, Hi, Lo, Pack, C.AddDoneWord, C.AddDoneHits, Shape, Folding, Iteration, Token, Permits, Balanced, Announced;
    var s', t := Step(c, s, p), CountAll(s.procs);
    KindHere(c, s, p);
    CountBounds(s.procs, p);
    CountUpdate(s.procs, p, s'.procs[p]);
    KeepsKind(c, s, s', p, t.folded, t.started);
    KeepsPlace(c, s, s', p, t.holds, CountAll(s'.procs).holds);
    CountBounds(s'.procs, p);
    KindHere(c, s, 0);
    FinishedElements(s'.procs);
    C.AddDoneMeaning(s.counter);
  }

  lemma DoneFromAddStep(c: Config, s: State, p: nat)
    requires Inv(c, s) && Enabled(s, p) && s.procs[p].DoneFromAdd?
    ensures Inv(c, Step(c, s, p))
  {
    hide Sum, Hi, Lo, Shape, Folding, Iteration, Token, Permits, Balanced, Announced;
    var s', t := Step(c, s, p), CountAll(s.procs);
    KindHere(c, s, p);
    CountBounds(s.procs, p);
    AllFolded(c, s);
    CountUpdate(s.procs, p, s'.procs[p]);
    KeepsKind(c, s, s', p, t.folded, t.started);
    KeepsPlace(c, s, s', p, t.holds, CountAll(s'.procs).holds);
  }

  /** When every element is counted as finished, every element has been folded. */
  lemma AllFolded(c: Config, s: State)
    requires Inv(c, s) && Sum(s.procs, Added) == |c.range|
    ensures |s.folded| == |c.range|
  {
    hide Sum, Hi, Lo;
    CountBounds(s.procs, 0);
  }

  lemma StartStep(c: Config, s: State, p: nat)
    requires Inv(c, s) && Enabled(s, p) && s.procs[p].Start?
    ensures Inv(c, Step(c, s, p))
  {
    hide Sum, Hi, Lo, P.Acquire, Balanced, Announced, Completion, Distinct, B.Balance;
    CountBounds(s.procs, p);
    CountUpdate(s.procs, p, CheckEnd(false));
    if CountAll(s.procs).holds > 0 {
      var q := SumWitness(s.procs, Holds);
    }
    P.AcquireMeaning(s.flag);
  }

  /** While one process is in the loop, no other is in it or past it on its way to announce the end. */
  lemma AloneInLoop(c: Config, s: State, p: nat)
    requires Inv(c, s) && p < |s.procs| && Holds(s.procs[p]) == 1
    ensures forall q :: 0 <= q < |s.procs| && q != p ==> Holds(s.procs[q]) == 0 && !s.procs[q].SetTotal?
    ensures Ending(s.procs[p]) == 0 ==> CountAll(s.procs).ending == 0
  {
    hide Sum, Hi, Lo;
    CountBounds(s.procs, p);
    forall q | 0 <= q < |s.procs| && q != p ensures Holds(s.procs[q]) == 0 && !s.procs[q].SetTotal? {
      CountBounds(s.procs, q);
      if Holds(s.procs[q]) == 1 {
        UniqueHolder(s.procs, p, q);
      }
    }
    if CountAll(s.procs).ending > 0 {
      var q := SumWitness(s.procs, Ending);
    }
  }

  /** Steps of the process in the loop leave the other processes' facts alone. */
  lemma LoopFactsAfter(c: Config, s: State, p: nat, s': State)
    requires Inv(c, s) && p < |s.procs| && Holds(s.procs[p]) == 1
    requires |s'.procs| == |s.procs| && LoopFact(c, s', s'.procs[p])
    requires forall q :: 0 <= q < |s.procs| && q != p ==> s'.procs[q] == s.procs[q] || s'.procs[q].InFlight?
    ensures forall q :: 0 <= q < |s.procs| ==> LoopFact(c, s', s'.procs[q])
  {
    hide Sum, Hi, Lo;
    AloneInLoop(c, s, p);
  }

  lemma CheckEndStep(c: Config, s: State, p: nat)
    requires Inv(c, s) && Enabled(s, p) && (s.procs[p].CheckEnd? || s.procs[p].LoadCount?)
    ensures Inv(c, Step(c, s, p))
  {
    hide Sum, Hi, Lo, Shape, Folding, Balanced, Completion, B.Balance;
    var s', t := Step(c, s, p), CountAll(s.procs);
    KindHere(c, s, p);
    CountBounds(s.procs, p);
    CountUpdate(s.procs, p, s'.procs[p]);
    KeepsKind(c, s, s', p, t.folded, t.started);
    AloneInLoop(c, s, p);
    LoopFactsAfter(c, s, p, s');
  }

  lemma IterateStep(c: Config, s: State, p: nat)
    requires Inv(c, s) && Enabled(s, p) && (s.procs[p].Count? || s.procs[p].Read? || s.procs[p].Advance?)
    ensures Inv(c, Step(c, s, p))
  {
    hide Sum, Hi, Lo, Shape, Folding, Token, Permits, Balanced, Completion, Announced, B.Balance;
    var s', t := Step(c, s, p), CountAll(s.procs);
    KindHere(c, s, p);
    CountBounds(s.procs, p);
    CountUpdate(s.procs, p, s'.procs[p]);
    KeepsKind(c, s, s', p, t.folded, t.started);
    LoopFactsAfter(c, s, p, s');
  }

  lemma AddStep(c: Config, s: State, p: nat)
    requires Inv(c, s) && Enabled(s, p) && s.procs[p].Add?
    ensures Inv(c, Step(c, s, p))
  {
    hide Sum, Hi, Lo, B.AddPending, B.Balance, Shape, Folding, Announced, Completion;
    NotServed(s.procs, p);
    var s', t := Step(c, s, p), CountAll(s.procs);
    KindHere(c, s, p);
    CountBounds(s.procs, p);
    CountUpdate(s.procs, p, s'.procs[p]);
    KeepsKind(c, s, s', p, t.folded, t.started);
    B.AddPendingMeaning(s.pending, c.max);
  }

  lemma SelfPollStep(c: Config, s: State, p: nat)
    requires Inv(c, s) && Enabled(s, p) && s.procs[p].SelfPoll?
    ensures Inv(c, Step(c, s, p))
  {
    hide Sum, Hi, Lo, P.Acquire, Balanced, Announced, Completion, Distinct, B.Balance;
    CountBounds(s.procs, p);
    CountUpdate(s.procs, p, Step(c, s, p).procs[p]);
    P.AcquireMeaning(s.flag);
  }

  lemma ConsumeStep(c: Config, s: State, p: nat)
    requires Inv(c, s) && Enabled(s, p) && s.procs[p].Consume?
    ensures Inv(c, Step(c, s, p))
  {
    hide Sum, Hi, Lo, P.Consume, Shape, Folding, Balanced, Announced, Completion, B.Balance;
    var s', t := Step(c, s, p), CountAll(s.procs);
    KindHere(c, s, p);
    CountBounds(s.procs, p);
    CountUpdate(s.procs, p, s'.procs[p]);
    KeepsKind(c, s, s', p, t.folded, t.started);
    P.ConsumeMeaning(s.flag);
  }

  lemma ReleaseStep(c: Config, s: State, p: nat)
    requires Inv(c, s) && Enabled(s, p) && s.procs[p].Release?
    ensures Inv(c, Step(c, s, p))
  {
    hide Sum, Shape, Folding, Balanced, B.Balance;
    NotServed(s.procs, p);
    var s', t := Step(c, s, p), CountAll(s.procs);
    KindHere(c, s, p);
    CountBounds(s.procs, p);
    CountUpdate(s.procs, p, s'.procs[p]);
    KeepsKind(c, s, s', p, t.folded, t.started);
  }

  lemma SetTotalStep(c: Config, s: State, p: nat)
    requires Inv(c, s) && Enabled(s, p) && s.procs[p].SetTotal?
    ensures Inv(c, Step(c, s, p))
  {
    hide Sum, Hi, Lo, Pack, C.SetTotalWord, Shape, Folding, Balanced, B.Balance;
    var s', t := Step(c, s, p), CountAll(s.procs);
    KindHere(c, s, p);
    CountBounds(s.procs, p);
    CountUpdate(s.procs, p, s'.procs[p]);
    KeepsKind(c, s, s', p, t.folded, t.started);
    C.SetTotalMeaning(s.counter, s.procs[p].count);
  }

  lemma DoneFromTotalStep(c: Config, s: State, p: nat)
    requires Inv(c, s) && Enabled(s, p) && s.procs[p].DoneFromTotal?
    ensures Inv(c, Step(c, s, p))
  {
    hide Sum, Hi, Lo, Shape, Folding, Token, Permits, Balanced, Announced, B.Balance;
    var s', t := Step(c, s, p), CountAll(s.procs);
    KindHere(c, s, p);
    CountBounds(s.procs, p);
    AllFolded(c, s);
    CountUpdate(s.procs, p, s'.procs[p]);
    KeepsKind(c, s, s', p, t.folded, t.started);
  }

  lemma PushCounts(c: Config, s: State, p: nat)
    requires Inv(c, s) && Enabled(s, p) && s.procs[p].Push?
    ensures var t := CountAll(s.procs);
            var pc := if c.max == 0 then SelfPoll(s.procs[p].nested) else Add(s.procs[p].nested);
            && s.it == |s.pushed| + 1 != p && |s.pushed| + 1 < |s.procs| && s.procs[|s.pushed| + 1].NotPushed?
            && CountAll(Step(c, s, p).procs) ==
               Shift(Shift(t, Count1(s.procs[p]), Count1(pc)), Count1(NotPushed), Count1(InFlight))
  {
    hide Sum, Hi, Lo, CountAll, Shift, Token, Permits, Balanced, Folding, Completion;
    var e := |s.pushed| + 1;
    var pc := Step(c, s, p).procs[p];
    CountUpdate(s.procs, p, pc);
    CountUpdate(s.procs[p := pc], e, InFlight);
  }

  lemma PushIteration(c: Config, s: State, p: nat)
    requires Inv(c, s) && Enabled(s, p) && s.procs[p].Push?
    ensures Iteration(c, Step(c, s, p), CountAll(Step(c, s, p).procs).holds)
    ensures Announced(c, |s.pushed| + 1, s.streamDones, CountAll(Step(c, s, p).procs).ending)
  {
    hide Sum, Hi, Lo, Balanced, Completion, Folding, B.Balance;
    PushCounts(c, s, p);
    AloneInLoop(c, s, p);
    LoopFactsAfter(c, s, p, Step(c, s, p));
    CountBounds(s.procs, p);
    assert c.range[..|s.pushed| + 1] == s.pushed + [s.procs[p].x];
  }

  /** One more element is in flight: nothing changes about those folded. */
  lemma FoldingPush(folded: seq<nat>, procs: seq<Pc>, p: nat, pc: Pc, pushed: nat, folds: int, started: int)
    requires Folding(folded, procs, pushed, folds, started)
    requires p < |procs| && Folded(pc) == Folded(procs[p])
    requires pushed + 1 < |procs| && pushed + 1 != p && procs[pushed + 1].NotPushed?
    ensures Folding(folded, procs[p := pc][pushed + 1 := InFlight], pushed + 1, folds, started + 1)
    ensures started == pushed
  {
    hide Distinct;
  }

  lemma PushShape(c: Config, s: State, p: nat)
    requires Inv(c, s) && Enabled(s, p) && s.procs[p].Push?
    ensures Shape(c, Step(c, s, p))
    ensures var s', t := Step(c, s, p), CountAll(s.procs);
            && t.started == |s.pushed| && Folding(s'.folded, s'.procs, |s'.pushed|, t.folded, t.started + 1)
  {
    hide Sum, Hi, Lo, CountAll, Folding, Iteration, Token, Permits, Balanced, Announced, Completion, B.Balance;
    PushCounts(c, s, p);
    FoldingPush(s.folded, s.procs, p, Step(c, s, p).procs[p], |s.pushed|, CountAll(s.procs).folded, CountAll(s.procs).started);
  }

  lemma PushStep(c: Config, s: State, p: nat)
    requires Inv(c, s) && Enabled(s, p) && s.procs[p].Push?
    ensures Inv(c, Step(c, s, p))
  {
    hide Sum, Hi, Lo, Shape, Folding, Iteration, Token, Announced, Completion, B.Balance;
    PushIteration(c, s, p);
    PushShape(c, s, p);
    PushCounts(c, s, p);
  }

  lemma StepKeepsInv(c: Config, s: State, p: nat)
    requires Inv(c, s) && Enabled(s, p)
    ensures Inv(c, Step(c, s, p))
  {
    hide Inv, Step;
    match s.procs[p]
    case InFlight => FoldStep(c, s, p);
    case ElemSub => SubStep(c, s, p);
    case ElemPoll => ElemPollStep(c, s, p);
    case ElemAddDone => AddDoneStep(c, s, p);
    case DoneFromAdd => DoneFromAddStep(c, s, p);
    case Start => StartStep(c, s, p);
    case CheckEnd(_) => CheckEndStep(c, s, p);
    case LoadCount(_) => CheckEndStep(c, s, p);
    case Count(_) => IterateStep(c, s, p);
    case Read(_) => IterateStep(c, s, p);
    case Advance(_, _) => IterateStep(c, s, p);
    case Push(_, _) => PushStep(c, s, p);
    case Add(_) => AddStep(c, s, p);
    case SelfPoll(_) => SelfPollStep(c, s, p);
    case Consume(_) => ConsumeStep(c, s, p);
    case Release(_, _) => ReleaseStep(c, s, p);
    case SetTotal(_, _) => SetTotalStep(c, s, p);
    case DoneFromTotal(_) => DoneFromTotalStep(c, s, p);
  }

  lemma InitInv(c: Config)
    requires Config?(c)
    ensures Inv(c, Init(c))
  {
    hide Sum, CountAll, Hi, Lo, Shape, Iteration, Folding, Init, Token, Balanced, Permits, Announced, Completion;
    InitShape(c);
    InitNumbers(c);
  }

  lemma InitNumbers(c: Config)
    requires Config?(c)
    ensures Token(0, 0) && Balanced(c.max, 0, 0, 0, 0) && Permits(c.max, 0, 0, 0, 0, 1, 0)
    ensures Announced(c, 0, [], 0) && Completion(c, 0, 0, [], [], 0, 0)
  {
    ZeroWord();
  }

  lemma InitShape(c: Config)
    requires Config?(c)
    ensures var s := Init(c);
      && s.flag == 0 && s.pending == 0 && s.counter == 0
      && s.pushed == [] && s.folded == [] && s.streamDones == [] && s.delivered == []
      && CountAll(s.procs) == Count1(Start)
      && Shape(c, s)
      && Iteration(c, s, 0)
      && Folding(s.folded, s.procs, 0, 0, 0)
  {
    hide Sum, CountAll, Hi, Lo;
    ZeroWord();
    var s := Init(c);
    var t := CountAll(s.procs);
    InitCounts(c, seq(|c.range|, _ => NotPushed));
    assert t == Count1(Start);
    assert c.range[..0] == [];
  }

  lemma {:induction false} InitCounts(c: Config, idle: seq<Pc>)
    requires forall i :: 0 <= i < |idle| ==> idle[i] == NotPushed
    ensures CountAll([Start] + idle) == Count1(Start)
  {
    var n := |idle|;
    if n == 0 {
      assert [Start] + idle == [Start] && [Start][..0] == [];
    } else {
      InitCounts(c, idle[..n - 1]);
      assert ([Start] + idle)[..n] == [Start] + idle[..n - 1];
    }
  }

  lemma {:induction false} RunInv(c: Config, run: seq<State>, k: nat)
    requires Config?(c) && IsRun(c, run) && k < |run|
    ensures Inv(c, run[k])
  {
    if k == 0 {
      InitInv(c);
    } else {
      RunInv(c, run, k - 1);
      var p: nat :| StepsTo(c, run[k - 1], p, run[k]);
      StepKeepsInv(c, run[k - 1], p);
    }
  }

  // ---------------------------------------------------------------- what every run guarantees

  /** An element that was pushed and whose result has not been counted yet. */
  function Outstanding(pc: Pc): int { if pc.InFlight? || pc.ElemSub? then 1 else 0 }

  /** At every point of every run: values go out in range order, each once; at most one process
      is in the polling loop and none ever re-enters it; with a limit, no more than that many
      elements are outstanding; the end is announced at most once, with the true length; and
      reduce delivers at most once, after every element has been folded exactly once. */
  lemma StreamSafety(c: Config, run: seq<State>, k: nat)
    requires Config?(c) && IsRun(c, run) && k < |run|
    ensures var s := run[k];
            && |s.pushed| <= |c.range| && s.pushed == c.range[..|s.pushed|]
            && (forall p, q :: 0 <= p < |s.procs| && 0 <= q < |s.procs|
                  ==> (Holds(s.procs[p]) == 1 && Holds(s.procs[q]) == 1 ==> p == q))
            && (forall p :: 0 <= p < |s.procs| ==> !s.procs[p].Recursed?)
            && (c.max > 0 ==> Sum(s.procs, Outstanding) <= c.max && -1 <= B.Balance(s.pending) <= c.max)
            && (s.streamDones == [] || s.streamDones == [|c.range|])
            && Distinct(s.folded)
            && (s.delivered == [] || s.delivered == [s.folded])
            && (s.delivered != [] ==>
                  |s.folded| == |c.range| && forall i: nat :: i < |c.range| ==> i in s.folded)
  {
    hide Sum, Hi, Lo;
    var s := run[k];
    RunInv(c, run, k);
    forall p, q | 0 <= p < |s.procs| && 0 <= q < |s.procs| && Holds(s.procs[p]) == 1 && Holds(s.procs[q]) == 1
      ensures p == q
    {
      UniqueHolder(s.procs, p, q);
    }
    if c.max > 0 {
      FewOutstanding(c, s);
    }
    CountBounds(s.procs, 0);
    if s.delivered != [] {
      AllFinished(c, s);
      forall i: nat | i < |c.range| ensures i in s.folded {
        assert Folded(s.procs[i + 1]) == 1;
      }
    }
  }

  /** The poll permits in the system: requests on the word or about to be put there, less the one
      whose element has already gone out. */
  function PermitsOut(s: State): int { Hi(s.flag) + Sum(s.procs, Polls) - Sum(s.procs, Served) }

  /** Backpressure: the packed word counts elements handed out less results returned, so that it
      never overflows whatever the length; one poll permit is out exactly while that difference
      is below the limit and the stream has not ended, and there is never a second one. */
  lemma OnePermit(c: Config, run: seq<State>, k: nat)
    requires Config?(c) && IsRun(c, run) && k < |run|
    ensures var s := run[k];
            && (c.max > 0 ==>
                  -1 <= B.Balance(s.pending) == |s.pushed| - Sum(s.procs, AtAdd) - Sum(s.procs, Subbed) <= c.max)
            && PermitsOut(s) == (if Room(c.max, s.pending) && s.streamDones == [] && Sum(s.procs, Announcing) == 0
                                 then 1 else 0)
  {
    hide Sum, Hi, Lo, B.Balance;
    RunInv(c, run, k);
    if c.max > 0 { FewOutstanding(c, run[k]); }
    SumNonNegative(run[k].procs, Announcing);
  }

  lemma FewOutstanding(c: Config, s: State)
    requires Inv(c, s) && c.max > 0
    ensures Sum(s.procs, Outstanding) <= c.max && -1 <= B.Balance(s.pending)
  {
    hide Sum, Hi, Lo, B.Balance, Completion, Announced;
    SumPlus(s.procs, Started, Outstanding, Subbed);
    CountBounds(s.procs, 0);
    if CountAll(s.procs).atAdd > 0 {
      var p := SumWitness(s.procs, AtAdd);
      NotServed(s.procs, p);
      CountBounds(s.procs, p);
    }
  }

  function Unfinished(pc: Pc): int { 1 - Added(pc) }

  /** Once all N completions are counted, every element's completion has ended (up to the one
      push_done that is about to be called). */
  lemma AllFinished(c: Config, s: State)
    requires Inv(c, s) && Sum(s.procs, Added) == |c.range|
    ensures forall i :: 0 < i < |s.procs| ==> Added(s.procs[i]) == 1
  {
    hide Sum, Hi, Lo;
    SumPlus(s.procs, One, Unfinished, Added);
    SumConstant(s.procs, One, 1);
    SumAtLeast(s.procs, 0, Unfinished);
  }

  /** reduce's push_done is the last step of a run: when a process is about to make it, every
      other process has finished, and afterwards nothing can move. The stream's state, which
      push_done frees, is never touched again. */
  lemma DoneIsLast(c: Config, run: seq<State>, k: nat, q: nat)
    requires Config?(c) && IsRun(c, run) && k < |run|
    requires Enabled(run[k], q)
    ensures run[k].delivered == []
    ensures forall p :: 0 <= p < |run[k].procs| && p != q ==> Finishing(run[k].procs[p]) == 0
  {
    hide Sum, Hi, Lo, B.Balance, Folding, Iteration, Balanced;
    var s := run[k];
    RunInv(c, run, k);
    CountBounds(s.procs, q);
    if CountAll(s.procs).finishing + |s.delivered| > 0 {
      AllFinished(c, s);
    }
    forall p | 0 <= p < |s.procs| && p != q ensures Finishing(s.procs[p]) == 0 {
      CountBounds(s.procs, p);
      SumAtLeast(s.procs, p, Finishing);
    }
  }

  /** No wakeup is lost: a state in which nothing can move is one where every element was
      pushed, folded and counted, the end was announced, and reduce delivered. */
  lemma QuiescentIsDone(c: Config, run: seq<State>, k: nat)
    requires Config?(c) && IsRun(c, run) && k < |run|
    requires forall p: nat :: !Enabled(run[k], p)
    ensures run[k].pushed == c.range
    ensures run[k].streamDones == [|c.range|]
    ensures run[k].delivered == [run[k].folded] && |run[k].folded| == |c.range|
  {
    hide Sum, Hi, Lo, B.Balance;
    var s := run[k];
    RunInv(c, run, k);
    forall p | 0 <= p < |s.procs|
      ensures s.procs[p].NotPushed? || s.procs[p].ElemDone? || s.procs[p].StartDone?
    {
      assert !Enabled(s, p);
    }
    SumConstant(s.procs, Holds, 0); SumConstant(s.procs, Polls, 0); SumConstant(s.procs, Served, 0);
    SumConstant(s.procs, AtAdd, 0); SumConstant(s.procs, Announcing, 0); SumConstant(s.procs, Finishing, 0);
    SumMonotone(s.procs, Started, Subbed);
    SumMonotone(s.procs, Started, Added);
    CountBounds(s.procs, 0);
    assert c.range[..|c.range|] == c.range;
  }

  /** No step leads back to the start. */
  lemma NoReturn(c: Config, s: State, p: nat)
    requires Enabled(s, p) && |s.procs| > 0
    ensures |Step(c, s, p).procs| == |s.procs|
    ensures Step(c, s, p).procs[0].Start? ==> p != 0 && s.procs[0].Start?
  {
    hide B.SubPending, B.AddPending, P.Acquire, P.Consume, C.AddDoneWord, C.AddDoneHits, C.SetTotalWord, C.SetTotalHits;
  }

  /** `start` ignores whether it got the token, and may: for every limit, it comes to its request
      first of all, finds the word zero and is granted the token. */
  lemma {:induction false} StartGetsToken(c: Config, run: seq<State>, k: nat)
    requires IsRun(c, run) && k < |run|
    ensures |run[k].procs| == |c.range| + 1
    ensures run[k].procs[0].Start? ==> k == 0 && run[k].flag == 0 && P.Acquire(run[k].flag).granted
  {
    hide Step;
    if k > 0 {
      StartGetsToken(c, run, k - 1);
      var p: nat :| StepsTo(c, run[k - 1], p, run[k]);
      NoReturn(c, run[k - 1], p);
    } else {
      ZeroWord();
      P.AcquireMeaning(0);
    }
  }

  /** Steps a process may still take; an unpushed element also pays for the loop iteration that pushes it. */
  function Rank(pc: Pc): int {
    match pc
    case NotPushed => 100
    case InFlight => 60
    case ElemSub => 59
    case ElemPoll | Start => 58
    case Add(_) => 33
    case SelfPoll(_) => 32
    case Consume(_) => 31
    case CheckEnd(_) => 30
    case Count(_) | LoadCount(_) => 29
    case Read(_) | Release(_, _) => 28
    case Advance(_, _) | SetTotal(_, _) => 27
    case Push(_, _) | DoneFromTotal(_) => 26
    case ElemAddDone => 2
    case DoneFromAdd => 1
    case _ => 0
  }

  lemma StepDescends(c: Config, s: State, p: nat)
    requires Inv(c, s) && Enabled(s, p)
    ensures Sum(Step(c, s, p).procs, Rank) < Sum(s.procs, Rank)
  {
    hide Sum, Hi, Lo, B.Balance, Folding, Permits, Completion, Announced, Balanced, CountAll;
    var pc := Step(c, s, p).procs[p];
    SumUpdate(s.procs, p, pc, Rank);
    if s.procs[p].Push? {
      SumUpdate(s.procs[p := pc], |s.pushed| + 1, InFlight, Rank);
    }
  }

  /** Every run is finite, with a bound linear in the stream's length; with QuiescentIsDone and
      StreamSafety, every run that is continued as long as possible delivers exactly once. */
  lemma {:induction false} RunLength(c: Config, run: seq<State>)
    requires Config?(c) && IsRun(c, run)
    ensures |run| <= 100 * |c.range| + 59
  {
    RankBound(c, run, |run| - 1);
    RunInv(c, run, |run| - 1);
    SumNonNegative(run[|run| - 1].procs, Rank);
  }

  lemma {:induction false} RankBound(c: Config, run: seq<State>, k: nat)
    requires Config?(c) && IsRun(c, run) && k < |run|
    ensures Sum(run[k].procs, Rank) + k <= 100 * |c.range| + 58
  {
    hide Sum;
    if k == 0 {
      var idle := seq(|c.range|, _ => NotPushed);
      InitRank(idle);
    } else {
      RankBound(c, run, k - 1);
      RunInv(c, run, k - 1);
      var p: nat :| StepsTo(c, run[k - 1], p, run[k]);
      StepDescends(c, run[k - 1], p);
    }
  }

  lemma InitRank(idle: seq<Pc>)
    requires forall i :: 0 <= i < |idle| ==> idle[i] == NotPushed
    ensures Sum([Start] + idle, Rank) == 100 * |idle| + 58
  {
    SumUpdate([Start] + idle, 0, NotPushed, Rank);
    SumConstant(([Start] + idle)[0 := NotPushed], Rank, 100);
  }

  // ---------------------------------------------------------------- the one limit that stalls

  /** Every run that can go no further has announced the end and delivered. */
  ghost predicate AlwaysDelivers(c: Config) {
    forall run: seq<State>, k: nat :: IsRun(c, run) && k < |run| && (forall p: nat :: !Enabled(run[k], p)) ==>
      run[k].streamDones == [|c.range|] && run[k].delivered == [run[k].folded]
  }

  /** Without elements the limit is never looked at. */
  lemma LimitUnused(c: Config, s: State, p: nat)
    requires c.range == [] && Inv(c.(max := 0), s) && Enabled(s, p)
    ensures Step(c, s, p) == Step(c.(max := 0), s, p)
  {
    hide Sum, Token, Permits, Balanced, Announced, Folding, Completion;
    assert p == 0 && LoopFact(c.(max := 0), s, s.procs[0]);
  }

  lemma {:induction false} EmptyRun(c: Config, run: seq<State>, k: nat)
    requires c.range == [] && IsRun(c, run) && k < |run|
    ensures IsRun(c.(max := 0), run[..k + 1])
  {
    hide Inv, Step;
    var r := run[..k + 1];
    if k > 0 {
      EmptyRun(c, run, k - 1);
      assert r[..k] == run[..k];
      RunInv(c.(max := 0), run[..k], k - 1);
      var p: nat :| StepsTo(c, run[k - 1], p, run[k]);
      LimitUnused(c, run[k - 1], p);
      assert StepsTo(c.(max := 0), r[k - 1], p, r[k]);
      forall i | 0 < i < |r| ensures Next(c.(max := 0), r[i - 1], r[i]) {
        assert i < k ==> Next(c.(max := 0), r[..k][i - 1], r[..k][i]);
      }
    }
  }

  /** A stream is delivered on every run if and only if the limit is not 2^64 - 1 or there is no element. */
  lemma DeliversUnlessLimitWraps(c: Config)
    requires |c.range| < W32 - 1
    ensures AlwaysDelivers(c) <==> c.max <= B.MAX_LIMIT || c.range == []
  {
    if c.range == [] {
      forall run: seq<State>, k: nat | IsRun(c, run) && k < |run| && (forall p: nat :: !Enabled(run[k], p))
        ensures run[k].streamDones == [|c.range|] && run[k].delivered == [run[k].folded]
      {
        EmptyRun(c, run, k);
        QuiescentIsDone(c.(max := 0), run[..k + 1], k);
      }
    } else if c.max <= B.MAX_LIMIT {
      forall run: seq<State>, k: nat | IsRun(c, run) && k < |run| && (forall p: nat :: !Enabled(run[k], p))
        ensures run[k].streamDones == [|c.range|] && run[k].delivered == [run[k].folded]
      {
        QuiescentIsDone(c, run, k);
      }
    } else {
      var run := EarlyResultStalls(c);
      assert !AlwaysDelivers(c);
    }
  }

  lemma Extend(c: Config, run: seq<State>, p: nat, s: State)
    requires IsRun(c, run) && StepsTo(c, run[|run| - 1], p, s)
    ensures IsRun(c, run + [s])
  {
    assert Next(c, run[|run| - 1], s);
  }

  /** The loop pushes the first element. */
  lemma PushesFirst(c: Config) returns (run: seq<State>)
    requires 0 < |c.range| < W32 - 1 && c.max > 0
    ensures IsRun(c, run)
    ensures run[|run| - 1] == Pushed(c)
  {
    var s0 := Init(c);
    var s1 := Step(c, s0, 0);
    assert s1 == Goto(s0, 0, CheckEnd(false)).(flag := Pack(1, 1));
    var s2 := Step(c, s1, 0);
    assert s2.procs[0] == Count(false);
    var s3 := Step(c, s2, 0);
    assert s3.procs[0] == Read(false) && s3.pushCount == 1;
    var s4 := Step(c, s3, 0);
    assert s4.procs[0] == Advance(c.range[0], false);
    var s5 := Step(c, s4, 0);
    assert s5.procs[0] == Push(c.range[0], false) && s5.it == 1;
    var s6 := Step(c, s5, 0);
    assert s6.procs == s0.procs[0 := Add(false)][1 := InFlight];
    assert s6 == Pushed(c);
    hide Init, Step, Enabled;
    run := [s0];
    Extend(c, run, 0, s1); run := run + [s1];
    Extend(c, run, 0, s2); run := run + [s2];
    Extend(c, run, 0, s3); run := run + [s3];
    Extend(c, run, 0, s4); run := run + [s4];
    Extend(c, run, 0, s5); run := run + [s5];
    Extend(c, run, 0, s6); run := run + [s6];
  }

  function Pushed(c: Config): State
    requires 0 < |c.range|
  {
    State(Pack(1, 1), 0, 0, 1, 1, Init(c).procs[0 := Add(false)][1 := InFlight], [c.range[0]], [], [], [])
  }

  /** Its result comes back before it is counted as handed out; the comparison wraps, no poll is
      left, and nothing can move although nothing was announced. */
  lemma EarlyResultStalls(c: Config) returns (run: seq<State>)
    requires 0 < |c.range| < W32 - 1 && c.max > B.MAX_LIMIT
    ensures IsRun(c, run)
    ensures var s := run[|run| - 1];
            (forall p: nat :: !Enabled(s, p)) && s.streamDones == [] && s.delivered == [] && |s.pushed| == 1
  {
    run := PushesFirst(c);
    var s0 := Pushed(c);
    var s1 := Step(c, s0, 1);
    assert s1 == Goto(s0, 1, ElemSub).(folded := [0]);
    var s2 := Step(c, s1, 1);
    assert s2 == Goto(s1, 1, ElemAddDone).(pending := Pack(0, 1));
    var s3 := Step(c, s2, 1);
    assert s3 == Goto(s2, 1, ElemDone).(counter := 1);
    var s4 := Step(c, s3, 0);
    assert s4.procs == s3.procs[0 := Consume(false)] && s4.flag == Pack(1, 1);
    var s5 := Step(c, s4, 0);
    assert s5.procs == Init(c).procs[0 := StartDone][1 := ElemDone];
    hide Init, Step;
    Extend(c, run, 1, s1); run := run + [s1];
    Extend(c, run, 1, s2); run := run + [s2];
    Extend(c, run, 1, s3); run := run + [s3];
    Extend(c, run, 0, s4); run := run + [s4];
    Extend(c, run, 0, s5); run := run + [s5];
    Quiet(c, s5);
  }

  lemma Quiet(c: Config, s: State)
    requires 0 < |c.range| && s.procs == Init(c).procs[0 := StartDone][1 := ElemDone]
    ensures forall p: nat :: !Enabled(s, p)
  {
  }
}
