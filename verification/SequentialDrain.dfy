/** `concurrent() >> ... >> sequential() >> ... >> reduce` as one interleaved machine.

    Process i < n is the completion of element i upstream: it enqueues the element, tries to
    take the push right, and counts itself done. Process n + i is the completion of element i
    downstream: it is folded by reduce and polls. Process 2n announces the stream's length.
    Each step is one atomic access; `drain_single` runs with a return address. `empty()` loads the
    head and then the tail. The cache is the ticket queue of TicketRing: a claimed ticket may not be
    published yet, and an enqueue that finds no free cell fails without its result being looked at. */
module SequentialDrain {
  import opened PackedWords
  import opened Sequences
  import opened Sums
  import C = CompletionCounter

  const IDLE := 0
  const BUSY := 1
  const DONE := 2
  const TERMINAL := 3
  const ACTIVE := 1
  const REQUESTED := 2

  datatype Config = Config(n: nat, capacity: nat)

  /** On whose behalf a process runs `drain_single`: a producer inside enqueue_and_drain, a
      producer or the length announcer inside push_done, or a downstream completion that polls. */
  datatype Who = Producer | Last | Stream | Poller

  datatype Pc =
    // producers
    | Enqueue | Publish(ticket: nat) | TryBusy | AddDone
    // downstream completions
    | NotPushed | InFlight
    // the length announcer
    | SetTotal
    | PushDone(who: Who)
    | Over(who: Who)
    // drain_single
    | LoadFlag(who: Who) | CasFlag(df: nat, who: Who)
    | Deq(who: Who) | FreeSlot(item: nat, who: Who) | SetActive(item: nat, who: Who)
    | PushItem(item: nat, who: Who) | Exch(who: Who)
    | LoadState(who: Who) | LateDeq(who: Who) | CasTerminal(who: Who) | Finish(who: Who)
    | CasIdle(seen: nat, who: Who) | CheckEmpty(who: Who) | CheckTail(from: nat, who: Who) | CheckDone(who: Who)
    | CasBusy(who: Who)

  /** `tickets` lists the items in the order their tickets were claimed; those from `head` on
      are in the cache. `dropped`, `folded` and `dones` are history: items whose enqueue failed,
      the order of folding, and the fold history at each push_done downstream. */
  datatype State = State(
    flag: nat, st: nat, counter: uint64,
    tickets: seq<nat>, published: seq<bool>, head: nat, freed: nat,
    procs: seq<Pc>, dropped: seq<nat>, folded: seq<nat>, dones: seq<seq<nat>>)

  predicate Config?(c: Config) { c.n < W32 - 1 }

  function Init(c: Config): State {
    State(0, IDLE, 0, [], [], 0, 0,
          seq(c.n, _ => Enqueue) + seq(c.n, _ => NotPushed) + [SetTotal], [], [], [])
  }

  predicate Enabled(s: State, p: nat) {
    p < |s.procs| && !s.procs[p].NotPushed? && !s.procs[p].Over?
  }

  predicate IsActive(flag: nat) { flag % 2 == 1 }
  predicate IsRequested(flag: nat) { flag / 2 % 2 == 1 }

  function Goto(s: State, p: nat, pc: Pc): State
    requires p < |s.procs|
  {
    s.(procs := s.procs[p := pc])
  }

  function Return(who: Who): Pc { if who == Producer then AddDone else Over(who) }

  predicate CanDequeue(s: State) {
    s.head < |s.tickets| && s.head < |s.published| && s.published[s.head]
  }

  /** try_dequeue at the head of the cache. */
  function Dequeue(s: State, p: nat, who: Who, otherwise: Pc): State
    requires p < |s.procs|
  {
    if CanDequeue(s) then Goto(s, p, FreeSlot(s.tickets[s.head], who)).(head := s.head + 1)
    else Goto(s, p, otherwise)
  }

  /** Steps outside drain_single. */
  function StepOuter(c: Config, s: State, p: nat): State
    requires Enabled(s, p)
  {
    match s.procs[p]
    case Enqueue =>
      if s.freed + c.capacity <= |s.tickets| then Goto(s, p, TryBusy).(dropped := s.dropped + [p])
      else Goto(s, p, Publish(|s.tickets|)).(tickets := s.tickets + [p], published := s.published + [false])
    case Publish(t) =>
      Goto(s, p, TryBusy).(published := if t < |s.published| then s.published[t := true] else s.published)
    case TryBusy =>
      if s.st == IDLE then Goto(s, p, LoadFlag(Producer)).(st := BUSY) else Goto(s, p, AddDone)
    case AddDone =>
      Goto(s, p, if C.AddDoneHits(s.counter) then PushDone(Last) else Over(Last)).(counter := C.AddDoneWord(s.counter))
    case SetTotal =>
      var total: uint32 := c.n % W32;
      Goto(s, p, if C.SetTotalHits(s.counter, total) then PushDone(Stream) else Over(Stream))
        .(counter := C.SetTotalWord(s.counter, total))
    case PushDone(who) =>
      Goto(s, p, if s.st == IDLE then LoadFlag(who) else Over(who)).(st := DONE)
    case InFlight =>
      Goto(s, p, LoadFlag(Poller)).(folded := s.folded + [if p < c.n then 0 else p - c.n])
    case _ => s
  }

  function StepDrain(c: Config, s: State, p: nat): State
    requires Enabled(s, p)
  {
    match s.procs[p]
    case LoadFlag(who) => Goto(s, p, if IsActive(s.flag) then CasFlag(s.flag, who) else Deq(who))
    case CasFlag(df, who) =>
      if s.flag == df then
        Goto(s, p, Return(who)).(flag := if IsRequested(df) then df else df + REQUESTED)
      else Goto(s, p, if IsActive(s.flag) then CasFlag(s.flag, who) else Deq(who))
    case Deq(who) => Dequeue(s, p, who, LoadState(who))
    case FreeSlot(item, who) => Goto(s, p, SetActive(item, who)).(freed := s.freed + 1)
    case SetActive(item, who) => Goto(s, p, PushItem(item, who)).(flag := ACTIVE)
    case PushItem(item, who) =>
      var s1 := Goto(s, p, Exch(who));
      if c.n + item < |s.procs| then Goto(s1, c.n + item, InFlight) else s1
    case Exch(who) => Goto(s, p, if IsRequested(s.flag) then Deq(who) else Return(who)).(flag := 0)
    case LoadState(who) => Goto(s, p, if s.st >= DONE then LateDeq(who) else CasIdle(s.st, who))
    case LateDeq(who) => Dequeue(s, p, who, CasTerminal(who))
    case CasTerminal(who) =>
      if s.st == DONE then Goto(s, p, Finish(who)).(st := TERMINAL) else Goto(s, p, Return(who))
    case Finish(who) => Goto(s, p, Return(who)).(dones := s.dones + [s.folded])
    case CasIdle(seen, who) =>
      if s.st == seen then Goto(s, p, CheckEmpty(who)).(st := IDLE) else Goto(s, p, Deq(who))
    case CheckEmpty(who) => Goto(s, p, CheckTail(s.head, who))
    case CheckTail(h, who) => Goto(s, p, if h != |s.tickets| then CasBusy(who) else CheckDone(who))
    case CheckDone(who) => Goto(s, p, if s.st >= DONE then CasBusy(who) else Return(who))
    case CasBusy(who) =>
      if s.st == IDLE then Goto(s, p, Deq(who)).(st := BUSY) else Goto(s, p, Return(who))
    case _ => s
  }

  predicate OuterStep?(pc: Pc) {
    pc.Enqueue? || pc.Publish? || pc.TryBusy? || pc.AddDone? || pc.SetTotal? || pc.PushDone? || pc.InFlight?
  }

  function Step(c: Config, s: State, p: nat): State
    requires Enabled(s, p)
  {
    if OuterStep?(s.procs[p]) then StepOuter(c, s, p) else StepDrain(c, s, p)
  }

  predicate StepsTo(c: Config, s: State, p: nat, s': State) {
    Enabled(s, p) && s' == Step(c, s, p)
  }

  ghost predicate Next(c: Config, s: State, s': State) {
    exists p: nat :: StepsTo(c, s, p, s')
  }

  ghost predicate IsRun(c: Config, run: seq<State>) {
    && |run| > 0
    && run[0] == Init(c)
    && forall i :: 0 < i < |run| ==> Next(c, run[i - 1], run[i])
  }

  // ---------------------------------------------------------------- counting processes

  /** The right to push downstream: a drainer working with it, an item being processed
      downstream, or that item's completion on its way to the drain flag. */
  function Right(pc: Pc): int {
    if pc.LoadFlag? || pc.CasFlag? || pc.Deq? || pc.FreeSlot? || pc.SetActive? || pc.PushItem? || pc.LoadState?
       || pc.LateDeq? || pc.CasTerminal? || pc.CasIdle? || pc.InFlight? then 1 else 0
  }
  /** Inside the drain loop, outside the window in which the flag is ACTIVE. */
  function Main(pc: Pc): int {
    if pc.Deq? || pc.FreeSlot? || pc.SetActive? || pc.LoadState? || pc.LateDeq? || pc.CasTerminal? || pc.CasIdle?
    then 1 else 0
  }
  function Active(pc: Pc): int { if pc.PushItem? || pc.Exch? then 1 else 0 }
  /** Holding an item that left the cache and has not been folded. */
  function Custody(pc: Pc): int {
    if pc.FreeSlot? || pc.SetActive? || pc.PushItem? || pc.InFlight? then 1 else 0
  }
  /** Still going to look at the cache after making it non-empty or giving the right up. */
  function Wake(pc: Pc): int {
    if pc.Publish? || pc.TryBusy? || pc.CheckEmpty? || pc.CheckTail? || pc.CasBusy? then 1 else 0
  }
  function Caller(pc: Pc): Who {
    match pc
    case Enqueue | Publish(_) | TryBusy | AddDone => Producer
    case NotPushed | InFlight => Poller
    case SetTotal => Stream
    case _ => pc.who
  }
  function Counted(pc: Pc): int { if Caller(pc) == Last then 1 else 0 }
  function Announced(pc: Pc): int { if Caller(pc) == Stream && !pc.SetTotal? then 1 else 0 }
  function Undone(pc: Pc): int { if Caller(pc) == Producer then 1 else 0 }
  function Freeing(pc: Pc): int { if pc.FreeSlot? then 1 else 0 }
  function Silent(pc: Pc): int { if pc.SetTotal? then 1 else 0 }
  function AtDone(pc: Pc): int { if pc.PushDone? then 1 else 0 }
  function Finishing(pc: Pc): int { if pc.Finish? then 1 else 0 }
  function Waiting(pc: Pc): int { if pc.Enqueue? then 1 else 0 }

  datatype Tally = Tally(right: int, main: int, active: int, custody: int, wake: int, counted: int,
                         announced: int, atDone: int, finishing: int, waiting: int,
                         undone: int, silent: int, freeing: int)

  function Count1(pc: Pc): Tally {
    Tally(Right(pc), Main(pc), Active(pc), Custody(pc), Wake(pc), Counted(pc), Announced(pc), AtDone(pc),
          Finishing(pc), Waiting(pc), Undone(pc), Silent(pc), Freeing(pc))
  }

  function CountAll(procs: seq<Pc>): Tally {
    Tally(Sum(procs, Right), Sum(procs, Main), Sum(procs, Active), Sum(procs, Custody), Sum(procs, Wake),
          Sum(procs, Counted), Sum(procs, Announced), Sum(procs, AtDone), Sum(procs, Finishing), Sum(procs, Waiting),
          Sum(procs, Undone), Sum(procs, Silent), Sum(procs, Freeing))
  }

  function Shift(t: Tally, from: Tally, to: Tally): Tally {
    Tally(t.right - from.right + to.right, t.main - from.main + to.main, t.active - from.active + to.active,
          t.custody - from.custody + to.custody, t.wake - from.wake + to.wake,
          t.counted - from.counted + to.counted, t.announced - from.announced + to.announced,
          t.atDone - from.atDone + to.atDone, t.finishing - from.finishing + to.finishing,
          t.waiting - from.waiting + to.waiting, t.undone - from.undone + to.undone,
          t.silent - from.silent + to.silent, t.freeing - from.freeing + to.freeing)
  }

  lemma CountUpdate(procs: seq<Pc>, p: nat, pc: Pc)
    requires p < |procs|
    ensures CountAll(procs[p := pc]) == Shift(CountAll(procs), Count1(procs[p]), Count1(pc))
  {
    hide Sum;
    SumUpdate(procs, p, pc, Right); SumUpdate(procs, p, pc, Main); SumUpdate(procs, p, pc, Active);
    SumUpdate(procs, p, pc, Custody); SumUpdate(procs, p, pc, Wake); SumUpdate(procs, p, pc, Counted);
    SumUpdate(procs, p, pc, Announced); SumUpdate(procs, p, pc, AtDone); SumUpdate(procs, p, pc, Finishing);
    SumUpdate(procs, p, pc, Waiting); SumUpdate(procs, p, pc, Undone); SumUpdate(procs, p, pc, Silent);
    SumUpdate(procs, p, pc, Freeing);
  }

  predicate AtLeast(t: Tally, u: Tally) {
    && t.right >= u.right && t.main >= u.main && t.active >= u.active && t.custody >= u.custody
    && t.wake >= u.wake && t.counted >= u.counted && t.announced >= u.announced && t.atDone >= u.atDone
    && t.finishing >= u.finishing && t.waiting >= u.waiting && t.undone >= u.undone && t.silent >= u.silent
    && t.freeing >= u.freeing
  }

  lemma CountBounds(procs: seq<Pc>, p: nat)
    requires p < |procs|
    ensures AtLeast(CountAll(procs), Count1(procs[p]))
    ensures CountAll(procs).main <= CountAll(procs).right
    ensures CountAll(procs).custody <= CountAll(procs).right
  {
    hide Sum;
    SumAtLeast(procs, p, Right); SumAtLeast(procs, p, Main); SumAtLeast(procs, p, Active);
    SumAtLeast(procs, p, Custody); SumAtLeast(procs, p, Wake); SumAtLeast(procs, p, Counted);
    SumAtLeast(procs, p, Announced); SumAtLeast(procs, p, AtDone); SumAtLeast(procs, p, Finishing);
    SumAtLeast(procs, p, Waiting); SumAtLeast(procs, p, Undone); SumAtLeast(procs, p, Silent);
    SumAtLeast(procs, p, Freeing);
    SumMonotone(procs, Main, Right);
    SumMonotone(procs, Custody, Right);
  }

  // ---------------------------------------------------------------- the invariant

  /** Which process may be where. */
  predicate Kinds(n: nat, procs: seq<Pc>) {
    && |procs| == 2 * n + 1
    && (forall p :: 0 <= p < n ==> Caller(procs[p]) == Producer || Caller(procs[p]) == Last)
    && (forall p :: n <= p < 2 * n ==> Caller(procs[p]) == Poller && !procs[p].PushDone?)
    && Caller(procs[2 * n]) == Stream
    && (forall p :: 0 <= p < |procs| && (procs[p].PushDone? || procs[p].Over?) ==> Caller(procs[p]) != Producer)
  }

  /** The state word is BUSY or DONE exactly while someone holds the push right; a re-drain
      request is the right on its way back to the process that set ACTIVE. */
  predicate Rights(flag: nat, st: nat, right: int, main: int, active: int) {
    && flag <= 3 && st <= TERMINAL
    && (IsRequested(flag) ==> IsActive(flag))
    && active == (if IsActive(flag) then 1 else 0)
    && right + (if IsRequested(flag) then 1 else 0) == (if st == BUSY || st == DONE then 1 else 0)
    && 0 <= main && main + active <= 1
    && (active == 1 ==> st == BUSY || st == DONE)
  }

  predicate Queue(n: nat, tickets: seq<nat>, published: seq<bool>, head: nat, freed: nat, folded: seq<nat>, custody: int,
                  freeing: int) {
    && |published| == |tickets|
    && Distinct(tickets)
    && (forall t :: 0 <= t < |tickets| ==> tickets[t] < n)
    && head <= |tickets| && 0 <= freeing && freed + freeing == head
    && 0 <= custody && head == |folded| + custody
    && folded == tickets[..|folded|]
  }

  /** What a process knows at its program point. */
  predicate Fact(n: nat, tickets: seq<nat>, published: seq<bool>, head: nat, st: nat, p: nat, pc: Pc) {
    match pc
    case Enqueue => p !in tickets
    case Publish(t) => t < |tickets| && tickets[t] == p && t < |published| && !published[t]
    case FreeSlot(i, _) => 0 < head <= |tickets| && tickets[head - 1] == i
    case SetActive(i, _) => 0 < head <= |tickets| && tickets[head - 1] == i
    case PushItem(i, _) => 0 < head <= |tickets| && tickets[head - 1] == i
    case InFlight => n <= p && 0 < head <= |tickets| && tickets[head - 1] == p - n
    case NotPushed => n <= p
    case CasFlag(df, _) => df == ACTIVE
    case LateDeq(_) => st == DONE
    case CasTerminal(_) => st == DONE && head == |tickets|
    case CasIdle(seen, _) => seen == BUSY
    case CheckTail(h, _) => h <= head
    case _ => true
  }

  predicate Facts(n: nat, tickets: seq<nat>, published: seq<bool>, head: nat, st: nat, procs: seq<Pc>) {
    && (forall p :: 0 <= p < |procs| ==> Fact(n, tickets, published, head, st, p, procs[p]))
    && (forall t :: 0 <= t < |tickets| && t < |published| && !published[t] ==>
          tickets[t] < |procs| && procs[tickets[t]] == Publish(t))
  }

  /** A downstream completion past its fold belongs to a folded item. */
  predicate Items(n: nat, folded: seq<nat>, procs: seq<Pc>) {
    forall p :: n <= p < 2 * n && p < |procs| && !procs[p].NotPushed? && !procs[p].InFlight? ==> p - n in folded
  }

  /** An idle machine with items in the cache has a process that will look at it. */
  predicate Wakeup(st: nat, head: nat, tail: nat, wake: int) {
    st == IDLE && head < tail ==> wake > 0
  }

  /** push_done is called once, when all producers have counted themselves and the length is known. */
  predicate Counting(n: nat, counter: uint64, counted: int, undone: int, announced: int, silent: int, atDone: int,
                     doneSignalled: bool) {
    && 0 <= counted && 0 <= undone && counted + undone == n
    && 0 <= announced && 0 <= silent && announced + silent == 1
    && Lo(counter) == counted
    && Hi(counter) == (if announced == 0 then 0 else n + 1)
    && atDone + (if doneSignalled then 1 else 0) == (if announced == 1 && counted == n then 1 else 0)
  }

  predicate Ending(terminal: bool, tickets: seq<nat>, folded: seq<nat>, dones: seq<seq<nat>>, finishing: int) {
    && |dones| + finishing == (if terminal then 1 else 0)
    && (terminal ==> folded == tickets)
    && (forall k :: 0 <= k < |dones| ==> dones[k] == folded)
  }

  predicate Inv(c: Config, s: State) {
    var t := CountAll(s.procs);
    && Config?(c)
    && Kinds(c.n, s.procs)
    && Rights(s.flag, s.st, t.right, t.main, t.active)
    && Queue(c.n, s.tickets, s.published, s.head, s.freed, s.folded, t.custody, t.freeing)
    && Facts(c.n, s.tickets, s.published, s.head, s.st, s.procs)
    && Items(c.n, s.folded, s.procs)
    && Wakeup(s.st, s.head, |s.tickets|, t.wake)
    && Counting(c.n, s.counter, t.counted, t.undone, t.announced, t.silent, t.atDone, s.st >= DONE)
    && Ending(s.st == TERMINAL, s.tickets, s.folded, s.dones, t.finishing)
    && |s.tickets| + |s.dropped| + t.waiting == c.n
  }

  // ---------------------------------------------------------------- every step keeps it

  /** Two holders of the push right would count twice. */
  lemma AloneRight(procs: seq<Pc>, p: nat)
    requires p < |procs| && Right(procs[p]) == 1 && CountAll(procs).right <= 1
    ensures forall q :: 0 <= q < |procs| && q != p ==> Right(procs[q]) == 0
    ensures CountAll(procs).main == Main(procs[p]) && CountAll(procs).custody == Custody(procs[p])
  {
    hide Sum;
    SumAtLeast(procs, p, Right);
    CountBounds(procs, p);
    if CountAll(procs).main > 0 {
      var q := SumWitness(procs, Main);
    }
    if CountAll(procs).custody > 0 {
      var q := SumWitness(procs, Custody);
    }
  }

  /** Once every producer has counted itself, none is still producing. */
  lemma NoneProducing(procs: seq<Pc>)
    requires CountAll(procs).undone == 0
    ensures forall q :: 0 <= q < |procs| ==> Caller(procs[q]) != Producer
  {
    hide Sum;
    forall q | 0 <= q < |procs| ensures Caller(procs[q]) != Producer {
      SumAtLeast(procs, q, Undone);
    }
  }

  predicate SameKind(n: nat, p: nat, from: Pc, to: Pc) {
    && (Caller(to) == Caller(from) || (Caller(from) == Producer && Caller(to) == Last))
    && (to.PushDone? || to.Over? ==> Caller(to) != Producer)
    && (n <= p < 2 * n ==> !to.PushDone? && (to.NotPushed? || to.InFlight? <==> from.NotPushed? || from.InFlight?))
    && !from.Publish?
  }

  /** A step that moves one process and leaves the queue and the state word alone. */
  lemma GotoKeeps(n: nat, tickets: seq<nat>, published: seq<bool>, head: nat, st: nat, folded: seq<nat>,
                  procs: seq<Pc>, p: nat, pc: Pc)
    requires p < |procs| && Kinds(n, procs) && Facts(n, tickets, published, head, st, procs) && Items(n, folded, procs)
    requires SameKind(n, p, procs[p], pc) && Fact(n, tickets, published, head, st, p, pc)
    ensures Kinds(n, procs[p := pc]) && Facts(n, tickets, published, head, st, procs[p := pc])
    ensures Items(n, folded, procs[p := pc])
  {
  }

  /** The parts of the invariant a process's own program point depends on. */
  lemma Here(c: Config, s: State, p: nat)
    requires Inv(c, s) && p < |s.procs|
    ensures Fact(c.n, s.tickets, s.published, s.head, s.st, p, s.procs[p])
    ensures AtLeast(CountAll(s.procs), Count1(s.procs[p]))
    ensures Right(s.procs[p]) == 1 ==>
              && CountAll(s.procs).right == 1 && !IsRequested(s.flag) && (s.st == BUSY || s.st == DONE)
              && CountAll(s.procs).main == Main(s.procs[p]) && CountAll(s.procs).custody == Custody(s.procs[p])
              && forall q :: 0 <= q < |s.procs| && q != p ==> Right(s.procs[q]) == 0
  {
    hide Sum;
    CountBounds(s.procs, p);
    if Right(s.procs[p]) == 1 {
      AloneRight(s.procs, p);
    }
  }

  lemma LoadFlagStep(c: Config, s: State, p: nat)
    requires Inv(c, s) && Enabled(s, p) && s.procs[p].LoadFlag?
    ensures Inv(c, Step(c, s, p))
  {
    hide Sum, CountAll, Kinds, Facts, Items, Queue, Counting, Ending, Wakeup;
    var pc := Step(c, s, p).procs[p];
    Here(c, s, p);
    CountUpdate(s.procs, p, pc);
    GotoKeeps(c.n, s.tickets, s.published, s.head, s.st, s.folded, s.procs, p, pc);
  }

  /** Asking for a re-drain hands the right to the process that set ACTIVE. */
  lemma CasFlagStep(c: Config, s: State, p: nat)
    requires Inv(c, s) && Enabled(s, p) && s.procs[p].CasFlag?
    ensures Inv(c, Step(c, s, p))
  {
    hide Sum, CountAll, Kinds, Facts, Items, Queue, Counting, Ending, Wakeup;
    var pc := Step(c, s, p).procs[p];
    Here(c, s, p);
    CountUpdate(s.procs, p, pc);
    GotoKeeps(c.n, s.tickets, s.published, s.head, s.st, s.folded, s.procs, p, pc);
  }

  lemma ExchStep(c: Config, s: State, p: nat)
    requires Inv(c, s) && Enabled(s, p) && s.procs[p].Exch?
    ensures Inv(c, Step(c, s, p))
  {
    hide Sum, CountAll, Kinds, Facts, Items, Queue, Counting, Ending, Wakeup;
    var pc := Step(c, s, p).procs[p];
    Here(c, s, p);
    CountUpdate(s.procs, p, pc);
    GotoKeeps(c.n, s.tickets, s.published, s.head, s.st, s.folded, s.procs, p, pc);
  }

  lemma LoadStateStep(c: Config, s: State, p: nat)
    requires Inv(c, s) && Enabled(s, p) && s.procs[p].LoadState?
    ensures Inv(c, Step(c, s, p))
  {
    hide Sum, CountAll, Kinds, Facts, Items, Queue, Counting, Ending, Wakeup;
    var pc := Step(c, s, p).procs[p];
    Here(c, s, p);
    CountUpdate(s.procs, p, pc);
    GotoKeeps(c.n, s.tickets, s.published, s.head, s.st, s.folded, s.procs, p, pc);
  }

  /** The re-check after the right was given up. */
  lemma CheckStep(c: Config, s: State, p: nat)
    requires Inv(c, s) && Enabled(s, p)
    requires s.procs[p].CheckEmpty? || s.procs[p].CheckTail? || s.procs[p].CheckDone?
    ensures Inv(c, Step(c, s, p))
  {
    hide Sum, CountAll, Kinds, Facts, Items, Queue, Counting, Ending, Rights;
    var pc := Step(c, s, p).procs[p];
    Here(c, s, p);
    CountUpdate(s.procs, p, pc);
    CountBounds(s.procs[p := pc], p);
    GotoKeeps(c.n, s.tickets, s.published, s.head, s.st, s.folded, s.procs, p, pc);
  }

  /** A change of the state word, too, leaves the facts alone unless a right holder relies on DONE. */
  lemma FactsAfterState(n: nat, tickets: seq<nat>, published: seq<bool>, head: nat, st: nat, st': nat, procs: seq<Pc>)
    requires Facts(n, tickets, published, head, st, procs)
    requires forall p :: 0 <= p < |procs| ==> !procs[p].LateDeq? && !procs[p].CasTerminal?
    ensures Facts(n, tickets, published, head, st', procs)
  {
  }

  /** Taking the push right from IDLE: by a producer, or by a drainer that re-checks. */
  lemma TakeRightStep(c: Config, s: State, p: nat)
    requires Inv(c, s) && Enabled(s, p) && (s.procs[p].TryBusy? || s.procs[p].CasBusy?) && s.st == IDLE
    ensures Inv(c, Step(c, s, p))
  {
    hide Sum, CountAll, Kinds, Items, Facts, Queue, Counting, Ending;
    var pc := Step(c, s, p).procs[p];
    Here(c, s, p);
    CountUpdate(s.procs, p, pc);
    NoRightWhenIdle(c, s);
    GotoKeeps(c.n, s.tickets, s.published, s.head, s.st, s.folded, s.procs, p, pc);
    FactsAfterState(c.n, s.tickets, s.published, s.head, s.st, BUSY, s.procs[p := pc]);
  }

  lemma RightTakenStep(c: Config, s: State, p: nat)
    requires Inv(c, s) && Enabled(s, p) && (s.procs[p].TryBusy? || s.procs[p].CasBusy?) && s.st != IDLE
    ensures Inv(c, Step(c, s, p))
  {
    hide Sum, CountAll, Kinds, Items, Facts, Queue, Counting, Ending;
    var pc := Step(c, s, p).procs[p];
    Here(c, s, p);
    CountUpdate(s.procs, p, pc);
    GotoKeeps(c.n, s.tickets, s.published, s.head, s.st, s.folded, s.procs, p, pc);
  }

  lemma NoRightWhenIdle(c: Config, s: State)
    requires Inv(c, s)
    ensures s.st == IDLE || s.st == TERMINAL ==>
              CountAll(s.procs).right == CountAll(s.procs).main == CountAll(s.procs).custody == 0
              && forall q :: 0 <= q < |s.procs| ==> Right(s.procs[q]) == 0
  {
    hide Sum;
    forall q | 0 <= q < |s.procs| && (s.st == IDLE || s.st == TERMINAL) ensures Right(s.procs[q]) == 0 {
      CountBounds(s.procs, q);
    }
    CountBounds(s.procs, 0);
    SumNonNegative(s.procs, Right);
  }

  /** Giving the right up. */
  lemma CasIdleStep(c: Config, s: State, p: nat)
    requires Inv(c, s) && Enabled(s, p) && s.procs[p].CasIdle?
    ensures Inv(c, Step(c, s, p))
  {
    hide Sum, CountAll, Kinds, Items, Facts, Queue, Ending;
    var pc := Step(c, s, p).procs[p];
    Here(c, s, p);
    CountUpdate(s.procs, p, pc);
    CountBounds(s.procs[p := pc], p);
    GotoKeeps(c.n, s.tickets, s.published, s.head, s.st, s.folded, s.procs, p, pc);
    if s.st == BUSY {
      FactsAfterState(c.n, s.tickets, s.published, s.head, s.st, IDLE, s.procs[p := pc]);
    }
  }

  lemma CasTerminalStep(c: Config, s: State, p: nat)
    requires Inv(c, s) && Enabled(s, p) && s.procs[p].CasTerminal?
    ensures Inv(c, Step(c, s, p))
  {
    hide Sum, CountAll, Kinds, Items, Facts;
    var pc := Step(c, s, p).procs[p];
    Here(c, s, p);
    CountUpdate(s.procs, p, pc);
    GotoKeeps(c.n, s.tickets, s.published, s.head, s.st, s.folded, s.procs, p, pc);
    FactsAfterState(c.n, s.tickets, s.published, s.head, s.st, TERMINAL, s.procs[p := pc]);
    assert s.tickets[..|s.tickets|] == s.tickets;
  }

  lemma FinishStep(c: Config, s: State, p: nat)
    requires Inv(c, s) && Enabled(s, p) && s.procs[p].Finish?
    ensures Inv(c, Step(c, s, p))
  {
    hide Sum, CountAll, Kinds, Items, Facts, Queue, Counting, Rights, Wakeup;
    var pc := Step(c, s, p).procs[p];
    Here(c, s, p);
    CountUpdate(s.procs, p, pc);
    GotoKeeps(c.n, s.tickets, s.published, s.head, s.st, s.folded, s.procs, p, pc);
  }

  lemma AddDoneStep(c: Config, s: State, p: nat)
    requires Inv(c, s) && Enabled(s, p) && s.procs[p].AddDone?
    ensures Inv(c, Step(c, s, p))
  {
    hide Sum, CountAll, Hi, Lo, Pack, C.AddDoneWord, C.AddDoneHits, Kinds, Items, Facts, Queue, Rights, Wakeup, Ending;
    var pc := Step(c, s, p).procs[p];
    Here(c, s, p);
    CountUpdate(s.procs, p, pc);
    CountBounds(s.procs[p := pc], p);
    ProducersOnly(c, s, p);
    GotoKeeps(c.n, s.tickets, s.published, s.head, s.st, s.folded, s.procs, p, pc);
    C.AddDoneMeaning(s.counter);
  }

  lemma ProducersOnly(c: Config, s: State, p: nat)
    requires Inv(c, s) && p < |s.procs|
    ensures Caller(s.procs[p]) == Producer ==> p < c.n
    ensures s.procs[p].PushDone? ==> p < c.n || p == 2 * c.n
    ensures s.procs[p].SetTotal? ==> p == 2 * c.n
    ensures s.procs[p].InFlight? || s.procs[p].NotPushed? ==> c.n <= p < 2 * c.n
  {
    hide Sum;
  }

  lemma SetTotalStep(c: Config, s: State, p: nat)
    requires Inv(c, s) && Enabled(s, p) && s.procs[p].SetTotal?
    ensures Inv(c, Step(c, s, p))
  {
    hide Sum, CountAll, Hi, Lo, Pack, C.SetTotalWord, Kinds, Items, Facts, Queue, Rights, Wakeup, Ending;
    var pc := Step(c, s, p).procs[p];
    Here(c, s, p);
    CountUpdate(s.procs, p, pc);
    CountBounds(s.procs[p := pc], p);
    ProducersOnly(c, s, p);
    GotoKeeps(c.n, s.tickets, s.published, s.head, s.st, s.folded, s.procs, p, pc);
    C.SetTotalMeaning(s.counter, c.n % W32);
  }

  /** push_done downstream of the counter: no producer is left, so nothing will be enqueued. */
  lemma PushDoneStep(c: Config, s: State, p: nat)
    requires Inv(c, s) && Enabled(s, p) && s.procs[p].PushDone?
    ensures Inv(c, Step(c, s, p))
  {
    hide Sum, CountAll, Hi, Lo, Kinds, Items, Facts, Queue;
    var pc := Step(c, s, p).procs[p];
    Here(c, s, p);
    CountUpdate(s.procs, p, pc);
    ProducersOnly(c, s, p);
    NoRightWhenIdle(c, s);
    GotoKeeps(c.n, s.tickets, s.published, s.head, s.st, s.folded, s.procs, p, pc);
    FactsAfterDone(c, s, p);
    FactsAfterState(c.n, s.tickets, s.published, s.head, s.st, DONE, s.procs[p := pc]);
  }

  lemma FactsAfterDone(c: Config, s: State, p: nat)
    requires Inv(c, s) && p < |s.procs| && s.procs[p].PushDone?
    ensures s.st <= BUSY && forall q :: 0 <= q < |s.procs| ==> !s.procs[q].LateDeq? && !s.procs[q].CasTerminal?
  {
    hide Sum;
    CountBounds(s.procs, p);
  }

  lemma DropStep(c: Config, s: State, p: nat)
    requires Inv(c, s) && Enabled(s, p) && s.procs[p].Enqueue? && s.freed + c.capacity <= |s.tickets|
    ensures Inv(c, Step(c, s, p))
  {
    hide Sum, CountAll, Kinds, Items, Facts, Queue, Counting, Rights, Ending;
    Here(c, s, p);
    CountUpdate(s.procs, p, TryBusy);
    CountBounds(s.procs[p := TryBusy], p);
    ProducersOnly(c, s, p);
    GotoKeeps(c.n, s.tickets, s.published, s.head, s.st, s.folded, s.procs, p, TryBusy);
  }

  lemma QueueAfterClaim(n: nat, tickets: seq<nat>, published: seq<bool>, head: nat, freed: nat, folded: seq<nat>,
                        custody: int, freeing: int, p: nat)
    requires Queue(n, tickets, published, head, freed, folded, custody, freeing) && p !in tickets && p < n
    ensures Queue(n, tickets + [p], published + [false], head, freed, folded, custody, freeing)
  {
    assert (tickets + [p])[..|folded|] == tickets[..|folded|];
  }

  lemma FactsAfterTicket(n: nat, tickets: seq<nat>, published: seq<bool>, head: nat, st: nat, procs: seq<Pc>, p: nat)
    requires Facts(n, tickets, published, head, st, procs) && p < |procs| && procs[p].Enqueue?
    requires |published| == |tickets| && head <= |tickets| && st < DONE
    ensures Facts(n, tickets + [p], published + [false], head, st, procs[p := Publish(|tickets|)])
  {
  }

  lemma KindsAfterClaim(n: nat, folded: seq<nat>, procs: seq<Pc>, p: nat, ticket: nat)
    requires Kinds(n, procs) && Items(n, folded, procs) && p < n && p < |procs| && procs[p].Enqueue?
    ensures Kinds(n, procs[p := Publish(ticket)]) && Items(n, folded, procs[p := Publish(ticket)])
  {
  }

  lemma FactsAfterClaim(c: Config, s: State, p: nat)
    requires Inv(c, s) && Enabled(s, p) && s.procs[p].Enqueue?
    ensures s.st < DONE
    ensures var pc := Publish(|s.tickets|);
            && Facts(c.n, s.tickets + [p], s.published + [false], s.head, s.st, s.procs[p := pc])
            && Kinds(c.n, s.procs[p := pc]) && Items(c.n, s.folded, s.procs[p := pc])
            && Queue(c.n, s.tickets + [p], s.published + [false], s.head, s.freed, s.folded,
                     CountAll(s.procs).custody, CountAll(s.procs).freeing)
  {
    hide Sum, CountAll, Rights, Wakeup, Ending, Facts, Kinds, Items, Queue;
    Here(c, s, p);
    ProducersOnly(c, s, p);
    QueueGives(c, s);
    QueueAfterClaim(c.n, s.tickets, s.published, s.head, s.freed, s.folded,
                    CountAll(s.procs).custody, CountAll(s.procs).freeing, p);
    CountBounds(s.procs, p);
    FactsAfterTicket(c.n, s.tickets, s.published, s.head, s.st, s.procs, p);
    KindsAfterClaim(c.n, s.folded, s.procs, p, |s.tickets|);
  }

  lemma QueueGives(c: Config, s: State)
    requires Inv(c, s)
    ensures |s.published| == |s.tickets| && s.head <= |s.tickets|
  {
    hide Sum, CountAll, Rights, Wakeup, Ending, Facts, Kinds, Items, Counting;
  }

  lemma ClaimStep(c: Config, s: State, p: nat)
    requires Inv(c, s) && Enabled(s, p) && s.procs[p].Enqueue? && s.freed + c.capacity > |s.tickets|
    ensures Inv(c, Step(c, s, p))
  {
    hide Sum, CountAll, Kinds, Items, Facts, Queue, Counting, Rights;
    CountUpdate(s.procs, p, Publish(|s.tickets|));
    CountBounds(s.procs[p := Publish(|s.tickets|)], p);
    FactsAfterClaim(c, s, p);
  }

  lemma FactsAfterPublish(n: nat, tickets: seq<nat>, published: seq<bool>, head: nat, st: nat, procs: seq<Pc>, p: nat, t: nat)
    requires Facts(n, tickets, published, head, st, procs) && Distinct(tickets) && |published| == |tickets|
    requires p < |procs| && procs[p] == Publish(t)
    ensures t < |published| && Facts(n, tickets, published[t := true], head, st, procs[p := TryBusy])
  {
    assert Fact(n, tickets, published, head, st, p, procs[p]);
  }

  lemma KindsAfterPublish(n: nat, procs: seq<Pc>, p: nat)
    requires Kinds(n, procs) && p < |procs| && procs[p].Publish?
    ensures p < n && Kinds(n, procs[p := TryBusy])
  {
  }

  lemma PublishStep(c: Config, s: State, p: nat)
    requires Inv(c, s) && Enabled(s, p) && s.procs[p].Publish?
    ensures Inv(c, Step(c, s, p))
  {
    hide Sum, CountAll, Counting, Rights, Ending, Items, Facts, Kinds;
    CountUpdate(s.procs, p, TryBusy);
    CountBounds(s.procs[p := TryBusy], p);
    FactsAfterPublish(c.n, s.tickets, s.published, s.head, s.st, s.procs, p, s.procs[p].ticket);
    KindsAfterPublish(c.n, s.procs, p);
    ItemsAfterProducer(c.n, s.folded, s.procs, p, TryBusy);
  }

  lemma ItemsAfterProducer(n: nat, folded: seq<nat>, procs: seq<Pc>, p: nat, pc: Pc)
    requires Items(n, folded, procs) && p < n && p < |procs|
    ensures Items(n, folded, procs[p := pc])
  {
  }

  /** Only a right holder looks at `head`; when one takes an item the others' facts stand. */
  lemma FactsAfterTake(n: nat, tickets: seq<nat>, published: seq<bool>, head: nat, st: nat, procs: seq<Pc>, p: nat, who: Who)
    requires Facts(n, tickets, published, head, st, procs) && p < |procs| && head < |tickets|
    requires Right(procs[p]) == 1 && forall q :: 0 <= q < |procs| && q != p ==> Right(procs[q]) == 0
    ensures Facts(n, tickets, published, head + 1, st, procs[p := FreeSlot(tickets[head], who)])
  {
  }

  lemma KindsGoto(n: nat, folded: seq<nat>, procs: seq<Pc>, p: nat, pc: Pc)
    requires p < |procs| && Kinds(n, procs) && Items(n, folded, procs) && SameKind(n, p, procs[p], pc)
    ensures Kinds(n, procs[p := pc]) && Items(n, folded, procs[p := pc])
  {
  }

  lemma TakeStep(c: Config, s: State, p: nat)
    requires Inv(c, s) && Enabled(s, p) && (s.procs[p].Deq? || s.procs[p].LateDeq?) && CanDequeue(s)
    ensures Inv(c, Step(c, s, p))
  {
    hide Sum, CountAll, Kinds, Items, Facts, Counting;
    var pc := Step(c, s, p).procs[p];
    Here(c, s, p);
    CountUpdate(s.procs, p, pc);
    KindsGoto(c.n, s.folded, s.procs, p, pc);
    FactsAfterTake(c.n, s.tickets, s.published, s.head, s.st, s.procs, p, s.procs[p].who);
  }

  lemma MissStep(c: Config, s: State, p: nat)
    requires Inv(c, s) && Enabled(s, p) && (s.procs[p].Deq? || s.procs[p].LateDeq?) && !CanDequeue(s)
    ensures Inv(c, Step(c, s, p))
  {
    hide Sum, CountAll, Kinds, Items, Facts, Counting, Ending, Queue;
    var pc := Step(c, s, p).procs[p];
    Here(c, s, p);
    CountUpdate(s.procs, p, pc);
    if s.st == DONE {
      EmptyWhenDone(c, s);
    }
    GotoKeeps(c.n, s.tickets, s.published, s.head, s.st, s.folded, s.procs, p, pc);
  }

  /** After push_done every ticket is published, so a failed dequeue means an empty cache. */
  lemma EmptyWhenDone(c: Config, s: State)
    requires Inv(c, s) && s.st >= DONE && !CanDequeue(s)
    ensures s.head == |s.tickets|
  {
    hide Sum, Rights, Wakeup, Ending, Items;
    CountBounds(s.procs, 0);
    NoneProducing(s.procs);
  }

  lemma CustodyStep(c: Config, s: State, p: nat)
    requires Inv(c, s) && Enabled(s, p) && (s.procs[p].FreeSlot? || s.procs[p].SetActive?)
    ensures Inv(c, Step(c, s, p))
  {
    hide Sum, CountAll, Kinds, Items, Facts, Counting, Ending, Wakeup;
    CountBounds(s.procs[p := Step(c, s, p).procs[p]], p);
    var pc := Step(c, s, p).procs[p];
    Here(c, s, p);
    CountUpdate(s.procs, p, pc);
    GotoKeeps(c.n, s.tickets, s.published, s.head, s.st, s.folded, s.procs, p, pc);
  }

  /** The item leaves for downstream: its completion has not started yet. */
  lemma PushTarget(c: Config, s: State, p: nat)
    requires Inv(c, s) && Enabled(s, p) && s.procs[p].PushItem?
    ensures var i := s.procs[p].item;
            && i < c.n && c.n + i != p && s.procs[c.n + i].NotPushed? && |s.procs| == 2 * c.n + 1
  {
    hide Sum, Counting, Ending, Wakeup;
    Here(c, s, p);
  }

  lemma PushItemFacts(c: Config, s: State, p: nat)
    requires Inv(c, s) && Enabled(s, p) && s.procs[p].PushItem?
    ensures var procs := s.procs[p := Exch(s.procs[p].who)][c.n + s.procs[p].item := InFlight];
            && Kinds(c.n, procs) && Items(c.n, s.folded, procs)
            && Facts(c.n, s.tickets, s.published, s.head, s.st, procs)
  {
    hide Sum, CountAll, Counting, Ending, Wakeup, Queue, Kinds, Items, Facts, Rights;
    var i, who := s.procs[p].item, s.procs[p].who;
    Here(c, s, p);
    PushTarget(c, s, p);
    GotoKeeps(c.n, s.tickets, s.published, s.head, s.st, s.folded, s.procs, p, Exch(who));
    GotoKeeps(c.n, s.tickets, s.published, s.head, s.st, s.folded, s.procs[p := Exch(who)], c.n + i, InFlight);
  }

  /** Handing the item over moves right and custody from the drainer to the item. */
  lemma PushItemCounts(c: Config, s: State, p: nat)
    requires Inv(c, s) && Enabled(s, p) && s.procs[p].PushItem?
    ensures CountAll(s.procs[p := Exch(s.procs[p].who)][c.n + s.procs[p].item := InFlight]) == CountAll(s.procs)
  {
    hide Sum, CountAll, Counting, Ending, Wakeup, Queue, Kinds, Items, Facts, Rights;
    PushTarget(c, s, p);
    var mid := s.procs[p := Exch(s.procs[p].who)];
    CountUpdate(s.procs, p, Exch(s.procs[p].who));
    CountUpdate(mid, c.n + s.procs[p].item, InFlight);
  }

  lemma PushItemStep(c: Config, s: State, p: nat)
    requires Inv(c, s) && Enabled(s, p) && s.procs[p].PushItem?
    ensures Inv(c, Step(c, s, p))
  {
    hide Sum, CountAll, Counting, Ending, Wakeup, Queue, Kinds, Items, Facts, Rights;
    PushTarget(c, s, p);
    PushItemCounts(c, s, p);
    PushItemFacts(c, s, p);
  }

  lemma FoldStep(c: Config, s: State, p: nat)
    requires Inv(c, s) && Enabled(s, p) && s.procs[p].InFlight?
    ensures Inv(c, Step(c, s, p))
  {
    hide Sum, CountAll, Counting, Wakeup, Facts, Kinds, Rights;
    Here(c, s, p);
    ProducersOnly(c, s, p);
    CountUpdate(s.procs, p, LoadFlag(Poller));
    KindsAfterFold(c.n, s.procs, p);
    FactsAfterFold(c.n, s.tickets, s.published, s.head, s.st, s.procs, p);
    assert s.tickets[..|s.folded| + 1] == s.folded + [p - c.n];
  }

  lemma KindsAfterFold(n: nat, procs: seq<Pc>, p: nat)
    requires p < |procs| && Kinds(n, procs) && procs[p].InFlight?
    ensures Kinds(n, procs[p := LoadFlag(Poller)])
  {
  }

  lemma FactsAfterFold(n: nat, tickets: seq<nat>, published: seq<bool>, head: nat, st: nat, procs: seq<Pc>, p: nat)
    requires p < |procs| && Facts(n, tickets, published, head, st, procs) && procs[p].InFlight?
    ensures Facts(n, tickets, published, head, st, procs[p := LoadFlag(Poller)])
  {
  }

  lemma StepKeepsInv(c: Config, s: State, p: nat)
    requires Inv(c, s) && Enabled(s, p)
    ensures Inv(c, Step(c, s, p))
  {
    hide Inv, Step, CanDequeue;
    match s.procs[p]
    case Enqueue => if s.freed + c.capacity <= |s.tickets| { DropStep(c, s, p); } else { ClaimStep(c, s, p); }
    case Publish(_) => PublishStep(c, s, p);
    case TryBusy => if s.st == IDLE { TakeRightStep(c, s, p); } else { RightTakenStep(c, s, p); }
    case AddDone => AddDoneStep(c, s, p);
    case InFlight => FoldStep(c, s, p);
    case SetTotal => SetTotalStep(c, s, p);
    case PushDone(_) => PushDoneStep(c, s, p);
    case LoadFlag(_) => LoadFlagStep(c, s, p);
    case CasFlag(_, _) => CasFlagStep(c, s, p);
    case Deq(_) => if CanDequeue(s) { TakeStep(c, s, p); } else { MissStep(c, s, p); }
    case LateDeq(_) => if CanDequeue(s) { TakeStep(c, s, p); } else { MissStep(c, s, p); }
    case FreeSlot(_, _) => CustodyStep(c, s, p);
    case SetActive(_, _) => CustodyStep(c, s, p);
    case PushItem(_, _) => PushItemStep(c, s, p);
    case Exch(_) => ExchStep(c, s, p);
    case LoadState(_) => LoadStateStep(c, s, p);
    case CasTerminal(_) => CasTerminalStep(c, s, p);
    case Finish(_) => FinishStep(c, s, p);
    case CasIdle(_, _) => CasIdleStep(c, s, p);
    case CheckEmpty(_) => CheckStep(c, s, p);
    case CheckTail(_, _) => CheckStep(c, s, p);
    case CheckDone(_) => CheckStep(c, s, p);
    case CasBusy(_) => if s.st == IDLE { TakeRightStep(c, s, p); } else { RightTakenStep(c, s, p); }
  }

  lemma {:induction false} InitCounts(a: seq<Pc>, b: seq<Pc>)
    requires forall i :: 0 <= i < |a| ==> a[i] == Enqueue
    requires forall i :: 0 <= i < |b| ==> b[i] == NotPushed
    ensures CountAll(a + b + [SetTotal]) ==
            Tally(0, 0, 0, 0, 0, 0, 0, 0, 0, |a|, |a|, 1, 0)
    decreases |a| + |b|
  {
    hide Sum, CountAll;
    var all := a + b;
    if |b| > 0 {
      InitCounts(a, b[..|b| - 1]);
      assert all == (a + b[..|b| - 1]) + [NotPushed];
      CountSwap(a + b[..|b| - 1], NotPushed);
    } else if |a| > 0 {
      InitCounts(a[..|a| - 1], b);
      assert all == (a[..|a| - 1] + b) + [Enqueue];
      CountSwap(a[..|a| - 1] + b, Enqueue);
    } else {
      assert all + [SetTotal] == [SetTotal];
      CountStarter();
    }
  }

  lemma CountStarter()
    ensures CountAll([SetTotal]) == Tally(0, 0, 0, 0, 0, 0, 0, 0, 0, 0, 0, 1, 0)
  {
    assert [SetTotal][..0] == [];
  }

  lemma CountSwap(rest: seq<Pc>, pc: Pc)
    ensures CountAll(rest + [pc] + [SetTotal]) == Shift(CountAll(rest + [SetTotal]), Count1(NotPushed), Count1(pc))
  {
    hide Sum;
    CountAppend(rest, pc);
    CountAppend(rest + [pc], SetTotal);
    CountAppend(rest, SetTotal);
  }

  lemma CountAppend(procs: seq<Pc>, pc: Pc)
    ensures CountAll(procs + [pc]) == Shift(CountAll(procs), Count1(NotPushed), Count1(pc))
  {
    hide Sum;
    SumAppend(procs, pc, Right); SumAppend(procs, pc, Main); SumAppend(procs, pc, Active);
    SumAppend(procs, pc, Custody); SumAppend(procs, pc, Wake); SumAppend(procs, pc, Counted);
    SumAppend(procs, pc, Announced); SumAppend(procs, pc, AtDone); SumAppend(procs, pc, Finishing);
    SumAppend(procs, pc, Waiting); SumAppend(procs, pc, Undone); SumAppend(procs, pc, Silent);
    SumAppend(procs, pc, Freeing);
  }

  lemma InitInv(c: Config)
    requires Config?(c)
    ensures Inv(c, Init(c))
  {
    hide Sum, CountAll;
    ZeroWord();
    InitCounts(seq(c.n, _ => Enqueue), seq(c.n, _ => NotPushed));
  }

  lemma {:induction false} RunInv(c: Config, run: seq<State>, k: nat)
    requires Config?(c) && IsRun(c, run) && k < |run|
    ensures Inv(c, run[k])
  {
    hide Inv, Init, Step;
    if k == 0 {
      InitInv(c);
    } else {
      RunInv(c, run, k - 1);
      var p: nat :| StepsTo(c, run[k - 1], p, run[k]);
      StepKeepsInv(c, run[k - 1], p);
    }
  }

  // ---------------------------------------------------------------- what every run guarantees

  /** At every point of every run: the push right has at most one holder (a drainer at work, an
      item downstream or its completion about to poll), no two processes are in the drain loop,
      items are folded in the order of their tickets and each at most once, and the machine is
      BUSY or DONE exactly while the right is held or on its way back. */
  lemma SequentialSafety(c: Config, run: seq<State>, k: nat)
    requires Config?(c) && IsRun(c, run) && k < |run|
    ensures var s := run[k];
            && (forall p, q :: 0 <= p < |s.procs| && 0 <= q < |s.procs| ==>
                  (Right(s.procs[p]) == 1 && Right(s.procs[q]) == 1 ==> p == q))
            && (forall p, q :: 0 <= p < |s.procs| && 0 <= q < |s.procs| ==>
                  (Main(s.procs[p]) == 1 && (Main(s.procs[q]) == 1 || Active(s.procs[q]) == 1) ==> p == q))
            && Distinct(s.tickets)
            && |s.folded| <= |s.tickets| && s.folded == s.tickets[..|s.folded|]
            && ((exists p :: 0 <= p < |s.procs| && Right(s.procs[p]) == 1) || IsRequested(s.flag)
                <==> s.st == BUSY || s.st == DONE)
  {
    hide Sum, Hi, Lo;
    var s := run[k];
    RunInv(c, run, k);
    forall p | 0 <= p < |s.procs|
      ensures Right(s.procs[p]) == 1 ==> forall q :: 0 <= q < |s.procs| && q != p ==> Right(s.procs[q]) == 0
      ensures Main(s.procs[p]) == 1 ==> forall q :: 0 <= q < |s.procs| ==> Active(s.procs[q]) == 0
      ensures Right(s.procs[p]) == 1 ==> s.st == BUSY || s.st == DONE
    {
      Here(c, s, p);
      forall q | 0 <= q < |s.procs| && Main(s.procs[p]) == 1 ensures Active(s.procs[q]) == 0 {
        CountBounds(s.procs, q);
      }
    }
    if CountAll(s.procs).right > 0 {
      var p := SumWitness(s.procs, Right);
    }
  }

  /** push_done goes downstream at most once, and only after every ticket was folded and every
      element was either enqueued or dropped for lack of room. */
  lemma DoneOnce(c: Config, run: seq<State>, k: nat)
    requires Config?(c) && IsRun(c, run) && k < |run|
    ensures var s := run[k];
            && (s.dones == [] || s.dones == [s.folded])
            && (s.st == TERMINAL ==> s.folded == s.tickets && |s.tickets| + |s.dropped| == c.n)
            && (s.dones != [] ==> s.st == TERMINAL)
  {
    hide Sum, Hi, Lo, Rights, Wakeup, Facts;
    var s := run[k];
    RunInv(c, run, k);
    CountBounds(s.procs, 0);
    if s.st == TERMINAL {
      NoneProducing(s.procs);
      SumConstant(s.procs, Waiting, 0);
    }
  }

  /** No wakeup is lost: while the machine is idle with items in the cache, some process is
      about to look; and when nothing can move, everything was folded and push_done has gone out. */
  lemma NoLostWakeup(c: Config, run: seq<State>, k: nat)
    requires Config?(c) && IsRun(c, run) && k < |run|
    ensures var s := run[k];
            s.st == IDLE && s.head < |s.tickets| ==> exists p :: 0 <= p < |s.procs| && Wake(s.procs[p]) == 1
    ensures var s := run[k];
            (forall p: nat :: !Enabled(s, p)) ==>
              s.dones == [s.tickets] && s.folded == s.tickets && |s.tickets| + |s.dropped| == c.n
  {
    hide Sum, Hi, Lo, Facts, Queue;
    var s := run[k];
    RunInv(c, run, k);
    if s.st == IDLE && s.head < |s.tickets| {
      var p := SumWitness(s.procs, Wake);
    }
    if forall p: nat :: !Enabled(s, p) {
      Stopped(c, s);
      DoneOnce(c, run, k);
    }
  }

  lemma Stopped(c: Config, s: State)
    requires Inv(c, s) && forall p: nat :: !Enabled(s, p)
    ensures s.st == TERMINAL && |s.dones| == 1
  {
    hide Sum, Hi, Lo, Facts, Queue;
    forall p | 0 <= p < |s.procs| ensures s.procs[p].NotPushed? || s.procs[p].Over? {
      assert !Enabled(s, p);
    }
    SumConstant(s.procs, Right, 0);
    SumConstant(s.procs, Active, 0);
    SumConstant(s.procs, AtDone, 0);
    SumConstant(s.procs, Finishing, 0);
    SumConstant(s.procs, Silent, 0);
    SumConstant(s.procs, Undone, 0);
  }

  lemma DropsWhenFull(c: Config, s: State, p: nat)
    requires Enabled(s, p)
    ensures var s' := Step(c, s, p);
            if s.procs[p].Enqueue? && s.freed + c.capacity <= |s.tickets| then s'.dropped == s.dropped + [p]
            else s'.dropped == s.dropped
  {
  }

  // ---------------------------------------------------------------- which streams lose items

  /** A producer still before its enqueue leaves fewer than n tickets claimed. */
  lemma RoomForAll(c: Config, s: State, p: nat)
    requires Inv(c, s) && Enabled(s, p) && s.procs[p].Enqueue? && c.n <= c.capacity
    ensures s.freed + c.capacity > |s.tickets|
  {
    hide Sum, Kinds, Facts, Items, Counting, Rights, Wakeup, Ending;
    CountBounds(s.procs, p);
  }

  lemma {:induction false} NothingDropped(c: Config, run: seq<State>, k: nat)
    requires Config?(c) && IsRun(c, run) && k < |run| && c.n <= c.capacity
    ensures run[k].dropped == []
  {
    hide Inv, Step;
    if k > 0 {
      NothingDropped(c, run, k - 1);
      RunInv(c, run, k - 1);
      var p: nat :| StepsTo(c, run[k - 1], p, run[k]);
      DropsWhenFull(c, run[k - 1], p);
      if run[k - 1].procs[p].Enqueue? {
        RoomForAll(c, run[k - 1], p);
      }
    }
  }

  /** The first k producers have claimed their tickets and nobody has gone further. */
  function Claimed(c: Config, k: nat): State
    requires k <= c.n
  {
    State(0, IDLE, 0, seq(k, (i: nat) => i), seq(k, _ => false), 0, 0,
          seq(c.n, (i: nat) => if i < k then Publish(i) else Enqueue) + seq(c.n, _ => NotPushed) + [SetTotal], [], [], [])
  }

  lemma ClaimNext(c: Config, k: nat)
    requires k < c.n && k < c.capacity
    ensures StepsTo(c, Claimed(c, k), k, Claimed(c, k + 1))
  {
    var s, t := Claimed(c, k), Claimed(c, k + 1);
    assert s.tickets + [k] == t.tickets;
    assert s.published + [false] == t.published;
    assert s.procs[k := Publish(k)] == t.procs;
  }

  /** The run in which `capacity` producers claim their cells and one more arrives. */
  lemma FillsUp(c: Config) returns (run: seq<State>)
    requires c.capacity < c.n
    ensures IsRun(c, run) && run[|run| - 1].dropped == [c.capacity]
  {
    var m := c.capacity;
    var last := Step(c, Claimed(c, m), m);
    assert StepsTo(c, Claimed(c, m), m, last);
    hide StepsTo;
    run := seq(m + 1, k requires 0 <= k <= m => Claimed(c, k)) + [last];
    assert Claimed(c, 0) == Init(c);
    forall k | 0 < k < |run| ensures Next(c, run[k - 1], run[k]) {
      if k <= m {
        ClaimNext(c, k - 1);
      } else {
        assert StepsTo(c, run[k - 1], m, run[k]);
      }
    }
  }

  ghost predicate NeverLoses(c: Config) {
    forall run: seq<State>, k: nat :: IsRun(c, run) && k < |run| ==> run[k].dropped == []
  }

  /** The result of the enqueue is ignored: the streams of which no interleaving loses an item
      are exactly those that fit into the cache as a whole. */
  lemma LosesNothingIffFits(c: Config)
    requires Config?(c)
    ensures NeverLoses(c) <==> c.n <= c.capacity
  {
    if c.n <= c.capacity {
      forall run: seq<State>, k: nat | IsRun(c, run) && k < |run| ensures run[k].dropped == [] {
        NothingDropped(c, run, k);
      }
    } else {
      var run := FillsUp(c);
      assert run[|run| - 1].dropped != [];
    }
  }

  function Below(n: nat): (r: set<nat>)
    ensures |r| == n && forall x: nat :: x in r <==> x < n
  {
    if n == 0 then {} else Below(n - 1) + {n - 1}
  }

  function Elements(s: seq<nat>): (r: set<nat>)
    ensures forall x :: x in r <==> x in s
  {
    if s == [] then {} else
      assert s == s[..|s| - 1] + [s[|s| - 1]];
      Elements(s[..|s| - 1]) + {s[|s| - 1]}
  }

  lemma {:induction false} DistinctSize(s: seq<nat>)
    requires Distinct(s)
    ensures |Elements(s)| == |s|
  {
    if |s| > 0 {
      DistinctSize(s[..|s| - 1]);
    }
  }

  lemma {:induction false} SubsetSize(a: set<nat>, b: set<nat>)
    requires a <= b
    ensures |a| <= |b|
  {
    if a != {} {
      var x :| x in a;
      SubsetSize(a - {x}, b - {x});
    }
  }

  /** n different numbers below n are all of them. */
  lemma AllOfThem(s: seq<nat>, n: nat)
    requires Distinct(s) && |s| == n && forall i :: 0 <= i < n ==> s[i] < n
    ensures forall x: nat :: x < n ==> x in s
  {
    forall x: nat | x < n ensures x in s {
      if x !in s {
        DistinctSize(s);
        SubsetSize(Elements(s), Below(n) - {x});
      }
    }
  }

  /** When push_done has gone downstream, a stream that fits into the cache has been folded whole:
      every element, each once. */
  lemma AllFolded(c: Config, run: seq<State>, k: nat)
    requires Config?(c) && IsRun(c, run) && k < |run| && c.n <= c.capacity && run[k].dones != []
    ensures |run[k].folded| == c.n && Distinct(run[k].folded) && forall i: nat :: i < c.n ==> i in run[k].folded
    ensures run[k].dones == [run[k].folded]
  {
    hide Sum, Counting, Facts, Rights, Wakeup, Items, IsRun;
    RunInv(c, run, k);
    DoneOnce(c, run, k);
    NothingDropped(c, run, k);
    AllOfThem(run[k].folded, c.n);
  }
}
