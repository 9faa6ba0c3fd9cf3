/** The ring as it is compiled: 32-bit counters, a sign test on a wrapped difference.

    The wrapped machine below makes the code's own tests on 32-bit values. As long as no thread
    moves with a position more than 2^31 - capacity tickets old, it takes the same branches and the
    same exchanges as the unbounded tickets of TicketRing, for any number of operations; one ticket
    more, and it does not. */
module TicketWrap {
  import opened RingCells
  import opened TicketRing
  import opened PackedWords

  /** (int32_t)a - (int32_t)b, computed modulo 2^32 and read as two's complement. */
  function Difference(a: nat, b: nat): int {
    var d := (a - b) % W32;
    if d < 0x8000_0000 then d else d - W32
  }

  /** The wrapped difference is the true one exactly within half the range. */
  lemma DifferenceExact(a: nat, b: nat)
    ensures Difference(a % W32, b % W32) == a - b <==> -0x8000_0000 <= a - b < 0x8000_0000
  {
    var d := (a - b) % W32;
    var q := a / W32 - b / W32;
    assert a % W32 - b % W32 == (a - b) - W32 * q;
  }

  /** pos + n in 32 bits. */
  function Plus(pos: nat, n: nat): nat { (pos + n) % W32 }

  /** One step of the code on 32-bit words. */
  function StepWrapped(s: State, p: nat): State
    requires Enabled(s, p)
  {
    match s.procs[p]
    case LoadTail(v) => Goto(s, p, EnqSeq(s.tail, v))
    case EnqSeq(pos, v) =>
      var dif := Difference(s.cells[Slot(s, pos)].sequence, pos);
      Goto(s, p, if dif == 0 then CasTail(pos, v) else if dif < 0 then Full else LoadTail(v))
    case CasTail(pos, v) =>
      if s.tail == pos then
        Goto(s, p, WriteValue(pos, v))
          .(tail := Plus(pos, 1), items := s.items + [v], writers := s.writers + [p])
      else Goto(s, p, EnqSeq(s.tail, v))
    case WriteValue(pos, v) =>
      Goto(s, p, Publish(pos)).(cells := s.cells[Slot(s, pos) := s.cells[Slot(s, pos)].(value := v)])
    case Publish(pos) =>
      Goto(s, p, Enqueued).(cells := s.cells[Slot(s, pos) := s.cells[Slot(s, pos)].(sequence := Plus(pos, 1))])
    case LoadHead => Goto(s, p, DeqSeq(s.head))
    case DeqSeq(pos) =>
      var dif := Difference(s.cells[Slot(s, pos)].sequence, Plus(pos, 1));
      Goto(s, p, if dif == 0 then CasHead(pos) else if dif < 0 then Empty else LoadHead)
    case CasHead(pos) =>
      if s.head == pos then Goto(s, p, ReadValue(pos)).(head := Plus(pos, 1), readers := s.readers + [p])
      else Goto(s, p, DeqSeq(s.head))
    case ReadValue(pos) => Goto(s, p, Free(pos, s.cells[Slot(s, pos)].value))
    case Free(pos, v) =>
      Goto(s, p, Dequeued(pos, v))
        .(cells := s.cells[Slot(s, pos) := s.cells[Slot(s, pos)].(sequence := Plus(pos, |s.cells|))])
    case _ => s
  }

  function WrapPc(pc: Pc): Pc {
    match pc
    case EnqSeq(pos, v) => EnqSeq(pos % W32, v)
    case CasTail(pos, v) => CasTail(pos % W32, v)
    case WriteValue(pos, v) => WriteValue(pos % W32, v)
    case Publish(pos) => Publish(pos % W32)
    case DeqSeq(pos) => DeqSeq(pos % W32)
    case CasHead(pos) => CasHead(pos % W32)
    case ReadValue(pos) => ReadValue(pos % W32)
    case Free(pos, v) => Free(pos % W32, v)
    case Dequeued(pos, v) => Dequeued(pos % W32, v)
    case _ => pc
  }

  function WrapCell(cell: Cell): Cell { cell.(sequence := cell.sequence % W32) }

  /** What the 32-bit words hold in an unbounded state; the history is kept as it is. */
  function Wrap(s: State): State {
    s.(cells := seq(|s.cells|, (i: int) requires 0 <= i < |s.cells| => WrapCell(s.cells[i])),
       tail := s.tail % W32, head := s.head % W32,
       procs := seq(|s.procs|, (p: int) requires 0 <= p < |s.procs| => WrapPc(s.procs[p])))
  }

  /** How many tickets have been issued since the thread read the position it holds. */
  function Lag(s: State, pc: Pc): int {
    match pc
    case EnqSeq(pos, _) => s.tail - pos
    case CasTail(pos, _) => s.tail - pos
    case DeqSeq(pos) => s.head - pos
    case CasHead(pos) => s.head - pos
    case _ => 0
  }

  /** The thread does not hold a position that lags more than 2^31 - capacity behind. */
  predicate Fresh(s: State, pc: Pc) { Lag(s, pc) <= 0x8000_0000 - |s.cells| }

  /** As any power of two that fits the constructor's 32-bit capacity. */
  predicate DividesWord(capacity: nat) {
    capacity >= 2 && 0x8000_0000 % capacity == 0
  }

  // ---------------------------------------------------------------- schedules

  /** One event of a run: a thread's next step, a spurious failure of its weak exchange, or a
      call made by a thread that has none in progress. */
  datatype Event = Advance(p: nat) | Fail(p: nat) | CallEnqueue(p: nat, v: int) | CallDequeue(p: nat)

  /** What an event does, given what a step does. An event that cannot happen changes nothing. */
  function Effect(s: State, e: Event, step: State): State {
    match e
    case Advance(p) => if Enabled(s, p) then step else s
    case Fail(p) =>
      if !Enabled(s, p) then s
      else if s.procs[p].CasTail? then Goto(s, p, EnqSeq(s.tail, s.procs[p].v))
      else if s.procs[p].CasHead? then Goto(s, p, DeqSeq(s.head))
      else s
    case CallEnqueue(p, v) => if p < |s.procs| && Done(s.procs[p]) then Goto(s, p, LoadTail(v)) else s
    case CallDequeue(p) => if p < |s.procs| && Done(s.procs[p]) then Goto(s, p, LoadHead) else s
  }

  function StepOrStay(s: State, p: nat): State { if Enabled(s, p) then Step(s, p) else s }

  function StepOrStayWrapped(s: State, p: nat): State { if Enabled(s, p) then StepWrapped(s, p) else s }

  function Execute(c: Config, events: seq<Event>): State {
    if events == [] then Init(c)
    else
      var s := Execute(c, events[..|events| - 1]);
      var e := events[|events| - 1];
      Effect(s, e, StepOrStay(s, e.p))
  }

  function ExecuteWrapped(c: Config, events: seq<Event>): State {
    if events == [] then Wrap(Init(c))
    else
      var s := ExecuteWrapped(c, events[..|events| - 1]);
      var e := events[|events| - 1];
      Effect(s, e, StepOrStayWrapped(s, e.p))
  }

  lemma {:induction false} ExecuteKeepsInv(c: Config, events: seq<Event>)
    requires Config?(c)
    ensures Inv(c, Execute(c, events))
  {
    hide Inv, Init, Step;
    if events == [] {
      InitInv(c);
    } else {
      var s := Execute(c, events[..|events| - 1]);
      var e := events[|events| - 1];
      ExecuteKeepsInv(c, events[..|events| - 1]);
      var s' := Execute(c, events);
      if s' != s {
        assert Moves(s, e.p, if e.CallEnqueue? then e.v else 0, s');
        MovesKeepsInv(c, s, e.p, if e.CallEnqueue? then e.v else 0, s');
      }
    }
  }

  // ---------------------------------------------------------------- the wrapped step agrees

  lemma WrapTwice(pos: nat, capacity: nat)
    requires DividesWord(capacity)
    ensures CellOf(pos % W32, capacity) == CellOf(pos, capacity)
  {
    var k := 2 * (0x8000_0000 / capacity);
    var q := pos / W32;
    assert capacity * (0x8000_0000 / capacity) == 0x8000_0000;
    assert W32 == capacity * k;
    var r := pos % W32;
    assert pos == capacity * (k * q) + r by {
      assert W32 * q == capacity * k * q;
    }
    var a := r / capacity;
    assert r == capacity * a + r % capacity;
    assert capacity * (k * q) + capacity * a == capacity * (k * q + a);
    ModUnique(pos, capacity, k * q + a, r % capacity);
  }

  lemma PlusWraps(pos: nat, n: nat)
    ensures Plus(pos % W32, n) == (pos + n) % W32
  {
  }

  lemma SameWord(a: nat, b: nat)
    requires 0 <= a - b < W32
    ensures a % W32 == b % W32 <==> a == b
  {
  }

  /** Sequence numbers stay within a capacity of the ends. */
  lemma SequenceNearEnds(c: Config, s: State, pos: nat)
    requires Inv(c, s)
    ensures s.tail - c.capacity <= s.cells[Slot(s, pos)].sequence <= s.head + c.capacity
    ensures s.head - c.capacity + 1 <= s.cells[Slot(s, pos)].sequence <= s.tail + c.capacity - 1
  {
    hide CellOf;
    assert CellOk(s, Slot(s, pos));
  }

  lemma WrapSlot(s: State, pos: nat)
    requires DividesWord(|s.cells|)
    ensures Slot(Wrap(s), pos % W32) == Slot(s, pos)
    ensures Wrap(s).cells[Slot(Wrap(s), pos % W32)] == WrapCell(s.cells[Slot(s, pos)])
  {
    WrapTwice(pos, |s.cells|);
  }

  lemma WrapGoto(s: State, p: nat, pc: Pc)
    requires p < |s.procs|
    ensures Wrap(Goto(s, p, pc)) == Goto(Wrap(s), p, WrapPc(pc))
  {
    assert Wrap(Goto(s, p, pc)).procs == Goto(Wrap(s), p, WrapPc(pc)).procs;
    assert Wrap(Goto(s, p, pc)).cells == Wrap(s).cells;
  }

  lemma WrapStore(s: State, i: nat, cell: Cell)
    requires i < |s.cells|
    ensures Wrap(s.(cells := s.cells[i := cell])) == Wrap(s).(cells := Wrap(s).cells[i := WrapCell(cell)])
  {
    assert Wrap(s.(cells := s.cells[i := cell])).cells == Wrap(s).cells[i := WrapCell(cell)];
    assert Wrap(s.(cells := s.cells[i := cell])).procs == Wrap(s).procs;
  }

  lemma EnqSeqAgrees(c: Config, s: State, p: nat)
    requires Inv(c, s) && DividesWord(c.capacity) && Enabled(s, p)
    requires s.procs[p].EnqSeq? && Fresh(s, s.procs[p])
    ensures Wrap(Step(s, p)) == StepWrapped(Wrap(s), p)
  {
    hide CellOf;
    var pos := s.procs[p].pos;
    assert Fact(s, p, s.procs[p]);
    WrapSlot(s, pos);
    SequenceNearEnds(c, s, pos);
    DifferenceExact(s.cells[Slot(s, pos)].sequence, pos);
    WrapGoto(s, p, Step(s, p).procs[p]);
  }

  lemma DeqSeqAgrees(c: Config, s: State, p: nat)
    requires Inv(c, s) && DividesWord(c.capacity) && Enabled(s, p)
    requires s.procs[p].DeqSeq? && Fresh(s, s.procs[p])
    ensures Wrap(Step(s, p)) == StepWrapped(Wrap(s), p)
  {
    hide CellOf;
    var pos := s.procs[p].pos;
    assert Fact(s, p, s.procs[p]);
    WrapSlot(s, pos);
    SequenceNearEnds(c, s, pos);
    PlusWraps(pos, 1);
    DifferenceExact(s.cells[Slot(s, pos)].sequence, pos + 1);
    WrapGoto(s, p, Step(s, p).procs[p]);
  }

  lemma ExchangeAgrees(c: Config, s: State, p: nat)
    requires Inv(c, s) && DividesWord(c.capacity) && Enabled(s, p)
    requires (s.procs[p].CasTail? || s.procs[p].CasHead?) && Fresh(s, s.procs[p])
    ensures Wrap(Step(s, p)) == StepWrapped(Wrap(s), p)
  {
    var pc := s.procs[p];
    assert Fact(s, p, pc);
    SameWord(if pc.CasTail? then s.tail else s.head, pc.pos);
    PlusWraps(pc.pos, 1);
    WrapGoto(s, p, Step(s, p).procs[p]);
  }

  lemma StoreAgrees(c: Config, s: State, p: nat)
    requires Inv(c, s) && DividesWord(c.capacity) && Enabled(s, p)
    requires s.procs[p].WriteValue? || s.procs[p].Publish? || s.procs[p].ReadValue? || s.procs[p].Free?
    ensures Wrap(Step(s, p)) == StepWrapped(Wrap(s), p)
  {
    hide CellOf;
    var pc := s.procs[p];
    var i := Slot(s, pc.pos);
    WrapSlot(s, pc.pos);
    PlusWraps(pc.pos, 1);
    PlusWraps(pc.pos, |s.cells|);
    var s' := Step(s, p);
    WrapGoto(s, p, s'.procs[p]);
    WrapStore(Goto(s, p, s'.procs[p]), i, s'.cells[i]);
    if pc.ReadValue? { assert s.cells[i := s.cells[i]] == s.cells; }
  }

  /** While no stale position lags too far, a 32-bit step does what the unbounded step does. */
  lemma StepAgrees(c: Config, s: State, p: nat)
    requires Inv(c, s) && DividesWord(c.capacity) && Enabled(s, p) && Fresh(s, s.procs[p])
    ensures Wrap(Step(s, p)) == StepWrapped(Wrap(s), p)
  {
    var pc := s.procs[p];
    if pc.EnqSeq? {
      EnqSeqAgrees(c, s, p);
    } else if pc.DeqSeq? {
      DeqSeqAgrees(c, s, p);
    } else if pc.CasTail? || pc.CasHead? {
      ExchangeAgrees(c, s, p);
    } else if pc.WriteValue? || pc.Publish? || pc.ReadValue? || pc.Free? {
      StoreAgrees(c, s, p);
    } else {
      WrapGoto(s, p, Step(s, p).procs[p]);
    }
  }

  lemma WrapKeepsEnabled(s: State, p: nat)
    ensures Enabled(Wrap(s), p) == Enabled(s, p)
    ensures p < |s.procs| ==> Done(Wrap(s).procs[p]) == Done(s.procs[p])
  {
  }

  lemma EffectAgrees(c: Config, s: State, e: Event)
    requires Inv(c, s) && DividesWord(c.capacity) && Timely(s, e, 0x8000_0000 - |s.cells|)
    ensures Wrap(Effect(s, e, StepOrStay(s, e.p)))
            == Effect(Wrap(s), e, StepOrStayWrapped(Wrap(s), e.p))
  {
    hide Inv, Wrap;
    WrapKeepsEnabled(s, e.p);
    WrapFields(s);
    if e.Advance? {
      if Enabled(s, e.p) { StepAgrees(c, s, e.p); }
    } else if e.p < |s.procs| {
      WrapGoto(s, e.p, Effect(s, e, s).procs[e.p]);
      assert s.procs[e.p := s.procs[e.p]] == s.procs;
      WrapGoto(s, e.p, s.procs[e.p]);
    }
  }

  lemma WrapFields(s: State)
    ensures var w := Wrap(s);
            && |w.procs| == |s.procs| && w.tail == s.tail % W32 && w.head == s.head % W32
            && forall p :: 0 <= p < |s.procs| ==> w.procs[p] == WrapPc(s.procs[p])
  {
  }

  /** If the event is a thread's, no more than `lag` tickets were issued since it read its position. */
  predicate Timely(s: State, e: Event, lag: int) {
    e.p < |s.procs| ==> Lag(s, s.procs[e.p]) <= lag
  }

  predicate MovesWithin(c: Config, events: seq<Event>, lag: int) {
    forall k :: 0 <= k < |events| ==> Timely(Execute(c, events[..k]), events[k], lag)
  }

  lemma MovesWithinLess(c: Config, events: seq<Event>, lag: int)
    requires events != [] && MovesWithin(c, events, lag)
    ensures MovesWithin(c, events[..|events| - 1], lag)
  {
    hide Execute, Timely;
    var before := events[..|events| - 1];
    forall k | 0 <= k < |before| ensures Timely(Execute(c, before[..k]), before[k], lag) {
      assert before[..k] == events[..k];
    }
  }

  lemma MovesWithinMore(c: Config, before: seq<Event>, e: Event, less: int, lag: int)
    requires MovesWithin(c, before, less) && less <= lag && Timely(Execute(c, before), e, lag)
    ensures MovesWithin(c, before + [e], lag)
  {
    hide Execute;
    var events := before + [e];
    assert events[..|before|] == before;
    forall k | 0 <= k < |events| ensures Timely(Execute(c, events[..k]), events[k], lag) {
      if k < |before| { assert events[..k] == before[..k]; }
    }
  }

  /** Whatever the schedule and however long it is: as long as no thread moves while it holds a
      position more than 2^31 - capacity tickets old, the 32-bit ring goes through exactly the
      wrapped states of the unbounded ring, so everything proved of that ring holds of it. */
  lemma {:induction false} WrappedRingAgrees(c: Config, events: seq<Event>)
    requires Config?(c) && DividesWord(c.capacity)
    requires MovesWithin(c, events, 0x8000_0000 - c.capacity)
    ensures ExecuteWrapped(c, events) == Wrap(Execute(c, events))
    ensures Inv(c, Execute(c, events))
  {
    ExecuteKeepsInv(c, events);
    if events != [] {
      var k := |events| - 1;
      var before := events[..k];
      MovesWithinLess(c, events, 0x8000_0000 - c.capacity);
      WrappedRingAgrees(c, before);
      CellsKept(c, before);
      hide Inv, Wrap, Effect, StepOrStay, StepOrStayWrapped, MovesWithin;
      EffectAgrees(c, Execute(c, before), events[k]);
    }
  }

  lemma CellsKept(c: Config, events: seq<Event>)
    requires Config?(c)
    ensures |Execute(c, events).cells| == c.capacity
  {
    ExecuteKeepsInv(c, events);
  }

  // ---------------------------------------------------------------- one ticket more

  /** The state is reached by a schedule in which nobody moves with an old position. */
  ghost predicate Reached(c: Config, s: State) {
    exists events: seq<Event> :: Execute(c, events) == s && MovesWithin(c, events, 0)
  }

  lemma ReachedNext(c: Config, s: State, e: Event, s': State)
    requires Reached(c, s) && Timely(s, e, 0)
    requires s' == Effect(s, e, StepOrStay(s, e.p))
    ensures Reached(c, s')
  {
    hide Effect, StepOrStay, Timely, MovesWithin;
    var before: seq<Event> :| Execute(c, before) == s && MovesWithin(c, before, 0);
    MovesWithinMore(c, before, e, 0, 0);
    assert (before + [e])[..|before|] == before;
    assert Execute(c, before + [e]) == s';
  }

  lemma ReachedStep(c: Config, s: State, p: nat)
    requires Reached(c, s) && Enabled(s, p) && Lag(s, s.procs[p]) <= 0
    ensures Reached(c, Step(s, p))
  {
    hide Lag, Step, Reached;
    ReachedNext(c, s, Advance(p), Step(s, p));
  }

  lemma ReachedInv(c: Config, s: State)
    requires Config?(c) && Reached(c, s)
    ensures Inv(c, s)
  {
    hide Inv, MovesWithin;
    var events: seq<Event> :| Execute(c, events) == s && MovesWithin(c, events, 0);
    ExecuteKeepsInv(c, events);
  }

  /** Thread 0 still holds the position it read first; thread 1 is at pc; nobody else has called. */
  predicate Places(procs: seq<Pc>, pc: Pc) {
    && |procs| >= 2 && procs[0] == EnqSeq(0, 0) && procs[1] == pc
    && forall p :: 2 <= p < |procs| ==> procs[p] == Idle
  }

  /** t tickets have been through the ring, and nothing is in it. */
  ghost predicate Waiting(c: Config, s: State, t: nat, pc: Pc) {
    Reached(c, s) && Places(s.procs, pc) && Done(pc) && s.head == s.tail == t && |s.cells| == c.capacity
  }

  /** In an empty ring that nobody is writing or reading every cell waits for its next ticket. */
  lemma EmptyCell(c: Config, s: State, pos: nat, pc: Pc)
    requires Inv(c, s) && s.head == s.tail <= pos < s.tail + c.capacity
    requires Places(s.procs, pc) && !pc.ReadValue? && !pc.Free?
    ensures s.cells[Slot(s, pos)].sequence == pos
  {
    hide CellOf;
    var i := Slot(s, pos);
    assert CellOk(s, i);
    var t := Ticket(s, i);
    if t < pos { SameCell(t, pos, |s.cells|); }
    if pos < t { SameCell(pos, t, |s.cells|); }
  }

  /** Thread 1 calls try_enqueue and claims the next ticket. */
  lemma ClaimsTicket(c: Config, s: State, t: nat, pc: Pc) returns (s': State)
    requires Config?(c) && Waiting(c, s, t, pc)
    ensures Reached(c, s') && Places(s'.procs, WriteValue(t, 0))
    ensures s'.tail == t + 1 && s'.head == t && s'.cells == s.cells
    ensures |s.cells| == c.capacity && s.cells[Slot(s, t)].sequence == t
  {
    hide CellOf, Inv, Reached;
    ReachedInv(c, s);
    EmptyCell(c, s, t, pc);
    var s1 := Goto(s, 1, LoadTail(0));
    ReachedNext(c, s, CallEnqueue(1, 0), s1);
    var s2 := Step(s1, 1);
    ReachedStep(c, s1, 1);
    var s3 := Step(s2, 1);
    ReachedStep(c, s2, 1);
    s' := Step(s3, 1);
    ReachedStep(c, s3, 1);
  }

  /** It stores its item and publishes it. */
  lemma PublishesTicket(c: Config, s: State, t: nat) returns (s': State)
    requires Reached(c, s) && Places(s.procs, WriteValue(t, 0)) && |s.cells| == c.capacity >= 2
    requires s.tail == t + 1 && s.head == t
    ensures Reached(c, s') && Places(s'.procs, Enqueued) && s'.tail == t + 1 && s'.head == t
    ensures |s'.cells| == c.capacity && s'.cells[Slot(s', t)].sequence == t + 1
  {
    hide CellOf, Reached;
    var s1 := Step(s, 1);
    ReachedStep(c, s, 1);
    s' := Step(s1, 1);
    ReachedStep(c, s1, 1);
  }

  /** It calls try_dequeue and takes it out again. */
  lemma TakesTicket(c: Config, s: State, t: nat) returns (s': State)
    requires Reached(c, s) && Places(s.procs, Enqueued) && |s.cells| == c.capacity >= 2
    requires s.tail == t + 1 && s.head == t && s.cells[Slot(s, t)].sequence == t + 1
    ensures Reached(c, s') && Places(s'.procs, ReadValue(t)) && s'.tail == t + 1 == s'.head && s'.cells == s.cells
  {
    hide CellOf, Reached;
    var s1 := Goto(s, 1, LoadHead);
    ReachedNext(c, s, CallDequeue(1), s1);
    var s2 := Step(s1, 1);
    ReachedStep(c, s1, 1);
    var s3 := Step(s2, 1);
    ReachedStep(c, s2, 1);
    s' := Step(s3, 1);
    ReachedStep(c, s3, 1);
  }

  lemma FreesTicket(c: Config, s: State, t: nat) returns (s': State, v: int)
    requires Reached(c, s) && Places(s.procs, ReadValue(t)) && |s.cells| == c.capacity >= 2
    requires s.tail == t + 1 == s.head
    ensures Waiting(c, s', t + 1, Dequeued(t, v))
  {
    hide CellOf, Reached;
    var s1 := Step(s, 1);
    ReachedStep(c, s, 1);
    v := s1.procs[1].v;
    s' := Step(s1, 1);
    ReachedStep(c, s1, 1);
  }

  /** Thread 0 reads the tail and stops; thread 1 enqueues and dequeues t elements. */
  lemma {:induction false} TicketsPass(c: Config, t: nat) returns (s: State, pc: Pc)
    requires Config?(c) && c.threads >= 2
    ensures Waiting(c, s, t, pc)
  {
    hide Reached;
    if t == 0 {
      s := Stops(c);
      pc := Idle;
    } else {
      var s0, pc0 := TicketsPass(c, t - 1);
      var s1 := ClaimsTicket(c, s0, t - 1, pc0);
      var s2 := PublishesTicket(c, s1, t - 1);
      var s3 := TakesTicket(c, s2, t - 1);
      var v;
      s, v := FreesTicket(c, s3, t - 1);
      pc := Dequeued(t - 1, v);
    }
  }

  lemma Stops(c: Config) returns (s: State)
    requires Config?(c) && c.threads >= 2
    ensures Waiting(c, s, 0, Idle)
  {
    assert Execute(c, []) == Init(c);
    assert Reached(c, Init(c));
    var s1 := Goto(Init(c), 0, LoadTail(0));
    ReachedNext(c, Init(c), CallEnqueue(0, 0), s1);
    s := Step(s1, 0);
    ReachedStep(c, s1, 0);
  }

  lemma FirstCell(c: Config)
    requires DividesWord(c.capacity)
    ensures CellOf(0x8000_0000, c.capacity) == CellOf(0, c.capacity) == 0 && c.capacity <= 0x8000_0000
  {
    var q := 0x8000_0000 / c.capacity;
    assert c.capacity * q == 0x8000_0000;
    NotPositive(c.capacity, q);
    AtLeastOnce(c.capacity, q);
    ModUnique(0x8000_0000, c.capacity, q, 0);
    ModUnique(0, c.capacity, 0, 0);
  }

  /** One ticket beyond the bound the ring is empty, and thread 0's next step differs: the
      unbounded ring goes on, and the 32-bit ring reports it full. */
  lemma FalselyFull(c: Config, s: State, pc: Pc)
    requires Config?(c) && DividesWord(c.capacity) && Waiting(c, s, 0x8000_0000 - c.capacity + 1, pc)
    ensures Enabled(s, 0) && Enabled(Wrap(s), 0)
    ensures Step(s, 0).procs[0].LoadTail? && StepWrapped(Wrap(s), 0).procs[0].Full?
    ensures Step(s, 0).head == Step(s, 0).tail
  {
    hide CellOf, Inv, Wrap, Reached;
    ReachedInv(c, s);
    FirstCell(c);
    EmptyCell(c, s, 0x8000_0000, pc);
    DifferenceExact(0x8000_0000, 0);
    WrapSlot(s, 0);
    WrapFields(s);
  }

  /** The schedule: thread 0 holds position 0 while 2^31 - capacity + 1 tickets pass, and then moves. */
  lemma OneBeyondDiffers(c: Config) returns (events: seq<Event>)
    requires Config?(c) && DividesWord(c.capacity) && c.threads >= 2
    ensures MovesWithin(c, events, 0x8000_0000 - c.capacity + 1)
    ensures Execute(c, events).procs != [] && Execute(c, events).procs[0].LoadTail?
    ensures Execute(c, events).head == Execute(c, events).tail
    ensures ExecuteWrapped(c, events).procs != [] && ExecuteWrapped(c, events).procs[0].Full?
  {
    var lag := 0x8000_0000 - c.capacity + 1;
    FirstCell(c);
    var s, pc := TicketsPass(c, lag);
    FalselyFull(c, s, pc);
    var before: seq<Event> :| Execute(c, before) == s && MovesWithin(c, before, 0);
    hide Step, StepWrapped, Wrap, Inv, Reached, MovesWithin;
    MovesWithinMost(c, before, 0, 0x8000_0000 - c.capacity);
    WrappedRingAgrees(c, before);
    MovesWithinMore(c, before, Advance(0), 0, lag);
    events := before + [Advance(0)];
    assert events[..|before|] == before;
  }

  lemma MovesWithinMost(c: Config, events: seq<Event>, less: int, lag: int)
    requires MovesWithin(c, events, less) && less <= lag
    ensures MovesWithin(c, events, lag)
  {
    hide Execute;
  }

  /** A thread's own steps do not make its position older. */
  lemma OwnStep(s: State, p: nat)
    requires Enabled(s, p) && Lag(s, s.procs[p]) <= 0
    ensures |Step(s, p).procs| == |s.procs| && Lag(Step(s, p), Step(s, p).procs[p]) <= 0
  {
    hide CellOf;
  }

  lemma OwnEffect(s: State, e: Event)
    requires |s.procs| < 2 && forall p :: 0 <= p < |s.procs| ==> Lag(s, s.procs[p]) <= 0
    ensures var s' := Effect(s, e, StepOrStay(s, e.p));
            |s'.procs| == |s.procs| && forall p :: 0 <= p < |s'.procs| ==> Lag(s', s'.procs[p]) <= 0
  {
    hide Step;
    if Enabled(s, e.p) { OwnStep(s, e.p); }
  }

  /** Without a second thread no ticket is issued while a position is held. */
  lemma {:induction false} AloneNoLag(c: Config, events: seq<Event>)
    requires Config?(c) && c.threads < 2
    ensures var s := Execute(c, events);
            |s.procs| == c.threads && forall p :: 0 <= p < |s.procs| ==> Lag(s, s.procs[p]) <= 0
  {
    if events != [] {
      hide Effect, StepOrStay, Lag;
      AloneNoLag(c, events[..|events| - 1]);
      OwnEffect(Execute(c, events[..|events| - 1]), events[|events| - 1]);
    }
  }

  ghost predicate AgreesWithin(c: Config, lag: int) {
    forall events: seq<Event> :: MovesWithin(c, events, lag) ==> ExecuteWrapped(c, events) == Wrap(Execute(c, events))
  }

  /** The bound is exact: of all schedules in which nobody moves with a position more than `lag`
      tickets old, the 32-bit ring follows every one if and only if lag is at most 2^31 - capacity,
      or a thread is alone. */
  lemma AgreesIffWithin(c: Config, lag: int)
    requires Config?(c) && DividesWord(c.capacity)
    ensures AgreesWithin(c, lag) <==> lag <= 0x8000_0000 - c.capacity || c.threads < 2
  {
    if lag <= 0x8000_0000 - c.capacity || c.threads < 2 {
      forall events: seq<Event> | MovesWithin(c, events, lag)
        ensures ExecuteWrapped(c, events) == Wrap(Execute(c, events))
      {
        FirstCell(c);
        if c.threads < 2 {
          forall k | 0 <= k < |events| ensures Timely(Execute(c, events[..k]), events[k], 0x8000_0000 - c.capacity) {
            AloneNoLag(c, events[..k]);
          }
        } else {
          MovesWithinMost(c, events, lag, 0x8000_0000 - c.capacity);
        }
        WrappedRingAgrees(c, events);
      }
    } else {
      var events := OneBeyondDiffers(c);
      WrapFields(Execute(c, events));
      MovesWithinMost(c, events, 0x8000_0000 - c.capacity + 1, lag);
    }
  }
}
