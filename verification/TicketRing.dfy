/** The multi-producer multi-consumer ring of `mpmc::queue`: every position is a ticket, and
    a cell's sequence number says which ticket it serves and whether it is full.

    Any number of producers and consumers; one atomic access (or one access to a cell's value)
    per step. Tickets are unbounded here; TicketWrap relates them to the code's 32 bits. */
module TicketRing {
  import opened RingCells

  datatype Cell = Cell(sequence: nat, value: int)

  datatype Pc =
    | Idle
    | LoadTail(v: int) | EnqSeq(pos: nat, v: int) | CasTail(pos: nat, v: int)
    | WriteValue(pos: nat, v: int) | Publish(pos: nat)
    | LoadHead | DeqSeq(pos: nat) | CasHead(pos: nat) | ReadValue(pos: nat) | Free(pos: nat, v: int)
    // results
    | Enqueued | Full | Dequeued(pos: nat, v: int) | Empty

  /** `items` (the value enqueued under each ticket), `writers` and `readers` (who claimed it)
      are history. */
  datatype State = State(
    cells: seq<Cell>, tail: nat, head: nat, procs: seq<Pc>,
    items: seq<int>, writers: seq<nat>, readers: seq<nat>)

  datatype Config = Config(capacity: nat, threads: nat)

  predicate Config?(c: Config) { c.capacity >= 2 }

  function Init(c: Config): State {
    State(seq(c.capacity, (i: int) requires 0 <= i => Cell(i, 0)), 0, 0, seq(c.threads, _ => Idle), [], [], [])
  }

  /** The cell of a ticket. */
  function Slot(s: State, pos: nat): (i: nat)
    requires |s.cells| > 0
    ensures i < |s.cells|
  {
    CellOf(pos, |s.cells|)
  }

  predicate Done(pc: Pc) { pc.Idle? || pc.Enqueued? || pc.Full? || pc.Dequeued? || pc.Empty? }

  predicate Enabled(s: State, p: nat) {
    p < |s.procs| && !Done(s.procs[p]) && |s.cells| > 0
  }

  function Goto(s: State, p: nat, pc: Pc): State
    requires p < |s.procs|
  {
    s.(procs := s.procs[p := pc])
  }

  /** try_enqueue. */
  function StepEnq(s: State, p: nat): State
    requires Enabled(s, p)
  {
    match s.procs[p]
    case LoadTail(v) => Goto(s, p, EnqSeq(s.tail, v))
    case EnqSeq(pos, v) =>
      var dif := s.cells[Slot(s, pos)].sequence - pos;
      Goto(s, p, if dif == 0 then CasTail(pos, v) else if dif < 0 then Full else LoadTail(v))
    case CasTail(pos, v) =>
      if s.tail == pos then
        Goto(s, p, WriteValue(pos, v))
          .(tail := pos + 1, items := s.items + [v], writers := s.writers + [p])
      else Goto(s, p, EnqSeq(s.tail, v))
    case WriteValue(pos, v) =>
      Goto(s, p, Publish(pos)).(cells := s.cells[Slot(s, pos) := s.cells[Slot(s, pos)].(value := v)])
    case Publish(pos) =>
      Goto(s, p, Enqueued).(cells := s.cells[Slot(s, pos) := s.cells[Slot(s, pos)].(sequence := pos + 1)])
    case _ => s
  }

  /** try_dequeue. */
  function StepDeq(s: State, p: nat): State
    requires Enabled(s, p)
  {
    match s.procs[p]
    case LoadHead => Goto(s, p, DeqSeq(s.head))
    case DeqSeq(pos) =>
      var dif := s.cells[Slot(s, pos)].sequence - (pos + 1);
      Goto(s, p, if dif == 0 then CasHead(pos) else if dif < 0 then Empty else LoadHead)
    case CasHead(pos) =>
      if s.head == pos then Goto(s, p, ReadValue(pos)).(head := pos + 1, readers := s.readers + [p])
      else Goto(s, p, DeqSeq(s.head))
    case ReadValue(pos) => Goto(s, p, Free(pos, s.cells[Slot(s, pos)].value))
    case Free(pos, v) =>
      Goto(s, p, Dequeued(pos, v))
        .(cells := s.cells[Slot(s, pos) := s.cells[Slot(s, pos)].(sequence := pos + |s.cells|)])
    case _ => s
  }

  predicate EnqStep?(pc: Pc) {
    pc.LoadTail? || pc.EnqSeq? || pc.CasTail? || pc.WriteValue? || pc.Publish?
  }

  function Step(s: State, p: nat): State
    requires Enabled(s, p)
  {
    if EnqStep?(s.procs[p]) then StepEnq(s, p) else StepDeq(s, p)
  }

  /** compare_exchange_weak fails although the value matched; the thread goes round its loop. */
  predicate Spurious(s: State, p: nat, s': State) {
    && Enabled(s, p)
    && match s.procs[p]
       case CasTail(_, v) => s' == Goto(s, p, EnqSeq(s.tail, v))
       case CasHead(_) => s' == Goto(s, p, DeqSeq(s.head))
       case _ => false
  }

  /** A thread moves, or one that has finished calls try_enqueue(v) or try_dequeue. */
  predicate Moves(s: State, p: nat, v: int, s': State) {
    || (Enabled(s, p) && s' == Step(s, p))
    || Spurious(s, p, s')
    || (p < |s.procs| && Done(s.procs[p]) && s' == Goto(s, p, LoadTail(v)))
    || (p < |s.procs| && Done(s.procs[p]) && s' == Goto(s, p, LoadHead))
  }

  ghost predicate Next(s: State, s': State) {
    exists p: nat, v: int :: Moves(s, p, v, s')
  }

  ghost predicate IsRun(c: Config, run: seq<State>) {
    && |run| > 0
    && run[0] == Init(c)
    && forall i :: 0 < i < |run| ==> Next(run[i - 1], run[i])
  }

  // ---------------------------------------------------------------- the invariant

  predicate Sized(s: State) {
    && |s.cells| >= 2
    && s.head <= s.tail == |s.items| == |s.writers|
    && |s.readers| == s.head
  }

  /** The cell is full: its sequence number is one past a ticket of this cell. */
  predicate IsFull(s: State, i: nat)
    requires i < |s.cells|
  {
    CellOf(s.cells[i].sequence, |s.cells|) != i
  }

  /** The ticket a cell serves. */
  function Ticket(s: State, i: nat): int
    requires i < |s.cells|
  {
    if IsFull(s, i) then s.cells[i].sequence - 1 else s.cells[i].sequence
  }

  predicate Writing(pc: Pc, t: int) { (pc.WriteValue? || pc.Publish?) && pc.pos == t }
  predicate Reading(pc: Pc, t: int) { (pc.ReadValue? || pc.Free?) && pc.pos == t }

  /** Thread p is the one that claimed ticket t for writing and has not published it. */
  predicate AtWrite(s: State, t: int)
    requires Sized(s) && 0 <= t < s.tail
  {
    s.writers[t] < |s.procs| && Writing(s.procs[s.writers[t]], t)
  }

  predicate AtRead(s: State, t: int)
    requires Sized(s) && 0 <= t < s.head
  {
    s.readers[t] < |s.procs| && Reading(s.procs[s.readers[t]], t)
  }

  /** A cell serves a ticket within one capacity of head and tail. While it is empty, that ticket
      is not dequeued, and if it is claimed its writer is at work; once it is full, the ticket is
      claimed, the value is the ticket's item, and if it is dequeued its reader is at work. */
  predicate CellOk(s: State, i: nat)
    requires Sized(s) && i < |s.cells|
  {
    var t := Ticket(s, i);
    && 0 <= t && CellOf(t, |s.cells|) == i
    && t < s.head + |s.cells| && s.tail <= t + |s.cells|
    && (if IsFull(s, i) then
          t < s.tail && (s.cells[i].value == s.items[t]) && (t < s.head ==> AtRead(s, t))
        else
          s.head <= t && (t < s.tail ==> AtWrite(s, t)))
  }

  predicate Fact(s: State, p: nat, pc: Pc)
    requires Sized(s)
  {
    match pc
    case EnqSeq(pos, _) => pos <= s.tail
    case CasTail(pos, _) => pos <= s.tail && pos <= s.cells[Slot(s, pos)].sequence
    case WriteValue(pos, v) => pos < s.tail && s.writers[pos] == p && s.items[pos] == v
                               && s.cells[Slot(s, pos)].sequence == pos
    case Publish(pos) => pos < s.tail && s.writers[pos] == p && s.cells[Slot(s, pos)] == Cell(pos, s.items[pos])
    case DeqSeq(pos) => pos <= s.head
    case CasHead(pos) => pos <= s.head && pos + 1 <= s.cells[Slot(s, pos)].sequence
    case ReadValue(pos) => pos < s.head && s.readers[pos] == p && s.cells[Slot(s, pos)] == Cell(pos + 1, s.items[pos])
    case Free(pos, v) => pos < s.head && s.readers[pos] == p && s.cells[Slot(s, pos)].sequence == pos + 1
                         && v == s.items[pos]
    case Dequeued(pos, v) => pos < s.head && s.readers[pos] == p && v == s.items[pos]
    case _ => true
  }

  predicate Inv(c: Config, s: State) {
    && Sized(s) && |s.cells| == c.capacity && |s.procs| == c.threads
    && (forall i :: 0 <= i < |s.cells| ==> CellOk(s, i))
    && (forall p :: 0 <= p < |s.procs| ==> Fact(s, p, s.procs[p]))
  }

  // ---------------------------------------------------------------- tickets and cells

  /** What the sequence number of ticket pos's cell says about pos. */
  lemma Reads(s: State, pos: nat)
    requires Sized(s) && CellOk(s, Slot(s, pos))
    ensures var i := Slot(s, pos); var q := s.cells[i].sequence;
            && (q == pos ==> !IsFull(s, i) && Ticket(s, i) == pos)
            && (q == pos + 1 ==> IsFull(s, i) && Ticket(s, i) == pos)
            && (q < pos ==> Ticket(s, i) + |s.cells| <= pos)
            && (q > pos + 1 ==> Ticket(s, i) >= pos + |s.cells|)
  {
    hide CellOf;
    var t := Ticket(s, Slot(s, pos));
    NextCell(pos, |s.cells|);
    if t < pos { SameCell(t, pos, |s.cells|); }
    if pos < t { SameCell(pos, t, |s.cells|); }
  }

  // ---------------------------------------------------------------- every step keeps it

  /** A step that only moves one thread keeps the cells' invariant, unless that thread was
      the writer or reader a cell waits for. */
  lemma PlainStep(c: Config, s: State, p: nat, pc: Pc)
    requires Inv(c, s) && p < |s.procs| && Fact(s, p, pc)
    requires forall t: int :: !Writing(s.procs[p], t) && !Reading(s.procs[p], t)
    ensures Inv(c, Goto(s, p, pc))
  {
    hide CellOf;
    var s' := Goto(s, p, pc);
    forall i | 0 <= i < |s.cells| ensures CellOk(s', i) {
      assert CellOk(s, i);
    }
  }

  lemma CasTailStep(c: Config, s: State, p: nat)
    requires Inv(c, s) && Enabled(s, p) && s.procs[p].CasTail? && s.tail == s.procs[p].pos
    ensures Inv(c, Step(s, p))
  {
    hide CellOf;
    var pos := s.procs[p].pos;
    var s' := Step(s, p);
    var j := Slot(s, pos);
    Reads(s, pos);
    assert CellOk(s, j);
    forall i | 0 <= i < |s.cells| ensures CellOk(s', i) {
      assert CellOk(s, i);
      NextCell(Ticket(s, i), |s.cells|);
    }
  }

  lemma WriteValueStep(c: Config, s: State, p: nat)
    requires Inv(c, s) && Enabled(s, p) && s.procs[p].WriteValue?
    ensures Inv(c, Step(s, p))
  {
    hide CellOf;
    var pos := s.procs[p].pos;
    var s' := Step(s, p);
    Reads(s, pos);
    forall i | 0 <= i < |s.cells| ensures CellOk(s', i) {
      assert CellOk(s, i);
    }
    forall q | 0 <= q < |s.procs| && q != p ensures Fact(s', q, s'.procs[q]) {
      assert Fact(s, q, s.procs[q]);
      NextCellOf(s.procs[q], |s.cells|);
    }
  }

  lemma NextCellOf(pc: Pc, m: nat)
    requires m >= 2
    ensures pc.ReadValue? || pc.Free? || pc.WriteValue? || pc.Publish? ==>
              CellOf(pc.pos + 1, m) != CellOf(pc.pos, m)
  {
    if pc.ReadValue? || pc.Free? || pc.WriteValue? || pc.Publish? { NextCell(pc.pos, m); }
  }

  lemma PublishStep(c: Config, s: State, p: nat)
    requires Inv(c, s) && Enabled(s, p) && s.procs[p].Publish?
    ensures Inv(c, Step(s, p))
  {
    hide CellOf;
    var pos := s.procs[p].pos;
    var s' := Step(s, p);
    Reads(s, pos);
    NextCell(pos, |s.cells|);
    forall i | 0 <= i < |s.cells| ensures CellOk(s', i) {
      assert CellOk(s, i);
    }
    forall q | 0 <= q < |s.procs| && q != p ensures Fact(s', q, s'.procs[q]) {
      assert Fact(s, q, s.procs[q]);
      NextCellOf(s.procs[q], |s.cells|);
    }
  }

  lemma CasHeadStep(c: Config, s: State, p: nat)
    requires Inv(c, s) && Enabled(s, p) && s.procs[p].CasHead? && s.head == s.procs[p].pos
    ensures Inv(c, Step(s, p))
  {
    hide CellOf;
    var pos := s.procs[p].pos;
    var s' := Step(s, p);
    var j := Slot(s, pos);
    Reads(s, pos);
    assert CellOk(s, j);
    forall i | 0 <= i < |s.cells| ensures CellOk(s', i) {
      assert CellOk(s, i);
    }
  }

  lemma ReadValueStep(c: Config, s: State, p: nat)
    requires Inv(c, s) && Enabled(s, p) && s.procs[p].ReadValue?
    ensures Inv(c, Step(s, p))
  {
    hide CellOf;
    var s' := Step(s, p);
    forall i | 0 <= i < |s.cells| ensures CellOk(s', i) {
      assert CellOk(s, i);
    }
  }

  lemma FreeStep(c: Config, s: State, p: nat)
    requires Inv(c, s) && Enabled(s, p) && s.procs[p].Free?
    ensures Inv(c, Step(s, p))
  {
    hide CellOf;
    var pos := s.procs[p].pos;
    var s' := Step(s, p);
    Reads(s, pos);
    NextCell(pos, |s.cells|);
    forall i | 0 <= i < |s.cells| ensures CellOk(s', i) {
      assert CellOk(s, i);
    }
    forall q | 0 <= q < |s.procs| && q != p ensures Fact(s', q, s'.procs[q]) {
      assert Fact(s, q, s.procs[q]);
      NextCellOf(s.procs[q], |s.cells|);
    }
  }

  lemma MovesKeepsInv(c: Config, s: State, p: nat, v: int, s': State)
    requires Inv(c, s) && Moves(s, p, v, s')
    ensures Inv(c, s')
  {
    var pc := s.procs[p];
    var pc' := s'.procs[p];
    if !Enabled(s, p) || s' != Step(s, p) {
      PlainStep(c, s, p, pc');
    } else if pc.CasTail? && s.tail == pc.pos {
      CasTailStep(c, s, p);
    } else if pc.CasHead? && s.head == pc.pos {
      CasHeadStep(c, s, p);
    } else if pc.WriteValue? {
      WriteValueStep(c, s, p);
    } else if pc.Publish? {
      PublishStep(c, s, p);
    } else if pc.ReadValue? {
      ReadValueStep(c, s, p);
    } else if pc.Free? {
      FreeStep(c, s, p);
    } else {
      PlainStep(c, s, p, pc');
    }
  }

  lemma InitInv(c: Config)
    requires Config?(c)
    ensures Inv(c, Init(c))
  {
    var s := Init(c);
    forall i | 0 <= i < |s.cells| ensures CellOk(s, i) {
      ModUnique(i, c.capacity, 0, i);
    }
  }

  lemma {:induction false} RunInv(c: Config, run: seq<State>)
    requires Config?(c) && IsRun(c, run)
    ensures forall i :: 0 <= i < |run| ==> Inv(c, run[i])
  {
    hide Inv, Moves, Init;
    if |run| == 1 {
      InitInv(c);
    } else {
      var before := run[..|run| - 1];
      RunInv(c, before);
      assert Inv(c, before[|run| - 2]);
      assert Next(run[|run| - 2], run[|run| - 1]);
      var p: nat, v: int :| Moves(run[|run| - 2], p, v, run[|run| - 1]);
      MovesKeepsInv(c, run[|run| - 2], p, v, run[|run| - 1]);
      forall i | 0 <= i < |run| ensures Inv(c, run[i]) {
        if i < |run| - 1 { assert run[i] == before[i]; }
      }
    }
  }

  // ---------------------------------------------------------------- main results

  /** Between head and tail lie at most `capacity` tickets. */
  lemma WithinCapacity(c: Config, s: State)
    requires Inv(c, s)
    ensures s.head <= s.tail <= s.head + c.capacity
  {
    hide CellOf;
    var i := Slot(s, s.head);
    assert CellOk(s, i);
    if s.tail > s.head + c.capacity {
      SameCell(s.head, Ticket(s, i), c.capacity);
    }
  }

  /** Ticket t's item is out of its writer's hands and sits in its cell. */
  predicate Stored(s: State, t: nat)
    requires Sized(s) && t < s.tail
  {
    s.cells[Slot(s, t)] == Cell(t + 1, s.items[t])
  }

  /** The cell of a ticket between head and tail serves that ticket and no other: the item is
      stored there as soon as its writer is done, and stays until it is dequeued. */
  lemma StoredUntilRead(c: Config, s: State, t: nat)
    requires Inv(c, s) && s.head <= t < s.tail
    ensures Stored(s, t) || AtWrite(s, t)
  {
    hide CellOf;
    var i := Slot(s, t);
    assert CellOk(s, i);
    var u := Ticket(s, i);
    if t < u { SameCell(t, u, c.capacity); }
    if u < t { SameCell(u, t, c.capacity); }
  }

  /** The ring is a bounded FIFO by ticket. At every point of every run at most `capacity`
      tickets are outstanding; every outstanding ticket's item is in its cell or in its one
      writer's hands; and whoever dequeued ticket t, or is copying it out, is the one thread that
      claimed t and has exactly the item enqueued under t. */
  lemma BoundedFifo(c: Config, run: seq<State>, k: nat)
    requires Config?(c) && IsRun(c, run) && k < |run|
    ensures var s := run[k];
            && Sized(s) && s.tail <= s.head + c.capacity
            && (forall t: nat :: s.head <= t < s.tail ==> Stored(s, t) || AtWrite(s, t))
            && (forall p :: 0 <= p < |s.procs| && s.procs[p].Dequeued? ==>
                  var t := s.procs[p].pos;
                  t < s.head && s.readers[t] == p && s.procs[p].v == s.items[t])
            && (forall p :: 0 <= p < |s.procs| && s.procs[p].ReadValue? ==>
                  var t := s.procs[p].pos;
                  t < s.head && s.readers[t] == p && Stored(s, t))
  {
    RunInv(c, run);
    var s := run[k];
    WithinCapacity(c, s);
    forall t: nat | s.head <= t < s.tail ensures Stored(s, t) || AtWrite(s, t) {
      StoredUntilRead(c, s, t);
    }
    forall p | 0 <= p < |s.procs| ensures Fact(s, p, s.procs[p]) {}
  }

  /** Nobody writes into a cell while another thread reads it, or two threads write it. */
  lemma NoOverwrite(c: Config, run: seq<State>, k: nat, p: nat, q: nat)
    requires Config?(c) && IsRun(c, run) && k < |run|
    requires p < |run[k].procs| && q < |run[k].procs| && p != q && |run[k].cells| > 0
    requires run[k].procs[p].WriteValue? || run[k].procs[p].Publish?
    requires var pc := run[k].procs[q]; pc.ReadValue? || pc.Free? || pc.WriteValue? || pc.Publish?
    ensures Slot(run[k], run[k].procs[p].pos) != Slot(run[k], run[k].procs[q].pos)
  {
    RunInv(c, run);
    var s := run[k];
    assert Fact(s, p, s.procs[p]) && Fact(s, q, s.procs[q]);
    NextCell(s.procs[q].pos, |s.cells|);
  }

  /** try_enqueue reports full only when the ring is: no ticket has been issued since it read
      tail, and the ticket one capacity back is not dequeued or its reader has yet to free it. */
  lemma FullIsFull(c: Config, run: seq<State>, k: nat, p: nat)
    requires Config?(c) && IsRun(c, run) && k < |run| && Enabled(run[k], p)
    requires run[k].procs[p].EnqSeq? && Step(run[k], p).procs[p].Full?
    ensures var s := run[k]; var t := s.tail - c.capacity;
            && Sized(s) && s.tail == s.procs[p].pos && t >= 0
            && (t < s.head ==> AtRead(s, t))
  {
    hide CellOf;
    RunInv(c, run);
    var s := run[k];
    var pos := s.procs[p].pos;
    assert Fact(s, p, s.procs[p]) && CellOk(s, Slot(s, pos));
    Reads(s, pos);
  }

  /** try_dequeue reports empty only when it is: nothing has been dequeued since it read head,
      and the ticket at head is not issued or its writer has yet to publish it. */
  lemma EmptyIsEmpty(c: Config, run: seq<State>, k: nat, p: nat)
    requires Config?(c) && IsRun(c, run) && k < |run| && Enabled(run[k], p)
    requires run[k].procs[p].DeqSeq? && Step(run[k], p).procs[p].Empty?
    ensures var s := run[k];
            && Sized(s) && s.head == s.procs[p].pos
            && (s.head < s.tail ==> AtWrite(s, s.head))
  {
    hide CellOf;
    RunInv(c, run);
    var s := run[k];
    var pos := s.procs[p].pos;
    assert Fact(s, p, s.procs[p]) && CellOk(s, Slot(s, pos));
    Reads(s, pos);
  }
}
