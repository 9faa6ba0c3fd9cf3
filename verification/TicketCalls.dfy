/** What a call of the multi-producer ring does between its start and its return, whatever the
    other threads do meanwhile, and what it does when nobody disturbs it. */
module TicketCalls {
  import opened RingCells
  import opened TicketRing

  // ---------------------------------------------------------------- false results

  /** The ticket a producer would have to reuse the cell of has not been given back. */
  predicate NoRoom(s: State) {
    && Sized(s) && s.tail >= |s.cells|
    && (s.tail - |s.cells| < s.head ==> AtRead(s, s.tail - |s.cells|))
  }

  /** Nothing is there to take: the head ticket is not issued or its writer has yet to publish it. */
  predicate NothingThere(s: State) {
    && Sized(s)
    && (s.head < s.tail ==> AtWrite(s, s.head))
  }

  /** What the cell of the next ticket says. */
  lemma NextTicketCell(c: Config, s: State)
    requires Inv(c, s)
    ensures var q := s.cells[Slot(s, s.tail)].sequence;
            if NoRoom(s) then q < s.tail else q == s.tail
  {
    hide CellOf;
    var i := Slot(s, s.tail);
    assert CellOk(s, i);
    Reads(s, s.tail);
    WithinCapacity(c, s);
    if s.tail >= c.capacity {
      var t := s.tail - c.capacity;
      NextCell(t, c.capacity);
      if t < s.head && AtRead(s, t) {
        assert Fact(s, s.readers[t], s.procs[s.readers[t]]);
      }
    }
  }

  /** And what the cell of the head ticket says. */
  lemma HeadTicketCell(c: Config, s: State)
    requires Inv(c, s)
    ensures var q := s.cells[Slot(s, s.head)].sequence;
            if NothingThere(s) then q < s.head + 1 else q == s.head + 1
  {
    hide CellOf;
    var i := Slot(s, s.head);
    assert CellOk(s, i);
    Reads(s, s.head);
    WithinCapacity(c, s);
    if s.head < s.tail && AtWrite(s, s.head) {
      assert Fact(s, s.writers[s.head], s.procs[s.writers[s.head]]);
    }
  }

  lemma OthersStay(s: State, q: nat, v: int, s': State, p: nat)
    requires Moves(s, q, v, s') && p < |s.procs| && p != q
    ensures p < |s'.procs| && s'.procs[p] == s.procs[p]
  {
    hide CellOf;
  }

  /** A thread comes to a false result only from the test of a sequence number. */
  lemma ComesFromTest(s: State, v: int, s': State, p: nat)
    requires Moves(s, p, v, s') && p < |s.procs|
    ensures p < |s'.procs|
    ensures s'.procs[p].Full? && !s.procs[p].Full? ==>
              s.procs[p].EnqSeq? && |s.cells| > 0 && s.cells[Slot(s, s.procs[p].pos)].sequence < s.procs[p].pos
    ensures s'.procs[p].Empty? && !s.procs[p].Empty? ==>
              s.procs[p].DeqSeq? && |s.cells| > 0 && s.cells[Slot(s, s.procs[p].pos)].sequence < s.procs[p].pos + 1
  {
    hide CellOf;
  }

  /** Whatever step takes a thread to a false result, at that step it is true: a full ring for
      try_enqueue, an empty one for try_dequeue. */
  lemma FalseIsTrue(c: Config, run: seq<State>, k: nat, p: nat)
    requires Config?(c) && IsRun(c, run) && k + 1 < |run| && p < |run[k].procs|
    ensures p < |run[k + 1].procs|
    ensures run[k + 1].procs[p].Full? && !run[k].procs[p].Full? ==> NoRoom(run[k])
    ensures run[k + 1].procs[p].Empty? && !run[k].procs[p].Empty? ==> NothingThere(run[k])
  {
    hide CellOf, Moves, CellOk;
    RunInv(c, run);
    var s := run[k];
    assert Next(s, run[k + 1]);
    var q: nat, v: int :| Moves(s, q, v, run[k + 1]);
    if q == p { ComesFromTest(s, v, run[k + 1], p); } else { OthersStay(s, q, v, run[k + 1], p); }
    assert Fact(s, p, s.procs[p]);
    StalePosition(c, s, p);
    NextTicketCell(c, s);
    HeadTicketCell(c, s);
  }

  /** A test that fails was made with the current position. */
  lemma StalePosition(c: Config, s: State, p: nat)
    requires Inv(c, s) && p < |s.procs|
    ensures s.procs[p].EnqSeq? && s.cells[Slot(s, s.procs[p].pos)].sequence < s.procs[p].pos ==> s.procs[p].pos == s.tail
    ensures s.procs[p].DeqSeq? && s.cells[Slot(s, s.procs[p].pos)].sequence < s.procs[p].pos + 1 ==> s.procs[p].pos == s.head
  {
    hide CellOf;
    assert Fact(s, p, s.procs[p]);
    if s.procs[p].EnqSeq? || s.procs[p].DeqSeq? {
      Reads(s, s.procs[p].pos);
      assert CellOk(s, Slot(s, s.procs[p].pos));
    }
  }

  // ---------------------------------------------------------------- one call, in any company

  /** Of the tickets from `first` on, p's are: none. */
  predicate NoneOf(owners: seq<nat>, first: nat, p: nat) {
    forall t :: first <= t < |owners| ==> owners[t] != p
  }

  /** Just this one. */
  predicate OnlyOne(owners: seq<nat>, first: nat, p: nat, t: nat) {
    first <= t < |owners| && owners[t] == p && forall u :: first <= u < |owners| && u != t ==> owners[u] != p
  }

  /** How far p's call of try_enqueue(v), made when the tail was `first`, has come. */
  ghost predicate Enqueuing(s: State, p: nat, v: int, first: nat)
    requires Sized(s) && p < |s.procs|
  {
    first <= s.tail &&
    match s.procs[p]
    case LoadTail(w) => w == v && NoneOf(s.writers, first, p)
    case EnqSeq(_, w) => w == v && NoneOf(s.writers, first, p)
    case CasTail(_, w) => w == v && NoneOf(s.writers, first, p)
    case Full => NoneOf(s.writers, first, p)
    case WriteValue(t, w) => w == v && OnlyOne(s.writers, first, p, t) && s.items[t] == v
    case Publish(t) => OnlyOne(s.writers, first, p, t) && s.items[t] == v
    case Enqueued => exists t: nat :: Stores(s, p, v, first, t)
    case _ => false
  }

  predicate Stores(s: State, p: nat, v: int, first: nat, t: nat)
    requires Sized(s)
  {
    OnlyOne(s.writers, first, p, t) && s.items[t] == v && s.cells[Slot(s, t)] == Cell(t + 1, v)
  }

  /** How far p's call of try_dequeue has come. */
  predicate Dequeuing(s: State, p: nat, first: nat)
    requires Sized(s) && p < |s.procs|
  {
    first <= s.head &&
    match s.procs[p]
    case LoadHead => NoneOf(s.readers, first, p)
    case DeqSeq(_) => NoneOf(s.readers, first, p)
    case CasHead(_) => NoneOf(s.readers, first, p)
    case Empty => NoneOf(s.readers, first, p)
    case ReadValue(t) => OnlyOne(s.readers, first, p, t)
    case Free(t, w) => OnlyOne(s.readers, first, p, t) && w == s.items[t]
    case Dequeued(t, w) => OnlyOne(s.readers, first, p, t) && w == s.items[t]
    case _ => false
  }

  /** A step of another thread: p stays where it is, the histories grow, and not by p. */
  predicate Beside(s: State, s': State, p: nat, q: nat) {
    && |s'.procs| == |s.procs| && (p < |s.procs| ==> s'.procs[p] == s.procs[p])
    && s.items <= s'.items && s.head <= s'.head && s.tail <= s'.tail
    && (s'.writers == s.writers || s'.writers == s.writers + [q])
    && (s'.readers == s.readers || s'.readers == s.readers + [q])
  }

  lemma StepsBeside(s: State, q: nat, w: int, s': State, p: nat)
    requires Moves(s, q, w, s') && q != p
    ensures Beside(s, s', p, q)
  {
    hide CellOf;
  }

  lemma EnqueuingOther(s: State, q: nat, w: int, s': State, p: nat, v: int, first: nat)
    requires Sized(s) && Sized(s') && Moves(s, q, w, s') && p < |s.procs| && q != p
    requires Enqueuing(s, p, v, first) && !Done(s.procs[p])
    ensures p < |s'.procs| && Enqueuing(s', p, v, first)
  {
    hide Moves;
    StepsBeside(s, q, w, s', p);
  }

  lemma EnqueuingOwn(c: Config, s: State, w: int, s': State, p: nat, v: int, first: nat)
    requires Inv(c, s) && Sized(s') && Moves(s, p, w, s') && p < |s.procs|
    requires Enqueuing(s, p, v, first) && !Done(s.procs[p])
    ensures p < |s'.procs| && Enqueuing(s', p, v, first)
  {
    hide CellOf, CellOk;
    assert Fact(s, p, s.procs[p]);
    if s.procs[p].Publish? && s' == Step(s, p) {
      assert Stores(s', p, v, first, s.procs[p].pos);
    }
  }

  lemma DequeuingOther(s: State, q: nat, w: int, s': State, p: nat, first: nat)
    requires Sized(s) && Sized(s') && Moves(s, q, w, s') && p < |s.procs| && q != p
    requires Dequeuing(s, p, first) && !Done(s.procs[p])
    ensures p < |s'.procs| && Dequeuing(s', p, first)
  {
    hide Moves;
    StepsBeside(s, q, w, s', p);
  }

  lemma DequeuingOwn(c: Config, s: State, w: int, s': State, p: nat, first: nat)
    requires Inv(c, s) && Sized(s') && Moves(s, p, w, s') && p < |s.procs|
    requires Dequeuing(s, p, first) && !Done(s.procs[p])
    ensures p < |s'.procs| && Dequeuing(s', p, first)
  {
    hide CellOf, CellOk;
    assert Fact(s, p, s.procs[p]);
  }

  /** p is in one call from i on, and has not returned from it before j. */
  predicate InCall(run: seq<State>, p: nat, i: nat, j: nat) {
    i <= j < |run| && forall k :: i <= k < j ==> p < |run[k].procs| && !Done(run[k].procs[p])
  }

  lemma {:induction false} EnqueuingRun(c: Config, run: seq<State>, p: nat, v: int, i: nat, j: nat)
    requires Config?(c) && IsRun(c, run) && InCall(run, p, i, j)
    requires p < |run[i].procs| && run[i].procs[p] == LoadTail(v)
    ensures Inv(c, run[i]) && Inv(c, run[j])
    ensures p < |run[j].procs| && Enqueuing(run[j], p, v, run[i].tail)
    decreases j
  {
    hide Moves, Enqueuing, CellOk, Fact;
    RunInv(c, run);
    assert Inv(c, run[i]) && Inv(c, run[j]);
    if i == j {
      Starts(c, run[i], p);
    } else {
      EnqueuingRun(c, run, p, v, i, j - 1);
      assert Next(run[j - 1], run[j]);
      var q: nat, w: int :| Moves(run[j - 1], q, w, run[j]);
      if q == p {
        EnqueuingOwn(c, run[j - 1], w, run[j], p, v, run[i].tail);
      } else {
        EnqueuingOther(run[j - 1], q, w, run[j], p, v, run[i].tail);
      }
    }
  }

  lemma Starts(c: Config, s: State, p: nat)
    requires Inv(c, s) && p < |s.procs|
    ensures s.procs[p].LoadTail? ==> Enqueuing(s, p, s.procs[p].v, s.tail)
    ensures s.procs[p].LoadHead? ==> Dequeuing(s, p, s.head)
  {
  }

  lemma {:induction false} DequeuingRun(c: Config, run: seq<State>, p: nat, i: nat, j: nat)
    requires Config?(c) && IsRun(c, run) && InCall(run, p, i, j)
    requires p < |run[i].procs| && run[i].procs[p] == LoadHead
    ensures Inv(c, run[i]) && Inv(c, run[j])
    ensures p < |run[j].procs| && Dequeuing(run[j], p, run[i].head)
    decreases j
  {
    hide Moves, Dequeuing, CellOk, Fact;
    RunInv(c, run);
    assert Inv(c, run[i]) && Inv(c, run[j]);
    if i == j {
      Starts(c, run[i], p);
    } else {
      DequeuingRun(c, run, p, i, j - 1);
      assert Next(run[j - 1], run[j]);
      var q: nat, w: int :| Moves(run[j - 1], q, w, run[j]);
      if q == p {
        DequeuingOwn(c, run[j - 1], w, run[j], p, run[i].head);
      } else {
        DequeuingOther(run[j - 1], q, w, run[j], p, run[i].head);
      }
    }
  }

  /** A call try_enqueue(v) that returns true has claimed exactly one ticket between its start and
      its return, under which exactly v was enqueued, and v is in that ticket's cell when it returns;
      one that returns false has claimed none. */
  lemma EnqueueOnce(c: Config, run: seq<State>, p: nat, v: int, i: nat, j: nat)
    requires Config?(c) && IsRun(c, run) && InCall(run, p, i, j)
    requires p < |run[i].procs| && run[i].procs[p] == LoadTail(v)
    requires p < |run[j].procs| && Done(run[j].procs[p])
    ensures Sized(run[i]) && Sized(run[j])
    ensures run[j].procs[p].Enqueued? || run[j].procs[p].Full?
    ensures run[j].procs[p].Enqueued? ==> exists t: nat :: Stores(run[j], p, v, run[i].tail, t)
    ensures run[j].procs[p].Full? ==> NoneOf(run[j].writers, run[i].tail, p)
  {
    EnqueuingRun(c, run, p, v, i, j);
  }

  /** A call try_dequeue() that returns a value has claimed exactly one ticket meanwhile, and the
      value is the item enqueued under it; one that returns nothing has claimed none. */
  lemma DequeueOnce(c: Config, run: seq<State>, p: nat, i: nat, j: nat)
    requires Config?(c) && IsRun(c, run) && InCall(run, p, i, j)
    requires p < |run[i].procs| && run[i].procs[p] == LoadHead
    requires p < |run[j].procs| && Done(run[j].procs[p])
    ensures Sized(run[i]) && Sized(run[j])
    ensures match run[j].procs[p]
            case Dequeued(t, v) => OnlyOne(run[j].readers, run[i].head, p, t) && v == run[j].items[t]
            case Empty => NoneOf(run[j].readers, run[i].head, p)
            case _ => false
  {
    DequeuingRun(c, run, p, i, j);
  }

  // ---------------------------------------------------------------- one call alone

  /** n steps of p, as long as its call lasts. */
  function Alone(s: State, p: nat, n: nat): State
    decreases n
  {
    if n == 0 || !Enabled(s, p) then s else Alone(Step(s, p), p, n - 1)
  }

  /** Undisturbed, try_enqueue(v) returns within five steps: false exactly if there is no room, and
      then nothing has changed, and otherwise with v as the newest item and in its cell. */
  lemma EnqueueAlone(c: Config, s: State, p: nat, v: int)
    requires Inv(c, s) && p < |s.procs| && s.procs[p] == LoadTail(v)
    ensures var s' := Alone(s, p, 5);
            && Sized(s') && |s'.procs| == |s.procs|
            && s'.head == s.head && s'.readers == s.readers
            && if NoRoom(s) then
                 s'.procs[p] == Full && s'.items == s.items && s'.cells == s.cells
               else
                 s'.procs[p] == Enqueued && s'.items == s.items + [v] && s'.writers == s.writers + [p]
                 && Stored(s', s.tail)
  {
    hide CellOf, CellOk, Fact;
    NextTicketCell(c, s);
    var s1 := Step(s, p);
    var s2 := Step(s1, p);
    assert Alone(s, p, 5) == Alone(s2, p, 3);
    if !NoRoom(s) {
      var s3 := Step(s2, p);
      var s4 := Step(s3, p);
      var s5 := Step(s4, p);
      assert Alone(s2, p, 3) == Alone(s4, p, 1) == s5;
    }
  }

  /** Undisturbed, try_dequeue returns within five steps: nothing exactly if nothing is there, and
      otherwise the item of the head ticket, whose cell it gives back. */
  lemma DequeueAlone(c: Config, s: State, p: nat)
    requires Inv(c, s) && p < |s.procs| && s.procs[p] == LoadHead
    ensures var s' := Alone(s, p, 5);
            && Sized(s') && |s'.procs| == |s.procs|
            && s'.tail == s.tail && s'.items == s.items && s'.writers == s.writers
            && if NothingThere(s) then
                 s'.procs[p] == Empty && s'.head == s.head && s'.cells == s.cells
               else
                 s.head < s.tail && s'.procs[p] == Dequeued(s.head, s.items[s.head]) && s'.head == s.head + 1
                 && s'.readers == s.readers + [p] && s'.cells[Slot(s, s.head)].sequence == s.head + c.capacity
  {
    hide CellOf, CellOk, Fact;
    HeadTicketCell(c, s);
    var s1 := Step(s, p);
    var s2 := Step(s1, p);
    assert Alone(s, p, 5) == Alone(s2, p, 3);
    if !NothingThere(s) {
      StoredUntilRead(c, s, s.head);
      var s3 := Step(s2, p);
      var s4 := Step(s3, p);
      var s5 := Step(s4, p);
      assert Alone(s2, p, 3) == Alone(s4, p, 1) == s5;
    }
  }
}
