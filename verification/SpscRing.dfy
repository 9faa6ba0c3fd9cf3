/** The single-producer single-consumer ring of `spsc::queue`: each side keeps a stale copy of the
    other's index and refreshes it only when the copy says full or empty.

    One producer and one consumer interleave at every access to the other side's index and to the
    buffer. Indices are kept as running counts; the code stores and compares them modulo the
    capacity. Memory is sequentially consistent. */
module SpscRing {
  import opened RingCells

  datatype Producer = NoEnqueue | Check(v: int) | Refresh(v: int) | Write(v: int) | StoreTail(v: int) | Stored | Full

  datatype Consumer = NoDequeue | CheckTail | RefreshTail | Read | StoreHead(v: int) | Taken(v: int) | Empty

  /** `tailCache` and `headCache` are tail_cache_ and head_cache_; `enqueued` and `dequeued` are history. */
  datatype Ring = Ring(
    buffer: seq<int>, tail: nat, tailCache: nat, head: nat, headCache: nat,
    producer: Producer, consumer: Consumer, enqueued: seq<int>, dequeued: seq<int>)

  function Start(capacity: nat): Ring {
    Ring(seq(capacity, _ => 0), 0, 0, 0, 0, NoEnqueue, NoDequeue, [], [])
  }

  /** try_enqueue. */
  function StepProducer(s: Ring): Ring
    requires |s.buffer| > 0
  {
    var c := |s.buffer|;
    match s.producer
    case Check(v) =>
      s.(producer := if CellOf(s.tail + 1, c) != CellOf(s.headCache, c) then Write(v) else Refresh(v))
    case Refresh(v) =>
      s.(headCache := s.head, producer := if CellOf(s.tail + 1, c) != CellOf(s.head, c) then Write(v) else Full)
    case Write(v) => s.(buffer := s.buffer[CellOf(s.tail, c) := v], producer := StoreTail(v))
    case StoreTail(v) => s.(tail := s.tail + 1, producer := Stored, enqueued := s.enqueued + [v])
    case _ => s
  }

  /** try_dequeue. */
  function StepConsumer(s: Ring): Ring
    requires |s.buffer| > 0
  {
    var c := |s.buffer|;
    match s.consumer
    case CheckTail =>
      s.(consumer := if CellOf(s.head, c) != CellOf(s.tailCache, c) then Read else RefreshTail)
    case RefreshTail =>
      s.(tailCache := s.tail, consumer := if CellOf(s.head, c) != CellOf(s.tail, c) then Read else Empty)
    case Read => s.(consumer := StoreHead(s.buffer[CellOf(s.head, c)]))
    case StoreHead(v) => s.(head := s.head + 1, consumer := Taken(v), dequeued := s.dequeued + [v])
    case _ => s
  }

  predicate Moves(s: Ring, v: int, s': Ring) {
    || (|s.buffer| > 0 && s' == StepProducer(s))
    || (|s.buffer| > 0 && s' == StepConsumer(s))
    || ((s.producer.NoEnqueue? || s.producer.Stored? || s.producer.Full?) && s' == s.(producer := Check(v)))
    || ((s.consumer.NoDequeue? || s.consumer.Taken? || s.consumer.Empty?) && s' == s.(consumer := CheckTail))
  }

  ghost predicate Follows(s: Ring, s': Ring) {
    exists v: int :: Moves(s, v, s')
  }

  ghost predicate IsRingRun(capacity: nat, run: seq<Ring>) {
    && |run| > 0
    && run[0] == Start(capacity)
    && forall i :: 0 < i < |run| ==> Follows(run[i - 1], run[i])
  }

  // ---------------------------------------------------------------- the invariant

  /** The items between head and tail, where they lie in the buffer. */
  predicate Holds(buffer: seq<int>, head: nat, tail: nat, queue: seq<int>)
    requires |buffer| > 0
  {
    && head <= tail && |queue| == tail - head
    && forall k: nat :: head <= k < tail ==> buffer[CellOf(k, |buffer|)] == queue[k - head]
  }

  function Queue(s: Ring): seq<int> {
    if |s.dequeued| <= |s.enqueued| then s.enqueued[|s.dequeued|..] else []
  }

  /** What was enqueued and not dequeued lies in the buffer from head to tail. */
  predicate Contents(buffer: seq<int>, head: nat, tail: nat, enqueued: seq<int>, dequeued: seq<int>)
    requires |buffer| > 0
  {
    && |enqueued| == tail && |dequeued| == head <= tail && dequeued <= enqueued
    && Holds(buffer, head, tail, enqueued[head..])
  }

  /** Each cache lags the index it copies, and tail never comes round to head. */
  ghost predicate RingInv(capacity: nat, s: Ring) {
    && |s.buffer| == capacity > 0
    && s.headCache <= s.head <= s.tailCache <= s.tail < s.headCache + capacity
    && Contents(s.buffer, s.head, s.tail, s.enqueued, s.dequeued)
    && (s.producer.Write? || s.producer.StoreTail? ==> s.tail + 1 < s.headCache + capacity)
    && (s.producer.StoreTail? ==> s.buffer[CellOf(s.tail, capacity)] == s.producer.v)
    && (s.consumer.Read? || s.consumer.StoreHead? ==> s.head < s.tailCache)
    && (s.consumer.StoreHead? ==> s.head < |s.enqueued| && s.consumer.v == s.enqueued[s.head])
  }

  /** Writing the cell at tail leaves the cells of the queue alone. */
  lemma ContentsWrite(buffer: seq<int>, head: nat, tail: nat, enqueued: seq<int>, dequeued: seq<int>, v: int)
    requires |buffer| > 0 && Contents(buffer, head, tail, enqueued, dequeued) && tail < head + |buffer|
    ensures Contents(buffer[CellOf(tail, |buffer|) := v], head, tail, enqueued, dequeued)
  {
    hide CellOf;
    forall k: nat | head <= k < tail
      ensures buffer[CellOf(tail, |buffer|) := v][CellOf(k, |buffer|)] == enqueued[head..][k - head]
    {
      CellsApart(k, tail, |buffer|);
    }
  }

  lemma ContentsAppend(buffer: seq<int>, head: nat, tail: nat, enqueued: seq<int>, dequeued: seq<int>, v: int)
    requires |buffer| > 0 && Contents(buffer, head, tail, enqueued, dequeued)
    requires buffer[CellOf(tail, |buffer|)] == v
    ensures Contents(buffer, head, tail + 1, enqueued + [v], dequeued)
  {
    hide CellOf;
    forall k: nat | head <= k < tail + 1
      ensures buffer[CellOf(k, |buffer|)] == (enqueued + [v])[head..][k - head]
    {
      if k < tail { assert (enqueued + [v])[head..][k - head] == enqueued[head..][k - head]; }
    }
  }

  lemma ContentsTake(buffer: seq<int>, head: nat, tail: nat, enqueued: seq<int>, dequeued: seq<int>, v: int)
    requires |buffer| > 0 && Contents(buffer, head, tail, enqueued, dequeued) && head < tail && enqueued[head] == v
    ensures Contents(buffer, head + 1, tail, enqueued, dequeued + [v])
  {
    hide CellOf;
    forall k: nat | head + 1 <= k < tail
      ensures buffer[CellOf(k, |buffer|)] == enqueued[head + 1..][k - (head + 1)]
    {
      assert enqueued[head + 1..][k - (head + 1)] == enqueued[head..][k - head];
    }
  }

  lemma ContentsFirst(buffer: seq<int>, head: nat, tail: nat, enqueued: seq<int>, dequeued: seq<int>)
    requires |buffer| > 0 && Contents(buffer, head, tail, enqueued, dequeued) && head < tail
    ensures |enqueued| == tail && buffer[CellOf(head, |buffer|)] == enqueued[head]
  {
    assert enqueued[head..][0] == enqueued[head];
  }

  lemma ProducerKeeps(capacity: nat, s: Ring)
    requires RingInv(capacity, s)
    ensures RingInv(capacity, StepProducer(s))
  {
    hide CellOf, Contents;
    CellsApart(s.headCache, s.tail + 1, capacity);
    CellsApart(s.head, s.tail + 1, capacity);
    if s.producer.Write? {
      ContentsWrite(s.buffer, s.head, s.tail, s.enqueued, s.dequeued, s.producer.v);
    } else if s.producer.StoreTail? {
      ContentsAppend(s.buffer, s.head, s.tail, s.enqueued, s.dequeued, s.producer.v);
    }
  }

  lemma ConsumerKeeps(capacity: nat, s: Ring)
    requires RingInv(capacity, s)
    ensures RingInv(capacity, StepConsumer(s))
  {
    hide CellOf, Contents;
    CellsApart(s.head, s.tailCache, capacity);
    CellsApart(s.head, s.tail, capacity);
    if s.consumer.Read? {
      ContentsFirst(s.buffer, s.head, s.tail, s.enqueued, s.dequeued);
    } else if s.consumer.StoreHead? {
      ContentsTake(s.buffer, s.head, s.tail, s.enqueued, s.dequeued, s.consumer.v);
    }
  }

  lemma MoveKeeps(capacity: nat, s: Ring, v: int, s': Ring)
    requires RingInv(capacity, s) && Moves(s, v, s')
    ensures RingInv(capacity, s')
  {
    hide CellOf, Contents, StepProducer, StepConsumer;
    ProducerKeeps(capacity, s);
    ConsumerKeeps(capacity, s);
  }

  lemma {:induction false} RingRunInv(capacity: nat, run: seq<Ring>, k: nat)
    requires capacity > 0 && IsRingRun(capacity, run) && k < |run|
    ensures RingInv(capacity, run[k])
    decreases k
  {
    if k > 0 {
      hide RingInv, Moves;
      RingRunInv(capacity, run, k - 1);
      assert Follows(run[k - 1], run[k]);
      var v: int :| Moves(run[k - 1], v, run[k]);
      MoveKeeps(capacity, run[k - 1], v, run[k]);
    }
  }

  // ---------------------------------------------------------------- main results

  predicate FifoStep(s: Ring, s': Ring) {
    || Queue(s') == Queue(s)
    || (s.producer.StoreTail? && s'.producer.Stored? && Queue(s') == Queue(s) + [s.producer.v])
    || (s.consumer.StoreHead? && s'.consumer.Taken? && Queue(s) == [s'.consumer.v] + Queue(s'))
  }

  lemma Appends(enqueued: seq<int>, head: nat, v: int)
    requires head <= |enqueued|
    ensures (enqueued + [v])[head..] == enqueued[head..] + [v]
  {
  }

  lemma TakesFirst(enqueued: seq<int>, head: nat)
    requires head < |enqueued|
    ensures enqueued[head..] == [enqueued[head]] + enqueued[head + 1..]
  {
  }

  lemma MoveIsFifo(capacity: nat, s: Ring, v: int, s': Ring)
    requires RingInv(capacity, s) && Moves(s, v, s')
    ensures FifoStep(s, s')
  {
    hide CellOf, Holds;
    if s.producer.StoreTail? && s' == StepProducer(s) {
      Appends(s.enqueued, |s.dequeued|, s.producer.v);
    } else if s.consumer.StoreHead? && s' == StepConsumer(s) {
      TakesFirst(s.enqueued, |s.dequeued|);
    } else {
      assert s'.enqueued == s.enqueued && s'.dequeued == s.dequeued;
    }
  }

  /** The ring is one FIFO queue of capacity - 1: at every point of every run the buffer from head
      to tail is the queue, neither cache has passed the index it copies, and every step keeps the
      queue, appends the value of the enqueue that then returns, or returns its first value. */
  lemma RefinesBoundedFifo(capacity: nat, run: seq<Ring>, k: nat)
    requires capacity > 0 && IsRingRun(capacity, run) && k + 1 < |run|
    ensures FifoStep(run[k], run[k + 1])
    ensures var s := run[k];
            && |s.buffer| == capacity && |Queue(s)| <= capacity - 1
            && Holds(s.buffer, s.head, s.tail, Queue(s)) && s.dequeued <= s.enqueued
            && s.headCache <= s.head <= s.tailCache <= s.tail
  {
    hide CellOf, Holds, Moves, FifoStep;
    RingRunInv(capacity, run, k);
    assert Follows(run[k], run[k + 1]);
    var v: int :| Moves(run[k], v, run[k + 1]);
    MoveIsFifo(capacity, run[k], v, run[k + 1]);
  }

  /** A false result is true: the ring holds capacity - 1 elements, or none, when the cache is refreshed. */
  lemma FalseMeansFullOrEmpty(capacity: nat, run: seq<Ring>, k: nat)
    requires capacity > 0 && IsRingRun(capacity, run) && k < |run|
    ensures var s := run[k];
            && |s.buffer| == capacity
            && (s.producer.Refresh? ==> (StepProducer(s).producer.Full? <==> |Queue(s)| == capacity - 1))
            && (s.consumer.RefreshTail? ==> (StepConsumer(s).consumer.Empty? <==> Queue(s) == []))
  {
    hide CellOf, Holds;
    RingRunInv(capacity, run, k);
    var s := run[k];
    CellsApart(s.head, s.tail + 1, capacity);
    CellsApart(s.head, s.tail, capacity);
  }

  /** The cell being written is not the one being read, nor any that holds an unread element. */
  lemma NoUnreadOverwritten(capacity: nat, run: seq<Ring>, k: nat, i: nat)
    requires capacity > 0 && IsRingRun(capacity, run) && k < |run|
    requires run[k].producer.Write? && run[k].head <= i < run[k].tail
    ensures CellOf(run[k].tail, capacity) != CellOf(i, capacity)
  {
    hide CellOf, Holds;
    RingRunInv(capacity, run, k);
    CellsApart(i, run[k].tail, capacity);
  }

  // ---------------------------------------------------------------- calls

  predicate ProducerDone(pc: Producer) { pc.NoEnqueue? || pc.Stored? || pc.Full? }

  predicate ConsumerDone(pc: Consumer) { pc.NoDequeue? || pc.Taken? || pc.Empty? }

  /** How far a call of try_enqueue(v) has come; `before` was enqueued when it was made. */
  predicate Enqueuing(s: Ring, v: int, before: seq<int>) {
    match s.producer
    case Check(w) => w == v && s.enqueued == before
    case Refresh(w) => w == v && s.enqueued == before
    case Write(w) => w == v && s.enqueued == before
    case StoreTail(w) => w == v && s.enqueued == before
    case Stored => s.enqueued == before + [v]
    case Full => s.enqueued == before
    case NoEnqueue => false
  }

  predicate Dequeuing(s: Ring, before: seq<int>) {
    match s.consumer
    case Taken(v) => s.dequeued == before + [v]
    case NoDequeue => false
    case _ => s.dequeued == before
  }

  lemma EnqueuingMove(capacity: nat, s: Ring, x: int, s': Ring, v: int, before: seq<int>)
    requires RingInv(capacity, s) && Moves(s, x, s') && Enqueuing(s, v, before) && !ProducerDone(s.producer)
    ensures Enqueuing(s', v, before)
    ensures s'.producer.Full? ==> |Queue(s)| == capacity - 1
  {
    hide CellOf, Holds;
    CellsApart(s.head, s.tail + 1, capacity);
  }

  lemma DequeuingMove(capacity: nat, s: Ring, x: int, s': Ring, before: seq<int>)
    requires RingInv(capacity, s) && Moves(s, x, s') && Dequeuing(s, before) && !ConsumerDone(s.consumer)
    ensures Dequeuing(s', before)
    ensures s'.consumer.Empty? ==> Queue(s) == []
  {
    hide CellOf, Holds;
    CellsApart(s.head, s.tail, capacity);
  }

  lemma MoveOf(capacity: nat, run: seq<Ring>, k: nat) returns (x: int)
    requires capacity > 0 && IsRingRun(capacity, run) && k + 1 < |run|
    ensures Moves(run[k], x, run[k + 1])
  {
    hide Moves;
    assert Follows(run[k], run[k + 1]);
    x :| Moves(run[k], x, run[k + 1]);
  }

  lemma CallsBegin(s: Ring)
    ensures s.producer.Check? ==> Enqueuing(s, s.producer.v, s.enqueued)
    ensures s.consumer.CheckTail? ==> Dequeuing(s, s.dequeued)
  {
  }

  lemma {:induction false} EnqueueRuns(capacity: nat, run: seq<Ring>, i: nat, j: nat)
    requires capacity > 0 && IsRingRun(capacity, run) && i <= j < |run| && run[i].producer.Check?
    requires forall k :: i <= k < j ==> !ProducerDone(run[k].producer)
    ensures Enqueuing(run[j], run[i].producer.v, run[i].enqueued)
    decreases j
  {
    hide RingInv, Moves, Enqueuing, IsRingRun;
    if i == j {
      CallsBegin(run[i]);
    } else {
      EnqueueRuns(capacity, run, i, j - 1);
      RingRunInv(capacity, run, j - 1);
      var x := MoveOf(capacity, run, j - 1);
      EnqueuingMove(capacity, run[j - 1], x, run[j], run[i].producer.v, run[i].enqueued);
    }
  }

  lemma {:induction false} DequeueRuns(capacity: nat, run: seq<Ring>, i: nat, j: nat)
    requires capacity > 0 && IsRingRun(capacity, run) && i <= j < |run| && run[i].consumer.CheckTail?
    requires forall k :: i <= k < j ==> !ConsumerDone(run[k].consumer)
    ensures Dequeuing(run[j], run[i].dequeued)
    decreases j
  {
    hide RingInv, Moves, Dequeuing, IsRingRun;
    if i == j {
      CallsBegin(run[i]);
    } else {
      DequeueRuns(capacity, run, i, j - 1);
      RingRunInv(capacity, run, j - 1);
      var x := MoveOf(capacity, run, j - 1);
      DequeuingMove(capacity, run[j - 1], x, run[j], run[i].dequeued);
    }
  }

  /** try_enqueue(v), whatever the consumer does meanwhile: true, and v is what has been enqueued
      since; or false, nothing has, and the ring was full at its last step. */
  lemma EnqueueCall(capacity: nat, run: seq<Ring>, i: nat, j: nat, v: int)
    requires capacity > 0 && IsRingRun(capacity, run) && i < j < |run| && run[i].producer == Check(v)
    requires (forall k :: i <= k < j ==> !ProducerDone(run[k].producer)) && ProducerDone(run[j].producer)
    ensures match run[j].producer
            case Stored => run[j].enqueued == run[i].enqueued + [v]
            case Full => run[j].enqueued == run[i].enqueued && |Queue(run[j - 1])| == capacity - 1
            case _ => false
  {
    hide RingInv, Moves, IsRingRun;
    EnqueueRuns(capacity, run, i, j - 1);
    RingRunInv(capacity, run, j - 1);
    var x := MoveOf(capacity, run, j - 1);
    EnqueuingMove(capacity, run[j - 1], x, run[j], v, run[i].enqueued);
  }

  /** try_dequeue(): the value returned is what has been dequeued since; or nothing has, and the
      ring was empty at its last step. */
  lemma DequeueCall(capacity: nat, run: seq<Ring>, i: nat, j: nat)
    requires capacity > 0 && IsRingRun(capacity, run) && i < j < |run| && run[i].consumer == CheckTail
    requires (forall k :: i <= k < j ==> !ConsumerDone(run[k].consumer)) && ConsumerDone(run[j].consumer)
    ensures match run[j].consumer
            case Taken(v) => run[j].dequeued == run[i].dequeued + [v]
            case Empty => run[j].dequeued == run[i].dequeued && Queue(run[j - 1]) == []
            case _ => false
  {
    hide RingInv, Moves, IsRingRun;
    DequeueRuns(capacity, run, i, j - 1);
    RingRunInv(capacity, run, j - 1);
    var x := MoveOf(capacity, run, j - 1);
    DequeuingMove(capacity, run[j - 1], x, run[j], run[i].dequeued);
  }

  /** n steps of one side, as long as its call lasts. */
  function ProducerAlone(s: Ring, n: nat): Ring
    requires |s.buffer| > 0
    decreases n
  {
    if n == 0 || ProducerDone(s.producer) then s else ProducerAlone(StepProducer(s), n - 1)
  }

  function ConsumerAlone(s: Ring, n: nat): Ring
    requires |s.buffer| > 0
    decreases n
  {
    if n == 0 || ConsumerDone(s.consumer) then s else ConsumerAlone(StepConsumer(s), n - 1)
  }

  /** Neither side ever waits: a call returns within four of its own steps. Undisturbed, try_enqueue
      fails exactly if the ring holds capacity - 1 elements, and try_dequeue exactly if it holds none. */
  lemma EnqueueAlone(capacity: nat, s: Ring, v: int)
    requires RingInv(capacity, s) && s.producer == Check(v)
    ensures var s' := ProducerAlone(s, 4);
            if |Queue(s)| == capacity - 1 then s'.producer == Full && Queue(s') == Queue(s)
            else s'.producer == Stored && Queue(s') == Queue(s) + [v]
  {
    hide CellOf, Holds;
    CellsApart(s.headCache, s.tail + 1, capacity);
    CellsApart(s.head, s.tail + 1, capacity);
    var s1 := StepProducer(s);
    if s1.producer.Refresh? {
      var s2 := StepProducer(s1);
      if s2.producer.Write? { WritesAlone(s2); }
      assert ProducerAlone(s, 4) == ProducerAlone(s1, 3) == ProducerAlone(s2, 2);
    } else {
      WritesAlone(s1);
      assert ProducerAlone(s, 4) == ProducerAlone(s1, 3);
    }
    Appends(s.enqueued, |s.dequeued|, v);
  }

  lemma WritesAlone(s: Ring)
    requires |s.buffer| > 0 && s.producer.Write?
    ensures forall n: nat :: n >= 2 ==>
              && ProducerAlone(s, n).producer == Stored && ProducerAlone(s, n).enqueued == s.enqueued + [s.producer.v]
              && ProducerAlone(s, n).dequeued == s.dequeued && ProducerAlone(s, n).headCache == s.headCache
  {
    hide CellOf;
    var s1 := StepProducer(s);
    var s2 := StepProducer(s1);
    forall n: nat | n >= 2 ensures ProducerAlone(s, n) == s2 {
      assert ProducerAlone(s, n) == ProducerAlone(s1, n - 1) == ProducerAlone(s2, n - 2);
    }
  }

  lemma DequeueAlone(capacity: nat, s: Ring)
    requires RingInv(capacity, s) && s.consumer == CheckTail
    ensures var s' := ConsumerAlone(s, 4);
            if Queue(s) == [] then s'.consumer == Empty && Queue(s') == Queue(s)
            else s'.consumer == Taken(Queue(s)[0]) && Queue(s') == Queue(s)[1..]
  {
    hide CellOf, Holds;
    CellsApart(s.head, s.tailCache, capacity);
    CellsApart(s.head, s.tail, capacity);
    var s1 := StepConsumer(s);
    if Queue(s) != [] { ContentsFirst(s.buffer, s.head, s.tail, s.enqueued, s.dequeued); }
    if s1.consumer.RefreshTail? {
      var s2 := StepConsumer(s1);
      if s2.consumer.Read? { ReadsAlone(s2); }
      assert ConsumerAlone(s, 4) == ConsumerAlone(s1, 3) == ConsumerAlone(s2, 2);
    } else {
      ReadsAlone(s1);
      assert ConsumerAlone(s, 4) == ConsumerAlone(s1, 3);
    }
  }

  lemma ReadsAlone(s: Ring)
    requires |s.buffer| > 0 && s.consumer.Read?
    ensures var v := s.buffer[CellOf(s.head, |s.buffer|)];
            forall n: nat :: n >= 2 ==>
              && ConsumerAlone(s, n).consumer == Taken(v) && ConsumerAlone(s, n).dequeued == s.dequeued + [v]
              && ConsumerAlone(s, n).enqueued == s.enqueued && ConsumerAlone(s, n).tailCache == s.tailCache
  {
    hide CellOf;
    var s1 := StepConsumer(s);
    var s2 := StepConsumer(s1);
    forall n: nat | n >= 2 ensures ConsumerAlone(s, n) == s2 {
      assert ConsumerAlone(s, n) == ConsumerAlone(s1, n - 1) == ConsumerAlone(s2, n - 2);
    }
  }

  /** While its cached copy of the other's index shows room, or an element, a side returns within three
      steps without looking at the index itself. */
  lemma AppendsCached(capacity: nat, s: Ring, v: int)
    requires RingInv(capacity, s) && s.producer == Check(v) && s.tail + 1 < s.headCache + capacity
    ensures ProducerAlone(s, 3).producer == Stored && ProducerAlone(s, 3).headCache == s.headCache
  {
    hide CellOf, Holds;
    CellsApart(s.headCache, s.tail + 1, capacity);
    var s1 := StepProducer(s);
    WritesAlone(s1);
    assert ProducerAlone(s, 3) == ProducerAlone(s1, 2);
  }

  lemma TakesCached(capacity: nat, s: Ring)
    requires RingInv(capacity, s) && s.consumer == CheckTail && s.head < s.tailCache
    ensures ConsumerAlone(s, 3).consumer.Taken? && ConsumerAlone(s, 3).tailCache == s.tailCache
  {
    hide CellOf, Holds;
    CellsApart(s.head, s.tailCache, capacity);
    var s1 := StepConsumer(s);
    ReadsAlone(s1);
    assert ConsumerAlone(s, 3) == ConsumerAlone(s1, 2);
  }
}
