/** What the calls on the block queue return, whatever the other side does meanwhile, that they
    never wait, and what they return undisturbed. */
module BlockCalls {
  import opened BlockRing
  import opened PackedWords
  import opened RingCells
  import opened Sequences

  // ---------------------------------------------------------------- results

  /** In a call that enqueues v, which began when `before` had been enqueued. */
  predicate Enqueuing(s: State, v: int, before: seq<int>) {
    match s.producer
    case Enqueued => s.enqueued == before + [v]
    case Refused => s.enqueued == before
    case NoEnqueue => false
    case pc => pc.v == v && s.enqueued == before
  }

  /** In a call that dequeues, which began when `before` had been dequeued. */
  predicate Dequeuing(s: State, before: seq<int>) {
    match s.consumer
    case Dequeued(e) => s.dequeued == before + [e]
    case _ => s.dequeued == before
  }

  lemma ProducerCalls(s: State, v: int, before: seq<int>)
    requires BlocksExist(s) && Enqueuing(s, v, before) && !ProducerDone(s.producer)
    ensures Enqueuing(StepProducer(s), v, before) && StepProducer(s).dequeued == s.dequeued
    ensures StepProducer(s).consumer == s.consumer
  {
    hide CellOf, Room;
  }

  lemma ConsumerCalls(s: State, before: seq<int>)
    requires BlocksExist(s) && Dequeuing(s, before) && !ConsumerDone(s.consumer)
    ensures Dequeuing(StepConsumer(s), before) && StepConsumer(s).enqueued == s.enqueued
    ensures StepConsumer(s).producer == s.producer
  {
    hide CellOf;
  }

  lemma MoveOf(c: Config, run: seq<State>, k: nat) returns (v: int, canAlloc: bool)
    requires Config?(c) && IsRun(c, run) && k + 1 < |run|
    ensures Moves(run[k], v, canAlloc, run[k + 1])
  {
    hide Moves, Init;
    assert Next(run[k], run[k + 1]);
    v, canAlloc :| Moves(run[k], v, canAlloc, run[k + 1]);
  }

  lemma EnqueuingMove(s: State, x: int, canAlloc: bool, s': State, v: int, before: seq<int>)
    requires Moves(s, x, canAlloc, s') && BlocksExist(s) && Enqueuing(s, v, before) && !ProducerDone(s.producer)
    ensures Enqueuing(s', v, before)
  {
    hide StepProducer, StepConsumer, BlocksExist;
    ProducerCalls(s, v, before);
    ConsumerLeaves(s);
  }

  lemma DequeuingMove(s: State, x: int, canAlloc: bool, s': State, before: seq<int>)
    requires Moves(s, x, canAlloc, s') && BlocksExist(s) && Dequeuing(s, before) && !ConsumerDone(s.consumer)
    ensures Dequeuing(s', before)
    ensures s'.consumer.CheckTailBlock? && s'.consumer != s.consumer ==> s'.consumer.wasEmpty == (s.enqueued == s.dequeued)
    ensures s'.consumer.Empty? ==> s.consumer == CheckTailBlock(s'.consumer.wasEmpty)
  {
    hide StepProducer, BlocksExist, CellOf;
    ConsumerCalls(s, before);
    ProducerLeaves(s);
  }

  lemma ConsumerLeaves(s: State)
    requires BlocksExist(s)
    ensures StepConsumer(s).producer == s.producer && StepConsumer(s).enqueued == s.enqueued
  {
    hide CellOf;
  }

  lemma ProducerLeaves(s: State)
    requires BlocksExist(s)
    ensures StepProducer(s).consumer == s.consumer && StepProducer(s).dequeued == s.dequeued
  {
    hide CellOf, Room;
  }

  lemma {:induction false} EnqueueRuns(c: Config, run: seq<State>, i: nat, j: nat, v: int)
    requires Config?(c) && IsRun(c, run) && i <= j < |run| && run[i].producer.Enqueue? && run[i].producer.v == v
    requires forall k :: i <= k < j ==> !ProducerDone(run[k].producer)
    ensures Enqueuing(run[j], v, run[i].enqueued)
    decreases j
  {
    hide Inv, Moves, IsRun, BlocksExist;
    if i < j {
      EnqueueRuns(c, run, i, j - 1, v);
      RunInv(c, run, j - 1);
      InvExists(run[j - 1]);
      var x, canAlloc := MoveOf(c, run, j - 1);
      EnqueuingMove(run[j - 1], x, canAlloc, run[j], v, run[i].enqueued);
    }
  }

  /** An enqueue of v that returns true has appended v and nothing else since it began; one that
      returns false has appended nothing. */
  lemma EnqueueCall(c: Config, run: seq<State>, i: nat, j: nat, v: int)
    requires Config?(c) && IsRun(c, run) && i < j < |run| && run[i].producer.Enqueue? && run[i].producer.v == v
    requires (forall k :: i <= k < j ==> !ProducerDone(run[k].producer)) && ProducerDone(run[j].producer)
    ensures run[j].producer.Enqueued? || run[j].producer.Refused?
    ensures run[j].enqueued == run[i].enqueued + if run[j].producer.Enqueued? then [v] else []
  {
    EnqueueRuns(c, run, i, j, v);
  }

  /** At some point of the call the queue was empty. */
  ghost predicate WasEmpty(run: seq<State>, i: nat, j: nat) {
    exists k :: i <= k < j <= |run| && Queue(run[k]) == []
  }

  lemma NothingQueued(s: State)
    requires s.enqueued == s.dequeued
    ensures Queue(s) == []
  {
  }

  lemma {:induction false} DequeueRuns(c: Config, run: seq<State>, i: nat, j: nat)
    requires Config?(c) && IsRun(c, run) && i <= j < |run| && run[i].consumer.Dequeue?
    requires forall k :: i <= k < j ==> !ConsumerDone(run[k].consumer)
    ensures Dequeuing(run[j], run[i].dequeued)
    ensures run[j].consumer.CheckTailBlock? && run[j].consumer.wasEmpty ==> WasEmpty(run, i, j)
    ensures run[j].consumer.Empty? ==> WasEmpty(run, i, j)
    decreases j
  {
    hide Inv, Moves, IsRun, BlocksExist, Queue;
    if i < j {
      DequeueRuns(c, run, i, j - 1);
      RunInv(c, run, j - 1);
      InvExists(run[j - 1]);
      var x, canAlloc := MoveOf(c, run, j - 1);
      DequeuingMove(run[j - 1], x, canAlloc, run[j], run[i].dequeued);
      if run[j].consumer.Empty? { EmptyWasEmpty(c, run, j); }
      if run[j - 1].enqueued == run[j - 1].dequeued { NothingQueued(run[j - 1]); }
    }
  }

  /** A dequeue that returns e has taken e and nothing else since it began; one that returns false
      has taken nothing, and the queue was empty at some point of the call. */
  lemma DequeueCall(c: Config, run: seq<State>, i: nat, j: nat)
    requires Config?(c) && IsRun(c, run) && i < j < |run| && run[i].consumer.Dequeue?
    requires (forall k :: i <= k < j ==> !ConsumerDone(run[k].consumer)) && ConsumerDone(run[j].consumer)
    ensures match run[j].consumer
            case Dequeued(e) => run[j].dequeued == run[i].dequeued + [e]
            case Empty(_) => run[j].dequeued == run[i].dequeued && exists k :: i <= k < j && Queue(run[k]) == []
            case NoDequeue => false
            case _ => true
  {
    hide Inv, Moves, BlocksExist, Queue;
    DequeueRuns(c, run, i, j);
    RunInv(c, run, j - 1);
    InvExists(run[j - 1]);
    var x, canAlloc := MoveOf(c, run, j - 1);
    StaysIn(run[j - 1], x, canAlloc, run[j]);
  }

  lemma StaysIn(s: State, x: int, canAlloc: bool, s': State)
    requires Moves(s, x, canAlloc, s') && BlocksExist(s) && !ConsumerDone(s.consumer)
    ensures !s'.consumer.NoDequeue?
  {
    hide CellOf, Room;
  }

  // ---------------------------------------------------------------- calls never wait

  /** The accesses a call may still make. */
  function EnqueueRank(pc: Producer): nat {
    match pc
    case Enqueue(_, _) => 7
    case LoadFront(_, _) => 6
    case CheckNext(_, _) => 5
    case LoadNextFront(_) => 4
    case WriteNext(_, _) => 3
    case PublishNext(_, _) => 2
    case NewBlock(_) => 3
    case LinkNew(_, _) => 2
    case StoreTailBlock(_, _) => 1
    case WriteElement(_) => 2
    case PublishTail(_) => 1
    case _ => 0
  }

  function DequeueRank(pc: Consumer): nat {
    match pc
    case Dequeue => 9
    case LoadTail => 8
    case CheckTailBlock(_) => 7
    case Reload => 6
    case LoadNext => 5
    case LoadNextTail(_) => 4
    case StoreFrontBlock(_) => 3
    case ReadElement => 2
    case PublishFront(_) => 1
    case _ => 0
  }

  /** Each access brings the call closer to its end, whatever the other side has done since the
      last one: an enqueue makes at most seven, a dequeue at most nine. */
  lemma EnqueueDescends(s: State)
    requires BlocksExist(s) && !ProducerDone(s.producer)
    ensures EnqueueRank(StepProducer(s).producer) < EnqueueRank(s.producer) <= 7
    ensures ProducerDone(StepProducer(s).producer) <==> EnqueueRank(StepProducer(s).producer) == 0
    ensures StepConsumer(s).producer == s.producer
  {
    hide CellOf, Room;
  }

  lemma DequeueDescends(s: State)
    requires BlocksExist(s) && !ConsumerDone(s.consumer)
    ensures DequeueRank(StepConsumer(s).consumer) < DequeueRank(s.consumer) <= 9
    ensures ConsumerDone(StepConsumer(s).consumer) <==> DequeueRank(StepConsumer(s).consumer) == 0
    ensures StepProducer(s).consumer == s.consumer
  {
    hide CellOf, Room;
  }

  /** n steps of one side, as long as its call lasts. */
  function ProducerAlone(s: State, n: nat): State
    decreases n
  {
    if n == 0 || ProducerDone(s.producer) || !BlocksExist(s) then s else ProducerAlone(StepProducer(s), n - 1)
  }

  function ConsumerAlone(s: State, n: nat): State
    decreases n
  {
    if n == 0 || ConsumerDone(s.consumer) || !BlocksExist(s) then s else ConsumerAlone(StepConsumer(s), n - 1)
  }

  // ---------------------------------------------------------------- an enqueue undisturbed

  /** The tail block is full, and the front block comes next. */
  predicate NoSpare(s: State)
    requires s.tailBlock < |s.blocks|
  {
    var t := s.blocks[s.tailBlock];
    t.tail - t.front >= |t.data| - 1 && s.depth + 1 == |s.ring|
  }

  /** What the call will find: no spare room, or some. */
  predicate WillFind(s: State, canAlloc: bool, full: bool)
    requires s.tailBlock < |s.blocks|
  {
    match s.producer
    case Enqueue(_, can) => can == canAlloc && (NoSpare(s) <==> full)
    case LoadFront(_, can) => can == canAlloc && (NoSpare(s) <==> full)
    case CheckNext(_, can) => can == canAlloc && (s.depth + 1 == |s.ring| <==> full)
    case Refused => full && !canAlloc
    case _ => !full || canAlloc
  }

  lemma WillFindRoom(s: State, canAlloc: bool, full: bool)
    requires Inv(s) && BlocksExist(s) && WillFind(s, canAlloc, full) && (s.producer.Enqueue? || s.producer.LoadFront?)
    ensures StepProducer(s).tailBlock == s.tailBlock < |StepProducer(s).blocks|
    ensures WillFind(StepProducer(s), canAlloc, full)
  {
    var t := s.blocks[s.tailBlock];
    TailOk(s);
    hide Room, Inv, BlockOk, BlocksExist;
    RoomMeaning(t, t.localFront);
    RoomMeaning(t, t.front);
  }

  lemma TailOk(s: State)
    requires Inv(s)
    ensures s.tailBlock < |s.blocks| && BlockOk(s.blocks[s.tailBlock])
    ensures s.blocks[s.tailBlock].localFront <= s.blocks[s.tailBlock].front
    ensures s.blocks[s.tailBlock].next != s.frontBlock <==> s.depth + 1 < |s.ring|
  {
    RingGives(s);
    Apart(s.ring, 0, if s.depth + 1 < |s.ring| then s.depth + 1 else 0);
    hide Concat, Items, ContentsOk, Filled, ConsumerFact, ProducerFact, RingOk, BlocksOk;
  }

  lemma WillFindStep(s: State, canAlloc: bool, full: bool)
    requires Inv(s) && BlocksExist(s) && WillFind(s, canAlloc, full) && !ProducerDone(s.producer)
    requires Inv(StepProducer(s))
    ensures StepProducer(s).tailBlock < |StepProducer(s).blocks| && WillFind(StepProducer(s), canAlloc, full)
  {
    TailOk(StepProducer(s));
    if s.producer.Enqueue? || s.producer.LoadFront? {
      WillFindRoom(s, canAlloc, full);
    } else {
      TailOk(s);
      DepthKnown(s);
      hide CellOf, Inv, NoSpare, BlockOk, Room;
    }
  }

  lemma DepthKnown(s: State)
    requires Inv(s)
    ensures s.depth < |s.ring|
  {
    hide Concat, Items, ContentsOk, Filled, ConsumerFact, ProducerFact, BlocksOk;
  }

  lemma {:induction false} EnqueuesAlone(s: State, n: nat, v: int, before: seq<int>, canAlloc: bool, full: bool)
    requires Inv(s) && s.tailBlock < |s.blocks| && Enqueuing(s, v, before) && WillFind(s, canAlloc, full)
    requires EnqueueRank(s.producer) <= n
    ensures var s' := ProducerAlone(s, n);
            && Inv(s') && ProducerDone(s'.producer) && s'.dequeued == s.dequeued && Enqueuing(s', v, before)
            && s'.tailBlock < |s'.blocks| && WillFind(s', canAlloc, full)
    decreases n
  {
    hide Inv, BlocksExist, StepProducer, Enqueuing, WillFind;
    if !ProducerDone(s.producer) {
      InvExists(s);
      ProducerStep(s);
      EnqueueDescends(s);
      ProducerCalls(s, v, before);
      WillFindStep(s, canAlloc, full);
      EnqueuesAlone(StepProducer(s), n - 1, v, before, canAlloc, full);
    }
  }

  lemma QueueGrows(s: State, s': State, v: int)
    requires Inv(s) && s'.enqueued == s.enqueued + [v] && s'.dequeued == s.dequeued
    ensures Queue(s') == Queue(s) + [v]
  {
    QueueIsContents(s);
  }

  /** Undisturbed, an enqueue appends its element within seven accesses, unless the tail block is
      full, the front block comes next and it may not allocate; then it leaves the queue alone. */
  lemma EnqueueAlone(s: State, v: int, canAlloc: bool)
    requires Inv(s) && s.producer == Enqueue(v, canAlloc)
    ensures s.tailBlock < |s.blocks|
    ensures var s' := ProducerAlone(s, 7);
            if NoSpare(s) && !canAlloc then s'.producer.Refused? && Queue(s') == Queue(s)
            else s'.producer.Enqueued? && Queue(s') == Queue(s) + [v]
  {
    hide Inv, BlocksExist, NoSpare, Queue, ProducerAlone;
    InvExists(s);
    TailExists(s);
    EnqueuesAlone(s, 7, v, s.enqueued, canAlloc, NoSpare(s));
    var s' := ProducerAlone(s, 7);
    if s'.producer.Enqueued? { QueueGrows(s, s', v); } else { SameQueue(s, s'); }
  }

  lemma TailExists(s: State)
    requires BlocksExist(s)
    ensures s.tailBlock < |s.blocks|
  {
  }

  lemma SameQueue(s: State, s': State)
    requires s'.enqueued == s.enqueued && s'.dequeued == s.dequeued
    ensures Queue(s') == Queue(s)
  {
  }

  // ---------------------------------------------------------------- a dequeue undisturbed

  /** Alone since the queue was q, the call has found or returned the right thing. */
  predicate Looking(s: State, q: seq<int>) {
    match s.consumer
    case Dequeued(e) => q == [e] + Queue(s)
    case Empty(e) => Queue(s) == q && (e ==> q == [])
    case CheckTailBlock(e) => Queue(s) == q && (e ==> q == [])
    case _ => Queue(s) == q
  }

  lemma LookingStep(s: State, q: seq<int>)
    requires Inv(s) && BlocksExist(s) && Looking(s, q) && !ConsumerDone(s.consumer) && Inv(StepConsumer(s))
    ensures Looking(StepConsumer(s), q)
  {
    hide Inv, CellOf, BlocksExist, Queue;
    var s' := StepConsumer(s);
    QueueIsContents(s);
    QueueIsContents(s');
    QueueAfter(s, s');
    if s.enqueued == s.dequeued { NothingQueued(s); }
  }

  lemma {:induction false} DequeuesAlone(s: State, n: nat, q: seq<int>)
    requires Inv(s) && Looking(s, q) && DequeueRank(s.consumer) <= n
    ensures var s' := ConsumerAlone(s, n);
            && Inv(s') && ConsumerDone(s'.consumer) && Looking(s', q)
            && (!s.consumer.NoDequeue? ==> !s'.consumer.NoDequeue?)
    decreases n
  {
    hide Inv, BlocksExist, StepConsumer, Looking;
    if !ConsumerDone(s.consumer) {
      InvExists(s);
      ConsumerStep(s);
      DequeueDescends(s);
      LookingStep(s, q);
      NotBack(s);
      DequeuesAlone(StepConsumer(s), n - 1, q);
    }
  }

  lemma NotBack(s: State)
    requires BlocksExist(s) && !ConsumerDone(s.consumer)
    ensures !StepConsumer(s).consumer.NoDequeue?
  {
    hide CellOf;
  }

  /** Undisturbed, a dequeue takes the first element within nine accesses, or finds the queue
      empty. */
  lemma DequeueAlone(s: State)
    requires Inv(s) && s.consumer == Dequeue
    ensures var s' := ConsumerAlone(s, 9);
            if Queue(s) == [] then s'.consumer.Empty? && Queue(s') == []
            else s'.consumer == Dequeued(Queue(s)[0]) && Queue(s') == Queue(s)[1..]
  {
    DequeuesAlone(s, 9, Queue(s));
    EmptyOk(ConsumerAlone(s, 9));
    hide Inv, BlocksExist, Queue, ConsumerAlone;
  }

  lemma EmptyOk(s: State)
    requires Inv(s)
    ensures s.consumer.Empty? ==> s.consumer.wasEmpty
  {
    hide Concat, Items, ContentsOk, RingOk, Filled, ProducerFact;
  }

  /** While the consumer's own copy of the tail shows an element, a dequeue takes it in three accesses
      and looks at nothing the producer writes but the element. */
  lemma TakesCached(s: State)
    requires Inv(s) && s.consumer == Dequeue
    requires s.frontBlock < |s.blocks| && s.blocks[s.frontBlock].front < s.blocks[s.frontBlock].localTail
    ensures var s' := ConsumerAlone(s, 3);
            && s'.consumer.Dequeued? && s'.frontBlock == s.frontBlock && |s'.blocks| == |s.blocks|
            && s'.blocks[s.frontBlock].localTail == s.blocks[s.frontBlock].localTail
  {
    InvExists(s);
    var f := s.blocks[s.frontBlock];
    DifferMeaning(f, f.localTail);
    var s1 := StepConsumer(s);
    var s2 := StepConsumer(s1);
    var s3 := StepConsumer(s2);
    hide Inv, CellOf;
    assert ConsumerAlone(s, 3) == ConsumerAlone(s1, 2) == ConsumerAlone(s2, 1) == s3;
  }
}
