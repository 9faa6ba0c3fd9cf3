/** The room the block queue promises: until it has held as many elements as its constructor was
    asked for, an enqueue neither fails nor allocates. */
module BlockRoom {
  import opened BlockCalls
  import opened BlockRing
  import opened PackedWords
  import opened RingCells
  import opened Sequences

  // ---------------------------------------------------------------- full blocks

  predicate Full(b: Block) { b.tail - b.front >= |b.data| - 1 }

  /** The producer has found no room in the tail block and is moving on. */
  predicate Passing(pc: Producer) {
    || pc.CheckNext? || pc.LoadNextFront? || pc.WriteNext? || pc.PublishNext?
    || pc.NewBlock? || pc.LinkNew? || pc.StoreTailBlock?
  }

  /** The blocks strictly between the front and the tail are full: the producer left them full, and
      the consumer has not come to them. */
  predicate FullBetween(blocks: seq<Block>, ring: seq<nat>, depth: nat, passing: bool)
    requires Within(blocks, ring) && depth < |ring|
  {
    && (forall i :: 0 < i < depth ==> Full(blocks[ring[i]]))
    && (passing && depth > 0 ==> Full(blocks[ring[depth]]))
  }

  predicate RoomInv(c: Config, s: State) {
    && s.largest >= c.size && |s.ring| >= c.blocks
    && (forall i :: 0 <= i < |s.blocks| ==> |s.blocks[i].data| >= c.size)
    && s.depth < |s.ring| && Within(s.blocks, s.ring)
    && FullBetween(s.blocks, s.ring, s.depth, Passing(s.producer))
  }

  /** No step of the producer makes a block smaller or less full. */
  predicate Fuller(blocks: seq<Block>, blocks': seq<Block>) {
    && |blocks| <= |blocks'|
    && forall i :: 0 <= i < |blocks| ==>
         && blocks'[i].front == blocks[i].front && blocks'[i].tail >= blocks[i].tail
         && |blocks'[i].data| == |blocks[i].data|
  }

  lemma SetFills(blocks: seq<Block>, i: nat, b: Block)
    requires i < |blocks| && b.front == blocks[i].front && b.tail >= blocks[i].tail && |b.data| == |blocks[i].data|
    ensures Fuller(blocks, blocks[i := b])
  {
  }

  lemma TailFills(s: State)
    requires BlocksExist(s)
    requires s.producer.LoadFront? || s.producer.WriteElement? || s.producer.PublishTail? || s.producer.LinkNew?
    ensures Fuller(s.blocks, StepProducer(s).blocks) && |StepProducer(s).blocks| == |s.blocks|
  {
    hide CellOf, Room, Fuller;
    SetFills(s.blocks, s.tailBlock, StepProducer(s).blocks[s.tailBlock]);
  }

  lemma NextFills(s: State)
    requires BlocksExist(s) && (s.producer.LoadNextFront? || s.producer.WriteNext? || s.producer.PublishNext?)
    ensures Fuller(s.blocks, StepProducer(s).blocks) && |StepProducer(s).blocks| == |s.blocks|
  {
    hide CellOf, Room, Fuller;
    var n := if s.producer.LoadNextFront? then s.blocks[s.tailBlock].next else s.producer.b;
    SetFills(s.blocks, n, StepProducer(s).blocks[n]);
  }

  /** A new block is no smaller than the largest so far. */
  lemma NewFills(s: State)
    requires BlocksExist(s) && s.producer.NewBlock? && s.largest > 0
    ensures Fuller(s.blocks, StepProducer(s).blocks) && |StepProducer(s).blocks| == |s.blocks| + 1
    ensures |StepProducer(s).blocks[|s.blocks|].data| >= s.largest
  {
    hide CellOf, Room;
  }

  lemma ProducerFills(s: State)
    requires BlocksExist(s) && s.largest > 0
    ensures Fuller(s.blocks, StepProducer(s).blocks) && StepProducer(s).largest >= s.largest
    ensures forall i :: |s.blocks| <= i < |StepProducer(s).blocks| ==> |StepProducer(s).blocks[i].data| >= s.largest
  {
    hide BlocksExist;
    match s.producer
    case LoadFront(_, _) => TailFills(s);
    case WriteElement(_) => TailFills(s);
    case PublishTail(_) => TailFills(s);
    case LinkNew(_, _) => TailFills(s);
    case LoadNextFront(_) => NextFills(s);
    case WriteNext(_, _) => NextFills(s);
    case PublishNext(_, _) => NextFills(s);
    case NewBlock(_) => NewFills(s);
    case _ =>
  }

  /** Where the producer may go on to from a step, and with how much of the ring behind it. */
  lemma ProducerPasses(s: State)
    requires Inv(s) && BlocksExist(s)
    ensures var s' := StepProducer(s);
            && s.depth < |s.ring| <= |s'.ring| && s.depth <= s'.depth < |s'.ring|
            && s'.ring[..s.depth + 1] == s.ring[..s.depth + 1]
            && (s'.depth == s.depth
                || (s'.depth == s.depth + 1 && Passing(s.producer) && !Passing(s'.producer)))
            && (Passing(s'.producer) && !Passing(s.producer) ==> s.producer.LoadFront? && s'.producer.CheckNext?)
  {
    hide CellOf, Room, Concat, Items, ContentsOk, Filled, ConsumerFact, BlocksOk, Linked, Distinct;
  }

  /** Having read the block's front, the producer finds no room only in a full block. */
  lemma NoRoomIsFull(s: State)
    requires Inv(s) && BlocksExist(s) && s.producer.LoadFront? && StepProducer(s).producer.CheckNext?
    ensures s.tailBlock < |s.blocks| && BlockOk(s.blocks[s.tailBlock]) && Full(s.blocks[s.tailBlock])
  {
    RingGives(s);
    RoomMeaning(s.blocks[s.tailBlock], s.blocks[s.tailBlock].front);
    hide CellOf, Room, Concat, Items, ContentsOk, Filled, ConsumerFact, RingOk;
  }

  lemma FullerKeeps(blocks: seq<Block>, blocks': seq<Block>, ring: seq<nat>, ring': seq<nat>, d: nat, p: bool, d': nat, p': bool)
    requires Within(blocks, ring) && Within(blocks', ring') && d < |ring| && d' < |ring'|
    requires FullBetween(blocks, ring, d, p) && Fuller(blocks, blocks')
    requires d < |ring'| && ring'[..d + 1] == ring[..d + 1]
    requires (d' == d && (p' ==> p || d == 0 || Full(blocks[ring[d]]))) || (d' == d + 1 && p && !p')
    ensures FullBetween(blocks', ring', d', p')
  {
    forall i | 0 <= i <= d ensures ring'[i] == ring[i] {
      assert ring'[i] == ring'[..d + 1][i] == ring[..d + 1][i];
    }
  }

  lemma SizesStay(blocks: seq<Block>, blocks': seq<Block>, largest: nat, size: nat)
    requires Fuller(blocks, blocks') && largest >= size
    requires forall i :: |blocks| <= i < |blocks'| ==> |blocks'[i].data| >= largest
    requires forall i :: 0 <= i < |blocks| ==> |blocks[i].data| >= size
    ensures forall i :: 0 <= i < |blocks'| ==> |blocks'[i].data| >= size
  {
  }

  lemma ProducerKeepsRoom(c: Config, s: State)
    requires Config?(c) && Inv(s) && BlocksExist(s) && RoomInv(c, s) && Inv(StepProducer(s))
    ensures RoomInv(c, StepProducer(s))
  {
    hide StepProducer, Inv, BlocksExist, Within, Full, FullBetween, Passing, Fuller;
    var s' := StepProducer(s);
    ProducerFills(s);
    ProducerPasses(s);
    TailAtDepth(s);
    TailAtDepth(s');
    if Passing(s'.producer) && !Passing(s.producer) { NoRoomIsFull(s); }
    SizesStay(s.blocks, s'.blocks, s.largest, c.size);
    FullerKeeps(s.blocks, s'.blocks, s.ring, s'.ring, s.depth, Passing(s.producer), s'.depth, Passing(s'.producer));
  }

  lemma TailAtDepth(s: State)
    requires Inv(s)
    ensures s.depth < |s.ring| && Within(s.blocks, s.ring) && s.ring[s.depth] == s.tailBlock < |s.blocks|
  {
    hide Concat, Items, ContentsOk, Filled, ProducerFact, ConsumerFact, BlocksOk, Linked, Distinct;
  }

  lemma FrontApart(s: State, i: nat)
    requires Inv(s) && 0 < i < |s.ring|
    ensures s.ring[i] != s.frontBlock
  {
    Apart(s.ring, 0, i);
    hide Concat, Items, ContentsOk, Filled, ProducerFact, ConsumerFact, BlocksOk, Linked, Distinct;
  }

  /** Only the front block may become less full. */
  predicate FullElsewhere(blocks: seq<Block>, blocks': seq<Block>, front: nat) {
    && |blocks'| == |blocks|
    && (forall i :: 0 <= i < |blocks| ==> |blocks'[i].data| == |blocks[i].data|)
    && (forall i :: 0 <= i < |blocks| && Full(blocks[i]) && i != front ==> Full(blocks'[i]))
  }

  lemma SetTakes(blocks: seq<Block>, i: nat, b: Block, front: nat)
    requires i < |blocks| && |b.data| == |blocks[i].data|
    requires i == front || (b.front == blocks[i].front && b.tail == blocks[i].tail)
    ensures FullElsewhere(blocks, blocks[i := b], front)
  {
  }

  /** The consumer takes from the front block only, or drops it from the front of the ring. */
  lemma ConsumerTakes(s: State)
    requires BlocksExist(s)
    ensures var s' := StepConsumer(s);
            && FullElsewhere(s.blocks, s'.blocks, s.frontBlock)
            && s'.producer == s.producer && s'.largest == s.largest
            && ((s'.ring == s.ring && s'.depth == s.depth)
                || (s.consumer.StoreFrontBlock?
                    && s'.ring == (if |s.ring| > 0 then s.ring[1..] + [s.ring[0]] else [])
                    && s'.depth == if s.depth > 0 then s.depth - 1 else 0))
    ensures s.consumer.StoreFrontBlock? ==> StepConsumer(s).blocks == s.blocks
  {
    hide CellOf, FullElsewhere;
    var n := if s.consumer.LoadNextTail? then s.consumer.b else s.frontBlock;
    SetTakes(s.blocks, n, StepConsumer(s).blocks[n], s.frontBlock);
    assert StepConsumer(s).blocks == s.blocks[n := StepConsumer(s).blocks[n]];
  }

  lemma Rotated(blocks: seq<Block>, ring: seq<nat>, depth: nat, passing: bool)
    requires Within(blocks, ring) && depth < |ring| && FullBetween(blocks, ring, depth, passing)
    ensures var ring' := ring[1..] + [ring[0]];
            Within(blocks, ring') && FullBetween(blocks, ring', if depth > 0 then depth - 1 else 0, passing)
  {
  }

  lemma ConsumerKeepsRoom(c: Config, s: State)
    requires Inv(s) && BlocksExist(s) && RoomInv(c, s)
    ensures RoomInv(c, StepConsumer(s))
  {
    ConsumerTakes(s);
    Rotated(s.blocks, s.ring, s.depth, Passing(s.producer));
    forall i | 0 < i < |s.ring| ensures s.ring[i] != s.frontBlock { FrontApart(s, i); }
    hide StepConsumer, Inv, BlocksExist, Full;
  }

  lemma CallKeepsRoom(c: Config, s: State, s': State)
    requires RoomInv(c, s) && s' == s.(producer := s'.producer, consumer := s'.consumer)
    requires s'.producer == s.producer || !Passing(s'.producer)
    ensures RoomInv(c, s')
  {
  }

  lemma RoomMoves(c: Config, s: State, v: int, canAlloc: bool, s': State)
    requires Config?(c) && Inv(s) && RoomInv(c, s) && Moves(s, v, canAlloc, s')
    ensures RoomInv(c, s')
  {
    hide Inv, StepProducer, StepConsumer, BlocksExist, RoomInv;
    MovesKeepsInv(s, v, canAlloc, s');
    InvExists(s);
    if s' == StepProducer(s) {
      ProducerKeepsRoom(c, s);
    } else if s' == StepConsumer(s) {
      ConsumerKeepsRoom(c, s);
    } else {
      CallKeepsRoom(c, s, s');
    }
  }

  lemma RoomBegins(c: Config)
    requires Config?(c)
    ensures RoomInv(c, Init(c))
  {
    var s := Init(c);
    forall i | 0 <= i < |s.blocks| ensures |s.blocks[i].data| >= c.size { assert s.blocks[i] == InitBlock(c, i); }
  }

  lemma {:induction false} RoomRun(c: Config, run: seq<State>, k: nat)
    requires Config?(c) && IsRun(c, run) && k < |run|
    ensures RoomInv(c, run[k])
    decreases k
  {
    hide RoomInv, Inv, Moves, IsRun;
    if k == 0 {
      hide Init;
      Begins(c, run);
      RoomBegins(c);
    } else {
      RoomRun(c, run, k - 1);
      RunInv(c, run, k - 1);
      var v, canAlloc := MoveOf(c, run, k - 1);
      RoomMoves(c, run[k - 1], v, canAlloc, run[k]);
    }
  }

  lemma Begins(c: Config, run: seq<State>)
    requires Config?(c) && IsRun(c, run)
    ensures run[0] == Init(c)
  {
  }

  // ---------------------------------------------------------------- how much they hold

  /** A list of blocks holds at least what all but the first one hold when they are full. */
  lemma {:induction false} FullHolds(blocks: seq<Block>, ids: seq<nat>, size: nat)
    requires BlocksOk(blocks) && Within(blocks, ids) && ids != [] && size >= 1
    requires forall i :: 0 < i < |ids| ==> Full(blocks[ids[i]]) && |blocks[ids[i]].data| >= size
    ensures |Concat(blocks, ids)| >= (|ids| - 1) * (size - 1)
    decreases |ids|
  {
    ConcatUnfold(blocks, ids);
    if |ids| > 1 {
      FullHolds(blocks, ids[..|ids| - 1], size);
    }
  }

  /** At the end of the ring all blocks but the front one are full. */
  lemma RoundFull(c: Config, s: State)
    requires Config?(c) && Inv(s) && BlocksExist(s) && RoomInv(c, s) && s.producer.CheckNext?
    requires !StepProducer(s).producer.LoadNextFront?
    ensures |Queue(s)| >= (|s.ring| - 1) * (c.size - 1)
  {
    RingGives(s);
    Apart(s.ring, 0, if s.depth + 1 < |s.ring| then s.depth + 1 else 0);
    QueueIsContents(s);
    assert s.ring[..s.depth + 1] == s.ring;
    assert s.depth + 1 == |s.ring|;
    FullHolds(s.blocks, s.ring, c.size);
  }

  lemma TailFull(c: Config, s: State)
    requires Config?(c) && Inv(s) && BlocksExist(s) && RoomInv(c, s)
    requires s.producer.LoadFront? && StepProducer(s).producer.CheckNext?
    ensures |Queue(s)| >= c.size - 1
  {
    NoRoomIsFull(s);
    RingGives(s);
    QueueIsContents(s);
    ConcatUnfold(s.blocks, s.ring[..s.depth + 1]);
    hide Concat, ContentsOk, RingOk, Filled, ConsumerFact, ProducerFact;
  }

  /** Several blocks have room for the size asked for besides one of them, and one alone has too. */
  lemma ConstructedRoom(size: uint64)
    requires size < HALF
    ensures var c := Constructed(size);
            && (c.blocks > 1 ==> (c.blocks - 1) * (c.size - 1) >= size)
            && (c.blocks == 1 ==> c.size - 1 >= size)
  {
    DoublesToHalf();
    PowerWithin(size + 1, 1, HALF);
  }

  // ---------------------------------------------------------------- one call

  /** From i to k the producer is in one call, which may have ended at k. */
  ghost predicate Enqueues(run: seq<State>, i: nat, k: nat) {
    && i <= k < |run| && run[i].producer.Enqueue?
    && forall j :: i <= j < k ==> !ProducerDone(run[j].producer)
  }

  /** During the call, up to k, the queue has held n elements at some point. */
  ghost predicate HasHeld(run: seq<State>, i: nat, k: nat, n: int) {
    exists j :: i <= j <= k < |run| && |Queue(run[j])| >= n
  }

  lemma ProducerRefuses(s: State)
    requires BlocksExist(s) && !ProducerDone(s.producer)
    ensures StepProducer(s).producer.CheckNext? ==> s.producer.LoadFront?
    ensures StepProducer(s).producer.NewBlock? || StepProducer(s).producer.Refused? ==> s.producer.CheckNext?
  {
    hide CellOf, Room;
  }

  /** How a call comes to look past the tail block, and to fail or to allocate. */
  lemma Refuses(s: State, v: int, canAlloc: bool, s': State)
    requires Moves(s, v, canAlloc, s') && BlocksExist(s) && !ProducerDone(s.producer)
    ensures s'.producer.CheckNext? ==> s.producer.CheckNext? || (s.producer.LoadFront? && s' == StepProducer(s))
    ensures s'.producer.NewBlock? || s'.producer.Refused? ==>
              s.producer.NewBlock? || (s.producer.CheckNext? && s' == StepProducer(s))
  {
    hide BlocksExist, StepProducer, StepConsumer;
    ProducerRefuses(s);
    ConsumerLeaves(s);
  }

  /** A look past the tail block has been preceded by a full tail block; a refusal or an allocation
      by a full round. */
  lemma {:induction false} CallHasHeld(size: uint64, run: seq<State>, i: nat, k: nat)
    requires size < HALF && Config?(Constructed(size)) && IsRun(Constructed(size), run) && Enqueues(run, i, k)
    ensures run[k].producer.CheckNext? ==> HasHeld(run, i, k, Constructed(size).size - 1)
    ensures run[k].producer.NewBlock? || run[k].producer.Refused? ==> HasHeld(run, i, k, size)
    decreases k
  {
    hide Inv, RoomInv, Moves, IsRun, StepProducer, BlocksExist, Queue, Constructed;
    if i < k {
      var c := Constructed(size);
      var s := run[k - 1];
      CallHasHeld(size, run, i, k - 1);
      RunInv(c, run, k - 1);
      RoomRun(c, run, k - 1);
      InvExists(s);
      var v, canAlloc := MoveOf(c, run, k - 1);
      Refuses(s, v, canAlloc, run[k]);
      if s.producer.LoadFront? && run[k].producer.CheckNext? {
        TailFull(c, s);
      } else if s.producer.CheckNext? && (run[k].producer.NewBlock? || run[k].producer.Refused?) {
        RoundFull(c, s);
        EnoughRoom(size, s);
      }
    }
  }

  /** A round of at least the blocks constructed holds the size asked for besides one of them, or
      consists of one block that does. */
  lemma EnoughRoom(size: uint64, s: State)
    requires size < HALF && RoomInv(Constructed(size), s)
    requires |Queue(s)| >= (|s.ring| - 1) * (Constructed(size).size - 1)
    ensures |Queue(s)| >= size || Constructed(size).size - 1 >= size
  {
    ConstructedRoom(size);
    var c := Constructed(size);
    if c.blocks > 1 {
      assert (|s.ring| - 1) * (c.size - 1) >= (c.blocks - 1) * (c.size - 1);
    }
  }

  /** A queue constructed for `size` elements, below 2^63: an enqueue is refused, or allocates a
      block, only if at some point of the call it held `size` elements or more. */
  lemma RoomForSize(size: uint64, run: seq<State>, i: nat, k: nat)
    requires size < HALF && Config?(Constructed(size)) && IsRun(Constructed(size), run) && Enqueues(run, i, k)
    requires run[k].producer.NewBlock? || run[k].producer.Refused?
    ensures exists j :: i <= j <= k && |Queue(run[j])| >= size
  {
    CallHasHeld(size, run, i, k);
  }
}
