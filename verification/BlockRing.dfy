/** moodycamel's single-producer single-consumer queue: a circular list of blocks, each a small
    ring of its own, to which the producer adds blocks and through which both sides advance.

    One producer and one consumer interleave at every access to a field the other side writes.
    Indices are kept as running counts; the code stores and compares them modulo the block's size
    (`CellOf`). Memory is sequentially consistent. */
module BlockRing {
  import opened PackedWords
  import opened RingCells
  import opened Sequences

  /** `localTail` belongs to the consumer, `localFront` to the producer. */
  datatype Block = Block(front: nat, localTail: nat, tail: nat, localFront: nat, data: seq<int>, next: nat)

  datatype Producer =
    | NoEnqueue
    | Enqueue(v: int, canAlloc: bool) | LoadFront(v: int, canAlloc: bool)
    | WriteElement(v: int) | PublishTail(v: int)
    | CheckNext(v: int, canAlloc: bool)
    | LoadNextFront(v: int) | WriteNext(v: int, b: nat) | PublishNext(v: int, b: nat)
    | NewBlock(v: int) | LinkNew(v: int, b: nat)
    | StoreTailBlock(v: int, b: nat)
    // results
    | Enqueued | Refused

  /** `wasEmpty` says whether the queue was empty when `tail` was loaded. */
  datatype Consumer =
    | NoDequeue
    | Dequeue | LoadTail | CheckTailBlock(wasEmpty: bool) | Reload
    | LoadNext | LoadNextTail(b: nat) | StoreFrontBlock(b: nat)
    | ReadElement | PublishFront(element: int)
    // results
    | Dequeued(element: int) | Empty(wasEmpty: bool)

  /** `ring` (the blocks in list order from the front block), `depth` (the tail block's place in
      it), `enqueued` and `dequeued` are history. */
  datatype State = State(
    blocks: seq<Block>, frontBlock: nat, tailBlock: nat, largest: nat,
    producer: Producer, consumer: Consumer,
    ring: seq<nat>, depth: nat, enqueued: seq<int>, dequeued: seq<int>)

  const MAX_BLOCK_SIZE: nat := 512

  const HALF: nat := 0x8000_0000_0000_0000

  datatype Config = Config(blocks: nat, size: nat)

  /** The smallest power of two that is at least x, looking from p on. */
  function PowerFrom(x: nat, p: nat): (r: nat)
    requires p > 0
    ensures r >= x && r >= p
    decreases x - p
  {
    if p >= x then p else PowerFrom(x, 2 * p)
  }

  /** ceilToPow2 in a size_t: beyond 2^63 the power of two is 2^64, which is 0. */
  function CeilToPow2(x: uint64): uint64 {
    if x == 0 then 0 else PowerFrom(x, 1) % W64
  }

  /** What the constructor makes of a requested size. */
  function Constructed(size: uint64): Config {
    var largest := CeilToPow2((size + 1) % W64);
    if largest > MAX_BLOCK_SIZE * 2 then
      Config((size + MAX_BLOCK_SIZE * 2 - 3) % W64 / (MAX_BLOCK_SIZE - 1), MAX_BLOCK_SIZE)
    else Config(1, largest)
  }

  /** A block has one slot at least, and where it has no more it is the only one. */
  predicate Config?(c: Config) { c.blocks >= 1 && c.size >= 1 && (c.size == 1 ==> c.blocks == 1) }

  /** Doubling p leads to q. */
  predicate DoublesTo(p: nat, q: nat)
    decreases q - p
  {
    p == q || (0 < p < q && DoublesTo(2 * p, q))
  }

  lemma {:induction false} PowerWithin(x: nat, p: nat, q: nat)
    requires p > 0 && DoublesTo(p, q) && x <= 2 * q
    ensures x <= q ==> PowerFrom(x, p) <= q
    ensures x > q ==> PowerFrom(x, p) == 2 * q
    decreases q - p
  {
    if p < x && p != q {
      PowerWithin(x, 2 * p, q);
    }
  }

  lemma EightTimes(p: nat, q: nat)
    requires 0 < p && 8 * p <= q && DoublesTo(8 * p, q)
    ensures DoublesTo(p, q)
  {
    assert DoublesTo(4 * p, q);
    assert DoublesTo(2 * p, q);
  }

  lemma DoublesFar(p: nat, q: nat)
    requires 0 < p && 512 * p <= q && DoublesTo(512 * p, q)
    ensures DoublesTo(p, q)
  {
    EightTimes(64 * p, q);
    EightTimes(8 * p, q);
    EightTimes(p, q);
  }

  lemma DoublesToHalf()
    ensures DoublesTo(1, HALF)
  {
    DoublesFar(0x40_0000_0000_0000, HALF);
    DoublesFar(0x2000_0000_0000, HALF);
    DoublesFar(0x10_0000_0000, HALF);
    DoublesFar(0x800_0000, HALF);
    DoublesFar(0x4_0000, HALF);
    DoublesFar(0x200, HALF);
    DoublesFar(1, HALF);
  }

  /** A requested size of 2^63 or more gives a block of no slots at all, every other one such a ring;
      and only a requested size of 0 gives a block of one slot. */
  lemma ConstructedOk(size: uint64)
    ensures Config?(Constructed(size)) <==> size < HALF
    ensures size < HALF ==> (Constructed(size).size >= 2 <==> size >= 1)
  {
    DoublesToHalf();
    PowerWithin(size + 1, 1, HALF);
    assert PowerFrom(1, 1) == 1;
    if size >= 1 { assert PowerFrom(size + 1, 1) >= 2; }
  }

  function Zeros(n: nat): (s: seq<int>)
    ensures |s| == n
  {
    seq(n, _ => 0)
  }

  function InitBlock(c: Config, i: nat): Block {
    Block(0, 0, 0, 0, Zeros(c.size), if i + 1 < c.blocks then i + 1 else 0)
  }

  function Init(c: Config): State
    requires Config?(c)
  {
    State(
      seq(c.blocks, (i: int) requires 0 <= i => InitBlock(c, i)),
      0, 0, c.size, NoEnqueue, NoDequeue, seq(c.blocks, (i: int) requires 0 <= i => i), 0, [], [])
  }

  predicate BlocksExist(s: State) {
    && s.frontBlock < |s.blocks| && s.tailBlock < |s.blocks|
    && (forall i :: 0 <= i < |s.blocks| ==> |s.blocks[i].data| > 0)
    && s.blocks[s.tailBlock].next < |s.blocks|
    && (s.producer.WriteNext? || s.producer.PublishNext? || s.producer.LinkNew? || s.producer.StoreTailBlock? ==>
          s.producer.b < |s.blocks|)
    && (s.consumer.LoadNextTail? || s.consumer.StoreFrontBlock? ==> s.consumer.b < |s.blocks|)
  }

  function SetBlock(s: State, i: nat, b: Block): State
    requires i < |s.blocks|
  {
    s.(blocks := s.blocks[i := b])
  }

  /** Has the tail block room for one more, going by this front? */
  predicate Room(b: Block, front: nat)
    requires |b.data| > 0
  {
    CellOf(b.tail + 1, |b.data|) != CellOf(front, |b.data|)
  }

  /** inner_enqueue. The fields only the producer writes are read along with the next shared one. */
  function StepProducer(s: State): State
    requires BlocksExist(s)
  {
    var t := s.tailBlock;
    var tail := s.blocks[t];
    match s.producer
    case Enqueue(v, can) =>
      s.(producer := if Room(tail, tail.localFront) then WriteElement(v) else LoadFront(v, can))
    case LoadFront(v, can) =>
      SetBlock(s, t, tail.(localFront := tail.front))
        .(producer := if Room(tail, tail.front) then WriteElement(v) else CheckNext(v, can))
    case WriteElement(v) =>
      SetBlock(s, t, tail.(data := tail.data[CellOf(tail.tail, |tail.data|) := v])).(producer := PublishTail(v))
    case PublishTail(v) =>
      SetBlock(s, t, tail.(tail := tail.tail + 1)).(producer := Enqueued, enqueued := s.enqueued + [v])
    case CheckNext(v, can) =>
      s.(producer := if tail.next != s.frontBlock then LoadNextFront(v) else if can then NewBlock(v) else Refused)
    case LoadNextFront(v) =>
      var b := s.blocks[tail.next];
      SetBlock(s, tail.next, b.(localFront := b.front)).(producer := WriteNext(v, tail.next))
    case WriteNext(v, n) =>
      var b := s.blocks[n];
      SetBlock(s, n, b.(data := b.data[CellOf(b.tail, |b.data|) := v])).(producer := PublishNext(v, n))
    case PublishNext(v, n) =>
      SetBlock(s, n, s.blocks[n].(tail := s.blocks[n].tail + 1)).(producer := StoreTailBlock(v, n))
    case NewBlock(v) =>
      var size := if s.largest >= MAX_BLOCK_SIZE then s.largest else s.largest * 2;
      var b := Block(0, 1, 1, 0, if size > 0 then Zeros(size)[0 := v] else [v], tail.next);
      s.(blocks := s.blocks + [b], largest := size, producer := LinkNew(v, |s.blocks|))
    case LinkNew(v, n) =>
      SetBlock(s, t, tail.(next := n))
        .(producer := StoreTailBlock(v, n),
          ring := if s.depth < |s.ring| then s.ring[..s.depth + 1] + [n] + s.ring[s.depth + 1..] else s.ring)
    case StoreTailBlock(v, n) =>
      s.(tailBlock := n, depth := s.depth + 1, producer := Enqueued, enqueued := s.enqueued + [v])
    case _ => s
  }

  /** try_dequeue. */
  function StepConsumer(s: State): State
    requires BlocksExist(s)
  {
    var f := s.frontBlock;
    var front := s.blocks[f];
    match s.consumer
    case Dequeue =>
      s.(consumer := if CellOf(front.front, |front.data|) != CellOf(front.localTail, |front.data|) then ReadElement else LoadTail)
    case LoadTail =>
      SetBlock(s, f, front.(localTail := front.tail))
        .(consumer := if CellOf(front.front, |front.data|) != CellOf(front.tail, |front.data|) then ReadElement
                      else CheckTailBlock(s.enqueued == s.dequeued))
    case CheckTailBlock(e) => s.(consumer := if f != s.tailBlock then Reload else Empty(e))
    case Reload =>
      SetBlock(s, f, front.(localTail := front.tail))
        .(consumer := if CellOf(front.front, |front.data|) != CellOf(front.tail, |front.data|) then ReadElement else LoadNext)
    case LoadNext => s.(consumer := LoadNextTail(front.next))
    case LoadNextTail(n) =>
      SetBlock(s, n, s.blocks[n].(localTail := s.blocks[n].tail)).(consumer := StoreFrontBlock(n))
    case StoreFrontBlock(n) =>
      s.(frontBlock := n, consumer := ReadElement,
         ring := if |s.ring| > 0 then s.ring[1..] + [s.ring[0]] else [], depth := if s.depth > 0 then s.depth - 1 else 0)
    case ReadElement => s.(consumer := PublishFront(front.data[CellOf(front.front, |front.data|)]))
    case PublishFront(e) =>
      SetBlock(s, f, front.(front := front.front + 1)).(consumer := Dequeued(e), dequeued := s.dequeued + [e])
    case _ => s
  }

  predicate ProducerDone(pc: Producer) { pc.NoEnqueue? || pc.Enqueued? || pc.Refused? }
  predicate ConsumerDone(pc: Consumer) { pc.NoDequeue? || pc.Dequeued? || pc.Empty? }

  /** A side takes its next step, or makes a call; the allocation of a block may fail. */
  predicate Moves(s: State, v: int, canAlloc: bool, s': State) {
    || (BlocksExist(s) && s' == StepProducer(s))
    || (BlocksExist(s) && s' == StepConsumer(s))
    || (s.producer.NewBlock? && s' == s.(producer := Refused))
    || (ProducerDone(s.producer) && s' == s.(producer := Enqueue(v, canAlloc)))
    || (ConsumerDone(s.consumer) && s' == s.(consumer := Dequeue))
  }

  ghost predicate Next(s: State, s': State) {
    exists v: int, canAlloc: bool :: Moves(s, v, canAlloc, s')
  }

  ghost predicate IsRun(c: Config, run: seq<State>)
    requires Config?(c)
  {
    && |run| > 0
    && run[0] == Init(c)
    && forall i :: 0 < i < |run| ==> Next(run[i - 1], run[i])
  }

  // ---------------------------------------------------------------- contents

  function Items(b: Block): (s: seq<int>)
    requires |b.data| > 0 && b.front <= b.tail
    ensures |s| == b.tail - b.front
  {
    seq(b.tail - b.front, (k: int) requires 0 <= k => b.data[CellOf(b.front + k, |b.data|)])
  }

  /** The most a block can hold. One slot is kept spare; a block with no other slot is written to
      only when the tail moves on to it. */
  function Most(b: Block): nat {
    if |b.data| == 1 then 1 else if |b.data| == 0 then 0 else |b.data| - 1
  }

  predicate BlockOk(b: Block) {
    && |b.data| >= 1
    && b.localFront <= b.front <= b.localTail <= b.tail <= b.localFront + Most(b)
  }

  predicate BlocksOk(blocks: seq<Block>) {
    forall i :: 0 <= i < |blocks| ==> BlockOk(blocks[i])
  }

  /** The elements of a list of blocks, in order. */
  function Concat(blocks: seq<Block>, ids: seq<nat>): seq<int>
    requires BlocksOk(blocks) && forall i :: 0 <= i < |ids| ==> ids[i] < |blocks|
  {
    if ids == [] then [] else Concat(blocks, ids[..|ids| - 1]) + Items(blocks[ids[|ids| - 1]])
  }

  lemma RoomMeaning(b: Block, front: nat)
    requires BlockOk(b) && b.localFront <= front <= b.front
    ensures Room(b, front) <==> b.tail + 1 < front + |b.data|
  {
    if |b.data| == 1 {
      assert CellOf(b.tail + 1, 1) == CellOf(front, 1) == 0;
    } else {
      CellsApart(front, b.tail + 1, |b.data|);
    }
  }

  lemma DifferMeaning(b: Block, x: nat)
    requires BlockOk(b) && b.front <= x <= b.tail && (|b.data| >= 2 || b.front == b.tail)
    ensures CellOf(b.front, |b.data|) != CellOf(x, |b.data|) <==> b.front < x
  {
    CellsApart(b.front, x, |b.data|);
  }

  // ---------------------------------------------------------------- items

  /** Writing at the tail index touches no element of the block. */
  lemma ItemsAfterWrite(b: Block, v: int)
    requires BlockOk(b) && (|b.data| >= 2 || b.front == b.tail)
    ensures BlockOk(b.(data := b.data[CellOf(b.tail, |b.data|) := v]))
    ensures Items(b.(data := b.data[CellOf(b.tail, |b.data|) := v])) == Items(b)
  {
    var b' := b.(data := b.data[CellOf(b.tail, |b.data|) := v]);
    forall k | 0 <= k < b.tail - b.front ensures Items(b')[k] == Items(b)[k] {
      CellsApart(b.front + k, b.tail, |b.data|);
      assert CellOf(b.front + k, |b.data|) != CellOf(b.tail, |b.data|);
    }
  }

  lemma ItemsAfterPublish(b: Block, v: int)
    requires BlockOk(b) && b.tail + 1 <= b.localFront + Most(b) && b.data[CellOf(b.tail, |b.data|)] == v
    ensures BlockOk(b.(tail := b.tail + 1))
    ensures Items(b.(tail := b.tail + 1)) == Items(b) + [v]
  {
    var b' := b.(tail := b.tail + 1);
    assert CellOf(b.front + (b.tail - b.front), |b'.data|) == CellOf(b.tail, |b.data|);
  }

  lemma ItemsAfterTake(b: Block)
    requires BlockOk(b) && b.front < b.localTail
    ensures BlockOk(b.(front := b.front + 1))
    ensures Items(b) == [b.data[CellOf(b.front, |b.data|)]] + Items(b.(front := b.front + 1))
  {
    var b' := b.(front := b.front + 1);
    assert Items(b)[0] == b.data[CellOf(b.front + 0, |b.data|)];
    forall k | 0 <= k < b'.tail - b'.front ensures Items(b)[k + 1] == Items(b')[k] {
      assert b.front + (k + 1) == b'.front + k;
    }
  }

  predicate Within(blocks: seq<Block>, ids: seq<nat>) {
    forall i :: 0 <= i < |ids| ==> ids[i] < |blocks|
  }

  /** Only the items of the listed blocks matter. */
  lemma {:induction false} ConcatSame(blocks: seq<Block>, blocks': seq<Block>, ids: seq<nat>)
    requires BlocksOk(blocks) && BlocksOk(blocks') && Within(blocks, ids) && Within(blocks', ids)
    requires forall i :: 0 <= i < |ids| ==> Items(blocks'[ids[i]]) == Items(blocks[ids[i]])
    ensures Concat(blocks', ids) == Concat(blocks, ids)
    decreases |ids|
  {
    if ids != [] {
      ConcatSame(blocks, blocks', ids[..|ids| - 1]);
    }
  }

  lemma ConcatUnfold(blocks: seq<Block>, ids: seq<nat>)
    requires BlocksOk(blocks) && Within(blocks, ids) && ids != []
    ensures Concat(blocks, ids) == Concat(blocks, ids[..|ids| - 1]) + Items(blocks[ids[|ids| - 1]])
  {
  }

  /** The items of one block of a list. */
  function ItemsAt(blocks: seq<Block>, ids: seq<nat>, i: nat): seq<int>
    requires BlocksOk(blocks) && Within(blocks, ids) && i < |ids|
  {
    Items(blocks[ids[i]])
  }

  lemma ConcatEnds(blocks: seq<Block>, ids: seq<nat>)
    requires BlocksOk(blocks) && Within(blocks, ids) && |ids| > 1
    ensures var n := |ids| - 1;
            && Within(blocks, ids[..n]) && Within(blocks, ids[1..]) && Within(blocks, ids[1..n])
            && Concat(blocks, ids) == Concat(blocks, ids[..n]) + ItemsAt(blocks, ids, n)
            && Concat(blocks, ids[1..]) == Concat(blocks, ids[1..n]) + ItemsAt(blocks, ids, n)
            && ids[..n][1..] == ids[1..n] && ItemsAt(blocks, ids[..n], 0) == ItemsAt(blocks, ids, 0)
  {
    hide Items;
    var n := |ids| - 1;
    assert ids[1..][..n - 1] == ids[1..n] == ids[..n][1..];
    ConcatUnfold(blocks, ids);
    ConcatUnfold(blocks, ids[1..]);
    hide Concat;
  }

  lemma {:induction false} ConcatFirst(blocks: seq<Block>, ids: seq<nat>)
    requires BlocksOk(blocks) && Within(blocks, ids) && ids != []
    ensures Within(blocks, ids[1..])
    ensures Concat(blocks, ids) == ItemsAt(blocks, ids, 0) + Concat(blocks, ids[1..])
    decreases |ids|
  {
    var n := |ids| - 1;
    if n == 0 {
      assert ids[..0] == [] && ids[1..] == [];
    } else {
      hide Concat, ItemsAt, BlocksOk, Within;
      ConcatEnds(blocks, ids);
      ConcatFirst(blocks, ids[..n]);
    }
  }

  // ---------------------------------------------------------------- the invariant

  function After(ring: seq<nat>, i: nat): nat
    requires i < |ring|
  {
    if i + 1 < |ring| then ring[i + 1] else ring[0]
  }

  predicate Linked(blocks: seq<Block>, ring: seq<nat>, i: nat)
    requires i < |ring| && Within(blocks, ring)
  {
    blocks[ring[i]].next == After(ring, i)
  }

  /** The ring is the circular list from the front block, and the tail block is in it. */
  predicate RingOk(blocks: seq<Block>, frontBlock: nat, tailBlock: nat, ring: seq<nat>, depth: nat) {
    && depth < |ring| && ring[0] == frontBlock && ring[depth] == tailBlock
    && Distinct(ring) && Within(blocks, ring)
    && forall i :: 0 <= i < |ring| ==> Linked(blocks, ring, i)
  }

  /** Every block the tail has moved on to holds something; every block ahead of it is empty, but
      for the one the producer is about to move on to. */
  predicate Filled(blocks: seq<Block>, ring: seq<nat>, depth: nat, pending: bool)
    requires Within(blocks, ring)
  {
    && (forall i :: 0 < i <= depth && i < |ring| ==> blocks[ring[i]].front < blocks[ring[i]].tail)
    && (forall i :: depth < i < |ring| && !(pending && i == depth + 1) ==>
          blocks[ring[i]].front == blocks[ring[i]].tail)
  }

  predicate ProducerFact(blocks: seq<Block>, tailBlock: nat, ring: seq<nat>, depth: nat, producer: Producer)
    requires BlocksOk(blocks) && Within(blocks, ring) && depth < |ring| && tailBlock < |blocks|
  {
    var t := blocks[tailBlock];
    match producer
    case WriteElement(_) => t.tail + 1 < t.localFront + |t.data|
    case PublishTail(v) => t.tail + 1 < t.localFront + |t.data| && t.data[CellOf(t.tail, |t.data|)] == v
    case LoadNextFront(_) => depth + 1 < |ring|
    case WriteNext(_, n) => depth + 1 < |ring| && n == ring[depth + 1] && blocks[n].localFront == blocks[n].tail
    case PublishNext(v, n) =>
      && depth + 1 < |ring| && n == ring[depth + 1] && blocks[n].localFront == blocks[n].tail
      && blocks[n].data[CellOf(blocks[n].tail, |blocks[n].data|)] == v
    case StoreTailBlock(v, n) => depth + 1 < |ring| && n == ring[depth + 1] && Items(blocks[n]) == [v]
    case LinkNew(v, n) =>
      && n < |blocks| && n !in ring && Items(blocks[n]) == [v] && blocks[n].next == t.next
    case _ => true
  }

  predicate ConsumerFact(blocks: seq<Block>, frontBlock: nat, ring: seq<nat>, depth: nat, consumer: Consumer)
    requires BlocksOk(blocks) && Within(blocks, ring) && depth < |ring| && frontBlock < |blocks|
  {
    var f := blocks[frontBlock];
    && (|f.data| == 1 && !consumer.ReadElement? && !consumer.PublishFront? ==> f.front == f.tail)
    && match consumer
    case CheckTailBlock(e) => depth == 0 ==> e
    case Empty(e) => e
    case Reload => depth > 0
    case LoadNext => depth > 0 && f.front == f.tail
    case LoadNextTail(n) => depth > 0 && f.front == f.tail && n == ring[1]
    case StoreFrontBlock(n) =>
      depth > 0 && f.front == f.tail && n == ring[1] && blocks[n].front < blocks[n].localTail
    case ReadElement => f.front < f.localTail
    case PublishFront(e) => f.front < f.localTail && e == Items(f)[0]
    case _ => true
  }

  /** What has been enqueued is what has been dequeued and what the blocks hold, in order. */
  predicate ContentsOk(blocks: seq<Block>, ring: seq<nat>, depth: nat, enqueued: seq<int>, dequeued: seq<int>)
    requires BlocksOk(blocks) && Within(blocks, ring) && depth < |ring|
  {
    enqueued == dequeued + Concat(blocks, ring[..depth + 1])
  }

  predicate Core(blocks: seq<Block>, frontBlock: nat, tailBlock: nat, ring: seq<nat>, depth: nat,
                 enqueued: seq<int>, dequeued: seq<int>, pending: bool)
  {
    && BlocksOk(blocks)
    && RingOk(blocks, frontBlock, tailBlock, ring, depth)
    && Filled(blocks, ring, depth, pending)
    && ContentsOk(blocks, ring, depth, enqueued, dequeued)
  }

  predicate Inv(s: State) {
    && s.largest >= 1
    && Core(s.blocks, s.frontBlock, s.tailBlock, s.ring, s.depth, s.enqueued, s.dequeued, s.producer.StoreTailBlock?)
    && ProducerFact(s.blocks, s.tailBlock, s.ring, s.depth, s.producer)
    && ConsumerFact(s.blocks, s.frontBlock, s.ring, s.depth, s.consumer)
  }

  // ---------------------------------------------------------------- changes to one block

  lemma ItemsSame(b: Block, b': Block)
    requires BlockOk(b) && b'.data == b.data && b'.front == b.front && b'.tail == b.tail
    ensures Items(b') == Items(b)
  {
  }

  lemma RingQuiet(s: State, j: nat, b: Block)
    requires RingOk(s.blocks, s.frontBlock, s.tailBlock, s.ring, s.depth)
    requires j < |s.blocks| && b.next == s.blocks[j].next
    ensures RingOk(s.blocks[j := b], s.frontBlock, s.tailBlock, s.ring, s.depth)
  {
    hide Distinct;
    var after := s.blocks[j := b];
    forall i | 0 <= i < |s.ring| ensures Linked(after, s.ring, i) {
      assert Linked(s.blocks, s.ring, i);
    }
  }

  lemma FilledQuiet(s: State, j: nat, b: Block, pending: bool)
    requires Within(s.blocks, s.ring) && Filled(s.blocks, s.ring, s.depth, pending)
    requires j < |s.blocks| && b.front == s.blocks[j].front && b.tail == s.blocks[j].tail
    ensures Within(s.blocks[j := b], s.ring) && Filled(s.blocks[j := b], s.ring, s.depth, pending)
  {
  }

  lemma ContentsQuiet(s: State, j: nat, b: Block)
    requires BlocksOk(s.blocks) && Within(s.blocks, s.ring) && s.depth < |s.ring|
    requires ContentsOk(s.blocks, s.ring, s.depth, s.enqueued, s.dequeued)
    requires j < |s.blocks| && BlockOk(b) && Items(b) == Items(s.blocks[j])
    ensures BlocksOk(s.blocks[j := b]) && Within(s.blocks[j := b], s.ring)
    ensures ContentsOk(s.blocks[j := b], s.ring, s.depth, s.enqueued, s.dequeued)
  {
    hide Concat, Items, BlockOk;
    ConcatSame(s.blocks, s.blocks[j := b], s.ring[..s.depth + 1]);
  }

  /** Changing what is in a block, but not its items, changes nothing else. */
  lemma CoreQuiet(s: State, j: nat, b: Block, pending: bool)
    requires Core(s.blocks, s.frontBlock, s.tailBlock, s.ring, s.depth, s.enqueued, s.dequeued, pending)
    requires j < |s.blocks| && BlockOk(b)
    requires b.next == s.blocks[j].next && b.front == s.blocks[j].front && b.tail == s.blocks[j].tail
    requires Items(b) == Items(s.blocks[j])
    ensures Core(s.blocks[j := b], s.frontBlock, s.tailBlock, s.ring, s.depth, s.enqueued, s.dequeued, pending)
  {
    RingGives(s);
    hide RingOk, Filled, ContentsOk, BlocksOk, Items, BlockOk, Within;
    RingQuiet(s, j, b);
    FilledQuiet(s, j, b, pending);
    ContentsQuiet(s, j, b);
  }

  /** What the ring says, without quantifiers. */
  lemma RingGives(s: State)
    requires BlocksOk(s.blocks) && RingOk(s.blocks, s.frontBlock, s.tailBlock, s.ring, s.depth)
    ensures Within(s.blocks, s.ring) && s.depth < |s.ring| && Distinct(s.ring)
    ensures s.ring[0] == s.frontBlock < |s.blocks| && s.ring[s.depth] == s.tailBlock < |s.blocks|
    ensures BlockOk(s.blocks[s.frontBlock]) && BlockOk(s.blocks[s.tailBlock])
    ensures s.depth + 1 < |s.ring| ==>
              s.ring[s.depth + 1] < |s.blocks| && BlockOk(s.blocks[s.ring[s.depth + 1]])
    ensures s.blocks[s.tailBlock].next == After(s.ring, s.depth)
    ensures s.blocks[s.frontBlock].next == After(s.ring, 0)
  {
    assert Linked(s.blocks, s.ring, s.depth) && Linked(s.blocks, s.ring, 0);
  }

  lemma Apart(ring: seq<nat>, i: nat, j: nat)
    requires Distinct(ring) && i < |ring| && j < |ring|
    ensures ring[i] == ring[j] <==> i == j
  {
  }

  /** The producer writes to a block without publishing: the consumer's facts stay. */
  lemma ConsumerQuiet(s: State, j: nat, b: Block)
    requires Inv(s) && j < |s.blocks| && BlockOk(b)
    requires b.front == s.blocks[j].front && b.tail == s.blocks[j].tail && b.localTail == s.blocks[j].localTail
    requires |b.data| == |s.blocks[j].data|
    requires Items(b) == Items(s.blocks[j]) && b.next == s.blocks[j].next
    ensures Within(s.blocks[j := b], s.ring) && BlocksOk(s.blocks[j := b])
    ensures ConsumerFact(s.blocks[j := b], s.frontBlock, s.ring, s.depth, s.consumer)
  {
    hide CellOf, Concat, Items, ContentsOk, Filled, ProducerFact;
  }

  /** The consumer moves its own fields of a block up to the tail: the producer's facts stay. */
  lemma ProducerQuiet(s: State, i: nat, b: Block)
    requires Inv(s) && i <= s.depth && BlockOk(b)
    requires var o := s.blocks[s.ring[i]];
             b.tail == o.tail && b.localFront == o.localFront && b.data == o.data && b.next == o.next
    ensures var blocks := s.blocks[s.ring[i] := b];
            Within(blocks, s.ring) && BlocksOk(blocks)
            && ProducerFact(blocks, s.tailBlock, s.ring, s.depth, s.producer)
  {
    RingGives(s);
    if s.depth + 1 < |s.ring| { Apart(s.ring, i, s.depth + 1); }
    Apart(s.ring, i, s.depth);
    hide CellOf, Concat, Items, ContentsOk, Filled, ConsumerFact, RingOk, Distinct;
  }

  // ---------------------------------------------------------------- the producer's steps

  lemma EnqueueStep(s: State)
    requires Inv(s) && BlocksExist(s) && (s.producer.Enqueue? || s.producer.LoadFront?)
    ensures Inv(StepProducer(s))
  {
    hide CellOf, Concat, Items, ContentsOk, Filled, ConsumerFact;
    var t := s.blocks[s.tailBlock];
    hide Room;
    RoomMeaning(t, t.localFront);
    RoomMeaning(t, t.front);
    if s.producer.LoadFront? {
      ItemsSame(t, t.(localFront := t.front));
      CoreQuiet(s, s.tailBlock, t.(localFront := t.front), false);
      ConsumerQuiet(s, s.tailBlock, t.(localFront := t.front));
    }
  }

  lemma WriteStep(s: State)
    requires Inv(s) && BlocksExist(s) && (s.producer.WriteElement? || s.producer.WriteNext?)
    ensures Inv(StepProducer(s))
  {
    hide CellOf, Concat, Items, ContentsOk, Filled, ConsumerFact;
    RingGives(s);
    hide RingOk, Within;
    var j := if s.producer.WriteElement? then s.tailBlock else s.producer.b;
    var o := s.blocks[j];
    var b := o.(data := o.data[CellOf(o.tail, |o.data|) := s.producer.v]);
    ItemsAfterWrite(o, s.producer.v);
    CoreQuiet(s, j, b, false);
    ConsumerQuiet(s, j, b);
  }

  /** The elements before those of the tail block. */
  lemma ConcatLast(s: State)
    requires BlocksOk(s.blocks) && Within(s.blocks, s.ring) && s.depth < |s.ring|
    ensures Concat(s.blocks, s.ring[..s.depth + 1])
            == Concat(s.blocks, s.ring[..s.depth]) + Items(s.blocks[s.ring[s.depth]])
  {
    assert s.ring[..s.depth + 1][..s.depth] == s.ring[..s.depth];
  }

  lemma PublishTailStep(s: State)
    requires Inv(s) && BlocksExist(s) && s.producer.PublishTail?
    ensures Inv(StepProducer(s))
  {
    hide Concat, Items, CellOf, ContentsOk, RingOk, Filled, Within, BlocksOk, BlockOk, Distinct, ConsumerFact;
    RingGives(s);
    var v := s.producer.v;
    var o := s.blocks[s.tailBlock];
    var b := o.(tail := o.tail + 1);
    ItemsAfterPublish(o, v);
    RingQuiet(s, s.tailBlock, b);
    PublishContents(s, b, v);
    PublishConsumer(s, b, v);
  }

  lemma PublishContents(s: State, b: Block, v: int)
    requires Inv(s) && BlockOk(b) && Items(b) == Items(s.blocks[s.tailBlock]) + [v]
    ensures BlocksOk(s.blocks[s.tailBlock := b]) && Within(s.blocks[s.tailBlock := b], s.ring)
    ensures ContentsOk(s.blocks[s.tailBlock := b], s.ring, s.depth, s.enqueued + [v], s.dequeued)
    ensures Filled(s.blocks[s.tailBlock := b], s.ring, s.depth, s.producer.StoreTailBlock?)
  {
    hide Concat, Items, ProducerFact, ConsumerFact;
    PublishFilled(s, b, v);
    hide Filled;
    var s' := s.(blocks := s.blocks[s.tailBlock := b]);
    ConcatLast(s);
    ConcatLast(s');
    ConcatSame(s.blocks, s'.blocks, s.ring[..s.depth]);
  }

  lemma PublishFilled(s: State, b: Block, v: int)
    requires Inv(s) && BlockOk(b) && Items(b) == Items(s.blocks[s.tailBlock]) + [v]
    ensures Within(s.blocks[s.tailBlock := b], s.ring)
    ensures Filled(s.blocks[s.tailBlock := b], s.ring, s.depth, s.producer.StoreTailBlock?)
  {
    RingGives(s);
    assert |Items(b)| > 0;
    hide Concat, Items, ProducerFact, ConsumerFact, ContentsOk;
    forall i | 0 <= i < |s.ring| && i != s.depth ensures s.ring[i] != s.tailBlock {
      Apart(s.ring, i, s.depth);
    }
  }

  lemma PublishConsumer(s: State, b: Block, v: int)
    requires Inv(s) && BlockOk(b) && |b.data| >= 2 && Items(b) == Items(s.blocks[s.tailBlock]) + [v]
    requires var o := s.blocks[s.tailBlock];
             b.front == o.front && b.localTail == o.localTail && b.next == o.next
    ensures BlocksOk(s.blocks[s.tailBlock := b]) && Within(s.blocks[s.tailBlock := b], s.ring)
    ensures ConsumerFact(s.blocks[s.tailBlock := b], s.frontBlock, s.ring, s.depth, s.consumer)
  {
    RingGives(s);
    Apart(s.ring, 0, s.depth);
    if s.depth > 0 { Apart(s.ring, 1, s.depth); }
    hide Concat, Filled, ProducerFact, ContentsOk, RingOk, Distinct;
  }

  lemma CheckNextStep(s: State)
    requires Inv(s) && BlocksExist(s) && s.producer.CheckNext?
    ensures Inv(StepProducer(s))
  {
    RingGives(s);
    hide Concat, Items, ContentsOk, Filled, ConsumerFact, RingOk, BlocksOk;
  }

  /** The block ahead of a tail that is not the last: it is empty. */
  lemma Ahead(s: State)
    requires Inv(s) && s.depth + 1 < |s.ring| && !s.producer.StoreTailBlock?
    ensures var n := s.ring[s.depth + 1];
            && n == s.blocks[s.tailBlock].next && n < |s.blocks| && BlockOk(s.blocks[n])
            && s.blocks[n].front == s.blocks[n].tail
  {
    RingGives(s);
    hide Concat, Items, ContentsOk, ConsumerFact;
  }

  lemma LoadNextFrontStep(s: State)
    requires Inv(s) && BlocksExist(s) && s.producer.LoadNextFront?
    ensures Inv(StepProducer(s))
  {
    RingGives(s);
    Ahead(s);
    hide Concat, Items, ContentsOk, Filled, ConsumerFact, RingOk, BlocksOk;
    var n := s.ring[s.depth + 1];
    var b := s.blocks[n].(localFront := s.blocks[n].front);
    ItemsSame(s.blocks[n], b);
    CoreQuiet(s, n, b, false);
    ConsumerQuiet(s, n, b);
  }

  lemma NoItems(b: Block)
    requires BlockOk(b)
    ensures b.front == b.tail <==> Items(b) == []
  {
  }

  lemma PublishNextStep(s: State)
    requires Inv(s) && BlocksExist(s) && s.producer.PublishNext?
    ensures Inv(StepProducer(s))
  {
    hide Concat, Items, CellOf, ContentsOk, RingOk, Filled, Within, BlocksOk, BlockOk, Distinct, ConsumerFact;
    RingGives(s);
    Ahead(s);
    var n := s.producer.b;
    var o := s.blocks[n];
    var b := o.(tail := o.tail + 1);
    ItemsAfterPublish(o, s.producer.v);
    NoItems(o);
    RingQuiet(s, n, b);
    AheadContents(s, b);
    AheadConsumer(s, b);
  }

  /** The block ahead of the tail counts for nothing yet. */
  lemma AheadContents(s: State, b: Block)
    requires Inv(s) && s.depth + 1 < |s.ring| && BlockOk(b)
    ensures var blocks := s.blocks[s.ring[s.depth + 1] := b];
            && BlocksOk(blocks) && Within(blocks, s.ring)
            && ContentsOk(blocks, s.ring, s.depth, s.enqueued, s.dequeued)
            && Filled(blocks, s.ring, s.depth, true)
  {
    hide Concat, Items, ProducerFact, ConsumerFact;
    var n := s.ring[s.depth + 1];
    var ids := s.ring[..s.depth + 1];
    forall i | 0 <= i < |ids| ensures ids[i] != n {
      Apart(s.ring, i, s.depth + 1);
    }
    ConcatSame(s.blocks, s.blocks[n := b], ids);
  }

  lemma AheadConsumer(s: State, b: Block)
    requires Inv(s) && s.depth + 1 < |s.ring| && BlockOk(b)
    ensures var blocks := s.blocks[s.ring[s.depth + 1] := b];
            && BlocksOk(blocks) && Within(blocks, s.ring)
            && ConsumerFact(blocks, s.frontBlock, s.ring, s.depth, s.consumer)
  {
    RingGives(s);
    Apart(s.ring, 0, s.depth + 1);
    Apart(s.ring, 1, s.depth + 1);
    hide Concat, Filled, ProducerFact, ContentsOk, RingOk, Distinct;
  }

  /** The element of the block the producer moves on to joins the queue. */
  lemma ContentsNext(blocks: seq<Block>, ring: seq<nat>, depth: nat, enqueued: seq<int>, dequeued: seq<int>, v: int)
    requires BlocksOk(blocks) && Within(blocks, ring) && depth + 1 < |ring|
    requires ContentsOk(blocks, ring, depth, enqueued, dequeued) && Items(blocks[ring[depth + 1]]) == [v]
    ensures ContentsOk(blocks, ring, depth + 1, enqueued + [v], dequeued)
  {
    hide Items, BlocksOk;
    assert ring[..depth + 2][..depth + 1] == ring[..depth + 1];
    assert dequeued + (Concat(blocks, ring[..depth + 1]) + [v]) == dequeued + Concat(blocks, ring[..depth + 1]) + [v];
  }

  lemma RingNext(blocks: seq<Block>, frontBlock: nat, tailBlock: nat, ring: seq<nat>, depth: nat)
    requires RingOk(blocks, frontBlock, tailBlock, ring, depth) && depth + 1 < |ring|
    ensures RingOk(blocks, frontBlock, ring[depth + 1], ring, depth + 1)
  {
    hide Distinct;
  }

  /** Whoever has one item is not empty. */
  lemma FilledNext(blocks: seq<Block>, ring: seq<nat>, depth: nat, v: int)
    requires BlocksOk(blocks) && Within(blocks, ring) && depth + 1 < |ring|
    requires Filled(blocks, ring, depth, true) && Items(blocks[ring[depth + 1]]) == [v]
    ensures Filled(blocks, ring, depth + 1, false)
  {
    assert |Items(blocks[ring[depth + 1]])| == 1;
  }

  lemma StoreTailBlockStep(s: State)
    requires Inv(s) && BlocksExist(s) && s.producer.StoreTailBlock?
    ensures Inv(StepProducer(s))
  {
    hide Concat, Items, Distinct, ContentsOk, RingOk, Filled, BlocksOk;
    RingGives(s);
    ContentsNext(s.blocks, s.ring, s.depth, s.enqueued, s.dequeued, s.producer.v);
    RingNext(s.blocks, s.frontBlock, s.tailBlock, s.ring, s.depth);
    FilledNext(s.blocks, s.ring, s.depth, s.producer.v);
  }

  lemma NewBlockStep(s: State)
    requires Inv(s) && BlocksExist(s) && s.producer.NewBlock?
    ensures Inv(StepProducer(s))
  {
    RingGives(s);
    var s' := StepProducer(s);
    var n := |s.blocks|;
    var b := s'.blocks[n];
    assert s'.blocks == s.blocks + [b];
    FirstItem(b, s.producer.v);
    Appended(s, b);
    hide Concat, Items, Distinct, ContentsOk, RingOk, Filled, BlocksOk;
  }

  lemma FirstItem(b: Block, v: int)
    requires |b.data| >= 2 && b.data[0] == v && b.front == b.localFront == 0 && b.tail == b.localTail == 1
    ensures BlockOk(b) && Items(b) == [v]
  {
    assert CellOf(0, |b.data|) == 0;
  }

  /** A block that is not yet linked is nobody's business. */
  lemma Appended(s: State, b: Block)
    requires Inv(s) && BlockOk(b)
    ensures var blocks := s.blocks + [b];
            && Core(blocks, s.frontBlock, s.tailBlock, s.ring, s.depth, s.enqueued, s.dequeued, s.producer.StoreTailBlock?)
            && ConsumerFact(blocks, s.frontBlock, s.ring, s.depth, s.consumer)
            && |s.blocks| !in s.ring
  {
    hide Concat, Items, Distinct, CellOf;
    var blocks := s.blocks + [b];
    forall i | 0 <= i < |s.ring| ensures Linked(blocks, s.ring, i) {
      assert Linked(s.blocks, s.ring, i);
    }
    ConcatSame(s.blocks, blocks, s.ring[..s.depth + 1]);
  }

  lemma LinkNewStep(s: State)
    requires Inv(s) && BlocksExist(s) && s.producer.LinkNew?
    ensures Inv(StepProducer(s))
  {
    RingGives(s);
    var s' := StepProducer(s);
    InsertedRing(s);
    InsertedContents(s);
    InsertedFilled(s);
    InsertedConsumer(s);
    hide Concat, Items, Distinct, ContentsOk, RingOk, Filled, BlocksOk;
  }

  function Inserted(s: State, n: nat): seq<nat>
    requires s.depth < |s.ring|
  {
    s.ring[..s.depth + 1] + [n] + s.ring[s.depth + 1..]
  }

  /** Linking block n in after the d-th of the ring. */
  lemma LinkInserted(blocks: seq<Block>, ring: seq<nat>, d: nat, n: nat, i: nat)
    requires Distinct(ring) && Within(blocks, ring) && d < |ring| && n < |blocks| && n !in ring && i <= |ring|
    requires blocks[n].next == After(ring, d)
    requires Linked(blocks, ring, if i <= d then i else if i == d + 1 then d else i - 1)
    ensures var blocks' := blocks[ring[d] := blocks[ring[d]].(next := n)];
            var ring' := ring[..d + 1] + [n] + ring[d + 1..];
            Within(blocks', ring') && Linked(blocks', ring', i)
  {
    if i <= d { Apart(ring, i, d); } else if i > d + 1 { Apart(ring, i - 1, d); }
    hide Distinct;
  }

  lemma InsertedLink(s: State, i: nat)
    requires Inv(s) && BlocksExist(s) && s.producer.LinkNew? && i <= |s.ring|
    ensures var s' := StepProducer(s);
            |s'.ring| == |s.ring| + 1 && Within(s'.blocks, s'.ring) && Linked(s'.blocks, s'.ring, i)
  {
    hide Concat, Items, CellOf, ContentsOk, ConsumerFact, BlocksOk, Filled, Distinct;
    RingGives(s);
    assert Linked(s.blocks, s.ring, if i <= s.depth then i else if i == s.depth + 1 then s.depth else i - 1);
    LinkInserted(s.blocks, s.ring, s.depth, s.producer.b, i);
    hide RingOk, Linked, Within;
  }

  lemma InsertedRing(s: State)
    requires Inv(s) && BlocksExist(s) && s.producer.LinkNew?
    ensures var s' := StepProducer(s);
            RingOk(s'.blocks, s'.frontBlock, s'.tailBlock, s'.ring, s'.depth)
  {
    hide Concat, Items, CellOf, ContentsOk, ConsumerFact, BlocksOk, Filled;
    RingGives(s);
    var s' := StepProducer(s);
    var n := s.producer.b;
    assert s'.ring == Inserted(s, n);
    forall i | 0 <= i < |s'.ring| ensures Linked(s'.blocks, s'.ring, i) {
      InsertedLink(s, i);
    }
  }

  lemma InsertedContents(s: State)
    requires Inv(s) && BlocksExist(s) && s.producer.LinkNew?
    ensures var s' := StepProducer(s);
            && BlocksOk(s'.blocks) && Within(s'.blocks, s'.ring) && s'.depth < |s'.ring|
            && ContentsOk(s'.blocks, s'.ring, s'.depth, s'.enqueued, s'.dequeued)
  {
    hide Concat, Items, CellOf, ConsumerFact, Filled;
    RingGives(s);
    var s' := StepProducer(s);
    ItemsSame(s.blocks[s.tailBlock], s'.blocks[s.tailBlock]);
    var ids := s.ring[..s.depth + 1];
    assert s'.ring[..s.depth + 1] == ids;
    hide RingOk;
    ConcatSame(s.blocks, s'.blocks, ids);
  }

  lemma InsertedFilled(s: State)
    requires Inv(s) && BlocksExist(s) && s.producer.LinkNew?
    ensures var s' := StepProducer(s);
            Within(s'.blocks, s'.ring) && Filled(s'.blocks, s'.ring, s'.depth, true)
  {
    hide Concat, Items, CellOf, ConsumerFact, ContentsOk, BlocksOk, Distinct;
    RingGives(s);
    var s' := StepProducer(s);
    hide RingOk;
    forall i | 0 <= i < |s'.ring| && i != s.depth + 1
      ensures s'.ring[i] == s.ring[if i <= s.depth then i else i - 1]
    {
    }
  }

  lemma InsertedConsumer(s: State)
    requires Inv(s) && BlocksExist(s) && s.producer.LinkNew?
    ensures var s' := StepProducer(s);
            && Within(s'.blocks, s'.ring) && BlocksOk(s'.blocks) && s'.frontBlock < |s'.blocks| && s'.depth < |s'.ring|
            && ConsumerFact(s'.blocks, s'.frontBlock, s'.ring, s'.depth, s'.consumer)
  {
    hide Concat, CellOf, ContentsOk, Filled, Distinct;
    RingGives(s);
    var t := s.blocks[s.tailBlock];
    ItemsSame(t, t.(next := s.producer.b));
    hide RingOk, Items;
  }

  lemma ProducerStep(s: State)
    requires Inv(s) && BlocksExist(s)
    ensures Inv(StepProducer(s))
  {
    hide Inv, BlocksExist;
    var s' := StepProducer(s);
    match s.producer
    case Enqueue(_, _) => EnqueueStep(s);
    case LoadFront(_, _) => EnqueueStep(s);
    case WriteElement(_) => WriteStep(s);
    case WriteNext(_, _) => WriteStep(s);
    case PublishTail(_) => PublishTailStep(s);
    case CheckNext(_, _) => CheckNextStep(s);
    case LoadNextFront(_) => LoadNextFrontStep(s);
    case PublishNext(_, _) => PublishNextStep(s);
    case NewBlock(_) => NewBlockStep(s);
    case LinkNew(_, _) => LinkNewStep(s);
    case StoreTailBlock(_, _) => StoreTailBlockStep(s);
    case _ => assert s' == s;
  }

  // ---------------------------------------------------------------- the consumer's steps

  lemma ReadStep(s: State)
    requires Inv(s) && BlocksExist(s)
    requires s.consumer.Dequeue? || s.consumer.CheckTailBlock? || s.consumer.LoadNext? || s.consumer.ReadElement?
    ensures Inv(StepConsumer(s))
  {
    RingGives(s);
    var f := s.blocks[s.frontBlock];
    if s.consumer.Dequeue? { DifferMeaning(f, f.localTail); }
    Apart(s.ring, 0, s.depth);
    if s.consumer.ReadElement? { ItemsAfterTake(f); }
    hide Concat, Items, CellOf, ContentsOk, Filled, RingOk, ProducerFact;
  }

  lemma LoadTailStep(s: State)
    requires Inv(s) && BlocksExist(s) && (s.consumer.LoadTail? || s.consumer.Reload?)
    ensures Inv(StepConsumer(s))
  {
    RingGives(s);
    var f := s.blocks[s.frontBlock];
    var b := f.(localTail := f.tail);
    DifferMeaning(f, f.tail);
    ItemsSame(f, b);
    CoreQuiet(s, s.frontBlock, b, s.producer.StoreTailBlock?);
    ProducerQuiet(s, 0, b);
    if f.front == f.tail && s.depth == 0 { NothingLeft(s); }
    hide Concat, Items, CellOf, ContentsOk, Filled, RingOk, ProducerFact;
  }

  /** An empty front block that is the tail block: the queue is empty. */
  lemma NothingLeft(s: State)
    requires Inv(s) && s.depth == 0 && s.blocks[s.frontBlock].front == s.blocks[s.frontBlock].tail
    ensures s.enqueued == s.dequeued
  {
    ConcatLast(s);
    assert s.ring[..0] == [];
  }

  lemma LoadNextTailStep(s: State)
    requires Inv(s) && BlocksExist(s) && s.consumer.LoadNextTail?
    ensures Inv(StepConsumer(s))
  {
    RingGives(s);
    var n := s.ring[1];
    Apart(s.ring, 0, 1);
    assert s.blocks[n].front < s.blocks[n].tail;
    var b := s.blocks[n].(localTail := s.blocks[n].tail);
    ItemsSame(s.blocks[n], b);
    CoreQuiet(s, n, b, s.producer.StoreTailBlock?);
    ProducerQuiet(s, 1, b);
    hide Concat, Items, CellOf, ContentsOk, Filled, RingOk, ProducerFact;
  }

  lemma StoreFrontBlockStep(s: State)
    requires Inv(s) && BlocksExist(s) && s.consumer.StoreFrontBlock?
    ensures Inv(StepConsumer(s))
  {
    RingGives(s);
    RotatedRing(s);
    RotatedContents(s);
    hide Concat, Items, CellOf, ContentsOk, Filled, RingOk, BlocksOk;
  }

  lemma RotatedRing(s: State)
    requires Inv(s) && BlocksExist(s) && s.consumer.StoreFrontBlock?
    ensures var s' := StepConsumer(s);
            RingOk(s'.blocks, s'.frontBlock, s'.tailBlock, s'.ring, s'.depth)
  {
    RingGives(s);
    var s' := StepConsumer(s);
    hide Concat, Items, ContentsOk, BlocksOk, Filled, ProducerFact;
    var m := |s.ring|;
    forall i | 0 <= i < m ensures Linked(s'.blocks, s'.ring, i) {
      assert Linked(s.blocks, s.ring, if i + 1 < m then i + 1 else 0);
    }
  }

  lemma RotatedIds(ring: seq<nat>, depth: nat)
    requires 0 < depth < |ring|
    ensures ring[..depth + 1][1..] == (ring[1..] + [ring[0]])[..depth]
  {
  }

  lemma RotatedContents(s: State)
    requires Inv(s) && BlocksExist(s) && s.consumer.StoreFrontBlock?
    ensures var s' := StepConsumer(s);
            && Within(s'.blocks, s'.ring) && s'.depth < |s'.ring|
            && Filled(s'.blocks, s'.ring, s'.depth, s.producer.StoreTailBlock?)
            && ContentsOk(s'.blocks, s'.ring, s'.depth, s'.enqueued, s'.dequeued)
  {
    hide Concat, CellOf, ProducerFact, Distinct;
    RingGives(s);
    var s' := StepConsumer(s);
    var ids := s.ring[..s.depth + 1];
    NoItems(s.blocks[s.frontBlock]);
    ConcatFirst(s.blocks, ids);
    RotatedIds(s.ring, s.depth);
    hide RingOk, Items, BlockOk;
  }

  lemma PublishFrontStep(s: State)
    requires Inv(s) && BlocksExist(s) && s.consumer.PublishFront?
    ensures Inv(StepConsumer(s))
  {
    hide Concat, Items, CellOf, ContentsOk, RingOk, Filled, Within, BlocksOk, BlockOk, Distinct, ProducerFact;
    RingGives(s);
    var f := s.blocks[s.frontBlock];
    var b := f.(front := f.front + 1);
    ItemsAfterTake(f);
    OneSlotEmptied(f);
    RingQuiet(s, s.frontBlock, b);
    ProducerQuiet(s, 0, b);
    TakenContents(s, b);
  }

  lemma OneSlotEmptied(b: Block)
    requires BlockOk(b) && b.front < b.localTail
    ensures |b.data| == 1 ==> b.front + 1 == b.tail
  {
  }

  lemma TakenFilled(s: State, b: Block)
    requires Within(s.blocks, s.ring) && |s.ring| > 0 && s.ring[0] == s.frontBlock
    requires Filled(s.blocks, s.ring, s.depth, s.producer.StoreTailBlock?)
    requires forall i :: 0 < i < |s.ring| ==> s.ring[i] != s.frontBlock
    ensures Within(s.blocks[s.frontBlock := b], s.ring)
    ensures Filled(s.blocks[s.frontBlock := b], s.ring, s.depth, s.producer.StoreTailBlock?)
  {
  }

  lemma TakenContents(s: State, b: Block)
    requires Inv(s) && BlockOk(b) && s.consumer.PublishFront?
    requires Items(s.blocks[s.frontBlock]) == [s.consumer.element] + Items(b)
    requires b.tail == s.blocks[s.frontBlock].tail
    ensures var blocks := s.blocks[s.frontBlock := b];
            && BlocksOk(blocks) && Within(blocks, s.ring)
            && Filled(blocks, s.ring, s.depth, s.producer.StoreTailBlock?)
            && ContentsOk(blocks, s.ring, s.depth, s.enqueued, s.dequeued + [s.consumer.element])
  {
    hide Concat, Items, CellOf, ProducerFact, ConsumerFact;
    RingGives(s);
    var ids := s.ring[..s.depth + 1];
    var blocks := s.blocks[s.frontBlock := b];
    forall i | 0 < i < |s.ring| ensures s.ring[i] != s.frontBlock {
      Apart(s.ring, 0, i);
    }
    TakenFilled(s, b);
    hide Filled, RingOk, Distinct;
    ConcatFirst(s.blocks, ids);
    ConcatFirst(blocks, ids);
    ConcatSame(s.blocks, blocks, ids[1..]);
  }

  lemma ConsumerStep(s: State)
    requires Inv(s) && BlocksExist(s)
    ensures Inv(StepConsumer(s))
  {
    hide Inv, BlocksExist;
    var s' := StepConsumer(s);
    match s.consumer
    case Dequeue => ReadStep(s);
    case CheckTailBlock(_) => ReadStep(s);
    case LoadNext => ReadStep(s);
    case ReadElement => ReadStep(s);
    case LoadTail => LoadTailStep(s);
    case Reload => LoadTailStep(s);
    case LoadNextTail(_) => LoadNextTailStep(s);
    case StoreFrontBlock(_) => StoreFrontBlockStep(s);
    case PublishFront(_) => PublishFrontStep(s);
    case _ => assert s' == s;
  }

  // ---------------------------------------------------------------- runs

  lemma InvExists(s: State)
    requires Inv(s)
    ensures BlocksExist(s)
  {
    hide Concat, Items, CellOf, ContentsOk, Filled;
    RingGives(s);
    forall i | 0 <= i < |s.blocks| ensures |s.blocks[i].data| > 0 {
      assert BlockOk(s.blocks[i]);
    }
    assert s.consumer.LoadNextTail? || s.consumer.StoreFrontBlock? ==> s.ring[1] < |s.blocks|;
  }

  lemma MovesKeepsInv(s: State, v: int, canAlloc: bool, s': State)
    requires Inv(s) && Moves(s, v, canAlloc, s')
    ensures Inv(s')
  {
    InvExists(s);
    hide Concat, Items, CellOf, ContentsOk, Filled, RingOk;
    if s' == StepProducer(s) {
      ProducerStep(s);
    } else if s' == StepConsumer(s) {
      ConsumerStep(s);
    }
  }

  lemma InitRing(c: Config)
    requires Config?(c)
    ensures var s := Init(c);
            BlocksOk(s.blocks) && RingOk(s.blocks, s.frontBlock, s.tailBlock, s.ring, s.depth)
  {
    var s := Init(c);
    forall i | 0 <= i < |s.blocks| ensures BlockOk(s.blocks[i]) {
      assert s.blocks[i] == InitBlock(c, i);
    }
    forall i | 0 <= i < |s.ring| ensures Linked(s.blocks, s.ring, i) {}
  }

  lemma InitInv(c: Config)
    requires Config?(c)
    ensures Inv(Init(c))
  {
    var s := Init(c);
    InitRing(c);
    RingGives(s);
    ConcatLast(s);
    assert s.ring[..0] == [];
    NoItems(s.blocks[0]);
    hide Concat, Items, RingOk, Distinct;
  }

  lemma {:induction false} RunInv(c: Config, run: seq<State>, k: nat)
    requires Config?(c) && IsRun(c, run) && k < |run|
    ensures Inv(run[k])
    decreases k
  {
    hide Inv, Moves, Init;
    if k == 0 {
      InitInv(c);
    } else {
      RunInv(c, run, k - 1);
      assert Next(run[k - 1], run[k]);
      var v: int, canAlloc: bool :| Moves(run[k - 1], v, canAlloc, run[k]);
      MovesKeepsInv(run[k - 1], v, canAlloc, run[k]);
    }
  }

  // ---------------------------------------------------------------- main results

  /** The queue the two sides share: what has been enqueued and not dequeued. */
  function Queue(s: State): seq<int> {
    if |s.dequeued| <= |s.enqueued| then s.enqueued[|s.dequeued|..] else []
  }

  /** What one step may do to a FIFO queue, and what the calls return when it does. */
  predicate FifoStep(s: State, s': State) {
    || Queue(s') == Queue(s)
    || (s'.producer.Enqueued? && s.producer != s'.producer
        && (s.producer.PublishTail? || s.producer.StoreTailBlock?)
        && Queue(s') == Queue(s) + [s.producer.v])
    || (s'.consumer.Dequeued? && s.consumer != s'.consumer && Queue(s) == [s'.consumer.element] + Queue(s'))
  }

  lemma ProducerHistory(s: State)
    requires BlocksExist(s)
    ensures var s' := StepProducer(s);
            && s'.dequeued == s.dequeued
            && (s'.enqueued == s.enqueued
                || (s'.enqueued == s.enqueued + [s.producer.v] && s'.producer.Enqueued?
                    && (s.producer.PublishTail? || s.producer.StoreTailBlock?)))
  {
  }

  lemma ConsumerHistory(s: State)
    requires BlocksExist(s)
    ensures var s' := StepConsumer(s);
            && s'.enqueued == s.enqueued
            && (s'.dequeued == s.dequeued
                || (s'.consumer.Dequeued? && s.consumer != s'.consumer
                    && s'.dequeued == s.dequeued + [s'.consumer.element]))
  {
  }

  lemma QueueAfter(s: State, s': State)
    requires s.dequeued <= s.enqueued && s'.dequeued <= s'.enqueued
    ensures s'.dequeued == s.dequeued && s'.enqueued == s.enqueued ==> Queue(s') == Queue(s)
    ensures forall v: int :: s'.dequeued == s.dequeued && s'.enqueued == s.enqueued + [v] ==> Queue(s') == Queue(s) + [v]
    ensures forall e: int :: s'.dequeued == s.dequeued + [e] && s'.enqueued == s.enqueued ==> Queue(s) == [e] + Queue(s')
  {
    forall e: int | s'.dequeued == s.dequeued + [e] && s'.enqueued == s.enqueued
      ensures Queue(s) == [e] + Queue(s')
    {
      assert s'.enqueued[|s.dequeued|] == s'.dequeued[|s.dequeued|] == e;
    }
  }

  /** The ring of rings is one unbounded FIFO queue: every step of a run leaves the queue as it
      is, appends the element of the enqueue that then returns, or takes the first element and
      returns it; and the blocks, read in ring order, are the queue. */
  lemma RefinesFifo(c: Config, run: seq<State>, k: nat)
    requires Config?(c) && IsRun(c, run) && k + 1 < |run|
    ensures FifoStep(run[k], run[k + 1])
    ensures var s := run[k];
            && BlocksOk(s.blocks) && Within(s.blocks, s.ring) && s.depth < |s.ring|
            && Queue(s) == Concat(s.blocks, s.ring[..s.depth + 1])
            && s.dequeued <= s.enqueued
  {
    hide Concat, Items, CellOf, Inv, BlocksOk, StepProducer, StepConsumer, BlocksExist;
    var s, s' := run[k], run[k + 1];
    RunInv(c, run, k);
    RunInv(c, run, k + 1);
    QueueIsContents(s);
    QueueIsContents(s');
    assert Next(s, s');
    var v: int, canAlloc: bool :| Moves(s, v, canAlloc, s');
    InvExists(s);
    ProducerHistory(s);
    ConsumerHistory(s);
    QueueAfter(s, s');
  }

  lemma QueueIsContents(s: State)
    requires Inv(s)
    ensures BlocksOk(s.blocks) && Within(s.blocks, s.ring) && s.depth < |s.ring|
    ensures Queue(s) == Concat(s.blocks, s.ring[..s.depth + 1])
    ensures s.dequeued <= s.enqueued && s.enqueued == s.dequeued + Queue(s)
  {
    hide Concat, Items, CellOf;
  }

  /** The code's two assertions, as it compares indices: the block the tail moves on to is empty,
      and the block the front moves on to is not. */
  predicate AssertionsOk(s: State)
    requires BlocksExist(s)
  {
    && (s.producer.LoadNextFront? ==>
          var b := s.blocks[s.blocks[s.tailBlock].next]; CellOf(b.front, |b.data|) == CellOf(b.tail, |b.data|))
    && (s.consumer.LoadNextTail? ==>
          var b := s.blocks[s.consumer.b]; CellOf(b.front, |b.data|) != CellOf(b.tail, |b.data|))
  }

  ghost predicate AssertionsAlwaysHold(c: Config)
    requires Config?(c)
  {
    forall run: seq<State>, k: nat :: IsRun(c, run) && k < |run| ==> BlocksExist(run[k]) && AssertionsOk(run[k])
  }

  predicate Wide(blocks: seq<Block>) { forall i :: 0 <= i < |blocks| ==> |blocks[i].data| >= 2 }

  /** No block of one slot ever comes in. */
  lemma {:induction false} StaysWide(c: Config, run: seq<State>, k: nat)
    requires Config?(c) && c.size >= 2 && IsRun(c, run) && k < |run|
    ensures Wide(run[k].blocks)
    decreases k
  {
    if k == 0 {
      var s := Init(c);
      forall i | 0 <= i < |s.blocks| ensures |s.blocks[i].data| >= 2 {
        assert s.blocks[i] == InitBlock(c, i);
      }
    } else {
      StaysWide(c, run, k - 1);
      RunInv(c, run, k - 1);
      var s := run[k - 1];
      assert Next(s, run[k]);
      InvExists(s);
      WideProducer(s);
      WideConsumer(s);
      hide Inv, StepProducer, StepConsumer, BlocksExist, Wide;
    }
  }

  lemma WideProducer(s: State)
    requires s.largest >= 1 && BlocksExist(s) && Wide(s.blocks)
    ensures Wide(StepProducer(s).blocks)
  {
    hide CellOf, Room;
  }

  lemma WideConsumer(s: State)
    requires BlocksExist(s) && Wide(s.blocks)
    ensures Wide(StepConsumer(s).blocks)
  {
    hide CellOf;
  }

  /** What the counts say, whatever the blocks' sizes: the block ahead of the tail is empty, and the
      block ahead of the front is not. */
  lemma NextBlocks(c: Config, run: seq<State>, k: nat)
    requires Config?(c) && IsRun(c, run) && k < |run|
    ensures BlocksExist(run[k])
    ensures var s := run[k];
            && (s.producer.LoadNextFront? ==>
                  var b := s.blocks[s.blocks[s.tailBlock].next]; BlockOk(b) && b.front == b.tail)
            && (s.consumer.LoadNextTail? ==>
                  var b := s.blocks[s.consumer.b]; BlockOk(b) && b.front < b.tail)
  {
    RunInv(c, run, k);
    var s := run[k];
    InvExists(s);
    RingGives(s);
    if s.producer.LoadNextFront? { Ahead(s); }
    hide Concat, Items, ContentsOk, RingOk;
  }

  /** The assertions hold on every run if and only if no block has a single slot. */
  lemma AssertionsHold(c: Config)
    requires Config?(c)
    ensures AssertionsAlwaysHold(c) <==> c.size >= 2
  {
    if c.size >= 2 {
      forall run: seq<State>, k: nat | IsRun(c, run) && k < |run|
        ensures BlocksExist(run[k]) && AssertionsOk(run[k])
      {
        NextBlocks(c, run, k);
        StaysWide(c, run, k);
        var s := run[k];
        if s.consumer.LoadNextTail? { DifferMeaning(s.blocks[s.consumer.b], s.blocks[s.consumer.b].tail); }
      }
    } else {
      var run := OneSlotRun();
    }
  }

  /** In terms of the size asked for, which makes a ring below 2^63: they hold on every run unless
      it is 0. */
  lemma AssertionsHoldUnlessZero(size: uint64)
    ensures Config?(Constructed(size)) <==> size < HALF
    ensures size < HALF ==> (AssertionsAlwaysHold(Constructed(size)) <==> size >= 1)
  {
    ConstructedOk(size);
    if size < HALF {
      AssertionsHold(Constructed(size));
    }
  }

  // ---------------------------------------------------------------- the run with a requested size of 0

  ghost predicate Path(run: seq<State>) {
    |run| > 0 && forall i :: 0 < i < |run| ==> Next(run[i - 1], run[i])
  }

  lemma Join(a: seq<State>, b: seq<State>)
    requires Path(a) && Path(b) && a[|a| - 1] == b[0]
    ensures Path(a + b[1..]) && (a + b[1..])[0] == a[0] && (a + b[1..])[|a + b[1..]| - 1] == b[|b| - 1]
  {
    var r := a + b[1..];
    forall i | 0 < i < |r| ensures Next(r[i - 1], r[i]) {
      if i < |a| { assert Next(a[i - 1], a[i]); } else { assert Next(b[i - |a|], b[i - |a| + 1]); }
    }
  }

  lemma One(s: State, v: int, s': State)
    requires Moves(s, v, true, s')
    ensures Path([s, s'])
  {
    assert Next(s, s');
  }

  /** One more step at the end of a path. */
  lemma Then(run: seq<State>, v: int, s: State)
    requires Path(run) && Moves(run[|run| - 1], v, true, s)
    ensures Path(run + [s]) && (run + [s])[0] == run[0]
  {
    assert Next(run[|run| - 1], s);
  }

  function Start(): State {
    State([Block(0, 0, 0, 0, [0], 0)], 0, 0, 1, NoEnqueue, NoDequeue, [0], 0, [], [])
  }

  /** After the first enqueue, which had to add a block. */
  function Grown(): State {
    State([Block(0, 0, 0, 0, [0], 1), Block(0, 1, 1, 0, [1, 0], 0)], 0, 1, 2, Enqueued, NoDequeue, [0, 1], 1, [1], [])
  }

  /** The consumer has moved on to the new block and is about to read from it. */
  function MovedOn(): State {
    Grown().(frontBlock := 1, consumer := ReadElement, ring := [1, 0], depth := 0)
  }

  /** The new block being full, the second element has gone into the one-slot block. */
  function Wrapped(): State {
    MovedOn().(blocks := [Block(0, 0, 1, 0, [2], 1), Block(0, 1, 1, 0, [1, 0], 0)], tailBlock := 0,
               ring := [1, 0], depth := 1, enqueued := [1, 2])
  }

  /** The first enqueue finds no room and no second block. */
  lemma FindsNoRoom() returns (run: seq<State>)
    ensures Path(run) && run[0] == Start() && run[|run| - 1] == Start().(producer := NewBlock(1))
  {
    var s0 := Start();
    var s1 := s0.(producer := Enqueue(1, true));
    var s2 := StepProducer(s1);
    assert s2 == s1.(producer := LoadFront(1, true));
    var s3 := StepProducer(s2);
    assert s3 == s1.(producer := CheckNext(1, true));
    var s4 := StepProducer(s3);
    assert s4 == s1.(producer := NewBlock(1));
    hide StepProducer, StepConsumer, BlocksExist;
    One(s0, 1, s1);
    run := [s0, s1];
    Then(run, 1, s2); run := run + [s2];
    Then(run, 1, s3); run := run + [s3];
    Then(run, 1, s4); run := run + [s4];
  }

  lemma Grows() returns (run: seq<State>)
    ensures Path(run) && run[0] == Start() && run[|run| - 1] == Grown()
  {
    run := FindsNoRoom();
    var s4 := Start().(producer := NewBlock(1));
    var s5 := StepProducer(s4);
    assert Zeros(2)[0 := 1] == [1, 0];
    assert s5 == s4.(producer := LinkNew(1, 1), largest := 2,
                     blocks := [Block(0, 0, 0, 0, [0], 0), Block(0, 1, 1, 0, [1, 0], 0)]);
    var s6 := StepProducer(s5);
    assert s6.ring == [0, 1] && s6.blocks == Grown().blocks;
    var s7 := StepProducer(s6);
    assert s7 == Grown();
    hide StepProducer, StepConsumer, BlocksExist;
    Then(run, 1, s5); run := run + [s5];
    Then(run, 1, s6); run := run + [s6];
    Then(run, 1, s7); run := run + [s7];
  }

  lemma LooksAhead() returns (run: seq<State>)
    ensures Path(run) && run[0] == Grown() && run[|run| - 1] == Grown().(consumer := LoadNext)
  {
    var s0 := Grown();
    var s1 := s0.(consumer := Dequeue);
    var s2 := StepConsumer(s1);
    assert s2 == s0.(consumer := LoadTail);
    var s3 := StepConsumer(s2);
    assert s3 == s0.(consumer := CheckTailBlock(false));
    var s4 := StepConsumer(s3);
    assert s4 == s0.(consumer := Reload);
    var s5 := StepConsumer(s4);
    assert s5 == s0.(consumer := LoadNext);
    hide StepProducer, StepConsumer, BlocksExist;
    One(s0, 1, s1);
    run := [s0, s1];
    Then(run, 1, s2); run := run + [s2];
    Then(run, 1, s3); run := run + [s3];
    Then(run, 1, s4); run := run + [s4];
    Then(run, 1, s5); run := run + [s5];
  }

  lemma MovesOn() returns (run: seq<State>)
    ensures Path(run) && run[0] == Grown().(consumer := LoadNext) && run[|run| - 1] == MovedOn()
  {
    var s0 := Grown();
    var s5 := s0.(consumer := LoadNext);
    var s6 := StepConsumer(s5);
    assert s6 == s0.(consumer := LoadNextTail(1));
    var s7 := StepConsumer(s6);
    assert s7 == s0.(consumer := StoreFrontBlock(1));
    var s8 := StepConsumer(s7);
    assert s8.ring == [1, 0];
    assert s8 == MovedOn();
    hide StepProducer, StepConsumer, BlocksExist;
    One(s5, 1, s6);
    run := [s5, s6];
    Then(run, 1, s7); run := run + [s7];
    Then(run, 1, s8); run := run + [s8];
  }

  /** The second enqueue finds the new block full and the one-slot block empty. */
  lemma FindsNext() returns (run: seq<State>)
    ensures Path(run) && run[0] == MovedOn() && run[|run| - 1] == MovedOn().(producer := WriteNext(2, 0))
  {
    var s0 := MovedOn();
    var s1 := s0.(producer := Enqueue(2, true));
    var s2 := StepProducer(s1);
    assert s2 == s0.(producer := LoadFront(2, true));
    var s3 := StepProducer(s2);
    assert s3 == s0.(producer := CheckNext(2, true));
    var s4 := StepProducer(s3);
    assert s4 == s0.(producer := LoadNextFront(2));
    var s5 := StepProducer(s4);
    assert s5 == s0.(producer := WriteNext(2, 0));
    hide StepProducer, StepConsumer, BlocksExist;
    One(s0, 2, s1);
    run := [s0, s1];
    Then(run, 2, s2); run := run + [s2];
    Then(run, 2, s3); run := run + [s3];
    Then(run, 2, s4); run := run + [s4];
    Then(run, 2, s5); run := run + [s5];
  }

  lemma Wraps() returns (run: seq<State>)
    ensures Path(run) && run[0] == MovedOn() && run[|run| - 1] == Wrapped()
  {
    run := FindsNext();
    var s5 := MovedOn().(producer := WriteNext(2, 0));
    var s6 := StepProducer(s5);
    assert [0][0 := 2] == [2];
    assert s6 == s5.(producer := PublishNext(2, 0), blocks := [Block(0, 0, 0, 0, [2], 1), Block(0, 1, 1, 0, [1, 0], 0)]);
    var s7 := StepProducer(s6);
    assert s7 == s6.(producer := StoreTailBlock(2, 0), blocks := Wrapped().blocks);
    var s8 := StepProducer(s7);
    assert s8 == Wrapped();
    hide StepProducer, StepConsumer, BlocksExist;
    Then(run, 2, s6); run := run + [s6];
    Then(run, 2, s7); run := run + [s7];
    Then(run, 2, s8); run := run + [s8];
  }

  /** The consumer has taken the first element. */
  function TookFirst(): State {
    Wrapped().(blocks := [Block(0, 0, 1, 0, [2], 1), Block(1, 1, 1, 0, [1, 0], 0)], consumer := Dequeued(1), dequeued := [1])
  }

  lemma TakesFirst() returns (run: seq<State>)
    ensures Path(run) && run[0] == Wrapped() && run[|run| - 1] == TookFirst()
  {
    var s0 := Wrapped();
    var s1 := StepConsumer(s0);
    assert s1 == s0.(consumer := PublishFront(1));
    var s2 := StepConsumer(s1);
    assert s2 == TookFirst();
    One(s0, 1, s1);
    run := [s0, s1];
    Then(run, 1, s2); run := run + [s2];
  }

  lemma Finds() returns (run: seq<State>)
    ensures Path(run) && run[0] == TookFirst()
    ensures var s := run[|run| - 1]; BlocksExist(s) && !AssertionsOk(s)
  {
    var taken := TookFirst();
    var s2 := taken;
    var s3 := s2.(consumer := Dequeue);
    var s4 := StepConsumer(s3);
    assert s4 == taken.(consumer := LoadTail);
    var s5 := StepConsumer(s4);
    assert s5 == taken.(consumer := CheckTailBlock(false));
    var s6 := StepConsumer(s5);
    assert s6 == taken.(consumer := Reload);
    var s7 := StepConsumer(s6);
    assert s7 == taken.(consumer := LoadNext);
    var s8 := StepConsumer(s7);
    assert s8 == taken.(consumer := LoadNextTail(0));
    hide StepProducer, StepConsumer, BlocksExist;
    One(s2, 1, s3);
    run := [s2, s3];
    Then(run, 1, s4); run := run + [s4];
    Then(run, 1, s5); run := run + [s5];
    Then(run, 1, s6); run := run + [s6];
    Then(run, 1, s7); run := run + [s7];
    Then(run, 1, s8); run := run + [s8];
  }

  /** A requested size of 0: enqueue 1; the consumer moves on to the block this added; enqueue 2;
      it takes 1, and moving on again it asserts that the one-slot block looks non-empty. */
  lemma OneSlotRun() returns (run: seq<State>)
    ensures Constructed(0) == Config(1, 1) && IsRun(Config(1, 1), run)
    ensures var s := run[|run| - 1]; BlocksExist(s) && !AssertionsOk(s)
  {
    var a := Grows();
    var b := LooksAhead();
    var c := MovesOn();
    var d := Wraps();
    var t := TakesFirst();
    var f := Finds();
    Join(a, b);
    run := a + b[1..];
    Join(run, c);
    run := run + c[1..];
    Join(run, d);
    run := run + d[1..];
    Join(run, t);
    run := run + t[1..];
    Join(run, f);
    run := run + f[1..];
    assert Zeros(1) == [0];
    assert Init(Config(1, 1)).blocks == Start().blocks;
    assert Init(Config(1, 1)) == Start();
  }

  /** try_dequeue returns false only if the queue was empty when it loaded the front block's tail. */
  lemma EmptyWasEmpty(c: Config, run: seq<State>, k: nat)
    requires Config?(c) && IsRun(c, run) && k < |run| && run[k].consumer.Empty?
    ensures run[k].consumer.wasEmpty
  {
    RunInv(c, run, k);
    hide Concat, Items, ContentsOk, RingOk;
  }

  /** An enqueue that may not allocate is refused only if the block after the tail block is the
      front block: every block but the front one holds something. */
  lemma RefusedWhenRoundFull(c: Config, run: seq<State>, k: nat)
    requires Config?(c) && IsRun(c, run) && k < |run| && BlocksExist(run[k])
    requires run[k].producer.CheckNext? && StepProducer(run[k]).producer.Refused?
    ensures var s := run[k];
            && s.depth + 1 == |s.ring| && Within(s.blocks, s.ring)
            && forall i :: 0 < i < |s.ring| ==> s.blocks[s.ring[i]].front < s.blocks[s.ring[i]].tail
  {
    RunInv(c, run, k);
    var s := run[k];
    RingGives(s);
    Apart(s.ring, 0, if s.depth + 1 < |s.ring| then s.depth + 1 else 0);
    hide Concat, Items, ContentsOk, RingOk;
  }
}
