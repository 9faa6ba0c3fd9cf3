/** The NVMe scheduler's table of in-flight reads, onto which later requests for the same page
    are merged, and the scheduler's get path that uses it.

    Everything runs on one core. SPDK is the environment: it refuses a read, or completes reads
    in flight in any order, with success or failure. */
module ReadMerge {
  import opened Options
  import opened PackedWords
  import opened Sums

  const TABLE_SIZE: nat := 1024
  const PROBES: nat := 8
  const MAX_WAITERS: nat := 16

  /** A get request for a page; `id` tells apart requests for the same page. */
  datatype Request = Request(id: nat, pos: uint64)

  datatype SlotState = Empty | Occupied | Deleted

  /** `waiters` is the used part of the slot's array. */
  datatype Slot = Slot(pos: uint64, state: SlotState, waiters: seq<Request>)

  /** What a completed read delivers: status 1, or status 0 and the page's contents. */
  datatype Outcome = Failed | Data(payload: int)

  datatype Read = Read(request: Request, outcome: Outcome)

  /** The value passed to a request's callback. */
  datatype Answer = Answer(request: Request, outcome: Outcome)

  /** The top ten bits of a multiplicative hash. */
  function Index(pos: uint64): (i: nat)
    ensures i < TABLE_SIZE
  {
    (pos * 0x9E37_79B9_7F4A_7C15 % W64) / 0x40_0000_0000_0000
  }

  function Probe(pos: uint64, k: nat): (i: nat)
    ensures i < TABLE_SIZE
  {
    (Index(pos) + k) % TABLE_SIZE
  }

  // ---------------------------------------------------------------- the table as a value

  predicate InUse(slot: Slot, pos: uint64) { slot.state.Occupied? && slot.pos == pos }

  /** A search for pos gets as far as its k-th probe: no slot before it is empty. */
  predicate Reaches(slots: seq<Slot>, pos: uint64, k: nat)
    requires |slots| == TABLE_SIZE
  {
    k < PROBES && forall j: nat :: j < k ==> !slots[Probe(pos, j)].state.Empty?
  }

  /** A search for pos ends at its k-th probe: the first slot in use for pos, with no empty one before it. */
  predicate FirstInUse(slots: seq<Slot>, pos: uint64, k: nat)
    requires |slots| == TABLE_SIZE
  {
    && Reaches(slots, pos, k) && InUse(slots[Probe(pos, k)], pos)
    && forall j: nat :: j < k ==> !InUse(slots[Probe(pos, j)], pos)
  }

  lemma FirstUnique(slots: seq<Slot>, pos: uint64, k: nat, m: nat)
    requires |slots| == TABLE_SIZE && FirstInUse(slots, pos, k) && FirstInUse(slots, pos, m)
    ensures k == m
  {
  }

  /** A read of the page is known of, in the slot that a search comes to, and one more can wait for it. */
  ghost predicate Mergeable(slots: seq<Slot>, pos: uint64)
    requires |slots| == TABLE_SIZE
  {
    exists k: nat :: FirstInUse(slots, pos, k) && |slots[Probe(pos, k)].waiters| < MAX_WAITERS
  }

  /** Afterwards the request waits in the slot a search comes to. */
  ghost predicate WaitsAtFirst(slots: seq<Slot>, after: seq<Slot>, r: Request)
    requires |slots| == TABLE_SIZE
  {
    exists k: nat :: FirstInUse(slots, r.pos, k)
      && after == slots[Probe(r.pos, k) := slots[Probe(r.pos, k)].(waiters := slots[Probe(r.pos, k)].waiters + [r])]
  }

  /** Afterwards the first free slot of the window, if there is one, is in use for the page and nobody waits in it. */
  ghost predicate Registered(slots: seq<Slot>, after: seq<Slot>, pos: uint64)
    requires |slots| == TABLE_SIZE
  {
    || (exists k: nat :: FirstFree(slots, pos, k) && after == slots[Probe(pos, k) := Slot(pos, Occupied, [])])
    || (after == slots && forall k: nat :: k < PROBES ==> slots[Probe(pos, k)].state.Occupied?)
  }

  /** The k-th probe for pos is the first whose slot can be taken. */
  predicate FirstFree(slots: seq<Slot>, pos: uint64, k: nat)
    requires |slots| == TABLE_SIZE
  {
    && k < PROBES && !slots[Probe(pos, k)].state.Occupied?
    && forall j: nat :: j < k ==> slots[Probe(pos, j)].state.Occupied?
  }

  /** Some probe of the slot's own position finds it. */
  ghost predicate Findable(slots: seq<Slot>, i: nat)
    requires |slots| == TABLE_SIZE && i < TABLE_SIZE
  {
    exists k: nat :: Reaches(slots, slots[i].pos, k) && Probe(slots[i].pos, k) == i
  }

  predicate WaitersFit(slot: Slot) {
    slot.state.Occupied? ==>
      |slot.waiters| <= MAX_WAITERS && forall r <- slot.waiters :: r.pos == slot.pos
  }

  ghost predicate WellFormed(slots: seq<Slot>) {
    && |slots| == TABLE_SIZE
    && (forall i :: 0 <= i < TABLE_SIZE && slots[i].state.Occupied? ==> Findable(slots, i))
    && (forall i :: 0 <= i < TABLE_SIZE ==> WaitersFit(slots[i]))
  }

  // Counting slots, reads, requests and answers.
  function OccupiedSlot(slot: Slot): int { if slot.state.Occupied? then 1 else 0 }

  function SlotFor(pos: uint64): Slot -> int {
    (slot: Slot) => if InUse(slot, pos) then 1 else 0
  }

  function ReadOf(pos: uint64): Request -> int {
    (r: Request) => if r.pos == pos then 1 else 0
  }

  function Same(r: Request): Request -> int {
    (q: Request) => if q == r then 1 else 0
  }

  function WaitsIn(r: Request): Slot -> int {
    (slot: Slot) => if slot.state.Occupied? then Sum(slot.waiters, Same(r)) else 0
  }

  function AnswerTo(r: Request): Answer -> int {
    (a: Answer) => if a.request == r then 1 else 0
  }

  /** For each position, no more slots than reads in flight. */
  ghost predicate Covered(slots: seq<Slot>, inFlight: seq<Request>) {
    forall pos: uint64 :: Sum(slots, SlotFor(pos)) <= Sum(inFlight, ReadOf(pos))
  }

  /** Every request received is in exactly one place, as often as it was received. */
  ghost predicate Conserved(received: seq<Request>, local: seq<Request>, inFlight: seq<Request>, slots: seq<Slot>,
                            answered: seq<Answer>) {
    forall r: Request ::
      Sum(received, Same(r))
      == Sum(local, Same(r)) + Sum(inFlight, Same(r)) + Sum(slots, WaitsIn(r)) + Sum(answered, AnswerTo(r))
  }

  /** The answer is the outcome of a completed read of the request's own page. */
  predicate Justified(completed: seq<Read>, a: Answer) {
    exists i :: 0 <= i < |completed| && completed[i].request.pos == a.request.pos && completed[i].outcome == a.outcome
  }

  predicate AllJustified(completed: seq<Read>, answered: seq<Answer>) {
    forall i :: 0 <= i < |answered| ==> Justified(completed, answered[i])
  }

  // ---------------------------------------------------------------- changing one slot

  lemma {:induction false} SumRemove<T>(s: seq<T>, i: nat, w: T -> int)
    requires i < |s|
    ensures Sum(s[..i] + s[i + 1..], w) == Sum(s, w) - w(s[i])
  {
    var n := |s| - 1;
    if i == n {
      assert s[..i] + s[i + 1..] == s[..n];
    } else {
      SumRemove(s[..n], i, w);
      assert (s[..i] + s[i + 1..])[..n - 1] == s[..n][..i] + s[..n][i + 1..];
    }
  }

  /** Filling or emptying a slot other than back to `Empty` leaves every search as far-reaching as it was. */
  lemma UpdateKeepsWellFormed(slots: seq<Slot>, i: nat, slot: Slot)
    requires WellFormed(slots) && i < TABLE_SIZE && !slot.state.Empty? && WaitersFit(slot)
    requires slot.state.Occupied? ==>
               exists k: nat :: Reaches(slots, slot.pos, k) && Probe(slot.pos, k) == i
    ensures WellFormed(slots[i := slot])
  {
    hide Probe;
    var after := slots[i := slot];
    forall j | 0 <= j < TABLE_SIZE && after[j].state.Occupied? ensures Findable(after, j) {
      if j != i { assert Findable(slots, j); }
      var k: nat :| Reaches(slots, after[j].pos, k) && Probe(after[j].pos, k) == j;
      assert Reaches(after, after[j].pos, k);
    }
  }

  /** If a slot is in use for pos, a search for pos cannot miss all of them. */
  lemma SearchMeets(slots: seq<Slot>, pos: uint64, i: nat)
    returns (k: nat)
    requires WellFormed(slots) && i < TABLE_SIZE && InUse(slots[i], pos)
    ensures Reaches(slots, pos, k) && Probe(pos, k) == i
  {
    assert Findable(slots, i);
    k :| Reaches(slots, pos, k) && Probe(pos, k) == i;
  }

  // ---------------------------------------------------------------- what each event does to the counts

  /** A request that is merged moves from the local queue to the slot's waiters. */
  lemma MergeKeeps(received: seq<Request>, local: seq<Request>, inFlight: seq<Request>, slots: seq<Slot>,
                   answered: seq<Answer>, i: nat, r: Request)
    requires i < |slots| && InUse(slots[i], r.pos)
    requires Conserved(received, [r] + local, inFlight, slots, answered) && Covered(slots, inFlight)
    ensures var after := slots[i := slots[i].(waiters := slots[i].waiters + [r])];
            Conserved(received, local, inFlight, after, answered) && Covered(after, inFlight)
  {
    var slot := slots[i].(waiters := slots[i].waiters + [r]);
    forall pos: uint64 ensures Sum(slots[i := slot], SlotFor(pos)) == Sum(slots, SlotFor(pos)) {
      SumUpdate(slots, i, slot, SlotFor(pos));
    }
    forall q: Request
      ensures Sum(slots[i := slot], WaitsIn(q)) + Sum(local, Same(q))
              == Sum(slots, WaitsIn(q)) + Sum([r] + local, Same(q))
    {
      SumUpdate(slots, i, slot, WaitsIn(q));
      SumAppend(slots[i].waiters, r, Same(q));
      SumConcat([r], local, Same(q));
      SumOne(r, Same(q));
    }
  }

  /** A request that is submitted moves from the local queue to the reads in flight. */
  lemma SubmitKeeps(received: seq<Request>, local: seq<Request>, inFlight: seq<Request>, slots: seq<Slot>,
                    answered: seq<Answer>, r: Request)
    requires Conserved(received, [r] + local, inFlight, slots, answered)
    ensures Conserved(received, local, inFlight + [r], slots, answered)
  {
    forall q: Request
      ensures Sum(inFlight + [r], Same(q)) + Sum(local, Same(q))
              == Sum(inFlight, Same(q)) + Sum([r] + local, Same(q))
    {
      SumAppend(inFlight, r, Same(q));
      SumConcat([r], local, Same(q));
      SumOne(r, Same(q));
    }
  }

  lemma SumOne<T>(x: T, w: T -> int)
    ensures Sum([x], w) == w(x)
  {
    assert [] + [x] == [x];
    SumAppend([], x, w);
  }

  /** Whether or not the insertion found room, the new read covers it; the slot it takes was not
      in use, so it had no waiters to lose. */
  lemma InsertKeeps(inFlight: seq<Request>, slots: seq<Slot>, i: Option<nat>, r: Request)
    requires Covered(slots, inFlight)
    requires i.Some? ==> i.value < |slots| && !slots[i.value].state.Occupied?
    ensures var after := if i.Some? then slots[i.value := Slot(r.pos, Occupied, [])] else slots;
            Covered(after, inFlight + [r]) && forall q: Request :: Sum(after, WaitsIn(q)) == Sum(slots, WaitsIn(q))
  {
    var slot := Slot(r.pos, Occupied, []);
    var after := if i.Some? then slots[i.value := slot] else slots;
    forall pos: uint64 ensures Sum(after, SlotFor(pos)) <= Sum(inFlight + [r], ReadOf(pos)) {
      SumAppend(inFlight, r, ReadOf(pos));
      assert Sum(slots, SlotFor(pos)) <= Sum(inFlight, ReadOf(pos));
      if i.Some? { SumUpdate(slots, i.value, slot, SlotFor(pos)); }
    }
    forall q: Request ensures Sum(after, WaitsIn(q)) == Sum(slots, WaitsIn(q)) {
      if i.Some? { SumUpdate(slots, i.value, slot, WaitsIn(q)); }
    }
  }

  lemma SameWaiters(received: seq<Request>, local: seq<Request>, inFlight: seq<Request>, slots: seq<Slot>,
                    after: seq<Slot>, answered: seq<Answer>)
    requires Conserved(received, local, inFlight, slots, answered)
    requires forall q: Request :: Sum(after, WaitsIn(q)) == Sum(slots, WaitsIn(q))
    ensures Conserved(received, local, inFlight, after, answered)
  {
  }

  function Answers(waiters: seq<Request>, outcome: Outcome): (a: seq<Answer>)
    ensures |a| == |waiters|
  {
    seq(|waiters|, (i: int) requires 0 <= i < |waiters| => Answer(waiters[i], outcome))
  }

  lemma {:induction false} AnswersCount(waiters: seq<Request>, outcome: Outcome, r: Request)
    ensures Sum(Answers(waiters, outcome), AnswerTo(r)) == Sum(waiters, Same(r))
  {
    if waiters != [] {
      var n := |waiters| - 1;
      AnswersCount(waiters[..n], outcome, r);
      assert Answers(waiters, outcome)[..n] == Answers(waiters[..n], outcome);
    }
  }

  function AfterErase(slots: seq<Slot>, i: Option<nat>): seq<Slot>
    requires i.Some? ==> i.value < |slots|
  {
    if i.Some? then slots[i.value := slots[i.value].(state := Deleted)] else slots
  }

  function WaitersAt(slots: seq<Slot>, i: Option<nat>): seq<Request>
    requires i.Some? ==> i.value < |slots|
  {
    if i.Some? then slots[i.value].waiters else []
  }

  /** A completion takes one read away from its position and, if any slot is in use for that
      position, one slot; the answers it makes are for that slot's waiters and the read itself. */
  lemma CompletionKeeps(received: seq<Request>, local: seq<Request>, inFlight: seq<Request>, slots: seq<Slot>,
                        answered: seq<Answer>, n: nat, i: Option<nat>, outcome: Outcome)
    requires n < |inFlight|
    requires i.Some? ==> i.value < |slots| && InUse(slots[i.value], inFlight[n].pos)
    requires i.None? ==> forall j :: 0 <= j < |slots| ==> !InUse(slots[j], inFlight[n].pos)
    requires Conserved(received, local, inFlight, slots, answered) && Covered(slots, inFlight)
    ensures var fewer := inFlight[..n] + inFlight[n + 1..];
            var after := AfterErase(slots, i);
            && Covered(after, fewer)
            && Conserved(received, local, fewer, after,
                         answered + Answers(WaitersAt(slots, i), outcome) + [Answer(inFlight[n], outcome)])
  {
    var r := inFlight[n];
    var fewer := inFlight[..n] + inFlight[n + 1..];
    var after := AfterErase(slots, i);
    forall pos: uint64 ensures Sum(after, SlotFor(pos)) <= Sum(fewer, ReadOf(pos)) {
      SumRemove(inFlight, n, ReadOf(pos));
      assert Sum(slots, SlotFor(pos)) <= Sum(inFlight, ReadOf(pos));
      SumNonNegative(fewer, ReadOf(pos));
      if i.Some? {
        SumUpdate(slots, i.value, after[i.value], SlotFor(pos));
      } else if pos == r.pos {
        SumConstant(slots, SlotFor(pos), 0);
      }
    }
    var answers := Answers(WaitersAt(slots, i), outcome);
    forall q: Request
      ensures Sum(inFlight, Same(q)) + Sum(slots, WaitsIn(q)) + Sum(answered, AnswerTo(q))
              == Sum(fewer, Same(q)) + Sum(after, WaitsIn(q))
                 + Sum(answered + answers + [Answer(r, outcome)], AnswerTo(q))
    {
      SumRemove(inFlight, n, Same(q));
      AnswersCount(WaitersAt(slots, i), outcome, q);
      SumConcat(answered, answers, AnswerTo(q));
      SumAppend(answered + answers, Answer(r, outcome), AnswerTo(q));
      if i.Some? { SumUpdate(slots, i.value, after[i.value], WaitsIn(q)); }
    }
  }

  lemma FoundFit(slots: seq<Slot>, i: Option<nat>, pos: uint64)
    requires WellFormed(slots) && (i.Some? ==> i.value < |slots| && InUse(slots[i.value], pos))
    ensures forall w <- WaitersAt(slots, i) :: w.pos == pos
  {
    if i.Some? { assert WaitersFit(slots[i.value]); }
  }

  lemma JustifyMore(completed: seq<Read>, answered: seq<Answer>, waiters: seq<Request>, req: Request, outcome: Outcome)
    requires AllJustified(completed, answered) && forall w <- waiters :: w.pos == req.pos
    ensures AllJustified(completed + [Read(req, outcome)],
                         answered + Answers(waiters, outcome) + [Answer(req, outcome)])
  {
    var more := completed + [Read(req, outcome)];
    var all := answered + Answers(waiters, outcome) + [Answer(req, outcome)];
    forall i | 0 <= i < |all| ensures Justified(more, all[i]) {
      if i < |answered| {
        assert Justified(completed, answered[i]) && all[i] == answered[i];
        var j :| 0 <= j < |completed| && completed[j].request.pos == answered[i].request.pos
                 && completed[j].outcome == answered[i].outcome;
        assert more[j] == completed[j];
      } else {
        assert more[|completed|] == Read(req, outcome);
        if i < |answered| + |waiters| { assert waiters[i - |answered|] in waiters; }
      }
    }
  }

  // ---------------------------------------------------------------- what one call does

  /** Completing `req` answers the waiters of slot i, if one is in use for the page, and `req`. */
  predicate Completes(slots: seq<Slot>, after: seq<Slot>, answered: seq<Answer>, answeredAfter: seq<Answer>,
                      req: Request, outcome: Outcome, i: Option<nat>)
  {
    && (i.Some? ==> i.value < |slots| && InUse(slots[i.value], req.pos))
    && (i.None? ==> forall j :: 0 <= j < |slots| ==> !InUse(slots[j], req.pos))
    && after == AfterErase(slots, i)
    && answeredAfter == answered + Answers(WaitersAt(slots, i), outcome) + [Answer(req, outcome)]
  }

  ghost predicate CompletedOne(slots: seq<Slot>, after: seq<Slot>, answered: seq<Answer>, answeredAfter: seq<Answer>,
                               req: Request, outcome: Outcome)
  {
    exists i: Option<nat> :: Completes(slots, after, answered, answeredAfter, req, outcome, i)
  }

  // ---------------------------------------------------------------- merge_table

  class MergeTable {
    const slots: array<Slot>
    var occupiedCount: nat
    var mergeCount: nat
    var totalGetCount: nat

    ghost predicate Valid()
      reads this, slots
    {
      && slots.Length == TABLE_SIZE && WellFormed(slots[..])
      && occupiedCount == Sum(slots[..], OccupiedSlot)
    }

    constructor ()
      ensures Valid() && fresh(slots)
      ensures forall i :: 0 <= i < TABLE_SIZE ==> slots[..][i] == Slot(0, Empty, [])
      ensures occupiedCount == 0
    {
      slots := new Slot[TABLE_SIZE](_ => Slot(0, Empty, []));
      occupiedCount, mergeCount, totalGetCount := 0, 0, 0;
      new;
      SumConstant(slots[..], OccupiedSlot, 0);
    }

    /** A search fails only if no slot is in use for pos, although it looks at eight slots. */
    method Find(pos: uint64) returns (i: Option<nat>)
      requires Valid()
      ensures i.Some? ==> i.value < TABLE_SIZE && InUse(slots[i.value], pos)
      ensures i.Some? ==> exists k: nat :: FirstInUse(slots[..], pos, k) && Probe(pos, k) == i.value
      ensures i.None? ==> forall j :: 0 <= j < TABLE_SIZE ==> !InUse(slots[..][j], pos)
    {
      hide Probe, Sum;
      for k := 0 to PROBES
        invariant k > 0 ==> Reaches(slots[..], pos, k - 1) && !slots[Probe(pos, k - 1)].state.Empty?
        invariant forall j: nat :: j < k ==> !InUse(slots[Probe(pos, j)], pos)
      {
        var at := Probe(pos, k);
        if slots[at].state.Empty? {
          forall j | 0 <= j < TABLE_SIZE ensures !InUse(slots[..][j], pos) {
            if InUse(slots[..][j], pos) {
              var m := SearchMeets(slots[..], pos, j);
            }
          }
          return None;
        }
        if slots[at].state.Occupied? && slots[at].pos == pos {
          assert FirstInUse(slots[..], pos, k);
          return Some(at);
        }
      }
      forall j | 0 <= j < TABLE_SIZE ensures !InUse(slots[..][j], pos) {
        if InUse(slots[..][j], pos) {
          var m := SearchMeets(slots[..], pos, j);
        }
      }
      return None;
    }

    /** Takes the first slot within eight probes that is not occupied, or none and changes nothing. */
    method Insert(pos: uint64) returns (i: Option<nat>)
      requires Valid()
      modifies this`occupiedCount, slots
      ensures Valid()
      ensures match i
              case Some(at) =>
                && at < TABLE_SIZE && !old(slots[at].state).Occupied?
                && slots[..] == old(slots[..])[at := Slot(pos, Occupied, [])]
                && exists k: nat :: FirstFree(old(slots[..]), pos, k) && Probe(pos, k) == at
              case None =>
                && slots[..] == old(slots[..])
                && forall k: nat :: k < PROBES ==> slots[Probe(pos, k)].state.Occupied?
    {
      hide Probe, Sum;
      for k := 0 to PROBES
        invariant slots[..] == old(slots[..]) && occupiedCount == old(occupiedCount)
        invariant forall j: nat :: j < k ==> slots[Probe(pos, j)].state.Occupied?
      {
        var at := Probe(pos, k);
        if !slots[at].state.Occupied? {
          ghost var before := slots[..];
          assert Reaches(before, pos, k) && FirstFree(before, pos, k);
          UpdateKeepsWellFormed(before, at, Slot(pos, Occupied, []));
          SumUpdate(before, at, Slot(pos, Occupied, []), OccupiedSlot);
          slots[at] := Slot(pos, Occupied, []);
          occupiedCount := occupiedCount + 1;
          assert slots[..] == before[at := Slot(pos, Occupied, [])];
          return Some(at);
        }
      }
      return None;
    }

    method AddWaiter(i: nat, r: Request) returns (added: bool)
      requires Valid() && i < TABLE_SIZE && InUse(slots[i], r.pos)
      modifies this`mergeCount, slots
      ensures Valid()
      ensures added <==> |old(slots[i]).waiters| < MAX_WAITERS
      ensures mergeCount == old(mergeCount) + if added then 1 else 0
      ensures slots[..] == if added then
                             old(slots[..])[i := old(slots[i]).(waiters := old(slots[i]).waiters + [r])]
                           else old(slots[..])
    {
      hide Probe, Sum;
      if |slots[i].waiters| >= MAX_WAITERS {
        return false;
      }
      ghost var before := slots[..];
      ghost var slot := slots[i].(waiters := slots[i].waiters + [r]);
      ghost var k := SearchMeets(before, r.pos, i);
      UpdateKeepsWellFormed(before, i, slot);
      SumUpdate(before, i, slot, OccupiedSlot);
      slots[i] := slots[i].(waiters := slots[i].waiters + [r]);
      mergeCount := mergeCount + 1;
      assert slots[..] == before[i := slot];
      return true;
    }

    method Erase(i: nat)
      requires Valid() && i < TABLE_SIZE && slots[i].state.Occupied?
      modifies this`occupiedCount, slots
      ensures Valid()
      ensures slots[..] == old(slots[..])[i := old(slots[i]).(state := Deleted)]
    {
      hide Probe, Sum;
      ghost var before := slots[..];
      ghost var slot := slots[i].(state := Deleted);
      UpdateKeepsWellFormed(before, i, slot);
      SumUpdate(before, i, slot, OccupiedSlot);
      SumAtLeast(before, i, OccupiedSlot);
      slots[i] := slots[i].(state := Deleted);
      occupiedCount := occupiedCount - 1;
      assert slots[..] == before[i := slot];
    }

    predicate IsEmpty()
      reads this
    {
      occupiedCount == 0
    }
  }

  // ---------------------------------------------------------------- the scheduler's get path

  class Scheduler {
    const merge: MergeTable
    var localGets: seq<Request>
    var used: nat
    const depth: nat
    // history, and the reads SPDK holds
    ghost var received: seq<Request>
    ghost var inFlight: seq<Request>
    ghost var completed: seq<Read>
    ghost var answered: seq<Answer>

    /** `used` counts the reads in flight and whatever else the queue pair carries. */
    ghost predicate Valid()
      reads this, merge, merge.slots
    {
      && merge.Valid()
      && used >= |inFlight|
      && Covered(merge.slots[..], inFlight)
      && Conserved(received, localGets, inFlight, merge.slots[..], answered)
      && AllJustified(completed, answered)
    }

    constructor (depth: nat)
      ensures Valid() && this.depth == depth
      ensures localGets == received == inFlight == [] && answered == [] && used == 0
    {
      this.depth := depth;
      merge := new MergeTable();
      localGets, received, inFlight, completed, answered, used := [], [], [], [], [], 0;
      new;
      forall pos: uint64 ensures Sum(merge.slots[..], SlotFor(pos)) == 0 {
        SumConstant(merge.slots[..], SlotFor(pos), 0);
      }
      forall r: Request ensures Sum(merge.slots[..], WaitsIn(r)) == 0 {
        SumConstant(merge.slots[..], WaitsIn(r), 0);
      }
    }

    predicate Busy()
      reads this
    {
      used > depth
    }

    /** A request reaches the local queue. */
    method Receive(r: Request)
      requires Valid()
      modifies this`localGets, this`received
      ensures Valid()
      ensures localGets == old(localGets) + [r] && received == old(received) + [r]
    {
      localGets := localGets + [r];
      received := received + [r];
      forall q: Request
        ensures Sum(received, Same(q)) - Sum(old(received), Same(q)) == Sum(localGets, Same(q)) - Sum(old(localGets), Same(q))
      {
        SumAppend(old(received), r, Same(q));
        SumAppend(old(localGets), r, Same(q));
      }
    }

    /** A read in flight (the n-th) completes: the waiters of one slot for its page and the read
        itself are answered with its outcome, and the slot is given up. */
    method OnGetDataDone(req: Request, outcome: Outcome, ghost n: nat)
      requires Valid() && n < |inFlight| && inFlight[n] == req
      modifies this`used, this`inFlight, this`completed, this`answered, merge`occupiedCount, merge.slots
      ensures Valid()
      ensures used == old(used) - 1
      ensures inFlight == old(inFlight[..n] + inFlight[n + 1..])
      ensures completed == old(completed) + [Read(req, outcome)]
      ensures CompletedOne(old(merge.slots[..]), merge.slots[..], old(answered), answered, req, outcome)
    {
      hide Sum, Probe, WellFormed, Covered, Conserved, AllJustified;
      ghost var slotsBefore := merge.slots[..];
      used := used - 1;
      inFlight := inFlight[..n] + inFlight[n + 1..];
      completed := completed + [Read(req, outcome)];
      var i := merge.Find(req.pos);
      assert merge.slots[..] == slotsBefore;
      ghost var waiters := WaitersAt(slotsBefore, i);
      CompletionKeeps(received, localGets, old(inFlight), slotsBefore, answered, n, i, outcome);
      FoundFit(slotsBefore, i, req.pos);
      if i.Some? {
        for k := 0 to |merge.slots[i.value].waiters|
          modifies this`answered
          invariant answered == old(answered) + Answers(waiters[..k], outcome)
        {
          answered := answered + [Answer(merge.slots[i.value].waiters[k], outcome)];
          assert Answers(waiters[..k + 1], outcome) == Answers(waiters[..k], outcome) + [Answer(waiters[k], outcome)];
        }
        merge.Erase(i.value);
        assert waiters[..|waiters|] == waiters;
      }
      answered := answered + [Answer(req, outcome)];
      assert merge.slots[..] == AfterErase(slotsBefore, i);
      assert answered == old(answered) + Answers(waiters, outcome) + [Answer(req, outcome)];
      JustifyMore(old(completed), old(answered), waiters, req, outcome);
      assert Completes(slotsBefore, merge.slots[..], old(answered), answered, req, outcome, i);
    }

    /** SPDK accepts a read, or refuses it, which counts as its failure at once. */
    method SpdkGet(req: Request, refused: bool)
      requires merge.Valid() && used >= |inFlight|
      requires Covered(merge.slots[..], inFlight + [req])
      requires Conserved(received, localGets, inFlight + [req], merge.slots[..], answered)
      requires AllJustified(completed, answered)
      modifies this`used, this`inFlight, this`completed, this`answered, merge`occupiedCount, merge.slots
      ensures Valid()
      ensures !refused ==>
                && used == old(used) + 1 && inFlight == old(inFlight) + [req]
                && completed == old(completed) && answered == old(answered)
                && merge.slots[..] == old(merge.slots[..])
      ensures refused ==>
                && used == old(used) && inFlight == old(inFlight)
                && completed == old(completed) + [Read(req, Failed)]
                && CompletedOne(old(merge.slots[..]), merge.slots[..], old(answered), answered, req, Failed)
    {
      used := used + 1;
      inFlight := inFlight + [req];
      if refused {
        OnGetDataDone(req, Failed, |inFlight| - 1);
        assert inFlight == old(inFlight);
      }
    }

    /** Takes requests from the local queue until it is empty or the queue pair is busy: each is
        merged onto a read in flight for the same page, or submitted on its own. */
    method HandleGetQueue(refuses: Request -> bool)
      requires Valid()
      modifies this`localGets, this`used, this`inFlight, this`completed, this`answered, merge, merge.slots
      ensures Valid()
      ensures localGets == [] || used > depth
      ensures old(used) > depth ==>
                && localGets == old(localGets) && inFlight == old(inFlight) && answered == old(answered)
                && merge.slots[..] == old(merge.slots[..])
      ensures exists k :: 0 <= k <= |old(localGets)| && localGets == old(localGets)[k..]
      ensures old(answered) <= answered && old(completed) <= completed
    {
      ghost var k := 0;
      while localGets != []
        invariant Valid()
        invariant 0 <= k <= |old(localGets)| && localGets == old(localGets)[k..]
        invariant k == 0 ==> used == old(used) && inFlight == old(inFlight) && answered == old(answered)
                             && merge.slots[..] == old(merge.slots[..])
        invariant old(used) > depth ==> k == 0
        invariant old(answered) <= answered && old(completed) <= completed
        decreases |localGets|
      {
        if Busy() {
          break;
        }
        HandleOne(refuses);
        k := k + 1;
      }
    }

    /** Registers the page for later merges, if there is room, and submits the read. */
    method RegisterAndSubmit(r: Request, refused: bool)
      requires merge.Valid() && used >= |inFlight|
      requires Covered(merge.slots[..], inFlight)
      requires Conserved(received, [r] + localGets, inFlight, merge.slots[..], answered)
      requires AllJustified(completed, answered)
      modifies this`used, this`inFlight, this`completed, this`answered, merge`occupiedCount, merge.slots
      ensures Valid()
      ensures !refused ==>
                && inFlight == old(inFlight) + [r] && used == old(used) + 1
                && answered == old(answered) && completed == old(completed)
                && Registered(old(merge.slots[..]), merge.slots[..], r.pos)
      ensures refused ==>
                && inFlight == old(inFlight) && used == old(used) && completed == old(completed) + [Read(r, Failed)]
                && old(answered) <= answered && Answer(r, Failed) in answered
    {
      hide Sum, Probe, WellFormed, Covered, Conserved, AllJustified;
      ghost var slotsBefore := merge.slots[..];
      var i := merge.Insert(r.pos);
      InsertKeeps(inFlight, slotsBefore, i, r);
      SubmitKeeps(received, localGets, inFlight, slotsBefore, answered, r);
      SameWaiters(received, localGets, inFlight + [r], slotsBefore, merge.slots[..], answered);
      assert Registered(slotsBefore, merge.slots[..], r.pos);
      SpdkGet(r, refused);
    }

    /** One request of the queue: if a search comes to a slot in use for its page with room for one
        more, it waits there and nothing is submitted. Otherwise the read is SPDK's and its page
        registered for later requests as long as the window has room, or the read was refused and
        answered with the failure. */
    method HandleOne(refuses: Request -> bool)
      requires Valid() && localGets != []
      modifies this`localGets, this`used, this`inFlight, this`completed, this`answered, merge, merge.slots
      ensures Valid()
      ensures localGets == old(localGets)[1..]
      ensures old(answered) <= answered && old(completed) <= completed
      ensures merge.totalGetCount == old(merge.totalGetCount) + 1
      ensures var r := old(localGets)[0];
              if Mergeable(old(merge.slots[..]), r.pos) then
                && WaitsAtFirst(old(merge.slots[..]), merge.slots[..], r)
                && inFlight == old(inFlight) && used == old(used)
                && completed == old(completed) && answered == old(answered)
                && merge.mergeCount == old(merge.mergeCount) + 1
              else if !refuses(r) then
                && inFlight == old(inFlight) + [r] && used == old(used) + 1
                && completed == old(completed) && answered == old(answered)
                && Registered(old(merge.slots[..]), merge.slots[..], r.pos)
              else
                && inFlight == old(inFlight) && used == old(used)
                && completed == old(completed) + [Read(r, Failed)] && Answer(r, Failed) in answered
    {
      hide Sum, Probe, WellFormed, Covered, Conserved, AllJustified;
      var r := localGets[0];
      ghost var slotsBefore := merge.slots[..];
      localGets := localGets[1..];
      assert old(localGets) == [r] + localGets;
      merge.totalGetCount := merge.totalGetCount + 1;
      if !merge.IsEmpty() {
        var slot := merge.Find(r.pos);
        if slot.Some? {
          ghost var k: nat :| FirstInUse(slotsBefore, r.pos, k) && Probe(r.pos, k) == slot.value;
          assert slotsBefore[slot.value] == merge.slots[slot.value];
          var added := merge.AddWaiter(slot.value, r);
          if added {
            MergeKeeps(received, localGets, inFlight, slotsBefore, answered, slot.value, r);
            assert WaitsAtFirst(slotsBefore, merge.slots[..], r);
            return;
          }
          FullAtFirst(slotsBefore, r.pos, k);
        } else {
          assert merge.slots[..] == slotsBefore;
          NoneInUse(slotsBefore, r.pos);
        }
      } else {
        EmptyTable(slotsBefore, r.pos);
      }
      assert merge.slots[..] == slotsBefore && !Mergeable(slotsBefore, r.pos);
      RegisterAndSubmit(r, refuses(r));
    }
  }

  lemma FullAtFirst(slots: seq<Slot>, pos: uint64, k: nat)
    requires |slots| == TABLE_SIZE && FirstInUse(slots, pos, k) && |slots[Probe(pos, k)].waiters| >= MAX_WAITERS
    ensures !Mergeable(slots, pos)
  {
    if m: nat :| FirstInUse(slots, pos, m) && |slots[Probe(pos, m)].waiters| < MAX_WAITERS {
      FirstUnique(slots, pos, k, m);
    }
  }

  lemma NoneInUse(slots: seq<Slot>, pos: uint64)
    requires |slots| == TABLE_SIZE && forall j :: 0 <= j < TABLE_SIZE ==> !InUse(slots[j], pos)
    ensures !Mergeable(slots, pos)
  {
  }

  lemma EmptyTable(slots: seq<Slot>, pos: uint64)
    requires |slots| == TABLE_SIZE && Sum(slots, OccupiedSlot) == 0
    ensures !Mergeable(slots, pos)
  {
    forall j | 0 <= j < TABLE_SIZE ensures !InUse(slots[j], pos) {
      SumAtLeast(slots, j, OccupiedSlot);
    }
    NoneInUse(slots, pos);
  }

  // ---------------------------------------------------------------- main results

  /** As long as a slot is in use, and so as long as anybody waits in it, a read of its page is
      in flight: no waiter is stranded, with full waiter arrays, duplicate slots or a full window. */
  lemma NoWaiterStranded(slots: seq<Slot>, inFlight: seq<Request>, i: nat)
    returns (n: nat)
    requires Covered(slots, inFlight) && i < |slots| && slots[i].state.Occupied?
    ensures n < |inFlight| && inFlight[n].pos == slots[i].pos
  {
    var pos := slots[i].pos;
    SumAtLeast(slots, i, SlotFor(pos));
    assert Sum(slots, SlotFor(pos)) <= Sum(inFlight, ReadOf(pos));
    n := SumWitness(inFlight, ReadOf(pos));
  }

  /** When no read is in flight and none is queued, every request has been answered exactly as
      often as it was received, and the table holds nothing. */
  lemma AllAnswered(s: Scheduler, r: Request)
    requires s.Valid() && s.inFlight == [] && s.localGets == []
    ensures Sum(s.answered, AnswerTo(r)) == Sum(s.received, Same(r))
    ensures s.merge.IsEmpty()
  {
    var slots := s.merge.slots[..];
    forall i | 0 <= i < |slots| ensures !slots[i].state.Occupied? {
      if slots[i].state.Occupied? {
        var n := NoWaiterStranded(slots, s.inFlight, i);
      }
    }
    SumConstant(slots, OccupiedSlot, 0);
    SumConstant(slots, WaitsIn(r), 0);
    SumConstant(s.localGets, Same(r), 0);
  }

  /** No request is answered more often than it was received, and every answer is the outcome of
      a completed read of the request's own page. */
  lemma NeverAnsweredTwice(s: Scheduler, r: Request)
    requires s.Valid()
    ensures Sum(s.answered, AnswerTo(r)) <= Sum(s.received, Same(r))
    ensures forall i :: 0 <= i < |s.answered| ==> Justified(s.completed, s.answered[i])
  {
    WaitsNonNegative(s.merge.slots[..], r);
    SumNonNegative(s.localGets, Same(r));
    SumNonNegative(s.inFlight, Same(r));
  }

  lemma {:induction false} WaitsNonNegative(slots: seq<Slot>, r: Request)
    ensures 0 <= Sum(slots, WaitsIn(r))
  {
    if slots != [] {
      WaitsNonNegative(slots[..|slots| - 1], r);
      SumNonNegative(slots[|slots| - 1].waiters, Same(r));
    }
  }
}
