/** The per-core queue group: one queue per source core, a bitmap of the cores that have put
    something in, and one drainer.

    Every core produces; one thread drains. A call on a single-producer single-consumer queue is
    one step here (SpscRing proves it one FIFO operation); the bitmap words are accessed one
    atomic operation per step. Memory is sequentially consistent. */
module PerCoreQueue {
  import opened BitMask

  datatype Producer = Resting | Put(v: int) | SetBit | PutDone | Refused

  datatype Drainer =
    | NotDraining
    // drain
    | TakeLocal | Exchange(w: nat) | Walk(w: nat, mask: nat) | Drain(w: nat, core: nat, mask: nat) | DrainDone
    // try_dequeue
    | TryLocal | TryLoad(w: nat) | TryWalk(w: nat, mask: nat) | Got(v: int) | GotNothing

  /** Queue number `cores` is the local one. `produced` and `handled` (per queue) and `due` (how
      much of each queue a drain has to handle) are history. */
  datatype State = State(
    queues: seq<seq<int>>, active: seq<nat>, producers: seq<Producer>, drainer: Drainer,
    produced: seq<seq<int>>, handled: seq<seq<int>>, due: seq<nat>)

  /** `owner` is the core that drains, if it also produces: its items take the local queue. */
  datatype Config = Config(words: nat, capacity: nat, owner: nat)

  predicate Config?(c: Config) { c.capacity >= 1 }

  function Cores(c: Config): nat { 64 * c.words }

  function Init(c: Config): State {
    var none: seq<seq<int>> := seq(Cores(c) + 1, _ => []);
    State(none, seq(c.words, _ => 0), seq(Cores(c), _ => Resting), NotDraining, none, none, seq(Cores(c) + 1, _ => 0))
  }

  /** The queue a core's items go to. */
  function Target(c: Config, p: nat): nat { if p == c.owner then Cores(c) else p }

  predicate Sized(c: Config, s: State) {
    && |s.queues| == |s.produced| == |s.handled| == |s.due| == Cores(c) + 1
    && |s.active| == c.words && |s.producers| == Cores(c)
  }

  function StepProducer(c: Config, s: State, p: nat): State
    requires Config?(c) && Sized(c, s) && p < Cores(c)
  {
    match s.producers[p]
    case Put(v) =>
      var q := Target(c, p);
      if |s.queues[q]| < c.capacity - 1 then
        s.(queues := s.queues[q := s.queues[q] + [v]], produced := s.produced[q := s.produced[q] + [v]],
           producers := s.producers[p := if p == c.owner then PutDone else SetBit])
      else s.(producers := s.producers[p := Refused])
    case SetBit =>
      var w := p / 64;
      s.(active := s.active[w := Or(s.active[w], Pow2(p % 64))], producers := s.producers[p := PutDone])
    case _ => s
  }

  /** Hands the first element of queue q to the caller. */
  function Take(s: State, q: nat): State
    requires q < |s.queues| == |s.handled| && s.queues[q] != []
  {
    s.(queues := s.queues[q := s.queues[q][1..]], handled := s.handled[q := s.handled[q] + [s.queues[q][0]]])
  }

  predicate DrainerOk(c: Config, s: State) {
    && Sized(c, s)
    && (s.drainer.Drain? ==> s.drainer.core < Cores(c))
    && (s.drainer.TryWalk? && s.drainer.mask != 0 ==> s.drainer.w * 64 + Ctz(s.drainer.mask) < Cores(c))
  }

  function StepDrainer(c: Config, s: State): State
    requires DrainerOk(c, s)
  {
    match s.drainer
    case TakeLocal =>
      if s.queues[Cores(c)] != [] then Take(s, Cores(c)) else s.(drainer := Exchange(0))
    case Exchange(w) =>
      if w < c.words then s.(active := s.active[w := 0], drainer := Walk(w, s.active[w]))
      else s.(drainer := DrainDone)
    case Walk(w, mask) =>
      if mask == 0 then s.(drainer := Exchange(w + 1))
      else s.(drainer := Drain(w, w * 64 + Ctz(mask), And(mask, mask - 1)))
    case Drain(w, core, mask) =>
      if s.queues[core] != [] then Take(s, core) else s.(drainer := Walk(w, mask))
    case TryLocal =>
      if s.queues[Cores(c)] != [] then Take(s, Cores(c)).(drainer := Got(s.queues[Cores(c)][0]))
      else s.(drainer := TryLoad(0))
    case TryLoad(w) =>
      if w < c.words then s.(drainer := TryWalk(w, s.active[w])) else s.(drainer := GotNothing)
    case TryWalk(w, mask) =>
      if mask == 0 then s.(drainer := TryLoad(w + 1))
      else
        var core := w * 64 + Ctz(mask);
        if s.queues[core] != [] then Take(s, core).(drainer := Got(s.queues[core][0]))
        else s.(drainer := TryWalk(w, And(mask, mask - 1)))
    case _ => s
  }

  predicate AtRest(d: Drainer) { d.NotDraining? || d.DrainDone? || d.Got? || d.GotNothing? }

  /** What a drain that starts now has to handle: everything whose producer has finished. */
  function Due(c: Config, s: State, q: nat): nat
    requires Sized(c, s) && q <= Cores(c)
  {
    if q < Cores(c) && s.producers[q].SetBit? then |s.handled[q]| else |s.produced[q]|
  }

  function StartDrain(c: Config, s: State): State
    requires Sized(c, s)
  {
    s.(drainer := TakeLocal, due := seq(Cores(c) + 1, (q: int) requires 0 <= q <= Cores(c) => Due(c, s, q)))
  }

  predicate Moves(c: Config, s: State, p: nat, v: int, s': State) {
    || (Config?(c) && Sized(c, s) && p < Cores(c) && s' == StepProducer(c, s, p))
    || (Config?(c) && DrainerOk(c, s) && s' == StepDrainer(c, s))
    || (p < |s.producers| && (s.producers[p].Resting? || s.producers[p].PutDone? || s.producers[p].Refused?)
        && s' == s.(producers := s.producers[p := Put(v)]))
    || (AtRest(s.drainer) && Sized(c, s) && s' == StartDrain(c, s))
    || (AtRest(s.drainer) && s' == s.(drainer := TryLocal))
  }

  ghost predicate Next(c: Config, s: State, s': State) {
    exists p: nat, v: int :: Moves(c, s, p, v, s')
  }

  ghost predicate IsRun(c: Config, run: seq<State>) {
    && |run| > 0
    && run[0] == Init(c)
    && forall i :: 0 < i < |run| ==> Next(c, run[i - 1], run[i])
  }

  // ---------------------------------------------------------------- the invariant

  /** Core q's bit is set in its word. */
  predicate Marked(s: State, q: nat) {
    q / 64 < |s.active| && Bit(s.active[q / 64], q % 64)
  }

  /** The drainer has core q's bit in the mask it took, or is at its queue. */
  predicate InHand(d: Drainer, q: nat) {
    || ((d.Walk? || d.Drain?) && d.w == q / 64 && Bit(d.mask, q % 64))
    || (d.Drain? && d.core == q)
  }

  /** A non-empty queue is known to somebody. */
  predicate Known(s: State, q: nat)
    requires q < |s.producers| && q < |s.queues|
  {
    s.queues[q] != [] ==> Marked(s, q) || InHand(s.drainer, q) || s.producers[q].SetBit?
  }

  predicate Kept(s: State, q: nat)
    requires q < |s.queues| == |s.produced| == |s.handled| == |s.due|
  {
    && s.produced[q] == s.handled[q] + s.queues[q]
    && s.due[q] <= |s.produced[q]|
  }

  predicate Draining(d: Drainer) { d.TakeLocal? || d.Exchange? || d.Walk? || d.Drain? || d.DrainDone? }

  /** The drain has yet to come to queue q, and will. */
  predicate Ahead(c: Config, s: State, q: nat) {
    if q == Cores(c) then s.drainer.TakeLocal?
    else
      || InHand(s.drainer, q)
      || (Marked(s, q) && (s.drainer.TakeLocal? || (s.drainer.Exchange? && s.drainer.w <= q / 64)
                           || ((s.drainer.Walk? || s.drainer.Drain?) && s.drainer.w < q / 64)))
  }

  predicate DueMet(c: Config, s: State, q: nat)
    requires q < |s.handled| == |s.due|
  {
    Draining(s.drainer) ==> s.due[q] <= |s.handled[q]| || Ahead(c, s, q)
  }

  predicate QueueOk(c: Config, s: State, q: nat)
    requires Sized(c, s) && q <= Cores(c)
  {
    (q < Cores(c) ==> Known(s, q)) && Kept(s, q) && DueMet(c, s, q)
  }

  ghost predicate InWord(mask: nat) { forall i: nat :: Bit(mask, i) ==> i < 64 }

  ghost predicate Masks(c: Config, s: State) {
    && (forall w :: 0 <= w < |s.active| ==> InWord(s.active[w]))
    && (s.drainer.Walk? || s.drainer.Drain? || s.drainer.TryWalk? ==> s.drainer.w < c.words && InWord(s.drainer.mask))
    && (s.drainer.Drain? ==> s.drainer.core < Cores(c))
  }

  ghost predicate Inv(c: Config, s: State) {
    && Config?(c) && Sized(c, s) && Masks(c, s)
    && (forall q :: 0 <= q <= Cores(c) ==> QueueOk(c, s, q))
    && (c.owner < Cores(c) ==> s.queues[c.owner] == [] && !s.producers[c.owner].SetBit?)
  }

  // ---------------------------------------------------------------- every step keeps it

  lemma Clears(m: nat, rest: nat)
    requires m > 0 && rest == And(m, m - 1)
    ensures Bit(m, Ctz(m))
    ensures forall i: nat :: Bit(rest, i) <==> Bit(m, i) && i != Ctz(m)
  {
    CtzIsLowest(m);
    forall i: nat ensures Bit(rest, i) <==> Bit(m, i) && i != Ctz(m) {
      ClearLowest(m, i);
    }
  }

  lemma Sets(m: nat, i: nat)
    ensures forall j: nat :: Bit(Or(m, Pow2(i)), j) <==> Bit(m, j) || j == i
  {
    forall j: nat ensures Bit(Or(m, Pow2(i)), j) <==> Bit(m, j) || j == i {
      OrSets(m, i, j);
    }
  }

  lemma NothingSet()
    ensures forall i: nat :: !Bit(0, i)
  {
    forall i: nat ensures !Bit(0, i) {
      NoBits(i);
    }
  }

  lemma PutStep(c: Config, s: State, p: nat)
    requires Inv(c, s) && p < Cores(c) && s.producers[p].Put?
    ensures Inv(c, StepProducer(c, s, p))
  {
    hide Bit, And, Or, Pow2, Ctz;
    var s' := StepProducer(c, s, p);
    forall q | 0 <= q <= Cores(c) ensures QueueOk(c, s', q) {
      assert QueueOk(c, s, q);
    }
  }

  lemma SetBitStep(c: Config, s: State, p: nat)
    requires Inv(c, s) && p < Cores(c) && s.producers[p].SetBit?
    ensures Inv(c, StepProducer(c, s, p))
  {
    hide Bit, And, Or, Pow2, Ctz;
    var s' := StepProducer(c, s, p);
    Sets(s.active[p / 64], p % 64);
    forall q | 0 <= q <= Cores(c) ensures QueueOk(c, s', q) {
      assert QueueOk(c, s, q);
    }
  }

  /** Taking the first element of a queue. */
  lemma TakeKeeps(c: Config, s: State, q: nat)
    requires Inv(c, s) && q <= Cores(c) && s.queues[q] != []
    ensures Inv(c, Take(s, q))
  {
    hide Bit, And, Or, Pow2, Ctz;
    var s' := Take(s, q);
    forall j | 0 <= j <= Cores(c) ensures QueueOk(c, s', j) {
      assert QueueOk(c, s, j);
    }
  }

  lemma LocalStep(c: Config, s: State)
    requires Inv(c, s) && s.drainer.TakeLocal? && s.queues[Cores(c)] == []
    ensures Inv(c, StepDrainer(c, s))
  {
    hide Bit, And, Or, Pow2, Ctz;
    var s' := StepDrainer(c, s);
    forall q | 0 <= q <= Cores(c) ensures QueueOk(c, s', q) {
      assert QueueOk(c, s, q);
    }
  }

  lemma ExchangeStep(c: Config, s: State)
    requires Inv(c, s) && s.drainer.Exchange?
    ensures Inv(c, StepDrainer(c, s))
  {
    hide Bit, And, Or, Pow2, Ctz;
    var s' := StepDrainer(c, s);
    NothingSet();
    forall q | 0 <= q <= Cores(c) ensures QueueOk(c, s', q) {
      assert QueueOk(c, s, q);
    }
  }

  lemma WalkStep(c: Config, s: State)
    requires Inv(c, s) && s.drainer.Walk?
    ensures DrainerOk(c, s) && Inv(c, StepDrainer(c, s))
  {
    hide Bit, And, Or, Pow2, Ctz;
    if s.drainer.mask == 0 { NothingSet(); } else { Clears(s.drainer.mask, And(s.drainer.mask, s.drainer.mask - 1)); }
    var s' := StepDrainer(c, s);
    forall q | 0 <= q <= Cores(c) ensures QueueOk(c, s', q) {
      assert QueueOk(c, s, q);
    }
  }

  /** A queue the drainer finds empty has had all its due elements handled. */
  lemma LeaveQueueStep(c: Config, s: State)
    requires Inv(c, s) && s.drainer.Drain? && s.queues[s.drainer.core] == []
    ensures Inv(c, StepDrainer(c, s))
  {
    hide Bit, And, Or, Pow2, Ctz;
    var s' := StepDrainer(c, s);
    forall q | 0 <= q <= Cores(c) ensures QueueOk(c, s', q) {
      assert QueueOk(c, s, q);
    }
  }

  /** try_dequeue clears no bit, so it can strand nothing. */
  lemma TryStep(c: Config, s: State)
    requires Inv(c, s) && (s.drainer.TryLocal? || s.drainer.TryLoad? || s.drainer.TryWalk?)
    ensures DrainerOk(c, s) && Inv(c, StepDrainer(c, s))
  {
    hide Bit, And, Or, Pow2, Ctz;
    if s.drainer.TryWalk? && s.drainer.mask > 0 { Clears(s.drainer.mask, And(s.drainer.mask, s.drainer.mask - 1)); }
    var s' := StepDrainer(c, s);
    forall q | 0 <= q <= Cores(c) ensures QueueOk(c, s', q) {
      assert QueueOk(c, s, q);
    }
  }

  lemma StartStep(c: Config, s: State)
    requires Inv(c, s) && AtRest(s.drainer)
    ensures Inv(c, StartDrain(c, s))
  {
    hide Bit, And, Or, Pow2, Ctz;
    var s' := StartDrain(c, s);
    forall q | 0 <= q <= Cores(c) ensures QueueOk(c, s', q) {
      assert QueueOk(c, s, q);
    }
  }

  lemma DrainerStep(c: Config, s: State)
    requires Inv(c, s)
    ensures DrainerOk(c, s) && Inv(c, StepDrainer(c, s))
  {
    hide Bit, And, Or, Pow2, Ctz, QueueOk;
    match s.drainer
    case TakeLocal => if s.queues[Cores(c)] == [] { LocalStep(c, s); } else { TakeKeeps(c, s, Cores(c)); }
    case Exchange(_) => ExchangeStep(c, s);
    case Walk(_, _) => WalkStep(c, s);
    case Drain(_, core, _) => if s.queues[core] == [] { LeaveQueueStep(c, s); } else { TakeKeeps(c, s, core); }
    case TryLocal => TryStep(c, s);
    case TryLoad(_) => TryStep(c, s);
    case TryWalk(_, _) => TryStep(c, s);
    case _ =>
  }

  lemma CallStep(c: Config, s: State, p: nat, v: int)
    requires Inv(c, s) && p < Cores(c)
    requires s.producers[p].Resting? || s.producers[p].PutDone? || s.producers[p].Refused?
    ensures Inv(c, s.(producers := s.producers[p := Put(v)]))
  {
    hide Bit, And, Or, Pow2, Ctz;
    var s' := s.(producers := s.producers[p := Put(v)]);
    forall q | 0 <= q <= Cores(c) ensures QueueOk(c, s', q) {
      assert QueueOk(c, s, q);
    }
  }

  lemma TryStart(c: Config, s: State)
    requires Inv(c, s) && AtRest(s.drainer)
    ensures Inv(c, s.(drainer := TryLocal))
  {
    hide Bit, And, Or, Pow2, Ctz;
    var s' := s.(drainer := TryLocal);
    forall q | 0 <= q <= Cores(c) ensures QueueOk(c, s', q) {
      assert QueueOk(c, s, q);
    }
  }

  lemma MovesKeepsInv(c: Config, s: State, p: nat, v: int, s': State)
    requires Inv(c, s) && Moves(c, s, p, v, s')
    ensures Inv(c, s')
  {
    hide Bit, And, Or, Pow2, Ctz, QueueOk, Masks;
    if s' == s {
    } else if p < Cores(c) && s' == StepProducer(c, s, p) {
      if s.producers[p].Put? { PutStep(c, s, p); } else { SetBitStep(c, s, p); }
    } else if DrainerOk(c, s) && s' == StepDrainer(c, s) {
      DrainerStep(c, s);
    } else if AtRest(s.drainer) && s' == StartDrain(c, s) {
      StartStep(c, s);
    } else if AtRest(s.drainer) && s' == s.(drainer := TryLocal) {
      TryStart(c, s);
    } else {
      CallStep(c, s, p, v);
    }
  }

  lemma InitInv(c: Config)
    requires Config?(c)
    ensures Inv(c, Init(c))
  {
    hide Bit;
    NothingSet();
    var s := Init(c);
    forall q | 0 <= q <= Cores(c) ensures QueueOk(c, s, q) {}
  }

  lemma {:induction false} RunInv(c: Config, run: seq<State>, k: nat)
    requires Config?(c) && IsRun(c, run) && k < |run|
    ensures Inv(c, run[k])
    decreases k
  {
    hide Inv, Moves, Init;
    if k == 0 {
      InitInv(c);
    } else {
      RunInv(c, run, k - 1);
      assert Next(c, run[k - 1], run[k]);
      var p: nat, v: int :| Moves(c, run[k - 1], p, v, run[k]);
      MovesKeepsInv(c, run[k - 1], p, v, run[k]);
    }
  }

  // ---------------------------------------------------------------- main results

  /** No wakeup is lost: a queue with something in it has its bit set, or its bit is in the mask
      the drainer is walking, or the drainer is at it, or its producer has yet to set the bit. When
      the drainer is at rest and the producer's call has returned, the bit is set. */
  lemma NoLostWakeup(c: Config, run: seq<State>, k: nat, q: nat)
    requires Config?(c) && IsRun(c, run) && k < |run| && q < Cores(c)
    ensures var s := run[k];
            Sized(c, s) && Known(s, q)
            && (s.queues[q] != [] && AtRest(s.drainer) && !s.producers[q].SetBit? ==> Marked(s, q))
  {
    RunInv(c, run, k);
    assert QueueOk(c, run[k], q);
  }

  /** Items come out once, and in the order their core put them in. */
  lemma PerSourceOrder(c: Config, run: seq<State>, k: nat, q: nat)
    requires Config?(c) && IsRun(c, run) && k < |run| && q <= Cores(c)
    ensures var s := run[k];
            Sized(c, s) && s.produced[q] == s.handled[q] + s.queues[q] && s.handled[q] <= s.produced[q]
  {
    RunInv(c, run, k);
    assert QueueOk(c, run[k], q);
  }

  /** A drain that began when queue q's producer was not in the middle of a call handles all that
      q then held, whatever the producers do meanwhile. */
  lemma DrainHandlesDue(c: Config, run: seq<State>, i: nat, j: nat, q: nat)
    requires Config?(c) && IsRun(c, run) && i + 1 <= j < |run| && q <= Cores(c)
    requires Sized(c, run[i]) && AtRest(run[i].drainer) && run[i + 1] == StartDrain(c, run[i])
    requires forall k :: i < k < j ==> Draining(run[k].drainer) && !run[k].drainer.DrainDone?
    requires run[j].drainer.DrainDone?
    requires q < Cores(c) ==> !run[i].producers[q].SetBit?
    ensures Sized(c, run[j]) && run[i].produced[q] <= run[j].handled[q]
  {
    hide Bit, And, Or, Pow2, Ctz;
    RunInv(c, run, j);
    assert QueueOk(c, run[j], q);
    DueStays(c, run, i + 1, j, q);
    ProducedGrows(c, run, i, j, q);
  }

  lemma {:induction false} DueStays(c: Config, run: seq<State>, i: nat, j: nat, q: nat)
    requires Config?(c) && IsRun(c, run) && i <= j < |run| && q <= Cores(c)
    requires forall k :: i <= k < j ==> Draining(run[k].drainer) && !run[k].drainer.DrainDone?
    ensures Sized(c, run[i]) && Sized(c, run[j]) && run[j].due[q] == run[i].due[q]
    decreases j
  {
    hide Bit, And, Or, Pow2, Ctz, QueueOk, Masks;
    RunInv(c, run, i);
    RunInv(c, run, j);
    if i < j {
      DueStays(c, run, i, j - 1, q);
      assert Next(c, run[j - 1], run[j]);
    }
  }

  lemma {:induction false} ProducedGrows(c: Config, run: seq<State>, i: nat, j: nat, q: nat)
    requires Config?(c) && IsRun(c, run) && i <= j < |run| && q <= Cores(c)
    ensures Sized(c, run[i]) && Sized(c, run[j]) && run[i].produced[q] <= run[j].produced[q]
    decreases j
  {
    hide Bit, And, Or, Pow2, Ctz, QueueOk, Masks;
    RunInv(c, run, i);
    RunInv(c, run, j);
    if i < j {
      ProducedGrows(c, run, i, j - 1, q);
      assert Next(c, run[j - 1], run[j]);
    }
  }
}
