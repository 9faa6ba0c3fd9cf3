/** What the calls on the per-core queue group return, and that the drainer's calls end. */
module PerCoreCalls {
  import opened BitMask
  import opened PerCoreQueue

  lemma MoveOf(c: Config, run: seq<State>, k: nat) returns (p: nat, v: int)
    requires IsRun(c, run) && k + 1 < |run|
    ensures Moves(c, run[k], p, v, run[k + 1])
  {
    hide Moves;
    assert Next(c, run[k], run[k + 1]);
    p, v :| Moves(c, run[k], p, v, run[k + 1]);
  }

  // ---------------------------------------------------------------- try_dequeue

  /** Queue q has lost its first element, and that is v; nothing else was taken. */
  predicate TakesFirst(s: State, s': State, q: nat, v: int) {
    && q < |s.queues| == |s.handled| && s.queues[q] != [] && v == s.queues[q][0]
    && s'.queues == s.queues[q := s.queues[q][1..]] && s'.handled == s.handled[q := s.handled[q] + [v]]
  }

  /** What try_dequeue returns is the first element of a queue, which that queue has lost. */
  lemma GotIsFirst(c: Config, run: seq<State>, k: nat) returns (q: nat)
    requires Config?(c) && IsRun(c, run) && k + 1 < |run|
    requires run[k + 1].drainer.Got? && !run[k].drainer.Got?
    ensures q <= Cores(c) && TakesFirst(run[k], run[k + 1], q, run[k + 1].drainer.v)
  {
    hide Bit, And, Or, Pow2, Ctz;
    var s := run[k];
    var p, v := MoveOf(c, run, k);
    q := if s.drainer.TryWalk? && s.drainer.mask != 0 then s.drainer.w * 64 + Ctz(s.drainer.mask) else Cores(c);
  }

  predicate Trying(d: Drainer) { d.TryLocal? || d.TryLoad? || d.TryWalk? }

  /** try_dequeue has yet to look at queue q, which has something in it, and will. */
  predicate StillToTry(c: Config, s: State, q: nat)
    requires Sized(c, s) && q <= Cores(c)
  {
    && s.queues[q] != []
    && if q == Cores(c) then s.drainer.TryLocal?
       else
         && Marked(s, q)
         && match s.drainer
            case TryLocal => true
            case TryLoad(w) => w <= q / 64
            case TryWalk(w, mask) => w < q / 64 || (w == q / 64 && Bit(mask, q % 64))
            case _ => false
  }

  lemma ProducerKeepsTry(c: Config, s: State, p: nat, q: nat)
    requires Inv(c, s) && p < Cores(c) && q <= Cores(c) && StillToTry(c, s, q)
    ensures Sized(c, StepProducer(c, s, p)) && StillToTry(c, StepProducer(c, s, p), q)
  {
    hide Bit, And, Or, Pow2, Ctz, QueueOk;
    if s.producers[p].SetBit? { Sets(s.active[p / 64], p % 64); }
  }

  lemma DrainerKeepsTry(c: Config, s: State, q: nat)
    requires Inv(c, s) && q <= Cores(c) && StillToTry(c, s, q)
    ensures DrainerOk(c, s) && Sized(c, StepDrainer(c, s))
    ensures StepDrainer(c, s).drainer.Got? || StillToTry(c, StepDrainer(c, s), q)
  {
    hide Bit, And, Or, Pow2, Ctz, QueueOk;
    DrainerStep(c, s);
    NothingSet();
    if s.drainer.TryWalk? && s.drainer.mask > 0 { Clears(s.drainer.mask, And(s.drainer.mask, s.drainer.mask - 1)); }
  }

  lemma {:induction false} TryRuns(c: Config, run: seq<State>, i: nat, j: nat, q: nat)
    requires Config?(c) && IsRun(c, run) && i <= j < |run| && q <= Cores(c)
    requires Sized(c, run[i]) && StillToTry(c, run[i], q)
    requires forall k :: i <= k < j ==> Trying(run[k].drainer)
    ensures Sized(c, run[j]) && (run[j].drainer.Got? || StillToTry(c, run[j], q))
    decreases j
  {
    hide Bit, And, Or, Pow2, Ctz, QueueOk, StillToTry, StepDrainer, StepProducer, IsRun;
    RunInv(c, run, j);
    if i < j {
      TryRuns(c, run, i, j - 1, q);
      RunInv(c, run, j - 1);
      var s := run[j - 1];
      var p, v := MoveOf(c, run, j - 1);
      if p < Cores(c) && run[j] == StepProducer(c, s, p) {
        ProducerKeepsTry(c, s, p, q);
      } else if DrainerOk(c, s) && run[j] == StepDrainer(c, s) {
        DrainerKeepsTry(c, s, q);
      } else {
        CallKeepsTry(c, s, p, v, q);
      }
    }
  }

  lemma CallKeepsTry(c: Config, s: State, p: nat, v: int, q: nat)
    requires Sized(c, s) && q <= Cores(c) && StillToTry(c, s, q) && p < Cores(c)
    ensures StillToTry(c, s.(producers := s.producers[p := Put(v)]), q)
  {
  }

  /** try_dequeue returns nothing only if no queue had anything in it when it began, but for what
      producers had put in without having set their bit yet. */
  lemma NothingWasThere(c: Config, run: seq<State>, i: nat, j: nat, q: nat)
    requires Config?(c) && IsRun(c, run) && i < j < |run| && q <= Cores(c)
    requires run[i].drainer.TryLocal? && (forall k :: i <= k < j ==> Trying(run[k].drainer))
    requires run[j].drainer.GotNothing?
    ensures Sized(c, run[i]) && ((q < Cores(c) && run[i].producers[q].SetBit?) || run[i].queues[q] == [])
  {
    hide Bit, And, Or, Pow2, Ctz;
    RunInv(c, run, i);
    assert QueueOk(c, run[i], q);
    if run[i].queues[q] != [] && !(q < Cores(c) && run[i].producers[q].SetBit?) {
      TryRuns(c, run, i, j, q);
    }
  }

  // ---------------------------------------------------------------- try_enqueue

  predicate Putting(pc: Producer) { pc.Put? || pc.SetBit? }

  /** How far core p's call with v has come; `before` was what its queue had been given. */
  predicate PutSoFar(c: Config, s: State, p: nat, v: int, before: seq<int>)
    requires Sized(c, s) && p < Cores(c)
  {
    match s.producers[p]
    case Put(w) => w == v && s.produced[Target(c, p)] == before
    case SetBit => s.produced[Target(c, p)] == before + [v]
    case PutDone => s.produced[Target(c, p)] == before + [v]
    case Refused => s.produced[Target(c, p)] == before
    case Resting => false
  }

  lemma PutOwn(c: Config, s: State, p: nat, v: int, before: seq<int>)
    requires Inv(c, s) && p < Cores(c) && PutSoFar(c, s, p, v, before) && Putting(s.producers[p])
    ensures var s' := StepProducer(c, s, p);
            && Sized(c, s') && PutSoFar(c, s', p, v, before)
            && (s'.producers[p].Refused? ==> s.producers[p].Put? && |s.queues[Target(c, p)]| >= c.capacity - 1)
  {
    hide Or, Pow2, QueueOk, Masks;
  }

  /** Nobody else puts anything into the queue a core puts into. */
  lemma PutOther(c: Config, s: State, q: nat, p: nat)
    requires Inv(c, s) && q < Cores(c) && p < Cores(c) && q != p
    ensures var s' := StepProducer(c, s, q);
            Sized(c, s') && s'.producers[p] == s.producers[p] && s'.produced[Target(c, p)] == s.produced[Target(c, p)]
  {
    hide Or, Pow2, QueueOk, Masks;
  }

  lemma PutDrains(c: Config, s: State, p: nat)
    requires Inv(c, s) && DrainerOk(c, s) && p < Cores(c)
    ensures var s' := StepDrainer(c, s);
            Sized(c, s') && s'.producers[p] == s.producers[p] && s'.produced[Target(c, p)] == s.produced[Target(c, p)]
  {
    hide And, Ctz, QueueOk, Masks;
  }

  lemma PutMoves(c: Config, s: State, q: nat, w: int, s': State, p: nat, v: int, before: seq<int>)
    requires Inv(c, s) && Moves(c, s, q, w, s') && p < Cores(c)
    requires PutSoFar(c, s, p, v, before) && Putting(s.producers[p])
    ensures Sized(c, s') && PutSoFar(c, s', p, v, before)
    ensures s'.producers[p].Refused? ==> |s.queues[Target(c, p)]| >= c.capacity - 1
  {
    hide StepProducer, StepDrainer, QueueOk, Masks;
    if s' == StepProducer(c, s, p) {
      PutOwn(c, s, p, v, before);
    } else if q < Cores(c) && s' == StepProducer(c, s, q) {
      PutOther(c, s, q, p);
    } else if DrainerOk(c, s) && s' == StepDrainer(c, s) {
      PutDrains(c, s, p);
    }
  }

  lemma PutStart(c: Config, s: State, p: nat)
    requires Sized(c, s) && p < Cores(c) && s.producers[p].Put?
    ensures PutSoFar(c, s, p, s.producers[p].v, s.produced[Target(c, p)])
  {
  }

  lemma {:induction false} PutRuns(c: Config, run: seq<State>, i: nat, j: nat, p: nat)
    requires Config?(c) && IsRun(c, run) && i <= j < |run| && p < Cores(c)
    requires Sized(c, run[i]) && run[i].producers[p].Put?
    requires forall k :: i <= k < j ==> p < |run[k].producers| && Putting(run[k].producers[p])
    ensures Sized(c, run[j])
    ensures PutSoFar(c, run[j], p, run[i].producers[p].v, run[i].produced[Target(c, p)])
    decreases j
  {
    hide Moves, PutSoFar, Inv, IsRun;
    if i == j {
      PutStart(c, run[i], p);
    } else {
      PutRuns(c, run, i, j - 1, p);
      RunInv(c, run, j - 1);
      var q, w := MoveOf(c, run, j - 1);
      PutMoves(c, run[j - 1], q, w, run[j], p, run[i].producers[p].v, run[i].produced[Target(c, p)]);
    }
  }

  /** A call of try_enqueue(v) returns true with exactly v added to the core's queue, or false with
      nothing added, and then its queue had no room at the call's last step. */
  lemma PutCall(c: Config, run: seq<State>, i: nat, j: nat, p: nat)
    requires Config?(c) && IsRun(c, run) && i < j < |run| && p < Cores(c)
    requires Sized(c, run[i]) && run[i].producers[p].Put?
    requires forall k :: i <= k < j ==> p < |run[k].producers| && Putting(run[k].producers[p])
    requires p < |run[j].producers| && !Putting(run[j].producers[p])
    ensures Sized(c, run[j - 1]) && Sized(c, run[j])
    ensures var q, v := Target(c, p), run[i].producers[p].v;
            match run[j].producers[p]
            case PutDone => run[j].produced[q] == run[i].produced[q] + [v]
            case Refused => run[j].produced[q] == run[i].produced[q] && |run[j - 1].queues[q]| >= c.capacity - 1
            case _ => false
  {
    hide Moves, Inv;
    PutRuns(c, run, i, j, p);
    PutRuns(c, run, i, j - 1, p);
    RunInv(c, run, j - 1);
    var q, w := MoveOf(c, run, j - 1);
    PutMoves(c, run[j - 1], q, w, run[j], p, run[i].producers[p].v, run[i].produced[Target(c, p)]);
  }

  /** A call that finds room succeeds, in at most two steps. */
  lemma PutAlone(c: Config, s: State, p: nat)
    requires Inv(c, s) && p < Cores(c) && s.producers[p].Put?
    ensures var s1 := StepProducer(c, s, p);
            && Sized(c, s1)
            && if |s.queues[Target(c, p)]| >= c.capacity - 1 then s1.producers[p] == Refused && s1.queues == s.queues
               else
                 && s1.queues[Target(c, p)] == s.queues[Target(c, p)] + [s.producers[p].v]
                 && if p == c.owner then s1.producers[p] == PutDone
                    else StepProducer(c, s1, p).producers[p] == PutDone && Marked(StepProducer(c, s1, p), p)
  {
    hide Bit, And, Or, Pow2, Ctz, QueueOk;
    Sets(s.active[p / 64], p % 64);
  }

  // ---------------------------------------------------------------- the drainer's calls end

  function Items(queues: seq<seq<int>>): nat {
    if queues == [] then 0 else Items(queues[..|queues| - 1]) + |queues[|queues| - 1]|
  }

  lemma {:induction false} ItemsTake(queues: seq<seq<int>>, q: nat)
    requires q < |queues| && queues[q] != []
    ensures Items(queues[q := queues[q][1..]]) < Items(queues)
  {
    var n := |queues| - 1;
    var after := queues[q := queues[q][1..]];
    if q == n {
      assert after[..n] == queues[..n];
    } else {
      assert after[..n] == queues[..n][q := queues[..n][q][1..]];
      ItemsTake(queues[..n], q);
    }
  }

  function Words(c: Config, d: Drainer): int {
    match d
    case TakeLocal => 2 * c.words + 2
    case TryLocal => 2 * c.words + 2
    case Exchange(w) => if w < c.words then 2 * (c.words - w) + 1 else 1
    case TryLoad(w) => if w < c.words then 2 * (c.words - w) + 1 else 1
    case Walk(w, _) => 2 * (c.words - w)
    case Drain(w, _, _) => 2 * (c.words - w)
    case TryWalk(w, _) => 2 * (c.words - w)
    case _ => 0
  }

  function Mask(d: Drainer): nat { if d.Walk? || d.Drain? || d.TryWalk? then d.mask else 0 }

  /** Left to do: items, words, bits, and whether it is at a queue. */
  predicate Closer(c: Config, s': State, s: State) {
    || Items(s'.queues) < Items(s.queues)
    || (s'.queues == s.queues
        && (|| Words(c, s'.drainer) < Words(c, s.drainer)
            || (Words(c, s'.drainer) == Words(c, s.drainer)
                && (|| Mask(s'.drainer) < Mask(s.drainer)
                    || (Mask(s'.drainer) == Mask(s.drainer) && s.drainer.Drain? && !s'.drainer.Drain?)))))
  }

  /** Every step of the drainer brings it closer to the end of its call. */
  lemma DrainerDescends(c: Config, s: State)
    requires Inv(c, s) && !AtRest(s.drainer)
    ensures DrainerOk(c, s) && Words(c, s.drainer) >= 0
    ensures Closer(c, StepDrainer(c, s), s)
  {
    hide Bit, And, Or, Pow2, Ctz, QueueOk, Items;
    DrainerStep(c, s);
    var d := s.drainer;
    if (d.TakeLocal? || d.TryLocal?) && s.queues[Cores(c)] != [] { ItemsTake(s.queues, Cores(c)); }
    if d.Drain? && s.queues[d.core] != [] { ItemsTake(s.queues, d.core); }
    if (d.Walk? || d.TryWalk?) && d.mask > 0 { ClearLowest(d.mask, 0); }
    if d.TryWalk? && d.mask > 0 && s.queues[d.w * 64 + Ctz(d.mask)] != [] { ItemsTake(s.queues, d.w * 64 + Ctz(d.mask)); }
  }

  /** n steps of the drainer, as long as its call lasts. */
  ghost function DrainerAlone(c: Config, s: State, n: nat): State
    requires Inv(c, s)
    decreases n
  {
    if n == 0 || AtRest(s.drainer) then s
    else
      DrainerStep(c, s);
      DrainerAlone(c, StepDrainer(c, s), n - 1)
  }

  /** The words behind a drain are clear: it has taken the marks it found. */
  predicate Cleared(c: Config, s: State) {
    forall w :: 0 <= w < |s.active| ==>
      match s.drainer
      case Exchange(x) => w < x ==> s.active[w] == 0
      case Walk(x, _) => w <= x ==> s.active[w] == 0
      case Drain(x, _, _) => w <= x ==> s.active[w] == 0
      case DrainDone => s.active[w] == 0
      case TakeLocal => true
      case _ => false
  }

  lemma ClearedStep(c: Config, s: State)
    requires Inv(c, s) && Draining(s.drainer) && !s.drainer.DrainDone? && Cleared(c, s)
    ensures DrainerOk(c, s) && Draining(StepDrainer(c, s).drainer) && Cleared(c, StepDrainer(c, s))
  {
    hide Bit, And, Or, Pow2, Ctz, QueueOk;
    DrainerStep(c, s);
  }

  /** Undisturbed, a drain comes to its end, with every mark taken. */
  lemma {:induction false} DrainEnds(c: Config, s: State) returns (n: nat)
    requires Inv(c, s) && Draining(s.drainer) && Cleared(c, s)
    ensures Inv(c, DrainerAlone(c, s, n)) && DrainerAlone(c, s, n).drainer.DrainDone?
    ensures forall w :: 0 <= w < c.words ==> DrainerAlone(c, s, n).active[w] == 0
    decreases Items(s.queues), Words(c, s.drainer), Mask(s.drainer), s.drainer.Drain?
  {
    if s.drainer.DrainDone? {
      n := 0;
    } else {
      hide Cleared, StepDrainer, QueueOk, Masks, Bit;
      DrainerDescends(c, s);
      DrainerStep(c, s);
      ClearedStep(c, s);
      var k := DrainEnds(c, StepDrainer(c, s));
      n := k + 1;
    }
  }

  /** Undisturbed, try_dequeue comes to its end. */
  lemma {:induction false} TryEnds(c: Config, s: State) returns (n: nat)
    requires Inv(c, s) && (Trying(s.drainer) || s.drainer.Got? || s.drainer.GotNothing?)
    ensures DrainerAlone(c, s, n).drainer.Got? || DrainerAlone(c, s, n).drainer.GotNothing?
    decreases Items(s.queues), Words(c, s.drainer), Mask(s.drainer), s.drainer.Drain?
  {
    if !Trying(s.drainer) {
      n := 0;
    } else {
      DrainerDescends(c, s);
      DrainerStep(c, s);
      TryStays(c, s);
      hide StepDrainer, QueueOk, Masks, Bit;
      var k := TryEnds(c, StepDrainer(c, s));
      n := k + 1;
    }
  }

  lemma TryStays(c: Config, s: State)
    requires DrainerOk(c, s) && Trying(s.drainer)
    ensures var d := StepDrainer(c, s).drainer; Trying(d) || d.Got? || d.GotNothing?
  {
  }
}
