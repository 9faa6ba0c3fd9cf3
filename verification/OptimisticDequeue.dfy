/** moodycamel's optimistic dequeue on one producer's sub-queue: consumers reserve an
    opportunity in `dequeueOptimisticCount`, look at `tailIndex` again, give back what was too
    much in `dequeueOvercommit`, and only then claim indices in `headIndex`.

    One producer and any number of consumers; one atomic access per step. Indices are unbounded
    here; CircularCompare says when the code's wrapped comparison agrees. */
module OptimisticDequeue {
  import opened PackedWords
  import opened Sums

  const W63: int := 0x8000_0000_0000_0000

  /** circular_less_than on 64-bit indices. */
  predicate CircularLessThan(a: uint64, b: uint64) { (a - b) % W64 > W63 }

  /** The wrapped comparison is the true one exactly as long as the indices are less than 2^63
      apart on the low side and at most 2^63 on the high side. */
  lemma CircularCompare(a: nat, b: nat)
    requires -W63 <= a - b <= W63
    ensures (CircularLessThan(a % W64, b % W64) <==> a < b) <==> a - b != -W63
  {
    assert (a % W64 - b % W64) % W64 == (a - b) % W64;
  }

  /** One reservation: `size` opportunities, the overcommit its consumer had read before, and
      what became of it: indices granted, opportunities given back. */
  datatype Claim = Claim(owner: nat, size: nat, seen: nat, got: nat, lost: nat, open: bool)

  datatype Pc =
    | Idle
    | LoadTail(max: nat)
    | LoadOver(tail: nat, max: nat)
    | LoadOptimistic(tail: nat, over: nat, max: nat)
    | Reserve(size: nat, over: nat)
    | Recheck(claim: nat, mine: nat, size: nat, over: nat)
    | GiveBack(claim: nat, lose: nat, take: nat)
    | Take(claim: nat, take: nat)
    | Read(first: nat, take: nat)

  /** `built` counts constructed elements; `claims` and `claimed` (who got index i) are history. A
      consumer keeps the number of its claim only to write that history, and what its fetch_add
      returned in `mine`. */
  datatype State = State(
    tail: nat, built: nat, optimistic: nat, over: nat, head: nat,
    procs: seq<Pc>, claims: seq<Claim>, claimed: seq<nat>)

  function Init(consumers: nat): State {
    State(0, 0, 0, 0, 0, seq(consumers, _ => Idle), [], [])
  }

  function Min(a: nat, b: nat): nat { if a < b then a else b }

  predicate Enabled(s: State, p: nat) {
    p < |s.procs| && !s.procs[p].Idle?
  }

  /** What becomes of claim i, for the record. */
  function Record(claims: seq<Claim>, i: nat, got: nat, lost: nat, open: bool): seq<Claim> {
    if i < |claims| then claims[i := claims[i].(got := got, lost := lost, open := open)] else claims
  }

  function Goto(s: State, p: nat, pc: Pc): State
    requires p < |s.procs|
  {
    s.(procs := s.procs[p := pc])
  }

  /** A consumer's next step. `dequeue` is the case max == 1 of `dequeue_bulk`. */
  function Step(s: State, p: nat): State
    requires Enabled(s, p)
  {
    match s.procs[p]
    case LoadTail(m) => Goto(s, p, LoadOver(s.tail, m))
    case LoadOver(t, m) => Goto(s, p, LoadOptimistic(t, s.over, m))
    case LoadOptimistic(t, v, m) =>
      var desired := t - (s.optimistic - v);
      Goto(s, p, if desired > 0 then Reserve(Min(desired, m), v) else Idle)
    case Reserve(k, v) =>
      Goto(s, p, Recheck(|s.claims|, s.optimistic, k, v))
        .(optimistic := s.optimistic + k, claims := s.claims + [Claim(p, k, v, 0, 0, true)])
    case Recheck(i, mine, k, v) =>
      var actual := s.tail - (mine - v);
      if actual <= 0 then Goto(s, p, GiveBack(i, k, 0))
      else
        var a := Min(k, actual);
        Goto(s, p, if a < k then GiveBack(i, k - a, a) else Take(i, a))
          .(claims := Record(s.claims, i, a, 0, a < k))
    case GiveBack(i, lose, take) =>
      Goto(s, p, if take > 0 then Take(i, take) else Idle)
        .(over := s.over + lose, claims := Record(s.claims, i, take, lose, false))
    case Take(i, a) =>
      Goto(s, p, Read(s.head, a)).(head := s.head + a, claimed := s.claimed + seq(a, _ => p))
    case Read(_, _) => Goto(s, p, Idle)
    case Idle => s
  }

  /** Consumers move, start to dequeue, or the producer constructs an element or publishes. */
  predicate Moves(s: State, p: nat, m: nat, s': State) {
    || (Enabled(s, p) && s' == Step(s, p))
    || (p < |s.procs| && s.procs[p].Idle? && s' == Goto(s, p, LoadTail(m)))
    || s' == s.(built := s.built + 1)
    || s' == s.(tail := s.built)
  }

  ghost predicate Next(s: State, s': State) {
    exists p: nat, m: nat :: Moves(s, p, m, s')
  }

  ghost predicate IsRun(consumers: nat, run: seq<State>) {
    && |run| > 0
    && run[0] == Init(consumers)
    && forall i :: 0 < i < |run| ==> Next(run[i - 1], run[i])
  }

  // ---------------------------------------------------------------- counting

  function Size(c: Claim): int { c.size }
  function Got(c: Claim): int { c.got }
  function Lost(c: Claim): int { c.lost }
  /** Granted but not yet claimed in headIndex. */
  function Due(pc: Pc): int { if pc.GiveBack? || pc.Take? then pc.take else 0 }

  // ---------------------------------------------------------------- the invariant

  /** The number of opportunities handed out before claim i: the value its fetch_add returned. */
  function Mine(claims: seq<Claim>, i: nat): int
    requires i <= |claims|
  {
    Sum(claims[..i], Size)
  }

  /** A claim never uses more than its size; the overcommit its consumer had read was given
      back by earlier claims; what it was granted lies below the tail. */
  predicate ClaimOk(claims: seq<Claim>, i: nat, tail: nat)
    requires i < |claims|
  {
    var c := claims[i];
    && c.got + c.lost <= c.size
    && (!c.open ==> c.got + c.lost == c.size)
    && c.seen <= Sum(claims[..i], Lost)
    && (c.got > 0 ==> Mine(claims, i) - c.seen + c.got <= tail)
  }

  predicate Fact(s: State, p: nat, pc: Pc) {
    match pc
    case LoadOver(t, _) => t <= s.tail
    case LoadOptimistic(t, v, _) => t <= s.tail && v <= s.over
    case Reserve(_, v) => v <= s.over
    case Recheck(i, mine, k, v) => i < |s.claims| && s.claims[i] == Claim(p, k, v, 0, 0, true)
                                   && mine == Mine(s.claims, i)
    case GiveBack(i, lose, take) => i < |s.claims| && s.claims[i].owner == p && s.claims[i].open
                       && s.claims[i].got == take && s.claims[i].lost == 0 && lose + take == s.claims[i].size
    case Take(i, a) => i < |s.claims|
    case Read(f, a) => f + a <= |s.claimed| && forall j :: f <= j < f + a ==> s.claimed[j] == p
    case _ => true
  }

  predicate OpenHeld(s: State, i: nat)
    requires i < |s.claims|
  {
    s.claims[i].open ==>
      && s.claims[i].owner < |s.procs|
      && (var pc := s.procs[s.claims[i].owner]; (pc.Recheck? || pc.GiveBack?) && pc.claim == i)
  }

  ghost predicate Inv(s: State) {
    && s.tail <= s.built
    && s.optimistic == Sum(s.claims, Size)
    && s.over == Sum(s.claims, Lost)
    && s.head + Sum(s.procs, Due) == Sum(s.claims, Got)
    && |s.claimed| == s.head
    && (forall i :: 0 <= i < |s.claims| ==> ClaimOk(s.claims, i, s.tail))
    && (forall p :: 0 <= p < |s.procs| ==> Fact(s, p, s.procs[p]))
    && (forall i :: 0 <= i < |s.claims| ==> OpenHeld(s, i))
  }

  // ---------------------------------------------------------------- every step keeps it

  lemma SumOfUpdatedPrefix(claims: seq<Claim>, i: nat, c: Claim, j: nat, w: Claim -> int)
    requires i < |claims| && j <= |claims|
    ensures Sum(claims[i := c][..j], w) == Sum(claims[..j], w) + (if i < j then w(c) - w(claims[i]) else 0)
  {
    hide Sum;
    if i < j {
      assert claims[i := c][..j] == claims[..j][i := c];
      SumUpdate(claims[..j], i, c, w);
    } else {
      assert claims[i := c][..j] == claims[..j];
    }
  }

  /** Replacing a claim by one of the same size that lost no less keeps the others in order. */
  lemma OtherClaims(claims: seq<Claim>, i: nat, c: Claim, after: seq<Claim>, tail: nat)
    requires i < |claims| && c.size == claims[i].size && c.lost >= claims[i].lost && after == claims[i := c]
    requires forall j :: 0 <= j < |claims| ==> ClaimOk(claims, j, tail)
    ensures forall j :: 0 <= j < |after| && j != i ==> ClaimOk(after, j, tail)
    ensures forall j :: 0 <= j <= |after| ==> Mine(after, j) == Mine(claims, j)
    ensures Sum(after[..i], Lost) == Sum(claims[..i], Lost)
  {
    hide Sum;
    forall j | 0 <= j < |after| && j != i ensures ClaimOk(after, j, tail) {
      assert ClaimOk(claims, j, tail);
      SumOfUpdatedPrefix(claims, i, c, j, Size);
      SumOfUpdatedPrefix(claims, i, c, j, Lost);
    }
    forall j | 0 <= j <= |after| ensures Mine(after, j) == Mine(claims, j) {
      SumOfUpdatedPrefix(claims, i, c, j, Size);
    }
    SumOfUpdatedPrefix(claims, i, c, i, Lost);
  }

  lemma ReserveStep(s: State, p: nat)
    requires Inv(s) && Enabled(s, p) && s.procs[p].Reserve?
    ensures Inv(Step(s, p))
  {
    hide Sum;
    var c := Claim(p, s.procs[p].size, s.procs[p].over, 0, 0, true);
    var s' := Step(s, p);
    SumAppend(s.claims, c, Size); SumAppend(s.claims, c, Got); SumAppend(s.claims, c, Lost);
    SumUpdate(s.procs, p, s'.procs[p], Due);
    assert s'.claims[..|s.claims|] == s.claims;
    forall i | 0 <= i <= |s.claims| ensures Mine(s'.claims, i) == Mine(s.claims, i) {
      assert s'.claims[..i] == s.claims[..i];
    }
    assert s.claims[..|s.claims|] == s.claims;
    forall i | 0 <= i < |s'.claims| ensures ClaimOk(s'.claims, i, s'.tail) {
      assert s'.claims[..i] == s.claims[..i];
      if i == |s.claims| {
        assert s.claims[..i] == s.claims;
      } else {
        assert ClaimOk(s.claims, i, s.tail);
      }
    }
    forall i | 0 <= i < |s'.claims| ensures OpenHeld(s', i) {
      if i < |s.claims| {
        assert OpenHeld(s, i);
      }
    }
  }

  lemma RecheckStep(s: State, p: nat)
    requires Inv(s) && Enabled(s, p) && s.procs[p].Recheck?
    ensures Inv(Step(s, p))
  {
    hide Sum;
    var i := s.procs[p].claim;
    var s' := Step(s, p);
    var c := s'.claims[i];
    assert ClaimOk(s.claims, i, s.tail);
    assert s'.claims == s.claims[i := c];
    SumUpdate(s.claims, i, c, Size); SumUpdate(s.claims, i, c, Got); SumUpdate(s.claims, i, c, Lost);
    SumUpdate(s.procs, p, s'.procs[p], Due);
    OtherClaims(s.claims, i, c, s'.claims, s.tail);
    forall j | 0 <= j < |s'.claims| ensures OpenHeld(s', j) {
      assert OpenHeld(s, j);
    }
  }

  lemma GiveBackStep(s: State, p: nat)
    requires Inv(s) && Enabled(s, p) && s.procs[p].GiveBack?
    ensures Inv(Step(s, p))
  {
    hide Sum;
    var i := s.procs[p].claim;
    var s' := Step(s, p);
    var c := s'.claims[i];
    assert ClaimOk(s.claims, i, s.tail);
    SumUpdate(s.claims, i, c, Size); SumUpdate(s.claims, i, c, Got); SumUpdate(s.claims, i, c, Lost);
    SumUpdate(s.procs, p, s'.procs[p], Due);
    OtherClaims(s.claims, i, c, s'.claims, s.tail);
    forall j | 0 <= j < |s'.claims| ensures OpenHeld(s', j) {
      assert OpenHeld(s, j);
    }
  }

  /** Steps that leave all claims alone. */
  lemma PlainStep(s: State, p: nat, pc: Pc)
    requires Inv(s) && p < |s.procs| && !s.procs[p].Recheck? && !s.procs[p].GiveBack? && !s.procs[p].Take?
    requires Due(pc) == 0 && Fact(s, p, pc)
    ensures Inv(Goto(s, p, pc))
  {
    hide Sum, Mine;
    SumUpdate(s.procs, p, pc, Due);
    forall j | 0 <= j < |s.claims| ensures OpenHeld(Goto(s, p, pc), j) {
      assert OpenHeld(s, j);
    }
  }

  lemma TakeStep(s: State, p: nat)
    requires Inv(s) && Enabled(s, p) && s.procs[p].Take?
    ensures Inv(Step(s, p))
  {
    hide Sum, Mine;
    SumUpdate(s.procs, p, Step(s, p).procs[p], Due);
    forall j | 0 <= j < |s.claims| ensures OpenHeld(Step(s, p), j) {
      assert OpenHeld(s, j);
    }
  }

  lemma MovesKeepsInv(s: State, p: nat, m: nat, s': State)
    requires Inv(s) && Moves(s, p, m, s')
    ensures Inv(s')
  {
    hide Sum;
    if s' == s.(built := s.built + 1) {
      forall j | 0 <= j < |s.claims| ensures OpenHeld(s', j) { assert OpenHeld(s, j); }
    } else if s' == s.(tail := s.built) {
      forall j | 0 <= j < |s.claims| ensures OpenHeld(s', j) && ClaimOk(s'.claims, j, s'.tail) {
        assert OpenHeld(s, j) && ClaimOk(s.claims, j, s.tail);
      }
    } else {
      match s.procs[p]
      case Reserve(_, _) => ReserveStep(s, p);
      case Recheck(_, _, _, _) => RecheckStep(s, p);
      case GiveBack(_, _, _) => GiveBackStep(s, p);
      case Take(_, _) => TakeStep(s, p);
      case _ => PlainStep(s, p, s'.procs[p]);
    }
  }

  lemma InitInv(consumers: nat)
    ensures Inv(Init(consumers))
  {
    SumConstant(Init(consumers).procs, Due, 0);
  }

  lemma {:induction false} RunInv(consumers: nat, run: seq<State>, k: nat)
    requires IsRun(consumers, run) && k < |run|
    ensures Inv(run[k])
  {
    hide Inv;
    if k == 0 {
      InitInv(consumers);
    } else {
      RunInv(consumers, run, k - 1);
      var p: nat, m: nat :| Moves(run[k - 1], p, m, run[k]);
      MovesKeepsInv(run[k - 1], p, m, run[k]);
    }
  }

  // ---------------------------------------------------------------- what every run guarantees

  /** The heart of the protocol: the claims together are never granted more than the tail. The
      last claim that was granted anything bounds all the earlier ones, because the overcommit
      it subtracted had really been given back by them. */
  lemma {:induction false} GrantsBelowTail(claims: seq<Claim>, tail: nat)
    requires forall i :: 0 <= i < |claims| ==> ClaimOk(claims, i, tail)
    ensures Sum(claims, Got) <= tail
  {
    if |claims| > 0 {
      var n := |claims| - 1;
      var rest := claims[..n];
      forall i | 0 <= i < n ensures ClaimOk(rest, i, tail) {
        assert ClaimOk(claims, i, tail);
        assert rest[..i] == claims[..i];
      }
      GrantsBelowTail(rest, tail);
      assert ClaimOk(claims, n, tail);
      GotLeaves(rest, tail);
    }
  }

  lemma {:induction false} GotLeaves(claims: seq<Claim>, tail: nat)
    requires forall i :: 0 <= i < |claims| ==> ClaimOk(claims, i, tail)
    ensures Sum(claims, Got) + Sum(claims, Lost) <= Sum(claims, Size)
  {
    hide Sum;
    SumPlus(claims, Used, Got, Lost);
    forall i | 0 <= i < |claims| ensures Used(claims[i]) <= Size(claims[i]) {
      assert ClaimOk(claims, i, tail);
    }
    SumMonotone(claims, Used, Size);
  }

  function Used(c: Claim): int { c.got + c.lost }

  /** In every run headIndex stays at or below tailIndex, so every claimed index holds a
      constructed element; each index below headIndex was claimed by exactly one consumer, and
      a consumer reads only indices that are its own. */
  lemma NeverOvertakes(consumers: nat, run: seq<State>, k: nat)
    requires IsRun(consumers, run) && k < |run|
    ensures var s := run[k];
            && s.head <= s.tail <= s.built
            && |s.claimed| == s.head
            && (forall p :: 0 <= p < |s.procs| && s.procs[p].Read? ==>
                  s.procs[p].first + s.procs[p].take <= s.head
                  && forall j :: s.procs[p].first <= j < s.procs[p].first + s.procs[p].take ==> s.claimed[j] == p)
  {
    hide Sum, ClaimOk;
    var s := run[k];
    RunInv(consumers, run, k);
    GrantsBelowTail(s.claims, s.tail);
    SumNonNegative(s.procs, Due);
  }

  /** Between its reservation and its claim in headIndex. */
  predicate Reserving(pc: Pc) { pc.Recheck? || pc.GiveBack? || pc.Take? }

  /** No element is stranded by overcommits: with no consumer between reserving and claiming the
      effective count equals headIndex. */
  lemma SettledCountsAgree(consumers: nat, run: seq<State>, k: nat)
    requires IsRun(consumers, run) && k < |run|
    requires forall p :: 0 <= p < |run[k].procs| ==> !Reserving(run[k].procs[p])
    ensures run[k].optimistic - run[k].over == run[k].head
  {
    hide Sum;
    var s := run[k];
    RunInv(consumers, run, k);
    SumConstant(s.procs, Due, 0);
    forall i | 0 <= i < |s.claims| ensures Used(s.claims[i]) == Size(s.claims[i]) {
      assert ClaimOk(s.claims, i, s.tail) && OpenHeld(s, i);
    }
    SumPlus(s.claims, Used, Got, Lost);
    SumMonotone(s.claims, Used, Size);
    SumMonotone(s.claims, Size, Used);
  }
}
