/** What the calls on the free list return, and that they end when nobody interferes. */
module FreeListCalls {
  import opened FreeList
  import opened Options
  import opened PackedWords
  import opened Sequences
  import opened Sums

  // ---------------------------------------------------------------- try_get fails only on an empty list

  /** The head some thread read and goes on with, where it is already known to be none. */
  predicate SawNone(pc: Pc) {
    match pc
    case DropOne(_, h) => h.None?
    case LoadHead(_, k) => k.FromGet? && k.head.None?
    case StoreNext(_, _, k) => k.FromGet? && k.head.None?
    case StoreRefs(_, _, k) => k.FromGet? && k.head.None?
    case CasAdd(_, _, k) => k.FromGet? && k.head.None?
    case BackOff(_, _, k) => k.FromGet? && k.head.None?
    case _ => false
  }

  /** In a call of try_get: on its own, or putting a node back on the way. */
  predicate Getting(pc: Pc) {
    match pc
    case AddFlag(_) => false
    case LoadHead(_, k) => k.FromGet?
    case StoreNext(_, _, k) => k.FromGet?
    case StoreRefs(_, _, k) => k.FromGet?
    case CasAdd(_, _, k) => k.FromGet?
    case BackOff(_, _, k) => k.FromGet?
    case Idle => false
    case _ => true
  }

  lemma OthersStay(s: State, q: nat, n: nat, s': State, p: nat)
    requires Moves(s, q, n, s') && p < |s.procs| && p != q
    ensures p < |s'.procs| && s'.procs[p] == s.procs[p]
  {
  }

  lemma GettingOwn(c: Config, s: State, n: nat, s': State, p: nat)
    requires Inv(c, s) && Moves(s, p, n, s') && p < |s.procs| && Getting(s.procs[p])
    ensures GettingAfter(s, s', p)
  {
    hide Sum, Count, Linked, Alternates, NodeOk, Fact;
    if s.procs[p].DropTwo? { MarkClearHere(c, s, p); }
    hide Inv;
  }

  /** It stays in try_get, or returns a node just unlinked, or returns nothing having seen no head. */
  predicate GettingAfter(s: State, s': State, p: nat)
    requires p < |s.procs|
  {
    && p < |s'.procs| && (Getting(s'.procs[p]) || s'.procs[p].Idle?)
    && (SawNone(s'.procs[p]) ==> SawNone(s.procs[p]) || s.head.None?)
    && (s'.procs[p].Idle? ==>
          || SawNone(s.procs[p]) || s.head.None?
          || (s.procs[p].DropTwo? && s'.log == s.log + [Got(s.procs[p].node)]
              && s'.owned == s.owned + {s.procs[p].node} && s.procs[p].node !in s.owned))
  }

  lemma GettingMove(c: Config, s: State, q: nat, n: nat, s': State, p: nat)
    requires Inv(c, s) && Moves(s, q, n, s') && p < |s.procs| && Getting(s.procs[p])
    ensures GettingAfter(s, s', p)
  {
    hide Inv, Moves;
    if q == p { GettingOwn(c, s, n, s', p); } else { OthersStay(s, q, n, s', p); }
  }

  lemma MarkClearHere(c: Config, s: State, p: nat)
    requires Inv(c, s) && p < |s.procs| && s.procs[p].DropTwo?
    ensures s.procs[p].node !in s.owned
  {
    hide Sum, Count, Linked, Alternates;
    Here(c, s, p);
  }

  lemma MoveOf(c: Config, run: seq<State>, k: nat) returns (p: nat, n: nat)
    requires IsRun(c, run) && k + 1 < |run|
    ensures Moves(run[k], p, n, run[k + 1])
  {
    hide Moves;
    assert Next(run[k], run[k + 1]);
    p, n :| Moves(run[k], p, n, run[k + 1]);
  }

  lemma {:induction false} GettingRun(c: Config, run: seq<State>, i: nat, j: nat, p: nat)
    requires Config?(c) && IsRun(c, run) && i <= j < |run| && p < |run[i].procs| && run[i].procs[p].GetHead?
    requires forall k :: i <= k < j ==> p < |run[k].procs| && !run[k].procs[p].Idle?
    ensures p < |run[j].procs| && (Getting(run[j].procs[p]) || run[j].procs[p].Idle?)
    ensures SawNone(run[j].procs[p]) ==> exists k :: i <= k < j && run[k].head.None?
    decreases j
  {
    hide Inv, Moves, IsRun, SawNone;
    if i == j {
      NothingSeen(run[i].procs[p]);
    } else {
      GettingRun(c, run, i, j - 1, p);
      RunInv(c, run, j - 1);
      var q, n := MoveOf(c, run, j - 1);
      GettingMove(c, run[j - 1], q, n, run[j], p);
    }
  }

  lemma NothingSeen(pc: Pc)
    requires pc.GetHead?
    ensures !SawNone(pc)
  {
  }

  /** try_get returns a node it has just taken over from the list, or nothing, and then the list was
      empty at some point of the call. */
  lemma GetCall(c: Config, run: seq<State>, i: nat, j: nat, p: nat)
    requires Config?(c) && IsRun(c, run) && i < j < |run| && p < |run[i].procs| && run[i].procs[p].GetHead?
    requires forall k :: i <= k < j ==> p < |run[k].procs| && !run[k].procs[p].Idle?
    requires p < |run[j].procs| && run[j].procs[p].Idle?
    ensures || (exists k :: i <= k < j && run[k].head.None?)
            || (exists n: nat :: run[j].log == run[j - 1].log + [Got(n)]
                                 && n !in run[j - 1].owned && run[j].owned == run[j - 1].owned + {n})
  {
    hide Inv, Moves, IsRun, SawNone;
    GettingRun(c, run, i, j - 1, p);
    RunInv(c, run, j - 1);
    var q, n := MoveOf(c, run, j - 1);
    GettingMove(c, run[j - 1], q, n, run[j], p);
  }

  // ---------------------------------------------------------------- calls end

  /** How far a call is from its end while head and words stay what they are: a head it has read
      may be stale, and so may a count. */
  function Rank(s: State, pc: Pc): nat {
    match pc
    case Idle => 0
    case DropTwo(_) => 1
    case GetHead => 6
    case LoadRefs(n) => if s.head == Some(n) then 5 else 35
    case CasRefs(n, r) => if n >= |s.refs| || s.refs[n] != r then 7 else if s.head == Some(n) then 4 else 34
    case LoadNext(n) => if s.head == Some(n) then 3 else 33
    case CasHead(n, _) => if s.head == Some(n) then 2 else 32
    case DropOne(_, h) => if s.head == h then 31 else 36
    case AddFlag(_) => 30
    case LoadHead(_, _) => 29
    case StoreNext(_, h, _) => if s.head == h then 24 else 58
    case StoreRefs(_, h, _) => if s.head == h then 23 else 57
    case CasAdd(_, h, _) => if s.head == h then 22 else 56
    case BackOff(_, h, _) => if s.head == h then 55 else 59
  }

  predicate Ending(pc: Pc) { pc.DropTwo? || pc.Idle? }

  /** The call has unlinked its node, or the list has grown, or it is closer to its end. */
  predicate Closer(s: State, s': State, p: nat)
    requires p < |s.procs| && p < |s'.procs|
  {
    || (Ending(s'.procs[p]) && !Ending(s.procs[p]))
    || (Ending(s'.procs[p]) == Ending(s.procs[p])
        && (|s'.chain| > |s.chain| || (s'.chain == s.chain && Rank(s', s'.procs[p]) < Rank(s, s.procs[p]))))
  }

  /** A node on the list has a count. */
  lemma ListedCounts(c: Config, s: State, n: nat)
    requires Inv(c, s) && n in s.chain
    ensures n < c.nodes && s.refs[n] % SHOULD != 0
  {
    hide Sum, Alternates;
    assert NodeOk(s.refs[n], n in s.owned, n in s.chain, Count(s.procs, n), c.threads);
    ListedWord(s.refs[n], n in s.owned, Count(s.procs, n), c.threads);
  }

  lemma ListedWord(refs: nat, owned: bool, t: Tally, threads: nat)
    requires NodeOk(refs, owned, true, t, threads) && threads + 2 < SHOULD
    ensures refs % SHOULD != 0
  {
  }

  lemma AddCloser(c: Config, s: State, p: nat)
    requires Inv(c, s) && Enabled(s, p) && AddStep?(s.procs[p])
    ensures p < |StepAdd(s, p).procs| && Closer(s, StepAdd(s, p), p)
  {
    hide Sum, Count, Alternates, NodeOk, Linked, Fact;
  }

  /** A word read of the head: a node on the list has a count, and the count is fresh. */
  lemma ReadCloser(c: Config, s: State, p: nat)
    requires Inv(c, s) && Enabled(s, p) && (s.procs[p].GetHead? || s.procs[p].LoadRefs? || s.procs[p].CasRefs?)
    ensures p < |StepGet(s, p).procs| && Closer(s, StepGet(s, p), p)
  {
    hide Sum, Count, Alternates, NodeOk, Fact;
    if s.procs[p].LoadRefs? && s.head == Some(s.procs[p].node) { ListedCounts(c, s, s.procs[p].node); }
    hide Linked, Inv;
  }

  lemma TakeCloser(s: State, p: nat)
    requires Enabled(s, p) && !AddStep?(s.procs[p])
    requires !s.procs[p].GetHead? && !s.procs[p].LoadRefs? && !s.procs[p].CasRefs?
    ensures p < |StepGet(s, p).procs| && Closer(s, StepGet(s, p), p)
  {
  }

  lemma StepCloser(c: Config, s: State, p: nat)
    requires Inv(c, s) && Enabled(s, p)
    ensures p < |Step(s, p).procs| && Closer(s, Step(s, p), p)
  {
    hide Inv, StepAdd, StepGet, Closer;
    if AddStep?(s.procs[p]) {
      AddCloser(c, s, p);
    } else if s.procs[p].GetHead? || s.procs[p].LoadRefs? || s.procs[p].CasRefs? {
      ReadCloser(c, s, p);
    } else {
      TakeCloser(s, p);
    }
  }

  lemma {:induction false} ChainFits(chain: seq<nat>, nodes: nat)
    requires Distinct(chain) && forall i :: 0 <= i < |chain| ==> chain[i] < nodes
    ensures |chain| <= nodes
    decreases nodes
  {
    if chain != [] {
      assert chain[0] < nodes;
      if i: nat :| i < |chain| && chain[i] == nodes - 1 {
        ChainFits(chain[..i] + chain[i + 1..], nodes - 1);
      } else {
        ChainFits(chain, nodes - 1);
      }
    }
  }

  /** n steps of p, as long as its call lasts. */
  function Alone(s: State, p: nat, n: nat): State
    decreases n
  {
    if n == 0 || !Enabled(s, p) then s else Alone(Step(s, p), p, n - 1)
  }

  lemma AloneNext(s: State, p: nat, n: nat)
    requires Enabled(s, p)
    ensures Alone(s, p, n + 1) == Alone(Step(s, p), p, n)
  {
  }

  /** Undisturbed, any call ends, wherever it had been interrupted. */
  lemma {:induction false} CallEnds(c: Config, s: State, p: nat) returns (n: nat)
    requires Inv(c, s) && p < |s.procs|
    ensures p < |Alone(s, p, n).procs| && Alone(s, p, n).procs[p].Idle? && Inv(c, Alone(s, p, n))
    decreases if Ending(s.procs[p]) then 0 else 1, c.nodes - |s.chain|, Rank(s, s.procs[p])
  {
    hide Inv, Step, Rank, Enabled, Moves, Alone;
    if s.procs[p].Idle? {
      n := 0;
      AloneNone(s, p);
    } else {
      NowEnabled(c, s, p);
      StepCloser(c, s, p);
      MovesKeepsInv(c, s, p, 0, Step(s, p));
      ChainWithin(c, s);
      var k := CallEnds(c, Step(s, p), p);
      AloneNext(s, p, k);
      n := k + 1;
    }
  }

  lemma AloneNone(s: State, p: nat)
    ensures Alone(s, p, 0) == s
  {
  }

  lemma NowEnabled(c: Config, s: State, p: nat)
    requires Inv(c, s) && p < |s.procs| && !s.procs[p].Idle?
    ensures Enabled(s, p) && Moves(s, p, 0, Step(s, p))
  {
    hide Sum, Count, Alternates, NodeOk, Linked;
    assert Fact(s.next, c.nodes, s.procs[p]);
  }

  lemma ChainWithin(c: Config, s: State)
    requires Inv(c, s)
    ensures |s.chain| <= c.nodes
  {
    hide Sum, Count, Alternates, NodeOk, Fact;
    ChainFits(s.chain, c.nodes);
  }

  lemma TakesAlone(c: Config, s: State, p: nat)
    requires Inv(c, s) && p < |s.procs| && s.chain != [] && s.procs[p] == LoadNext(s.chain[0])
    ensures var s' := Alone(s, p, 3);
            && p < |s'.procs| && s'.procs[p].Idle?
            && s'.log == s.log + [Got(s.chain[0])] && s'.owned == s.owned + {s.chain[0]} && s'.chain == s.chain[1..]
  {
    hide Sum, Count, Alternates, NodeOk, Fact;
    var s1 := Step(s, p);
    var s2 := Step(s1, p);
    var s3 := Step(s2, p);
    assert Alone(s, p, 3) == Alone(s1, p, 2) == Alone(s2, p, 1) == s3;
  }

  /** Undisturbed, try_get takes the first node of the list in six steps, or finds it empty in one. */
  lemma GetAlone(c: Config, s: State, p: nat)
    requires Inv(c, s) && p < |s.procs| && s.procs[p].GetHead?
    ensures var s' := Alone(s, p, 6);
            && p < |s'.procs| && s'.procs[p].Idle?
            && if s.chain == [] then s'.log == s.log && s'.owned == s.owned && s'.chain == []
               else s'.log == s.log + [Got(s.chain[0])] && s'.owned == s.owned + {s.chain[0]} && s'.chain == s.chain[1..]
  {
    var s1 := Step(s, p);
    if s.chain == [] {
      assert Alone(s, p, 6) == Alone(s1, p, 5) == s1;
    } else {
      ListedCounts(c, s, s.chain[0]);
      NowEnabled(c, s, p);
      MovesKeepsInv(c, s, p, 0, s1);
      NowEnabled(c, s1, p);
      var s2 := Step(s1, p);
      MovesKeepsInv(c, s1, p, 0, s2);
      NowEnabled(c, s2, p);
      var s3 := Step(s2, p);
      MovesKeepsInv(c, s2, p, 0, s3);
      hide Sum, Count, Alternates, NodeOk, Fact;
      TakesAlone(c, s3, p);
      AloneNext(s, p, 5); AloneNext(s1, p, 4); AloneNext(s2, p, 3);
    }
  }

  /** Undisturbed, `add` puts the node at the head of the list, in five steps, if nobody holds a
      reference to it; otherwise it leaves it marked for the last holder. */
  lemma AddAlone(c: Config, s: State, p: nat)
    requires Inv(c, s) && p < |s.procs| && s.procs[p].AddFlag?
    ensures var s' := Alone(s, p, 5);
            var n := s.procs[p].node;
            && p < |s'.procs| && s'.procs[p].Idle? && n < |s.refs| == |s'.refs|
            && if s.refs[n] == 0 then s'.chain == [n] + s.chain && s'.refs[n] == 1
               else s'.chain == s.chain && s'.refs[n] == (s.refs[n] + SHOULD) % W32
  {
    hide Sum, Count, Alternates, NodeOk, Linked;
    NowEnabled(c, s, p);
    var s1 := Step(s, p);
    if s1.procs[p].Idle? {
      assert Alone(s, p, 5) == Alone(s1, p, 4) == s1;
    } else {
      var s2 := Step(s1, p);
      var s3 := Step(s2, p);
      var s4 := Step(s3, p);
      var s5 := Step(s4, p);
      assert Alone(s, p, 5) == Alone(s2, p, 3) == Alone(s4, p, 1) == s5;
    }
  }
}
