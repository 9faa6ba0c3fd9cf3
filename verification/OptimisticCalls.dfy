/** What one dequeue gets: how many steps it takes, how much it may take, and how much it takes
    when no other consumer is between reserving and claiming. */
module OptimisticCalls {
  import opened OptimisticDequeue
  import opened Sums

  // ---------------------------------------------------------------- calls end

  /** The accesses a call may still make. */
  function Rank(pc: Pc): nat {
    match pc
    case LoadTail(_) => 8
    case LoadOver(_, _) => 7
    case LoadOptimistic(_, _, _) => 6
    case Reserve(_, _) => 5
    case Recheck(_, _, _, _) => 4
    case GiveBack(_, _, _) => 3
    case Take(_, _) => 2
    case Read(_, _) => 1
    case Idle => 0
  }

  /** n steps of p, each after whatever the others did: world(k, s) is the state they leave behind. */
  function Amid(world: (nat, State) -> State, s: State, p: nat, n: nat): State
    decreases n
  {
    if n == 0 || !Enabled(s, p) then s else Amid(world, world(n, Step(s, p)), p, n - 1)
  }

  /** Whatever the others do in between, they do not touch the consumer's own variables. */
  ghost predicate LeavesAlone(world: (nat, State) -> State, p: nat) {
    forall k, s :: |world(k, s).procs| == |s.procs| && (p < |s.procs| ==> world(k, s).procs[p] == s.procs[p])
  }

  /** A dequeue never waits: it has returned after eight accesses of its own, whatever happens in
      between. */
  lemma {:induction false} DequeueIsWaitFree(world: (nat, State) -> State, s: State, p: nat, n: nat)
    requires LeavesAlone(world, p) && p < |s.procs| && Rank(s.procs[p]) <= n
    ensures p < |Amid(world, s, p, n).procs| && Amid(world, s, p, n).procs[p].Idle?
    decreases n
  {
    if Enabled(s, p) {
      StepDescends(s, p);
      DequeueIsWaitFree(world, world(n, Step(s, p)), p, n - 1);
    }
  }

  lemma StepDescends(s: State, p: nat)
    requires Enabled(s, p)
    ensures p < |Step(s, p).procs| && Rank(Step(s, p).procs[p]) < Rank(s.procs[p])
  {
  }

  // ---------------------------------------------------------------- one call among others

  function By(p: nat): nat -> int { (q: nat) => if q == p then 1 else 0 }

  /** How many indices p has claimed so far. */
  function Share(s: State, p: nat): int { Sum(s.claimed, By(p)) }

  /** In a call for at most m elements that began with `before` indices to its name. */
  predicate InCall(s: State, p: nat, m: nat, before: int)
    requires p < |s.procs|
  {
    match s.procs[p]
    case LoadTail(x) => x == m && Share(s, p) == before
    case LoadOver(_, x) => x == m && Share(s, p) == before
    case LoadOptimistic(_, _, x) => x == m && Share(s, p) == before
    case Reserve(k, _) => k <= m && (m > 0 ==> k > 0) && Share(s, p) == before
    case Recheck(_, _, k, _) => k <= m && (m > 0 ==> k > 0) && Share(s, p) == before
    case GiveBack(_, _, take) => take <= m && Share(s, p) == before
    case Take(_, a) => a <= m && (m > 0 ==> a > 0) && Share(s, p) == before
    case Read(_, a) => a <= m && (m > 0 ==> a > 0) && Share(s, p) == before + a
    case Idle => true
  }

  lemma SharesAdd(claimed: seq<nat>, a: nat, p: nat, q: nat)
    ensures Sum<nat>(claimed + seq(a, _ => p), By(q)) == Sum(claimed, By(q)) + (if p == q then a else 0)
  {
    hide Sum;
    var more: seq<nat> := seq(a, _ => p);
    SumConcat(claimed, more, By(q));
    SumConstant(more, By(q), if p == q then 1 else 0);
  }

  lemma OwnStepInCall(s: State, p: nat, m: nat, before: int)
    requires Enabled(s, p) && InCall(s, p, m, before)
    ensures p < |Step(s, p).procs| && InCall(Step(s, p), p, m, before)
  {
    hide Sum;
    if s.procs[p].Take? { SharesAdd(s.claimed, s.procs[p].take, p, p); }
  }

  lemma OtherStepInCall(s: State, q: nat, x: nat, s': State, p: nat, m: nat, before: int)
    requires Moves(s, q, x, s') && p < |s.procs| && q != p && InCall(s, p, m, before)
    ensures p < |s'.procs| && s'.procs[p] == s.procs[p] && InCall(s', p, m, before)
  {
    hide Sum;
    if Enabled(s, q) && s.procs[q].Take? { SharesAdd(s.claimed, s.procs[q].take, q, p); }
  }

  lemma MoveOf(consumers: nat, run: seq<State>, k: nat) returns (q: nat, x: nat)
    requires IsRun(consumers, run) && k + 1 < |run|
    ensures Moves(run[k], q, x, run[k + 1])
  {
    hide Moves;
    assert Next(run[k], run[k + 1]);
    q, x :| Moves(run[k], q, x, run[k + 1]);
  }

  lemma OwnMove(s: State, p: nat, x: nat, s': State)
    requires Moves(s, p, x, s') && Enabled(s, p)
    ensures s' == Step(s, p) || (|s'.procs| == |s.procs| && s'.procs[p] == s.procs[p] && s'.claimed == s.claimed)
  {
  }

  /** p's call lasts from i to j: it begins with asking for m and has not returned before j. */
  ghost predicate Calls(run: seq<State>, i: nat, j: nat, p: nat, m: nat) {
    && i <= j < |run|
    && p < |run[i].procs| && run[i].procs[p] == LoadTail(m)
    && forall k :: i <= k < j ==> p < |run[k].procs| && !run[k].procs[p].Idle?
  }

  lemma {:induction false} CallRun(consumers: nat, run: seq<State>, i: nat, j: nat, p: nat, m: nat)
    requires IsRun(consumers, run) && Calls(run, i, j, p, m)
    ensures p < |run[j].procs| && InCall(run[j], p, m, Share(run[i], p))
    decreases j
  {
    hide Moves, IsRun, Share, InCall;
    if i == j {
      Begins(run[i], p, m);
    } else {
      CallRun(consumers, run, i, j - 1, p, m);
      var q, x := MoveOf(consumers, run, j - 1);
      AnyMoveInCall(run[j - 1], q, x, run[j], p, m, Share(run[i], p));
    }
  }

  lemma Begins(s: State, p: nat, m: nat)
    requires p < |s.procs| && s.procs[p] == LoadTail(m)
    ensures InCall(s, p, m, Share(s, p))
  {
  }

  lemma AnyMoveInCall(s: State, q: nat, x: nat, s': State, p: nat, m: nat, before: int)
    requires Moves(s, q, x, s') && Enabled(s, p) && InCall(s, p, m, before)
    ensures p < |s'.procs| && InCall(s', p, m, before)
  {
    if q != p {
      OtherStepInCall(s, q, x, s', p, m, before);
    } else {
      OwnMove(s, p, x, s');
      if s' == Step(s, p) { OwnStepInCall(s, p, m, before); }
    }
  }

  /** What a returning call has got: what it is about to read, or nothing. */
  lemma ReturnGets(s: State, q: nat, x: nat, s': State, p: nat, m: nat, before: int)
    requires Moves(s, q, x, s') && Enabled(s, p) && InCall(s, p, m, before)
    requires p < |s'.procs| && s'.procs[p].Idle?
    ensures q == p && s' == Step(s, p)
    ensures Share(s', p) == before + (if s.procs[p].Read? then s.procs[p].take else 0)
    ensures s.procs[p].Read? ==> s.procs[p].take <= m && (m > 0 ==> s.procs[p].take > 0)
  {
    hide Sum;
  }

  /** A dequeue that asked for m and returns has claimed at most m indices, and it has claimed
      exactly those it read; with m > 0 it does not read when it got none. */
  lemma DequeueCall(consumers: nat, run: seq<State>, i: nat, j: nat, p: nat, m: nat)
    requires IsRun(consumers, run) && Calls(run, i, j, p, m)
    requires p < |run[j].procs| && run[j].procs[p].Idle?
    ensures i < j && p < |run[j - 1].procs|
    ensures var last := run[j - 1].procs[p];
            var got := Share(run[j], p) - Share(run[i], p);
            && 0 <= got <= m
            && (last.Read? ==> last.take == got && (m > 0 ==> got > 0))
            && (!last.Read? ==> got == 0)
  {
    hide Moves, IsRun, Share, InCall;
    CallRun(consumers, run, i, j - 1, p, m);
    var q, x := MoveOf(consumers, run, j - 1);
    ReturnGets(run[j - 1], q, x, run[j], p, m, Share(run[i], p));
  }

  // ---------------------------------------------------------------- one call undisturbed

  /** Nothing but the call's own steps has touched the counters since it began in s0. */
  predicate Untouched(s0: State, s: State, granted: int, taken: nat, p: nat) {
    && s.optimistic - s.over == s0.head + granted
    && s.head == s0.head + taken && s.claimed == s0.claimed + seq(taken, _ => p)
  }

  /** The indices claimed since s0 are p's, and they are all that was granted since. */
  predicate Gained(s0: State, s: State, p: nat) {
    && s.head >= s0.head && s.claimed == s0.claimed + seq(s.head - s0.head, _ => p)
    && s.optimistic - s.over == s.head
  }

  /** How far an undisturbed call has come, with at least `least` elements to get. */
  predicate Steady(s0: State, s: State, p: nat, m: nat)
    requires p < |s.procs|
  {
    var least := if s0.tail - s0.head < m then s0.tail - s0.head else m;
    && s0.tail <= s.tail
    && match s.procs[p]
       case LoadTail(x) => x == m && Untouched(s0, s, 0, 0, p)
       case LoadOver(t, x) => x == m && s0.tail <= t && Untouched(s0, s, 0, 0, p)
       case LoadOptimistic(t, v, x) => x == m && s0.tail <= t && v == s.over && Untouched(s0, s, 0, 0, p)
       case Reserve(k, v) => least <= k <= m && v == s.over && Untouched(s0, s, 0, 0, p)
       case Recheck(_, mine, k, v) => least <= k <= m && v == s.over && mine - v == s0.head && Untouched(s0, s, k, 0, p)
       case GiveBack(_, lose, take) => least <= take <= m && Untouched(s0, s, lose + take, 0, p)
       case Take(_, a) => least <= a <= m && Untouched(s0, s, a, 0, p)
       case Read(_, a) => least <= a <= m && Untouched(s0, s, a, a, p)
       case Idle => least <= s.head - s0.head <= m && Gained(s0, s, p)
  }

  lemma OwnStepSteady(s0: State, s: State, p: nat, m: nat)
    requires Enabled(s, p) && Steady(s0, s, p, m) && s0.head <= s0.tail
    ensures p < |Step(s, p).procs| && Steady(s0, Step(s, p), p, m)
  {
  }

  /** A step that leaves p and the counters alone. */
  predicate Beside(s: State, s': State, p: nat) {
    && |s'.procs| == |s.procs| && (p < |s.procs| ==> s'.procs[p] == s.procs[p]) && s'.tail >= s.tail
    && s'.optimistic == s.optimistic && s'.over == s.over && s'.head == s.head && s'.claimed == s.claimed
  }

  lemma OtherStepBeside(s: State, q: nat, x: nat, s': State, p: nat)
    requires Moves(s, q, x, s') && Enabled(s, p) && s.tail <= s.built
    requires q == p ==> s' != Step(s, p)
    requires q < |s.procs| && q != p ==> !Reserving(s.procs[q])
    requires q < |s'.procs| && q != p ==> !Reserving(s'.procs[q])
    ensures Beside(s, s', p)
  {
  }

  lemma SteadyBeside(s0: State, s: State, s': State, p: nat, m: nat)
    requires Beside(s, s', p) && p < |s.procs| && Steady(s0, s, p, m)
    ensures Steady(s0, s', p, m)
  {
  }

  /** From i until j no other consumer is between reserving and claiming. */
  ghost predicate Undisturbed(run: seq<State>, i: nat, j: nat, p: nat) {
    forall k, q :: i <= k < j < |run| && 0 <= q < |run[k].procs| && q != p ==> !Reserving(run[k].procs[q])
  }

  lemma StaysSteady(s0: State, s: State, q: nat, x: nat, s': State, p: nat, m: nat)
    requires Moves(s, q, x, s') && Enabled(s, p) && Steady(s0, s, p, m)
    requires s.tail <= s.built && s0.head <= s0.tail
    requires q < |s.procs| && q != p ==> !Reserving(s.procs[q])
    requires q < |s'.procs| && q != p ==> !Reserving(s'.procs[q])
    ensures p < |s'.procs| && Steady(s0, s', p, m)
  {
    hide Moves, Steady, Step;
    if q == p && s' == Step(s, p) {
      OwnStepSteady(s0, s, p, m);
    } else {
      OtherStepBeside(s, q, x, s', p);
      SteadyBeside(s0, s, s', p, m);
    }
  }

  lemma {:induction false} SteadyRun(consumers: nat, run: seq<State>, i: nat, j: nat, p: nat, m: nat)
    requires IsRun(consumers, run) && Calls(run, i, j, p, m) && Undisturbed(run, i, j + 1, p) && j + 1 < |run|
    ensures p < |run[j].procs| && Steady(run[i], run[j], p, m)
    decreases j
  {
    hide Moves, IsRun, Steady;
    if i == j {
      NobodyReserves(run, i, p, m);
      SettledCountsAgree(consumers, run, i);
      SteadyBegins(run[i], p, m);
    } else {
      SteadyRun(consumers, run, i, j - 1, p, m);
      NeverOvertakes(consumers, run, i);
      NeverOvertakes(consumers, run, j - 1);
      var q, x := MoveOf(consumers, run, j - 1);
      StaysSteady(run[i], run[j - 1], q, x, run[j], p, m);
    }
  }

  lemma NobodyReserves(run: seq<State>, i: nat, p: nat, m: nat)
    requires Calls(run, i, i, p, m) && Undisturbed(run, i, i + 1, p) && i + 1 < |run|
    ensures forall q :: 0 <= q < |run[i].procs| ==> !Reserving(run[i].procs[q])
  {
  }

  lemma SteadyBegins(s: State, p: nat, m: nat)
    requires p < |s.procs| && s.procs[p] == LoadTail(m) && s.optimistic - s.over == s.head
    ensures Steady(s, s, p, m)
  {
    assert s.claimed == s.claimed + seq(0, _ => p);
  }

  /** When no other consumer is between reserving and claiming, a dequeue that asks for m claims
      the m next indices, or all that were published when it began and perhaps some published
      since; the others may look, and the producer go on, meanwhile. */
  lemma UndisturbedDequeue(consumers: nat, run: seq<State>, i: nat, j: nat, p: nat, m: nat)
    requires IsRun(consumers, run) && Calls(run, i, j, p, m) && Undisturbed(run, i, j, p)
    requires p < |run[j].procs| && run[j].procs[p].Idle?
    ensures run[i].head <= run[i].tail && run[i].head <= run[j].head <= run[j].tail
    ensures var got := run[j].head - run[i].head;
            && (got == m || (got < m && run[i].tail - run[i].head <= got))
            && run[j].claimed == run[i].claimed + seq(got, _ => p)
  {
    hide Moves, IsRun;
    SteadyRun(consumers, run, i, j - 1, p, m);
    NeverOvertakes(consumers, run, i);
    NeverOvertakes(consumers, run, j);
    var q, x := MoveOf(consumers, run, j - 1);
    LastStep(run[j - 1], q, x, run[j], p);
    OwnStepSteady(run[i], run[j - 1], p, m);
  }

  lemma LastStep(s: State, q: nat, x: nat, s': State, p: nat)
    requires Moves(s, q, x, s') && Enabled(s, p) && p < |s'.procs| && s'.procs[p].Idle?
    ensures s' == Step(s, p)
  {
  }
}
