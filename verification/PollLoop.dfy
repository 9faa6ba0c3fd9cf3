/** `for_each`'s polling loop under any number of pollers, who may poll whenever they like: from
    other threads, and from inside the very push the loop is making.

    One step is one atomic access to the polling word or one step of the token holder. Fewer than
    2^32 - 1 requests are pending at a time. Memory is sequentially consistent. */
module PollLoop {
  import opened PackedWords
  import opened Sums
  import P = PollToken

  datatype Pc =
    | Idle | Poll
    // the loop
    | CheckEnd | Count | Read | Advance(x: int) | Push(x: int)
    // inside push_value, and polling from there
    | Pushing | NestedPoll
    | Consume | LoadCount | Release(count: uint32)
    | Announce(count: uint32)
    // a nested poll got the token: the loop would run inside itself
    | Recursed

  /** `accepted` counts the polls that have added to the word, `served` those the loop has taken
      off it, `dropped` those that were pending when the end released the token, and `releases`
      how often that happened; with `pushed` and `announced` they are history. */
  datatype State = State(
    flag: uint64, it: nat, pushCount: uint32, procs: seq<Pc>,
    pushed: seq<int>, announced: seq<nat>, accepted: nat, served: nat, dropped: nat, releases: nat)

  datatype Config = Config(range: seq<int>, pollers: nat)

  predicate Config?(c: Config) { |c.range| < W32 }

  function Init(c: Config): State {
    State(0, 0, 0, seq(c.pollers, _ => Idle), [], [], 0, 0, 0, 0)
  }

  predicate Enabled(s: State, p: nat) {
    && p < |s.procs| && !s.procs[p].Idle? && !s.procs[p].Recursed?
    && (s.procs[p].Poll? || s.procs[p].NestedPoll? ==> Hi(s.flag) + 1 < W32)
  }

  function Goto(s: State, p: nat, pc: Pc): State
    requires p < |s.procs|
  {
    s.(procs := s.procs[p := pc])
  }

  function Step(c: Config, s: State, p: nat): State
    requires Enabled(s, p)
  {
    match s.procs[p]
    case Poll =>
      var g := P.Acquire(s.flag);
      Goto(s, p, if g.granted then CheckEnd else Idle).(flag := g.word, accepted := s.accepted + 1)
    case CheckEnd => Goto(s, p, if s.it == |c.range| then LoadCount else Count)
    case Count => Goto(s, p, Read).(pushCount := (s.pushCount + 1) % W32)
    case Read => Goto(s, p, Advance(if s.it < |c.range| then c.range[s.it] else 0))
    case Advance(x) => Goto(s, p, Push(x)).(it := s.it + 1)
    case Push(x) => Goto(s, p, Pushing).(pushed := s.pushed + [x])
    case Pushing => Goto(s, p, Consume)
    case NestedPoll =>
      var g := P.Acquire(s.flag);
      Goto(s, p, if g.granted then Recursed else Pushing).(flag := g.word, accepted := s.accepted + 1)
    case Consume =>
      var g := P.Consume(s.flag);
      Goto(s, p, if g.granted then CheckEnd else Idle).(flag := g.word, served := s.served + 1)
    case LoadCount => Goto(s, p, Release(s.pushCount))
    case Release(k) =>
      Goto(s, p, Announce(k)).(flag := 0, dropped := s.dropped + Hi(s.flag), releases := s.releases + 1)
    case Announce(k) => Goto(s, p, Idle).(announced := s.announced + [k])
    case _ => s
  }

  /** A thread moves, calls poll_next, or calls it from inside a push. */
  predicate Moves(c: Config, s: State, p: nat, s': State) {
    || (Enabled(s, p) && s' == Step(c, s, p))
    || (p < |s.procs| && s.procs[p].Idle? && s' == Goto(s, p, Poll))
    || (p < |s.procs| && s.procs[p].Pushing? && s' == Goto(s, p, NestedPoll))
  }

  ghost predicate Next(c: Config, s: State, s': State) {
    exists p: nat :: Moves(c, s, p, s')
  }

  ghost predicate IsRun(c: Config, run: seq<State>) {
    && |run| > 0
    && run[0] == Init(c)
    && forall i :: 0 < i < |run| ==> Next(c, run[i - 1], run[i])
  }

  // ---------------------------------------------------------------- the invariant

  function InLoop(pc: Pc): int { if pc.Idle? || pc.Poll? || pc.Announce? || pc.Recursed? then 0 else 1 }
  /** The element being pushed, whose request is not yet taken off the word. */
  function Carries(pc: Pc): int { if pc.Pushing? || pc.NestedPoll? || pc.Consume? then 1 else 0 }
  function Announcing(pc: Pc): int { if pc.Announce? then 1 else 0 }

  datatype Tally = Tally(inLoop: int, carries: int, announcing: int)

  function CountAll(procs: seq<Pc>): Tally {
    Tally(Sum(procs, InLoop), Sum(procs, Carries), Sum(procs, Announcing))
  }

  lemma CountUpdate(procs: seq<Pc>, p: nat, pc: Pc)
    requires p < |procs|
    ensures var t, o := CountAll(procs), procs[p];
            CountAll(procs[p := pc])
            == Tally(t.inLoop - InLoop(o) + InLoop(pc), t.carries - Carries(o) + Carries(pc),
                     t.announcing - Announcing(o) + Announcing(pc))
    ensures 0 <= CountAll(procs).carries <= CountAll(procs).inLoop && 0 <= CountAll(procs).announcing
    ensures InLoop(procs[p]) <= CountAll(procs).inLoop && Announcing(procs[p]) <= CountAll(procs).announcing
  {
    SumUpdate(procs, p, pc, InLoop); SumUpdate(procs, p, pc, Carries); SumUpdate(procs, p, pc, Announcing);
    SumMonotone(procs, Carries, InLoop);
    SumNonNegative(procs, Carries);
    SumAtLeast(procs, p, InLoop); SumAtLeast(procs, p, Announcing);
  }

  /** Nobody else is in the loop. */
  lemma Alone(procs: seq<Pc>, p: nat)
    requires p < |procs| && CountAll(procs).inLoop <= 1 && InLoop(procs[p]) == 1
    ensures forall q :: 0 <= q < |procs| && q != p ==> InLoop(procs[q]) == 0
    ensures CountAll(procs).carries == Carries(procs[p])
  {
    SumAtLeast(procs, p, InLoop);
    SumUpdate(procs, p, Idle, InLoop);
    SumUpdate(procs, p, Idle, Carries);
    SumMonotone(procs[p := Idle], Carries, InLoop);
    SumNonNegative(procs[p := Idle], Carries);
  }

  predicate Token(flag: uint64, inLoop: int) {
    && Lo(flag) == inLoop <= 1
    && (Lo(flag) == 0 <==> Hi(flag) == 0)
  }

  /** Where every accepted request is: served, being served, pending, or dropped at the end. */
  predicate Requests(c: Config, s: State, t: Tally) {
    && s.accepted == s.served + s.dropped + Hi(s.flag)
    && |s.pushed| == s.served + t.carries
    && s.releases <= s.dropped && (s.dropped > 0 ==> s.releases > 0)
    && (s.releases > 0 ==> s.pushed == c.range && t.carries == 0)
    && |s.announced| + t.announcing == s.releases
    && (forall i :: 0 <= i < |s.announced| ==> s.announced[i] == |c.range|)
  }

  predicate LoopFact(c: Config, s: State, pc: Pc) {
    match pc
    case Count => s.it == s.pushCount == |s.pushed| < |c.range|
    case Read => s.it + 1 == s.pushCount == |s.pushed| + 1 <= |c.range|
    case Advance(x) => s.it + 1 == s.pushCount == |s.pushed| + 1 <= |c.range| && x == c.range[s.it]
    case Push(x) => s.it == s.pushCount == |s.pushed| + 1 <= |c.range| && x == c.range[s.it - 1]
    case LoadCount => s.it == s.pushCount == |s.pushed| == |c.range|
    case Release(k) => s.it == s.pushCount == |s.pushed| == |c.range| == k
    case Announce(k) => k == |c.range| && s.releases > 0
    case CheckEnd => s.it == s.pushCount == |s.pushed|
    case Pushing => s.it == s.pushCount == |s.pushed|
    case NestedPoll => s.it == s.pushCount == |s.pushed|
    case Consume => s.it == s.pushCount == |s.pushed|
    case Recursed => false
    case _ => true
  }

  predicate Iteration(c: Config, s: State, inLoop: int) {
    && s.it <= |c.range| && |s.pushed| <= |c.range| && s.pushed == c.range[..|s.pushed|]
    && (forall i :: 0 <= i < |s.procs| ==> LoopFact(c, s, s.procs[i]))
    && (inLoop == 0 ==> s.it == s.pushCount == |s.pushed|)
  }

  predicate Inv(c: Config, s: State) {
    var t := CountAll(s.procs);
    && Config?(c)
    && Token(s.flag, t.inLoop)
    && Requests(c, s, t)
    && Iteration(c, s, t.inLoop)
  }

  lemma PollStep(c: Config, s: State, p: nat)
    requires Inv(c, s) && Enabled(s, p) && (s.procs[p].Poll? || s.procs[p].NestedPoll?)
    ensures Inv(c, Step(c, s, p))
  {
    hide Sum, Hi, Lo, P.Acquire;
    P.AcquireMeaning(s.flag);
    CountUpdate(s.procs, p, Step(c, s, p).procs[p]);
  }

  lemma ConsumeStep(c: Config, s: State, p: nat)
    requires Inv(c, s) && Enabled(s, p) && s.procs[p].Consume?
    ensures Inv(c, Step(c, s, p))
  {
    hide Sum, Hi, Lo, P.Consume;
    CountUpdate(s.procs, p, Step(c, s, p).procs[p]);
    Alone(s.procs, p);
    P.ConsumeMeaning(s.flag);
  }

  lemma ReleaseStep(c: Config, s: State, p: nat)
    requires Inv(c, s) && Enabled(s, p) && s.procs[p].Release?
    ensures Inv(c, Step(c, s, p))
  {
    hide Sum, Hi, Lo;
    ZeroWord();
    CountUpdate(s.procs, p, Step(c, s, p).procs[p]);
    Alone(s.procs, p);
    assert c.range[..|c.range|] == c.range;
  }

  lemma WalkStep(c: Config, s: State, p: nat)
    requires Inv(c, s) && Enabled(s, p)
    requires var pc := s.procs[p];
             pc.CheckEnd? || pc.Count? || pc.Read? || pc.Advance? || pc.Push? || pc.Pushing? || pc.LoadCount?
    ensures Inv(c, Step(c, s, p))
  {
    hide Sum, Hi, Lo;
    CountUpdate(s.procs, p, Step(c, s, p).procs[p]);
    Alone(s.procs, p);
    if s.procs[p].Push? {
      assert c.range[..|s.pushed| + 1] == c.range[..|s.pushed|] + [c.range[|s.pushed|]];
    }
  }

  lemma AnnounceStep(c: Config, s: State, p: nat)
    requires Inv(c, s) && Enabled(s, p) && s.procs[p].Announce?
    ensures Inv(c, Step(c, s, p))
  {
    hide Sum, Hi, Lo;
    CountUpdate(s.procs, p, Idle);
  }

  lemma MovesKeepsInv(c: Config, s: State, p: nat, s': State)
    requires Inv(c, s) && Moves(c, s, p, s')
    ensures Inv(c, s')
  {
    hide Sum, Hi, Lo, P.Acquire, P.Consume;
    var pc := s.procs[p];
    if !Enabled(s, p) || s' != Step(c, s, p) {
      CountUpdate(s.procs, p, s'.procs[p]);
    } else if pc.Poll? || pc.NestedPoll? {
      PollStep(c, s, p);
    } else if pc.Consume? {
      ConsumeStep(c, s, p);
    } else if pc.Release? {
      ReleaseStep(c, s, p);
    } else if pc.Announce? {
      AnnounceStep(c, s, p);
    } else {
      WalkStep(c, s, p);
    }
  }

  lemma InitInv(c: Config)
    requires Config?(c)
    ensures Inv(c, Init(c))
  {
    ZeroWord();
    SumConstant(Init(c).procs, InLoop, 0);
    SumConstant(Init(c).procs, Carries, 0);
    SumConstant(Init(c).procs, Announcing, 0);
    assert c.range[..0] == [];
  }

  lemma {:induction false} RunInv(c: Config, run: seq<State>, k: nat)
    requires Config?(c) && IsRun(c, run) && k < |run|
    ensures Inv(c, run[k])
    decreases k
  {
    hide Inv, Moves, Init;
    if k == 0 {
      InitInv(c);
    } else {
      RunInv(c, run, k - 1);
      assert Next(c, run[k - 1], run[k]);
      var p: nat :| Moves(c, run[k - 1], p, run[k]);
      MovesKeepsInv(c, run[k - 1], p, run[k]);
    }
  }

  // ---------------------------------------------------------------- main results

  /** The token is a lock on the iterator: at most one poller is in the loop, the token is free
      exactly when nobody is, and then nothing is pending; the loop never runs inside itself; the
      values go out in range order, each once. */
  lemma TokenIsLock(c: Config, run: seq<State>, k: nat)
    requires Config?(c) && IsRun(c, run) && k < |run|
    ensures var s := run[k];
            && (forall p, q :: 0 <= p < |s.procs| && 0 <= q < |s.procs| ==>
                  (InLoop(s.procs[p]) == 1 && InLoop(s.procs[q]) == 1 ==> p == q))
            && (Lo(s.flag) == 0 <==> forall p :: 0 <= p < |s.procs| ==> InLoop(s.procs[p]) == 0)
            && (Lo(s.flag) == 0 ==> Hi(s.flag) == 0)
            && (forall p :: 0 <= p < |s.procs| ==> !s.procs[p].Recursed?)
            && |s.pushed| <= |c.range| && s.pushed == c.range[..|s.pushed|]
  {
    hide Sum, Hi, Lo;
    RunInv(c, run, k);
    var s := run[k];
    forall p, q | 0 <= p < |s.procs| && 0 <= q < |s.procs| && InLoop(s.procs[p]) == 1 && InLoop(s.procs[q]) == 1
      ensures p == q
    {
      Alone(s.procs, p);
    }
    if Lo(s.flag) == 0 {
      forall p | 0 <= p < |s.procs| ensures InLoop(s.procs[p]) == 0 {
        SumAtLeast(s.procs, p, InLoop);
      }
    } else {
      var p := SumWitness(s.procs, InLoop);
    }
  }

  /** Pending is accepted minus served, until the end drops what is pending; and the end comes
      only when the whole range has gone out. */
  lemma PendingIsAcceptedMinusServed(c: Config, run: seq<State>, k: nat)
    requires Config?(c) && IsRun(c, run) && k < |run|
    ensures var s := run[k];
            && Hi(s.flag) == s.accepted - s.served - s.dropped
            && (s.dropped > 0 ==> s.pushed == c.range)
            && s.served <= |s.pushed| <= s.served + 1
  {
    hide Sum, Hi, Lo;
    RunInv(c, run, k);
    if |run[k].procs| > 0 {
      CountUpdate(run[k].procs, 0, Idle);
    } else {
      SumConstant(run[k].procs, Carries, 0);
    }
  }

  /** Whenever nobody is in the loop, every accepted request has been answered by one element, as
      long as there were any: no request is lost. The end has been reached if and only if there
      were more requests than elements. */
  lemma EveryRequestServed(c: Config, run: seq<State>, k: nat)
    requires Config?(c) && IsRun(c, run) && k < |run|
    requires forall p :: 0 <= p < |run[k].procs| ==> InLoop(run[k].procs[p]) == 0
    ensures var s := run[k];
            && |s.pushed| == (if s.accepted < |c.range| then s.accepted else |c.range|)
            && (s.releases > 0 <==> s.accepted > |c.range|)
  {
    RunInv(c, run, k);
    AllServed(c, run[k]);
  }

  lemma AllServed(c: Config, s: State)
    requires Inv(c, s) && forall p :: 0 <= p < |s.procs| ==> InLoop(s.procs[p]) == 0
    ensures |s.pushed| == (if s.accepted < |c.range| then s.accepted else |c.range|)
    ensures s.pushed == c.range[..|s.pushed|] && s.accepted == |s.pushed| + s.dropped
    ensures s.releases > 0 <==> s.accepted > |c.range|
  {
    hide Sum, Hi, Lo;
    SumConstant(s.procs, InLoop, 0);
    SumMonotone(s.procs, Carries, InLoop);
    SumNonNegative(s.procs, Carries);
  }

  /** The end is announced once for every time the token was given back because the range was used
      up (`Announcing` are the announcements under way), always with the true length, and no more
      often than requests were made beyond the range. */
  lemma EndAnnounced(c: Config, run: seq<State>, k: nat)
    requires Config?(c) && IsRun(c, run) && k < |run|
    ensures var s := run[k];
            && |s.announced| + Sum(s.procs, Announcing) == s.releases
            && (forall i :: 0 <= i < |s.announced| ==> s.announced[i] == |c.range|)
            && (s.announced != [] ==> s.pushed == c.range && |s.announced| <= s.accepted - |c.range|)
  {
    hide Sum, Hi, Lo;
    RunInv(c, run, k);
    SumNonNegative(run[k].procs, Announcing);
    SumNonNegative(run[k].procs, Carries);
  }

  // ---------------------------------------------------------------- polls end

  /** Requests not yet served, the one about to be made included. */
  function Potential(s: State, p: nat): nat
    requires p < |s.procs|
  {
    Hi(s.flag) + Asking(s.procs[p])
  }

  function Asking(pc: Pc): nat { if pc.Poll? || pc.NestedPoll? then 1 else 0 }

  /** The steps to the next access that takes requests off the word, or to the end of the call. */
  function Rank(pc: Pc): nat {
    match pc
    case Poll => 9
    case CheckEnd => 8
    case Count => 7
    case Read => 6
    case Advance(_) => 5
    case Push(_) => 4
    case NestedPoll => 3
    case Pushing => 2
    case Consume => 1
    case LoadCount => 2
    case Release(_) => 1
    case Announce(_) => 1
    case _ => 0
  }

  /** n steps of p, as long as its call lasts. */
  function Undisturbed(c: Config, s: State, p: nat, n: nat): State
    decreases n
  {
    if n == 0 || !Enabled(s, p) then s else Undisturbed(c, Step(c, s, p), p, n - 1)
  }

  lemma StepDescends(c: Config, s: State, p: nat)
    requires Inv(c, s) && Enabled(s, p)
    ensures var s' := Step(c, s, p);
            && p < |s'.procs| && s'.procs == s.procs[p := s'.procs[p]]
            && s'.accepted + Asking(s'.procs[p]) == s.accepted + Asking(s.procs[p])
            && (Potential(s', p) < Potential(s, p)
                || (Potential(s', p) == Potential(s, p) && Rank(s'.procs[p]) < Rank(s.procs[p])))
  {
    hide Sum, Hi, Lo, P.Acquire, P.Consume;
    ZeroWord();
    if Asking(s.procs[p]) == 1 { P.AcquireMeaning(s.flag); }
    HoldsToken(s, p, c);
    if s.procs[p].Consume? { P.ConsumeMeaning(s.flag); }
  }

  /** Whoever is in the loop has the token, with a request pending. */
  lemma HoldsToken(s: State, p: nat, c: Config)
    requires Inv(c, s) && p < |s.procs|
    ensures InLoop(s.procs[p]) == 1 ==> Lo(s.flag) == 1 && Hi(s.flag) > 0
    ensures !s.procs[p].Recursed?
  {
    hide Sum, Hi, Lo;
    SumAtLeast(s.procs, p, InLoop);
  }

  /** What a step announces: the true length, when the range was used up with requests pending. */
  lemma StepAnnounces(c: Config, s: State, p: nat)
    requires Inv(c, s) && Enabled(s, p)
    ensures var s' := Step(c, s, p);
            && s'.announced == s.announced + (if s.procs[p].Announce? then [|c.range|] else [])
            && (s'.procs[p].Announce? <==> s.procs[p].Release?) && (s.procs[p].Announce? ==> s'.procs[p].Idle?)
            && (s'.procs[p].Announce? <==> s'.dropped > s.dropped) && s'.dropped >= s.dropped
  {
    hide Sum, Hi, Lo, P.Acquire, P.Consume;
    HoldsToken(s, p, c);
    assert LoopFact(c, s, s.procs[p]);
  }

  /** What the rest of a call adds to the announcements. */
  predicate Announces(c: Config, s: State, s': State, p: nat)
    requires p < |s.procs|
  {
    && s'.dropped >= s.dropped
    && s'.announced == s.announced + (if s.procs[p].Announce? || s'.dropped > s.dropped then [|c.range|] else [])
  }

  /** Undisturbed, a call ends: the polls made from inside its pushes included. */
  lemma {:induction false} PollEnds(c: Config, s: State, p: nat) returns (n: nat)
    requires Inv(c, s) && p < |s.procs| && Potential(s, p) < W32
    ensures var s' := Undisturbed(c, s, p, n);
            && Inv(c, s') && p < |s'.procs| && s'.procs == s.procs[p := Idle]
            && s'.accepted == s.accepted + Asking(s.procs[p])
            && (s.procs[p].Announce? || s.procs[p].Idle? ==> s'.dropped == s.dropped)
            && Announces(c, s, s', p)
    decreases Potential(s, p), Rank(s.procs[p])
  {
    hide Inv, Step, Rank, Hi;
    HoldsToken(s, p, c);
    if s.procs[p].Idle? {
      n := 0;
      assert s.procs[p := Idle] == s.procs && s.announced + [] == s.announced;
    } else {
      var s1 := Step(c, s, p);
      StepDescends(c, s, p);
      StepAnnounces(c, s, p);
      MovesKeepsInv(c, s, p, s1);
      var k := PollEnds(c, s1, p);
      n := k + 1;
      assert Undisturbed(c, s, p, n) == Undisturbed(c, s1, p, k);
      assert s1.procs[p := Idle] == s.procs[p := Idle];
    }
  }

  /** A poll that nobody disturbs pushes the next element and announces nothing, or finds the range
      used up and announces its length. */
  lemma PollAlone(c: Config, s: State, p: nat) returns (n: nat)
    requires Inv(c, s) && p < |s.procs| && s.procs[p].Poll?
    requires forall q :: 0 <= q < |s.procs| && q != p ==> s.procs[q].Idle?
    ensures var s' := Undisturbed(c, s, p, n);
            && s'.procs == s.procs[p := Idle] && |s.pushed| <= |c.range|
            && if |s.pushed| < |c.range| then s'.pushed == s.pushed + [c.range[|s.pushed|]] && s'.announced == s.announced
               else s'.pushed == s.pushed == c.range && s'.announced == s.announced + [|c.range|]
  {
    hide Step, Hi, Lo, Sum, Undisturbed;
    NobodyPending(c, s);
    AllServed(c, s);
    n := PollEnds(c, s, p);
    var s' := Undisturbed(c, s, p, n);
    AllServed(c, s');
    if |s.pushed| < |c.range| {
      assert c.range[..|s.pushed| + 1] == c.range[..|s.pushed|] + [c.range[|s.pushed|]];
    } else {
      assert c.range[..|c.range|] == c.range;
    }
  }

  lemma NobodyPending(c: Config, s: State)
    requires Inv(c, s) && forall q :: 0 <= q < |s.procs| ==> InLoop(s.procs[q]) == 0
    ensures Hi(s.flag) == 0
  {
    hide Sum, Hi, Lo;
    SumConstant(s.procs, InLoop, 0);
  }
}
