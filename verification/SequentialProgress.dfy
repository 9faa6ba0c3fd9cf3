/** How runs of SequentialDrain end. A run can be infinite only by polling a claimed ticket whose
    producer has not published it yet; any run can be completed to one that delivers; and after
    the delivery the only processes still running are downstream completions that re-check. */
module SequentialProgress {
  import opened PackedWords
  import opened Sequences
  import opened Sums
  import opened SequentialDrain
  import C = CompletionCounter

  // ---------------------------------------------------------------- a measure

  /** The head ticket is claimed but not published: the drainer cannot take it and cannot stop. */
  predicate HeldUp(s: State) { s.head != |s.tickets| && !CanDequeue(s) }

  /** Steps of a process that happen once and can change what the others see. */
  function Owed(pc: Pc): int {
    match pc
    case Enqueue => 4
    case Publish(_) => 2
    case TryBusy => 1
    case SetTotal => 1
    case _ => 0
  }

  /** How far a process is from standing still while the cache stays empty (or not) and the state
      word stays below DONE (or not). */
  function Rank(empty: bool, done: bool, tail: nat, pc: Pc): int {
    match pc
    case PushDone(_) => 1
    case AddDone => 2
    case CheckDone(_) => if done then 4 else 3
    case CheckTail(h, _) => if done then 5 else if !empty then 5 else if h == tail then 4 else 10
    case CheckEmpty(_) => if !done && empty then 5 else 6
    case CasBusy(_) => if done then 3 else if empty then 9 else 4
    case CasIdle(_, _) => if done then if empty then 8 else 4 else if empty then 6 else 7
    case LoadState(_) => if done then if empty then 6 else 4 else if empty then 7 else 8
    case Deq(_) => if empty then if done then 7 else 8 else 3
    case LateDeq(_) => if empty then 5 else 3
    case CasTerminal(_) => 4
    case Finish(_) => 3
    case CasFlag(_, _) => 11
    case LoadFlag(_) => 12
    case Exch(_) => 11
    case InFlight => 13
    case PushItem(_, _) => 25
    case SetActive(_, _) => 26
    case FreeSlot(_, _) => 27
    case _ => 0
  }

  function RankIn(empty: bool, done: bool, tail: nat): Pc -> int {
    (pc: Pc) => Rank(empty, done, tail, pc)
  }

  function Peak(pc: Pc): int { 27 }

  function Major(s: State): int {
    |s.tickets| - s.head + Sum(s.procs, Owed) + if s.st < DONE then 1 else 0
  }

  function Minor(s: State): int {
    Sum(s.procs, RankIn(s.head == |s.tickets|, s.st >= DONE, |s.tickets|))
  }

  /** While the head ticket is held up the minor part counts as if it were as large as possible. */
  function Measure(s: State): int {
    Major(s) * (27 * |s.procs| + 1) + if HeldUp(s) then 27 * |s.procs| else Minor(s)
  }

  lemma MinorBounds(s: State)
    ensures 0 <= Minor(s) <= 27 * |s.procs|
  {
    var w := RankIn(s.head == |s.tickets|, s.st >= DONE, |s.tickets|);
    SumNonNegative(s.procs, w);
    SumMonotone(s.procs, w, Peak);
    SumConstant(s.procs, Peak, 27);
  }

  lemma MeasureBounds(c: Config, s: State)
    requires Inv(c, s)
    ensures Major(s) >= 0 && Measure(s) >= 0
  {
    hide Sum;
    SumNonNegative(s.procs, Owed);
    MinorBounds(s);
    Scaled(0, Major(s), 27 * |s.procs| + 1);
  }

  lemma Scaled(a: int, b: int, k: int)
    requires a <= b && k >= 0
    ensures a * k <= b * k
  {
  }

  /** A step that lowers the major part lowers the measure, whatever it does to the minor part. */
  lemma MajorLowers(s: State, s': State)
    requires Major(s') < Major(s) && |s'.procs| == |s.procs|
    ensures Measure(s') < Measure(s)
  {
    hide Major, Minor, HeldUp;
    MinorBounds(s);
    MinorBounds(s');
    Scaled(Major(s') + 1, Major(s), 27 * |s.procs| + 1);
  }

  predicate OnceOnly(s: State, p: nat) requires p < |s.procs| {
    var pc := s.procs[p];
    Owed(pc) > 0 || pc.PushDone? || ((pc.Deq? || pc.LateDeq?) && CanDequeue(s))
  }

  lemma OnceOnlyStep(c: Config, s: State, p: nat)
    requires Inv(c, s) && Enabled(s, p) && OnceOnly(s, p)
    ensures |Step(c, s, p).procs| == |s.procs| && Major(Step(c, s, p)) < Major(s)
  {
    hide Sum, Kinds, Items, Facts, Queue, Counting, Ending, Rights, Wakeup;
    var s' := Step(c, s, p);
    assert s'.procs == s.procs[p := s'.procs[p]];
    SumUpdate(s.procs, p, s'.procs[p], Owed);
    if s.procs[p].PushDone? {
      FactsAfterDone(c, s, p);
    }
  }

  /** Between the exchange that made the machine idle and the last look at it. */
  predicate Rechecks(pc: Pc) { pc.CheckEmpty? || pc.CheckTail? || pc.CheckDone? || pc.CasBusy? }

  predicate SameView(s: State, s': State) {
    s'.tickets == s.tickets && s'.published == s.published && s'.head == s.head && (s'.st >= DONE <==> s.st >= DONE)
  }

  /** The step moves one process, leaves the cache alone, and takes the process closer to rest
      unless the head ticket is held up. */
  predicate Settles(s: State, s': State, p: nat)
    requires p < |s.procs|
  {
    && SameView(s, s') && |s'.procs| == |s.procs| && s'.procs == s.procs[p := s'.procs[p]]
    && Owed(s'.procs[p]) == 0 && Owed(s.procs[p]) == 0
    && (!HeldUp(s) ==>
          var e, d, t := s.head == |s.tickets|, s.st >= DONE, |s.tickets|;
          Rank(e, d, t, s'.procs[p]) < Rank(e, d, t, s.procs[p]))
  }

  lemma PollingSettles(c: Config, s: State, p: nat)
    requires Inv(c, s) && Enabled(s, p) && !OnceOnly(s, p)
    requires var pc := s.procs[p]; pc.LoadFlag? || pc.CasFlag? || pc.Deq? || pc.LoadState? || pc.LateDeq?
    ensures Settles(s, Step(c, s, p), p)
  {
    hide Sum, CountAll, Kinds, Items, Facts, Queue, Counting, Ending, Wakeup, CanDequeue, StepOuter;
    Here(c, s, p);
  }

  lemma EndingSettles(c: Config, s: State, p: nat)
    requires Inv(c, s) && Enabled(s, p)
    requires var pc := s.procs[p]; pc.CasTerminal? || pc.Finish? || pc.CasIdle? || pc.AddDone?
    ensures Settles(s, Step(c, s, p), p)
  {
    hide Sum, CountAll, Kinds, Items, Facts, Queue, Counting, Ending, Wakeup, CanDequeue, C.AddDoneWord, C.AddDoneHits;
    Here(c, s, p);
  }

  lemma ChecksSettle(c: Config, s: State, p: nat)
    requires Inv(c, s) && Enabled(s, p) && Rechecks(s.procs[p])
    ensures Settles(s, Step(c, s, p), p)
  {
    hide Sum, CountAll, Kinds, Items, Facts, Counting, Ending, Wakeup, CanDequeue, Rights, StepOuter;
    Here(c, s, p);
  }

  lemma PushingSettles(c: Config, s: State, p: nat)
    requires Inv(c, s) && Enabled(s, p)
    requires var pc := s.procs[p]; pc.InFlight? || pc.FreeSlot? || pc.SetActive? || pc.Exch?
    ensures Settles(s, Step(c, s, p), p)
  {
    hide Sum, CountAll, Kinds, Items, Facts, Queue, Counting, Ending, Wakeup, CanDequeue, Rights;
  }

  lemma Settling(s: State, s': State, p: nat)
    requires p < |s.procs| && Settles(s, s', p)
    ensures |s'.procs| == |s.procs|
    ensures Measure(s') <= Measure(s) && (!HeldUp(s) ==> Measure(s') < Measure(s))
  {
    hide Sum, Rank, Owed;
    SumUpdate(s.procs, p, s'.procs[p], Owed);
    SumUpdate(s.procs, p, s'.procs[p], RankIn(s.head == |s.tickets|, s.st >= DONE, |s.tickets|));
    assert Major(s') == Major(s);
  }

  /** The item that leaves for downstream starts a process. */
  lemma PushItemLowers(c: Config, s: State, p: nat)
    requires Inv(c, s) && Enabled(s, p) && s.procs[p].PushItem?
    ensures |Step(c, s, p).procs| == |s.procs|
    ensures Measure(Step(c, s, p)) <= Measure(s) && (!HeldUp(s) ==> Measure(Step(c, s, p)) < Measure(s))
  {
    hide Sum, Inv;
    PushTarget(c, s, p);
    var s' := Step(c, s, p);
    var q := c.n + s.procs[p].item;
    var mid := s.procs[p := Exch(s.procs[p].who)];
    var w := RankIn(s.head == |s.tickets|, s.st >= DONE, |s.tickets|);
    assert s'.procs == mid[q := InFlight];
    SumUpdate(s.procs, p, Exch(s.procs[p].who), Owed);
    SumUpdate(mid, q, InFlight, Owed);
    SumUpdate(s.procs, p, Exch(s.procs[p].who), w);
    SumUpdate(mid, q, InFlight, w);
    assert Major(s') == Major(s);
  }

  /** No step raises the measure, and every step lowers it that happens while the head ticket is
      not held up or that is itself one a producer or the announcer takes only once. */
  lemma StepDescends(c: Config, s: State, p: nat)
    requires Inv(c, s) && Enabled(s, p)
    ensures |Step(c, s, p).procs| == |s.procs|
    ensures Measure(Step(c, s, p)) <= Measure(s)
    ensures !HeldUp(s) || OnceOnly(s, p) ==> Measure(Step(c, s, p)) < Measure(s)
  {
    hide Inv, Step, Measure, HeldUp, Settles;
    if OnceOnly(s, p) {
      OnceOnlyStep(c, s, p);
      MajorLowers(s, Step(c, s, p));
    } else if s.procs[p].PushItem? {
      PushItemLowers(c, s, p);
    } else {
      var pc := s.procs[p];
      if pc.LoadFlag? || pc.CasFlag? || pc.Deq? || pc.LoadState? || pc.LateDeq? {
        PollingSettles(c, s, p);
      } else if Rechecks(pc) {
        ChecksSettle(c, s, p);
      } else if pc.InFlight? || pc.FreeSlot? || pc.SetActive? || pc.Exch? {
        PushingSettles(c, s, p);
      } else {
        EndingSettles(c, s, p);
      }
      Settling(s, Step(c, s, p), p);
    }
  }

  // ---------------------------------------------------------------- at most so many steps that are not waiting

  /** The steps of a run that start from a state whose head ticket is not held up. */
  function FreeSteps(run: seq<State>): nat {
    if |run| <= 1 then 0
    else FreeSteps(run[..|run| - 1]) + if HeldUp(run[|run| - 2]) then 0 else 1
  }

  lemma {:induction false} FreeStepsPaid(c: Config, run: seq<State>)
    requires Config?(c) && IsRun(c, run)
    ensures Measure(run[|run| - 1]) + FreeSteps(run) <= Measure(Init(c))
  {
    hide Inv, Init, Step, Measure, HeldUp;
    var k := |run| - 1;
    if k > 0 {
      var rest := run[..k];
      assert IsRun(c, rest) by {
        forall i | 0 < i < k ensures Next(c, rest[i - 1], rest[i]) {
          assert Next(c, run[i - 1], run[i]);
        }
      }
      FreeStepsPaid(c, rest);
      RunInv(c, run, k - 1);
      var p: nat :| StepsTo(c, run[k - 1], p, run[k]);
      StepDescends(c, run[k - 1], p);
    }
  }

  lemma InitMeasure(c: Config)
    requires Config?(c)
    ensures Measure(Init(c)) <= (4 * c.n + 3) * (54 * c.n + 28)
  {
    hide Sum;
    var s := Init(c);
    InitOwed(c.n, seq(c.n, _ => Enqueue), seq(c.n, _ => NotPushed));
    assert Major(s) == 4 * c.n + 2;
    MinorBounds(s);
  }

  lemma InitOwed(n: nat, a: seq<Pc>, b: seq<Pc>)
    requires |a| == |b| == n && (forall i :: 0 <= i < n ==> a[i] == Enqueue && b[i] == NotPushed)
    ensures Sum(a + b + [SetTotal], Owed) == 4 * n + 1
  {
    SumConcat(a, b, Owed);
    SumAppend(a + b, SetTotal, Owed);
    SumConstant(a, Owed, 4);
    SumConstant(b, Owed, 0);
  }

  /** In any run, however long, all but a bounded number of steps are taken while the drainer waits
      for a producer that has claimed the head ticket and not published it. */
  lemma FewFreeSteps(c: Config, run: seq<State>)
    requires Config?(c) && IsRun(c, run)
    ensures FreeSteps(run) <= (4 * c.n + 3) * (54 * c.n + 28)
  {
    hide Measure, FreeSteps;
    FreeStepsPaid(c, run);
    RunInv(c, run, |run| - 1);
    MeasureBounds(c, run[|run| - 1]);
    InitMeasure(c);
  }

  // ---------------------------------------------------------------- every run can be completed

  ghost predicate Path(c: Config, path: seq<State>) {
    |path| > 0 && forall i :: 0 < i < |path| ==> Next(c, path[i - 1], path[i])
  }

  lemma Prepend(c: Config, s: State, p: nat, path: seq<State>)
    requires Path(c, path) && StepsTo(c, s, p, path[0])
    ensures Path(c, [s] + path)
  {
    var r := [s] + path;
    forall i | 0 < i < |r| ensures Next(c, r[i - 1], r[i]) {
      if i > 1 {
        assert Next(c, path[i - 2], path[i - 1]);
      }
    }
  }

  lemma Follow(c: Config, run: seq<State>, path: seq<State>)
    requires IsRun(c, run) && Path(c, path) && path[0] == run[|run| - 1]
    ensures IsRun(c, run + path[1..])
    ensures (run + path[1..])[|run + path[1..]| - 1] == path[|path| - 1]
  {
    var r := run + path[1..];
    forall i | 0 < i < |r| ensures Next(c, r[i - 1], r[i]) {
      if i < |run| {
        assert Next(c, run[i - 1], run[i]);
      } else {
        assert Next(c, path[i - |run|], path[i - |run| + 1]);
      }
    }
  }

  /** A step that lowers the measure, by anybody but q: the producer everybody waits for, or
      whoever can move. */
  lemma Useful(c: Config, s: State, q: nat) returns (p: nat)
    requires Inv(c, s) && (q < |s.procs| ==> Rechecks(s.procs[q]))
    requires exists p: nat :: p != q && Enabled(s, p)
    ensures p != q && Enabled(s, p) && (!HeldUp(s) || OnceOnly(s, p))
  {
    if HeldUp(s) {
      hide Sum, Kinds, Items, Counting, Ending, Rights, Wakeup;
      p := s.tickets[s.head];
    } else {
      p :| p != q && Enabled(s, p);
    }
  }

  /** Nobody else's step moves a process that re-checks. */
  lemma LeavesAlone(c: Config, s: State, p: nat, q: nat)
    requires Inv(c, s) && Enabled(s, p) && q != p && q < |s.procs| && Rechecks(s.procs[q])
    ensures q < |Step(c, s, p).procs| && Step(c, s, p).procs[q] == s.procs[q]
  {
    hide Sum, Inv;
    if s.procs[p].PushItem? {
      PushTarget(c, s, p);
    }
  }

  /** From every state a path leads to one in which nobody can move: nobody at all, or nobody but
      a process q that is stopped in the middle of its re-check. */
  lemma {:induction false} Completes(c: Config, s: State, q: nat) returns (path: seq<State>)
    requires Inv(c, s) && (q < |s.procs| ==> Rechecks(s.procs[q]))
    ensures Path(c, path) && path[0] == s
    ensures var f := path[|path| - 1];
            && Inv(c, f) && |f.procs| == |s.procs| && (forall p: nat :: p != q ==> !Enabled(f, p))
            && (q < |s.procs| ==> f.procs[q] == s.procs[q])
    decreases Measure(s)
  {
    if exists p: nat :: p != q && Enabled(s, p) {
      var p := Useful(c, s, q);
      hide Inv, Step, Measure, HeldUp, OnceOnly, Rechecks, Enabled;
      StepKeepsInv(c, s, p);
      StepDescends(c, s, p);
      MeasureBounds(c, s);
      if q < |s.procs| {
        LeavesAlone(c, s, p, q);
      }
      path := Completes(c, Step(c, s, p), q);
      Prepend(c, s, p, path);
      path := [s] + path;
    } else {
      path := [s];
    }
  }

  /** push_done can never become impossible: every run can be continued to one that has delivered,
      in which nobody can move and everything that got into the cache was folded. */
  lemma CanAlwaysDeliver(c: Config, run: seq<State>)
    requires Config?(c) && IsRun(c, run)
    ensures exists more :: IsRun(c, run + more) && Delivered(c, (run + more)[|run + more| - 1])
  {
    hide Inv;
    RunInv(c, run, |run| - 1);
    var s := run[|run| - 1];
    var path := Completes(c, s, |s.procs|);
    Follow(c, run, path);
    var more := path[1..];
    var last := (run + more)[|run + more| - 1];
    forall p: nat ensures !Enabled(last, p) {
    }
    NoLostWakeup(c, run + more, |run + more| - 1);
  }

  ghost predicate Delivered(c: Config, s: State) {
    && s.dones == [s.tickets] && s.folded == s.tickets && |s.tickets| + |s.dropped| == c.n
    && forall p: nat :: !Enabled(s, p)
  }

  // ---------------------------------------------------------------- waiting for a producer can go on for ever

  lemma GoesIdle(c: Config, s: State, p: nat) returns (path: seq<State>)
    requires Enabled(s, p) && s.procs[p].Deq? && s.st == BUSY && HeldUp(s)
    ensures Path(c, path) && |path| == 4 && path[0] == s
    ensures path[3] == Goto(s, p, CheckEmpty(s.procs[p].who)).(st := IDLE)
  {
    hide CanDequeue;
    var who := s.procs[p].who;
    var s1 := Goto(s, p, LoadState(who));
    var s2 := Goto(s, p, CasIdle(BUSY, who));
    var s3 := Goto(s, p, CheckEmpty(who)).(st := IDLE);
    assert StepsTo(c, s, p, s1);
    assert StepsTo(c, s1, p, s2);
    assert StepsTo(c, s2, p, s3);
    hide StepsTo;
    path := [s3];
    Prepend(c, s2, p, path); path := [s2] + path;
    Prepend(c, s1, p, path); path := [s1] + path;
    Prepend(c, s, p, path); path := [s] + path;
  }

  lemma ComesBack(c: Config, s: State, p: nat) returns (path: seq<State>)
    requires Enabled(s, p) && s.procs[p].CheckEmpty? && s.st == IDLE && HeldUp(s)
    ensures Path(c, path) && |path| == 4 && path[0] == s
    ensures path[3] == Goto(s, p, Deq(s.procs[p].who)).(st := BUSY)
  {
    hide CanDequeue;
    var who := s.procs[p].who;
    var s1 := Goto(s, p, CheckTail(s.head, who));
    var s2 := Goto(s, p, CasBusy(who));
    var s3 := Goto(s, p, Deq(who)).(st := BUSY);
    assert StepsTo(c, s, p, s1);
    assert StepsTo(c, s1, p, s2);
    assert StepsTo(c, s2, p, s3);
    hide StepsTo;
    path := [s3];
    Prepend(c, s2, p, path); path := [s2] + path;
    Prepend(c, s1, p, path); path := [s1] + path;
    Prepend(c, s, p, path); path := [s] + path;
  }

  /** A drainer that finds the head ticket claimed but unpublished goes idle, sees a cache that is
      not empty, and takes the push right back: six steps lead to the same state again. */
  lemma Spins(c: Config, s: State, p: nat) returns (path: seq<State>)
    requires Enabled(s, p) && s.procs[p].Deq? && s.st == BUSY && HeldUp(s)
    ensures Path(c, path) && |path| == 7 && path[0] == s && path[6] == s
  {
    var a := GoesIdle(c, s, p);
    var b := ComesBack(c, a[3], p);
    assert b[3].procs == s.procs;
    path := a + b[1..];
    hide Next;
    forall i | 0 < i < 7 ensures Next(c, path[i - 1], path[i]) {
      if i < 4 {
        assert Next(c, a[i - 1], a[i]);
      } else {
        assert Next(c, b[i - 4], b[i - 3]);
      }
    }
  }

  lemma Extend(c: Config, run: seq<State>, p: nat, s: State)
    requires IsRun(c, run) && StepsTo(c, run[|run| - 1], p, s)
    ensures IsRun(c, run + [s])
  {
    assert Next(c, run[|run| - 1], s);
  }

  /** The first producer claims a ticket and stops; the second enqueues, or is refused. */
  lemma SecondArrives(c: Config) returns (run: seq<State>)
    requires Config?(c) && c.n >= 2 && c.capacity >= 1
    ensures IsRun(c, run)
    ensures var s := run[|run| - 1]; Enabled(s, 1) && s.procs[1] == TryBusy && s.st == IDLE && s.flag == 0 && HeldUp(s)
  {
    var s0 := Init(c);
    var s1 := Step(c, s0, 0);
    assert s1.tickets == [0] && s1.published == [false] && s1.procs[1] == Enqueue;
    var s2 := Step(c, s1, 1);
    var s3 := Step(c, s2, 1);
    assert c.capacity == 1 ==> HeldUp(s2) && s2.procs[1] == TryBusy;
    assert c.capacity > 1 ==> HeldUp(s3) && s3.procs[1] == TryBusy;
    hide Init, Step, HeldUp;
    run := [s0];
    Extend(c, run, 0, s1); run := run + [s1];
    Extend(c, run, 1, s2); run := run + [s2];
    if c.capacity > 1 {
      Extend(c, run, 1, s3); run := run + [s3];
    }
  }

  /** It takes the push right and looks at the cache. */
  lemma StartsSpinning(c: Config) returns (run: seq<State>)
    requires Config?(c) && c.n >= 2 && c.capacity >= 1
    ensures IsRun(c, run)
    ensures var s := run[|run| - 1]; Enabled(s, 1) && s.procs[1].Deq? && s.st == BUSY && HeldUp(s)
  {
    run := SecondArrives(c);
    var s := run[|run| - 1];
    var s1 := Goto(s, 1, LoadFlag(Producer)).(st := BUSY);
    var s2 := Goto(s1, 1, Deq(Producer));
    assert StepsTo(c, s, 1, s1);
    assert StepsTo(c, s1, 1, s2);
    hide StepsTo, IsRun;
    Extend(c, run, 1, s1); run := run + [s1];
    Extend(c, run, 1, s2); run := run + [s2];
  }

  lemma {:induction false} KeepsSpinning(c: Config, run: seq<State>, rounds: nat) returns (longer: seq<State>)
    requires IsRun(c, run)
    requires var s := run[|run| - 1]; Enabled(s, 1) && s.procs[1].Deq? && s.st == BUSY && HeldUp(s)
    ensures IsRun(c, longer) && |longer| >= |run| + rounds
    decreases rounds
  {
    longer := run;
    if rounds > 0 {
      var path := Spins(c, run[|run| - 1], 1);
      Follow(c, run, path);
      longer := KeepsSpinning(c, run + path[1..], rounds - 1);
    }
  }

  // ---------------------------------------------------------------- after the last push_done

  /** The counter's hit comes after the state word was set to DONE, so whoever drains on its behalf
      finds DONE and never goes idle. */
  predicate LateOk(st: nat, pc: Pc) {
    (Caller(pc) == Last || Caller(pc) == Stream) && !pc.SetTotal? && !pc.PushDone? && !pc.Over? ==>
      st >= DONE && !pc.CasIdle? && !Rechecks(pc)
  }

  predicate Late(s: State) {
    forall p :: 0 <= p < |s.procs| ==> LateOk(s.st, s.procs[p])
  }

  predicate StaysLate(s: State, s': State, p: nat)
    requires p < |s.procs|
  {
    && |s'.procs| == |s.procs| && (s.st >= DONE ==> s'.st >= DONE)
    && LateOk(s'.st, s'.procs[p])
    && (!s.procs[p].PushItem? ==> s'.procs == s.procs[p := s'.procs[p]])
  }

  lemma LateOuter(c: Config, s: State, p: nat)
    requires Inv(c, s) && Enabled(s, p) && LateOk(s.st, s.procs[p]) && OuterStep?(s.procs[p])
    ensures StaysLate(s, Step(c, s, p), p)
  {
    hide Inv, C.AddDoneWord, C.AddDoneHits, C.SetTotalWord, C.SetTotalHits, StepDrain;
  }

  lemma LateDrain(c: Config, s: State, p: nat)
    requires Enabled(s, p) && LateOk(s.st, s.procs[p]) && !OuterStep?(s.procs[p])
    requires var pc := s.procs[p]; !pc.PushItem? && !pc.CasIdle? && !Rechecks(pc)
    ensures StaysLate(s, Step(c, s, p), p)
  {
    hide StepOuter, CanDequeue, IsActive, IsRequested;
    if s.procs[p].Deq? || s.procs[p].LateDeq? {
      LateDequeue(c, s, p);
    } else {
      hide Dequeue;
    }
  }

  lemma LateDequeue(c: Config, s: State, p: nat)
    requires Enabled(s, p) && LateOk(s.st, s.procs[p]) && (s.procs[p].Deq? || s.procs[p].LateDeq?)
    ensures StaysLate(s, Step(c, s, p), p)
  {
    hide StepOuter, CanDequeue;
  }

  lemma LateRecheck(c: Config, s: State, p: nat)
    requires Inv(c, s) && Enabled(s, p) && LateOk(s.st, s.procs[p]) && (s.procs[p].CasIdle? || Rechecks(s.procs[p]))
    ensures StaysLate(s, Step(c, s, p), p)
  {
    hide Inv, StepOuter, CanDequeue, CountAll, Right, AtLeast;
    Here(c, s, p);
  }

  lemma LatePush(c: Config, s: State, p: nat)
    requires Inv(c, s) && Enabled(s, p) && LateOk(s.st, s.procs[p]) && s.procs[p].PushItem?
    ensures StaysLate(s, Step(c, s, p), p)
  {
    hide Inv, StepOuter;
    PushTarget(c, s, p);
  }

  lemma LateOthers(st: nat, st': nat, pc: Pc)
    requires LateOk(st, pc) && (st >= DONE ==> st' >= DONE)
    ensures LateOk(st', pc) && LateOk(st', InFlight)
  {
  }

  lemma LateStep(c: Config, s: State, p: nat)
    requires Inv(c, s) && Enabled(s, p) && Late(s)
    ensures Late(Step(c, s, p))
  {
    hide Inv, LateOk, StepOuter;
    var s' := Step(c, s, p);
    if OuterStep?(s.procs[p]) {
      LateOuter(c, s, p);
    } else if s.procs[p].CasIdle? || Rechecks(s.procs[p]) {
      LateRecheck(c, s, p);
    } else if !s.procs[p].PushItem? {
      LateDrain(c, s, p);
    } else {
      LatePush(c, s, p);
      PushTarget(c, s, p);
    }
    forall q | 0 <= q < |s'.procs| ensures LateOk(s'.st, s'.procs[q]) {
      LateOthers(s.st, s'.st, s.procs[q]);
    }
  }

  lemma {:induction false} RunLate(c: Config, run: seq<State>, k: nat)
    requires Config?(c) && IsRun(c, run) && k < |run|
    ensures Inv(c, run[k]) && Late(run[k])
  {
    hide Inv, Step;
    RunInv(c, run, k);
    if k > 0 {
      hide LateOk;
      RunLate(c, run, k - 1);
      var p: nat :| StepsTo(c, run[k - 1], p, run[k]);
      LateStep(c, run[k - 1], p);
    }
  }

  /** Once push_done has gone downstream, whoever can still move is a downstream completion on the
      way from the exchange that made the machine idle to its re-check of cache and state word.
      The stream's scope may be gone by then. */
  lemma OnlyRecheckersRemain(c: Config, run: seq<State>, k: nat, p: nat)
    requires Config?(c) && IsRun(c, run) && k < |run|
    requires run[k].dones != [] && Enabled(run[k], p)
    ensures c.n <= p < 2 * c.n && Rechecks(run[k].procs[p]) && Caller(run[k].procs[p]) == Poller
  {
    hide Sum, Hi, Lo, Facts, Items, Queue, Wakeup, IsRun;
    var s := run[k];
    RunLate(c, run, k);
    DoneOnce(c, run, k);
    NoRightWhenIdle(c, s);
    CountBounds(s.procs, p);
    NoneProducing(s.procs);
    assert LateOk(s.st, s.procs[p]);
  }

  /** So the step that delivers is the last access of all exactly if nobody is re-checking then. */
  lemma LastAccessIff(c: Config, run: seq<State>, p: nat)
    requires Config?(c) && IsRun(c, run) && Enabled(run[|run| - 1], p) && run[|run| - 1].procs[p].Finish?
    ensures var s := run[|run| - 1];
            (forall q: nat :: !Enabled(Step(c, s, p), q)) <==> forall q :: 0 <= q < |s.procs| ==> !Rechecks(s.procs[q])
  {
    var s := run[|run| - 1];
    var s' := Step(c, s, p);
    assert s'.procs == s.procs[p := Return(s.procs[p].who)] && s'.dones != [];
    Extend(c, run, p, s');
    hide IsRun, Step;
    forall q: nat | Enabled(s', q) ensures q < |s.procs| && Rechecks(s.procs[q]) {
      OnlyRecheckersRemain(c, run + [s'], |run|, q);
    }
    forall q | 0 <= q < |s.procs| && Rechecks(s.procs[q]) ensures Enabled(s', q) {
    }
  }

  // ---------------------------------------------------------------- streams with bounded runs

  /** Without room for a ticket, or without a producer, the cache stays empty. */
  lemma {:induction false} NoTickets(c: Config, run: seq<State>, k: nat)
    requires Config?(c) && IsRun(c, run) && k < |run| && (c.n == 0 || c.capacity == 0)
    ensures run[k].tickets == []
  {
    hide Sum, Kinds, Facts, Items, Counting, Rights, Wakeup, Ending;
    if k > 0 {
      NoTickets(c, run, k - 1);
      RunInv(c, run, k - 1);
      var p: nat :| StepsTo(c, run[k - 1], p, run[k]);
      NothingClaimed(c, run[k - 1], p);
    }
  }

  lemma NothingClaimed(c: Config, s: State, p: nat)
    requires Inv(c, s) && Enabled(s, p) && s.tickets == [] && (c.n == 0 || c.capacity == 0)
    ensures Step(c, s, p).tickets == []
  {
    hide Sum, Counting, Rights, Wakeup, Ending, CanDequeue;
    CountBounds(s.procs, p);
  }

  lemma NeverWaits(c: Config, run: seq<State>, k: nat)
    requires Config?(c) && IsRun(c, run) && k < |run| && (c.n == 0 || c.capacity == 0)
    ensures !HeldUp(run[k])
    ensures forall p :: c.n <= p < 2 * c.n && p < |run[k].procs| ==> !Rechecks(run[k].procs[p])
  {
    hide Sum, Facts, Counting, Rights, Wakeup, Ending, IsRun;
    RunInv(c, run, k);
    NoTickets(c, run, k);
    CountBounds(run[k].procs, 0);
    assert run[k].folded == [];
  }

  /** With one producer, who is itself at fault, nobody else is there to wait for it. */
  lemma NobodyWaits(c: Config, s: State, p: nat)
    requires Inv(c, s) && Late(s) && Enabled(s, p) && HeldUp(s) && c.n == 1
    ensures OnceOnly(s, p)
  {
    hide Sum, Hi, Lo, Rights, Wakeup, Ending;
    CountBounds(s.procs, p);
    assert s.procs[0] == Publish(s.head);
    assert LateOk(s.st, s.procs[p]);
    if s.st >= DONE {
      NoneProducing(s.procs);
    }
  }

  lemma {:induction false} ShortRun(c: Config, run: seq<State>)
    requires Config?(c) && IsRun(c, run) && (c.n <= 1 || c.capacity == 0)
    ensures Measure(run[|run| - 1]) + |run| <= Measure(Init(c)) + 1
  {
    hide Inv, Init, Step, Measure, HeldUp, Late, OnceOnly;
    var k := |run| - 1;
    if k > 0 {
      var rest := run[..k];
      assert IsRun(c, rest) by {
        forall i | 0 < i < k ensures Next(c, rest[i - 1], rest[i]) {
          assert Next(c, run[i - 1], run[i]);
        }
      }
      ShortRun(c, rest);
      RunLate(c, run, k - 1);
      var p: nat :| StepsTo(c, run[k - 1], p, run[k]);
      StepDescends(c, run[k - 1], p);
      if HeldUp(run[k - 1]) {
        if c.n == 1 {
          NobodyWaits(c, run[k - 1], p);
        } else {
          NeverWaits(c, run, k - 1);
        }
      }
    }
  }

  ghost predicate NoLonger(c: Config, bound: nat) {
    forall run: seq<State> :: IsRun(c, run) ==> |run| <= bound
  }

  /** The lengths of runs are bounded exactly when there are no two producers or there is no room:
      with two, one can be waited for as long as it likes. */
  lemma BoundedIff(c: Config)
    requires Config?(c)
    ensures (exists bound: nat :: NoLonger(c, bound)) <==> c.n < 2 || c.capacity == 0
  {
    hide Measure;
    if c.n < 2 || c.capacity == 0 {
      InitInv(c);
      MeasureBounds(c, Init(c));
      var bound: nat := Measure(Init(c)) + 1;
      forall run: seq<State> | IsRun(c, run) ensures |run| <= bound {
        ShortRun(c, run);
        RunInv(c, run, |run| - 1);
        MeasureBounds(c, run[|run| - 1]);
      }
      assert NoLonger(c, bound);
    } else {
      forall bound: nat ensures !NoLonger(c, bound) {
        var run := StartsSpinning(c);
        var longer := KeepsSpinning(c, run, bound);
      }
    }
  }

  // ---------------------------------------------------------------- streams whose delivery is the last access

  /** The first producer at a, the first completion at b, ticket 0 claimed. */
  function Solo(c: Config, flag: nat, st: nat, published: bool, head: nat, freed: nat, folded: seq<nat>, a: Pc, b: Pc): State
    requires c.n >= 1
  {
    State(flag, st, 0, [0], [published], head, freed, Init(c).procs[0 := a][c.n := b], [], folded, [])
  }

  /** It enqueues and takes the push right. */
  lemma TakesRight(c: Config) returns (run: seq<State>)
    requires c.n >= 1 && c.capacity >= 1
    ensures IsRun(c, run)
    ensures run[|run| - 1] == Solo(c, 0, BUSY, true, 0, 0, [], Deq(Producer), NotPushed)
  {
    var s0 := Init(c);
    var s1 := Solo(c, 0, IDLE, false, 0, 0, [], Publish(0), NotPushed);
    var s2 := Solo(c, 0, IDLE, true, 0, 0, [], TryBusy, NotPushed);
    var s3 := Solo(c, 0, BUSY, true, 0, 0, [], LoadFlag(Producer), NotPushed);
    var s4 := Solo(c, 0, BUSY, true, 0, 0, [], Deq(Producer), NotPushed);
    assert StepsTo(c, s0, 0, s1) by { assert s1.procs == s0.procs[0 := Publish(0)]; }
    assert StepsTo(c, s1, 0, s2) by { assert s2.procs == s1.procs[0 := TryBusy]; }
    assert StepsTo(c, s2, 0, s3) by { assert s3.procs == s2.procs[0 := LoadFlag(Producer)]; }
    assert StepsTo(c, s3, 0, s4) by { assert s4.procs == s3.procs[0 := Deq(Producer)]; }
    hide StepsTo, Solo, Init;
    run := [s0];
    Extend(c, run, 0, s1); run := run + [s1];
    Extend(c, run, 0, s2); run := run + [s2];
    Extend(c, run, 0, s3); run := run + [s3];
    Extend(c, run, 0, s4); run := run + [s4];
  }

  /** It drains its own item and hands it over. */
  lemma HandsOver(c: Config) returns (run: seq<State>)
    requires c.n >= 1 && c.capacity >= 1
    ensures IsRun(c, run)
    ensures run[|run| - 1] == Solo(c, ACTIVE, BUSY, true, 1, 1, [], Exch(Producer), InFlight)
  {
    run := TakesRight(c);
    var s0 := run[|run| - 1];
    var s1 := Solo(c, 0, BUSY, true, 1, 0, [], FreeSlot(0, Producer), NotPushed);
    var s2 := Solo(c, 0, BUSY, true, 1, 1, [], SetActive(0, Producer), NotPushed);
    var s3 := Solo(c, ACTIVE, BUSY, true, 1, 1, [], PushItem(0, Producer), NotPushed);
    var s4 := Solo(c, ACTIVE, BUSY, true, 1, 1, [], Exch(Producer), InFlight);
    assert StepsTo(c, s0, 0, s1) by { assert s1.procs == s0.procs[0 := FreeSlot(0, Producer)]; }
    assert StepsTo(c, s1, 0, s2) by { assert s2.procs == s1.procs[0 := SetActive(0, Producer)]; }
    assert StepsTo(c, s2, 0, s3) by { assert s3.procs == s2.procs[0 := PushItem(0, Producer)]; }
    assert StepsTo(c, s3, 0, s4) by { assert s4.procs == s3.procs[0 := Exch(Producer)][c.n := InFlight]; }
    hide StepsTo, Solo, IsRun;
    Extend(c, run, 0, s1); run := run + [s1];
    Extend(c, run, 0, s2); run := run + [s2];
    Extend(c, run, 0, s3); run := run + [s3];
    Extend(c, run, 0, s4); run := run + [s4];
  }

  /** The completion takes the right over, finds the cache empty and makes the machine idle. */
  lemma GivesUp(c: Config) returns (run: seq<State>)
    requires c.n >= 1 && c.capacity >= 1
    ensures IsRun(c, run)
    ensures run[|run| - 1] == Solo(c, 0, IDLE, true, 1, 1, [0], AddDone, CheckEmpty(Poller))
  {
    run := HandsOver(c);
    var s0 := run[|run| - 1];
    var s1 := Solo(c, 0, BUSY, true, 1, 1, [], AddDone, InFlight);
    var s2 := Solo(c, 0, BUSY, true, 1, 1, [0], AddDone, LoadFlag(Poller));
    var s3 := Solo(c, 0, BUSY, true, 1, 1, [0], AddDone, Deq(Poller));
    var s4 := Solo(c, 0, BUSY, true, 1, 1, [0], AddDone, LoadState(Poller));
    var s5 := Solo(c, 0, BUSY, true, 1, 1, [0], AddDone, CasIdle(BUSY, Poller));
    var s6 := Solo(c, 0, IDLE, true, 1, 1, [0], AddDone, CheckEmpty(Poller));
    assert StepsTo(c, s0, 0, s1) by { assert s1.procs == s0.procs[0 := AddDone]; }
    assert StepsTo(c, s1, c.n, s2) by { assert s2.procs == s1.procs[c.n := LoadFlag(Poller)]; }
    assert StepsTo(c, s2, c.n, s3) by { assert s3.procs == s2.procs[c.n := Deq(Poller)]; }
    assert StepsTo(c, s3, c.n, s4) by { assert s4.procs == s3.procs[c.n := LoadState(Poller)]; }
    assert StepsTo(c, s4, c.n, s5) by { assert s5.procs == s4.procs[c.n := CasIdle(BUSY, Poller)]; }
    assert StepsTo(c, s5, c.n, s6) by { assert s6.procs == s5.procs[c.n := CheckEmpty(Poller)]; }
    hide StepsTo, Solo, IsRun;
    Extend(c, run, 0, s1); run := run + [s1];
    Extend(c, run, c.n, s2); run := run + [s2];
    Extend(c, run, c.n, s3); run := run + [s3];
    Extend(c, run, c.n, s4); run := run + [s4];
    Extend(c, run, c.n, s5); run := run + [s5];
    Extend(c, run, c.n, s6); run := run + [s6];
  }

  lemma StoppedBut(c: Config, s: State, q: nat)
    requires Inv(c, s) && q < |s.procs| && Rechecks(s.procs[q]) && Caller(s.procs[q]) == Poller
    requires forall p: nat :: p != q ==> !Enabled(s, p)
    ensures s.st == TERMINAL && |s.dones| == 1
  {
    hide Sum, Hi, Lo, Facts, Queue;
    forall p | 0 <= p < |s.procs| ensures s.procs[p].NotPushed? || s.procs[p].Over? || p == q {
      assert p != q ==> !Enabled(s, p);
    }
    SumConstant(s.procs, Right, 0);
    SumConstant(s.procs, Active, 0);
    SumConstant(s.procs, AtDone, 0);
    SumConstant(s.procs, Finishing, 0);
    SumConstant(s.procs, Silent, 0);
    SumConstant(s.procs, Undone, 0);
  }

  /** Let that completion stop there while everybody else goes on to the end. */
  lemma DeliveredTooEarly(c: Config) returns (run: seq<State>)
    requires Config?(c) && c.n >= 1 && c.capacity >= 1
    ensures IsRun(c, run)
    ensures var s := run[|run| - 1]; s.dones != [] && Enabled(s, c.n) && s.procs[c.n] == CheckEmpty(Poller)
  {
    hide Inv, StepsTo;
    run := GivesUp(c);
    RunInv(c, run, |run| - 1);
    var path := Completes(c, run[|run| - 1], c.n);
    Follow(c, run, path);
    StoppedBut(c, path[|path| - 1], c.n);
    run := run + path[1..];
  }

  ghost predicate DeliveryIsLast(c: Config) {
    forall run: seq<State>, k: nat, p: nat :: IsRun(c, run) && k < |run| && run[k].dones != [] ==> !Enabled(run[k], p)
  }

  /** Delivery is the last access on every run exactly if no item ever goes downstream. */
  lemma DeliveryIsLastIff(c: Config)
    requires Config?(c)
    ensures DeliveryIsLast(c) <==> c.n == 0 || c.capacity == 0
  {
    if c.n == 0 || c.capacity == 0 {
      forall run: seq<State>, k: nat, p: nat | IsRun(c, run) && k < |run| && run[k].dones != []
        ensures !Enabled(run[k], p)
      {
        if Enabled(run[k], p) {
          OnlyRecheckersRemain(c, run, k, p);
          NeverWaits(c, run, k);
        }
      }
    } else {
      var run := DeliveredTooEarly(c);
    }
  }
}
