/** when_any: branches race to set FINISHED; the winner stores its result and whichever comes last
    of READY and SUBMITTED pushes it; the last reference deletes the wrapper.

    A machine with one process for every branch and one for the starter; every atomic access and
    every write of a field is a step. A branch that completes synchronously inside its submission
    is one whose steps happen to fall before the starter's next. Memory is sequentially consistent. */
module RaceWrapper {
  import opened Options
  import opened PackedWords
  import opened Sums

  const FINISHED: nat := 0x8000_0000_0000_0000
  const READY: nat := 0x4000_0000_0000_0000
  const SUBMITTED: nat := 0x2000_0000_0000_0000

  /** How a branch ends. */
  datatype Signal = SetValue(value: int) | SetError(error: int) | SetDone | SetSkip

  /** The result variant: alternative 0, 1 or 2. */
  datatype Result = Monostate | Exception(error: int) | Value(value: int)

  function Stored(signal: Signal): Result {
    match signal
    case SetValue(v) => Value(v)
    case SetError(e) => Exception(e)
    case SetDone => Monostate
    case SetSkip => Monostate
  }

  datatype Pc =
    // a branch
    | NotStarted | Racing | StoreIndex | StoreResult | SignalReady
    // the starter: submit_senders<i>, then complete_submit
    | Submit(i: nat) | CompleteSubmit
    // either of them: push_to_parent, its return, release_ref, delete
    | Push | Pushing | Release | Delete | Finished

  /** `pushed` (what the parent got) and `deletes` are history. Process i is branch i, and the
      last process is the starter. */
  datatype State = State(
    word: uint64, winnerIndex: nat, result: Result, procs: seq<Pc>,
    pushed: seq<(nat, Result)>, deletes: nat)

  datatype Config = Config(signals: seq<Signal>)

  predicate Config?(c: Config) { 0 < |c.signals| && |c.signals| + 1 < SUBMITTED }

  function Branches(c: Config): nat { |c.signals| }

  function Init(c: Config): State
    requires Config?(c)
  {
    State(Branches(c) + 1, 0, Monostate, seq(Branches(c), _ => NotStarted) + [Submit(0)], [], 0)
  }

  function HasBit(word: uint64, bit: nat): bool
    requires bit > 0
  {
    (word / bit) % 2 == 1
  }

  function FetchOr(word: uint64, bit: nat): uint64
    requires bit == FINISHED || bit == READY || bit == SUBMITTED
  {
    if HasBit(word, bit) then word else (word + bit) % W64
  }

  function FetchSub(word: uint64): uint64 { (word - 1) % W64 }

  /** The count under REF_MASK. */
  function RefCount(word: uint64): nat { word % SUBMITTED }

  predicate Enabled(c: Config, s: State, p: nat) {
    && p < |s.procs| == Branches(c) + 1
    && !s.procs[p].NotStarted? && !s.procs[p].Finished?
    && (s.procs[p].Submit? ==> s.procs[p].i < Branches(c))
    && (p == Branches(c) ==> !s.procs[p].Racing? && !s.procs[p].StoreResult?)
  }

  function Goto(s: State, p: nat, pc: Pc): State
    requires p < |s.procs|
  {
    s.(procs := s.procs[p := pc])
  }

  function Step(c: Config, s: State, p: nat): State
    requires Enabled(c, s, p)
  {
    match s.procs[p]
    case Racing =>
      Goto(s, p, if HasBit(s.word, FINISHED) then Release else StoreIndex).(word := FetchOr(s.word, FINISHED))
    case StoreIndex => Goto(s, p, StoreResult).(winnerIndex := p)
    case StoreResult => Goto(s, p, SignalReady).(result := Stored(c.signals[p]))
    case SignalReady =>
      Goto(s, p, if HasBit(s.word, SUBMITTED) then Push else Release).(word := FetchOr(s.word, READY))
    case Submit(i) =>
      Goto(Goto(s, i, Racing), p, if i + 1 < Branches(c) then Submit(i + 1) else CompleteSubmit)
    case CompleteSubmit =>
      Goto(s, p, if HasBit(s.word, READY) then Push else Release).(word := FetchOr(s.word, SUBMITTED))
    case Push => Goto(s, p, Pushing).(pushed := s.pushed + [(s.winnerIndex, s.result)])
    case Pushing => Goto(s, p, Release)
    case Release =>
      Goto(s, p, if RefCount(s.word) == 1 then Delete else Finished).(word := FetchSub(s.word))
    case Delete => Goto(s, p, Finished).(deletes := s.deletes + 1)
    case _ => s
  }

  predicate StepsTo(c: Config, s: State, p: nat, s': State) {
    Enabled(c, s, p) && s' == Step(c, s, p)
  }

  ghost predicate Next(c: Config, s: State, s': State) {
    exists p: nat :: StepsTo(c, s, p, s')
  }

  ghost predicate IsRun(c: Config, run: seq<State>)
    requires Config?(c)
  {
    && |run| > 0
    && run[0] == Init(c)
    && forall i :: 0 < i < |run| ==> Next(c, run[i - 1], run[i])
  }

  // ---------------------------------------------------------------- the word

  function Bit(b: bool): nat { if b then 1 else 0 }

  /** Three flags, each 0 or 1, and the count. */
  function Word(finished: nat, ready: nat, submitted: nat, refs: nat): nat {
    finished * FINISHED + ready * READY + submitted * SUBMITTED + refs
  }

  /** The flags are the digits above the count. */
  lemma WordDigits(word: uint64, finished: nat, ready: nat, submitted: nat, refs: nat)
    requires word == Word(finished, ready, submitted, refs) && refs < SUBMITTED
    requires finished <= 1 && ready <= 1 && submitted <= 1
    ensures word / SUBMITTED == 4 * finished + 2 * ready + submitted
    ensures word / READY == 2 * finished + ready && word / FINISHED == finished
    ensures RefCount(word) == refs
  {
  }

  lemma WordBits(word: uint64, finished: nat, ready: nat, submitted: nat, refs: nat)
    requires word == Word(finished, ready, submitted, refs) && refs < SUBMITTED
    requires finished <= 1 && ready <= 1 && submitted <= 1
    ensures HasBit(word, FINISHED) == (finished == 1) && HasBit(word, READY) == (ready == 1)
    ensures HasBit(word, SUBMITTED) == (submitted == 1) && RefCount(word) == refs
  {
    hide RefCount, Word;
    WordDigits(word, finished, ready, submitted, refs);
  }

  /** Three flags and a count share one word without disturbing each other. */
  lemma WordMeaning(word: uint64, finished: nat, ready: nat, submitted: nat, refs: nat)
    requires word == Word(finished, ready, submitted, refs) && refs < SUBMITTED
    requires finished <= 1 && ready <= 1 && submitted <= 1
    ensures HasBit(word, FINISHED) == (finished == 1) && HasBit(word, READY) == (ready == 1)
    ensures HasBit(word, SUBMITTED) == (submitted == 1) && RefCount(word) == refs
    ensures FetchOr(word, FINISHED) == Word(1, ready, submitted, refs)
    ensures FetchOr(word, READY) == Word(finished, 1, submitted, refs)
    ensures FetchOr(word, SUBMITTED) == Word(finished, ready, 1, refs)
    ensures refs > 0 ==> FetchSub(word) == Word(finished, ready, submitted, refs - 1)
  {
    hide HasBit, RefCount;
    WordBits(word, finished, ready, submitted, refs);
  }

  // ---------------------------------------------------------------- the invariant

  /** The process still owns one of the wrapper's references. */
  function Holds(pc: Pc): int { if pc.Delete? || pc.Finished? then 0 else 1 }
  function Deleting(pc: Pc): int { if pc.Delete? then 1 else 0 }

  /** Before its fetch_or(FINISHED). */
  predicate Before(pc: Pc) { pc.NotStarted? || pc.Racing? }
  predicate AtStore(pc: Pc) { pc.StoreIndex? || pc.StoreResult? || pc.SignalReady? }
  predicate AtEnd(pc: Pc) { pc.Release? || pc.Delete? || pc.Finished? }
  predicate AtPush(pc: Pc) { pc.Push? || pc.Pushing? }

  predicate Finisher(procs: seq<Pc>, branches: nat, finished: bool)
    requires branches <= |procs|
  {
    forall k :: 0 <= k < branches ==> (finished || Before(procs[k]))
  }

  /** Every branch but the winner has nothing to do but release its reference. */
  predicate Losers(procs: seq<Pc>, branches: nat, winner: nat)
    requires branches <= |procs|
  {
    forall k :: 0 <= k < branches && k != winner ==> Before(procs[k]) || AtEnd(procs[k])
  }

  predicate NotYetStarted(procs: seq<Pc>, branches: nat, submitted: nat)
    requires branches <= |procs|
  {
    forall k :: 0 <= k < branches ==> (procs[k].NotStarted? <==> submitted <= k)
  }

  function SubmittedSoFar(starter: Pc, branches: nat): nat {
    if starter.Submit? then starter.i else branches
  }

  /** What the winner has written so far. */
  predicate WinnerWrote(pc: Pc, winner: nat, signal: Signal, winnerIndex: nat, result: Result) {
    && (AtStore(pc) || AtPush(pc) || AtEnd(pc))
    && (!pc.StoreIndex? ==> winnerIndex == winner)
    && (!pc.StoreIndex? && !pc.StoreResult? ==> result == Stored(signal))
  }

  function WinnerPc(procs: seq<Pc>, winner: Option<nat>): Option<Pc> {
    if winner.Some? && winner.value < |procs| then Some(procs[winner.value]) else None
  }

  function IsFinished(winner: Option<Pc>): nat { if winner.Some? then 1 else 0 }
  function IsReady(winner: Option<Pc>): nat { if winner.Some? && !AtStore(winner.value) then 1 else 0 }
  function IsSubmitted(starter: Pc): nat { if starter.Submit? || starter.CompleteSubmit? then 0 else 1 }

  /** Whose the push is: after both READY and SUBMITTED it has been made, or exactly one of the
      two is about to make it. */
  predicate PushRight(starter: Pc, winner: Option<Pc>, pushed: nat) {
    && (AtPush(starter) ==> IsReady(winner) == 1)
    && (winner.Some? && AtPush(winner.value) ==> IsSubmitted(starter) == 1)
    && Bit(starter.Push?) + Bit(winner.Some? && winner.value.Push?) + pushed
       == (if IsSubmitted(starter) == 1 && IsReady(winner) == 1 then 1 else 0)
    && (starter.Pushing? || (winner.Some? && winner.value.Pushing?) ==> pushed == 1)
  }

  predicate Shape(c: Config, s: State) {
    && |s.procs| == Branches(c) + 1
    && var starter := s.procs[Branches(c)];
       (starter.Submit? ==> starter.i < Branches(c))
       && (starter.Submit? || starter.CompleteSubmit? || AtPush(starter) || AtEnd(starter))
  }

  ghost predicate Inv(c: Config, s: State, winner: Option<nat>, refs: nat) {
    && Config?(c) && Shape(c, s)
    && var n := Branches(c);
    && (winner.Some? ==> winner.value < n)
    && var starter := s.procs[n];
    && var winnerPc := WinnerPc(s.procs, winner);
    && s.word == Word(IsFinished(winnerPc), IsReady(winnerPc), IsSubmitted(starter), refs)
    && refs == Sum(s.procs, Holds) <= n + 1
    && s.deletes + Sum(s.procs, Deleting) == Bit(refs == 0)
    && Finisher(s.procs, n, winner.Some?)
    && (winner.Some? ==> Losers(s.procs, n, winner.value))
    && NotYetStarted(s.procs, n, SubmittedSoFar(starter, n))
    && (winner.Some? ==>
          WinnerWrote(s.procs[winner.value], winner.value, c.signals[winner.value], s.winnerIndex, s.result))
    && PushRight(starter, winnerPc, |s.pushed|)
    && (forall k :: 0 <= k < |s.pushed| ==>
          winner.Some? && s.pushed[k] == (winner.value, Stored(c.signals[winner.value])))
  }

  /** Who has won after p's step. */
  function WinnerAfter(s: State, p: nat, winner: Option<nat>): Option<nat>
    requires p < |s.procs|
  {
    if s.procs[p].Racing? && winner.None? then Some(p) else winner
  }

  function RefsAfter(s: State, p: nat, refs: nat): int
    requires p < |s.procs|
  {
    if s.procs[p].Release? then refs - 1 else refs
  }

  lemma Counts(s: State, p: nat, pc: Pc)
    requires p < |s.procs|
    ensures Sum(s.procs[p := pc], Holds) == Sum(s.procs, Holds) - Holds(s.procs[p]) + Holds(pc)
    ensures Sum(s.procs[p := pc], Deleting) == Sum(s.procs, Deleting) - Deleting(s.procs[p]) + Deleting(pc)
    ensures Holds(s.procs[p]) <= Sum(s.procs, Holds)
    ensures Deleting(s.procs[p]) <= Sum(s.procs, Deleting)
  {
    SumUpdate(s.procs, p, pc, Holds);
    SumUpdate(s.procs, p, pc, Deleting);
    SumAtLeast(s.procs, p, Holds);
    SumAtLeast(s.procs, p, Deleting);
  }

  /** The word of a state that satisfies the invariant, decoded. */
  lemma Decoded(c: Config, s: State, winner: Option<nat>, refs: nat)
    requires Inv(c, s, winner, refs)
    ensures var w := WinnerPc(s.procs, winner);
            var f, r, b := IsFinished(w), IsReady(w), IsSubmitted(s.procs[Branches(c)]);
            && HasBit(s.word, FINISHED) == (f == 1) && HasBit(s.word, READY) == (r == 1)
            && HasBit(s.word, SUBMITTED) == (b == 1) && RefCount(s.word) == refs
            && FetchOr(s.word, FINISHED) == Word(1, r, b, refs)
            && FetchOr(s.word, READY) == Word(f, 1, b, refs)
            && FetchOr(s.word, SUBMITTED) == Word(f, r, 1, refs)
            && (refs > 0 ==> FetchSub(s.word) == Word(f, r, b, refs - 1))
  {
    hide Sum, Word, HasBit, FetchOr, FetchSub, RefCount, Finisher, Losers, NotYetStarted, WinnerWrote, PushRight;
    var w := WinnerPc(s.procs, winner);
    WordMeaning(s.word, IsFinished(w), IsReady(w), IsSubmitted(s.procs[Branches(c)]), refs);
  }

  lemma FinishStep(c: Config, s: State, winner: Option<nat>, refs: nat, p: nat)
    requires Inv(c, s, winner, refs) && Enabled(c, s, p) && s.procs[p].Racing?
    ensures RefsAfter(s, p, refs) >= 0
    ensures Inv(c, Step(c, s, p), WinnerAfter(s, p, winner), RefsAfter(s, p, refs))
  {
    hide Sum, Word, HasBit, FetchOr, FetchSub, RefCount;
    Decoded(c, s, winner, refs);
    Counts(s, p, Step(c, s, p).procs[p]);
    assert RefsAfter(s, p, refs) == refs;
  }

  lemma StoreStep(c: Config, s: State, winner: Option<nat>, refs: nat, p: nat)
    requires Inv(c, s, winner, refs) && Enabled(c, s, p) && (s.procs[p].StoreIndex? || s.procs[p].StoreResult?)
    ensures RefsAfter(s, p, refs) >= 0
    ensures Inv(c, Step(c, s, p), WinnerAfter(s, p, winner), RefsAfter(s, p, refs))
  {
    hide Sum, Word, HasBit, FetchOr, FetchSub, RefCount;
    Decoded(c, s, winner, refs);
    Counts(s, p, Step(c, s, p).procs[p]);
    assert WinnerAfter(s, p, winner) == winner && RefsAfter(s, p, refs) == refs;
  }

  lemma SignalStep(c: Config, s: State, winner: Option<nat>, refs: nat, p: nat)
    requires Inv(c, s, winner, refs) && Enabled(c, s, p) && s.procs[p].SignalReady?
    ensures RefsAfter(s, p, refs) >= 0
    ensures Inv(c, Step(c, s, p), WinnerAfter(s, p, winner), RefsAfter(s, p, refs))
  {
    hide Sum, Word, HasBit, FetchOr, FetchSub, RefCount;
    Decoded(c, s, winner, refs);
    Counts(s, p, Step(c, s, p).procs[p]);
    assert WinnerAfter(s, p, winner) == winner && RefsAfter(s, p, refs) == refs;
  }

  /** Only the starter is ever where the starter's code is. */
  lemma OnlyStarter(c: Config, s: State, winner: Option<nat>, refs: nat, p: nat)
    requires Inv(c, s, winner, refs) && p < |s.procs| && (s.procs[p].Submit? || s.procs[p].CompleteSubmit?)
    ensures p == Branches(c)
  {
    hide Sum, Word, NotYetStarted, PushRight;
  }

  lemma StarterMoves(procs: seq<Pc>, n: nat, pc: Pc, winner: Option<nat>, submitted: nat)
    requires n < |procs| && Finisher(procs, n, winner.Some?) && NotYetStarted(procs, n, submitted)
    requires winner.Some? ==> Losers(procs, n, winner.value)
    ensures Finisher(procs[n := pc], n, winner.Some?) && NotYetStarted(procs[n := pc], n, submitted)
    ensures winner.Some? ==> Losers(procs[n := pc], n, winner.value)
  {
  }

  lemma CompleteStep(c: Config, s: State, winner: Option<nat>, refs: nat, p: nat)
    requires Inv(c, s, winner, refs) && Enabled(c, s, p) && s.procs[p].CompleteSubmit?
    ensures RefsAfter(s, p, refs) >= 0
    ensures Inv(c, Step(c, s, p), WinnerAfter(s, p, winner), RefsAfter(s, p, refs))
  {
    hide Sum, Word, HasBit, FetchOr, FetchSub, RefCount, Finisher, Losers, NotYetStarted;
    OnlyStarter(c, s, winner, refs, p);
    Decoded(c, s, winner, refs);
    Counts(s, p, Step(c, s, p).procs[p]);
    StarterMoves(s.procs, p, Step(c, s, p).procs[p], winner, SubmittedSoFar(s.procs[p], p));
    assert WinnerAfter(s, p, winner) == winner && RefsAfter(s, p, refs) == refs;
  }

  lemma PushStep(c: Config, s: State, winner: Option<nat>, refs: nat, p: nat)
    requires Inv(c, s, winner, refs) && Enabled(c, s, p) && AtPush(s.procs[p])
    ensures RefsAfter(s, p, refs) >= 0
    ensures Inv(c, Step(c, s, p), WinnerAfter(s, p, winner), RefsAfter(s, p, refs))
  {
    hide Sum, Word, HasBit, FetchOr, FetchSub, RefCount;
    Decoded(c, s, winner, refs);
    Counts(s, p, Step(c, s, p).procs[p]);
    assert WinnerAfter(s, p, winner) == winner && RefsAfter(s, p, refs) == refs;
  }

  lemma ReleaseStep(c: Config, s: State, winner: Option<nat>, refs: nat, p: nat)
    requires Inv(c, s, winner, refs) && Enabled(c, s, p) && (s.procs[p].Release? || s.procs[p].Delete?)
    ensures RefsAfter(s, p, refs) >= 0
    ensures Inv(c, Step(c, s, p), WinnerAfter(s, p, winner), RefsAfter(s, p, refs))
  {
    hide Sum, Word, HasBit, FetchOr, FetchSub, RefCount;
    Decoded(c, s, winner, refs);
    Counts(s, p, Step(c, s, p).procs[p]);
    assert WinnerAfter(s, p, winner) == winner && RefsAfter(s, p, refs) == (if s.procs[p].Release? then refs - 1 else refs);
  }

  lemma SubmitStep(c: Config, s: State, winner: Option<nat>, refs: nat, p: nat)
    requires Inv(c, s, winner, refs) && Enabled(c, s, p) && s.procs[p].Submit?
    ensures Inv(c, Step(c, s, p), winner, refs)
  {
    hide Sum, Word, HasBit, FetchOr, FetchSub, RefCount;
    var i := s.procs[p].i;
    Decoded(c, s, winner, refs);
    Counts(s, i, Racing);
    Counts(Goto(s, i, Racing), p, Step(c, s, p).procs[p]);
  }

  lemma StepKeepsInv(c: Config, s: State, winner: Option<nat>, refs: nat, p: nat)
    requires Inv(c, s, winner, refs) && Enabled(c, s, p)
    ensures RefsAfter(s, p, refs) >= 0
    ensures Inv(c, Step(c, s, p), WinnerAfter(s, p, winner), RefsAfter(s, p, refs))
  {
    hide Inv, Step;
    match s.procs[p]
    case Racing => FinishStep(c, s, winner, refs, p);
    case StoreIndex => StoreStep(c, s, winner, refs, p);
    case StoreResult => StoreStep(c, s, winner, refs, p);
    case SignalReady => SignalStep(c, s, winner, refs, p);
    case Submit(_) => SubmitStep(c, s, winner, refs, p);
    case CompleteSubmit => CompleteStep(c, s, winner, refs, p);
    case Push => PushStep(c, s, winner, refs, p);
    case Pushing => PushStep(c, s, winner, refs, p);
    case Release => ReleaseStep(c, s, winner, refs, p);
    case Delete => ReleaseStep(c, s, winner, refs, p);
  }

  lemma InitSums(branches: seq<Pc>)
    requires forall k :: 0 <= k < |branches| ==> branches[k] == NotStarted
    ensures Sum(branches + [Submit(0)], Holds) == |branches| + 1
    ensures Sum(branches + [Submit(0)], Deleting) == 0
  {
    hide Sum;
    SumConstant(branches, Holds, 1);
    SumConstant(branches, Deleting, 0);
    SumAppend(branches, Submit(0), Holds);
    SumAppend(branches, Submit(0), Deleting);
  }

  lemma InitBranches(branches: seq<Pc>, n: nat)
    requires n == |branches| && forall k :: 0 <= k < n ==> branches[k] == NotStarted
    ensures Finisher(branches + [Submit(0)], n, false) && NotYetStarted(branches + [Submit(0)], n, 0)
  {
  }

  lemma InitPushRight()
    ensures PushRight(Submit(0), None, 0)
  {
  }

  lemma InitWord(refs: nat)
    ensures Word(0, 0, 0, refs) == refs
  {
  }

  lemma InitInv(c: Config)
    requires Config?(c)
    ensures Inv(c, Init(c), None, Branches(c) + 1)
  {
    hide Sum, Word, Finisher, Losers, NotYetStarted, WinnerWrote, PushRight, HasBit, FetchOr, FetchSub, RefCount;
    var branches := seq(Branches(c), _ => NotStarted);
    InitSums(branches);
    InitBranches(branches, Branches(c));
    InitPushRight();
    InitWord(Branches(c) + 1);
  }

  // ---------------------------------------------------------------- runs

  /** The invariant holds at every point of a run, and a winner once set stays. */
  lemma {:induction false} RunInv(c: Config, run: seq<State>, k: nat) returns (winner: Option<nat>, refs: nat)
    requires Config?(c) && IsRun(c, run) && k < |run|
    ensures Inv(c, run[k], winner, refs)
    decreases k
  {
    hide Inv, StepsTo, Init;
    if k == 0 {
      InitInv(c);
      winner, refs := None, Branches(c) + 1;
    } else {
      var w, r := RunInv(c, run, k - 1);
      assert Next(c, run[k - 1], run[k]);
      var p: nat :| StepsTo(c, run[k - 1], p, run[k]);
      StepInv(c, run[k - 1], w, r, p, run[k]);
      winner, refs := WinnerAfter(run[k - 1], p, w), RefsAfter(run[k - 1], p, r);
    }
  }

  lemma StepInv(c: Config, s: State, winner: Option<nat>, refs: nat, p: nat, s': State)
    requires Inv(c, s, winner, refs) && StepsTo(c, s, p, s')
    ensures p < |s.procs|
    ensures RefsAfter(s, p, refs) >= 0
    ensures Inv(c, s', WinnerAfter(s, p, winner), RefsAfter(s, p, refs))
  {
    StepKeepsInv(c, s, winner, refs, p);
  }

  lemma {:induction false} WinnerStays(c: Config, run: seq<State>, j: nat, w: nat, r: nat, k: nat) returns (refs: nat)
    requires Config?(c) && IsRun(c, run) && j <= k < |run|
    requires Inv(c, run[j], Some(w), r)
    ensures Inv(c, run[k], Some(w), refs)
    decreases k
  {
    hide Inv, StepsTo;
    if j == k {
      refs := r;
    } else {
      var before := WinnerStays(c, run, j, w, r, k - 1);
      assert Next(c, run[k - 1], run[k]);
      var p: nat :| StepsTo(c, run[k - 1], p, run[k]);
      StepInv(c, run[k - 1], Some(w), before, p, run[k]);
      refs := RefsAfter(run[k - 1], p, before);
    }
  }

  // ---------------------------------------------------------------- main results

  /** No branch has set FINISHED. */
  predicate NobodyFinished(c: Config, s: State) {
    |s.procs| == Branches(c) + 1 && forall k :: 0 <= k < Branches(c) ==> Before(s.procs[k])
  }

  /** The parent gets at most one push, only after every branch has been submitted, and the
      wrapper is deleted at most once, only after the push has returned. */
  lemma OnePushOneDelete(c: Config, run: seq<State>, k: nat)
    requires Config?(c) && IsRun(c, run) && k < |run|
    ensures var s := run[k];
            && |s.pushed| <= 1 && s.deletes <= 1
            && (s.pushed != [] ==> forall i :: 0 <= i < Branches(c) ==> i < |s.procs| && !s.procs[i].NotStarted?)
            && (s.deletes == 1 ==> |s.pushed| == 1 && forall p :: 0 <= p < |s.procs| ==> !AtPush(s.procs[p]))
  {
    hide Word, Sum;
    var winner, refs := RunInv(c, run, k);
    var s := run[k];
    SumNonNegative(s.procs, Deleting);
    if s.deletes == 1 { AllReleased(c, s, winner); }
  }

  /** When no reference is left, everybody has at most its `delete` to do, and the push was made. */
  lemma AllReleased(c: Config, s: State, winner: Option<nat>)
    requires Inv(c, s, winner, 0)
    ensures forall p :: 0 <= p < |s.procs| ==> s.procs[p].Delete? || s.procs[p].Finished?
    ensures winner.Some? && |s.pushed| == 1
  {
    hide Word, Sum;
    forall p | 0 <= p < |s.procs| ensures s.procs[p].Delete? || s.procs[p].Finished? {
      SumAtLeast(s.procs, p, Holds);
    }
    assert !Before(s.procs[0]);
  }

  /** The branch whose fetch_or set FINISHED first is the one whose index and result are pushed,
      whatever the others do afterwards: its value, its exception, or that it had neither. */
  lemma FirstFinisherWins(c: Config, run: seq<State>, j: nat, w: nat, k: nat)
    requires Config?(c) && IsRun(c, run) && 0 < j <= k < |run| && w < Branches(c)
    requires NobodyFinished(c, run[j - 1]) && w < |run[j].procs| && !Before(run[j].procs[w])
    ensures forall i :: 0 <= i < |run[k].pushed| ==>
              && run[k].pushed[i].0 == w
              && run[k].pushed[i].1 == match c.signals[w]
                                       case SetValue(v) => Value(v)
                                       case SetError(e) => Exception(e)
                                       case SetDone => Monostate
                                       case SetSkip => Monostate
  {
    hide Word, Sum, HasBit, FetchOr, FetchSub, RefCount, PushRight;
    var winner, refs := RunInv(c, run, j - 1);
    assert Next(c, run[j - 1], run[j]);
    var p: nat :| StepsTo(c, run[j - 1], p, run[j]);
    StepInv(c, run[j - 1], winner, refs, p, run[j]);
    var last := WinnerStays(c, run, j, w, RefsAfter(run[j - 1], p, refs), k);
  }

  /** Nobody can touch the wrapper once it is deleted or about to be: a process that still has
      a step to make on it, other than the `delete` itself, keeps it alive. */
  lemma NoUseAfterDelete(c: Config, run: seq<State>, k: nat, p: nat)
    requires Config?(c) && IsRun(c, run) && k < |run| && p < |run[k].procs|
    requires !run[k].procs[p].Delete? && !run[k].procs[p].Finished?
    ensures run[k].deletes == 0
    ensures forall q :: 0 <= q < |run[k].procs| ==> !run[k].procs[q].Delete?
  {
    hide Word, Sum;
    var winner, refs := RunInv(c, run, k);
    var s := run[k];
    SumAtLeast(s.procs, p, Holds);
    SumNonNegative(s.procs, Deleting);
    forall q | 0 <= q < |s.procs| ensures !s.procs[q].Delete? {
      SumAtLeast(s.procs, q, Deleting);
    }
  }

  /** The `delete` is itself made by one process at a time, and never twice. */
  lemma DeleteOnce(c: Config, run: seq<State>, k: nat, p: nat, q: nat)
    requires Config?(c) && IsRun(c, run) && k < |run| && p < |run[k].procs| && q < |run[k].procs|
    requires run[k].procs[p].Delete? && run[k].procs[q].Delete?
    ensures p == q && run[k].deletes == 0
  {
    hide Word, Sum;
    var winner, refs := RunInv(c, run, k);
    SumAtLeast(run[k].procs, p, Deleting);
  }

  /** When nothing is left to do, the result has been pushed and the wrapper deleted: neither
      signal_ready nor complete_submit can leave the push to the other. */
  lemma QuiescentIsComplete(c: Config, run: seq<State>, k: nat)
    requires Config?(c) && IsRun(c, run) && k < |run|
    requires forall p: nat :: !Enabled(c, run[k], p)
    ensures |run[k].pushed| == 1 && run[k].deletes == 1
  {
    hide Word, Sum;
    var winner, refs := RunInv(c, run, k);
    var s := run[k];
    var n := Branches(c);
    assert !Enabled(c, s, n);
    forall p | 0 <= p < |s.procs| ensures s.procs[p].Finished? {
      assert !Enabled(c, s, p);
    }
    SumConstant(s.procs, Holds, 0);
    SumConstant(s.procs, Deleting, 0);
    AllReleased(c, s, winner);
  }

  function Rank(pc: Pc): int {
    match pc
    case NotStarted => 9
    case Racing => 8
    case StoreIndex => 7
    case StoreResult => 6
    case SignalReady => 5
    case Submit(_) => 6
    case CompleteSubmit => 5
    case Push => 4
    case Pushing => 3
    case Release => 2
    case Delete => 1
    case Finished => 0
  }

  lemma StepDescends(c: Config, s: State, winner: Option<nat>, refs: nat, p: nat)
    requires Inv(c, s, winner, refs) && Enabled(c, s, p)
    ensures Sum(Step(c, s, p).procs, Rank) < Sum(s.procs, Rank)
  {
    hide Sum, Word, HasBit, FetchOr, FetchSub, RefCount, PushRight;
    var s' := Step(c, s, p);
    SumUpdate(s.procs, p, s'.procs[p], Rank);
    if s.procs[p].Submit? {
      var i := s.procs[p].i;
      SumUpdate(s.procs, i, Racing, Rank);
      SumUpdate(s.procs[i := Racing], p, s'.procs[p], Rank);
    }
  }

  /** Whatever the interleaving, the race is over after at most nine steps for each branch and
      six for the starter. */
  lemma {:induction false} RunLength(c: Config, run: seq<State>)
    requires Config?(c) && IsRun(c, run)
    ensures |run| - 1 + Sum(run[|run| - 1].procs, Rank) <= 9 * Branches(c) + 6
    ensures |run| <= 9 * Branches(c) + 7
  {
    hide Inv, Step, Sum;
    var k := |run| - 1;
    SumNonNegative(run[k].procs, Rank);
    if k == 0 {
      InitRank(c);
    } else {
      RunLength(c, run[..k]);
      var winner, refs := RunInv(c, run, k - 1);
      assert Next(c, run[k - 1], run[k]);
      var p: nat :| StepsTo(c, run[k - 1], p, run[k]);
      StepDescends(c, run[k - 1], winner, refs, p);
    }
  }

  lemma InitRank(c: Config)
    requires Config?(c)
    ensures Sum(Init(c).procs, Rank) == 9 * Branches(c) + 6
  {
    var branches: seq<Pc> := seq(Branches(c), _ => NotStarted);
    SumConstant(branches, Rank, 9);
    SumAppend(branches, Submit(0), Rank);
  }
}
