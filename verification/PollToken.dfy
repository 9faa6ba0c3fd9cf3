/** The polling word of `for_each`'s runner: the high half counts pending poll requests, the
    low half is the token (0 free, 1 held). */
module PollToken {
  import opened PackedWords
  import opened CasLoops

  /** Outcome of one successful exchange on the word. */
  datatype Grant = Grant(word: uint64, granted: bool)

  function Acquire(w: uint64): Grant {
    var pending := (Hi(w) + 1) % W32;
    if Lo(w) == 0 then Grant(Pack(pending, 1), true) else Grant(Pack(pending, Lo(w)), false)
  }

  function Consume(w: uint64): Grant {
    var pending := (Hi(w) - 1) % W32;
    if pending > 0 then Grant(Pack(pending, 1), true) else Grant(0, false)
  }

  /** A request is always counted; it is granted exactly when the token was free. */
  lemma AcquireMeaning(w: uint64)
    requires Hi(w) + 1 < W32 && Lo(w) <= 1
    ensures var g := Acquire(w);
            Hi(g.word) == Hi(w) + 1 && Lo(g.word) == 1 && (g.granted <==> Lo(w) == 0)
  {
  }

  /** The holder goes on while requests remain; serving the last one frees the token. */
  lemma ConsumeMeaning(w: uint64)
    requires Hi(w) >= 1 && Lo(w) == 1
    ensures var g := Consume(w);
            Hi(g.word) == Hi(w) - 1 && (g.granted <==> Hi(w) > 1) && Lo(g.word) == (if g.granted then 1 else 0)
            && (!g.granted ==> g.word == 0)
  {
  }

  /** The runner: a range, its iterator and the polling word. */
  class Runner {
    const range: seq<int>
    var it: nat
    var pushCount: uint32
    var pollNextFlag: uint64

    constructor (r: seq<int>)
      ensures range == r && it == 0 && pushCount == 0 && pollNextFlag == 0
    {
      range, it, pushCount, pollNextFlag := r, 0, 0, 0;
    }

    predicate IsEnd()
      reads this
    {
      it == |range|
    }

    method PollOne() returns (x: int)
      requires it < |range|
      modifies this`it
      ensures x == range[old(it)] && it == old(it) + 1
    {
      x := range[it];
      it := it + 1;
    }

    method TryAcquireForPoll(gaps: seq<Gap>) returns (acquired: bool, seen: uint64)
      modifies this`pollNextFlag
      ensures Grant(pollNextFlag, acquired) == Acquire(seen)
      ensures exists k :: 0 <= k <= |gaps| && seen == Interfered(old(pollNextFlag), gaps[..k])
    {
      var k := 0;
      var swapped := false;
      acquired, seen := false, pollNextFlag;
      while !swapped
        invariant 0 <= k
        invariant !swapped ==> k <= |gaps| && pollNextFlag == Interfered(old(pollNextFlag), gaps[..k])
        invariant swapped ==> Grant(pollNextFlag, acquired) == Acquire(seen)
        invariant swapped ==> exists j :: 0 <= j <= |gaps| && seen == Interfered(old(pollNextFlag), gaps[..j])
        decreases if swapped then 0 else 1, |gaps| - k
      {
        seen := pollNextFlag;
        var pending, token := (Hi(seen) + 1) % W32, Lo(seen);
        if token == 0 {
          token := 1;
          acquired := true;
        } else {
          acquired := false;
        }
        var gap := GapAt(gaps, k);
        if k < |gaps| {
          InterferedStep(old(pollNextFlag), gaps, k);
        }
        if gap.Written? {
          pollNextFlag := gap.word;
        }
        if pollNextFlag == seen && !gap.Spurious? {
          pollNextFlag := Pack(pending, token);
          swapped := true;
        }
        k := k + 1;
      }
    }

    method ConsumeAndContinue(gaps: seq<Gap>) returns (goOn: bool, seen: uint64)
      modifies this`pollNextFlag
      ensures Grant(pollNextFlag, goOn) == Consume(seen)
      ensures exists k :: 0 <= k <= |gaps| && seen == Interfered(old(pollNextFlag), gaps[..k])
    {
      var k := 0;
      var swapped := false;
      goOn, seen := false, pollNextFlag;
      while !swapped
        invariant 0 <= k
        invariant !swapped ==> k <= |gaps| && pollNextFlag == Interfered(old(pollNextFlag), gaps[..k])
        invariant swapped ==> Grant(pollNextFlag, goOn) == Consume(seen)
        invariant swapped ==> exists j :: 0 <= j <= |gaps| && seen == Interfered(old(pollNextFlag), gaps[..j])
        decreases if swapped then 0 else 1, |gaps| - k
      {
        seen := pollNextFlag;
        var pending := (Hi(seen) - 1) % W32;
        var next: uint64 := 0;
        if pending > 0 {
          next := Pack(pending, 1);
          goOn := true;
        } else {
          goOn := false;
        }
        var gap := GapAt(gaps, k);
        if k < |gaps| {
          InterferedStep(old(pollNextFlag), gaps, k);
        }
        if gap.Written? {
          pollNextFlag := gap.word;
        }
        if pollNextFlag == seen && !gap.Spurious? {
          pollNextFlag := next;
          swapped := true;
        }
        k := k + 1;
      }
    }

    method ForceReleaseToken()
      modifies this`pollNextFlag
      ensures pollNextFlag == 0
    {
      pollNextFlag := 0;
    }

    /** Polls made from inside a push, on the thread that holds the token: none gets it. */
    method PollFromInside(count: nat)
      requires Lo(pollNextFlag) == 1 && Hi(pollNextFlag) + count < W32
      modifies this`pollNextFlag
      ensures Lo(pollNextFlag) == 1 && Hi(pollNextFlag) == old(Hi(pollNextFlag)) + count
    {
      hide Hi, Lo, Acquire;
      for k := 0 to count
        invariant Lo(pollNextFlag) == 1 && Hi(pollNextFlag) == old(Hi(pollNextFlag)) + k
      {
        AcquireMeaning(pollNextFlag);
        var acquired, seen := TryAcquireForPoll([]);
        assert !acquired;
      }
    }

    /** One turn of the loop before the end. */
    method ServeOne(polls: nat) returns (x: int, goOn: bool)
      requires it == pushCount < |range| < W32 - 1
      requires Lo(pollNextFlag) == 1 && 1 <= Hi(pollNextFlag) && Hi(pollNextFlag) + polls < W32
      modifies this`pollNextFlag, this`it, this`pushCount
      ensures x == range[old(it)] && it == pushCount == old(it) + 1
      ensures Hi(pollNextFlag) == old(Hi(pollNextFlag)) - 1 + polls
      ensures goOn <==> Hi(pollNextFlag) > 0
      ensures if goOn then Lo(pollNextFlag) == 1 else pollNextFlag == 0
    {
      hide Hi, Lo, Acquire, Consume;
      pushCount := (pushCount + 1) % W32;
      x := PollOne();
      PollFromInside(polls);
      ConsumeMeaning(pollNextFlag);
      var seen;
      goOn, seen := ConsumeAndContinue([]);
    }

    /** poll_next on one thread: the loop pushes an element for every request, its own and those
        the pushes make from inside (`polls` of them while element i is pushed), and gives the
        token back. */
    method PollNext(polls: nat -> nat) returns (pushed: seq<int>, ended: bool)
      requires pollNextFlag == 0 && it == pushCount <= |range| < W32 - 1
      requires forall j :: it <= j <= |range| ==> 1 + Made(polls, it, j) < W32
      modifies this`pollNextFlag, this`it, this`pushCount
      ensures pollNextFlag == 0 && it == pushCount
      ensures Stop(|range|, polls, old(it), 1) == (it, ended)
      ensures old(it) <= it <= |range| && pushed == range[old(it)..it]
    {
      hide Hi, Lo, Acquire, Consume, Made;
      pushed, ended := [], false;
      ghost var first := it;
      ZeroWord();
      AcquireMeaning(pollNextFlag);
      MadeNone(polls, it);
      var goOn, seen := TryAcquireForPoll([]);
      while goOn
        invariant first <= it == pushCount <= |range| && pushed == range[first..it]
        invariant Hi(pollNextFlag) == 1 + Made(polls, first, it) - (it - first)
        invariant goOn ==> Lo(pollNextFlag) == 1 && Hi(pollNextFlag) > 0
        invariant !goOn ==> pollNextFlag == 0
        invariant Stop(|range|, polls, first, 1) == Stop(|range|, polls, it, Hi(pollNextFlag))
        decreases |range| - it, goOn
      {
        if IsEnd() {
          ForceReleaseToken();
          return pushed, true;
        }
        MadeNext(polls, first, it);
        var x;
        x, goOn := ServeOne(polls(it));
        pushed := pushed + [x];
      }
    }
  }

  /** How many polls the pushes of elements i to j - 1 make. */
  function Made(polls: nat -> nat, i: nat, j: nat): nat
    decreases j
  {
    if j <= i then 0 else Made(polls, i, j - 1) + polls(j - 1)
  }

  lemma MadeNone(polls: nat -> nat, i: nat)
    ensures Made(polls, i, i) == 0
  {
  }

  lemma MadeNext(polls: nat -> nat, i: nat, j: nat)
    requires i <= j
    ensures Made(polls, i, j + 1) == Made(polls, i, j) + polls(j)
  {
  }

  /** Where the loop stops, starting at element i with some requests pending, and whether it ran
      into the end of a range of length n. */
  function Stop(n: nat, polls: nat -> nat, i: nat, pending: nat): (nat, bool)
    requires i <= n
    decreases n - i
  {
    if pending == 0 then (i, false)
    else if i == n then (n, true)
    else Stop(n, polls, i + 1, pending - 1 + polls(i))
  }

  /** One element for every request: the loop stops at the first element by which as many have been
      pushed as requested, or at the end of the range with requests left over. */
  lemma {:induction false} StopsWhenServed(n: nat, polls: nat -> nat, i: nat, pending: nat)
    requires i <= n
    ensures var (j, ended) := Stop(n, polls, i, pending);
            && i <= j <= n && (ended ==> j == n)
            && (ended <==> pending + Made(polls, i, j) > j - i)
            && (!ended ==> pending + Made(polls, i, j) == j - i)
            && forall m :: i <= m < j ==> pending + Made(polls, i, m) > m - i
    decreases n - i
  {
    if pending > 0 && i < n {
      StopsWhenServed(n, polls, i + 1, pending - 1 + polls(i));
      forall m: nat | i < m <= n ensures Made(polls, i, m) == polls(i) + Made(polls, i + 1, m) {
        MadeFrom(polls, i, m);
      }
    }
  }

  lemma {:induction false} MadeFrom(polls: nat -> nat, i: nat, m: nat)
    requires i < m
    ensures Made(polls, i, m) == polls(i) + Made(polls, i + 1, m)
    decreases m
  {
    if i + 1 < m {
      MadeFrom(polls, i, m - 1);
    }
  }
}
