/** What other threads may do to an atomic word between the load and the
    compare_exchange_weak of one attempt of a CAS loop. */
module CasLoops {
  import opened PackedWords

  datatype Gap =
    | Quiet                 // nothing happens
    | Spurious              // the weak exchange fails although the word is unchanged
    | Written(word: uint64) // other threads leave this value

  /** The value of the word after some attempts' worth of interference. */
  function Interfered(word: uint64, gaps: seq<Gap>): uint64 {
    if |gaps| == 0 then word
    else match gaps[|gaps| - 1]
      case Written(w) => w
      case _ => Interfered(word, gaps[..|gaps| - 1])
  }

  function GapAt(gaps: seq<Gap>, k: nat): Gap {
    if k < |gaps| then gaps[k] else Quiet
  }

  lemma InterferedStep(word: uint64, gaps: seq<Gap>, k: nat)
    requires k < |gaps|
    ensures Interfered(word, gaps[..k + 1]) ==
            (if gaps[k].Written? then gaps[k].word else Interfered(word, gaps[..k]))
  {
    assert gaps[..k + 1][..k] == gaps[..k];
  }
}

/** The backpressure word of `concurrent(max)`: the high half counts elements handed out
    ("wait"), the low half counts results that came back ("done"); both are reduced by their
    minimum before every update, so the word really stores their difference. */
module Backpressure {
  import opened PackedWords
  import opened CasLoops

  /** Outcome of one successful exchange: the new word and the two answers. */
  datatype Verdict = Verdict(word: uint64, oldRes: bool, newRes: bool)

  /** Elements in flight minus results already counted; may be -1 for a moment. */
  function Balance(w: uint64): int { Hi(w) - Lo(w) }

  /** The comparison as compiled: the addition is on 64 bits. */
  predicate Room(wait: uint32, done: uint32, max: uint64) { wait < (done + max) % W64 }

  function Min(a: nat, b: nat): nat { if a < b then a else b }

  function SubPending(w: uint64, max: uint64): Verdict {
    var temp := Min(Lo(w), Hi(w));
    var done, wait := Lo(w) - temp, Hi(w) - temp;
    var done' := (done + 1) % W32;
    Verdict(Pack(wait, done'), Room(wait, done, max), Room(wait, done', max))
  }

  function AddPending(w: uint64, max: uint64): Verdict {
    var temp := Min(Lo(w), Hi(w));
    var done, wait := Lo(w) - temp, Hi(w) - temp;
    var wait' := (wait + 1) % W32;
    Verdict(Pack(wait', done), Room(wait, done, max), Room(wait', done, max))
  }

  /** Largest limit for which no 64-bit comparison wraps; see AddAfterEarlyResult. */
  const MAX_LIMIT: uint64 := W64 - 2

  /** One result: the balance drops by one, and the answers compare it with the limit. */
  lemma SubPendingMeaning(w: uint64, max: uint64)
    requires 0 <= Balance(w) && max <= MAX_LIMIT
    ensures var v := SubPending(w, max);
            && Balance(v.word) == Balance(w) - 1
            && (v.oldRes <==> Balance(w) < max)
            && (v.newRes <==> Balance(w) - 1 < max)
  {
  }

  /** One element handed out: the balance grows by one. */
  lemma AddPendingMeaning(w: uint64, max: uint64)
    requires -1 <= Balance(w) < W32 - 1 && max <= MAX_LIMIT
    ensures var v := AddPending(w, max);
            && Balance(v.word) == Balance(w) + 1
            && (v.oldRes <==> Balance(w) < max)
            && (v.newRes <==> Balance(w) + 1 < max)
  {
  }

  /** The one limit the code cannot serve: when a result is counted before its element
      (balance -1), adding the element must report room, and does so exactly for the limits
      up to MAX_LIMIT; at 2^64-1 the addition wraps and the stream would stop polling. */
  lemma AddAfterEarlyResult(w: uint64, max: uint64)
    requires Balance(w) == -1 && 1 <= max
    ensures AddPending(w, max).newRes <==> max <= MAX_LIMIT
  {
  }

  /** The part of `concurrent`'s starter that holds the word. */
  class Starter {
    var pendingStatus: uint64
    const maxPending: uint64

    constructor (max: uint64)
      ensures pendingStatus == 0 && maxPending == max
    {
      pendingStatus, maxPending := 0, max;
    }

    method Reset()
      modifies this`pendingStatus
      ensures pendingStatus == 0
    {
      pendingStatus := 0;
    }

    /** The CAS loop takes effect at one instant: `seen` is the word the last attempt found,
        after the interference of the earlier ones, and both answers belong to that word. */
    method SubNowPendingAndCheck(gaps: seq<Gap>) returns (oldRes: bool, newRes: bool, seen: uint64)
      modifies this`pendingStatus
      ensures Verdict(pendingStatus, oldRes, newRes) == SubPending(seen, maxPending)
      ensures exists k :: 0 <= k <= |gaps| && seen == Interfered(old(pendingStatus), gaps[..k])
    {
      hide Room, Pack, Lo, Hi;
      var k := 0;
      var swapped := false;
      oldRes, newRes, seen := false, false, pendingStatus;
      while !swapped
        invariant 0 <= k
        invariant !swapped ==> k <= |gaps| && pendingStatus == Interfered(old(pendingStatus), gaps[..k])
        invariant swapped ==> Verdict(pendingStatus, oldRes, newRes) == SubPending(seen, maxPending)
        invariant swapped ==> exists j :: 0 <= j <= |gaps| && seen == Interfered(old(pendingStatus), gaps[..j])
        decreases if swapped then 0 else 1, |gaps| - k
      {
        seen := pendingStatus;
        var done, wait := Lo(seen), Hi(seen);
        var temp := Min(done, wait);
        done := done - temp;
        wait := wait - temp;
        oldRes := Room(wait, done, maxPending);
        done := (done + 1) % W32;
        newRes := Room(wait, done, maxPending);
        var gap := GapAt(gaps, k);
        if k < |gaps| {
          InterferedStep(old(pendingStatus), gaps, k);
        }
        if gap.Written? {
          pendingStatus := gap.word;
        }
        if pendingStatus == seen && !gap.Spurious? {
          pendingStatus := Pack(wait, done);
          swapped := true;
        }
        k := k + 1;
      }
    }

    method AddNowPendingAndCheck(gaps: seq<Gap>) returns (oldRes: bool, newRes: bool, seen: uint64)
      modifies this`pendingStatus
      ensures Verdict(pendingStatus, oldRes, newRes) == AddPending(seen, maxPending)
      ensures exists k :: 0 <= k <= |gaps| && seen == Interfered(old(pendingStatus), gaps[..k])
    {
      hide Room, Pack, Lo, Hi;
      var k := 0;
      var swapped := false;
      oldRes, newRes, seen := false, false, pendingStatus;
      while !swapped
        invariant 0 <= k
        invariant !swapped ==> k <= |gaps| && pendingStatus == Interfered(old(pendingStatus), gaps[..k])
        invariant swapped ==> Verdict(pendingStatus, oldRes, newRes) == AddPending(seen, maxPending)
        invariant swapped ==> exists j :: 0 <= j <= |gaps| && seen == Interfered(old(pendingStatus), gaps[..j])
        decreases if swapped then 0 else 1, |gaps| - k
      {
        seen := pendingStatus;
        var done, wait := Lo(seen), Hi(seen);
        var temp := Min(done, wait);
        done := done - temp;
        wait := wait - temp;
        oldRes := Room(wait, done, maxPending);
        wait := (wait + 1) % W32;
        newRes := Room(wait, done, maxPending);
        var gap := GapAt(gaps, k);
        if k < |gaps| {
          InterferedStep(old(pendingStatus), gaps, k);
        }
        if gap.Written? {
          pendingStatus := gap.word;
        }
        if pendingStatus == seen && !gap.Spurious? {
          pendingStatus := Pack(wait, done);
          swapped := true;
        }
        k := k + 1;
      }
    }
  }
}
