/** The completion counter of `concurrent`: the high half is the stream length plus one
    (zero while unknown), the low half counts finished elements. */
module CompletionCounter {
  import opened Options
  import opened PackedWords

  function SetTotalWord(w: uint64, total: uint32): uint64 {
    (w + ((total + 1) % W32) * W32) % W64
  }

  predicate SetTotalHits(w: uint64, total: uint32) { Lo(w) == total }

  function AddDoneWord(w: uint64): uint64 { (w + 1) % W64 }

  predicate AddDoneHits(w: uint64) {
    var w' := AddDoneWord(w);
    Hi(w') > 0 && Lo(w') == Hi(w') - 1
  }

  /** Announcing the length leaves the done count alone and is told whether all had finished. */
  lemma SetTotalMeaning(w: uint64, total: uint32)
    requires Hi(w) == 0 && total < W32 - 1
    ensures SetTotalWord(w, total) == Pack(total + 1, Lo(w))
  {
    AddToHalves(w, total + 1, 0);
  }

  /** Finishing one element leaves the length alone; it is the last one exactly when the
      length is known and the new count reaches it. */
  lemma AddDoneMeaning(w: uint64)
    requires Lo(w) + 1 < W32
    ensures AddDoneWord(w) == Pack(Hi(w), Lo(w) + 1)
    ensures AddDoneHits(w) <==> (Hi(w) > 0 && Lo(w) + 1 == Hi(w) - 1)
  {
    AddToHalves(w, 0, 1);
  }

  class Counter {
    var counter: uint64

    /** The announced length, and the elements counted as finished. */
    function Length(): Option<nat>
      reads this
    {
      if Hi(counter) == 0 then None else Some(Hi(counter) - 1)
    }

    function Finished(): nat
      reads this
    {
      Lo(counter)
    }

    constructor ()
      ensures counter == 0 && Length() == None && Finished() == 0
    {
      counter := 0;
      new;
      ZeroWord();
    }

    method FetchAdd(k: uint64) returns (old_v: uint64)
      modifies this
      ensures old_v == old(counter) && counter == (old(counter) + k) % W64
    {
      old_v := counter;
      counter := (counter + k) % W64;
    }

    /** Announces the length, once; the answer is whether every element had finished before. */
    method SetTotal(total: uint32) returns (all: bool)
      modifies this
      ensures counter == SetTotalWord(old(counter), total) && (all <==> SetTotalHits(old(counter), total))
      ensures old(Length()) == None && total < W32 - 1 ==>
                Length() == Some(total) && Finished() == old(Finished()) && (all <==> Finished() == total)
    {
      SetTotalMeansLength(counter, total);
      var totalField: uint64 := ((total + 1) % W32) * W32;
      var old_v := FetchAdd(totalField);
      all := Lo(old_v) == total;
    }

    /** Counts one more element; the answer is whether it is the last one of an announced length. */
    method AddDone() returns (last: bool)
      modifies this
      ensures counter == AddDoneWord(old(counter)) && (last <==> AddDoneHits(old(counter)))
      ensures old(Finished()) + 1 < W32 ==>
                && Length() == old(Length()) && Finished() == old(Finished()) + 1
                && (last <==> Length() == Some(Finished()))
    {
      AddDoneMeansOne(counter);
      var old_v := FetchAdd(1);
      var new_v := (old_v + 1) % W64;
      var totalPlusOne, done := Hi(new_v), Lo(new_v);
      last := totalPlusOne > 0 && done == totalPlusOne - 1;
    }
  }

  lemma SetTotalMeansLength(w: uint64, total: uint32)
    ensures Hi(w) == 0 && total < W32 - 1 ==>
              Hi(SetTotalWord(w, total)) == total + 1 && Lo(SetTotalWord(w, total)) == Lo(w)
  {
    if Hi(w) == 0 && total < W32 - 1 { SetTotalMeaning(w, total); }
  }

  lemma AddDoneMeansOne(w: uint64)
    ensures Lo(w) + 1 < W32 ==> Hi(AddDoneWord(w)) == Hi(w) && Lo(AddDoneWord(w)) == Lo(w) + 1
  {
    if Lo(w) + 1 < W32 { AddDoneMeaning(w); }
  }
}
