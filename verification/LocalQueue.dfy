/** The single-threaded ring of `local::queue`, which the per-core queue group uses for the core
    that drains it: a FIFO queue of capacity - 1 elements in a fixed buffer. */
module LocalQueue {
  import opened Options
  import opened RingCells

  class Queue<T> {
    const buffer: array<T>
    var head: nat
    var tail: nat

    ghost predicate Valid()
      reads this
    {
      buffer.Length > 0 && head < buffer.Length && tail < buffer.Length
    }

    ghost function Size(): nat
      requires Valid()
      reads this
    {
      if head <= tail then tail - head else tail + buffer.Length - head
    }

    ghost function Contents(): (s: seq<T>)
      requires Valid()
      reads this, buffer
      ensures |s| == Size() < buffer.Length
    {
      seq(Size(), (k: int) requires 0 <= k && Valid() reads this, buffer => buffer[CellFrom(head, k, buffer.Length)])
    }

    constructor (capacity: nat, fill: T)
      requires capacity > 0
      ensures Valid() && fresh(buffer) && buffer.Length == capacity && Contents() == []
    {
      buffer := new T[capacity](_ => fill);
      head, tail := 0, 0;
    }

    /** Refused exactly when capacity - 1 elements are in the queue; else appended at the end. */
    method TryEnqueue(value: T) returns (ok: bool)
      requires Valid()
      modifies this`tail, buffer
      ensures Valid() && head == old(head)
      ensures ok <==> |old(Contents())| < buffer.Length - 1
      ensures Contents() == if ok then old(Contents()) + [value] else old(Contents())
    {
      hide CellOf;
      Wraps(tail + 1, buffer.Length);
      var next := CellOf(tail + 1, buffer.Length);
      if next == head {
        return false;
      }
      forall k: nat | k <= Size() ensures CellFrom(head, k, buffer.Length) == tail <==> k == Size() {
        Wraps(head + k, buffer.Length);
      }
      assert CellFrom(head, Size(), buffer.Length) == tail;
      buffer[tail] := value;
      tail := next;
      return true;
    }

    /** Fails exactly on an empty queue; else takes the first element. */
    method TryDequeue() returns (result: Option<T>)
      requires Valid()
      modifies this`head
      ensures Valid() && tail == old(tail)
      ensures result.None? <==> old(Contents()) == []
      ensures result.None? ==> Contents() == []
      ensures result.Some? ==> old(Contents()) == [result.value] + Contents()
    {
      hide CellOf;
      if head == tail {
        return None;
      }
      ghost var was := Contents();
      result := Some(buffer[head]);
      var next := CellOf(head + 1, buffer.Length);
      Wraps(head, buffer.Length);
      Wraps(head + 1, buffer.Length);
      assert CellFrom(head, 0, buffer.Length) == head;
      forall k: nat | k < Size() - 1
        ensures CellFrom(next, k, buffer.Length) == CellFrom(head, k + 1, buffer.Length)
      {
        Wraps(head + (k + 1), buffer.Length);
        Wraps(next + k, buffer.Length);
      }
      head := next;
      assert was == [was[0]] + Contents();
    }
  }

  /** The k-th cell from the head on. */
  function CellFrom(head: nat, k: nat, length: nat): (i: nat)
    requires length > 0
    ensures i < length
  {
    CellOf(head + k, length)
  }

  /** Within two laps a cell is found by subtracting one. */
  lemma Wraps(x: nat, m: nat)
    requires m > 0 && x < 2 * m
    ensures CellOf(x, m) == if x < m then x else x - m
  {
    ModUnique(x, m, if x < m then 0 else 1, if x < m then x else x - m);
  }
}
