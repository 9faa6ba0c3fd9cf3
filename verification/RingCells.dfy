/** Which cell of a ring buffer a running count falls in, and when two counts share a cell. */
module RingCells {

  /** pos & mask, for a capacity that is a power of two. */
  function CellOf(pos: nat, capacity: nat): (i: nat)
    requires capacity > 0
    ensures i < capacity
  {
    pos % capacity
  }

  /** Two counts of one cell are at least a capacity apart. */
  lemma SameCell(a: nat, b: nat, m: nat)
    requires m > 0 && CellOf(a, m) == CellOf(b, m) && a < b
    ensures a + m <= b
  {
    var q := b / m - a / m;
    assert b - a == m * q;
    NotPositive(m, q);
    AtLeastOnce(m, q);
  }

  lemma NotPositive(m: nat, q: int)
    ensures q <= 0 ==> m * q <= 0
  {
  }

  lemma AtLeastOnce(m: nat, q: int)
    ensures q >= 1 ==> m * q >= m
  {
  }

  lemma ModUnique(x: int, m: nat, q: int, r: int)
    requires m > 0 && 0 <= r < m && x == m * q + r
    ensures x % m == r
  {
    var d := x / m - q;
    assert m * d == r - x % m;
    NotPositive(m, d);
    AtLeastOnce(m, d);
    AtLeastOnce(m, -d);
  }

  /** The number after a count belongs to another cell; a capacity later it is the same again. */
  lemma NextCell(t: nat, m: nat)
    requires m >= 2
    ensures CellOf(t + 1, m) != CellOf(t, m)
    ensures CellOf(t + m, m) == CellOf(t, m)
  {
    if CellOf(t + 1, m) == CellOf(t, m) {
      SameCell(t, t + 1, m);
      assert false;
    }
    assert m * (t / m + 1) == m * (t / m) + m;
    ModUnique(t + m, m, t / m + 1, t % m);
  }

  /** Counts less than a capacity apart are in different cells, a capacity apart in the same. */
  lemma CellsApart(a: nat, b: nat, m: nat)
    requires m > 0 && a <= b <= a + m
    ensures CellOf(a, m) == CellOf(b, m) <==> a == b || b == a + m
  {
    if b == a + m {
      assert m * (a / m + 1) == m * (a / m) + m;
      ModUnique(a + m, m, a / m + 1, a % m);
    } else if a < b && CellOf(a, m) == CellOf(b, m) {
      SameCell(a, b, m);
    }
  }
}
