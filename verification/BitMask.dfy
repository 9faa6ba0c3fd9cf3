/** The 64-bit activity masks: setting a bit with fetch_or, and walking the set bits with
    count-trailing-zeros and `mask &= mask - 1`. */
module BitMask {
  import opened RingCells

  function Pow2(i: nat): (p: nat)
    ensures p > 0
  {
    if i == 0 then 1 else 2 * Pow2(i - 1)
  }

  /** Bit i of m is set. */
  predicate Bit(m: nat, i: nat) {
    if i == 0 then m % 2 == 1 else Bit(m / 2, i - 1)
  }

  function And(a: nat, b: nat): nat {
    if a == 0 || b == 0 then 0 else (if a % 2 == 1 && b % 2 == 1 then 1 else 0) + 2 * And(a / 2, b / 2)
  }

  function Or(a: nat, b: nat): nat {
    if a == 0 then b else if b == 0 then a
    else (if a % 2 == 1 || b % 2 == 1 then 1 else 0) + 2 * Or(a / 2, b / 2)
  }

  /** __builtin_ctzll. */
  function Ctz(m: nat): nat
    requires m > 0
  {
    if m % 2 == 1 then 0 else 1 + Ctz(m / 2)
  }

  lemma {:induction false} NoBits(i: nat)
    ensures !Bit(0, i)
  {
    if i > 0 {
      NoBits(i - 1);
    }
  }

  lemma {:induction false} CtzIsLowest(m: nat)
    requires m > 0
    ensures Bit(m, Ctz(m)) && forall j: nat :: j < Ctz(m) ==> !Bit(m, j)
  {
    if m % 2 == 0 {
      CtzIsLowest(m / 2);
    }
  }

  lemma {:induction false} AndSame(m: nat)
    ensures And(m, m) == m
  {
    if m > 0 {
      AndSame(m / 2);
    }
  }

  /** mask & (mask - 1) clears the lowest set bit and no other. */
  lemma {:induction false} ClearLowest(m: nat, i: nat)
    requires m > 0
    ensures And(m, m - 1) < m
    ensures Bit(And(m, m - 1), i) <==> Bit(m, i) && i != Ctz(m)
  {
    var next := And(m, m - 1);
    if m % 2 == 1 {
      AndSame(m / 2);
      assert m > 1 ==> (m - 1) / 2 == m / 2;
      assert next == m - 1;
    } else {
      assert (m - 1) / 2 == m / 2 - 1;
      ClearLowest(m / 2, if i > 0 then i - 1 else 0);
      assert next == 2 * And(m / 2, m / 2 - 1);
    }
  }

  lemma {:induction false} OrSets(m: nat, i: nat, j: nat)
    ensures Bit(Or(m, Pow2(i)), j) <==> Bit(m, j) || j == i
  {
    PowerBit(i, j);
    if m == 0 {
      NoBits(j);
    } else if i == 0 {
      assert Or(m / 2, 0) == m / 2;
    } else if j > 0 {
      OrSets(m / 2, i - 1, j - 1);
    }
  }

  lemma {:induction false} PowerBit(i: nat, j: nat)
    ensures Bit(Pow2(i), j) <==> j == i
  {
    if i == 0 {
      if j > 0 { NoBits(j - 1); }
    } else if j > 0 {
      PowerBit(i - 1, j - 1);
    }
  }

  lemma OddMask(pos: nat, p: nat)
    requires pos > 0 && p > 0
    ensures And(pos, 2 * p - 1) == pos % 2 + 2 * And(pos / 2, p - 1)
  {
    assert (2 * p - 1) / 2 == p - 1 && (2 * p - 1) % 2 == 1;
  }

  lemma Halves(pos: nat, p: nat)
    requires p > 0
    ensures pos % (2 * p) == pos % 2 + 2 * (pos / 2 % p)
  {
    var h := pos / 2;
    var q := h / p;
    var r := pos % 2 + 2 * (h % p);
    assert pos == 2 * (p * q + h % p) + pos % 2;
    assert 2 * (p * q) == (2 * p) * q;
    ModUnique(pos, 2 * p, q, r);
  }

  lemma MaskTwice(pos: nat, p: nat)
    requires p > 0 && And(pos / 2, p - 1) == pos / 2 % p
    ensures And(pos, 2 * p - 1) == pos % (2 * p)
  {
    hide And;
    if pos > 0 {
      OddMask(pos, p);
      Halves(pos, p);
    } else {
      AndZero(2 * p - 1);
      ModUnique(0, 2 * p, 0, 0);
    }
  }

  lemma AndZero(b: nat)
    ensures And(0, b) == 0
  {
  }

  /** For a capacity that is a power of two, `pos & (capacity - 1)` is the cell of pos. */
  lemma {:induction false} MaskIsCell(pos: nat, k: nat)
    ensures And(pos, Pow2(k) - 1) == CellOf(pos, Pow2(k))
  {
    if k > 0 {
      MaskIsCell(pos / 2, k - 1);
      MaskTwice(pos, Pow2(k - 1));
    }
  }

  /** The drainer's walk over a mask visits every set bit once, in ascending order, and no other. */
  method WalkBits(mask: nat) returns (visited: seq<nat>)
    ensures forall i: nat :: i in visited <==> Bit(mask, i)
    ensures forall i, j :: 0 <= i < j < |visited| ==> visited[i] < visited[j]
  {
    visited := [];
    var m := mask;
    while m != 0
      invariant forall i: nat :: i in visited || Bit(m, i) <==> Bit(mask, i)
      invariant forall i, j :: 0 <= i < j < |visited| ==> visited[i] < visited[j]
      invariant forall i: nat, j :: Bit(m, i) && 0 <= j < |visited| ==> visited[j] < i
      decreases m
    {
      var bit := Ctz(m);
      CtzIsLowest(m);
      forall i: nat ensures Bit(And(m, m - 1), i) <==> Bit(m, i) && i != bit {
        ClearLowest(m, i);
      }
      ClearLowest(m, 0);
      m := And(m, m - 1);
      visited := visited + [bit];
    }
    forall i: nat ensures !Bit(m, i) {
      NoBits(i);
    }
  }
}
