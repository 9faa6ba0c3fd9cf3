/** Sums of a weight over a finite family of processes. Every counting argument of the
    protocol proofs (how many hold a token, how many have finished) is one of these sums. */
module Sums {

  function Sum<T>(s: seq<T>, w: T -> int): int {
    if |s| == 0 then 0 else Sum(s[..|s| - 1], w) + w(s[|s| - 1])
  }

  /** Replacing one process changes the sum by the difference of the two weights. */
  lemma {:induction false} SumUpdate<T>(s: seq<T>, i: nat, x: T, w: T -> int)
    requires i < |s|
    ensures Sum(s[i := x], w) == Sum(s, w) - w(s[i]) + w(x)
  {
    var n := |s| - 1;
    if i == n {
      assert s[i := x][..n] == s[..n];
    } else {
      assert s[i := x][..n] == s[..n][i := x];
      SumUpdate(s[..n], i, x, w);
    }
  }

  lemma {:induction false} SumAppend<T>(s: seq<T>, x: T, w: T -> int)
    ensures Sum(s + [x], w) == Sum(s, w) + w(x)
  {
    assert (s + [x])[..|s|] == s;
  }

  lemma {:induction false} SumConcat<T>(s: seq<T>, t: seq<T>, w: T -> int)
    ensures Sum(s + t, w) == Sum(s, w) + Sum(t, w)
  {
    if t == [] {
      assert s + t == s;
    } else {
      assert (s + t)[..|s + t| - 1] == s + t[..|t| - 1];
      SumConcat(s, t[..|t| - 1], w);
    }
  }

  /** A pointwise bound on the weights bounds the sums. */
  lemma {:induction false} SumMonotone<T>(s: seq<T>, v: T -> int, w: T -> int)
    requires forall i :: 0 <= i < |s| ==> v(s[i]) <= w(s[i])
    ensures Sum(s, v) <= Sum(s, w)
  {
    if |s| > 0 {
      SumMonotone(s[..|s| - 1], v, w);
    }
  }

  /** With non-negative weights, any two distinct processes together weigh no more than the sum. */
  lemma {:induction false} SumAtLeast<T>(s: seq<T>, i: nat, w: T -> int)
    requires i < |s|
    requires forall k :: 0 <= k < |s| ==> 0 <= w(s[k])
    ensures w(s[i]) <= Sum(s, w)
    ensures forall j :: 0 <= j < |s| && j != i ==> w(s[i]) + w(s[j]) <= Sum(s, w)
  {
    SumNonNegative(s, w);
    var n := |s| - 1;
    SumNonNegative(s[..n], w);
    if i < n {
      SumAtLeast(s[..n], i, w);
    } else {
      forall j | 0 <= j < n ensures w(s[j]) <= Sum(s[..n], w) {
        SumAtLeast(s[..n], j, w);
      }
    }
  }

  lemma {:induction false} SumNonNegative<T>(s: seq<T>, w: T -> int)
    requires forall k :: 0 <= k < |s| ==> 0 <= w(s[k])
    ensures 0 <= Sum(s, w)
  {
    if |s| > 0 {
      SumNonNegative(s[..|s| - 1], w);
    }
  }

  /** A positive sum has a process that contributes to it. */
  lemma {:induction false} SumWitness<T>(s: seq<T>, w: T -> int) returns (i: nat)
    requires 0 < Sum(s, w)
    ensures i < |s| && 0 < w(s[i])
  {
    var n := |s| - 1;
    if 0 < w(s[n]) {
      i := n;
    } else {
      i := SumWitness(s[..n], w);
    }
  }

  /** If all weights are equal to c the sum is c times the number of processes. */
  lemma {:induction false} SumConstant<T>(s: seq<T>, w: T -> int, c: int)
    requires forall i :: 0 <= i < |s| ==> w(s[i]) == c
    ensures Sum(s, w) == c * |s|
  {
    if |s| > 0 {
      SumConstant(s[..|s| - 1], w, c);
    }
  }

  /** Sums are additive in the weight. */
  lemma {:induction false} SumPlus<T>(s: seq<T>, u: T -> int, v: T -> int, w: T -> int)
    requires forall i :: 0 <= i < |s| ==> u(s[i]) == v(s[i]) + w(s[i])
    ensures Sum(s, u) == Sum(s, v) + Sum(s, w)
  {
    if |s| > 0 {
      SumPlus(s[..|s| - 1], u, v, w);
    }
  }
}
