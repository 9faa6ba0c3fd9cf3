/** Two 32-bit halves packed in one 64-bit atomic word, as the stream operators use them. */
module PackedWords {

  const W32: nat := 0x1_0000_0000
  const W64: nat := 0x1_0000_0000_0000_0000

  type uint32 = x: nat | x < W32
  type uint64 = x: nat | x < W64

  function Hi(w: uint64): uint32 { w / W32 }

  function Lo(w: uint64): uint32 { w % W32 }

  function Pack(hi: uint32, lo: uint32): (w: uint64)
    ensures Hi(w) == hi && Lo(w) == lo
  {
    hi * W32 + lo
  }

  lemma ZeroWord()
    ensures Hi(0) == 0 && Lo(0) == 0
  {
  }

  lemma PackHiLo(w: uint64)
    ensures Pack(Hi(w), Lo(w)) == w
  {
  }

  /** A 64-bit fetch_add on the whole word acts on one half alone as long as that half does not overflow. */
  lemma AddToHalves(w: uint64, hi: uint32, lo: uint32)
    requires Hi(w) + hi < W32 && Lo(w) + lo < W32
    ensures (w + Pack(hi, lo)) % W64 == Pack(Hi(w) + hi, Lo(w) + lo)
  {
    PackHiLo(w);
  }
}
