/** Bit-level vocabulary for the 32-bit words the decoder works on.  Bit
    positions and shift counts are themselves 32-bit words (every one of them
    is a small non-negative C `int`), so shifts stay within bit-vector
    arithmetic; `ToNat` turns a position into a count where one is needed. */
module BitOps {

  /** Bit `k` of `x` is set: `((x >> k) & 1) == 1`. */
  predicate BitAt(x: bv32, k: bv32)
    requires k < 32
  {
    (x >> k) & 1 == 1
  }

  /** Number of set bits of `x` among positions lo .. hi-1. */
  function Ones(x: bv32, lo: bv32, hi: bv32): nat
    requires lo <= hi <= 32
    decreases hi
  {
    if lo == hi then 0 else Ones(x, lo, hi - 1) + (if BitAt(x, hi - 1) then 1 else 0)
  }

  /** The numeric value of a position or count held in a word. */
  function ToNat(k: bv32): nat
    decreases k
  {
    if k == 0 then 0 else ToNat(k - 1) + 1
  }

  lemma BitAtAnd(x: bv32, m: bv32, k: bv32)
    requires k < 32
    ensures BitAt(x & m, k) == (BitAt(x, k) && BitAt(m, k))
  {}

  /** Counting one more position adds that position's bit. */
  lemma OnesStep(x: bv32, lo: bv32, i: bv32)
    requires lo <= i < 32
    ensures Ones(x, lo, i + 1) == Ones(x, lo, i) + (if BitAt(x, i) then 1 else 0)
  {
    assert i + 1 - 1 == i;
  }

  /** Counting splits at any intermediate position. */
  lemma {:induction false} OnesSplit(x: bv32, lo: bv32, mid: bv32, hi: bv32)
    requires lo <= mid <= hi <= 32
    ensures Ones(x, lo, hi) == Ones(x, lo, mid) + Ones(x, mid, hi)
    decreases hi
  {
    if mid < hi {
      OnesSplit(x, lo, mid, hi - 1);
    }
  }

  /** Where the mask is set, masking changes no count. */
  lemma {:induction false} OnesMaskKeeps(x: bv32, m: bv32, lo: bv32, hi: bv32)
    requires lo <= hi <= 32
    requires forall k: bv32 :: lo <= k < hi ==> BitAt(m, k)
    ensures Ones(x & m, lo, hi) == Ones(x, lo, hi)
    decreases hi
  {
    if lo < hi {
      var top := hi - 1;
      assert top < hi;
      OnesMaskKeeps(x, m, lo, top);
      assert BitAt(m, top);
      BitAtAnd(x, m, top);
      assert BitAt(x & m, top) == BitAt(x, top);
    }
  }

  /** Where the mask is clear, masking leaves no set bit. */
  lemma {:induction false} OnesMaskDrops(x: bv32, m: bv32, lo: bv32, hi: bv32)
    requires lo <= hi <= 32
    requires forall k: bv32 :: lo <= k < hi ==> !BitAt(m, k)
    ensures Ones(x & m, lo, hi) == 0
    decreases hi
  {
    if lo < hi {
      var top := hi - 1;
      assert top < hi;
      OnesMaskDrops(x, m, lo, top);
      assert !BitAt(m, top);
      BitAtAnd(x, m, top);
      assert !BitAt(x & m, top);
    }
  }

  /** Masking with the mask of positions lo .. hi-1 keeps exactly the set bits
      in that range: the count over the whole word is the count in the range. */
  lemma OnesMasked(x: bv32, m: bv32, lo: bv32, hi: bv32)
    requires lo <= hi <= 32
    requires forall k: bv32 :: k < 32 ==> (BitAt(m, k) <==> lo <= k < hi)
    ensures Ones(x & m, 0, 32) == Ones(x, lo, hi)
  {
    OnesSplit(x & m, 0, lo, 32);
    OnesSplit(x & m, lo, hi, 32);
    OnesMaskDrops(x, m, 0, lo);
    OnesMaskKeeps(x, m, lo, hi);
    OnesMaskDrops(x, m, hi, 32);
  }
}
