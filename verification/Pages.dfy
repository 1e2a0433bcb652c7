/** Page boundaries computed with a bit mask, as `CeilPageAlignAddr` does. */
module Pages {
  import opened Growth

  /** Bitwise and, bit by bit from the lowest. */
  function And(x: nat, y: nat): nat
    decreases x
  {
    if x == 0 then 0 else 2 * And(x / 2, y / 2) + (x % 2) * (y % 2)
  }

  /** `(ptr + page) & ~(page - 1)` for a page of 2^k bytes, in 64-bit words. */
  function CeilPage(ptr: nat, k: nat): nat
    requires k <= 63
  {
    Pow2Grows(k, 64);
    WordIsPower();
    And(ptr + Pow2(k), WORD - Pow2(k))
  }

  /** `x` without its low `k` bits. */
  function High(x: nat, k: nat): nat {
    if k == 0 then x else High(x / 2, k - 1)
  }

  lemma {:induction false} AndOnes(x: nat, n: nat)
    requires x < Pow2(n)
    ensures And(x, Pow2(n) - 1) == x
    decreases n
  {
    if n > 0 && x > 0 {
      AndOnes(x / 2, n - 1);
      assert (Pow2(n) - 1) / 2 == Pow2(n - 1) - 1 && (Pow2(n) - 1) % 2 == 1;
    }
  }

  lemma AndEvenMask(x: nat, y: nat)
    ensures And(x, 2 * y) == 2 * And(x / 2, y)
  {
    assert (2 * y) / 2 == y && (2 * y) % 2 == 0;
  }

  lemma ShiftProduct(h: nat, p: nat)
    ensures 2 * (h * p) == h * (2 * p)
  {
  }

  /** Masking with all but the low k bits clears just those. */
  lemma {:induction false} MaskClearsLowBits(x: nat, k: nat, n: nat)
    requires k <= n && x < Pow2(n)
    ensures Pow2(k) <= Pow2(n) && And(x, Pow2(n) - Pow2(k)) == High(x, k) * Pow2(k)
    decreases n
  {
    Pow2Grows(k, n);
    if k == 0 {
      AndOnes(x, n);
    } else {
      var p, m := Pow2(k - 1), Pow2(n - 1);
      MaskClearsLowBits(x / 2, k - 1, n - 1);
      AndEvenMask(x, m - p);
      ShiftProduct(High(x / 2, k - 1), p);
    }
  }

  lemma {:induction false} HighBounds(x: nat, k: nat)
    ensures High(x, k) * Pow2(k) <= x < High(x, k) * Pow2(k) + Pow2(k)
    decreases k
  {
    if k > 0 {
      HighBounds(x / 2, k - 1);
      ShiftProduct(High(x / 2, k - 1), Pow2(k - 1));
    }
  }

  /** The result is the page boundary in the page-sized stretch strictly above the pointer. */
  lemma CeilPageIsNextBoundary(ptr: nat, k: nat) returns (page: nat)
    requires k <= 63 && ptr + Pow2(k) < WORD
    ensures ptr < CeilPage(ptr, k) <= ptr + Pow2(k)
    ensures CeilPage(ptr, k) == page * Pow2(k)
  {
    WordIsPower();
    MaskClearsLowBits(ptr + Pow2(k), k, 64);
    HighBounds(ptr + Pow2(k), k);
    page := High(ptr + Pow2(k), k);
  }
}
