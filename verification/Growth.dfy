/**
 How a buffer chooses a new length: keep doubling the old one. Lengths are 64-bit words in the
 code, so a doubling may wrap; the model says exactly when it does not.
 */
module Growth {
  const WORD: nat := 0x1_0000_0000_0000_0000
  const HALF_WORD: nat := 0x8000_0000_0000_0000

  /** The loop starts from 2 when the buffer has no length yet. */
  function Start(base: nat): nat {
    if base == 0 then base + 2 else base
  }

  /** The first value reachable from `base` by doubling that is at least `target`. */
  function Doubled(base: nat, target: nat): (n: nat)
    requires 0 < base
    ensures n >= target && n >= base
    ensures n == base || n < 2 * target
    decreases target - base
  {
    if base < target then Doubled(2 * base, target) else base
  }

  function Grown(base: nat, target: nat): (n: nat)
    ensures n >= target
  {
    Doubled(Start(base), target)
  }

  /** `x <<= 1` on a 64-bit word. */
  function ShiftLeft(x: nat): nat {
    (2 * x) % WORD
  }

  lemma OneTurn(n: nat, target: nat)
    requires 0 < n < target && Doubled(n, target) < WORD
    ensures ShiftLeft(n) == 2 * n && Doubled(2 * n, target) == Doubled(n, target)
  {
    assert Doubled(n, target) == Doubled(2 * n, target) >= 2 * n;
  }

  /**
   The loop of `nextPowOfTwo`. It reaches its answer without a shift ever wrapping whenever the
   answer is a 64-bit word, as it is for every target up to half a word.
   */
  method NextPowOfTwo(base: nat, target: nat) returns (n: nat)
    requires Grown(base, target) < WORD
    ensures n == Grown(base, target)
  {
    n := base;
    if n == 0 {
      n := 2;
    }
    while n < target
      invariant 0 < n
      invariant Doubled(n, target) == Grown(base, target)
      decreases target - n
    {
      OneTurn(n, target);
      n := ShiftLeft(n);
    }
  }

  lemma HalfWordTargetsFit(base: nat, target: nat)
    requires base < WORD && target <= HALF_WORD
    ensures Grown(base, target) < WORD
  {
  }

  // ---------- the loop on targets past half a word ----------

  function Pow2(k: nat): (p: nat)
    ensures p > 0
  {
    if k == 0 then 1 else 2 * Pow2(k - 1)
  }

  /** The loop variable after `k` turns. */
  function Shifted(x: nat, k: nat): nat
    decreases k
  {
    if k == 0 then x else Shifted(ShiftLeft(x), k - 1)
  }

  lemma {:induction false} Pow2Grows(i: nat, j: nat)
    requires i <= j
    ensures Pow2(i) <= Pow2(j)
    decreases j
  {
    if i < j { Pow2Grows(i, j - 1); }
  }

  lemma HalfWidth()
    ensures Pow2(31) == 0x8000_0000 && Pow2(32) == 0x1_0000_0000
  {
    assert Pow2(4) == 16;
    Pow2Adds(4, 4);
    Pow2Adds(8, 8);
    Pow2Adds(16, 16);
  }

  lemma WordIsPower()
    ensures Pow2(63) == HALF_WORD && Pow2(64) == WORD
  {
    HalfWidth();
    Pow2Adds(32, 32);
  }

  lemma {:induction false} Pow2Adds(i: nat, j: nat)
    ensures Pow2(i + j) == Pow2(i) * Pow2(j)
  {
    if i > 0 { Pow2Adds(i - 1, j); }
  }

  lemma {:induction false} ZeroSticks(k: nat)
    ensures Shifted(0, k) == 0
  {
    if k > 0 { ZeroSticks(k - 1); }
  }

  lemma ShiftPower(j: nat)
    requires j < 64
    ensures ShiftLeft(Pow2(j)) == if j < 63 then Pow2(j + 1) else 0
  {
    WordIsPower();
    if j < 63 {
      Pow2Grows(j + 1, 63);
    }
  }

  lemma {:induction false} ShiftsOfPower(j: nat, k: nat)
    requires j < 64
    ensures Shifted(Pow2(j), k) == if j + k < 64 then Pow2(j + k) else 0
    decreases k
  {
    if k > 0 {
      ShiftPower(j);
      if j < 63 {
        ShiftsOfPower(j + 1, k - 1);
      } else {
        ZeroSticks(k - 1);
      }
    }
  }

  /** From a power of two the loop ends exactly for targets up to half a word; else it spins at zero. */
  lemma PowerLoopEndsIff(j: nat, target: nat)
    requires j < 64
    ensures target <= HALF_WORD <==> exists k :: Shifted(Pow2(j), k) >= target
  {
    WordIsPower();
    if target <= HALF_WORD {
      ShiftsOfPower(j, 63 - j);
      assert Shifted(Pow2(j), 63 - j) >= target;
    } else {
      forall k: nat ensures Shifted(Pow2(j), k) < target {
        ShiftsOfPower(j, k);
        if j + k < 64 { Pow2Grows(j + k, 63); }
      }
    }
  }

  /** After `k` turns, none of which wrapped, the loop stops at the length meant. */
  ghost predicate Arrives(base: nat, target: nat, k: nat)
    requires base > 0
  {
    && Shifted(base, k) == Doubled(base, target)
    && forall j | 0 <= j < k :: Shifted(base, j) < target && 2 * Shifted(base, j) < WORD
  }

  lemma {:induction false} DoublingsArrive(base: nat, target: nat) returns (k: nat)
    requires base > 0 && Doubled(base, target) < WORD
    ensures Arrives(base, target, k)
    decreases target - base
  {
    if base >= target {
      k := 0;
    } else {
      assert Doubled(base, target) == Doubled(2 * base, target);
      k := DoublingsArrive(2 * base, target);
      assert ShiftLeft(base) == 2 * base;
      forall j | 0 <= j < k + 1 ensures Shifted(base, j) < target && 2 * Shifted(base, j) < WORD {
        assert j > 0 ==> Shifted(base, j) == Shifted(2 * base, j - 1);
      }
      k := k + 1;
    }
  }

  lemma {:induction false} ShiftedIsWord(x: nat, k: nat)
    requires x < WORD
    ensures Shifted(x, k) < WORD
    decreases k
  {
    if k > 0 { ShiftedIsWord(ShiftLeft(x), k - 1); }
  }

  /** From any length, the loop arrives at the length meant, no shift wrapping, if and only if that is a word. */
  lemma LoopArrivesIff(base: nat, target: nat)
    requires base < WORD
    ensures Grown(base, target) < WORD <==> exists k :: Arrives(Start(base), target, k)
  {
    if Grown(base, target) < WORD {
      var k := DoublingsArrive(Start(base), target);
    } else {
      forall k | Arrives(Start(base), target, k) ensures false { ShiftedIsWord(Start(base), k); }
    }
  }

  lemma MultipleVanishes(q: nat, r: nat)
    ensures (q * WORD + r) % WORD == r % WORD
  {
  }

  lemma ModThenTimes(x: nat, p: nat)
    ensures ((x % WORD) * p) % WORD == (x * p) % WORD
  {
    var q, r := x / WORD, x % WORD;
    assert x == q * WORD + r;
    assert x * p == (q * p) * WORD + r * p;
    MultipleVanishes(q * p, r * p);
  }

  /** Wrapping or not, `k` turns multiply by 2^k in 64 bits. */
  lemma {:induction false} ShiftedIsProduct(x: nat, k: nat)
    requires x < WORD
    ensures Shifted(x, k) == (x * Pow2(k)) % WORD
    decreases k
  {
    if k > 0 {
      ShiftedIsProduct(ShiftLeft(x), k - 1);
      ModThenTimes(2 * x, Pow2(k - 1));
      DoubleMoves(x, Pow2(k - 1));
    }
  }

  lemma DoubleMoves(x: nat, p: nat)
    ensures 2 * x * p == x * (2 * p)
  {
  }

  lemma Regroup(x: nat, p: nat, q: nat)
    ensures x * (p * q) == (x * p) * q
  {
  }

  /** After 64 turns every bit has been shifted out. */
  lemma AllShiftedOut(x: nat, k: nat)
    requires x < WORD && k >= 64
    ensures Shifted(x, k) == 0
  {
    ShiftedIsProduct(x, k);
    HighPowers(k);
    Regroup(x, Pow2(k - 64), WORD);
    MultipleVanishes(x * Pow2(k - 64), 0);
  }

  lemma HighPowers(k: nat)
    requires k >= 64
    ensures Pow2(k) == Pow2(k - 64) * WORD
  {
    WordIsPower();
    Pow2Adds(k - 64, 64);
  }

  /** One of the first 64 shifts of the length reaches the target. */
  ghost predicate SomeShiftReaches(x: nat, target: nat) {
    exists k :: ShiftReaches(x, target, k)
  }

  predicate ShiftReaches(x: nat, target: nat, k: nat) {
    k < 64 && (x * Pow2(k)) % WORD >= target
  }

  /** From any length, the loop ends if and only if one of 64 products is large enough; else it spins at zero. */
  lemma LoopEndsIff(base: nat, target: nat)
    requires base < WORD && target > 0
    ensures SomeShiftReaches(Start(base), target) <==> exists k :: Shifted(Start(base), k) >= target
  {
    var x := Start(base);
    if SomeShiftReaches(x, target) {
      var k :| ShiftReaches(x, target, k);
      ShiftedIsProduct(x, k);
      assert Shifted(x, k) >= target;
    } else {
      forall k: nat ensures Shifted(x, k) < target {
        ShiftedIsProduct(x, k);
        if k >= 64 { AllShiftedOut(x, k); } else { assert !ShiftReaches(x, target, k); }
      }
    }
  }

  lemma ThreeQuarters()
    ensures 3 * Pow2(62) == 0xC000_0000_0000_0000
  {
    WordIsPower();
    assert Pow2(63) == 2 * Pow2(62);
  }

  lemma FromThree()
    ensures Shifted(3, 62) == 0xC000_0000_0000_0000
  {
    ThreeQuarters();
    ShiftedIsProduct(3, 62);
  }

  /** For instance: from 3, one past half a word is reached; from 2, it never is. */
  lemma PastHalfAWord()
    ensures exists k :: Shifted(3, k) >= HALF_WORD + 1
    ensures !exists k :: Shifted(2, k) >= HALF_WORD + 1
  {
    FromThree();
    assert Shifted(3, 62) >= HALF_WORD + 1;
    assert Pow2(1) == 2;
    PowerLoopEndsIff(1, HALF_WORD + 1);
  }

  // ---------- cost of growth ----------

  /** Length of a buffer with `used` readable bytes at its start after an uncapped append of `n` bytes. */
  function LengthAfter(length: nat, used: nat, n: nat): nat {
    if used + n <= length then length else Grown(length, used + n)
  }

  /** Bytes that append moves to new memory: all of the old memory, if it grows. */
  function Copied(length: nat, used: nat, n: nat): nat {
    if used + n <= length then 0 else length
  }

  function FinalLength(length: nat, used: nat, sizes: seq<nat>): nat
    decreases |sizes|
  {
    if sizes == [] then length
    else FinalLength(LengthAfter(length, used, sizes[0]), used + sizes[0], sizes[1..])
  }

  function TotalCopied(length: nat, used: nat, sizes: seq<nat>): nat
    decreases |sizes|
  {
    if sizes == [] then 0
    else Copied(length, used, sizes[0]) + TotalCopied(LengthAfter(length, used, sizes[0]), used + sizes[0], sizes[1..])
  }

  /** Growing at least doubles, and at most doubles what is needed. */
  lemma GrowthBounds(length: nat, used: nat, n: nat)
    requires used + n > length
    ensures 2 * length <= LengthAfter(length, used, n) <= 2 * (used + n)
  {
  }

  /** Over any run of appends the bytes moved by growth are at most the length gained. */
  lemma {:induction false} AmortisedGrowth(length: nat, used: nat, sizes: seq<nat>)
    requires used <= length
    ensures TotalCopied(length, used, sizes) <= FinalLength(length, used, sizes) - length
    decreases |sizes|
  {
    if sizes != [] {
      if used + sizes[0] > length { GrowthBounds(length, used, sizes[0]); }
      AmortisedGrowth(LengthAfter(length, used, sizes[0]), used + sizes[0], sizes[1..]);
    }
  }

  /** A length that is a whole number of pages stays one under uncapped growth. */
  lemma {:induction false} PagesStayWhole(pages: nat, page: nat, target: nat) returns (pages': nat)
    requires pages > 0 && page > 0 && pages * page > 0
    ensures Grown(pages * page, target) == pages' * page
    decreases target - pages * page
  {
    if pages * page < target {
      assert (2 * pages) * page == 2 * (pages * page);
      pages' := PagesStayWhole(2 * pages, page, target);
    } else {
      pages' := pages;
    }
  }
}
