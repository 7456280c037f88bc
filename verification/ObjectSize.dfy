/**
The object size that create_block_obj_allocator settles on, and the batch size that follows from it.
*/
module ObjectSize {
  import opened Arith

  const DEFAULT_BLOCK_SIZE: nat := 1024 * 1024
  const POINTER_BYTES: nat := 8
  const UINT32: nat := 0x1_0000_0000

  function Pow2(k: nat): (p: nat)
    ensures p > 0
  {
    if k == 0 then 1 else 2 * Pow2(k - 1)
  }

  ghost predicate IsPow2(size: nat) {
    exists k :: size == Pow2(k)
  }

  function Log2(size: nat): nat {
    if size <= 1 then 0 else 1 + Log2(size / 2)
  }

  lemma {:induction false} Log2Bounds(size: nat)
    requires size > 0
    ensures Pow2(Log2(size)) <= size < 2 * Pow2(Log2(size))
  {
    if size > 1 {
      Log2Bounds(size / 2);
    }
  }

  lemma {:induction false} Log2OfPow2(k: nat)
    ensures Log2(Pow2(k)) == k
  {
    if k > 0 {
      Log2OfPow2(k - 1);
      assert 2 * Pow2(k - 1) / 2 == Pow2(k - 1);
    }
  }

  // ---------- the bit test ----------

  /** Bitwise "and" of two numbers, from the last bit up. */
  function And(a: nat, b: nat): nat {
    if a == 0 || b == 0 then 0 else 2 * And(a / 2, b / 2) + One(a % 2 == 1 && b % 2 == 1)
  }

  /** The test of `is_pow_of_2` on 32 bits; below 0 the subtraction wraps around. */
  predicate LooksLikePow2(size: nat) {
    And(size, if size == 0 then UINT32 - 1 else size - 1) == 0
  }

  lemma {:induction false} AndSelf(a: nat)
    ensures And(a, a) == a
  {
    if a > 0 {
      AndSelf(a / 2);
    }
  }

  /** The test is right about everything but 0. */
  lemma {:induction false} BitTest(size: nat)
    ensures LooksLikePow2(size) <==> size == 0 || IsPow2(size)
  {
    if size == 1 {
      assert size == Pow2(0);
    } else if size % 2 == 1 {
      AndSelf(size / 2);
      assert size / 2 == (size - 1) / 2;
      OddIsNoPow2(size);
    } else if size > 0 {
      BitTest(size / 2);
      assert (size - 1) / 2 == size / 2 - 1;
      HalfIsPow2(size);
    }
  }

  lemma OddIsNoPow2(size: nat)
    requires size % 2 == 1 && size > 1
    ensures !IsPow2(size)
  {
    forall k: nat ensures size != Pow2(k) {
      assert k > 0 ==> Pow2(k) == 2 * Pow2(k - 1);
    }
  }

  lemma HalfIsPow2(size: nat)
    requires size % 2 == 0
    ensures IsPow2(size) <==> IsPow2(size / 2)
  {
    if k: nat :| size == Pow2(k) {
      assert k > 0 && size / 2 == Pow2(k - 1);
    }
    if k: nat :| size / 2 == Pow2(k) {
      assert size == Pow2(k + 1);
    }
  }

  // ---------- sizes ----------

  /** The exponent of the least power of two that is at least `size`. */
  predicate RoundsUp(size: nat, k: nat) {
    Pow2(k) >= size && (k > 0 ==> Pow2(k - 1) < size)
  }

  /** The exponent of the greatest power of two in what is left of `size`, doubled, when its highest bit is lost. */
  predicate LosesHighest(size: nat, k: nat) {
    Pow2(k) <= 2 * size - UINT32 < 2 * Pow2(k)
  }

  /** `GetK` rounds up if and only if that fits 32 bits. */
  method GetK(size: nat) returns (k: nat)
    requires size < UINT32
    ensures size <= UINT32 / 2 <==> RoundsUp(size, k)
    ensures size > UINT32 / 2 <==> LosesHighest(size, k)
    ensures k < 32
  {
    var rest: nat := size;
    if !LooksLikePow2(size) {
      rest := rest * 2 % UINT32;
    }
    ghost var start := rest;
    k := 0;
    while rest > 1
      invariant k + Log2(rest) == Log2(start)
    {
      k := k + 1;
      rest := rest / 2;
    }
    LeastExponent(size, start, k);
  }

  /** Shifting left by one and halving down to 1 rounds up to a power of two, unless the shift loses a bit. */
  lemma LeastExponent(size: nat, start: nat, k: nat)
    requires size < UINT32 && k == Log2(start)
    requires start == if LooksLikePow2(size) then size else size * 2 % UINT32
    ensures size <= UINT32 / 2 <==> RoundsUp(size, k)
    ensures size > UINT32 / 2 <==> LosesHighest(size, k)
    ensures k < 32
  {
    BitTest(size);
    HalfRange();
    if size == 0 {
      assert k == 0;
    } else if IsPow2(size) {
      var j: nat :| size == Pow2(j);
      Log2OfPow2(j);
      if j > 31 {
        Pow2Order(32, j);
      } else {
        Pow2Order(j, 31);
      }
    } else {
      NotPow2(size);
      if size < UINT32 / 2 {
        DoubledSize(size);
        if Log2(size) >= 31 {
          Pow2Order(31, Log2(size));
        }
      } else {
        ShiftedOut(size, start);
      }
    }
  }

  lemma HalfRange()
    ensures UINT32 == Pow2(32) && UINT32 / 2 == Pow2(31)
  {
    BlockIsPow2();
    assert Pow2(3) == 8 && Pow2(8) == 256;
    Pow2Product(20, 8);
    Pow2Product(28, 3);
  }

  lemma NotPow2(size: nat)
    requires size > 0 && !IsPow2(size)
    ensures Pow2(Log2(size)) < size < 2 * Pow2(Log2(size)) && size != UINT32 / 2
  {
    Log2Bounds(size);
    HalfRange();
    assert size != Pow2(Log2(size)) && size != Pow2(31);
  }

  lemma DoubledSize(size: nat)
    requires 0 < size < UINT32 / 2
    ensures Log2(size * 2 % UINT32) == 1 + Log2(size)
  {
    assert size * 2 % UINT32 == size * 2 && size * 2 / 2 == size;
  }

  /** A size of more than half the range loses its highest bit. */
  lemma ShiftedOut(size: nat, start: nat)
    requires UINT32 / 2 < size < UINT32 && start == size * 2 % UINT32
    ensures Log2(start) < 32 && Pow2(Log2(start)) < size && LosesHighest(size, Log2(start))
  {
    HalfRange();
    assert start == size * 2 - UINT32 && 0 < start < size;
    Log2Bounds(start);
    if Log2(start) >= 32 {
      Pow2Order(32, Log2(start));
    }
  }

  /**
  The object size that `create_block_obj_allocator` settles on: the least power of two that holds the request and a
  pointer or, above half the range of 32 bits, what is left when the highest bit is lost.
  */
  ghost predicate IsObjSize(requested: nat, objSize: nat) {
    exists k: nat :: objSize == Pow2(k) &&
      if requested <= UINT32 / 2 then RoundsUp(Least(requested), k) else LosesHighest(requested, k)
  }

  function Least(requested: nat): nat {
    if requested < POINTER_BYTES then POINTER_BYTES else requested
  }

  /** It holds the request if and only if half the range does, and just above that not even a pointer. */
  method CreateObjSize(requested: nat) returns (objSize: nat)
    requires requested < UINT32
    ensures IsObjSize(requested, objSize)
    ensures objSize < requested <==> requested > UINT32 / 2
    ensures objSize < POINTER_BYTES <==> UINT32 / 2 < requested < UINT32 / 2 + POINTER_BYTES / 2
    ensures 0 < objSize < UINT32
  {
    objSize := Least(requested);
    var k := GetK(objSize);
    Fits(k, objSize);
    PointerFits(requested, k);
    objSize := Pow2(k);
  }

  lemma Fits(k: nat, size: nat)
    requires k < 32 && (size <= UINT32 / 2 <==> RoundsUp(size, k)) && (size > UINT32 / 2 <==> LosesHighest(size, k))
    ensures Pow2(k) < UINT32
    ensures size > UINT32 / 2 <==> Pow2(k) < size
  {
    HalfRange();
    Pow2Order(k, 31);
  }

  lemma PointerFits(requested: nat, k: nat)
    requires if requested <= UINT32 / 2 then RoundsUp(Least(requested), k) else LosesHighest(requested, k)
    ensures Pow2(k) < POINTER_BYTES <==> UINT32 / 2 < requested < UINT32 / 2 + POINTER_BYTES / 2
  {
    assert Pow2(2) == 4 && Pow2(3) == 8;
    if k <= 2 {
      Pow2Order(k, 2);
    } else {
      Pow2Order(3, k);
    }
    hide Pow2;
  }

  lemma {:induction false} Pow2Order(j: nat, k: nat)
    requires j <= k
    ensures Pow2(j) <= Pow2(k) && Pow2(k) % Pow2(j) == 0 && Pow2(k) / Pow2(j) == Pow2(k - j)
    decreases k - j
  {
    if j < k {
      Pow2Order(j + 1, k);
      Pow2Product(j, k - j);
      Divides(Pow2(k), Pow2(j), Pow2(k - j));
    } else {
      Divides(Pow2(k), Pow2(j), 1);
    }
  }

  lemma {:induction false} Pow2Product(j: nat, k: nat)
    ensures Pow2(j) * Pow2(k) == Pow2(j + k)
  {
    if j > 0 {
      Pow2Product(j - 1, k);
      DoubledProduct(Pow2(j - 1), Pow2(k));
    }
  }

  lemma Divides(x: nat, d: nat, q: nat)
    requires d > 0 && x == d * q
    ensures x % d == 0 && x / d == q
  {
    DivRange(x, d, q);
    assert x == d * (x / d) + x % d;
  }

  lemma BlockIsPow2()
    ensures DEFAULT_BLOCK_SIZE == Pow2(20)
  {
    assert Pow2(5) == 32;
    Pow2Product(5, 5);
    Pow2Product(10, 10);
  }

  lemma SmallBatches(k: nat)
    requires k <= 20
    ensures Pow2(k) <= DEFAULT_BLOCK_SIZE
    ensures DEFAULT_BLOCK_SIZE / Pow2(k) >= 1 && DEFAULT_BLOCK_SIZE / Pow2(k) * Pow2(k) == DEFAULT_BLOCK_SIZE
  {
    BlockIsPow2();
    Pow2Order(k, 20);
    Pow2Product(20 - k, k);
  }

  lemma DoublePow2(k: nat)
    requires k > 0
    ensures Pow2(k) == 2 * Pow2(k - 1)
  {
  }

  lemma NoBatch(k: nat)
    requires k > 20
    ensures DEFAULT_BLOCK_SIZE / Pow2(k) == 0 && Pow2(k - 1) >= DEFAULT_BLOCK_SIZE && Pow2(k) == 2 * Pow2(k - 1)
  {
    BlockIsPow2();
    Pow2Order(20, k - 1);
    hide Pow2;
    DoublePow2(k);
    DivRange(DEFAULT_BLOCK_SIZE, Pow2(k), 0);
  }

  /**
  A batch is non-empty, and its objects fill a block exactly, if and only if at most a whole block is asked for, or a
  little more than half the range of 32 bits: then the objects are smaller than asked for.
  */
  lemma BatchSize(requested: nat, objSize: nat)
    requires IsObjSize(requested, objSize)
    ensures DEFAULT_BLOCK_SIZE / objSize >= 1 <==>
      requested <= DEFAULT_BLOCK_SIZE || UINT32 / 2 < requested < UINT32 / 2 + DEFAULT_BLOCK_SIZE
    ensures DEFAULT_BLOCK_SIZE / objSize >= 1 ==> DEFAULT_BLOCK_SIZE / objSize * objSize == DEFAULT_BLOCK_SIZE
  {
    BlockIsPow2();
    var k: nat :| objSize == Pow2(k) &&
      if requested <= UINT32 / 2 then RoundsUp(Least(requested), k) else LosesHighest(requested, k);
    hide Pow2;
    if k <= 20 {
      SmallBatches(k);
    } else {
      NoBatch(k);
    }
  }
}
