/**
 * The size classes of the allocator: the chunk size table, the index
 * function that maps a requested byte count to a class (`get_chunk_index`,
 * modelled as written, bit tricks and all), and the corrected request guard
 * and class index that the allocator uses.
 *
 * Sizes are unbounded naturals; the C code works on 64-bit `size_t`, which
 * matters only inside the rounding step and is stated there as a bound.
 */
module SizeClasses {

  /** Smallest chunk size. */
  const MIN_CHUNK_SIZE: nat := 4
  /** Largest size the source's guard (`PassesSourceGuard`) lets through. */
  const MAX_CHUNK_SIZE: nat := 65536
  /** Number of free lists and of preallocation counters. */
  const CHUNK_CLASSES: nat := 14

  /** The chunk size table. It has 15 entries, one more than there are free lists. */
  const CHUNK_SIZES: seq<nat> := [4, 8, 16, 32, 64, 128, 256, 512, 1024, 2048, 4096, 8192, 16384, 32768, 65536]

  /** Number of entries of the chunk size table. */
  const TABLE_ENTRIES: nat := 15

  /** Size of the largest class that has a free list: CHUNK_SIZES[CHUNK_CLASSES - 1]. */
  const LARGEST_LISTED_SIZE: nat := 32768

  /** 2^63: above it, rounding up with `1 << (64 - clz(size))` shifts by 64 bits. */
  const ROUNDABLE_LIMIT: nat := 0x8000_0000_0000_0000

  function Pow2(k: nat): (r: nat)
    ensures r >= 1
  {
    if k == 0 then 1 else 2 * Pow2(k - 1)
  }

  /**
   * Number of significant bits of `n`: the arithmetic rendering of
   * `64 - clz(n)` for 0 < n < 2^64 (the bit-level identity is not proved here).
   */
  function BitLength(n: nat): nat
  {
    if n == 0 then 0 else 1 + BitLength(n / 2)
  }

  /** n is a power of two: the arithmetic rendering of the test `(n & (n - 1)) == 0` for n > 0. */
  predicate IsPowerOfTwo(n: nat)
  {
    n == 1 || (n > 1 && n % 2 == 0 && IsPowerOfTwo(n / 2))
  }

  /** The number of trailing zero bits of a non-zero value: the arithmetic rendering of `ctz(n)`. */
  function TrailingZeros(n: nat): nat
    requires n > 0
  {
    if n % 2 == 1 then 0 else 1 + TrailingZeros(n / 2)
  }

  /** Entry i of the chunk size table, in closed form: 2^(i+2) bytes (see ChunkSizeTable). */
  function ChunkSize(i: nat): (r: nat)
    requires i < TABLE_ENTRIES
    ensures MIN_CHUNK_SIZE <= r <= MAX_CHUNK_SIZE
  {
    Pow2Quarter(i + 2);
    LargestSizes();
    Pow2Order(i + 2, CHUNK_CLASSES + 2);
    Pow2(i + 2)
  }

  /** The two largest table entries as powers of two. */
  lemma LargestSizes()
    ensures Pow2(CHUNK_CLASSES + 1) == LARGEST_LISTED_SIZE
    ensures Pow2(CHUNK_CLASSES + 2) == MAX_CHUNK_SIZE
  {
  }

  /** Bytes held by `count` chunks of class c. */
  function ClassTotal(count: nat, c: nat): nat
    requires c < TABLE_ENTRIES
  {
    count * ChunkSize(c)
  }

  /** One more chunk of class c adds that class's size. */
  lemma ClassTotalSucc(count: nat, c: nat)
    requires c < TABLE_ENTRIES
    ensures ClassTotal(count + 1, c) == ClassTotal(count, c) + ChunkSize(c)
  {
  }

  /** The rounding step of get_chunk_index: a power of two stays, anything else becomes `1 << bitlength`. */
  function RoundUp(size: nat): nat
  {
    if IsPowerOfTwo(size) then size else Pow2(BitLength(size))
  }

  /**
   * get_chunk_index as written. Size 0 yields class 0; otherwise the result r
   * is the exponent of the rounded size over 4, so 4 * 2^r is that size. Sizes 1 and 2 would
   * take `ctz(0)`, which is undefined, and a size above 2^63 that is not a
   * power of two would shift by 64; both are excluded here (see
   * SmallSizesReachUndefinedCtz). The result is NOT bounded by
   * CHUNK_CLASSES: see GuardAdmitsUnlistedClass.
   */
  function ChunkIndex(size: nat): (r: nat)
    requires size == 0 || 3 <= size <= ROUNDABLE_LIMIT
    ensures size > 0 ==> RoundUp(size) == Pow2(r + 2)
  {
    if size == 0 then 0
    else
      RoundUpAtLeastFour(size);
      var k := BitLength(RoundUp(size)) - 1;
      Pow2Order(1, k);
      Pow2Quarter(k);
      TrailingZerosOfPow2(k - 2);
      TrailingZeros(RoundUp(size) / 4)
  }

  // ---------------------------------------------------------------------
  // Powers of two

  lemma {:induction false} Pow2StrictlyIncreasing(a: nat, b: nat)
    requires a < b
    ensures Pow2(a) < Pow2(b)
  {
    if a + 1 < b {
      Pow2StrictlyIncreasing(a, b - 1);
    }
  }

  /** Reading an exponent off a comparison of powers. */
  lemma Pow2Order(a: nat, b: nat)
    ensures Pow2(a) < Pow2(b) <==> a < b
  {
    if a < b {
      Pow2StrictlyIncreasing(a, b);
    } else if b < a {
      Pow2StrictlyIncreasing(b, a);
    }
  }

  lemma {:induction false} Pow2IsPowerOfTwo(k: nat)
    ensures IsPowerOfTwo(Pow2(k))
  {
    if k > 0 {
      Pow2IsPowerOfTwo(k - 1);
      assert Pow2(k) / 2 == Pow2(k - 1);
    }
  }

  lemma {:induction false} PowerOfTwoIsPow2(n: nat)
    requires IsPowerOfTwo(n)
    ensures n >= 1 && n == Pow2(BitLength(n) - 1)
  {
    if n > 1 {
      PowerOfTwoIsPow2(n / 2);
    }
  }

  lemma {:induction false} BitLengthBounds(n: nat)
    requires n > 0
    ensures BitLength(n) >= 1
    ensures Pow2(BitLength(n) - 1) <= n < Pow2(BitLength(n))
  {
    if n > 1 {
      BitLengthBounds(n / 2);
    }
  }

  lemma {:induction false} TrailingZerosOfPow2(k: nat)
    ensures TrailingZeros(Pow2(k)) == k
  {
    if k > 0 {
      TrailingZerosOfPow2(k - 1);
      assert Pow2(k) % 2 == 0 && Pow2(k) / 2 == Pow2(k - 1);
    }
  }

  lemma Pow2Quarter(k: nat)
    requires k >= 2
    ensures Pow2(k) / 4 == Pow2(k - 2)
  {
    assert Pow2(k) == 4 * Pow2(k - 2);
  }

  /** The table as written is the closed form: entry i is 2^(i+2), each entry doubling the one before. */
  lemma {:induction false} ChunkSizeTable(i: nat)
    requires i < TABLE_ENTRIES
    ensures |CHUNK_SIZES| == TABLE_ENTRIES && CHUNK_SIZES[i] == ChunkSize(i)
  {
    if i > 0 {
      ChunkSizeTable(i - 1);
      assert CHUNK_SIZES[i] == 2 * CHUNK_SIZES[i - 1];
    }
  }

  /** The rounded size is a power of two of at least 4 bytes, at least the size and less than twice it. */
  lemma RoundUpAtLeastFour(size: nat)
    requires size >= 3
    ensures RoundUp(size) >= 4
    ensures RoundUp(size) == Pow2(BitLength(RoundUp(size)) - 1)
  {
    if IsPowerOfTwo(size) {
      PowerOfTwoIsPow2(size);
    } else {
      BitLengthBounds(size);
      Pow2IsPowerOfTwo(BitLength(size));
      PowerOfTwoIsPow2(RoundUp(size));
    }
  }

  /**
   * What get_chunk_index computes, stated without bit tricks: for a size of
   * at least 3 bytes, class `r` is the one with 2^(r+1) < size <= 2^(r+2).
   */
  lemma ChunkIndexBracket(size: nat)
    requires 3 <= size <= ROUNDABLE_LIMIT
    ensures Pow2(ChunkIndex(size) + 1) < size <= Pow2(ChunkIndex(size) + 2)
  {
    var r, b := ChunkIndex(size), BitLength(size);
    BitLengthBounds(size);
    if !IsPowerOfTwo(size) {
      // the rounded size 2^(r+2) is 2^b, and 2^(b-1) < size < 2^b
      Pow2Order(b, r + 2);
      Pow2Order(r + 2, b);
      Pow2IsPowerOfTwo(b - 1);
    }
  }

  /** When the rounding step yields 2^k, the index is k - 2. */
  lemma ClassOfPow2(size: nat, k: nat)
    requires 3 <= size <= ROUNDABLE_LIMIT && k >= 2
    requires RoundUp(size) == Pow2(k)
    ensures ChunkIndex(size) == k - 2
  {
    Pow2Quarter(k);
    TrailingZerosOfPow2(k - 2);
  }

  // ---------------------------------------------------------------------
  // Properties of get_chunk_index

  /**
   * For a size of at least 3 bytes whose index lies inside the table,
   * get_chunk_index returns the smallest class whose chunk holds the size.
   */
  lemma ChunkIndexIsLeastClass(size: nat)
    requires 3 <= size <= ROUNDABLE_LIMIT
    requires ChunkIndex(size) < TABLE_ENTRIES
    ensures size <= ChunkSize(ChunkIndex(size))
    ensures forall i :: 0 <= i < ChunkIndex(size) ==> ChunkSize(i) < size
  {
    var r := ChunkIndex(size);
    ChunkIndexBracket(size);
    forall i | 0 <= i < r
      ensures ChunkSize(i) < size
    {
      if i + 2 < r + 1 {
        Pow2StrictlyIncreasing(i + 2, r + 1);
      }
    }
  }

  /** A size equal to a table entry maps to that entry's index. */
  lemma ChunkIndexOfChunkSize(j: nat)
    requires j < TABLE_ENTRIES
    ensures ChunkIndex(ChunkSize(j)) == j
  {
    Pow2Order(TABLE_ENTRIES + 1, j + 2);
    Pow2Order(1, j + 2);
    Pow2IsPowerOfTwo(j + 2);
    ClassOfPow2(ChunkSize(j), j + 2);
  }

  /** get_chunk_index never decreases as the size grows. */
  lemma ChunkIndexMonotonic(s1: nat, s2: nat)
    requires s1 == 0 || 3 <= s1 <= ROUNDABLE_LIMIT
    requires s2 == 0 || 3 <= s2 <= ROUNDABLE_LIMIT
    requires s1 <= s2
    ensures ChunkIndex(s1) <= ChunkIndex(s2)
  {
    if s1 != 0 {
      ChunkIndexBracket(s1);
      ChunkIndexBracket(s2);
      Pow2Order(ChunkIndex(s1) + 1, ChunkIndex(s2) + 2);
    }
  }

  /** The index names one of the CHUNK_CLASSES free lists exactly when the size is at most 32768. */
  lemma ChunkIndexInRange(size: nat)
    requires size == 0 || 3 <= size <= ROUNDABLE_LIMIT
    ensures size == 0 ==> ChunkIndex(size) == 0
    ensures ChunkIndex(size) < CHUNK_CLASSES <==> size <= LARGEST_LISTED_SIZE
  {
    LargestSizes();
    if size != 0 {
      var r := ChunkIndex(size);
      ChunkIndexBracket(size);
      Pow2Order(r + 1, CHUNK_CLASSES + 1);
      Pow2Order(CHUNK_CLASSES + 1, r + 2);
    }
  }

  // ---------------------------------------------------------------------
  // The request guard as written, and what it lets through

  /** The guard of mm_malloc and mm_free as written: the size is neither 0 nor above MAX_CHUNK_SIZE. */
  predicate PassesSourceGuard(size: nat)
  {
    !(size == 0 || size > MAX_CHUNK_SIZE)
  }

  /**
   * Sizes 1 and 2 pass the guard and are powers of two, so they are not
   * rounded, and `size / 4` is 0: get_chunk_index then takes `ctz(0)`.
   */
  lemma SmallSizesReachUndefinedCtz(size: nat)
    requires 1 <= size <= 2
    ensures PassesSourceGuard(size)
    ensures IsPowerOfTwo(size) && RoundUp(size) / 4 == 0
  {
    assert size == 2 ==> IsPowerOfTwo(size / 2);
  }

  /**
   * Every size in 32769..65536 passes the guard and maps to index 14, one past
   * the last of the CHUNK_CLASSES free lists.
   */
  lemma GuardAdmitsUnlistedClass(size: nat)
    requires LARGEST_LISTED_SIZE < size <= MAX_CHUNK_SIZE
    ensures PassesSourceGuard(size)
    ensures ChunkIndex(size) == CHUNK_CLASSES
  {
    LargestSizes();
    var r := ChunkIndex(size);
    ChunkIndexBracket(size);
    Pow2Order(r + 1, CHUNK_CLASSES + 2);
    Pow2Order(CHUNK_CLASSES + 1, r + 2);
  }

  // ---------------------------------------------------------------------
  // The corrected guard and class index used by the allocator

  /** A request the allocator serves: at least one byte and no more than the largest listed class. */
  predicate ValidRequest(size: nat)
  {
    0 < size <= LARGEST_LISTED_SIZE
  }

  /**
   * The class of a valid request: get_chunk_index for sizes of 3 bytes and
   * more, and class 0 (4-byte chunks) for sizes 1 and 2.
   */
  function ClassIndex(size: nat): (c: nat)
    requires ValidRequest(size)
    ensures c < CHUNK_CLASSES
    ensures size <= ChunkSize(c)
    ensures forall i :: 0 <= i < c ==> ChunkSize(i) < size
  {
    if size < 3 then 0
    else
      ChunkIndexInRange(size);
      ChunkIndexIsLeastClass(size);
      ChunkIndex(size)
  }

  /** Every listed class size is a valid request and maps back to its own class. */
  lemma ClassIndexOfChunkSize(d: nat)
    requires d < CHUNK_CLASSES
    ensures ValidRequest(ChunkSize(d)) && ClassIndex(ChunkSize(d)) == d
  {
    LargestSizes();
    Pow2Order(CHUNK_CLASSES + 1, d + 2);
    Pow2Order(1, d + 2);
    ChunkIndexOfChunkSize(d);
  }

  /** The corrected guard accepts exactly the sizes that get_chunk_index sends to an existing free list. */
  lemma ValidRequestIffListed(size: nat)
    requires 3 <= size <= ROUNDABLE_LIMIT
    ensures ValidRequest(size) <==> ChunkIndex(size) < CHUNK_CLASSES
  {
    ChunkIndexInRange(size);
  }
}
