/**
 * The benchmark's workload generator (generate_random_sizes): draw class
 * sizes at random until the next one would exceed the byte budget or the
 * request cap is reached, counting how often each class was drawn.
 *
 * `rand()` is a parameter: `rand(k)` is the value the k-th call returns.
 * Seeding with the clock is part of choosing that function.
 */
module Workload {
  import opened SizeClasses

  /** Sum of a sequence of sizes. */
  function Sum(s: seq<nat>): nat
  {
    if s == [] then 0 else Sum(s[..|s| - 1]) + s[|s| - 1]
  }

  /** The size drawn by the k-th call: `chunk_sizes[rand() % CHUNK_CLASSES]`. */
  function Drawn(rand: nat -> nat, k: nat): nat
  {
    ChunkSize(rand(k) % CHUNK_CLASSES)
  }

  /** Distinct table entries have distinct sizes. */
  lemma ChunkSizesDistinct(c: nat, d: nat)
    requires c < TABLE_ENTRIES && d < TABLE_ENTRIES && c != d
    ensures ChunkSize(c) != ChunkSize(d)
  {
    if c < d {
      Pow2StrictlyIncreasing(c + 2, d + 2);
    } else {
      Pow2StrictlyIncreasing(d + 2, c + 2);
    }
  }

  /** The first |w| calls of rand drew exactly the sizes in w. */
  predicate AllDrawn(rand: nat -> nat, w: seq<nat>)
  {
    forall j {:trigger Drawn(rand, j)} :: 0 <= j < |w| ==> w[j] == Drawn(rand, j)
  }

  /**
   * w is the workload generate_random_sizes draws from rand: the first |w|
   * draws in order, within the budget, and generation stopped only at the
   * cap or because the next draw would overshoot the budget.
   */
  predicate DrawnUntilStop(rand: nat -> nat, totalSize: nat, maxCount: nat, w: seq<nat>)
  {
    |w| <= maxCount && AllDrawn(rand, w) && Sum(w) <= totalSize &&
    (|w| == maxCount || totalSize < Sum(w) + Drawn(rand, |w|))
  }

  /** counts holds, for each class, the number of entries of w of that class's size. */
  predicate Tally(counts: seq<nat>, w: seq<nat>)
  {
    |counts| == CHUNK_CLASSES &&
    forall c :: 0 <= c < CHUNK_CLASSES ==> counts[c] == multiset(w)[ChunkSize(c)]
  }

  /** counts is base plus, for each class, the number of entries of w of that class's size. */
  predicate Tallied(counts: seq<nat>, base: seq<nat>, w: seq<nat>)
  {
    |counts| == |base| == CHUNK_CLASSES &&
    forall c :: 0 <= c < CHUNK_CLASSES ==> counts[c] == base[c] + multiset(w)[ChunkSize(c)]
  }

  /**
   * The state after generate_random_sizes has drawn the workload w: w is what
   * rand drew, it fits the budget, the size buffer holds w followed by its
   * untouched old contents, and the requested counts have tallied w.
   */
  predicate Generated(rand: nat -> nat, totalSize: nat, w: seq<nat>,
                      sizes: seq<nat>, oldSizes: seq<nat>, counts: seq<nat>, oldCounts: seq<nat>)
  {
    |w| <= |oldSizes| &&
    sizes == w + oldSizes[|w|..] &&
    AllDrawn(rand, w) &&
    Sum(w) <= totalSize &&
    Tallied(counts, oldCounts, w)
  }

  /**
   * generate_random_sizes. Fills `sizes[0..n)` and returns n, at most
   * `maxCount`. The drawn workload is Generated: entry j is the size drawn by
   * the j-th call of rand, the entries add up to at most `totalSize`, the rest
   * of the buffer is untouched and each class's requested count grows by the
   * number of entries of its size. Generation stops only at the cap or when
   * the next drawn size would overshoot the budget.
   */
  method GenerateRandomSizes(totalSize: nat, sizes: array<nat>, maxCount: nat,
                             requestedCounts: array<nat>, rand: nat -> nat)
    returns (n: nat, ghost workload: seq<nat>)
    requires maxCount <= sizes.Length
    requires requestedCounts.Length == CHUNK_CLASSES
    requires sizes != requestedCounts
    modifies sizes, requestedCounts
    ensures n <= maxCount && |workload| == n
    ensures Generated(rand, totalSize, workload, sizes[..], old(sizes[..]), requestedCounts[..], old(requestedCounts[..]))
    ensures n == maxCount || totalSize < Sum(workload) + Drawn(rand, n)
  {
    n := 0;
    var usedMemory := 0;
    workload := [];
    while usedMemory < totalSize && n < maxCount
      invariant n <= maxCount && |workload| == n && usedMemory == Sum(workload)
      invariant Generated(rand, totalSize, workload, sizes[..], old(sizes[..]), requestedCounts[..], old(requestedCounts[..]))
    {
      var randIndex := rand(n) % CHUNK_CLASSES;
      var chunkSize := ChunkSize(randIndex);
      if usedMemory + chunkSize > totalSize {
        break;
      }
      GeneratedStep(rand, totalSize, workload, sizes[..], old(sizes[..]), requestedCounts[..], old(requestedCounts[..]), randIndex);
      RecordRequest(sizes, n, requestedCounts, randIndex);
      usedMemory := usedMemory + chunkSize;
      workload := workload + [chunkSize];
      n := n + 1;
    }
  }

  /** One iteration's writes: entry n of the buffer and the count of class c. */
  method RecordRequest(sizes: array<nat>, n: nat, requestedCounts: array<nat>, c: nat)
    requires n < sizes.Length && c < CHUNK_CLASSES && c < requestedCounts.Length && sizes != requestedCounts
    modifies sizes, requestedCounts
    ensures sizes[..] == old(sizes[..])[n := ChunkSize(c)]
    ensures requestedCounts[..] == old(requestedCounts[..])[c := old(requestedCounts[c]) + 1]
  {
    sizes[n] := ChunkSize(c);
    requestedCounts[c] := requestedCounts[c] + 1;
  }

  /** Drawing one more size that fits the budget, and recording it, keeps the state Generated. */
  lemma GeneratedStep(rand: nat -> nat, totalSize: nat, w: seq<nat>,
                      sizes: seq<nat>, oldSizes: seq<nat>, counts: seq<nat>, oldCounts: seq<nat>, c: nat)
    requires Generated(rand, totalSize, w, sizes, oldSizes, counts, oldCounts)
    requires |w| < |oldSizes| && c == rand(|w|) % CHUNK_CLASSES
    requires Sum(w) + ChunkSize(c) <= totalSize
    ensures Generated(rand, totalSize, w + [ChunkSize(c)], sizes[|w| := ChunkSize(c)], oldSizes,
                      counts[c := counts[c] + 1], oldCounts)
  {
    BufferStep(w, sizes, oldSizes, ChunkSize(c));
    AllDrawnStep(rand, w, c);
    SumAppend(w, ChunkSize(c));
    TallyStep(counts, oldCounts, w, c);
  }

  /** Writing x at the end of the drawn prefix w extends the prefix by x. */
  lemma BufferStep(w: seq<nat>, sizes: seq<nat>, oldSizes: seq<nat>, x: nat)
    requires |w| < |oldSizes| && sizes == w + oldSizes[|w|..]
    ensures sizes[|w| := x] == (w + [x]) + oldSizes[|w| + 1..]
  {
    var rest := oldSizes[|w|..];
    assert (w + rest)[|w| := x] == (w + [x]) + rest[1..];
    assert rest[1..] == oldSizes[|w| + 1..];
  }

  /** The size drawn by the next call of rand extends a drawn workload. */
  lemma AllDrawnStep(rand: nat -> nat, w: seq<nat>, c: nat)
    requires AllDrawn(rand, w) && c == rand(|w|) % CHUNK_CLASSES
    ensures AllDrawn(rand, w + [ChunkSize(c)])
  {
    assert ChunkSize(c) == Drawn(rand, |w|);
  }

  /** Adding an entry adds its size to the sum. */
  lemma SumAppend(s: seq<nat>, x: nat)
    ensures Sum(s + [x]) == Sum(s) + x
  {
    assert (s + [x])[..|s|] == s;
  }

  /** Counting one more entry of class d keeps the tally. */
  lemma TallyStep(counts: seq<nat>, base: seq<nat>, w: seq<nat>, d: nat)
    requires Tallied(counts, base, w) && d < CHUNK_CLASSES
    ensures Tallied(counts[d := counts[d] + 1], base, w + [ChunkSize(d)])
  {
    forall c | 0 <= c < CHUNK_CLASSES
      ensures counts[d := counts[d] + 1][c] == base[c] + multiset(w + [ChunkSize(d)])[ChunkSize(c)]
    {
      CountAppend(w, ChunkSize(d), ChunkSize(c));
      if c != d {
        ChunkSizesDistinct(c, d);
      }
    }
  }

  /** Requested counts of classes 0..m-1 for the workload s, added up. */
  function CountedRequests(s: seq<nat>, m: nat): nat
    requires m <= CHUNK_CLASSES
  {
    if m == 0 then 0 else CountedRequests(s, m - 1) + multiset(s)[ChunkSize(m - 1)]
  }

  /** Requested bytes of classes 0..m-1 for the workload s, added up. */
  function CountedBytes(s: seq<nat>, m: nat): nat
    requires m <= CHUNK_CLASSES
  {
    if m == 0 then 0 else CountedBytes(s, m - 1) + ClassTotal(multiset(s)[ChunkSize(m - 1)], m - 1)
  }

  /** x is the chunk size of one of the CHUNK_CLASSES classes. */
  predicate IsClassSize(x: nat)
  {
    exists c :: 0 <= c < CHUNK_CLASSES && x == ChunkSize(c)
  }

  /** Every entry of s is the size of one of the CHUNK_CLASSES classes. */
  predicate ClassSized(s: seq<nat>)
  {
    forall j :: 0 <= j < |s| ==> IsClassSize(s[j])
  }

  /** A non-empty class-sized workload ends in some class's size, and the rest of it is class-sized. */
  lemma LastClass(s: seq<nat>) returns (d: nat)
    requires ClassSized(s) && s != []
    ensures d < CHUNK_CLASSES && s[|s| - 1] == ChunkSize(d)
    ensures ClassSized(s[..|s| - 1])
  {
    var init := s[..|s| - 1];
    forall j | 0 <= j < |init|
      ensures IsClassSize(init[j])
    {
      assert init[j] == s[j];
    }
    assert IsClassSize(s[|s| - 1]);
    d :| 0 <= d < CHUNK_CLASSES && s[|s| - 1] == ChunkSize(d);
  }

  /** Appending x to a workload adds one occurrence of x and none of any other size. */
  lemma CountAppend(s: seq<nat>, x: nat, y: nat)
    ensures multiset(s + [x])[y] == multiset(s)[y] + (if x == y then 1 else 0)
  {
    assert multiset(s + [x]) == multiset(s) + multiset{x};
  }

  lemma {:induction false} CountedEmpty(m: nat)
    requires m <= CHUNK_CLASSES
    ensures CountedRequests([], m) == 0 && CountedBytes([], m) == 0
  {
    if m > 0 {
      CountedEmpty(m - 1);
    }
  }

  /** Appending a class-d entry adds one to that class's count and nothing to the others. */
  lemma {:induction false} CountedRequestsStep(s: seq<nat>, d: nat, m: nat)
    requires d < CHUNK_CLASSES && m <= CHUNK_CLASSES
    ensures CountedRequests(s + [ChunkSize(d)], m) == CountedRequests(s, m) + (if d < m then 1 else 0)
  {
    if m > 0 {
      CountedRequestsStep(s, d, m - 1);
      var c := m - 1;
      CountAppend(s, ChunkSize(d), ChunkSize(c));
      if c != d {
        ChunkSizesDistinct(c, d);
      }
    }
  }

  /** Appending a class-d entry adds ChunkSize(d) to class d's bytes and nothing to another class's. */
  lemma ClassTotalAppend(s: seq<nat>, d: nat, c: nat)
    requires d < CHUNK_CLASSES && c < CHUNK_CLASSES
    ensures ClassTotal(multiset(s + [ChunkSize(d)])[ChunkSize(c)], c)
         == ClassTotal(multiset(s)[ChunkSize(c)], c) + (if c == d then ChunkSize(d) else 0)
  {
    CountAppend(s, ChunkSize(d), ChunkSize(c));
    if c != d {
      ChunkSizesDistinct(c, d);
    } else {
      ClassTotalSucc(multiset(s)[ChunkSize(c)], c);
    }
  }

  /** Appending a class-d entry adds that class's size to the byte total and nothing else. */
  lemma {:induction false} CountedBytesStep(s: seq<nat>, d: nat, m: nat)
    requires d < CHUNK_CLASSES && m <= CHUNK_CLASSES
    ensures CountedBytes(s + [ChunkSize(d)], m) == CountedBytes(s, m) + (if d < m then ChunkSize(d) else 0)
  {
    if m > 0 {
      CountedBytesStep(s, d, m - 1);
      ClassTotalAppend(s, d, m - 1);
    }
  }

  /**
   * For a class-sized workload, the requested counts add up to its length and,
   * weighted by class size, to its byte total: the statistics table accounts
   * for every generated request and every generated byte.
   */
  lemma {:induction false} RequestedCountsAccount(s: seq<nat>)
    requires ClassSized(s)
    ensures CountedRequests(s, CHUNK_CLASSES) == |s|
    ensures CountedBytes(s, CHUNK_CLASSES) == Sum(s)
  {
    if s == [] {
      CountedEmpty(CHUNK_CLASSES);
    } else {
      var init := s[..|s| - 1];
      var d := LastClass(s);
      RequestedCountsAccount(init);
      assert s == init + [ChunkSize(d)];
      CountedRequestsStep(init, d, CHUNK_CLASSES);
      CountedBytesStep(init, d, CHUNK_CLASSES);
    }
  }

  /** A generated workload is class-sized. */
  lemma GeneratedIsClassSized(rand: nat -> nat, s: seq<nat>)
    requires AllDrawn(rand, s)
    ensures ClassSized(s)
  {
    forall j | 0 <= j < |s|
      ensures IsClassSize(s[j])
    {
      var c := rand(j) % CHUNK_CLASSES;
      assert s[j] == Drawn(rand, j) == ChunkSize(c);
    }
  }
}
