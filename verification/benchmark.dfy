/**
 * The allocator half of the benchmark: generate a workload, seed the free
 * lists by cyclic preallocation, run the acquire-all / release-all phase,
 * and produce the per-class statistics (preallocated and requested counts).
 */
module Benchmark {
  import opened SizeClasses
  import opened CyclicPool
  import opened Allocator
  import opened Workload

  /** Capacity of the workload buffers. */
  const MAX_ALLOCATIONS: nat := 100000

  /** For a class-sized workload, the allocator's per-class request count is the number of entries of that class's size. */
  lemma {:induction false} RequestsOfClassSized(s: seq<nat>, c: nat)
    requires ClassSized(s) && c < CHUNK_CLASSES
    ensures Requests(s, c) == multiset(s)[ChunkSize(c)]
  {
    if s != [] {
      var init := s[..|s| - 1];
      var d := LastClass(s);
      RequestsOfClassSized(init, c);
      ClassIndexOfChunkSize(d);
      assert s == init + [ChunkSize(d)];
      CountAppend(init, ChunkSize(d), ChunkSize(c));
      if c != d {
        ChunkSizesDistinct(c, d);
      }
    }
  }

  /**
   * The workload step of `benchmark`: fresh buffers for MAX_ALLOCATIONS sizes
   * and for the requested counts (all zero), filled by the generator. The
   * workload is what rand drew, in order, stopping only at the cap or before
   * the first draw that would overshoot the budget; the requested column
   * counts each class's draws, so it adds up to n and, weighted by class
   * size, to the workload's bytes.
   */
  method GenerateWorkload(totalMemory: nat, rand: nat -> nat)
    returns (sizes: array<nat>, n: nat, requestedCounts: array<nat>, ghost workload: seq<nat>)
    ensures fresh(sizes) && fresh(requestedCounts)
    ensures sizes.Length == MAX_ALLOCATIONS && requestedCounts.Length == CHUNK_CLASSES
    ensures n == |workload| <= MAX_ALLOCATIONS && sizes[..n] == workload && ClassSized(workload)
    ensures DrawnUntilStop(rand, totalMemory, MAX_ALLOCATIONS, workload)
    ensures Tally(requestedCounts[..], workload)
    ensures CountedRequests(workload, CHUNK_CLASSES) == n && CountedBytes(workload, CHUNK_CLASSES) == Sum(workload)
  {
    sizes := new nat[MAX_ALLOCATIONS];
    requestedCounts := new nat[CHUNK_CLASSES](_ => 0);
    n, workload := GenerateRandomSizes(totalMemory, sizes, MAX_ALLOCATIONS, requestedCounts, rand);
    assert sizes[..n] == sizes[..][..n] == workload;
    GeneratedIsClassSized(rand, workload);
    RequestedCountsAccount(workload);
  }

  /**
   * The preallocation step of `benchmark`: the cyclic walk takes the most
   * steps whose bytes fit in twice the budget; the lists and counts are
   * Seeded by those steps, so each list and each count grows by its class's
   * visits.
   */
  method SeedLists(mm: MemoryManager, totalMemory: nat) returns (ghost blocks: nat)
    requires mm.Valid()
    modifies mm.freeList, mm.preallocatedCounts, mm.heap
    ensures mm.Valid() && mm.heap.issued == old(mm.heap.issued) + blocks
    ensures LargestFit(blocks, 2 * totalMemory)
    ensures Seeded(mm.freeList[..], mm.preallocatedCounts[..], old(mm.freeList[..]), old(mm.preallocatedCounts[..]),
                   old(mm.heap.issued), blocks)
    ensures forall c :: 0 <= c < CHUNK_CLASSES ==>
      mm.preallocatedCounts[c] == old(mm.preallocatedCounts[c]) + Visits(blocks, c)
    ensures forall c :: 0 <= c < CHUNK_CLASSES ==>
      |mm.freeList[c]| == |old(mm.freeList[c])| + Visits(blocks, c)
  {
    var _, b := mm.Preallocate(totalMemory);
    blocks := b;
    forall c | 0 <= c < CHUNK_CLASSES
      ensures |mm.freeList[c]| == |old(mm.freeList[c])| + Visits(blocks, c)
    {
      PushedBlocksCount(old(mm.heap.issued), blocks, c);
    }
  }

  /**
   * The allocator's share of `benchmark` once the workload is drawn:
   * preallocate for the budget, then acquire and release every request.
   * The state `seeded` after preallocation is Seeded by the cyclic steps, and
   * the final state is that of acquiring then releasing every request from
   * it. So each preallocated count grows by its class's cyclic visits, and
   * each list ends as long as the larger of what it held after preallocation
   * and the workload's requests of its class.
   */
  method AllocatorPhase(mm: MemoryManager, totalMemory: nat, sizes: array<nat>, n: nat, ghost workload: seq<nat>)
    returns (ghost blocks: nat, ghost seeded: AllocState)
    requires mm.Valid() && n <= MAX_ALLOCATIONS && n <= sizes.Length && sizes != mm.preallocatedCounts
    requires sizes[..n] == workload
    modifies mm.freeList, mm.preallocatedCounts, mm.heap
    ensures mm.Valid()
    ensures LargestFit(blocks, 2 * totalMemory)
    ensures WellFormed(seeded) && seeded.issued == old(mm.heap.issued) + blocks
    ensures Seeded(seeded.lists, seeded.counts, old(mm.freeList[..]), old(mm.preallocatedCounts[..]),
                   old(mm.heap.issued), blocks)
    ensures var b := AcquireAll(seeded, workload); mm.State() == ReleaseAll(b.state, b.blocks, workload)
    ensures forall c :: 0 <= c < CHUNK_CLASSES ==>
      mm.preallocatedCounts[c] == old(mm.preallocatedCounts[c]) + Visits(blocks, c)
    ensures forall c :: 0 <= c < CHUNK_CLASSES ==>
      var held := |old(mm.freeList[c])| + Visits(blocks, c);
      |mm.freeList[c]| == if held < Requests(workload, c) then Requests(workload, c) else held
  {
    blocks := SeedLists(mm, totalMemory);
    seeded := mm.State();
    var ptrs := new Option<BlockId>[MAX_ALLOCATIONS](_ => None);
    mm.RunWorkload(sizes, n, ptrs);
  }

  /**
   * The allocator part of `benchmark`: generate up to MAX_ALLOCATIONS
   * requests within the budget, preallocate for that budget, then acquire
   * and release every request. The workload is what rand drew under the
   * generator's stopping rule; preallocation took the most cyclic steps that
   * fit in twice the budget, reaching the state `seeded`, and the final state
   * is that of acquiring then releasing the workload from it. The statistics
   * table is consistent: its
   * requested column counts each class's requests; its preallocated column
   * grew by the cyclic visit counts; and each class's free list ends as long
   * as the larger of what it held after preallocation and what was requested.
   */
  method Run(mm: MemoryManager, totalMemory: nat, rand: nat -> nat)
    returns (n: nat, requestedCounts: array<nat>, ghost workload: seq<nat>, ghost blocks: nat, ghost seeded: AllocState)
    requires mm.Valid()
    modifies mm.freeList, mm.preallocatedCounts, mm.heap
    ensures mm.Valid() && fresh(requestedCounts)
    ensures n == |workload| && DrawnUntilStop(rand, totalMemory, MAX_ALLOCATIONS, workload)
    ensures LargestFit(blocks, 2 * totalMemory)
    ensures WellFormed(seeded) && seeded.issued == old(mm.heap.issued) + blocks
    ensures Seeded(seeded.lists, seeded.counts, old(mm.freeList[..]), old(mm.preallocatedCounts[..]),
                   old(mm.heap.issued), blocks)
    ensures var b := AcquireAll(seeded, workload); mm.State() == ReleaseAll(b.state, b.blocks, workload)
    ensures Tally(requestedCounts[..], workload)
    ensures forall c :: 0 <= c < CHUNK_CLASSES ==>
      mm.preallocatedCounts[c] == old(mm.preallocatedCounts[c]) + Visits(blocks, c)
    ensures forall c :: 0 <= c < CHUNK_CLASSES ==>
      var held := |old(mm.freeList[c])| + Visits(blocks, c);
      var requested := multiset(workload)[ChunkSize(c)];
      |mm.freeList[c]| == if held < requested then requested else held
  {
    var sizes;
    sizes, n, requestedCounts, workload := GenerateWorkload(totalMemory, rand);
    forall c | 0 <= c < CHUNK_CLASSES
      ensures Requests(workload, c) == multiset(workload)[ChunkSize(c)]
    {
      RequestsOfClassSized(workload, c);
    }
    blocks, seeded := AllocatorPhase(mm, totalMemory, sizes, n, workload);
  }
}
