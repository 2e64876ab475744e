/**
 * The free-list allocator: the global memory manager with one LIFO free list
 * and one preallocation counter per class, its acquire (mm_malloc) and
 * release (mm_free) operations, the cyclic preallocation that seeds it, and
 * the acquire-all / release-all phase the benchmark runs over a workload.
 *
 * Blocks are abstract identities. A free list, which the C code threads
 * through the `next` word stored inside each free block, is a sequence of
 * identities, head first. The system heap (`malloc`) is an object that hands
 * out identities it has never handed out before.
 */
module Allocator {
  import opened SizeClasses
  import opened CyclicPool

  /** The identity of a block of memory. */
  type BlockId = nat

  /** A pointer that may be NULL. */
  datatype Option<T> = None | Some(value: T)

  /**
   * The memory manager's contents: the free lists head first, the
   * preallocated counts, and how many blocks the system heap has handed out
   * (the heap's blocks are 0, 1, ..., issued - 1).
   */
  datatype AllocState = AllocState(lists: seq<seq<BlockId>>, counts: seq<nat>, issued: nat)

  /** One list and one counter per class, and every block on a free list came from the heap. */
  predicate WellFormed(s: AllocState)
  {
    && |s.lists| == CHUNK_CLASSES
    && |s.counts| == CHUNK_CLASSES
    && forall c, j :: 0 <= c < |s.lists| && 0 <= j < |s.lists[c]| ==> s.lists[c][j] < s.issued
  }

  /** A block is free when it is on one of the free lists. */
  predicate OnSomeList(s: AllocState, b: BlockId)
  {
    exists c :: 0 <= c < |s.lists| && b in s.lists[c]
  }

  /** The state after acquiring, and the block acquired (None for NULL). */
  datatype Acquired = Acquired(state: AllocState, block: Option<BlockId>)

  /**
   * mm_malloc. An invalid size yields NULL and changes nothing. Otherwise the
   * head of the size's class list is popped and returned; if that list is
   * empty, the heap supplies a fresh block, one it never handed out before
   * and so on no free list. Only the
   * size's class list is touched, and never the preallocated counts.
   */
  function Acquire(s: AllocState, size: nat): (r: Acquired)
    requires WellFormed(s)
    ensures WellFormed(r.state)
    ensures r.state.counts == s.counts
    ensures r.block.Some? <==> ValidRequest(size)
    ensures !ValidRequest(size) ==> r.state == s
    ensures ValidRequest(size) ==>
      var c := ClassIndex(size);
      && (forall d :: 0 <= d < CHUNK_CLASSES && d != c ==> r.state.lists[d] == s.lists[d])
      && (s.lists[c] != [] ==>
            r.block == Some(s.lists[c][0]) && r.state.lists[c] == s.lists[c][1..] && r.state.issued == s.issued)
      && (s.lists[c] == [] ==>
            s.issued <= r.block.value && !OnSomeList(s, r.block.value) && r.state.lists == s.lists)
    ensures r.block.Some? ==> r.block.value < r.state.issued
  {
    if !ValidRequest(size) then Acquired(s, None)
    else
      var c := ClassIndex(size);
      if s.lists[c] != [] then
        Acquired(s.(lists := s.lists[c := s.lists[c][1..]]), Some(s.lists[c][0]))
      else
        Acquired(s.(issued := s.issued + 1), Some(s.issued))
  }

  /**
   * mm_free. A NULL pointer or an invalid size changes nothing; otherwise the
   * block becomes the new head of its size's class list, and nothing else
   * changes.
   */
  function Release(s: AllocState, ptr: Option<BlockId>, size: nat): (r: AllocState)
    requires WellFormed(s)
    requires ptr.Some? ==> ptr.value < s.issued
    ensures WellFormed(r)
    ensures r.counts == s.counts && r.issued == s.issued
    ensures ptr.None? || !ValidRequest(size) ==> r == s
    ensures ptr.Some? && ValidRequest(size) ==>
      var c := ClassIndex(size);
      && r.lists[c] == [ptr.value] + s.lists[c]
      && forall d :: 0 <= d < CHUNK_CLASSES && d != c ==> r.lists[d] == s.lists[d]
  {
    if ptr.None? || !ValidRequest(size) then s
    else
      var c := ClassIndex(size);
      s.(lists := s.lists[c := [ptr.value] + s.lists[c]])
  }

  /** Releasing a block and acquiring the same size again returns that block and restores the state. */
  lemma ReleaseThenAcquire(s: AllocState, p: BlockId, size: nat)
    requires WellFormed(s) && p < s.issued && ValidRequest(size)
    ensures Acquire(Release(s, Some(p), size), size) == Acquired(s, Some(p))
  {
    var c := ClassIndex(size);
    var t := Release(s, Some(p), size);
    assert t.lists[c][1..] == s.lists[c];
    assert t.lists[c := t.lists[c][1..]] == s.lists;
  }

  /**
   * Acquiring from a non-empty list and releasing the block with the same
   * size puts the list back as it was.
   */
  lemma AcquireThenRelease(s: AllocState, size: nat)
    requires WellFormed(s) && ValidRequest(size) && s.lists[ClassIndex(size)] != []
    ensures Release(Acquire(s, size).state, Acquire(s, size).block, size) == s
  {
    var c := ClassIndex(size);
    var a := Acquire(s, size);
    assert [s.lists[c][0]] + s.lists[c][1..] == s.lists[c];
    assert a.state.lists[c := [s.lists[c][0]] + a.state.lists[c]] == s.lists;
  }

  // ---------------------------------------------------------------------
  // The benchmark's acquire-all / release-all phase over a workload

  /** The state after a batch of acquisitions, and the block each request got. */
  datatype Batch = Batch(state: AllocState, blocks: seq<Option<BlockId>>)

  /** Acquire one block per request, in request order. */
  function AcquireAll(s: AllocState, sizes: seq<nat>): (r: Batch)
    requires WellFormed(s)
    ensures WellFormed(r.state)
    ensures r.state.counts == s.counts && s.issued <= r.state.issued
    ensures |r.blocks| == |sizes|
    ensures forall j :: 0 <= j < |sizes| ==> (r.blocks[j].Some? <==> ValidRequest(sizes[j]))
    ensures forall j :: 0 <= j < |sizes| && r.blocks[j].Some? ==> r.blocks[j].value < r.state.issued
  {
    if sizes == [] then Batch(s, [])
    else
      var b := AcquireAll(s, sizes[..|sizes| - 1]);
      var a := Acquire(b.state, sizes[|sizes| - 1]);
      Batch(a.state, b.blocks + [a.block])
  }

  /** Every pointer in `ptrs` is NULL or a block the heap has handed out. */
  predicate FromHeap(s: AllocState, ptrs: seq<Option<BlockId>>)
  {
    forall j :: 0 <= j < |ptrs| && ptrs[j].Some? ==> ptrs[j].value < s.issued
  }

  /** Release each pointer with its request's size, in request order. */
  function ReleaseAll(s: AllocState, ptrs: seq<Option<BlockId>>, sizes: seq<nat>): (r: AllocState)
    requires WellFormed(s) && FromHeap(s, ptrs) && |ptrs| == |sizes|
    ensures WellFormed(r)
    ensures r.counts == s.counts && r.issued == s.issued
  {
    if sizes == [] then s
    else
      var n := |sizes| - 1;
      Release(ReleaseAll(s, ptrs[..n], sizes[..n]), ptrs[n], sizes[n])
  }

  /** How many requests of a workload are valid and fall in class c. */
  function Requests(sizes: seq<nat>, c: nat): nat
  {
    if sizes == [] then 0
    else
      var last := sizes[|sizes| - 1];
      Requests(sizes[..|sizes| - 1], c) + (if ValidRequest(last) && ClassIndex(last) == c then 1 else 0)
  }

  /** After acquiring a workload, list c has lost one block per request of class c, as long as it had any. */
  lemma {:induction false} AcquireAllLength(s: AllocState, sizes: seq<nat>, c: nat)
    requires WellFormed(s) && c < CHUNK_CLASSES
    ensures |AcquireAll(s, sizes).state.lists[c]| ==
      if Requests(sizes, c) <= |s.lists[c]| then |s.lists[c]| - Requests(sizes, c) else 0
  {
    if sizes != [] {
      AcquireAllLength(s, sizes[..|sizes| - 1], c);
    }
  }

  /** Releasing the blocks of a workload adds one block to list c per request of class c. */
  lemma {:induction false} ReleaseAllLength(s: AllocState, ptrs: seq<Option<BlockId>>, sizes: seq<nat>, c: nat)
    requires WellFormed(s) && FromHeap(s, ptrs) && |ptrs| == |sizes| && c < CHUNK_CLASSES
    requires forall j :: 0 <= j < |sizes| ==> (ptrs[j].Some? <==> ValidRequest(sizes[j]))
    ensures |ReleaseAll(s, ptrs, sizes).lists[c]| == |s.lists[c]| + Requests(sizes, c)
  {
    if sizes != [] {
      var n := |sizes| - 1;
      ReleaseAllLength(s, ptrs[..n], sizes[..n], c);
    }
  }

  /**
   * The benchmark phase leaves list c as long as the larger of its former
   * length and the number of requests of class c: the blocks the heap had to
   * supply stay on the free lists afterwards.
   */
  lemma BenchmarkPhaseLength(s: AllocState, sizes: seq<nat>, c: nat)
    requires WellFormed(s) && c < CHUNK_CLASSES
    ensures var b := AcquireAll(s, sizes);
      |ReleaseAll(b.state, b.blocks, sizes).lists[c]| == if |s.lists[c]| < Requests(sizes, c) then Requests(sizes, c) else |s.lists[c]|
  {
    var b := AcquireAll(s, sizes);
    AcquireAllLength(s, sizes, c);
    ReleaseAllLength(b.state, b.blocks, sizes, c);
  }

  // ---------------------------------------------------------------------
  // The imperative allocator

  /** The system heap: `malloc` never fails here and never hands out a block twice. */
  class SystemHeap {
    /** Blocks 0 .. issued - 1 have been handed out. */
    var issued: nat

    constructor ()
      ensures issued == 0
    {
      issued := 0;
    }

    method Malloc() returns (b: BlockId)
      modifies this
      ensures b == old(issued) && issued == old(issued) + 1
    {
      b := issued;
      issued := issued + 1;
    }
  }

  /** The global `mem_manager`: the free-list heads and preallocated counts, one per class. */
  class MemoryManager {
    const freeList: array<seq<BlockId>>
    const preallocatedCounts: array<nat>
    const heap: SystemHeap

    ghost function State(): AllocState
      reads freeList, preallocatedCounts, heap
    {
      AllocState(freeList[..], preallocatedCounts[..], heap.issued)
    }

    ghost predicate Valid()
      reads freeList, preallocatedCounts, heap
    {
      WellFormed(State())
    }

    /** Empty lists and zero counts, as the static initialiser of `mem_manager` sets them. */
    constructor (heap: SystemHeap)
      ensures Valid()
      ensures fresh(freeList) && fresh(preallocatedCounts) && this.heap == heap
      ensures State() == AllocState(seq(CHUNK_CLASSES, _ => []), seq(CHUNK_CLASSES, _ => 0), heap.issued)
    {
      freeList := new seq<BlockId>[CHUNK_CLASSES](_ => []);
      preallocatedCounts := new nat[CHUNK_CLASSES](_ => 0);
      this.heap := heap;
    }

    /** mm_malloc: NULL for an invalid size, else the head of the class list or a fresh heap block. */
    method Malloc(size: nat) returns (p: Option<BlockId>)
      requires Valid()
      modifies freeList, heap
      ensures Valid()
      ensures Acquired(State(), p) == Acquire(old(State()), size)
    {
      if !ValidRequest(size) {
        return None;
      }
      var index := ClassIndex(size);
      if freeList[index] != [] {
        p := Some(freeList[index][0]);
        freeList[index] := freeList[index][1..];
      } else {
        var block := heap.Malloc();
        p := Some(block);
      }
    }

    /** mm_free: push the block onto the head of its size's class list. */
    method Free(ptr: Option<BlockId>, size: nat)
      requires Valid()
      requires ptr.Some? ==> ptr.value < heap.issued
      modifies freeList
      ensures Valid()
      ensures State() == Release(old(State()), ptr, size)
    {
      if ptr.None? || !ValidRequest(size) {
        return;
      }
      var index := ClassIndex(size);
      freeList[index] := [ptr.value] + freeList[index];
    }

    /** One step of preallocate_memory: take a heap block and push it onto list i, counting it. */
    method PushFreshBlock(i: nat, ghost oldLists: seq<seq<BlockId>>, ghost oldCounts: seq<nat>, ghost base: nat, ghost n: nat)
      requires Valid() && i == StepClass(n) && heap.issued == base + n
      requires Seeded(freeList[..], preallocatedCounts[..], oldLists, oldCounts, base, n)
      modifies freeList, preallocatedCounts, heap
      ensures Valid()
      ensures heap.issued == old(heap.issued) + 1
      ensures freeList[..] == old(freeList[..])[i := [old(heap.issued)] + old(freeList[i])]
      ensures preallocatedCounts[..] == old(preallocatedCounts[..])[i := old(preallocatedCounts[i]) + 1]
      ensures Seeded(freeList[..], preallocatedCounts[..], oldLists, oldCounts, base, n + 1)
    {
      SeededStep(freeList[..], preallocatedCounts[..], oldLists, oldCounts, base, n);
      var block := heap.Malloc();
      freeList[i] := [block] + freeList[i];
      preallocatedCounts[i] := preallocatedCounts[i] + 1;
    }

    /**
     * preallocate_memory: visit the classes cyclically, taking one heap block
     * per visit and pushing it onto the visited list, while the next block
     * still fits under twice the budget. Returns the bytes taken and, as a
     * ghost, the number of blocks.
     */
    method Preallocate(totalMemory: nat) returns (allocatedMemory: nat, ghost blocks: nat)
      requires Valid()
      modifies freeList, preallocatedCounts, heap
      ensures Valid()
      ensures allocatedMemory == CyclicBytes(blocks)
      ensures allocatedMemory <= 2 * totalMemory < allocatedMemory + ChunkSize(StepClass(blocks))
      ensures heap.issued == old(heap.issued) + blocks
      ensures Seeded(freeList[..], preallocatedCounts[..], old(freeList[..]), old(preallocatedCounts[..]), old(heap.issued), blocks)
    {
      ghost var base := heap.issued;
      allocatedMemory, blocks := 0, 0;
      var i := 0;
      while allocatedMemory + ChunkSize(i) <= totalMemory * 2
        invariant Valid()
        invariant i == StepClass(blocks)
        invariant allocatedMemory == CyclicBytes(blocks) <= 2 * totalMemory
        invariant heap.issued == base + blocks
        invariant Seeded(freeList[..], preallocatedCounts[..], old(freeList[..]), old(preallocatedCounts[..]), base, blocks)
        decreases 2 * totalMemory - allocatedMemory
      {
        PushFreshBlock(i, old(freeList[..]), old(preallocatedCounts[..]), base, blocks);
        allocatedMemory := allocatedMemory + ChunkSize(i);
        CyclicBytesStep(blocks);
        StepClassNext(blocks);
        i := (i + 1) % CHUNK_CLASSES;
        blocks := blocks + 1;
      }
    }

    /** The acquire loop of the benchmark: one mm_malloc per request, results stored in `ptrs`. */
    method AcquireEach(sizes: array<nat>, n: nat, ptrs: array<Option<BlockId>>)
      requires Valid()
      requires n <= sizes.Length && n <= ptrs.Length
      modifies freeList, heap, ptrs
      ensures Valid()
      ensures var b := AcquireAll(old(State()), sizes[..n]); ptrs[..n] == b.blocks && State() == b.state
      ensures ptrs[n..] == old(ptrs[n..])
    {
      ghost var start := State();
      var i := 0;
      while i < n
        invariant 0 <= i <= n
        invariant Valid()
        invariant var b := AcquireAll(start, sizes[..i]); ptrs[..i] == b.blocks && State() == b.state
        invariant ptrs[n..] == old(ptrs[n..])
      {
        assert sizes[..i + 1][..i] == sizes[..i];
        ptrs[i] := Malloc(sizes[i]);
        i := i + 1;
      }
    }

    /** The release loop of the benchmark: one mm_free per request, with the request's size. */
    method ReleaseEach(sizes: array<nat>, n: nat, ptrs: array<Option<BlockId>>)
      requires Valid()
      requires n <= sizes.Length && n <= ptrs.Length && FromHeap(State(), ptrs[..n])
      modifies freeList
      ensures Valid()
      ensures State() == ReleaseAll(old(State()), ptrs[..n], sizes[..n])
    {
      ghost var start := State();
      var i := 0;
      while i < n
        invariant 0 <= i <= n
        invariant Valid() && heap.issued == start.issued
        invariant State() == ReleaseAll(start, ptrs[..i], sizes[..i])
      {
        assert sizes[..i + 1][..i] == sizes[..i] && ptrs[..i + 1][..i] == ptrs[..i];
        Free(ptrs[i], sizes[i]);
        i := i + 1;
      }
    }

    /**
     * The allocator phase of the benchmark: acquire a block for each of the
     * first n requests, then release them all with their request sizes.
     * Afterwards each list is as long as the larger of its former length and
     * the number of requests of its class.
     */
    method RunWorkload(sizes: array<nat>, n: nat, ptrs: array<Option<BlockId>>)
      requires Valid()
      requires n <= sizes.Length && n <= ptrs.Length
      modifies freeList, heap, ptrs
      ensures Valid()
      ensures var b := AcquireAll(old(State()), sizes[..n]);
        && ptrs[..n] == b.blocks
        && State() == ReleaseAll(b.state, b.blocks, sizes[..n])
      ensures ptrs[n..] == old(ptrs[n..])
      ensures forall c :: 0 <= c < CHUNK_CLASSES ==>
        |freeList[c]| == if |old(freeList[c])| < Requests(sizes[..n], c) then Requests(sizes[..n], c) else |old(freeList[c])|
    {
      ghost var start := State();
      AcquireEach(sizes, n, ptrs);
      ReleaseEach(sizes, n, ptrs);
      forall c | 0 <= c < CHUNK_CLASSES
        ensures |freeList[c]| == if |start.lists[c]| < Requests(sizes[..n], c) then Requests(sizes[..n], c) else |start.lists[c]|
      {
        BenchmarkPhaseLength(start, sizes[..n], c);
      }
    }
  }
}
