# A verified model of a size-class free-list allocator

This project models the allocator core of a small C benchmark tool (`main.c`).
The tool keeps one LIFO free list per power-of-two size class in a global
`mem_manager`. It fills those lists ahead of time by visiting the classes
cyclically. It serves `mm_malloc` by popping a list head, or by calling the
system heap when the list is empty. `mm_free` pushes a block back onto a list.
A benchmark generates a random workload of class-sized requests, preallocates,
then acquires and releases every request.

The model has five modules:

- `SizeClasses` (`size_classes.dfy`) is pure code. It holds the chunk size table
  and `get_chunk_index` as written, step by step: the power-of-two test,
  rounding by `1 << (64 - clz)`, then `ctz(size / 4)`. Each bit operation is
  rendered as an arithmetic function (bit length, power-of-two test, trailing
  zeros); the bit-level identities themselves are not proved. It proves what
  the index means. It also holds the corrected guard (`ValidRequest`) and
  class index (`ClassIndex`) that the allocator uses (see Findings).
- `CyclicPool` (`cyclic_pool.dfy`) is pure code. It describes
  `preallocate_memory` as functions of the number of loop steps: which class
  each step visits, how many bytes the steps take, and which blocks each list
  receives.
- `Allocator` (`allocator.dfy`) comes in two layers.
  - The specification layer works on values. `AllocState` holds the lists
    (head first), the counts and the heap's issue counter. On it sit `Acquire`
    (`mm_malloc`), `Release` (`mm_free`) and the benchmark's batch phases.
  - The imperative layer is a `MemoryManager` class with the two fixed arrays
    of `mem_manager`. Its methods `Malloc`, `Free`, `Preallocate` and
    `RunWorkload` are proved against the specification functions. `SystemHeap`
    stands for `malloc`: it hands out block identities it never handed out
    before.
- `Workload` (`workload.dfy`) models `generate_random_sizes` as a method over
  the caller's arrays. `rand()` is a parameter: `rand(k)` is the value of the
  k-th call.
- `Benchmark` (`benchmark.dfy`) chains the allocator part of `benchmark`:
  generate, preallocate, then run, with the statistics table.

The chunk size table is used in closed form: entry i is `2^(i+2)` bytes. The
lemma `ChunkSizeTable` ties that closed form to the literal table of `main.c`.

Blocks are abstract identities (`BlockId = nat`). A free list is a
`seq<BlockId>`, head first. It replaces the `next` word the C code stores
inside each free block.

Three facts about the code shape the model:

- The chunk size table has 15 entries (4 to 65536), but there are only 14
  lists and 14 counters.
- `get_chunk_index(0)` returns 0. `mm_malloc` and `mm_free` reject 0 before
  they index.
- Preallocation fills up to twice the budget it is given. The model keeps the
  doubling (`2 * totalMemory`).

`Free` (and `Release`) requires that a non-NULL pointer is a block the heap
handed out (`ptr < issued`). The C code needs the same thing, since it writes
the link word into the block. This is what keeps "fresh block" meaningful.

## Model

| member | source | states |
|---|---|---|
| SizeClasses.ChunkSizeTable | main.c:30 | the literal chunk size table has 15 entries and entry i is 2^(i+2) bytes, the closed form the rest of the model uses |
| SizeClasses.ChunkSize | main.c:30 | every table entry lies between MIN_CHUNK_SIZE (4) and MAX_CHUNK_SIZE (65536) |
| SizeClasses.ChunkIndex | main.c:33-42 | get_chunk_index as written, defined for 0 and 3..2^63: a size above 0 is rounded up to a power of two, and the result r is its exponent less 2, so the rounded size is 4 * 2^r |
| SizeClasses.ChunkIndexBracket | main.c:33-41 | for sizes of 3 bytes or more, get_chunk_index returns the r with 2^(r+1) < size <= 2^(r+2); this is the rounding to the next power of two followed by the division by 4 |
| SizeClasses.ChunkIndexIsLeastClass | main.c:30-41 | for size >= 3 whose index lies inside the table, chunk_sizes[index] holds the size and every lower class is too small |
| SizeClasses.ChunkIndexOfChunkSize | main.c:30-41 | a size equal to chunk_sizes[j] gets index j, for every j of the 15-entry table |
| SizeClasses.ChunkIndexMonotonic | main.c:33-41 | get_chunk_index never decreases as the size grows, over its whole defined domain including 0 |
| SizeClasses.ChunkIndexInRange | main.c:33-41 | the index is below CHUNK_CLASSES (14) exactly when the size is at most 32768; size 0 gives 0 |
| SizeClasses.SmallSizesReachUndefinedCtz | main.c:37-41 | sizes 1 and 2 pass the allocator guard and are powers of two, so they are not rounded, and the ctz argument size/4 is 0 |
| SizeClasses.GuardAdmitsUnlistedClass | main.c:71-73 | every size in 32769..65536 passes the guard (neither 0 nor above MAX_CHUNK_SIZE) and gets index 14, one past the last of the 14 lists |
| SizeClasses.ClassIndex | main.c:33-41 | the corrected index of a valid request: below CHUNK_CLASSES, and the smallest class whose chunk holds the size, for sizes 1 and 2 too |
| SizeClasses.ClassIndexOfChunkSize | main.c:30-41 | each of the 14 listed class sizes is a valid request and maps back to its own class |
| SizeClasses.ValidRequestIffListed | main.c:71-73 | the corrected guard accepts exactly the sizes (of 3 bytes or more) that get_chunk_index sends to an existing list |
| CyclicPool.NextClass | main.c:63 | the class after c in the cycle is (c + 1) mod 14: the next class up, wrapping from 13 to 0 |
| CyclicPool.StepClassIsMod | main.c:47-63 | the class visited by step k, starting at 0 and advancing by `(i + 1) % CHUNK_CLASSES`, is k mod 14 |
| CyclicPool.SeededStep | main.c:51-58 | one loop step pushes block base + n onto the list of the visited class only and counts it there, so every list still holds its pushed blocks in front of its old contents and every count its visits |
| CyclicPool.VisitsClosedForm | main.c:47-63 | after n steps of the cyclic walk, class c has been visited n/14 times, plus one if c < n mod 14 |
| CyclicPool.VisitsBalanced | main.c:47-63 | from any start, the per-class increments differ by at most one, and a lower class never has fewer than a higher one |
| CyclicPool.VisitsTotal | main.c:58-63 | the per-class increments add up to the number of blocks preallocated |
| CyclicPool.CyclicBytesByClass | main.c:56-60 | the bytes preallocated equal the sum over classes of increment times chunk size |
| CyclicPool.StopsAtLargestFit | main.c:49-64 | the step count at which the loop stops is the largest one whose bytes fit in the doubled budget |
| CyclicPool.PushedBlocksCount | main.c:56-58 | each list receives exactly as many blocks as its count increments |
| CyclicPool.PushedBlocksRange | main.c:51-57 | every block pushed during preallocation is one the heap handed out during that call |
| Allocator.Acquire | main.c:70-83 | invalid size gives NULL and no change; otherwise the class list's head is returned and the list becomes its tail, or on an empty list a fresh block, never handed out before and so on no list, is returned and the lists stay; other lists and the counts never change |
| Allocator.Release | main.c:86-93 | NULL or an invalid size changes nothing; otherwise the block is prepended to its class list only, and the counts and heap are unchanged |
| Allocator.ReleaseThenAcquire | main.c:74-92 | mm_free(p, s) followed by mm_malloc(s) returns p and restores the whole state |
| Allocator.AcquireThenRelease | main.c:74-92 | mm_malloc(s) from a non-empty list followed by mm_free of the result with s restores the whole state |
| Allocator.AcquireAll | main.c:160-162 | acquiring a workload yields one pointer per request, non-NULL exactly for the valid requests, each a heap block, with the counts unchanged |
| Allocator.ReleaseAll | main.c:163-165 | releasing a workload keeps the state well formed and never changes the counts or the heap |
| Allocator.AcquireAllLength | main.c:160-162 | acquiring a workload shortens list c by its number of requests of class c, down to empty |
| Allocator.ReleaseAllLength | main.c:163-165 | releasing the acquired pointers lengthens list c by its number of requests of class c |
| Allocator.BenchmarkPhaseLength | main.c:159-165 | after acquire-all then release-all, list c is as long as the larger of its former length and its requests |
| Allocator.SystemHeap.Malloc | main.c:82 | the heap hands out a block it has never handed out before |
| Allocator.MemoryManager.constructor | main.c:27 | every free list starts empty and every preallocated count starts at 0 |
| Allocator.MemoryManager.Malloc | main.c:70-83 | mm_malloc on the arrays: the new state and the result are those of Acquire |
| Allocator.MemoryManager.Free | main.c:86-93 | mm_free on the arrays: the new state is that of Release |
| Allocator.MemoryManager.PushFreshBlock | main.c:51-58 | one loop step: a fresh heap block is prepended to list i and count i goes up by one, with nothing else changed; the lists and counts stay Seeded, one step further |
| Allocator.MemoryManager.Preallocate | main.c:45-67 | the bytes returned are those of the cyclic steps taken and at most twice the budget; the next class would not fit; the state is Seeded: each count grows by its visits and each list gains exactly its fresh blocks in front |
| Allocator.MemoryManager.AcquireEach | main.c:160-162 | the acquire loop stores AcquireAll's pointers in ptrs[0..n), leaves the rest of ptrs as it was, and reaches AcquireAll's state |
| Allocator.MemoryManager.ReleaseEach | main.c:163-165 | the release loop reaches ReleaseAll's state |
| Allocator.MemoryManager.RunWorkload | main.c:159-165 | the benchmark's allocator phase follows AcquireAll then ReleaseAll, leaves ptrs past n as it was, and leaves list c as long as the larger of its former length and its requests |
| Workload.ChunkSizesDistinct | main.c:30 | the chunk size table has no repeated entry |
| Workload.GenerateRandomSizes | main.c:96-113 | returns n <= max_count; entry j is chunk_sizes[rand_j % 14]; the sizes sum to at most the budget; generation stops only at the cap or when the next draw would exceed the budget; the rest of the buffer is untouched; each requested count grows by the number of entries of its class size |
| Workload.RecordRequest | main.c:107-109 | entry n of the size buffer becomes chunk_sizes[c] and requested count c goes up by one; nothing else in either array changes |
| Workload.GeneratedStep | main.c:101-110 | one iteration that draws a fitting size keeps the state Generated: the buffer holds the drawn sizes in order, they fit the budget, and the counts tally them |
| Workload.TallyStep | main.c:107-109 | incrementing class d's requested count tallies one more entry of chunk_sizes[d] and no other class's |
| Workload.CountedRequestsStep | main.c:105-109 | a request of class d adds one to the requested total of the classes below m exactly when d < m |
| Workload.CountedBytesStep | main.c:105-109 | a request of class d adds chunk_sizes[d] to the requested bytes of the classes below m exactly when d < m |
| Workload.GeneratedIsClassSized | main.c:102-107 | every generated size is chunk_sizes[c] for some c < 14 |
| Workload.RequestedCountsAccount | main.c:105-109 | for a class-sized workload, the per-class counts add up to the number of entries and, weighted by class size, to its byte sum |
| Benchmark.RequestsOfClassSized | main.c:160-164 | for a generated workload, the allocator's per-class request count equals the requested count of the statistics table |
| Benchmark.GenerateWorkload | main.c:127-137 | fresh buffers; the workload is what rand drew, in order, within the budget, stopping only at the 100000 cap or before the first draw that would overshoot; the requested column counts each class's draws, adding up to n and, weighted by size, to the workload's bytes |
| Benchmark.SeedLists | main.c:153 | preallocation takes the most cyclic steps that fit in twice the budget, issuing one heap block per step, and the lists and counts are Seeded by those steps: each list gains exactly its fresh blocks in front and each count its visits |
| Benchmark.AllocatorPhase | main.c:153-165 | the state after preallocation is Seeded by the most cyclic steps that fit in twice the budget, and the final state is exactly that of acquiring then releasing every request from it; so each preallocated count grew by its visits and each list is as long as the larger of its preallocated length and its requests |
| Benchmark.Run | main.c:126-170 | the allocator part of the benchmark: the workload is what rand drew under the stopping rule; preallocation took the most cyclic steps that fit in twice the budget, reaching a Seeded state, and the final state is exactly that of acquiring then releasing the workload from it; each class's requested count is the number of requests of its size; each preallocated count grew by its visits; every list ends as long as the larger of its preallocated length and its requests |

## Left out

- Timing: `clock()`, `CLOCKS_PER_SEC`, the busy-wait loop, and the floating-point printing of elapsed times. These are I/O and floating point.
- The baseline phase of `benchmark`, which calls the system `malloc` and `free` directly. It contains no allocator logic; only its timing is reported.
- `print_memory_stats` and the other `printf` output. The table's contents are stated instead: the requested column is the `requestedCounts` array `Benchmark.Run` returns, and the preallocated column is `mm.preallocatedCounts` after the run.
- `clear_cpu_cache`, `flush_memory`, `random_free`, `force_page_faults` and `consume_memory`. They perturb the OS and memory and contain no allocator logic.
- `thread_alloc` and `test_multithreading`. They run an unsynchronised pthread race, and the model is sequential.
- The argument dispatch of `main`. It only routes to the parts above and then calls `benchmark(TOTAL_MEMORY)` with 10 MiB; the model takes the budget as a parameter of `Benchmark.Run`.
- Real pointers, aliasing between blocks, and the `next` word stored inside free blocks. Blocks are identities in sequences. So the model cannot see that a 4-byte class-0 block (from `malloc(chunk_sizes[0])`) is too small for the 8-byte `next` pointer written into it on a 64-bit target.
- Block sizes. The model does not record the size the heap gave a block, so it cannot state the hazard of releasing a block with a different class's size. Such a release is modelled, and it puts the block on the other list, as the code does.
- `srand(time(NULL))` and `rand()`. The sequence of `rand()` results is a parameter.
- Allocator.SystemHeap.Malloc: never returns NULL. So the `exit(1)` branch of preallocation and a NULL fallback from `mm_malloc` are not modelled.
- Allocator.MemoryManager.Preallocate: sizes are unbounded naturals, so the model does not wrap `total_memory*2` or `allocated_memory` at 2^64. For the budget the benchmark uses (10 MiB), nothing wraps.
- Workload.GenerateRandomSizes: `used_memory + chunk_size` is unbounded, with no 64-bit wrap-around. In C that sum can wrap when the budget exceeds 2^64 - 2^15 - 1; for any smaller budget, including the benchmark's 10 MiB, nothing wraps.
- The early return of `benchmark` when the `sizes` or `ptrs` buffer cannot be allocated. Allocation of those buffers never fails in the model, as with the heap.
- Allocator.MemoryManager.Malloc: for sizes 1 and 2, and for 32769..65536, where the code has undefined behaviour, the model behaves as corrected (see Findings). On every other size it does what the code does.
- SizeClasses.ChunkIndex: sizes above 2^63 that are not powers of two are excluded. For them the rounding shift `1ULL << 64` is undefined. The allocator never reaches them.

## Findings

| source | as written | input that shows it | evidently intended | confidence | as-written member | corrected member |
|---|---|---|---|---|---|---|
| main.c:37-41 | sizes 1 and 2 pass the guard of `mm_malloc`/`mm_free`; they are powers of two, so they are not rounded, and `__builtin_ctzll(size / 4)` is called with 0, which is undefined | `mm_malloc(1)` | the 4-byte class (index 0), the smallest chunk that holds the size | high; not executed | SizeClasses.SmallSizesReachUndefinedCtz | SizeClasses.ClassIndex |
| main.c:71-74 | the guard admits sizes up to MAX_CHUNK_SIZE (65536), but there are only CHUNK_CLASSES = 14 lists; sizes 32769..65536 get index 14 and read and write `free_list[14]` out of bounds | `mm_malloc(65536)` | only sizes with a list are served. The model rejects sizes above 32768 (NULL, or no-op on release). A 15th list would also fit the table | high; not executed | SizeClasses.GuardAdmitsUnlistedClass | SizeClasses.ValidRequestIffListed |
