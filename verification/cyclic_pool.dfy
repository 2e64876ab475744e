/**
 * What preallocate_memory does, stated as functions of the number of steps
 * it takes. Step k (counting from 0) visits class k % CHUNK_CLASSES, takes
 * one block of that class's size from the system heap and pushes it onto
 * that class's free list.
 */
module CyclicPool {
  import opened SizeClasses

  /** The class after c in the cycle: `(i + 1) % CHUNK_CLASSES`. */
  function NextClass(c: nat): (d: nat)
    requires c < CHUNK_CLASSES
    ensures d < CHUNK_CLASSES && d == (c + 1) % CHUNK_CLASSES
  {
    if c + 1 == CHUNK_CLASSES then 0 else c + 1
  }

  /** The class visited by step k. */
  function StepClass(k: nat): (c: nat)
    ensures c < CHUNK_CLASSES
  {
    if k == 0 then 0 else NextClass(StepClass(k - 1))
  }

  lemma {:induction false} StepClassIsMod(k: nat)
    ensures StepClass(k) == k % CHUNK_CLASSES
  {
    if k > 0 {
      StepClassIsMod(k - 1);
    }
  }

  /** After the last class the cycle starts over at class 0. */
  lemma StepClassNext(k: nat)
    ensures StepClass(k + 1) == (StepClass(k) + 1) % CHUNK_CLASSES
  {
  }

  /** How many of the first n steps visit class c. */
  function Visits(n: nat, c: nat): nat
  {
    if n == 0 then 0
    else Visits(n - 1, c) + (if StepClass(n - 1) == c then 1 else 0)
  }

  /** Bytes taken from the heap by the first n steps. */
  function CyclicBytes(n: nat): nat
  {
    if n == 0 then 0
    else CyclicBytes(n - 1) + ChunkSize(StepClass(n - 1))
  }

  lemma CyclicBytesStep(k: nat)
    ensures CyclicBytes(k + 1) == CyclicBytes(k) + ChunkSize(StepClass(k))
  {
  }

  /** Bytes of the first n steps counted class by class, over classes 0..m-1. */
  function ClassBytes(n: nat, m: nat): nat
    requires m <= CHUNK_CLASSES
  {
    if m == 0 then 0
    else ClassBytes(n, m - 1) + ClassTotal(Visits(n, m - 1), m - 1)
  }

  /**
   * The blocks the first n steps push onto list c, head first, when step k
   * receives block `base + k` from the heap.
   */
  function PushedBlocks(base: nat, n: nat, c: nat): seq<nat>
  {
    if n == 0 then []
    else (if StepClass(n - 1) == c then [base + n - 1] else []) + PushedBlocks(base, n - 1, c)
  }

  /**
   * After n cyclic steps from the heap position base, the list of class c
   * holds the blocks pushed onto it in front of its old contents, and its
   * count grew by its visits.
   */
  predicate SeededClass(list: seq<nat>, count: nat, oldList: seq<nat>, oldCount: nat, base: nat, n: nat, c: nat)
  {
    list == PushedBlocks(base, n, c) + oldList && count == oldCount + Visits(n, c)
  }

  /** Every class is SeededClass after the same n steps. */
  predicate Seeded(lists: seq<seq<nat>>, counts: seq<nat>, oldLists: seq<seq<nat>>, oldCounts: seq<nat>,
                   base: nat, n: nat)
  {
    |lists| == |oldLists| == |counts| == |oldCounts| == CHUNK_CLASSES &&
    forall c :: 0 <= c < CHUNK_CLASSES ==> SeededClass(lists[c], counts[c], oldLists[c], oldCounts[c], base, n, c)
  }

  /** Step n pushes block base + n onto class StepClass(n) and counts it there; any other class is unchanged and stays SeededClass. */
  lemma SeededClassStep(list: seq<nat>, count: nat, oldList: seq<nat>, oldCount: nat, base: nat, n: nat, c: nat)
    requires SeededClass(list, count, oldList, oldCount, base, n, c)
    ensures StepClass(n) == c ==> SeededClass([base + n] + list, count + 1, oldList, oldCount, base, n + 1, c)
    ensures StepClass(n) != c ==> SeededClass(list, count, oldList, oldCount, base, n + 1, c)
  {
    var pushed := PushedBlocks(base, n, c);
    assert PushedBlocks(base, n + 1, c) == (if StepClass(n) == c then [base + n] else []) + pushed;
    if StepClass(n) == c {
      assert [base + n] + (pushed + oldList) == ([base + n] + pushed) + oldList;
    } else {
      assert [] + pushed == pushed;
    }
  }

  /** Pushing block base + n onto the list of class StepClass(n), and counting it, is one more cyclic step. */
  lemma SeededStep(lists: seq<seq<nat>>, counts: seq<nat>, oldLists: seq<seq<nat>>, oldCounts: seq<nat>,
                   base: nat, n: nat)
    requires Seeded(lists, counts, oldLists, oldCounts, base, n)
    ensures var i := StepClass(n);
      Seeded(lists[i := [base + n] + lists[i]], counts[i := counts[i] + 1], oldLists, oldCounts, base, n + 1)
  {
    var i := StepClass(n);
    var lists', counts' := lists[i := [base + n] + lists[i]], counts[i := counts[i] + 1];
    forall c | 0 <= c < CHUNK_CLASSES
      ensures SeededClass(lists'[c], counts'[c], oldLists[c], oldCounts[c], base, n + 1, c)
    {
      SeededClassStep(lists[c], counts[c], oldLists[c], oldCounts[c], base, n, c);
    }
  }

  /** The visit count of each class in closed form: every full round visits it once, the last partial round visits the classes below n % CHUNK_CLASSES. */
  lemma {:induction false} VisitsClosedForm(n: nat, c: nat)
    requires c < CHUNK_CLASSES
    ensures Visits(n, c) == n / CHUNK_CLASSES + (if c < n % CHUNK_CLASSES then 1 else 0)
  {
    if n > 0 {
      var m := n - 1;
      VisitsClosedForm(m, c);
      StepClassIsMod(m);
      if m % CHUNK_CLASSES == CHUNK_CLASSES - 1 {
        assert n / CHUNK_CLASSES == m / CHUNK_CLASSES + 1 && n % CHUNK_CLASSES == 0;
      } else {
        assert n / CHUNK_CLASSES == m / CHUNK_CLASSES && n % CHUNK_CLASSES == m % CHUNK_CLASSES + 1;
      }
    }
  }

  /**
   * Cyclic order spreads the blocks evenly: two classes' visit counts differ
   * by at most one, and a lower class never has fewer visits than a higher one.
   */
  lemma VisitsBalanced(n: nat, c1: nat, c2: nat)
    requires c1 <= c2 < CHUNK_CLASSES
    ensures Visits(n, c2) <= Visits(n, c1) <= Visits(n, c2) + 1
  {
    VisitsClosedForm(n, c1);
    VisitsClosedForm(n, c2);
  }

  /** Visits of classes 0..m-1 added up. */
  function ClassVisits(n: nat, m: nat): nat
    requires m <= CHUNK_CLASSES
  {
    if m == 0 then 0 else ClassVisits(n, m - 1) + Visits(n, m - 1)
  }

  /** The counters add up: n steps make n visits in all. */
  lemma {:induction false} VisitsTotal(n: nat)
    ensures ClassVisits(n, CHUNK_CLASSES) == n
  {
    if n > 0 {
      VisitsTotal(n - 1);
      ClassVisitsStep(n - 1, CHUNK_CLASSES);
    }
  }

  lemma {:induction false} ClassVisitsStep(n: nat, m: nat)
    requires m <= CHUNK_CLASSES
    ensures ClassVisits(n + 1, m) == ClassVisits(n, m) + (if StepClass(n) < m then 1 else 0)
  {
    if m > 0 {
      ClassVisitsStep(n, m - 1);
    }
  }

  /** Bytes added equal, class by class, the number of blocks taken times the class size. */
  lemma {:induction false} CyclicBytesByClass(n: nat)
    ensures CyclicBytes(n) == ClassBytes(n, CHUNK_CLASSES)
  {
    if n > 0 {
      CyclicBytesByClass(n - 1);
      ClassBytesStep(n - 1, CHUNK_CLASSES);
    } else {
      NoClassBytes(CHUNK_CLASSES);
    }
  }

  lemma {:induction false} NoClassBytes(m: nat)
    requires m <= CHUNK_CLASSES
    ensures ClassBytes(0, m) == 0
  {
    if m > 0 {
      NoClassBytes(m - 1);
    }
  }

  /** One more step adds the visited class's size to the per-class total (when that class is counted). */
  lemma {:induction false} ClassBytesStep(n: nat, m: nat)
    requires m <= CHUNK_CLASSES
    ensures ClassBytes(n + 1, m) == ClassBytes(n, m) + (if StepClass(n) < m then ChunkSize(StepClass(n)) else 0)
  {
    if m > 0 {
      ClassBytesStep(n, m - 1);
      assert Visits(n + 1, m - 1) == Visits(n, m - 1) + (if StepClass(n) == m - 1 then 1 else 0);
      ClassTotalSucc(Visits(n, m - 1), m - 1);
    }
  }

  /** Every step takes a positive number of bytes, so more steps take strictly more bytes. */
  lemma {:induction false} CyclicBytesIncreasing(m: nat, n: nat)
    requires m < n
    ensures CyclicBytes(m) < CyclicBytes(n)
  {
    CyclicBytesStep(n - 1);
    if m + 1 < n {
      CyclicBytesIncreasing(m, n - 1);
    }
  }

  /** n steps fit in the budget and the next one would not. */
  predicate LargestFit(n: nat, budget: nat)
  {
    CyclicBytes(n) <= budget < CyclicBytes(n) + ChunkSize(StepClass(n))
  }

  /**
   * The loop stops at the right place: if n steps fit in the budget and the
   * next one would not, then n is the largest number of steps that fit.
   */
  lemma StopsAtLargestFit(n: nat, budget: nat)
    requires CyclicBytes(n) <= budget < CyclicBytes(n + 1)
    ensures forall m: nat :: CyclicBytes(m) <= budget <==> m <= n
  {
    forall m: nat
      ensures CyclicBytes(m) <= budget <==> m <= n
    {
      if m < n {
        CyclicBytesIncreasing(m, n);
      } else if n + 1 < m {
        CyclicBytesIncreasing(n + 1, m);
      }
    }
  }

  /** List c receives exactly as many blocks as class c has visits. */
  lemma {:induction false} PushedBlocksCount(base: nat, n: nat, c: nat)
    ensures |PushedBlocks(base, n, c)| == Visits(n, c)
  {
    if n > 0 {
      PushedBlocksCount(base, n - 1, c);
    }
  }

  /** Every pushed block is one of the ids base .. base + n - 1 that the heap handed out during the n steps. */
  lemma {:induction false} PushedBlocksRange(base: nat, n: nat, c: nat)
    ensures forall j :: 0 <= j < |PushedBlocks(base, n, c)| ==> base <= PushedBlocks(base, n, c)[j] < base + n
  {
    if n > 0 {
      PushedBlocksRange(base, n - 1, c);
    }
  }
}
