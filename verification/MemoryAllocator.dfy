/** The best-fit allocator: an in-band doubly linked list of free runs with
    splitting and two-sided merging, and a table of allocation lengths. */
module MemoryAllocation {
  import opened FreeRuns
  import opened Utils

  const SIZEOF_BLOCKS_T := 4
  const SIZEOF_FREE_BLOCKS := 24

  const MEM_SUCCESS := 0
  const ADDRESS_IS_NULL := -2
  const ADDRESS_IS_NOT_ALIGNED := -3
  const ADDRESS_IS_NOT_USED := -4
  const MEM_FAILED := -1

  /** The null pointer, where block numbers stand for pointers to free-run headers. */
  const NULL := -1

  /** The table's nonzero entries. */
  function LiveOf(table: seq<nat>): Live {
    map a: nat | a < |table| && table[a] != 0 :: table[a]
  }

  function StartOr(runs: seq<Run>, k: int): int {
    if 0 <= k < |runs| then runs[k].start else NULL
  }

  /** The header of run `k`, held in the run's first block. */
  ghost predicate LinkedAt(runs: seq<Run>, k: nat, next: seq<int>, prev: seq<int>, size: seq<nat>)
    requires k < |runs|
  {
    var b := runs[k].start;
    && b < |next| && b < |prev| && b < |size|
    && next[b] == StartOr(runs, k + 1)
    && prev[b] == StartOr(runs, k - 1)
    && size[b] == runs[k].len
  }

  /** The headers stored in the blocks chain exactly `runs`, in both directions. */
  ghost predicate Linked(runs: seq<Run>, head: int, next: seq<int>, prev: seq<int>, size: seq<nat>) {
    && head == StartOr(runs, 0)
    && forall k :: 0 <= k < |runs| ==> LinkedAt(runs, k, next, prev, size)
  }

  lemma InitialRun(total: nat)
    requires total >= 1
    ensures Canonical([Run(0, total)], map[], total)
  {
    var whole := [Run(0, total)];
    forall b | 0 <= b < total
      ensures InRuns(whole, b)
    {
      RunHolds(whole, 0, b);
    }
  }

  /** Run `i` is no better a fit than run `k`. */
  ghost predicate Better(runs: seq<Run>, k: nat, i: nat)
    requires k < |runs| && i < |runs|
  {
    runs[k].len < runs[i].len || (runs[k].len == runs[i].len && k <= i)
  }

  lemma ReplaceIsTake(runs: seq<Run>, k: nat, n: nat)
    requires k < |runs| && n < runs[k].len
    ensures TakeFrom(runs, k, n) == runs[k := Run(runs[k].start + n, runs[k].len - n)]
    ensures n == 0 ==> TakeFrom(runs, k, n) == runs
  {
  }

  lemma BestNotLive(runs: seq<Run>, live: Live, total: nat, k: nat, n: nat)
    requires Canonical(runs, live, total)
    requires k < |runs| && n <= runs[k].len
    ensures n >= 1 ==> Canonical(TakeFrom(runs, k, n), live[runs[k].start := n], total)
    ensures runs[k].start !in live
  {
    TakeKeepsCanonical(runs, live, total, k, runs[k].len);
    if n >= 1 { TakeKeepsCanonical(runs, live, total, k, n); }
  }

  /** One store into the table adds or removes one live allocation. */
  lemma LiveAfterStore(table: seq<nat>, table': seq<nat>, a: nat, n: nat)
    requires a < |table| && table' == table[a := n]
    ensures LiveOf(table') == if n == 0 then LiveOf(table) - {a} else LiveOf(table)[a := n]
  {
  }

  /** Run `kb`, or none when it is -1, is the best of the first `k`. */
  ghost predicate BestOf(runs: seq<Run>, n: nat, k: nat, kb: int) {
    && k <= |runs| && -1 <= kb < k
    && (kb == -1 ==> forall i :: 0 <= i < k ==> runs[i].len < n)
    && (kb >= 0 ==> runs[kb].len >= n && forall i :: 0 <= i < k && runs[i].len >= n ==> Better(runs, kb, i))
  }

  lemma BestOfNext(runs: seq<Run>, n: nat, k: nat, kb: int)
    requires BestOf(runs, n, k, kb) && k < |runs|
    ensures BestOf(runs, n, k + 1, if runs[k].len >= n && (kb == -1 || runs[k].len < runs[kb].len) then k else kb)
  {
  }

  lemma BestOfAll(runs: seq<Run>, n: nat, k: nat, kb: int)
    requires BestOf(runs, n, k, kb) && (k == |runs| || (kb >= 0 && runs[kb].len == n))
    ensures BestOf(runs, n, |runs|, kb)
  {
  }

  /** What the search loop found, in terms of the live allocations. */
  lemma FitOrNot(runs: seq<Run>, live: Live, total: nat, n: nat, kb: int)
    requires Canonical(runs, live, total) && BestOf(runs, n, |runs|, kb)
    ensures n >= 1 ==> (kb == -1 <==> !exists b: nat :: FitsAt(live, total, b, n))
    ensures kb >= 0 ==> BestFit(runs, n, runs[kb])
  {
    if n >= 1 { FitIffRun(runs, live, total, n); }
    if kb >= 0 { assert runs[kb] in runs; }
  }

  /** `b` is `a` after storing `v1` through pointer `c1` and then `v2` through `c2`;
      a store through null is skipped. */
  ghost predicate Wrote<T>(a: seq<T>, b: seq<T>, c1: int, v1: T, c2: int, v2: T) {
    && |a| == |b|
    && forall i :: 0 <= i < |b| ==> b[i] == if i == c2 then v2 else if i == c1 then v1 else a[i]
  }

  lemma StartsDiffer(runs: seq<Run>, total: nat, i: nat, j: int)
    requires Ordered(runs, total) && i < |runs|
    ensures 0 <= j < |runs| && i != j ==>
      runs[i].start != StartOr(runs, j) && !runs[j].Has(runs[i].start)
    ensures !(0 <= j < |runs|) ==> StartOr(runs, j) == NULL
  {
    assert i < j || i == j || j < i;
  }

  /** Replacing the header of run `k` by one for its high end keeps the chain. */
  lemma LinkedReplace(runs: seq<Run>, total: nat, k: nat, r: Run,
                      head: int, next: seq<int>, prev: seq<int>, size: seq<nat>,
                      next': seq<int>, prev': seq<int>, size': seq<nat>)
    requires Ordered(runs, total) && total == |next| == |prev| == |size|
    requires Linked(runs, head, next, prev, size)
    requires k < |runs| && runs[k].start <= r.start && r.End() == runs[k].End() && r.len >= 1
    requires Wrote(next, next', r.start, StartOr(runs, k + 1), StartOr(runs, k - 1), r.start)
    requires Wrote(prev, prev', r.start, StartOr(runs, k - 1), StartOr(runs, k + 1), r.start)
    requires Wrote(size, size', r.start, r.len, NULL, 0)
    ensures Ordered(runs[k := r], total)
    ensures Linked(runs[k := r], if k == 0 then r.start else head, next', prev', size')
  {
    var out := runs[k := r];
    ReplaceOrdered(runs, total, k, r);
    forall i | 0 <= i < |out|
      ensures LinkedAt(out, i, next', prev', size')
    {
      assert LinkedAt(runs, i, next, prev, size);
      StartsDiffer(runs, total, i, k);
      StartsDiffer(runs, total, i, k - 1);
      StartsDiffer(runs, total, i, k + 1);
      ReplaceAt(runs, k, r, next, prev, size, next', prev', size', i);
    }
  }

  lemma ReplaceOrdered(runs: seq<Run>, total: nat, k: nat, r: Run)
    requires Ordered(runs, total)
    requires k < |runs| && runs[k].start <= r.start && r.End() == runs[k].End() && r.len >= 1
    ensures Ordered(runs[k := r], total)
  {
  }

  lemma ReplaceAt(runs: seq<Run>, k: nat, r: Run, next: seq<int>, prev: seq<int>, size: seq<nat>,
                  next': seq<int>, prev': seq<int>, size': seq<nat>, i: nat)
    requires i < |runs| && k < |runs| && LinkedAt(runs, i, next, prev, size)
    requires i != k ==> runs[i].start != r.start
    requires i != k - 1 ==> runs[i].start != StartOr(runs, k - 1)
    requires i != k + 1 ==> runs[i].start != StartOr(runs, k + 1)
    requires r.start < |next| && r.start < |prev| && r.start < |size|
    requires StartOr(runs, k - 1) != r.start && StartOr(runs, k + 1) != r.start
    requires Wrote(next, next', r.start, StartOr(runs, k + 1), StartOr(runs, k - 1), r.start)
    requires Wrote(prev, prev', r.start, StartOr(runs, k - 1), StartOr(runs, k + 1), r.start)
    requires Wrote(size, size', r.start, r.len, NULL, 0)
    ensures LinkedAt(runs[k := r], i, next', prev', size')
  {
  }

  /** Unchaining run `k`. */
  lemma LinkedRemove(runs: seq<Run>, total: nat, k: nat,
                     head: int, next: seq<int>, prev: seq<int>, size: seq<nat>,
                     next': seq<int>, prev': seq<int>)
    requires Ordered(runs, total) && total == |next| == |prev| == |size|
    requires Linked(runs, head, next, prev, size) && k < |runs|
    requires Wrote(next, next', NULL, 0, StartOr(runs, k - 1), StartOr(runs, k + 1))
    requires Wrote(prev, prev', NULL, 0, StartOr(runs, k + 1), StartOr(runs, k - 1))
    ensures Ordered(runs[..k] + runs[k + 1..], total)
    ensures Linked(runs[..k] + runs[k + 1..], if k == 0 then StartOr(runs, 1) else head, next', prev', size)
  {
    var out := runs[..k] + runs[k + 1..];
    forall i | 0 <= i < |out|
      ensures LinkedAt(out, i, next', prev', size)
    {
      LinkedRemoveAt(runs, total, k, head, next, prev, size, next', prev', i);
    }
    RemoveOrdered(runs, total, k);
  }

  lemma LinkedRemoveAt(runs: seq<Run>, total: nat, k: nat,
                       head: int, next: seq<int>, prev: seq<int>, size: seq<nat>,
                       next': seq<int>, prev': seq<int>, i: nat)
    requires Ordered(runs, total) && total == |next| == |prev| == |size|
    requires Linked(runs, head, next, prev, size) && k < |runs| && i < |runs| - 1
    requires Wrote(next, next', NULL, 0, StartOr(runs, k - 1), StartOr(runs, k + 1))
    requires Wrote(prev, prev', NULL, 0, StartOr(runs, k + 1), StartOr(runs, k - 1))
    ensures LinkedAt(runs[..k] + runs[k + 1..], i, next', prev', size)
  {
    var j := if i < k then i else i + 1;
    assert LinkedAt(runs, j, next, prev, size);
    RemoveOne(runs, total, k, next, prev, size, next', prev', j);
  }

  lemma RemoveOne(runs: seq<Run>, total: nat, k: nat, next: seq<int>, prev: seq<int>, size: seq<nat>,
                  next': seq<int>, prev': seq<int>, j: nat)
    requires Ordered(runs, total) && total == |next| == |prev| == |size| && k < |runs| && j < |runs| && j != k
    requires LinkedAt(runs, j, next, prev, size)
    requires Wrote(next, next', NULL, 0, StartOr(runs, k - 1), StartOr(runs, k + 1))
    requires Wrote(prev, prev', NULL, 0, StartOr(runs, k + 1), StartOr(runs, k - 1))
    ensures LinkedAt(runs[..k] + runs[k + 1..], if j < k then j else j - 1, next', prev', size)
  {
    StartsDiffer(runs, total, j, k - 1);
    StartsDiffer(runs, total, j, k + 1);
    RemoveAt(runs, k, next, prev, size, next', prev', j);
  }

  lemma RemoveOrdered(runs: seq<Run>, total: nat, k: nat)
    requires Ordered(runs, total) && k < |runs|
    ensures Ordered(runs[..k] + runs[k + 1..], total)
  {
    var out := runs[..k] + runs[k + 1..];
    forall i | 0 <= i < |out|
      ensures out[i] == runs[if i < k then i else i + 1]
    {
    }
  }

  lemma RemoveAt(runs: seq<Run>, k: nat, next: seq<int>, prev: seq<int>, size: seq<nat>,
                 next': seq<int>, prev': seq<int>, j: nat)
    requires j < |runs| && k < |runs| && j != k && LinkedAt(runs, j, next, prev, size)
    requires j != k - 1 ==> runs[j].start != StartOr(runs, k - 1)
    requires j != k + 1 ==> runs[j].start != StartOr(runs, k + 1)
    requires Wrote(next, next', NULL, 0, StartOr(runs, k - 1), StartOr(runs, k + 1))
    requires Wrote(prev, prev', NULL, 0, StartOr(runs, k + 1), StartOr(runs, k - 1))
    ensures LinkedAt(runs[..k] + runs[k + 1..], if j < k then j else j - 1, next', prev', size)
  {
  }

  /** Chaining a header for run `r` before run `k`. */
  lemma LinkedInsert(runs: seq<Run>, total: nat, k: nat, r: Run,
                     head: int, next: seq<int>, prev: seq<int>, size: seq<nat>,
                     next': seq<int>, prev': seq<int>, size': seq<nat>)
    requires Ordered(runs, total) && total == |next| == |prev| == |size|
    requires Linked(runs, head, next, prev, size)
    requires k <= |runs| && r.len >= 1 && r.End() <= total
    requires forall i :: 0 <= i < k ==> runs[i].End() <= r.start
    requires forall i :: k <= i < |runs| ==> r.End() <= runs[i].start
    requires Wrote(next, next', r.start, StartOr(runs, k), StartOr(runs, k - 1), r.start)
    requires Wrote(prev, prev', r.start, StartOr(runs, k - 1), StartOr(runs, k), r.start)
    requires Wrote(size, size', r.start, r.len, NULL, 0)
    ensures Ordered(InsertAt(runs, k, r), total)
    ensures Linked(InsertAt(runs, k, r), if k == 0 then r.start else head, next', prev', size')
  {
    var out := InsertAt(runs, k, r);
    InsertOrdered(runs, total, k, r);
    forall i | 0 <= i < |out|
      ensures LinkedAt(out, i, next', prev', size')
    {
      if i != k {
        var j := if i < k then i else i - 1;
        assert LinkedAt(runs, j, next, prev, size);
        StartsDiffer(runs, total, j, k - 1);
        StartsDiffer(runs, total, j, k);
        assert runs[j].start != r.start;
        InsertAtOther(runs, k, r, next, prev, size, next', prev', size', j);
      } else {
        InsertAtSelf(runs, k, r, next, prev, size, next', prev', size');
      }
    }
  }

  lemma InsertAtOther(runs: seq<Run>, k: nat, r: Run, next: seq<int>, prev: seq<int>, size: seq<nat>,
                      next': seq<int>, prev': seq<int>, size': seq<nat>, j: nat)
    requires j < |runs| && k <= |runs| && LinkedAt(runs, j, next, prev, size)
    requires runs[j].start != r.start
    requires j != k - 1 ==> runs[j].start != StartOr(runs, k - 1)
    requires j != k ==> runs[j].start != StartOr(runs, k)
    requires Wrote(next, next', r.start, StartOr(runs, k), StartOr(runs, k - 1), r.start)
    requires Wrote(prev, prev', r.start, StartOr(runs, k - 1), StartOr(runs, k), r.start)
    requires Wrote(size, size', r.start, r.len, NULL, 0)
    ensures LinkedAt(InsertAt(runs, k, r), if j < k then j else j + 1, next', prev', size')
  {
  }

  lemma InsertAtSelf(runs: seq<Run>, k: nat, r: Run, next: seq<int>, prev: seq<int>, size: seq<nat>,
                     next': seq<int>, prev': seq<int>, size': seq<nat>)
    requires k <= |runs| && r.start < |next| && r.start < |prev| && r.start < |size|
    requires StartOr(runs, k - 1) != r.start && StartOr(runs, k) != r.start
    requires Wrote(next, next', r.start, StartOr(runs, k), StartOr(runs, k - 1), r.start)
    requires Wrote(prev, prev', r.start, StartOr(runs, k - 1), StartOr(runs, k), r.start)
    requires Wrote(size, size', r.start, r.len, NULL, 0)
    ensures LinkedAt(InsertAt(runs, k, r), k, next', prev', size')
  {
  }

  /** Run `k` absorbing the run that follows it. */
  lemma LinkedMerge(runs: seq<Run>, total: nat, k: nat,
                    head: int, next: seq<int>, prev: seq<int>, size: seq<nat>,
                    next': seq<int>, prev': seq<int>, size': seq<nat>)
    requires Ordered(runs, total) && total == |next| == |prev| == |size|
    requires Linked(runs, head, next, prev, size)
    requires k + 1 < |runs| && runs[k].End() == runs[k + 1].start
    requires Wrote(next, next', NULL, 0, runs[k].start, StartOr(runs, k + 2))
    requires Wrote(prev, prev', NULL, 0, StartOr(runs, k + 2), runs[k].start)
    requires Wrote(size, size', NULL, 0, runs[k].start, runs[k].len + runs[k + 1].len)
    ensures Ordered(MergeAt(runs, k), total)
    ensures Linked(MergeAt(runs, k), head, next', prev', size')
  {
    var out := MergeAt(runs, k);
    MergeOrdered(runs, k, total);
    forall i | 0 <= i < |out|
      ensures LinkedAt(out, i, next', prev', size')
    {
      var j := if i <= k then i else i + 1;
      assert LinkedAt(runs, j, next, prev, size);
      StartsDiffer(runs, total, j, k);
      StartsDiffer(runs, total, j, k + 2);
      MergeAtOne(runs, k, next, prev, size, next', prev', size', j);
    }
  }

  lemma MergeAtOne(runs: seq<Run>, k: nat, next: seq<int>, prev: seq<int>, size: seq<nat>,
                   next': seq<int>, prev': seq<int>, size': seq<nat>, j: nat)
    requires k + 1 < |runs| && runs[k].End() == runs[k + 1].start
    requires j < |runs| && j != k + 1 && LinkedAt(runs, j, next, prev, size)
    requires j != k ==> runs[j].start != runs[k].start
    requires j != k + 2 ==> runs[j].start != StartOr(runs, k + 2)
    requires Wrote(next, next', NULL, 0, runs[k].start, StartOr(runs, k + 2))
    requires Wrote(prev, prev', NULL, 0, StartOr(runs, k + 2), runs[k].start)
    requires Wrote(size, size', NULL, 0, runs[k].start, runs[k].len + runs[k + 1].len)
    ensures LinkedAt(MergeAt(runs, k), if j <= k then j else j - 1, next', prev', size')
  {
  }

  lemma SlotFound(runs: seq<Run>, live: Live, total: nat, a: nat, k: nat)
    requires Canonical(runs, live, total) && a in live && k <= |runs|
    requires forall i :: 0 <= i < k ==> runs[i].start < a
    requires k < |runs| ==> a < runs[k].start
    ensures Slot(runs, k, a)
    ensures forall i :: 0 <= i < k ==> runs[i].End() <= a
    ensures forall i :: k <= i < |runs| ==> a + live[a] <= runs[i].start
    ensures Canonical(GiveBack(runs, k, Run(a, live[a])), live - {a}, total)
    ensures live[a] >= 1 && a + live[a] <= total
  {
    FreedInGap(runs, live, total, k, a);
    GiveBackKeepsCanonical(runs, live, total, k, a);
  }

  /** The header of run `k` and the headers around it, read through the chain. */
  lemma ChainBounds(runs: seq<Run>, head: int, next: seq<int>, prev: seq<int>, size: seq<nat>, k: nat)
    requires Linked(runs, head, next, prev, size) && k < |runs|
    ensures LinkedAt(runs, k, next, prev, size)
    ensures k > 0 ==> LinkedAt(runs, k - 1, next, prev, size)
    ensures k + 1 < |runs| ==> LinkedAt(runs, k + 1, next, prev, size)
  {
  }

  lemma HeadIsFirst(runs: seq<Run>, total: nat, k: nat)
    requires Ordered(runs, total) && k < |runs|
    ensures runs[k].start == StartOr(runs, 0) <==> k == 0
  {
    StartsDiffer(runs, total, 0, k);
  }

  lemma RunInArea(runs: seq<Run>, total: nat, r: Run)
    requires Ordered(runs, total) && r in runs
    ensures r.start < total
  {
  }

  lemma LiveNotInRun(runs: seq<Run>, live: Live, total: nat, a: nat, k: nat)
    requires Canonical(runs, live, total) && a in live && k < |runs|
    ensures !runs[k].Has(a)
  {
    assert Run(a, live[a]).Has(a) && InLive(live, a);
    ListedIsMaximal(runs, live, total, k);
  }

  class MemoryAllocator {
    const base: nat
    const total: nat
    const allocTable: array<nat>
    // Header fields of the free run that starts at a block, held in that block.
    const next: array<int>
    const prev: array<int>
    const nBlocks: array<nat>
    var fbHead: int
    ghost var runs: seq<Run>

    ghost function Live(): Live
      reads allocTable
    {
      LiveOf(allocTable[..])
    }

    ghost function Memory(): set<object>
    {
      {this, allocTable, next, prev, nBlocks}
    }

    /** Everything but the coalescing, which is broken in the middle of `Free`. */
    ghost predicate Shape()
      reads this, allocTable, next, prev, nBlocks
    {
      && next != prev && nBlocks != allocTable
      && allocTable.Length == next.Length == prev.Length == nBlocks.Length == total
      && 1 <= total < TWO_TO_THE_32
      && base > 0 && base % MEM_BLOCK_SIZE == 0
      && Ordered(runs, total)
      && Linked(runs, fbHead, next[..], prev[..], nBlocks[..])
    }

    ghost predicate Valid()
      reads this, allocTable, next, prev, nBlocks
    {
      Shape() && Canonical(runs, Live(), total)
    }

    /** The header of run `k`, read from memory. */
    lemma Header(k: nat)
      requires Shape() && k < |runs|
      ensures runs[k].start < total
      ensures next[runs[k].start] == StartOr(runs, k + 1)
      ensures prev[runs[k].start] == StartOr(runs, k - 1)
      ensures nBlocks[runs[k].start] == runs[k].len
    {
      assert LinkedAt(runs, k, next[..], prev[..], nBlocks[..]);
    }

    function Addr(b: nat): nat {
      base + MEM_BLOCK_SIZE * b
    }

    /** Sizes of the table, the padding and the block area for a heap of bytes `start..last`. */
    static method PlanHeap(start: nat, last: nat) returns (total: nat, padding: nat)
      requires start <= last < TWO_TO_THE_64
      requires 2 * (MEM_BLOCK_SIZE + SIZEOF_BLOCKS_T) <= last - start + 1
      requires (last - start + 1) / (MEM_BLOCK_SIZE + SIZEOF_BLOCKS_T) < TWO_TO_THE_32
      ensures 1 <= total < TWO_TO_THE_32
      ensures (start + SIZEOF_BLOCKS_T * total + padding) % MEM_BLOCK_SIZE == 0
      ensures start + SIZEOF_BLOCKS_T * total + padding + MEM_BLOCK_SIZE * total <= last + 1
      ensures padding <= MEM_BLOCK_SIZE
      ensures var most := (last - start + 1) / (MEM_BLOCK_SIZE + SIZEOF_BLOCKS_T);
        if (start + SIZEOF_BLOCKS_T * most) % MEM_BLOCK_SIZE == 0 then total == most && padding == 0
        else total == most - 1 && padding > 0
    {
      total := (last - start + 1) / (MEM_BLOCK_SIZE + SIZEOF_BLOCKS_T);
      padding := 0;
      if (start + total * SIZEOF_BLOCKS_T) % MEM_BLOCK_SIZE != 0 {
        total := total - 1;
        padding := MEM_BLOCK_SIZE - (start + total * SIZEOF_BLOCKS_T) % MEM_BLOCK_SIZE;
      }
    }

    constructor (start: nat, last: nat)
      requires 0 < start <= last < TWO_TO_THE_64
      requires 2 * (MEM_BLOCK_SIZE + SIZEOF_BLOCKS_T) <= last - start + 1
      requires (last - start + 1) / (MEM_BLOCK_SIZE + SIZEOF_BLOCKS_T) < TWO_TO_THE_32
      ensures Valid() && fresh(Memory())
      ensures Live() == map[] && runs == [Run(0, total)]
      ensures start + SIZEOF_BLOCKS_T * total <= base
      ensures base + MEM_BLOCK_SIZE * total <= last + 1
    {
      var blocks, padding := PlanHeap(start, last);
      total := blocks;
      base := start + blocks * SIZEOF_BLOCKS_T + padding;
      allocTable := new nat[blocks];
      next := new int[blocks];
      prev := new int[blocks];
      nBlocks := new nat[blocks];
      fbHead := 0;
      runs := [Run(0, blocks)];
      new;
      for i := 0 to total
        invariant fbHead == 0 && runs == [Run(0, total)]
        invariant forall j :: 0 <= j < i ==> allocTable[j] == 0
      {
        allocTable[i] := 0;
      }
      nBlocks[fbHead] := total;
      next[fbHead] := NULL;
      prev[fbHead] := NULL;
      assert Live() == map[];
      InitialRun(total);
    }

    /** Best-fit allocation of `n` blocks; the address of the first, or 0. */
    method Alloc(n: nat) returns (address: nat, ghost start: int)
      requires Valid() && n < TWO_TO_THE_32
      modifies this, allocTable, next, prev, nBlocks
      ensures Valid()
      ensures n >= 1 ==> (address == 0 <==> !exists b: nat :: FitsAt(old(Live()), total, b, n))
      ensures n == 0 ==> (address == 0 <==> old(runs) == [])
      ensures address != 0 ==>
        && 0 <= start < total && address == Addr(start) && start !in old(Live())
        && (exists len :: BestFit(old(runs), n, Run(start, len)))
        && Live() == if n == 0 then old(Live()) else old(Live())[start := n]
      ensures address == 0 || n == 0 ==> runs == old(runs) && Live() == old(Live())
    {
      var best, kb := FindBest(n);
      if best == NULL {
        return 0, -1;
      }
      ghost var r := runs[kb];
      TakeLowEnd(best, n, kb);
      address, start := Addr(best), best;
      assert BestFit(old(runs), n, Run(start, r.len));
      RunInArea(old(runs), total, r);
    }

    /** Take the first `n` blocks of run `k` and record the allocation. */
    method TakeLowEnd(best: nat, n: nat, ghost k: nat)
      requires Valid() && k < |runs| && best == runs[k].start && n <= runs[k].len
      modifies this, allocTable, next, prev, nBlocks
      ensures Valid() && best !in old(Live())
      ensures Live() == if n == 0 then old(Live()) else old(Live())[best := n]
      ensures n == 0 ==> runs == old(runs)
    {
      BestNotLive(runs, Live(), total, k, n);
      Carve(best, n, k);
      allocTable[best] := n;
      LiveAfterStore(old(allocTable[..]), allocTable[..], best, n);
    }

    /** Split the run if anything remains of it, else unchain it. */
    method Carve(best: nat, n: nat, ghost k: nat)
      requires Shape() && k < |runs| && best == runs[k].start && n <= runs[k].len
      modifies this, next, prev, nBlocks
      ensures Shape()
      ensures runs == TakeFrom(old(runs), k, n)
      ensures n == 0 ==> runs == old(runs)
    {
      Header(k);
      var remaining := nBlocks[best] - n;
      if ToBlocks(SIZEOF_FREE_BLOCKS) <= remaining {
        ReplaceIsTake(runs, k, n);
        SplitHead(best, n, remaining, k);
      } else {
        Unchain(best, k);
      }
    }

    /** The search: the header of the best-fit run `kb`, or null. */
    method FindBest(n: nat) returns (best: int, ghost kb: int)
      requires Valid()
      ensures -1 <= kb < |runs| && best == StartOr(runs, kb)
      ensures n >= 1 ==> (best == NULL <==> !exists b: nat :: FitsAt(Live(), total, b, n))
      ensures n == 0 ==> (best == NULL <==> runs == [])
      ensures kb >= 0 ==> BestFit(runs, n, runs[kb])
    {
      var curr := fbHead;
      best, kb := NULL, -1;
      ghost var k := 0;
      while curr != NULL && (best == NULL || nBlocks[best] != n)
        invariant BestOf(runs, n, k, kb) && curr == StartOr(runs, k) && best == StartOr(runs, kb)
        invariant kb >= 0 ==> best < total && nBlocks[best] == runs[kb].len
        decreases |runs| - k
      {
        Header(k);
        BestOfNext(runs, n, k, kb);
        if nBlocks[curr] >= n && (best == NULL || nBlocks[curr] < nBlocks[best]) {
          best, kb := curr, k;
        }
        curr, k := next[curr], k + 1;
      }
      BestOfAll(runs, n, k, kb);
      FitOrNot(runs, Live(), total, n, kb);
    }

    /** Chain a header for what remains of run `k` in place of its old header. */
    method SplitHead(best: nat, n: nat, remaining: nat, ghost k: nat)
      requires Shape() && k < |runs| && best == runs[k].start
      requires runs[k].len == n + remaining && remaining >= 1
      modifies this, next, prev, nBlocks
      ensures Shape()
      ensures runs == old(runs)[k := Run(best + n, remaining)]
    {
      var newFb := best + n;
      ghost var next0, prev0, size0, head0 := next[..], prev[..], nBlocks[..], fbHead;
      ghost var before, after, r := StartOr(runs, k - 1), StartOr(runs, k + 1), Run(newFb, remaining);
      ChainBounds(runs, head0, next0, prev0, size0, k);
      nBlocks[newFb] := remaining;
      next[newFb] := next[best];
      prev[newFb] := prev[best];
      if prev[newFb] != NULL { next[prev[newFb]] := newFb; }
      if next[newFb] != NULL { prev[next[newFb]] := newFb; }
      if fbHead == best { fbHead := newFb; }
      assert Wrote(next0, next[..], newFb, after, before, newFb);
      assert Wrote(prev0, prev[..], newFb, before, after, newFb);
      LinkedReplace(runs, total, k, r, head0, next0, prev0, size0, next[..], prev[..], nBlocks[..]);
      HeadIsFirst(runs, total, k);
      runs := runs[k := r];
    }

    /** Unchain the header of run `k`. */
    method Unchain(best: nat, ghost k: nat)
      requires Shape() && k < |runs| && best == runs[k].start
      modifies this, next, prev, nBlocks
      ensures Shape()
      ensures runs == old(runs)[..k] + old(runs)[k + 1..]
    {
      ghost var next0, prev0, size0, head0 := next[..], prev[..], nBlocks[..], fbHead;
      ChainBounds(runs, head0, next0, prev0, size0, k);
      if prev[best] != NULL { next[prev[best]] := next[best]; }
      if next[best] != NULL { prev[next[best]] := prev[best]; }
      if fbHead == best { fbHead := next[best]; }
      assert Wrote(next0, next[..], NULL, 0, StartOr(runs, k - 1), StartOr(runs, k + 1));
      assert Wrote(prev0, prev[..], NULL, 0, StartOr(runs, k + 1), StartOr(runs, k - 1));
      LinkedRemove(runs, total, k, head0, next0, prev0, size0, next[..], prev[..]);
      HeadIsFirst(runs, total, k);
      runs := runs[..k] + runs[k + 1..];
    }

    /** Chain a header for `n` blocks at `newFb` after `before`, ahead of run `k`. */
    method ChainAfter(newFb: nat, n: nat, before: int, ghost k: nat)
      requires Shape() && k <= |runs| && n >= 1 && newFb + n <= total
      requires before == StartOr(runs, k - 1)
      requires forall i :: 0 <= i < k ==> runs[i].End() <= newFb
      requires forall i :: k <= i < |runs| ==> newFb + n <= runs[i].start
      modifies this, next, prev, nBlocks
      ensures Shape()
      ensures runs == InsertAt(old(runs), k, Run(newFb, n))
    {
      ghost var next0, prev0, size0, head0 := next[..], prev[..], nBlocks[..], fbHead;
      WriteHeader(newFb, n, before, k);
      LinkedInsert(runs, total, k, Run(newFb, n), head0, next0, prev0, size0, next[..], prev[..], nBlocks[..]);
      runs := InsertAt(runs, k, Run(newFb, n));
    }

    /** The header itself, and the pointers to it. */
    method WriteHeader(newFb: nat, n: nat, before: int, ghost k: nat)
      requires Shape() && k <= |runs| && newFb < total
      requires before == StartOr(runs, k - 1) && newFb != before && newFb != StartOr(runs, k)
      modifies this`fbHead, next, prev, nBlocks
      ensures fbHead == if k == 0 then newFb else old(fbHead)
      ensures Wrote(old(next[..]), next[..], newFb, StartOr(runs, k), before, newFb)
      ensures Wrote(old(prev[..]), prev[..], newFb, before, StartOr(runs, k), newFb)
      ensures Wrote(old(nBlocks[..]), nBlocks[..], newFb, n, NULL, 0)
    {
      if k > 0 { Header(k - 1); }
      if k < |runs| { Header(k); }
      nBlocks[newFb] := n;
      if before != NULL {
        prev[newFb] := before;
        next[newFb] := next[before];
        if next[newFb] != NULL { prev[next[newFb]] := newFb; }
        next[before] := newFb;
      } else {
        next[newFb] := fbHead;
        prev[newFb] := NULL;
        if fbHead != NULL { prev[fbHead] := newFb; }
        fbHead := newFb;
      }
    }

    /** Merge the run headed by `fb` with its successor if they touch. */
    method MergeBlocks(fb: int, ghost k: int) returns (code: int)
      requires Shape() && -1 <= k < |runs| && fb == StartOr(runs, k)
      modifies this, next, prev, nBlocks
      ensures Shape() && Live() == old(Live())
      ensures runs == if k < 0 then old(runs) else MergeAt(old(runs), k)
      ensures k >= 0 ==> (code == MEM_SUCCESS <==> |runs| < |old(runs)|)
    {
      if fb == NULL {
        return ADDRESS_IS_NULL;
      }
      ChainBounds(runs, fbHead, next[..], prev[..], nBlocks[..], k);
      if next[fb] != NULL && next[fb] == fb + nBlocks[fb] {
        TakeOverNext(fb, k);
        return MEM_SUCCESS;
      }
      return MEM_FAILED;
    }

    /** Run `k` takes over the run behind it, which it touches. */
    method TakeOverNext(fb: nat, ghost k: nat)
      requires Shape() && k + 1 < |runs| && fb == runs[k].start && runs[k].End() == runs[k + 1].start
      modifies this, next, prev, nBlocks
      ensures Shape() && runs == MergeAt(old(runs), k) && |runs| < |old(runs)|
    {
      ghost var next0, prev0, size0, head0 := next[..], prev[..], nBlocks[..], fbHead;
      ChainBounds(runs, head0, next0, prev0, size0, k);
      ChainBounds(runs, head0, next0, prev0, size0, k + 1);
      nBlocks[fb] := nBlocks[fb] + nBlocks[next[fb]];
      next[fb] := next[next[fb]];
      if next[fb] != NULL { prev[next[fb]] := fb; }
      assert Wrote(next0, next[..], NULL, 0, fb, StartOr(runs, k + 2));
      assert Wrote(prev0, prev[..], NULL, 0, StartOr(runs, k + 2), fb);
      LinkedMerge(runs, total, k, head0, next0, prev0, size0, next[..], prev[..], nBlocks[..]);
      runs := MergeAt(runs, k);
    }

    /** Give back the allocation that starts at `address`. */
    method Free(address: nat) returns (code: int)
      requires Valid()
      requires address != 0 && address % MEM_BLOCK_SIZE == 0 ==> base <= address < Addr(total)
      modifies this, allocTable, next, prev, nBlocks
      ensures Valid()
      ensures code == MEM_SUCCESS <==> exists b :: b in old(Live()) && address == Addr(b)
      ensures code == MEM_SUCCESS ==> Live() == old(Live()) - {(address - base) / MEM_BLOCK_SIZE}
      ensures code != MEM_SUCCESS ==>
        && runs == old(runs) && fbHead == old(fbHead) && allocTable[..] == old(allocTable[..])
        && next[..] == old(next[..]) && prev[..] == old(prev[..]) && nBlocks[..] == old(nBlocks[..])
      ensures code == ADDRESS_IS_NULL <==> address == 0
      ensures code == ADDRESS_IS_NOT_ALIGNED <==> address % MEM_BLOCK_SIZE != 0
      ensures code in {MEM_SUCCESS, ADDRESS_IS_NULL, ADDRESS_IS_NOT_ALIGNED, ADDRESS_IS_NOT_USED}
    {
      if address == 0 {
        return ADDRESS_IS_NULL;
      }
      if address % MEM_BLOCK_SIZE != 0 {
        return ADDRESS_IS_NOT_ALIGNED;
      }
      var newFb := (address - base) / MEM_BLOCK_SIZE;
      assert address == Addr(newFb);
      var n := allocTable[newFb];
      if n == 0 {
        return ADDRESS_IS_NOT_USED;
      }
      assert newFb in Live() && Live()[newFb] == n;
      var curr, before := fbHead, NULL;
      ghost var k := 0;
      while curr != NULL && newFb >= curr
        invariant 0 <= k <= |runs| && curr == StartOr(runs, k) && before == StartOr(runs, k - 1)
        invariant forall i :: 0 <= i < k ==> runs[i].start < newFb
        decreases |runs| - k
        modifies {}
      {
        LiveNotInRun(runs, Live(), total, newFb, k);
        Header(k);
        if newFb < curr + nBlocks[curr] {
          assert false;
          return ADDRESS_IS_NOT_USED;
        }
        before := curr;
        curr, k := next[curr], k + 1;
      }
      Release(newFb, n, before, k);
      code := MEM_SUCCESS;
    }

    /** Chain the freed run after `before`, clear its table entry and merge on both sides. */
    method Release(newFb: nat, n: nat, before: int, ghost k: nat)
      requires Valid() && newFb in Live() && n == Live()[newFb]
      requires k <= |runs| && before == StartOr(runs, k - 1)
      requires forall i :: 0 <= i < k ==> runs[i].start < newFb
      requires k < |runs| ==> newFb < runs[k].start
      modifies this, allocTable, next, prev, nBlocks
      ensures Valid()
      ensures Live() == old(Live()) - {newFb}
    {
      SlotFound(runs, Live(), total, newFb, k);
      ChainFreed(newFb, n, before, k);
      MergeBoth(newFb, k);
    }

    /** Chain the freed run and clear its table entry. */
    method ChainFreed(newFb: nat, n: nat, before: int, ghost k: nat)
      requires Shape() && newFb in Live() && n == Live()[newFb] && n >= 1 && newFb + n <= total
      requires k <= |runs| && before == StartOr(runs, k - 1)
      requires forall i :: 0 <= i < k ==> runs[i].End() <= newFb
      requires forall i :: k <= i < |runs| ==> newFb + n <= runs[i].start
      modifies this, allocTable, next, prev, nBlocks
      ensures Shape() && Live() == old(Live()) - {newFb}
      ensures runs == InsertAt(old(runs), k, Run(newFb, n))
    {
      ChainAfter(newFb, n, before, k);
      allocTable[newFb] := 0;
      LiveAfterStore(old(allocTable[..]), allocTable[..], newFb, 0);
    }

    /** Merge run `k` into the one before it. */
    method MergeBefore(newFb: nat, ghost k: nat)
      requires Shape() && k < |runs| && runs[k].start == newFb
      modifies this, next, prev, nBlocks
      ensures Shape() && Live() == old(Live())
      ensures runs == if k > 0 then MergeAt(old(runs), k - 1) else old(runs)
    {
      Header(k);
      var _ := MergeBlocks(prev[newFb], k - 1);
    }

    /** Merge run `k` with the one after it and with the one before it. */
    method MergeBoth(newFb: nat, ghost k: nat)
      requires Shape() && k < |runs| && runs[k].start == newFb
      modifies this, next, prev, nBlocks
      ensures Shape() && Live() == old(Live())
      ensures runs == if k > 0 then MergeAt(MergeAt(old(runs), k), k - 1) else MergeAt(old(runs), k)
    {
      var _ := MergeBlocks(newFb, k);
      MergeBefore(newFb, k);
    }
  }
}
