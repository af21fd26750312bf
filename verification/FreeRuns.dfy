/** Free runs of blocks, on values.

    The allocator keeps the same fact twice: an in-band list of free runs and a
    table of allocation lengths.  Here both are mathematical values, and the
    list is shown to be determined by the table. */
module FreeRuns {

  /** A run of `len` consecutive blocks, the first of which is `start`. */
  datatype Run = Run(start: nat, len: nat) {
    function End(): nat { start + len }
    predicate Has(b: int) { start <= b < End() }
  }

  /** The live allocations: first block |-> number of blocks. */
  type Live = map<nat, nat>

  /** Runs in address order that do not overlap (they may touch). */
  ghost predicate Ordered(runs: seq<Run>, total: nat) {
    && (forall i :: 0 <= i < |runs| ==> runs[i].len >= 1 && runs[i].End() <= total)
    && (forall i, j :: 0 <= i < j < |runs| ==> runs[i].End() <= runs[j].start)
  }

  /** No two runs touch either: every run is maximal. */
  ghost predicate Coalesced(runs: seq<Run>) {
    forall i, j :: 0 <= i < j < |runs| ==> runs[i].End() < runs[j].start
  }

  /** Block `b` lies in one of the runs. */
  predicate InRuns(runs: seq<Run>, b: int) {
    runs != [] && (runs[0].Has(b) || InRuns(runs[1..], b))
  }

  ghost predicate InLive(live: Live, b: int) {
    exists a :: a in live && Run(a, live[a]).Has(b)
  }

  ghost predicate Disjoint(live: Live, total: nat) {
    && (forall a :: a in live ==> live[a] >= 1 && a + live[a] <= total)
    && (forall a, c :: a in live && c in live && a < c ==> a + live[a] <= c)
  }

  /** Runs and live allocations cover every block exactly once. */
  ghost predicate Partition(runs: seq<Run>, live: Live, total: nat) {
    && Ordered(runs, total)
    && Disjoint(live, total)
    && (forall b :: 0 <= b < total ==> (InRuns(runs, b) <==> !InLive(live, b)))
  }

  /** The allocator's invariant, on values. */
  ghost predicate Canonical(runs: seq<Run>, live: Live, total: nat) {
    Partition(runs, live, total) && Coalesced(runs)
  }

  /** `r` is a non-empty run of unallocated blocks that cannot be extended. */
  ghost predicate MaximalFree(r: Run, live: Live, total: nat) {
    && r.len >= 1 && r.End() <= total
    && (forall b :: r.Has(b) ==> !InLive(live, b))
    && (r.start > 0 ==> InLive(live, r.start - 1))
    && (r.End() < total ==> InLive(live, r.End()))
  }

  /** `n` unallocated blocks start at block `b`. */
  ghost predicate FitsAt(live: Live, total: nat, b: nat, n: nat) {
    b + n <= total && forall x :: b <= x < b + n ==> !InLive(live, x)
  }

  /** The best-fit choice: the shortest sufficient run, the lowest one on ties. */
  ghost predicate BestFit(runs: seq<Run>, n: nat, r: Run) {
    && r in runs && r.len >= n
    && forall q :: q in runs && q.len >= n ==> r.len < q.len || (r.len == q.len && r.start <= q.start)
  }

  // ---------- membership of blocks ----------

  lemma {:induction false} InRunsConcat(x: seq<Run>, y: seq<Run>, b: int)
    ensures InRuns(x + y, b) <==> InRuns(x, b) || InRuns(y, b)
  {
    if x == [] {
      assert x + y == y;
    } else {
      assert (x + y)[0] == x[0] && (x + y)[1..] == x[1..] + y;
      InRunsConcat(x[1..], y, b);
    }
  }

  lemma InRunsAround(pre: seq<Run>, r: Run, post: seq<Run>, b: int)
    ensures InRuns(pre + [r] + post, b) <==> InRuns(pre, b) || r.Has(b) || InRuns(post, b)
  {
    InRunsConcat(pre + [r], post, b);
    InRunsConcat(pre, [r], b);
  }

  /** The run that holds a block. */
  lemma {:induction false} FindRun(runs: seq<Run>, b: int) returns (k: nat)
    requires InRuns(runs, b)
    ensures k < |runs| && runs[k].Has(b)
  {
    if runs[0].Has(b) {
      k := 0;
    } else {
      k := FindRun(runs[1..], b);
      k := k + 1;
    }
  }

  lemma {:induction false} RunHolds(runs: seq<Run>, k: nat, b: int)
    requires k < |runs| && runs[k].Has(b)
    ensures InRuns(runs, b)
  {
    if k > 0 { RunHolds(runs[1..], k - 1, b); }
  }

  /** In an ordered list a block of run `k` lies in no other run. */
  lemma OtherRuns(runs: seq<Run>, total: nat, k: nat, b: int)
    requires Ordered(runs, total) && k < |runs|
    ensures InRuns(runs[..k], b) ==> b < runs[k].start
    ensures InRuns(runs[k + 1..], b) ==> runs[k].End() <= b
  {
    if InRuns(runs[..k], b) { var i := FindRun(runs[..k], b); }
    if InRuns(runs[k + 1..], b) { var i := FindRun(runs[k + 1..], b); }
  }

  // ---------- the list is a function of the live allocations ----------

  lemma {:induction false} CoalescedUnique(r1: seq<Run>, r2: seq<Run>, total: nat)
    requires Ordered(r1, total) && Coalesced(r1)
    requires Ordered(r2, total) && Coalesced(r2)
    requires forall b :: 0 <= b < total ==> (InRuns(r1, b) <==> InRuns(r2, b))
    ensures r1 == r2
  {
    if r1 != [] && r2 != [] {
      FirstRunCovers(r1, r2, total);
      FirstRunCovers(r2, r1, total);
      assert r1[0] == r2[0];
      var t1, t2 := r1[1..], r2[1..];
      forall b | 0 <= b < total
        ensures InRuns(t1, b) <==> InRuns(t2, b)
      {
        assert InRuns(r1, b) <==> InRuns(r2, b);
        OtherRuns(r1, total, 0, b);
        OtherRuns(r2, total, 0, b);
      }
      CoalescedUnique(t1, t2, total);
      assert r1 == [r1[0]] + t1 && r2 == [r2[0]] + t2;
    } else {
      assert r1 != [] ==> InRuns(r1, r1[0].start);
      assert r2 != [] ==> InRuns(r2, r2[0].start);
    }
  }

  lemma FirstRunCovers(r1: seq<Run>, r2: seq<Run>, total: nat)
    requires Ordered(r1, total) && Coalesced(r1) && r1 != []
    requires Ordered(r2, total) && Coalesced(r2) && r2 != []
    requires forall b :: 0 <= b < total ==> (InRuns(r1, b) <==> InRuns(r2, b))
    ensures r2[0].start <= r1[0].start
    ensures r1[0].start == r2[0].start ==> r1[0].len <= r2[0].len
  {
    assert InRuns(r1, r1[0].start);
    var k := FindRun(r2, r1[0].start);
    var e := r2[0].End();
    assert !InRuns(r2, e) by { OtherRuns(r2, total, 0, e); NotAtEnd(r2, total, 0); }
    assert r1[0].Has(e) ==> InRuns(r1, e);
  }

  /** The block just after a run of a coalesced list is not free. */
  lemma NotAtEnd(runs: seq<Run>, total: nat, k: nat)
    requires Ordered(runs, total) && Coalesced(runs) && k < |runs|
    ensures !InRuns(runs, runs[k].End())
  {
    assert forall i :: 0 <= i < |runs| ==> !runs[i].Has(runs[k].End());
    if InRuns(runs, runs[k].End()) { var i := FindRun(runs, runs[k].End()); }
  }

  /** Nor is the block just before it. */
  lemma NotBeforeStart(runs: seq<Run>, total: nat, k: nat)
    requires Ordered(runs, total) && Coalesced(runs) && k < |runs|
    ensures !InRuns(runs, runs[k].start - 1)
  {
    assert forall i :: 0 <= i < |runs| ==> !runs[i].Has(runs[k].start - 1);
    if InRuns(runs, runs[k].start - 1) { var i := FindRun(runs, runs[k].start - 1); }
  }

  /** The free list is a function of the live allocations. */
  lemma FreeListDetermined(r1: seq<Run>, r2: seq<Run>, live: Live, total: nat)
    requires Canonical(r1, live, total) && Canonical(r2, live, total)
    ensures r1 == r2
  {
    CoalescedUnique(r1, r2, total);
  }

  /** The list holds exactly the maximal runs of unallocated blocks. */
  lemma ListIsMaximalRuns(runs: seq<Run>, live: Live, total: nat, r: Run)
    requires Canonical(runs, live, total)
    ensures r in runs <==> MaximalFree(r, live, total)
  {
    if r in runs {
      var k :| 0 <= k < |runs| && runs[k] == r;
      ListedIsMaximal(runs, live, total, k);
    }
    if MaximalFree(r, live, total) {
      MaximalIsListed(runs, live, total, r);
    }
  }

  lemma ListedIsMaximal(runs: seq<Run>, live: Live, total: nat, k: nat)
    requires Canonical(runs, live, total) && k < |runs|
    ensures MaximalFree(runs[k], live, total)
  {
    forall b | runs[k].Has(b)
      ensures !InLive(live, b)
    {
      RunHolds(runs, k, b);
    }
    NotBeforeStart(runs, total, k);
    NotAtEnd(runs, total, k);
  }

  lemma MaximalIsListed(runs: seq<Run>, live: Live, total: nat, r: Run)
    requires Canonical(runs, live, total) && MaximalFree(r, live, total)
    ensures r in runs
  {
    assert r.Has(r.start);
    var k := FindRun(runs, r.start);
    assert runs[k].Has(r.start - 1) ==> InRuns(runs, r.start - 1) by {
      if runs[k].Has(r.start - 1) { RunHolds(runs, k, r.start - 1); }
    }
    assert runs[k].Has(r.End()) ==> InRuns(runs, r.End()) by {
      if runs[k].Has(r.End()) { RunHolds(runs, k, r.End()); }
    }
    NotAtEnd(runs, total, k);
    var e := runs[k].End();
    assert r.Has(e) ==> InRuns(runs, e);
    assert runs[k] == r;
  }

  /** Enough consecutive unallocated blocks exist anywhere iff some single run of the list
      is long enough. */
  lemma FitIffRun(runs: seq<Run>, live: Live, total: nat, n: nat)
    requires Canonical(runs, live, total) && n >= 1
    ensures (exists b: nat :: FitsAt(live, total, b, n)) <==> (exists r :: r in runs && r.len >= n)
  {
    if b: nat :| FitsAt(live, total, b, n) {
      assert InRuns(runs, b);
      var k := FindRun(runs, b);
      NotAtEnd(runs, total, k);
      assert runs[k] in runs && runs[k].len >= n;
    }
    if r :| r in runs && r.len >= n {
      ListIsMaximalRuns(runs, live, total, r);
      assert FitsAt(live, total, r.start, n);
    }
  }

  // ---------- taking blocks from a run ----------

  /** `runs` after the first `n` blocks of run `k` are taken. */
  function TakeFrom(runs: seq<Run>, k: nat, n: nat): seq<Run>
    requires k < |runs| && n <= runs[k].len
  {
    if n < runs[k].len then runs[..k] + [Run(runs[k].start + n, runs[k].len - n)] + runs[k + 1..]
    else runs[..k] + runs[k + 1..]
  }

  lemma TakeRuns(runs: seq<Run>, total: nat, k: nat, n: nat, b: nat)
    requires Ordered(runs, total)
    requires k < |runs| && 1 <= n <= runs[k].len
    ensures InRuns(TakeFrom(runs, k, n), b) <==> InRuns(runs, b) && !Run(runs[k].start, n).Has(b)
  {
    var pre, post := runs[..k], runs[k + 1..];
    assert runs == pre + [runs[k]] + post;
    InRunsAround(pre, runs[k], post, b);
    OtherRuns(runs, total, k, b);
    if n < runs[k].len {
      InRunsAround(pre, Run(runs[k].start + n, runs[k].len - n), post, b);
    } else {
      InRunsConcat(pre, post, b);
    }
  }

  lemma TakeOrdered(runs: seq<Run>, total: nat, k: nat, n: nat)
    requires Ordered(runs, total) && Coalesced(runs)
    requires k < |runs| && 1 <= n <= runs[k].len
    ensures Ordered(TakeFrom(runs, k, n), total) && Coalesced(TakeFrom(runs, k, n))
  {
    var out := TakeFrom(runs, k, n);
    if n < runs[k].len {
      assert out == runs[k := Run(runs[k].start + n, runs[k].len - n)];
    } else {
      forall i | 0 <= i < |out|
        ensures out[i] == runs[if i < k then i else i + 1]
      {
      }
    }
  }

  lemma TakeLive(live: Live, total: nat, a: nat, n: nat)
    requires Disjoint(live, total) && n >= 1 && a + n <= total
    requires forall b :: Run(a, n).Has(b) ==> !InLive(live, b)
    ensures a !in live && Disjoint(live[a := n], total)
    ensures forall b :: InLive(live[a := n], b) <==> InLive(live, b) || Run(a, n).Has(b)
  {
    var live' := live[a := n];
    assert Run(a, n).Has(a);
    forall c | c in live
      ensures c < a ==> c + live[c] <= a
      ensures c >= a ==> a + n <= c
    {
      assert Run(c, live[c]).Has(c) && InLive(live, c);
      assert Run(c, live[c]).Has(a) ==> InLive(live, a);
    }
    forall b
      ensures InLive(live', b) <==> InLive(live, b) || Run(a, n).Has(b)
    {
      if InLive(live, b) { var c :| c in live && Run(c, live[c]).Has(b); assert Run(c, live'[c]).Has(b); }
      if Run(a, n).Has(b) { assert Run(a, live'[a]).Has(b); }
    }
  }

  lemma TakeKeepsCanonical(runs: seq<Run>, live: Live, total: nat, k: nat, n: nat)
    requires Canonical(runs, live, total)
    requires k < |runs| && 1 <= n <= runs[k].len
    ensures Canonical(TakeFrom(runs, k, n), live[runs[k].start := n], total)
    ensures runs[k].start !in live
  {
    ListedIsMaximal(runs, live, total, k);
    assert forall b :: Run(runs[k].start, n).Has(b) ==> runs[k].Has(b);
    TakeLive(live, total, runs[k].start, n);
    TakeOrdered(runs, total, k, n);
    forall b | 0 <= b < total
      ensures InRuns(TakeFrom(runs, k, n), b) <==> !InLive(live[runs[k].start := n], b)
    {
      TakeRuns(runs, total, k, n, b);
    }
  }

  // ---------- giving blocks back ----------

  function InsertAt(runs: seq<Run>, k: nat, r: Run): seq<Run>
    requires k <= |runs|
  {
    runs[..k] + [r] + runs[k..]
  }

  /** `runs` after run `k` absorbs its successor when the two touch. */
  function MergeAt(runs: seq<Run>, k: nat): seq<Run>
    requires k < |runs|
  {
    if k + 1 < |runs| && runs[k].End() == runs[k + 1].start then
      runs[..k] + [Run(runs[k].start, runs[k].len + runs[k + 1].len)] + runs[k + 2..]
    else runs
  }

  lemma MergeKeepsBlocks(runs: seq<Run>, k: nat, b: nat)
    requires k < |runs|
    ensures InRuns(MergeAt(runs, k), b) <==> InRuns(runs, b)
  {
    if MergeAt(runs, k) != runs {
      var pre, post := runs[..k], runs[k + 2..];
      var r, s := runs[k], runs[k + 1];
      assert runs == pre + [r] + ([s] + post);
      InRunsAround(pre, r, [s] + post, b);
      InRunsConcat([s], post, b);
      InRunsAround(pre, Run(r.start, r.len + s.len), post, b);
    }
  }

  lemma MergeOrdered(runs: seq<Run>, k: nat, total: nat)
    requires Ordered(runs, total) && k < |runs|
    ensures Ordered(MergeAt(runs, k), total)
  {
    var out := MergeAt(runs, k);
    if out != runs {
      forall i | 0 <= i < |out|
        ensures i < k ==> out[i] == runs[i]
        ensures i > k ==> out[i] == runs[i + 1]
      {
      }
    }
  }

  /** `k` is where a run starting at `a` belongs. */
  ghost predicate Slot(runs: seq<Run>, k: nat, a: nat) {
    && k <= |runs|
    && (forall i :: 0 <= i < k ==> runs[i].start < a)
    && (forall i :: k <= i < |runs| ==> a < runs[i].start)
  }

  /** Inserting a freed run and merging it on both sides. */
  function GiveBack(runs: seq<Run>, k: nat, r: Run): seq<Run>
    requires k <= |runs|
  {
    var merged := MergeAt(InsertAt(runs, k, r), k);
    if k > 0 then MergeAt(merged, k - 1) else merged
  }

  /** A freed run lies in the gap where it is inserted. */
  lemma FreedInGap(runs: seq<Run>, live: Live, total: nat, k: nat, a: nat)
    requires Canonical(runs, live, total)
    requires a in live && Slot(runs, k, a)
    ensures forall i :: 0 <= i < k ==> runs[i].End() <= a
    ensures forall i :: k <= i < |runs| ==> a + live[a] <= runs[i].start
  {
    forall i | 0 <= i < k
      ensures runs[i].End() <= a
    {
      ListedIsMaximal(runs, live, total, i);
      assert Run(a, live[a]).Has(a) && InLive(live, a);
    }
    forall i | k <= i < |runs|
      ensures a + live[a] <= runs[i].start
    {
      ListedIsMaximal(runs, live, total, i);
      var s := runs[i].start;
      assert runs[i].Has(s);
      assert Run(a, live[a]).Has(s) ==> InLive(live, s);
    }
  }

  lemma InsertOrdered(runs: seq<Run>, total: nat, k: nat, r: Run)
    requires Ordered(runs, total) && k <= |runs| && r.len >= 1 && r.End() <= total
    requires forall i :: 0 <= i < k ==> runs[i].End() <= r.start
    requires forall i :: k <= i < |runs| ==> r.End() <= runs[i].start
    ensures Ordered(InsertAt(runs, k, r), total)
  {
    var ins := InsertAt(runs, k, r);
    forall i | 0 <= i < |ins|
      ensures ins[i] == if i < k then runs[i] else if i == k then r else runs[i - 1]
    {
    }
  }

  lemma GiveBackKeepsCanonical(runs: seq<Run>, live: Live, total: nat, k: nat, a: nat)
    requires Canonical(runs, live, total)
    requires a in live && Slot(runs, k, a)
    ensures Canonical(GiveBack(runs, k, Run(a, live[a])), live - {a}, total)
  {
    var r := Run(a, live[a]);
    FreedInGap(runs, live, total, k, a);
    GiveBackOrdered(runs, total, k, r);
    GiveBackCoalesced(runs, total, k, r);
    forall b | 0 <= b < total
      ensures InRuns(GiveBack(runs, k, r), b) <==> !InLive(live - {a}, b)
    {
      GiveBackBlocks(runs, k, r, b);
      RemoveLive(live, total, a, b);
      assert r.Has(b) ==> InLive(live, b);
    }
  }

  lemma GiveBackOrdered(runs: seq<Run>, total: nat, k: nat, r: Run)
    requires Ordered(runs, total) && k <= |runs| && r.len >= 1 && r.End() <= total
    requires forall i :: 0 <= i < k ==> runs[i].End() <= r.start
    requires forall i :: k <= i < |runs| ==> r.End() <= runs[i].start
    ensures Ordered(GiveBack(runs, k, r), total)
  {
    var ins := InsertAt(runs, k, r);
    InsertOrdered(runs, total, k, r);
    MergeOrdered(ins, k, total);
    if k > 0 { MergeOrdered(MergeAt(ins, k), k - 1, total); }
  }

  lemma GiveBackBlocks(runs: seq<Run>, k: nat, r: Run, b: nat)
    requires k <= |runs|
    ensures InRuns(GiveBack(runs, k, r), b) <==> InRuns(runs, b) || r.Has(b)
  {
    var ins := InsertAt(runs, k, r);
    InRunsAround(runs[..k], r, runs[k..], b);
    InRunsConcat(runs[..k], runs[k..], b);
    assert runs == runs[..k] + runs[k..];
    MergeKeepsBlocks(ins, k, b);
    if k > 0 { MergeKeepsBlocks(MergeAt(ins, k), k - 1, b); }
  }

  lemma GiveBackCoalesced(runs: seq<Run>, total: nat, k: nat, r: Run)
    requires Ordered(runs, total) && Coalesced(runs) && k <= |runs| && r.len >= 1
    requires forall i :: 0 <= i < k ==> runs[i].End() <= r.start
    requires forall i :: k <= i < |runs| ==> r.End() <= runs[i].start
    ensures Coalesced(GiveBack(runs, k, r))
  {
    var mid, tail := FirstMerge(runs, total, k, r);
    SecondMerge(runs, total, k, mid, tail);
    if k > 0 {
      assert GiveBack(runs, k, r) == MergeAt(runs[..k] + [mid] + tail, k - 1);
    }
  }

  /** What the first merge leaves: the freed run, with its successor if they touched. */
  lemma FirstMerge(runs: seq<Run>, total: nat, k: nat, r: Run) returns (mid: Run, tail: seq<Run>)
    requires Ordered(runs, total) && Coalesced(runs) && k <= |runs| && r.len >= 1
    requires forall i :: k <= i < |runs| ==> r.End() <= runs[i].start
    ensures MergeAt(InsertAt(runs, k, r), k) == runs[..k] + [mid] + tail
    ensures Coalesced(tail) && mid.start == r.start && mid.len >= 1
    ensures forall j :: 0 <= j < |tail| ==> mid.End() < tail[j].start
  {
    if k < |runs| && r.End() == runs[k].start {
      mid, tail := Run(r.start, r.len + runs[k].len), runs[k + 1..];
      TailBeyond(runs, total, k + 1, mid.End());
    } else {
      mid, tail := r, runs[k..];
      TailBeyond(runs, total, k, mid.End());
    }
    MergeAfterInsert(runs, k, r);
  }

  lemma MergeAfterInsert(runs: seq<Run>, k: nat, r: Run)
    requires k <= |runs|
    ensures MergeAt(InsertAt(runs, k, r), k)
         == if k < |runs| && r.End() == runs[k].start
            then runs[..k] + [Run(r.start, r.len + runs[k].len)] + runs[k + 1..]
            else runs[..k] + [r] + runs[k..]
  {
    var ins := InsertAt(runs, k, r);
    assert ins[..k] == runs[..k] && ins[k] == r && ins[k + 1..] == runs[k..];
    if k < |runs| {
      assert ins[k + 1] == runs[k] && ins[k + 2..] == runs[k + 1..];
    }
  }

  /** Runs from `k` on, the first of which does not touch `end`. */
  lemma TailBeyond(runs: seq<Run>, total: nat, k: nat, end: int)
    requires Ordered(runs, total) && Coalesced(runs) && k <= |runs|
    requires k < |runs| ==> end < runs[k].start
    ensures Coalesced(runs[k..]) && forall j :: 0 <= j < |runs[k..]| ==> end < runs[k..][j].start
  {
  }

  /** The second merge absorbs the predecessor if it touches; nothing touches any more. */
  lemma SecondMerge(runs: seq<Run>, total: nat, k: nat, mid: Run, tail: seq<Run>)
    requires Ordered(runs, total) && Coalesced(runs) && k <= |runs|
    requires forall i :: 0 <= i < k ==> runs[i].End() <= mid.start
    requires Coalesced(tail) && mid.len >= 1
    requires forall j :: 0 <= j < |tail| ==> mid.End() < tail[j].start
    ensures k == 0 ==> Coalesced(runs[..k] + [mid] + tail)
    ensures k > 0 ==> Coalesced(MergeAt(runs[..k] + [mid] + tail, k - 1))
  {
    var all := runs[..k] + [mid] + tail;
    assert Coalesced(runs[..k]);
    if k == 0 {
      JoinCoalesced([], mid, tail);
      assert all == [] + [mid] + tail;
    } else {
      assert all[k - 1] == runs[k - 1] && all[k] == mid && all[k + 1..] == tail;
      if runs[k - 1].End() == mid.start {
        var pre := runs[..k - 1];
        assert all[..k - 1] == pre && Coalesced(pre);
        JoinCoalesced(pre, Run(runs[k - 1].start, runs[k - 1].len + mid.len), tail);
      } else {
        JoinCoalesced(runs[..k], mid, tail);
      }
    }
  }

  lemma JoinCoalesced(pre: seq<Run>, r: Run, post: seq<Run>)
    requires Coalesced(pre) && Coalesced(post) && r.len >= 1
    requires forall i :: 0 <= i < |pre| ==> pre[i].End() < r.start
    requires forall i :: 0 <= i < |post| ==> r.End() < post[i].start
    ensures Coalesced(pre + [r] + post)
  {
    var all := pre + [r] + post;
    forall i, j | 0 <= i < j < |all|
      ensures all[i].End() < all[j].start
    {
      assert i < |pre| ==> all[i] == pre[i];
      assert j > |pre| ==> all[j] == post[j - |pre| - 1];
    }
  }

  lemma RemoveLive(live: Live, total: nat, a: nat, b: nat)
    requires Disjoint(live, total) && a in live
    ensures InLive(live - {a}, b) <==> InLive(live, b) && !Run(a, live[a]).Has(b)
  {
    var rest := live - {a};
    if InLive(rest, b) {
      var c :| c in rest && Run(c, rest[c]).Has(b);
      assert c in live && Run(c, live[c]).Has(b);
    }
    if InLive(live, b) && !Run(a, live[a]).Has(b) {
      var c :| c in live && Run(c, live[c]).Has(b);
      assert c in rest && Run(c, rest[c]).Has(b);
    }
  }

  // ---------- laws of the live map ----------

  /** With nothing allocated the list is the single initial run. */
  lemma EmptyIsSingleRun(runs: seq<Run>, total: nat)
    requires Canonical(runs, map[], total) && total >= 1
    ensures runs == [Run(0, total)]
  {
    var whole := [Run(0, total)];
    forall b | 0 <= b < total
      ensures InRuns(whole, b)
      ensures InRuns(runs, b)
    {
      assert whole[0].Has(b);
    }
    CoalescedUnique(runs, whole, total);
  }
}
