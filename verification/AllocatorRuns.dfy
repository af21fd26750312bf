/** Whole runs of the allocator, and the memory a thread takes and gives back. */
module AllocatorRuns {
  import opened FreeRuns
  import opened MemoryAllocation
  import opened Utils

  datatype Request =
    | AllocRequest(n: nat)
    | FreeRequest(address: nat)
      // user code storing anything into one block: seen as a header it is three words
    | WriteRequest(block: nat, next: int, prev: int, size: nat)

  /** What callers owe: 32-bit block counts, and no address outside the managed area. */
  predicate InArea(base: nat, total: nat, address: nat) {
    address != 0 && address % MEM_BLOCK_SIZE == 0 ==> base <= address < base + MEM_BLOCK_SIZE * total
  }

  /** User code writes only into blocks it has been given. */
  method UserWrite(m: MemoryAllocator, block: nat, next: int, prev: int, size: nat)
    requires m.Valid() && block < m.total && InLive(m.Live(), block)
    modifies m.next, m.prev, m.nBlocks
    ensures m.Valid() && m.runs == old(m.runs) && m.Live() == old(m.Live())
  {
    ghost var next0, prev0, size0 := m.next[..], m.prev[..], m.nBlocks[..];
    m.next[block] := next;
    m.prev[block] := prev;
    m.nBlocks[block] := size;
    forall k | 0 <= k < |m.runs|
      ensures LinkedAt(m.runs, k, m.next[..], m.prev[..], m.nBlocks[..])
    {
      assert LinkedAt(m.runs, k, next0, prev0, size0);
      ListedIsMaximal(m.runs, m.Live(), m.total, k);
      assert m.runs[k].Has(m.runs[k].start);
    }
  }

  /** Some request frees the allocation that starts at block `a`. */
  ghost predicate Freed(base: nat, requests: seq<Request>, a: nat) {
    FreeRequest(base + MEM_BLOCK_SIZE * a) in requests
  }

  /** Of the allocations `live`, those that no request frees are still there. */
  ghost predicate Kept(base: nat, requests: seq<Request>, live: Live, live': Live) {
    forall a :: a in live && !Freed(base, requests, a) ==> a in live' && live'[a] == live[a]
  }

  /** Every run of requests keeps the list equal to the maximal runs of unallocated blocks,
      and every allocation that it does not free; a request to write is skipped unless the block
      is allocated. */
  method Execute(m: MemoryAllocator, requests: seq<Request>)
    requires m.Valid()
    requires forall r :: r in requests && r.AllocRequest? ==> r.n < TWO_TO_THE_32
    requires forall r :: r in requests && r.FreeRequest? ==> InArea(m.base, m.total, r.address)
    modifies m.Memory()
    ensures m.Valid()
    ensures forall r :: r in m.runs <==> MaximalFree(r, m.Live(), m.total)
    ensures Kept(m.base, requests, old(m.Live()), m.Live())
  {
    for i := 0 to |requests|
      invariant m.Valid() && Kept(m.base, requests, old(m.Live()), m.Live())
    {
      assert requests[i] in requests;
      ghost var before := m.Live();
      Serve(m, requests[i]);
      KeptOn(m.base, requests, i, old(m.Live()), before, m.Live());
    }
    forall r
      ensures r in m.runs <==> MaximalFree(r, m.Live(), m.total)
    {
      ListIsMaximalRuns(m.runs, m.Live(), m.total, r);
    }
  }

  method Serve(m: MemoryAllocator, r: Request)
    requires m.Valid()
    requires r.AllocRequest? ==> r.n < TWO_TO_THE_32
    requires r.FreeRequest? ==> InArea(m.base, m.total, r.address)
    modifies m.Memory()
    ensures m.Valid() && Kept(m.base, [r], old(m.Live()), m.Live())
  {
    match r
    case AllocRequest(n) =>
      var _, _ := m.Alloc(n);
    case FreeRequest(address) =>
      ghost var live := m.Live();
      var code := m.Free(address);
      FreedOnly(m.base, address, live, m.Live(), code == MEM_SUCCESS);
    case WriteRequest(block, next, prev, size) =>
      var a := FindOwner(m, block);
      if a >= 0 { UserWrite(m, block, next, prev, size); }
  }

  lemma FreedOnly(base: nat, address: nat, live: Live, live': Live, freed: bool)
    requires freed ==> base <= address && (address - base) % MEM_BLOCK_SIZE == 0
    requires live' == if freed then live - {(address - base) / MEM_BLOCK_SIZE} else live
    ensures Kept(base, [FreeRequest(address)], live, live')
  {
    forall a | a in live && !Freed(base, [FreeRequest(address)], a)
      ensures a in live' && live'[a] == live[a]
    {
      assert FreeRequest(address) in [FreeRequest(address)];
      assert address != base + MEM_BLOCK_SIZE * a;
    }
  }

  lemma KeptOn(base: nat, requests: seq<Request>, i: nat, live: Live, live': Live, live'': Live)
    requires i < |requests| && Kept(base, requests, live, live') && Kept(base, [requests[i]], live', live'')
    ensures Kept(base, requests, live, live'')
  {
    forall a | a in live && !Freed(base, requests, a)
      ensures !Freed(base, [requests[i]], a)
    {
      assert requests[i] in requests;
    }
  }

  /** The allocation that owns a block, read off the table; -1 if there is none. */
  method FindOwner(m: MemoryAllocator, block: nat) returns (a: int)
    requires m.Valid()
    ensures a >= 0 ==> block < m.total && InLive(m.Live(), block)
    ensures a < 0 ==> block >= m.total || !InLive(m.Live(), block)
  {
    a := -1;
    if block < m.total {
      for i := 0 to block + 1
        invariant a >= 0 ==> InLive(m.Live(), block)
        invariant a < 0 ==> forall c :: 0 <= c < i && c in m.Live() ==> !Run(c, m.Live()[c]).Has(block)
      {
        if m.allocTable[i] != 0 && block < i + m.allocTable[i] {
          assert Run(i, m.Live()[i]).Has(block);
          a := i;
        }
      }
    }
  }

  lemma TableDetermined(t1: seq<nat>, t2: seq<nat>)
    requires |t1| == |t2| && LiveOf(t1) == LiveOf(t2)
    ensures t1 == t2
  {
    forall i | 0 <= i < |t1|
      ensures t1[i] == t2[i]
    {
      assert i in LiveOf(t1) <==> t1[i] != 0;
      assert i in LiveOf(t2) <==> t2[i] != 0;
      assert i in LiveOf(t1) ==> LiveOf(t1)[i] == LiveOf(t2)[i];
    }
  }

  /** Freeing what has just been allocated restores list and table; `alloc(0)` is the one
      request whose result cannot be freed. */
  method AllocThenFree(m: MemoryAllocator, n: nat) returns (address: nat, code: int)
    requires m.Valid() && n < TWO_TO_THE_32
    modifies m.Memory()
    ensures m.Valid() && m.runs == old(m.runs) && m.allocTable[..] == old(m.allocTable[..])
    ensures code == MEM_SUCCESS <==> address != 0 && n >= 1
  {
    ghost var runs0, table0 := m.runs, m.allocTable[..];
    address, code := AllocFree(m, n);
    FreeListDetermined(m.runs, runs0, m.Live(), m.total);
    TableDetermined(m.allocTable[..], table0);
  }

  method AllocFree(m: MemoryAllocator, n: nat) returns (address: nat, code: int)
    requires m.Valid() && n < TWO_TO_THE_32
    modifies m.Memory()
    ensures m.Valid() && m.Live() == old(m.Live())
    ensures code == MEM_SUCCESS <==> address != 0 && n >= 1
  {
    ghost var start;
    address, start := m.Alloc(n);
    assert address != 0 && n >= 1 ==> start in m.Live();
    code := FreeBlock(m, address, start);
  }

  method FreeBlock(m: MemoryAllocator, address: nat, ghost start: int) returns (code: int)
    requires m.Valid() && (address != 0 ==> 0 <= start < m.total && address == m.Addr(start))
    modifies m.Memory()
    ensures m.Valid() && (code == MEM_SUCCESS <==> address != 0 && start in old(m.Live()))
    ensures m.Live() == if address != 0 then old(m.Live()) - {start} else old(m.Live())
  {
    code := m.Free(address);
  }

  /** Two frees commute: two allocators with the same live allocations that free `a` and `c` in
      opposite orders end with the same list and the same table. */
  method FreesCommute(m: MemoryAllocator, m': MemoryAllocator, a: nat, c: nat)
    requires m.Valid() && m'.Valid() && m.Memory() !! m'.Memory()
    requires m.base == m'.base && m.total == m'.total && m.Live() == m'.Live()
    requires a in m.Live() && c in m.Live() && a != c
    modifies m.Memory(), m'.Memory()
    ensures m.Valid() && m'.Valid() && m.Live() == old(m.Live()) - {a, c}
    ensures m.runs == m'.runs && m.fbHead == m'.fbHead && m.allocTable[..] == m'.allocTable[..]
  {
    FreeTwo(m, a, c);
    FreeTwo(m', c, a);
    assert {a, c} == {c, a};
    FreeListDetermined(m.runs, m'.runs, m.Live(), m.total);
    TableDetermined(m.allocTable[..], m'.allocTable[..]);
  }

  method FreeTwo(m: MemoryAllocator, a: nat, c: nat)
    requires m.Valid() && a in m.Live() && c in m.Live() && a != c
    modifies m.Memory()
    ensures m.Valid() && m.Live() == old(m.Live()) - {a, c}
  {
    ghost var live := m.Live();
    FreeStart(m, m.Addr(a), a);
    FreeStart(m, m.Addr(c), c);
    assert live - {a} - {c} == live - {a, c};
  }

  function Elements(order: seq<nat>): set<nat> {
    set a | a in order
  }

  lemma DropFirst(order: seq<nat>, i: nat)
    requires i < |order|
    requires Distinct(order)
    ensures order[i] in order[i..]
    ensures Elements(order[i..]) - {order[i]} == Elements(order[i + 1..])
  {
    assert order[i..] == [order[i]] + order[i + 1..];
  }

  /** Freeing every live allocation, in any order, restores the single initial run. */
  method FreeAll(m: MemoryAllocator, order: seq<nat>)
    requires m.Valid()
    requires forall a :: a in m.Live() <==> a in order
    requires Distinct(order)
    modifies m.Memory()
    ensures m.Valid() && m.Live() == map[] && m.runs == [Run(0, m.total)]
  {
    for i := 0 to |order|
      invariant m.Valid()
      invariant m.Live().Keys == Elements(order[i..])
    {
      DropFirst(order, i);
      FreeStart(m, m.Addr(order[i]), order[i]);
    }
    assert m.Live() == map[];
    EmptyIsSingleRun(m.runs, m.total);
  }

  // ---------- thread memory ----------

  const DEFAULT_STACK_SIZE := 4096
  const SIZEOF_TCB := 360
  const SIZEOF_SEM := 24

  /** The addresses a control block remembers; `usrStack` is one past the stack's high end. */
  datatype ThreadMemory = ThreadMemory(tcb: nat, usrStack: nat, sysStack: nat, joinSem: nat)

  /** What becomes of a creation: which of the four allocations fails, if any. */
  datatype Creation = Created(memory: ThreadMemory) | NoUserStack | NoControlBlock | NoKernelStack | NoSemaphore

  /** The four allocations of a thread, by first block. */
  ghost predicate Owns(m: MemoryAllocator, t: ThreadMemory, tcb: nat, usr: nat, sys: nat, sem: nat) {
    && t.tcb == m.Addr(tcb) && t.usrStack == m.Addr(usr) + DEFAULT_STACK_SIZE
    && t.sysStack == m.Addr(sys) && t.joinSem == m.Addr(sem)
    && tcb != usr && tcb != sys && tcb != sem && usr != sys && usr != sem && sys != sem
  }

  function FourBlocks(tcb: nat, usr: nat, sys: nat, sem: nat): Live {
    map[tcb := ToBlocks(SIZEOF_TCB), usr := ToBlocks(DEFAULT_STACK_SIZE),
        sys := ToBlocks(DEFAULT_STACK_SIZE), sem := ToBlocks(SIZEOF_SEM)]
  }

  lemma FourStores(live: Live, tcb: nat, usr: nat, sys: nat, sem: nat)
    requires usr !in live && tcb !in live && sys !in live && sem !in live
    requires tcb != usr && tcb != sys && tcb != sem && usr != sys && usr != sem && sys != sem
    ensures live[usr := ToBlocks(DEFAULT_STACK_SIZE)][tcb := ToBlocks(SIZEOF_TCB)]
                [sys := ToBlocks(DEFAULT_STACK_SIZE)][sem := ToBlocks(SIZEOF_SEM)]
         == live + FourBlocks(tcb, usr, sys, sem)
  {
  }

  lemma FourGone(live: Live, tcb: nat, usr: nat, sys: nat, sem: nat)
    requires tcb !in live && usr !in live && sys !in live && sem !in live
    ensures (live + FourBlocks(tcb, usr, sys, sem)) - {tcb, usr, sys, sem} == live
    ensures {tcb, usr, sys, sem} <= (live + FourBlocks(tcb, usr, sys, sem)).Keys
  {
  }

  /** An allocation of at least one block, as the block it starts at; -1 on failure. */
  method TryAlloc(m: MemoryAllocator, n: nat) returns (start: int)
    requires m.Valid() && 1 <= n < TWO_TO_THE_32
    modifies m.Memory()
    ensures m.Valid()
    ensures start == -1 <==> !exists b: nat :: FitsAt(old(m.Live()), m.total, b, n)
    ensures start == -1 ==> m.Live() == old(m.Live())
    ensures start != -1 ==> 0 <= start && start + n <= m.total
    ensures start != -1 ==> start !in old(m.Live()) && m.Live() == old(m.Live())[start := n]
  {
    var address, _ := m.Alloc(n);
    if address == 0 { return -1; }
    start := (address - m.base) / MEM_BLOCK_SIZE;
  }

  /** `thread_create` and `create_tcb`: user stack, control block, kernel stack, join semaphore.
      Without memory for the control block, the user stack stays allocated and nobody has it. */
  method CreateThreadMemory(m: MemoryAllocator)
    returns (t: Creation, ghost tcb: nat, ghost usr: nat, ghost sys: nat, ghost sem: nat)
    requires m.Valid()
    modifies m.Memory()
    ensures m.Valid()
    ensures t.NoUserStack? <==> !exists b: nat :: FitsAt(old(m.Live()), m.total, b, ToBlocks(DEFAULT_STACK_SIZE))
    ensures t.NoUserStack? ==> m.Live() == old(m.Live())
    ensures !t.NoUserStack? ==> usr !in old(m.Live()) && usr + ToBlocks(DEFAULT_STACK_SIZE) <= m.total
    ensures var live := old(m.Live())[usr := ToBlocks(DEFAULT_STACK_SIZE)];
      && (t.NoControlBlock? ==> m.Live() == live)
      && (!t.NoUserStack? ==> (t.NoControlBlock? <==> !exists b: nat :: FitsAt(live, m.total, b, ToBlocks(SIZEOF_TCB))))
    ensures t.Created? ==>
      && Owns(m, t.memory, tcb, usr, sys, sem)
      && m.Live() == old(m.Live()) + FourBlocks(tcb, usr, sys, sem)
      && tcb !in old(m.Live()) && usr !in old(m.Live()) && sys !in old(m.Live()) && sem !in old(m.Live())
  {
    tcb, usr, sys, sem := 0, 0, 0, 0;
    var u := TryAlloc(m, ToBlocks(DEFAULT_STACK_SIZE));
    if u == -1 { return NoUserStack, tcb, usr, sys, sem; }
    usr := u;
    var c := TryAlloc(m, ToBlocks(SIZEOF_TCB));
    if c == -1 { return NoControlBlock, tcb, usr, sys, sem; }
    var s := TryAlloc(m, ToBlocks(DEFAULT_STACK_SIZE));
    if s == -1 { return NoKernelStack, tcb, usr, sys, sem; }
    var j := TryAlloc(m, ToBlocks(SIZEOF_SEM));
    if j == -1 { return NoSemaphore, tcb, usr, sys, sem; }
    tcb, usr, sys, sem := c, u, s, j;
    FourStores(old(m.Live()), tcb, usr, sys, sem);
    t := Created(ThreadMemory(m.Addr(c), m.Addr(u) + DEFAULT_STACK_SIZE, m.Addr(s), m.Addr(j)));
  }

  /** `free_tcb`: releases exactly the thread's four allocations, whatever else is live. */
  method FreeTcb(m: MemoryAllocator, t: ThreadMemory, ghost tcb: nat, ghost usr: nat, ghost sys: nat, ghost sem: nat)
    requires m.Valid() && Owns(m, t, tcb, usr, sys, sem)
    requires {tcb, usr, sys, sem} <= m.Live().Keys
    modifies m.Memory()
    ensures m.Valid()
    ensures m.Live() == old(m.Live()) - {tcb, usr, sys, sem}
  {
    ghost var live0 := m.Live();
    FreeStart(m, t.usrStack - DEFAULT_STACK_SIZE, usr);
    FreeStart(m, t.sysStack, sys);
    FreeStart(m, t.joinSem, sem);
    FreeStart(m, t.tcb, tcb);
    OneByOne(live0, tcb, usr, sys, sem);
  }

  lemma OneByOne(live: Live, tcb: nat, usr: nat, sys: nat, sem: nat)
    ensures live - {usr} - {sys} - {sem} - {tcb} == live - {tcb, usr, sys, sem}
  {
  }

  method FreeStart(m: MemoryAllocator, address: nat, ghost start: nat)
    requires m.Valid() && start in m.Live() && address == m.Addr(start)
    modifies m.Memory()
    ensures m.Valid() && m.Live() == old(m.Live()) - {start}
  {
    var code := m.Free(address);
  }

  /** Any requests are served that free none of a thread's four allocations, and the thread exits:
      that releases exactly those four of what is live by then, and the list follows. */
  method RunThenExit(m: MemoryAllocator, t: ThreadMemory, ghost tcb: nat, ghost usr: nat, ghost sys: nat,
                     ghost sem: nat, requests: seq<Request>)
    returns (ghost before: Live)
    requires m.Valid() && Owns(m, t, tcb, usr, sys, sem)
    requires FourBlocks(tcb, usr, sys, sem).Items <= m.Live().Items
    requires forall r :: r in requests && r.AllocRequest? ==> r.n < TWO_TO_THE_32
    requires forall r :: r in requests && r.FreeRequest? ==> InArea(m.base, m.total, r.address)
    requires forall a :: a in {tcb, usr, sys, sem} ==> !Freed(m.base, requests, a)
    modifies m.Memory()
    ensures m.Valid()
    ensures FourBlocks(tcb, usr, sys, sem).Items <= before.Items
    ensures Kept(m.base, requests, old(m.Live()), before)
    ensures m.Live() == before - {tcb, usr, sys, sem}
    ensures forall r :: r in m.runs <==> MaximalFree(r, before - {tcb, usr, sys, sem}, m.total)
  {
    ghost var live := m.Live();
    Execute(m, requests);
    before := m.Live();
    StillOwned(m.base, requests, live, before, FourBlocks(tcb, usr, sys, sem));
    FreeTcb(m, t, tcb, usr, sys, sem);
    forall r
      ensures r in m.runs <==> MaximalFree(r, m.Live(), m.total)
    {
      ListIsMaximalRuns(m.runs, m.Live(), m.total, r);
    }
  }

  lemma StillOwned(base: nat, requests: seq<Request>, live: Live, live': Live, owned: Live)
    requires Kept(base, requests, live, live') && owned.Items <= live.Items
    requires forall a :: a in owned ==> !Freed(base, requests, a)
    ensures owned.Items <= live'.Items && owned.Keys <= live'.Keys
  {
    forall a | a in owned
      ensures a in live' && live'[a] == owned[a]
    {
      assert (a, owned[a]) in owned.Items;
    }
  }

  /** With nothing in between, a thread's exit gives back exactly what its creation took: list
      and table are restored. A creation without memory for the control block loses the stack. */
  method CreateThenExit(m: MemoryAllocator) returns (result: Creation, ghost lost: nat)
    requires m.Valid()
    modifies m.Memory()
    ensures m.Valid()
    ensures result.Created? || result.NoUserStack? ==>
      m.runs == old(m.runs) && m.allocTable[..] == old(m.allocTable[..])
    ensures result.NoControlBlock? ==>
      lost !in old(m.Live()) && m.Live() == old(m.Live())[lost := ToBlocks(DEFAULT_STACK_SIZE)]
  {
    ghost var runs0, live0, table0 := m.runs, m.Live(), m.allocTable[..];
    ghost var tcb, usr, sys, sem;
    result, tcb, usr, sys, sem := CreateThreadMemory(m);
    lost := usr;
    if result.Created? {
      FourGone(live0, tcb, usr, sys, sem);
      FreeTcb(m, result.memory, tcb, usr, sys, sem);
    }
    if result.Created? || result.NoUserStack? {
      FreeListDetermined(m.runs, runs0, live0, m.total);
      TableDetermined(m.allocTable[..], table0);
    }
  }

  /** A heap of one stack's size: the first creation takes it all, fails, and keeps it. */
  method StackLost(m: MemoryAllocator) returns (result: Creation)
    requires m.Valid() && m.Live() == map[] && m.total == ToBlocks(DEFAULT_STACK_SIZE)
    modifies m.Memory()
    ensures m.Valid() && result == NoControlBlock && m.Live() == map[0 := m.total]
  {
    ghost var tcb, usr, sys, sem;
    assert FitsAt(m.Live(), m.total, 0, ToBlocks(DEFAULT_STACK_SIZE));
    result, tcb, usr, sys, sem := CreateThreadMemory(m);
    NothingFits(m.total);
  }

  lemma NothingFits(total: nat)
    ensures !exists b: nat :: FitsAt(map[0 := total], total, b, ToBlocks(SIZEOF_TCB))
  {
    forall b: nat
      ensures !FitsAt(map[0 := total], total, b, ToBlocks(SIZEOF_TCB))
    {
      assert 0 in map[0 := total];
      if b < total { assert InLive(map[0 := total], b); }
    }
  }
}
