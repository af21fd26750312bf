/** The kernel over the heap: control blocks chained by their own links, semaphores, the two
    queues and the two rings, updated in place by the trap handlers.

    `Abs` reads the state of the transition system off the heap; every handler is proved to
    perform exactly one step of it. */
module Kernel {
  import opened Threads
  import opened SleepSpec
  import opened SemSpec
  import opened Scheduling
  import opened KernelSpec
  import opened KernelPlaces
  import opened KernelSteps
  import opened KernelRuns
  import opened KernelTheorems
  import RingQueue
  import opened Utils

  lemma StartWaitForm(k: KState, s: Sem, cont: Continuation, threads: ThreadMap, sems: map<Sem, SemState<TCB>>)
    requires k.current in k.threads && s in k.sems
    requires sems == k.sems[s := Wait(k.sems[s], k.current)]
    requires threads == if Blocks(k.sems[s]) then k.threads[k.current := k.threads[k.current]
                          .(cont := cont, status := SUSPENDED, place := WaitingOn(s))] else k.threads
    ensures k.(ready := k.ready, threads := threads, sems := sems) == KernelSpec.StartWait(k, s, cont)
  {
  }

  /** What the state records of a control block. */
  ghost function View(t: TCB): Thread
    reads t`status, t`interrupted, t`cont, t`a0, t`joinSem, t`place
  {
    Thread(t.status, t.interrupted, t.cont, t.a0, t.joinSem, t.place)
  }

  /** What it records of a semaphore. */
  ghost function SemView(s: Sem): SemState<TCB>
    reads s`value, s.suspended`elems
  {
    SemState(s.value, s.suspended.elems)
  }

  ghost predicate EmptyRing(ring: RingQueue.RingQueue<char>)
    reads ring, ring.buffer
  {
    ring.Valid() && ring.Contents() == [] && ring.buffer.Length == IO_BUFFER_SIZE && ring.default == '\0'
  }

  lemma InsertedIn(q: seq<TCB>, k: nat, t: TCB, all: set<TCB>)
    requires k <= |q| && t in all && forall x :: x in q ==> x in all
    ensures forall x :: x in q[..k] + [t] + q[k..] ==> x in all
  {
  }

  /** As many rounds of the flush loop as the device and the ring allow. */
  function Flushed(k: KState, ready: nat): KState
    decreases ready
  {
    if ready == 0 || k.putcBuf == [] || k.putcSem !in k.sems then k else Flushed(FlushOne(k), ready - 1)
  }

  lemma FlushedOnce(k: KState, left: nat)
    requires Inv(k) && k.current == k.flushTcb && k.putcBuf != [] && left > 0
    ensures Flushed(k, left) == Flushed(Step(k, Flush), left - 1)
  {
    assert k.putcSem in k.sems;
    StepIsFlush(k);
  }

  lemma StepIsFlush(k: KState)
    requires Inv(k) && k.current == k.flushTcb && k.putcBuf != []
    ensures k.putcSem in k.sems && Step(k, Flush) == FlushOne(k)
  {
  }

  function Raised(k: KState, s: Sem): KState
    requires s in k.sems
  {
    k.(sems := k.sems[s := SemState(k.sems[s].value + 1, k.sems[s].waiters)])
  }

  /** `unblock`: the first waiter, if any, becomes ready. */
  function UnblockSem(k: KState, s: Sem, interrupted: bool): KState
    requires s in k.sems
  {
    MakeReady(k, Front(k.sems[s].waiters), true, interrupted)
      .(sems := k.sems[s := SemState(k.sems[s].value, Rest(k.sems[s].waiters))])
  }

  /** `signal` is counting up, and unblocking when threads wait. */
  lemma SignalParts(k: KState, s: Sem)
    requires s in k.sems
    ensures s in Raised(k, s).sems
    ensures SignalSem(k, s)
         == if k.sems[s].value + 1 <= 0 then UnblockSem(Raised(k, s), s, false) else Raised(k, s)
  {
    var k1 := Raised(k, s);
    if k.sems[s].value + 1 <= 0 {
      assert Front(k.sems[s].waiters) == Released(k.sems[s]);
      assert MakeReady(k1, Front(k1.sems[s].waiters), true, false).threads
          == MakeReady(k, Released(k.sems[s]), true, false).threads;
    } else {
      assert MakeReady(k, [], true, false).threads == k.threads && k.ready + [] == k.ready;
    }
  }

  lemma CloseForm(k: KState, s: Sem, threads: ThreadMap, sems: map<Sem, SemState<TCB>>)
    requires s in k.sems && sems == k.sems[s := SemState(k.sems[s].value, [])]
    requires threads == MakeReady(k, k.sems[s].waiters, true, true).threads
    ensures k.(ready := k.ready + k.sems[s].waiters, threads := threads, sems := sems) == CloseSem(k, s)
  {
  }

  /** Threads `ts` came out of a wait with the given flag. */
  ghost predicate ReadyIn(before: ThreadMap, after: ThreadMap, ts: seq<TCB>, interrupted: bool) {
    && after.Keys == before.Keys
    && forall u :: u in before ==> after[u] == if u in ts then Awaken(before[u], true, interrupted) else before[u]
  }

  lemma ReadyTrans(m0: ThreadMap, m1: ThreadMap, m2: ThreadMap, ts: seq<TCB>, us: seq<TCB>, interrupted: bool)
    requires ReadyIn(m0, m1, ts, interrupted) && ReadyIn(m1, m2, us, interrupted)
    ensures ReadyIn(m0, m2, ts + us, interrupted)
  {
  }

  /** `ts` have gone from the front of a queue that held `all` to the ready queue. */
  ghost predicate Drained(all: seq<TCB>, ready0: seq<TCB>, ts: seq<TCB>, waiters: seq<TCB>, ready: seq<TCB>) {
    all == ts + waiters && ready == ready0 + ts
  }

  lemma DrainedTrans(all: seq<TCB>, ready0: seq<TCB>, ts: seq<TCB>, waiters: seq<TCB>)
    requires Drained(all, ready0, ts, waiters, ready0 + ts)
    ensures Drained(all, ready0, ts + Front(waiters), Rest(waiters), ready0 + ts + Front(waiters))
  {
    assert waiters == Front(waiters) + Rest(waiters);
  }

  function WithSem(k: KState, s: Sem, init: nat, user: bool): KState {
    k.(sems := k.sems[s := SemState(init, [])], userSems := if user then k.userSems + {s} else k.userSems)
  }

  lemma AddThreadForm(k: KState, t: TCB, s: Sem)
    ensures var k1 := WithSem(k, s, 0, false);
      k1.(ready := k1.ready + [t], threads := k1.threads[t := Thread(READY, false, Fresh, 0, s, InReady)])
        == AddThread(k, t, s)
  {
  }

  /** What `dispatch` does with the thread that calls it. */
  function PutAway(k: KState): KState
    requires k.current in k.threads
  {
    match k.threads[k.current].status
    case RUNNING => KernelSpec.GiveUp(k)
    case TERMINATING => KernelSpec.Bury(k)
    case _ => k
  }

  lemma PutAwayByStatus(k: KState, status: TCBStatus)
    requires k.current in k.threads && k.threads[k.current].status == status
    ensures PutAway(k) == match status
                          case RUNNING => KernelSpec.GiveUp(k)
                          case TERMINATING => KernelSpec.Bury(k)
                          case _ => k
  {
  }

  lemma PreemptReady(k: KState)
    requires Inv(k)
    ensures k.current in k.threads && Core(PutAway(k), null) && DispatchReady(k) == Next(PutAway(k))
  {
    RunningNow(k);
    GiveUpCore(k);
    PutAwayRunning(k);
  }

  lemma PutAwayRunning(k: KState)
    requires k.current in k.threads && k.threads[k.current].status == RUNNING
    ensures PutAway(k) == KernelSpec.GiveUp(k)
  {
  }

  /** The current thread has asked to end. */
  function Ended(k: KState): KState
    requires k.current in k.threads
  {
    WithThread(k, k.current, k.threads[k.current].(status := TERMINATING, a0 := SUCCESS_SYSCALL))
  }

  lemma BuryEnded(k: KState)
    requires k.current in k.threads
    ensures KernelSpec.Bury(Ended(k)) == KernelSpec.Bury(KernelSpec.SetA0(k, SUCCESS_SYSCALL))
  {
  }

  lemma ExitFacts(k: KState)
    requires Inv(k) && k.current != k.mainTcb && k.current != k.flushTcb
    ensures k.current in k.threads
    ensures var s := k.threads[k.current].joinSem; s != null && IsInternal(k, s)
    ensures PutAway(Ended(k)) == KernelSpec.Bury(KernelSpec.SetA0(k, SUCCESS_SYSCALL))
    ensures Core(PutAway(Ended(k)), null) && Exit(k) == Next(PutAway(Ended(k)))
  {
    SetA0Core(k, SUCCESS_SYSCALL);
    BuryCore(KernelSpec.SetA0(k, SUCCESS_SYSCALL));
    BuryEnded(k);
    assert IsInternal(k, k.threads[k.current].joinSem);
  }

  lemma SleepThenA0(k: KState, n: nat, v: int)
    requires k.current in k.threads
    ensures KernelSpec.SetA0(KernelSpec.FallAsleep(k, n), v) == KernelSpec.FallAsleep(KernelSpec.SetA0(k, v), n)
  {
  }

  lemma CloseIs(k: KState, s: Sem?)
    requires Inv(k) && Enabled(k, SemClose(s))
    ensures k.current in k.threads
    ensures Call(k, SemClose(s)) == if s == null then k else CloseCall(k, s)
  {
    CurrentLives(k);
  }

  lemma WaitIs(k: KState, s: Sem?)
    requires Inv(k) && Enabled(k, SemWait(s))
    ensures k.current in k.threads
    ensures s != null ==> k.current != k.flushTcb && WaitKind(k, s, AfterSemWait)
    ensures Call(k, SemWait(s)) == if s == null then k else WaitCall(k, s, AfterSemWait)
  {
    CurrentLives(k);
  }

  lemma SignalIs(k: KState, s: Sem?)
    requires Inv(k) && Enabled(k, SemSignal(s))
    ensures k.current in k.threads
    ensures Call(k, SemSignal(s)) == if s == null then k else SignalCall(k, s)
  {
    CurrentLives(k);
  }

  lemma PutcCall(k: KState, c: char)
    requires Inv(k) && k.current != k.flushTcb
    ensures Inv(NoteCall(k, c)) && WaitKind(NoteCall(k, c), k.putcSem, ThenPutc(c))
    ensures Putc(k, c) == WaitCall(NoteCall(k, c), k.putcSem, ThenPutc(c))
  {
    NoteCallCore(k, c);
    PutcKind(NoteCall(k, c), c);
  }

  lemma PutcKind(k: KState, c: char)
    requires Roles(k)
    ensures WaitKind(k, k.putcSem, ThenPutc(c))
  {
  }

  lemma RunningNow(k: KState)
    requires Inv(k)
    ensures k.current in k.threads && k.threads[k.current].status == RUNNING
  {
    CurrentLives(k);
  }

  function Front(q: seq<TCB>): seq<TCB> {
    if q == [] then [] else [q[0]]
  }

  function Rest(q: seq<TCB>): seq<TCB> {
    if q == [] then [] else q[1..]
  }

  function WaitView(th: Thread, s: Sem, cont: Continuation, blocked: bool): Thread {
    if blocked then th.(cont := cont, status := SUSPENDED, place := WaitingOn(s)) else th
  }

  ghost predicate EmptySem(s: Sem, value: int)
    reads s, s.suspended, s.suspended.elems
  {
    s.value == value && s.suspended.Valid() && s.suspended.elems == []
  }

  /** The main thread before there is any other. */
  const RunningMain := Thread(RUNNING, false, AfterDispatch, 0, null, Current)

  function BeforeFlush(mainTcb: TCB, flushTcb: TCB, putcSem: Sem, getcSem: Sem): KState {
    KState(mainTcb, [], [], 0, 0, map[mainTcb := RunningMain],
           map[putcSem := SemState(IO_BUFFER_SIZE, []), getcSem := SemState(0, [])],
           {}, [], [], Log([], [], [], [], []), mainTcb, flushTcb, putcSem, getcSem)
  }

  /** The last thing `main` does is the system call that creates the flush thread. */
  lemma FlushCreated(mainTcb: TCB, flushTcb: TCB, putcSem: Sem, getcSem: Sem, join: Sem)
    requires mainTcb != flushTcb && join != putcSem && join != getcSem
    ensures Created(BeforeFlush(mainTcb, flushTcb, putcSem, getcSem), flushTcb, join)
         == Booted(mainTcb, flushTcb, putcSem, getcSem, join)
  {
  }

  /** `thread_create` up to its return. */
  function Created(k: KState, t: TCB, s: Sem): KState
    requires k.current in k.threads
  {
    KernelSpec.SetA0(AddThread(KernelSpec.SetA0(k, FAILED_SYSCALL), t, s), SUCCESS_SYSCALL)
  }

  /** `sem_open` up to its return. */
  function Opened(k: KState, s: Sem, init: nat): KState
    requires k.current in k.threads
  {
    KernelSpec.SetA0(KernelSteps.AddSem(KernelSpec.SetA0(k, FAILED_SYSCALL), s, init), SUCCESS_SYSCALL)
  }

  /** What `main` starts from: the main thread, memory for the flush thread and its semaphore, the
      console's semaphores, the two queues and the two rings. */
  datatype Parts = Parts(main: TCB, flush: TCB, join: Sem, putcSem: Sem, getcSem: Sem,
                         ready: Scheduler, sleepers: TCBSleepQueue,
                         putcRing: RingQueue.RingQueue<char>, getcRing: RingQueue.RingQueue<char>)
  {
    ghost function Objects(): set<object> {
      {main, flush, join, join.suspended, putcSem, putcSem.suspended, getcSem, getcSem.suspended,
       ready.queue, sleepers, sleepers.queue, putcRing, putcRing.buffer, getcRing, getcRing.buffer}
    }

    ghost function Sems(): set<Sem> {
      {putcSem, getcSem, join}
    }

    /** As the initialisers of static objects leave them: lists and rings are empty. */
    ghost predicate Initial()
      reads main, ready.queue, ready.queue.elems, sleepers, sleepers.queue, sleepers.queue.elems
      reads putcRing, putcRing.buffer, getcRing, getcRing.buffer
    {
      && main != flush && View(main) == RunningMain
      && putcSem != getcSem && putcSem != join && getcSem != join
      && ready.queue.Valid() && ready.queue.elems == []
      && sleepers.Valid() && sleepers.queue.elems == [] && sleepers.now == 0
      && putcRing != getcRing && putcRing.buffer != getcRing.buffer && EmptyRing(putcRing) && EmptyRing(getcRing)
      && ready.queue != sleepers.queue && OwnLists(ready.queue, sleepers.queue, Sems())
    }

    ghost function Boot(): KState {
      Booted(main, flush, putcSem, getcSem, join)
    }
  }

  /** Every semaphore has its list within itself. */
  ghost predicate OwnLists(ready: TCBList, sleepers: TCBList, sems: set<Sem>) {
    && (forall s :: s in sems ==> s.suspended != ready && s.suspended != sleepers)
    && (forall s, s' :: s in sems && s' in sems && s != s' ==> s.suspended != s'.suspended)
  }

  class Kernel {
    const mainTcb: TCB
    const flushTcb: TCB
    const putcSem: Sem
    const getcSem: Sem
    const scheduler: Scheduler
    const sleepQueue: TCBSleepQueue
    const putcBuffer: RingQueue.RingQueue<char>
    const getcBuffer: RingQueue.RingQueue<char>
    var current: TCB
    /** The thread whose context `k_current_context` points to. */
    var context: TCB
    var timerTicks: nat
    ghost var tcbs: set<TCB>
    ghost var sems: set<Sem>
    ghost var userSems: set<Sem>
    ghost var log: Log
    /** Which semaphore each queue belongs to. */
    ghost var semOf: map<TCBList, Sem>

    /** `main` up to the point where it enables interrupts. */
    constructor (parts: Parts)
      requires parts.Initial()
      modifies parts.Objects()
      ensures Valid() && Abs() == parts.Boot()
      ensures Owned() - {this} <= parts.Objects() && sems == parts.Sems()
      ensures scheduler == parts.ready && sleepQueue == parts.sleepers
    {
      mainTcb, flushTcb, putcSem, getcSem := parts.main, parts.flush, parts.putcSem, parts.getcSem;
      current, context := parts.main, parts.main;
      timerTicks := 0;
      scheduler, sleepQueue := parts.ready, parts.sleepers;
      putcBuffer, getcBuffer := parts.putcRing, parts.getcRing;
      tcbs, sems, userSems := {parts.main}, {parts.putcSem, parts.getcSem}, {};
      log := Log([], [], [], [], []);
      semOf := map[parts.putcSem.suspended := parts.putcSem, parts.getcSem.suspended := parts.getcSem];
      new;
      OwnsParts();
      StartUp(parts.join);
      OwnedAfter(parts);
    }

    lemma OwnedAfter(parts: Parts)
      requires mainTcb == parts.main && putcSem == parts.putcSem && getcSem == parts.getcSem
      requires scheduler == parts.ready && sleepQueue == parts.sleepers
      requires putcBuffer == parts.putcRing && getcBuffer == parts.getcRing
      requires tcbs == {parts.main} + {parts.flush} && sems == {parts.putcSem, parts.getcSem} + {parts.join}
      ensures Owned() - {this} <= parts.Objects() && sems == parts.Sems()
    {
    }

    /** Everything static is in place but the two semaphores of the console. */
    ghost predicate Static()
      reads this, Owned()
    {
      && current == context == mainTcb && timerTicks == 0 && sleepQueue.now == 0
      && tcbs == {mainTcb} && sems == {putcSem, getcSem} && putcSem != getcSem
      && scheduler.queue.elems == [] && scheduler.queue.Valid()
      && sleepQueue.queue.elems == [] && sleepQueue.Valid()
      && View(mainTcb) == RunningMain && userSems == {} && log == Log([], [], [], [], [])
      && EmptyRing(putcBuffer) && EmptyRing(getcBuffer) && RingsValid()
      && scheduler.queue != sleepQueue.queue && scheduler.queue !in semOf && sleepQueue.queue !in semOf
      && forall s :: s in sems ==> s.suspended in semOf && semOf[s.suspended] == s
    }

    method StartUp(join: Sem)
      requires Static() && flushTcb != mainTcb && Unused(join)
      modifies Owned(), flushTcb, join, join.suspended
      ensures Valid() && Abs() == Booted(mainTcb, flushTcb, putcSem, getcSem, join)
      ensures tcbs == {mainTcb} + {flushTcb} && sems == {putcSem, getcSem} + {join}
    {
      InitializeSems();
      CreateFlush(join);
    }

    /** The static objects. */
    ghost function StaticParts(): set<object>
      reads this
    {
      {this, sleepQueue, scheduler.queue, sleepQueue.queue,
       putcBuffer, putcBuffer.buffer, getcBuffer, getcBuffer.buffer,
       mainTcb, putcSem, getcSem, putcSem.suspended, getcSem.suspended}
    }

    lemma OwnsParts()
      requires Static()
      ensures Owned() == StaticParts()
    {
    }

    method InitializeSems()
      requires Static()
      modifies putcSem, putcSem.suspended, getcSem, getcSem.suspended
      ensures Shape() && Agrees(null)
      ensures Abs() == BeforeFlush(mainTcb, flushTcb, putcSem, getcSem)
      ensures tcbs == {mainTcb} && sems == {putcSem, getcSem} && context == current == mainTcb
    {
      assert putcSem.suspended != getcSem.suspended;
      putcSem.Initialize(IO_BUFFER_SIZE);
      getcSem.Initialize(0);
      OnlyMain();
    }

    method CreateFlush(join: Sem)
      requires Shape() && Agrees(null) && context == current && current in tcbs && flushTcb !in tcbs && Unused(join)
      requires Abs() == BeforeFlush(mainTcb, flushTcb, putcSem, getcSem) && putcSem != getcSem
      modifies Owned(), flushTcb, join, join.suspended
      ensures Valid() && Abs() == Booted(mainTcb, flushTcb, putcSem, getcSem, join)
      ensures tcbs == old(tcbs) + {flushTcb} && sems == old(sems) + {join}
    {
      FlushCreated(mainTcb, flushTcb, putcSem, getcSem, join);
      BootedInv(mainTcb, flushTcb, putcSem, getcSem, join);
      CreateCall(flushTcb, join);
    }

    lemma OnlyMain()
      requires Static() && EmptySem(putcSem, IO_BUFFER_SIZE) && EmptySem(getcSem, 0)
      ensures Shape() && Agrees(null)
      ensures Abs() == BeforeFlush(mainTcb, flushTcb, putcSem, getcSem)
    {
      OnlyMainShape();
      assert ThreadMapOf() == BeforeFlush(mainTcb, flushTcb, putcSem, getcSem).threads;
      assert SemMapOf() == BeforeFlush(mainTcb, flushTcb, putcSem, getcSem).sems;
    }

    lemma OnlyMainShape()
      requires Static() && EmptySem(putcSem, IO_BUFFER_SIZE) && EmptySem(getcSem, 0)
      ensures Shape() && Agrees(null)
    {
    }

    ghost function Owned(): set<object>
      reads this
    {
      {this, sleepQueue, scheduler.queue, sleepQueue.queue,
       putcBuffer, putcBuffer.buffer, getcBuffer, getcBuffer.buffer}
      + tcbs + sems + (set s | s in sems :: s.suspended)
    }

    ghost function Lists(): set<TCBList>
      reads this
    {
      {scheduler.queue, sleepQueue.queue} + set s | s in sems :: s.suspended
    }

    /** The list objects are different objects and hold only live threads. */
    ghost predicate Apart()
      reads this, Owned()
    {
      && scheduler.queue != sleepQueue.queue && scheduler.queue !in semOf && sleepQueue.queue !in semOf
      && (forall s :: s in sems ==> s.suspended in semOf && semOf[s.suspended] == s)
      && (forall l :: l in Lists() ==> forall t :: t in l.elems ==> t in tcbs)
      && putcSem in sems && getcSem in sems
    }

    ghost predicate RingsValid()
      reads putcBuffer, putcBuffer.buffer, getcBuffer, getcBuffer.buffer
    {
      && putcBuffer.Valid() && putcBuffer.buffer.Length == IO_BUFFER_SIZE && putcBuffer.default == '\0'
      && getcBuffer.Valid() && getcBuffer.buffer.Length == IO_BUFFER_SIZE && getcBuffer.default == '\0'
      && putcBuffer != getcBuffer && putcBuffer.buffer != getcBuffer.buffer
    }

    ghost predicate Shape()
      reads this, Owned()
    {
      && Apart() && RingsValid() && TicksOk(Deltas(sleepQueue.queue.elems))
      && (forall l :: l in Lists() ==> l.Valid())
    }

    ghost function ThreadMapOf(): map<TCB, Thread>
      reads this`tcbs, tcbs`status, tcbs`interrupted, tcbs`cont, tcbs`a0, tcbs`joinSem, tcbs`place
    {
      map t | t in tcbs :: View(t)
    }

    ghost function SemMapOf(): map<Sem, SemState<TCB>>
      reads this`sems, sems`value, (set s | s in sems :: s.suspended)`elems
    {
      map s | s in sems :: SemView(s)
    }

    /** The state of the transition system that the heap represents. */
    ghost function Abs(): KState
      requires Shape()
      reads this, Owned()
    {
      KState(current, scheduler.queue.elems, sleepQueue.Sleepers(), sleepQueue.now, timerTicks,
             ThreadMapOf(), SemMapOf(), userSems, putcBuffer.Contents(), getcBuffer.Contents(), log,
             mainTcb, flushTcb, putcSem, getcSem)
    }

    /** At a trap boundary. */
    ghost predicate Valid()
      reads this, Owned()
    {
      Shape() && Inv(Abs()) && context == current
    }

    /** Places as the lists have them. */
    ghost predicate Agrees(c: TCB?)
      requires Apart()
      reads this, Owned()
    {
      && (c != null ==> c in tcbs && c.place == Current)
      && (forall l :: l in Lists() ==> forall t :: t in l.elems ==> t.place == PlaceOf(l))
    }

    ghost function PlaceOf(l: TCBList): Place
      requires Apart() && l in Lists()
      reads this, Owned()
    {
      if l == scheduler.queue then InReady
      else if l == sleepQueue.queue then Asleep
      else WaitingOn(semOf[l])
    }

    lemma AgreesWhenPlaced(c: TCB?)
      requires Shape() && Placed(Abs(), c)
      ensures Agrees(c)
    {
      var k := Abs();
      if c != null { assert c in [c]; }
      forall l, t | l in Lists() && t in l.elems
        ensures t.place == PlaceOf(l)
      {
        assert t in tcbs && k.threads[t] == View(t);
        if l == sleepQueue.queue {
          var i :| 0 <= i < |l.elems| && l.elems[i] == t;
          AbsoluteSorted(l.elems, Deltas(l.elems), sleepQueue.now);
          assert Names(k.sleepers)[i] == t;
        } else if l != scheduler.queue {
          assert Listed(k.threads, k.sems[semOf[l]].waiters, WaitingOn(semOf[l]));
        }
      }
    }

    twostate lemma SleepersUnchanged()
      requires old(sleepQueue.Valid()) && unchanged(sleepQueue) && unchanged(sleepQueue.queue)
      requires forall t :: t in old(sleepQueue.queue.elems) ==>
        t.sleepFor == old(t.sleepFor) && t.next == old(t.next) && t.prev == old(t.prev)
      ensures sleepQueue.Valid() && sleepQueue.Sleepers() == old(sleepQueue.Sleepers())
    {
      assert Deltas(sleepQueue.queue.elems) == old(Deltas(sleepQueue.queue.elems));
      sleepQueue.queue.Undisturbed();
    }

    /** Nothing but fields of control blocks that no list depends on has changed. */
    twostate lemma ShapeKept()
      requires old(Shape()) && tcbs == old(tcbs) && sems == old(sems) && semOf == old(semOf)
      requires unchanged(sleepQueue) && unchanged(sleepQueue.queue) && unchanged(scheduler.queue)
      requires forall s :: s in sems ==> unchanged(s.suspended)
      requires forall t :: t in old(tcbs) ==>
        t.sleepFor == old(t.sleepFor) && t.next == old(t.next) && t.prev == old(t.prev)
      requires RingsValid()
      ensures Shape() && sleepQueue.Sleepers() == old(sleepQueue.Sleepers())
    {
      SleepersUnchanged();
      scheduler.queue.Undisturbed();
      forall s | s in sems
        ensures s.suspended.Valid()
      {
        s.suspended.Undisturbed();
      }
    }

    /** Links changed only for threads that were running, ready, or waiting on `e`. */
    twostate predicate LinksKept(e: Sem?)
      reads this, tcbs
    {
      && tcbs == old(tcbs)
      && forall t :: t in tcbs ==>
           && t.sleepFor == old(t.sleepFor)
           && (old(t.place) == Asleep || (old(t.place).WaitingOn? && old(t.place).sem != e) ==>
                 t.next == old(t.next) && t.prev == old(t.prev))
    }

    /** Everything that handlers short of a timer tick leave alone: the sleepers, and every
        semaphore's queue but perhaps that of `e`. */
    twostate lemma Reshaped(e: Sem?)
      requires old(Shape()) && old(Agrees(null)) && LinksKept(e) && sems == old(sems) && semOf == old(semOf)
      requires scheduler.queue.Valid() && forall t :: t in scheduler.queue.elems ==> t in tcbs
      requires unchanged(sleepQueue) && unchanged(sleepQueue.queue) && RingsValid()
      requires forall s :: s in sems && s != e ==> unchanged(s.suspended)
      requires e != null ==> e in sems && e.suspended.Valid() && forall t :: t in e.suspended.elems ==> t in tcbs
      ensures Shape() && sleepQueue.Sleepers() == old(sleepQueue.Sleepers())
    {
      SleepersUnchanged();
      forall s | s in sems
        ensures s.suspended.Valid()
      {
        if s != e { s.suspended.Undisturbed(); }
      }
    }

    /** No control block but `t` changed in what the state records of it. */
    twostate predicate OthersKept(t: TCB?)
      requires tcbs == old(tcbs)
      reads this, tcbs
    {
      forall u :: u in tcbs && u != t ==> View(u) == old(View(u))
    }

    /** One control block changed. */
    twostate lemma ThreadUpdated(t: TCB)
      requires tcbs == old(tcbs) && t in tcbs
      requires OthersKept(t)
      ensures ThreadMapOf() == old(ThreadMapOf())[t := View(t)]
    {
    }

    /** One semaphore changed. */
    twostate lemma SemUpdated(s: Sem)
      requires sems == old(sems) && s in sems
      requires forall x :: x in sems && x != s ==> SemView(x) == old(SemView(x))
      ensures SemMapOf() == old(SemMapOf())[s := SemView(s)]
    {
    }

    /** Neither the clock, the sleepers nor the console changed. */
    twostate predicate Calm()
      requires old(Shape()) && Shape()
      reads this, Owned()
    {
      && timerTicks == old(timerTicks) && userSems == old(userSems) && log == old(log)
      && sleepQueue.Sleepers() == old(sleepQueue.Sleepers()) && sleepQueue.now == old(sleepQueue.now)
      && putcBuffer.Contents() == old(putcBuffer.Contents()) && getcBuffer.Contents() == old(getcBuffer.Contents())
    }

    /** Nor the processor. */
    twostate predicate OnlyThreads()
      requires old(Shape()) && Shape()
      reads this, Owned()
    {
      current == old(current) && Calm()
    }

    twostate lemma AbsChanged()
      requires old(Shape()) && Shape() && OnlyThreads()
      ensures Abs() == old(Abs()).(ready := scheduler.queue.elems, threads := ThreadMapOf(), sems := SemMapOf())
    {
    }

    // ---------- parts of handlers ----------

    /** Handlers write the result through `k_current_context`. */
    method SetA0(v: int)
      requires Shape() && current in tcbs && context == current
      modifies Owned()
      ensures Shape() && Abs() == KernelSpec.SetA0(old(Abs()), v)
      ensures context == old(context) && tcbs == old(tcbs) && sems == old(sems)
      ensures old(Agrees(null)) ==> Agrees(null)
    {
      WriteA0(v);
    }

    method WriteA0(v: int)
      requires Shape() && current in tcbs && context == current
      modifies context`a0
      ensures Shape() && Abs() == KernelSpec.SetA0(old(Abs()), v)
      ensures old(Agrees(null)) ==> Agrees(null)
    {
      context.a0 := v;
      ShapeKept();
      ThreadUpdated(current);
    }

    /** `put_tcb` of the running thread, and its saved context. */
    method GiveUp()
      requires Shape() && Agrees(current)
      modifies Owned()
      ensures Shape() && Abs() == KernelSpec.GiveUp(old(Abs()))
      ensures context == old(context) && tcbs == old(tcbs) && sems == old(sems)
    {
      PutBack();
    }

    method PutBack()
      requires Shape() && Agrees(current)
      modifies scheduler.queue, scheduler.queue.elems`next
      modifies current`next, current`prev, current`status, current`place, current`cont
      ensures Shape() && Abs() == KernelSpec.GiveUp(old(Abs()))
    {
      ChainReady();
      PutBackAbs();
    }

    twostate lemma PutBackAbs()
      requires old(Shape()) && Shape() && OnlyThreads() && sems == old(sems) && tcbs == old(tcbs) && current in tcbs
      requires OthersKept(current) && SemMapOf() == old(SemMapOf())
      requires scheduler.queue.elems == old(scheduler.queue.elems) + [current]
      requires View(current) == old(View(current)).(cont := AfterDispatch, status := READY, place := InReady)
      ensures Abs() == KernelSpec.GiveUp(old(Abs()))
    {
      ThreadUpdated(current);
      AbsChanged();
    }

    method ChainReady()
      requires Shape() && Agrees(current)
      modifies scheduler.queue, scheduler.queue.elems`next
      modifies current`next, current`prev, current`status, current`place, current`cont
      ensures Shape() && sleepQueue.Sleepers() == old(sleepQueue.Sleepers())
      ensures scheduler.queue.elems == old(scheduler.queue.elems) + [current]
      ensures View(current) == old(View(current)).(cont := AfterDispatch, status := READY, place := InReady)
    {
      PutCurrent();
      Reshaped(null);
    }

    method PutCurrent()
      requires Shape() && Agrees(current)
      modifies scheduler.queue, scheduler.queue.elems`next
      modifies current`next, current`prev, current`status, current`place, current`cont
      ensures scheduler.queue.Valid() && forall t :: t in scheduler.queue.elems ==> t in tcbs
      ensures scheduler.queue.elems == old(scheduler.queue.elems) + [current]
      ensures View(current) == old(View(current)).(cont := AfterDispatch, status := READY, place := InReady)
    {
      scheduler.PutTcb(current);
      current.cont := AfterDispatch;
    }

    /** `wait` up to its return or its context switch. */
    method StartWait(s: Sem, cont: Continuation) returns (blocked: bool)
      requires Shape() && Agrees(current) && s in sems
      modifies Owned()
      ensures Shape() && Abs() == KernelSpec.StartWait(old(Abs()), s, cont)
      ensures context == old(context) && tcbs == old(tcbs) && sems == old(sems)
      ensures blocked == Blocks(old(Abs()).sems[s])
    {
      blocked := WaitOn(s, cont);
    }

    method WaitOn(s: Sem, cont: Continuation) returns (blocked: bool)
      requires Shape() && Agrees(current) && s in sems
      modifies s`value, s.suspended, s.suspended.elems`next
      modifies current`next, current`prev, current`status, current`place, current`cont
      ensures Shape() && Abs() == KernelSpec.StartWait(old(Abs()), s, cont)
      ensures blocked == Blocks(old(Abs()).sems[s])
    {
      blocked := Wait(s, cont);
      WaitAbs(s, cont);
    }

    twostate lemma WaitAbs(s: Sem, new cont: Continuation)
      requires old(Shape()) && Shape() && OnlyThreads() && sems == old(sems) && tcbs == old(tcbs)
      requires s in sems && current in tcbs && scheduler.queue.elems == old(scheduler.queue.elems)
      requires OthersKept(current)
      requires forall x :: x in sems && x != s ==> SemView(x) == old(SemView(x))
      requires SemView(s) == SemSpec.Wait(old(SemView(s)), current)
      requires View(current) == WaitView(old(View(current)), s, cont, s.value < 0)
      ensures Abs() == KernelSpec.StartWait(old(Abs()), s, cont)
    {
      SemUpdated(s);
      ThreadUpdated(current);
      AbsChanged();
      StartWaitForm(old(Abs()), s, cont, ThreadMapOf(), SemMapOf());
    }

    method Wait(s: Sem, cont: Continuation) returns (blocked: bool)
      requires Shape() && Agrees(current) && s in sems
      modifies s`value, s.suspended, s.suspended.elems`next
      modifies current`next, current`prev, current`status, current`place, current`cont
      ensures Shape() && sleepQueue.Sleepers() == old(sleepQueue.Sleepers())
      ensures SemView(s) == SemSpec.Wait(old(SemView(s)), current) && blocked == (s.value < 0)
      ensures View(current) == WaitView(old(View(current)), s, cont, blocked)
    {
      s.value := s.value - 1;
      blocked := s.value < 0;
      if blocked {
        Block(s, cont);
      }
    }

    /** `block` up to its context switch. */
    method Block(s: Sem, cont: Continuation)
      requires Shape() && Agrees(current) && s in sems
      modifies s.suspended, s.suspended.elems`next
      modifies current`next, current`prev, current`status, current`place, current`cont
      ensures Shape() && sleepQueue.Sleepers() == old(sleepQueue.Sleepers())
      ensures s.suspended.elems == old(s.suspended.elems) + [current]
      ensures View(current) == WaitView(old(View(current)), s, cont, true)
    {
      ChainWaiter(s, cont);
      Reshaped(s);
    }

    method ChainWaiter(s: Sem, cont: Continuation)
      requires Shape() && Agrees(current) && s in sems
      modifies s.suspended, s.suspended.elems`next
      modifies current`next, current`prev, current`status, current`place, current`cont
      ensures s.suspended.Valid() && scheduler.queue.Valid()
      ensures s.suspended.elems == old(s.suspended.elems) + [current]
      ensures View(current) == WaitView(old(View(current)), s, cont, true)
    {
      assert s.suspended in Lists();
      current.status := SUSPENDED;
      current.place := WaitingOn(s);
      s.suspended.AddLast(current);
      current.cont := cont;
      scheduler.queue.Undisturbed();
    }

    ghost function FirstOf(s: Sem): set<TCB>
      reads s.suspended
    {
      if s.suspended.elems == [] then {} else {s.suspended.elems[0]}
    }

    /** `unblock`: release the first waiter, if any. */
    method Unblock(s: Sem, waitError: bool) returns (released: bool, ghost ts: seq<TCB>)
      requires Shape() && Agrees(null) && s in sems
      modifies s.suspended, s.suspended.elems`next, s.suspended.elems`prev
      modifies scheduler.queue, scheduler.queue.elems`next
      modifies FirstOf(s)`status, FirstOf(s)`place, FirstOf(s)`interrupted
      ensures Shape() && sleepQueue.Sleepers() == old(sleepQueue.Sleepers())
      ensures released == (ts != []) && ts == Front(old(s.suspended.elems))
      ensures s.suspended.elems == Rest(old(s.suspended.elems))
      ensures scheduler.queue.elems == old(scheduler.queue.elems) + ts
      ensures Readied(ts, true, waitError)
    {
      assert s.suspended in Lists();
      if s.suspended.IsEmpty() {
        var t := s.suspended.TakeFirst();
        scheduler.queue.Undisturbed();
        Reshaped(s);
        return false, [];
      }
      ts := [s.suspended.elems[0]];
      Release(s, s.suspended.elems[0], waitError);
      released := true;
    }

    method Release(s: Sem, ghost first: TCB, waitError: bool)
      requires Shape() && Agrees(null) && s in sems && s.suspended.elems != [] && first == s.suspended.elems[0]
      modifies s.suspended, s.suspended.elems`next, s.suspended.elems`prev
      modifies scheduler.queue, scheduler.queue.elems`next
      modifies first`status, first`place, first`interrupted
      ensures Shape() && sleepQueue.Sleepers() == old(sleepQueue.Sleepers())
      ensures s.suspended.elems == old(s.suspended.elems)[1..]
      ensures scheduler.queue.elems == old(scheduler.queue.elems) + [first]
      ensures View(first) == Awaken(old(View(first)), true, waitError)
    {
      MoveToReady(s, first, waitError);
      Reshaped(s);
    }

    method MoveToReady(s: Sem, ghost first: TCB, waitError: bool)
      requires Shape() && Agrees(null) && s in sems && s.suspended.elems != [] && first == s.suspended.elems[0]
      modifies s.suspended, s.suspended.elems`next, s.suspended.elems`prev
      modifies scheduler.queue, scheduler.queue.elems`next
      modifies first`status, first`place, first`interrupted
      ensures s.suspended.Valid() && scheduler.queue.Valid()
      ensures s.suspended.elems == old(s.suspended.elems)[1..]
      ensures scheduler.queue.elems == old(scheduler.queue.elems) + [first]
      ensures first in tcbs && forall t :: t in s.suspended.elems ==> t in tcbs
      ensures View(first) == Awaken(old(View(first)), true, waitError)
    {
      var t := TakeWaiter(s);
      t.interrupted := waitError;
      PushReady(s, t);
    }

    method TakeWaiter(s: Sem) returns (t: TCB)
      requires Shape() && Agrees(null) && s in sems && s.suspended.elems != []
      modifies s.suspended, s.suspended.elems`next, s.suspended.elems`prev
      ensures t == old(s.suspended.elems)[0] && s.suspended.elems == old(s.suspended.elems)[1..]
      ensures t in tcbs && forall x :: x in s.suspended.elems ==> x in tcbs
      ensures TwoQueues(s) && t !in scheduler.queue.elems && t !in s.suspended.elems
    {
      assert s.suspended in Lists();
      t := s.suspended.TakeFirst();
      scheduler.queue.Undisturbed();
    }

    /** The ready queue and the queue of `s` have no thread in common. */
    ghost predicate TwoQueues(s: Sem)
      reads scheduler.queue, scheduler.queue.elems`next, scheduler.queue.elems`prev
      reads s.suspended, s.suspended.elems`next, s.suspended.elems`prev
    {
      && s.suspended.Valid() && scheduler.queue.Valid() && s.suspended != scheduler.queue
      && forall t :: t in s.suspended.elems ==> t !in scheduler.queue.elems
    }

    method PushReady(s: Sem, t: TCB)
      requires TwoQueues(s) && t !in scheduler.queue.elems && t !in s.suspended.elems
      modifies scheduler.queue, scheduler.queue.elems`next
      modifies t`next, t`prev, t`status, t`place
      ensures s.suspended.Valid() && scheduler.queue.Valid()
      ensures scheduler.queue.elems == old(scheduler.queue.elems) + [t]
      ensures t.status == READY && t.place == InReady
    {
      scheduler.PutTcb(t);
      s.suspended.Undisturbed();
    }

    // ---------- signal and close ----------

    /** Threads `ts` became ready with the given flag; nobody else changed. */
    twostate predicate Readied(new ts: seq<TCB>, mark: bool, interrupted: bool)
      requires tcbs == old(tcbs)
      reads this, tcbs
    {
      forall u :: u in tcbs ==>
        View(u) == if u in ts then Awaken(old(View(u)), mark, interrupted) else old(View(u))
    }

    twostate lemma ReadiedMap(ts: seq<TCB>, new mark: bool, new interrupted: bool)
      requires old(Shape()) && tcbs == old(tcbs) && Readied(ts, mark, interrupted)
      ensures ThreadMapOf() == MakeReady(old(Abs()), ts, mark, interrupted).threads
    {
    }

    /** `signal`. */
    method Signal(s: Sem)
      requires Shape() && Agrees(null) && s in sems
      modifies Owned()
      ensures Shape() && Abs() == SignalSem(old(Abs()), s)
      ensures context == old(context) && tcbs == old(tcbs) && sems == old(sems)
    {
      Post(s);
    }

    method Post(s: Sem)
      requires Shape() && Agrees(null) && s in sems
      modifies s`value, s.suspended, s.suspended.elems`next, s.suspended.elems`prev
      modifies scheduler.queue, scheduler.queue.elems`next
      modifies FirstOf(s)`status, FirstOf(s)`place, FirstOf(s)`interrupted
      ensures Shape() && Abs() == SignalSem(old(Abs()), s)
    {
      SignalParts(Abs(), s);
      CountUp(s);
      if s.value <= 0 {
        UnblockFirst(s);
      }
    }

    method CountUp(s: Sem)
      requires Shape() && Agrees(null) && s in sems
      modifies s`value
      ensures Shape() && Agrees(null) && s.value == old(s.value) + 1
      ensures Abs() == Raised(old(Abs()), s)
    {
      AddOne(s);
      RaisedAbs(s);
    }

    method AddOne(s: Sem)
      requires Shape() && Agrees(null) && s in sems
      modifies s`value
      ensures Shape() && Agrees(null) && s.value == old(s.value) + 1
      ensures sleepQueue.Sleepers() == old(sleepQueue.Sleepers())
    {
      s.value := s.value + 1;
    }

    twostate lemma RaisedAbs(s: Sem)
      requires old(Shape()) && Shape() && OnlyThreads() && sems == old(sems) && s in sems
      requires scheduler.queue.elems == old(scheduler.queue.elems) && ThreadMapOf() == old(ThreadMapOf())
      requires forall x :: x in sems && x != s ==> SemView(x) == old(SemView(x))
      requires SemView(s) == SemState(old(s.value) + 1, old(s.suspended.elems))
      ensures Abs() == Raised(old(Abs()), s)
    {
      SemUpdated(s);
      AbsChanged();
    }

    method UnblockFirst(s: Sem)
      requires Shape() && Agrees(null) && s in sems
      modifies s.suspended, s.suspended.elems`next, s.suspended.elems`prev
      modifies scheduler.queue, scheduler.queue.elems`next
      modifies FirstOf(s)`status, FirstOf(s)`place, FirstOf(s)`interrupted
      ensures Shape() && Abs() == UnblockSem(old(Abs()), s, false)
    {
      var released;
      ghost var ts;
      released, ts := Unblock(s, false);
      UnblockAbs(s, false);
    }

    twostate lemma UnblockAbs(s: Sem, new interrupted: bool)
      requires old(Shape()) && Shape() && OnlyThreads() && sems == old(sems) && tcbs == old(tcbs) && s in sems
      requires forall x :: x in sems && x != s ==> SemView(x) == old(SemView(x))
      requires s.value == old(s.value) && s.suspended.elems == Rest(old(s.suspended.elems))
      requires scheduler.queue.elems == old(scheduler.queue.elems) + Front(old(s.suspended.elems))
      requires Readied(Front(old(s.suspended.elems)), true, interrupted)
      ensures Abs() == UnblockSem(old(Abs()), s, interrupted)
    {
      ReadiedMap(Front(old(s.suspended.elems)), true, interrupted);
      SemUpdated(s);
      AbsChanged();
    }

    // ---------- the context switch ----------

    /** `next_tcb` and what `yield` does up to `k_restore_context`. */
    method Take()
      requires Shape() && Agrees(null) && scheduler.queue.elems != []
      modifies Owned()
      ensures Shape() && Abs() == KernelSpec.Take(old(Abs()))
      ensures context == current && tcbs == old(tcbs) && sems == old(sems)
    {
      TakeFirst(scheduler.queue.elems[0]);
    }

    method TakeFirst(ghost first: TCB)
      requires Shape() && Agrees(null) && scheduler.queue.elems != [] && first == scheduler.queue.elems[0]
      modifies this`current, this`context
      modifies scheduler.queue, scheduler.queue.elems`next, scheduler.queue.elems`prev
      modifies first`status, first`place
      ensures Shape() && Abs() == KernelSpec.Take(old(Abs())) && context == current && first in tcbs
    {
      TakeReady(first);
      TakeAbs(first);
    }

    method TakeReady(ghost first: TCB)
      requires Shape() && Agrees(null) && scheduler.queue.elems != [] && first == scheduler.queue.elems[0]
      modifies this`current, this`context
      modifies scheduler.queue, scheduler.queue.elems`next, scheduler.queue.elems`prev
      modifies first`status, first`place
      ensures Shape() && sleepQueue.Sleepers() == old(sleepQueue.Sleepers())
      ensures current == context == first && first in tcbs
      ensures scheduler.queue.elems == old(scheduler.queue.elems)[1..]
      ensures View(first) == old(View(first)).(status := RUNNING, place := Current)
    {
      SetRunning(first);
      Reshaped(null);
    }

    method SetRunning(ghost first: TCB)
      requires Shape() && Agrees(null) && scheduler.queue.elems != [] && first == scheduler.queue.elems[0]
      modifies this`current, this`context
      modifies scheduler.queue, scheduler.queue.elems`next, scheduler.queue.elems`prev
      modifies first`status, first`place
      ensures scheduler.queue.Valid() && RingsValid()
      ensures forall t :: t in scheduler.queue.elems ==> t in tcbs
      ensures current == context == first && first in tcbs
      ensures scheduler.queue.elems == old(scheduler.queue.elems)[1..]
      ensures View(first) == old(View(first)).(status := RUNNING, place := Current)
    {
      assert first in scheduler.queue.elems;
      current := scheduler.NextTcb();
      current.status := RUNNING;
      current.place := Current;
      context := current;
    }

    twostate lemma TakeAbs(t: TCB)
      requires old(Shape()) && Shape() && Calm() && tcbs == old(tcbs) && sems == old(sems)
      requires old(scheduler.queue.elems) != [] && t == old(scheduler.queue.elems[0]) && t == current && t in tcbs
      requires scheduler.queue.elems == old(scheduler.queue.elems)[1..] && OthersKept(t)
      requires View(t) == old(View(t)).(status := RUNNING, place := Current)
      requires forall x :: x in sems ==> SemView(x) == old(SemView(x))
      ensures Abs() == KernelSpec.Take(old(Abs()))
    {
      ThreadUpdated(t);
      assert SemMapOf() == old(SemMapOf());
    }

    // ---------- sleeping and waking ----------

    /** Links changed only for threads that no semaphore's queue held. */
    twostate predicate WaitersKept()
      requires tcbs == old(tcbs)
      reads this, tcbs
    {
      forall t :: t in tcbs && old(t.place).WaitingOn? ==> t.next == old(t.next) && t.prev == old(t.prev)
    }

    /** Everything that the sleep queue's operations leave alone. */
    twostate lemma Restrung()
      requires old(Shape()) && old(Agrees(null)) && tcbs == old(tcbs) && sems == old(sems) && semOf == old(semOf)
      requires WaitersKept() && RingsValid() && sleepQueue.Valid() && scheduler.queue.Valid()
      requires forall t :: t in scheduler.queue.elems ==> t in tcbs
      requires forall t :: t in sleepQueue.queue.elems ==> t in tcbs
      requires forall s :: s in sems ==> unchanged(s.suspended)
      ensures Shape()
    {
      forall s | s in sems
        ensures s.suspended.Valid()
      {
        s.suspended.Undisturbed();
      }
    }

    method FallAsleep(n: nat)
      requires Shape() && Agrees(current) && 1 <= n < TWO_TO_THE_64
      modifies Owned()
      ensures Shape() && Abs() == KernelSpec.FallAsleep(old(Abs()), n)
      ensures context == old(context) && tcbs == old(tcbs) && sems == old(sems)
    {
      SleepIn(n);
    }

    method SleepIn(n: nat)
      requires Shape() && Agrees(current) && 1 <= n < TWO_TO_THE_64
      modifies sleepQueue.queue
      modifies sleepQueue.queue.elems`next, sleepQueue.queue.elems`prev, sleepQueue.queue.elems`sleepFor
      modifies current`next, current`prev, current`status, current`place, current`sleepFor, current`cont
      ensures Shape() && Abs() == KernelSpec.FallAsleep(old(Abs()), n)
    {
      Drowse(n);
      SleepAbs(n);
    }

    method Drowse(n: nat)
      requires Shape() && Agrees(current) && 1 <= n < TWO_TO_THE_64
      modifies sleepQueue.queue
      modifies sleepQueue.queue.elems`next, sleepQueue.queue.elems`prev, sleepQueue.queue.elems`sleepFor
      modifies current`next, current`prev, current`status, current`place, current`sleepFor, current`cont
      ensures Shape()
      ensures sleepQueue.Sleepers() == Insert(old(sleepQueue.Sleepers()), Sleeper(current, sleepQueue.now + n))
      ensures View(current) == old(View(current)).(cont := AfterDispatch, status := SUSPENDED, place := Asleep)
    {
      ChainSleeper(n);
      Restrung();
    }

    method ChainSleeper(n: nat)
      requires Shape() && Agrees(current) && 1 <= n < TWO_TO_THE_64
      modifies sleepQueue.queue
      modifies sleepQueue.queue.elems`next, sleepQueue.queue.elems`prev, sleepQueue.queue.elems`sleepFor
      modifies current`next, current`prev, current`status, current`place, current`sleepFor, current`cont
      ensures sleepQueue.Valid() && scheduler.queue.Valid()
      ensures sleepQueue.Sleepers() == Insert(old(sleepQueue.Sleepers()), Sleeper(current, sleepQueue.now + n))
      ensures forall t :: t in sleepQueue.queue.elems ==> t in tcbs
      ensures View(current) == old(View(current)).(cont := AfterDispatch, status := SUSPENDED, place := Asleep)
    {
      assert sleepQueue.queue in Lists();
      ghost var sleepers := sleepQueue.queue.elems;
      ghost var k := PutCurrentToSleep(n);
      InsertedIn(sleepers, k, current, tcbs);
      scheduler.queue.Undisturbed();
    }

    method PutCurrentToSleep(n: nat) returns (ghost k: nat)
      requires sleepQueue.Valid() && current !in sleepQueue.queue.elems && 1 <= n < TWO_TO_THE_64
      modifies sleepQueue.queue
      modifies sleepQueue.queue.elems`next, sleepQueue.queue.elems`prev, sleepQueue.queue.elems`sleepFor
      modifies current`next, current`prev, current`status, current`place, current`sleepFor, current`cont
      ensures sleepQueue.Valid()
      ensures sleepQueue.Sleepers() == Insert(old(sleepQueue.Sleepers()), Sleeper(current, sleepQueue.now + n))
      ensures k <= |old(sleepQueue.queue.elems)|
      ensures sleepQueue.queue.elems == old(sleepQueue.queue.elems)[..k] + [current] + old(sleepQueue.queue.elems)[k..]
      ensures View(current) == old(View(current)).(cont := AfterDispatch, status := SUSPENDED, place := Asleep)
    {
      SetCont(AfterDispatch);
      k := PutToSleep(n);
    }

    method PutToSleep(n: nat) returns (ghost k: nat)
      requires sleepQueue.Valid() && current !in sleepQueue.queue.elems && 1 <= n < TWO_TO_THE_64
      modifies sleepQueue.queue
      modifies sleepQueue.queue.elems`next, sleepQueue.queue.elems`prev, sleepQueue.queue.elems`sleepFor
      modifies current`next, current`prev, current`status, current`place, current`sleepFor
      ensures sleepQueue.Valid() && View(current) == old(View(current)).(status := SUSPENDED, place := Asleep)
      ensures sleepQueue.Sleepers() == Insert(old(sleepQueue.Sleepers()), Sleeper(current, sleepQueue.now + n))
      ensures k <= |old(sleepQueue.queue.elems)|
      ensures sleepQueue.queue.elems == old(sleepQueue.queue.elems)[..k] + [current] + old(sleepQueue.queue.elems)[k..]
    {
      k := sleepQueue.PutToSleep(current, n);
    }

    method SetCont(cont: Continuation)
      requires sleepQueue.Valid()
      modifies current`cont
      ensures sleepQueue.Valid() && View(current) == old(View(current)).(cont := cont)
      ensures sleepQueue.Sleepers() == old(sleepQueue.Sleepers())
    {
      current.cont := cont;
      SleepersUnchanged();
    }

    twostate lemma SleepAbs(n: nat)
      requires old(Shape()) && Shape() && tcbs == old(tcbs) && sems == old(sems)
      requires current == old(current) && current in tcbs && OthersKept(current)
      requires scheduler.queue.elems == old(scheduler.queue.elems) && SameConsole()
      requires timerTicks == old(timerTicks) && sleepQueue.now == old(sleepQueue.now)
      requires sleepQueue.Sleepers() == Insert(old(sleepQueue.Sleepers()), Sleeper(current, sleepQueue.now + n))
      requires View(current) == old(View(current)).(cont := AfterDispatch, status := SUSPENDED, place := Asleep)
      requires SemMapOf() == old(SemMapOf())
      ensures Abs() == KernelSpec.FallAsleep(old(Abs()), n)
    {
      ThreadUpdated(current);
    }

    method Tick()
      requires Shape() && Agrees(null)
      modifies Owned()
      ensures Shape() && Abs() == TickSleepers(old(Abs()))
      ensures context == old(context) && tcbs == old(tcbs) && sems == old(sems)
    {
      TickQueues();
    }

    method TickQueues()
      requires Shape() && Agrees(null)
      modifies sleepQueue`now, sleepQueue.queue
      modifies sleepQueue.queue.elems`next, sleepQueue.queue.elems`prev
      modifies sleepQueue.queue.elems`sleepFor, sleepQueue.queue.elems`status, sleepQueue.queue.elems`place
      modifies scheduler.queue, scheduler.queue.elems`next
      ensures Shape() && Abs() == TickSleepers(old(Abs()))
    {
      TickKeeps();
      TickAbs();
    }

    method TickKeeps()
      requires Shape() && Agrees(null)
      modifies sleepQueue`now, sleepQueue.queue
      modifies sleepQueue.queue.elems`next, sleepQueue.queue.elems`prev
      modifies sleepQueue.queue.elems`sleepFor, sleepQueue.queue.elems`status, sleepQueue.queue.elems`place
      modifies scheduler.queue, scheduler.queue.elems`next
      ensures Shape() && Woken() && SameConsole() && SemMapOf() == old(SemMapOf())
    {
      CountDown();
      SemsSame();
    }

    /** No semaphore changed. */
    twostate lemma SemsSame()
      requires sems == old(sems) && forall s :: s in sems ==> unchanged(s) && unchanged(s.suspended)
      ensures SemMapOf() == old(SemMapOf())
    {
    }

    method CountDown()
      requires Shape() && Agrees(null)
      modifies sleepQueue`now, sleepQueue.queue
      modifies sleepQueue.queue.elems`next, sleepQueue.queue.elems`prev
      modifies sleepQueue.queue.elems`sleepFor, sleepQueue.queue.elems`status, sleepQueue.queue.elems`place
      modifies scheduler.queue, scheduler.queue.elems`next
      ensures Shape() && Woken()
    {
      WakeQuietly();
      Restrung();
    }

    method WakeQuietly()
      requires Shape() && Agrees(null)
      modifies sleepQueue`now, sleepQueue.queue
      modifies sleepQueue.queue.elems`next, sleepQueue.queue.elems`prev
      modifies sleepQueue.queue.elems`sleepFor, sleepQueue.queue.elems`status, sleepQueue.queue.elems`place
      modifies scheduler.queue, scheduler.queue.elems`next
      ensures sleepQueue.Valid() && scheduler.queue.Valid() && Woken() && WaitersKept() && RingsValid()
      ensures forall t :: t in scheduler.queue.elems ==> t in tcbs
      ensures forall t :: t in sleepQueue.queue.elems ==> t in tcbs
    {
      WakeSleepers();
    }

    /** What a tick does to the two queues. */
    twostate predicate Woken()
      requires tcbs == old(tcbs)
      reads this, sleepQueue, sleepQueue.queue, sleepQueue.queue.elems, scheduler.queue, tcbs
    {
      var due := Due(old(sleepQueue.Sleepers()), old(sleepQueue.now) + 1);
      && sleepQueue.now == old(sleepQueue.now) + 1
      && sleepQueue.Sleepers() == NotDue(old(sleepQueue.Sleepers()), sleepQueue.now)
      && scheduler.queue.elems == old(scheduler.queue.elems) + due
      && Readied(due, false, false)
    }

    method WakeSleepers()
      requires Shape() && Agrees(null)
      modifies sleepQueue`now, sleepQueue.queue
      modifies sleepQueue.queue.elems`next, sleepQueue.queue.elems`prev
      modifies sleepQueue.queue.elems`sleepFor, sleepQueue.queue.elems`status, sleepQueue.queue.elems`place
      modifies scheduler.queue, scheduler.queue.elems`next
      ensures sleepQueue.Valid() && scheduler.queue.Valid() && Woken()
      ensures forall t :: t in scheduler.queue.elems ==> t in tcbs
      ensures forall t :: t in sleepQueue.queue.elems ==> t in tcbs
    {
      assert sleepQueue.queue in Lists();
      sleepQueue.TimerTick(scheduler);
    }

    /** Nothing about the console changed. */
    twostate predicate SameConsole()
      requires old(Shape()) && Shape()
      reads this, Owned()
    {
      && userSems == old(userSems) && log == old(log)
      && putcBuffer.Contents() == old(putcBuffer.Contents()) && getcBuffer.Contents() == old(getcBuffer.Contents())
    }

    twostate lemma TickAbs()
      requires old(Shape()) && Shape() && unchanged(this) && SameConsole() && Woken()
      requires SemMapOf() == old(SemMapOf())
      ensures Abs() == TickSleepers(old(Abs()))
    {
      ReadiedMap(Due(old(sleepQueue.Sleepers()), old(sleepQueue.now) + 1), false, false);
    }

    // ---------- the rings ----------

    ghost method SetLog(l: Log)
      requires Shape()
      modifies this`log
      ensures Shape() && Abs() == old(Abs()).(log := l)
      ensures old(Agrees(null)) ==> Agrees(null)
    {
      log := l;
      assert ThreadMapOf() == old(ThreadMapOf()) && SemMapOf() == old(SemMapOf());
    }

    method PutChar(c: char)
      requires Shape() && current in tcbs
      modifies Owned()
      ensures Shape() && Abs() == KernelSpec.PutChar(old(Abs()), c)
      ensures context == old(context) && tcbs == old(tcbs) && sems == old(sems)
    {
      FillPutc(c);
      SetLog(log.(puts := log.puts + [(current, c)]));
    }

    method FillPutc(c: char)
      requires Shape()
      modifies putcBuffer, putcBuffer.buffer
      ensures Shape() && Abs() == old(Abs()).(putcBuf := RingPut(old(Abs()).putcBuf, c))
    {
      putcBuffer.Put(c);
      ShapeKept();
    }

    method ReadChar() returns (c: char)
      requires Shape() && current in tcbs
      modifies Owned()
      ensures Shape() && c == RingFirst(old(getcBuffer.Contents()))
      ensures Abs() == old(Abs()).(getcBuf := RingRest(old(Abs()).getcBuf),
                                   log := old(log).(gets := old(log).gets + [(current, c)]))
      ensures context == old(context) && tcbs == old(tcbs) && sems == old(sems)
    {
      c := TakeGetc();
      SetLog(log.(gets := log.gets + [(current, c)]));
    }

    method TakeGetc() returns (c: char)
      requires Shape()
      modifies getcBuffer, getcBuffer.buffer
      ensures Shape() && c == RingFirst(old(getcBuffer.Contents()))
      ensures Abs() == old(Abs()).(getcBuf := RingRest(old(Abs()).getcBuf))
    {
      c := getcBuffer.Get();
      ShapeKept();
    }

    method GetChar()
      requires Shape() && current in tcbs && context == current
      modifies Owned()
      ensures Shape() && Abs() == KernelSpec.GetChar(old(Abs()))
      ensures context == old(context) && tcbs == old(tcbs) && sems == old(sems)
    {
      var c := ReadChar();
      SetA0(c as int);
    }

    method SetTicks(n: nat)
      requires Shape()
      modifies this`timerTicks
      ensures Shape() && Abs() == old(Abs()).(ticks := n)
    {
      timerTicks := n;
      assert ThreadMapOf() == old(ThreadMapOf()) && SemMapOf() == old(SemMapOf());
    }

    /** The second return of `k_save_context`, and what its caller goes on with. */
    method Resume()
      requires Shape() && current in tcbs && context == current
      modifies Owned()
      ensures Shape() && Abs() == KernelSpec.Resume(old(Abs()))
      ensures context == current && tcbs == old(tcbs) && sems == old(sems)
    {
      if current.cont.Fresh? {
        return;
      }
      SetTicks(0);
      match current.cont
      case AfterSemWait => SetA0(if current.interrupted then WAIT_FAIL else WAIT_SUCCESS);
      case ThenPutc(c) => PutChar(c);
      case ThenGetc => GetChar();
      case _ =>
    }

    /** From `next_tcb` to the end of the restored thread's trap. */
    method SwitchToNext()
      requires Shape() && Core(Abs(), null)
      modifies Owned()
      ensures Shape() && Abs() == Next(old(Abs()))
      ensures context == current && tcbs == old(tcbs) && sems == old(sems)
    {
      NextExists(Abs());
      TakeCore(Abs());
      AgreesWhenPlaced(null);
      Take();
      CurrentLives(Abs());
      Resume();
    }

    /** `dispatch`: a running thread stays ready, a terminating one is freed, a sleeping one is
        already in its queue. */
    method Dispatch()
      requires Shape() && context == current && current in tcbs
      requires Core(PutAway(Abs()), null)
      requires current.status == RUNNING ==> Agrees(current)
      requires current.status == TERMINATING ==> Agrees(current) && OwnSem()
      modifies Owned()
      ensures Shape() && Abs() == Next(PutAway(old(Abs())))
      ensures context == current && (old(current.status) != TERMINATING ==> tcbs == old(tcbs) && sems == old(sems))
      ensures tcbs <= old(tcbs) && sems <= old(sems)
    {
      PutAwayCurrent();
      OwnedShrinks();
      SwitchToNext();
    }

    twostate lemma OwnedShrinks()
      requires tcbs <= old(tcbs) && sems <= old(sems)
      ensures Owned() <= old(Owned())
    {
    }

    ghost predicate OwnSem()
      reads this, current
    {
      current.joinSem != null && current.joinSem in sems && current.joinSem !in {putcSem, getcSem}
    }

    method PutAwayCurrent()
      requires Shape() && context == current && current in tcbs
      requires current.status == RUNNING ==> Agrees(current)
      requires current.status == TERMINATING ==> Agrees(current) && OwnSem()
      modifies Owned()
      ensures Shape() && Abs() == PutAway(old(Abs()))
      ensures tcbs <= old(tcbs) && sems <= old(sems)
      ensures old(current.status) != TERMINATING ==> tcbs == old(tcbs) && sems == old(sems)
    {
      PutAwayByStatus(Abs(), current.status);
      if current.status == RUNNING {
        GiveUp();
      } else if current.status == TERMINATING {
        Bury();
      }
    }

    lemma CurrentRuns()
      requires Valid()
      ensures current in tcbs && current.status == RUNNING
    {
      RunningNow(Abs());
      assert Abs().threads[current] == View(current);
    }

    /** `dispatch` by the current thread at a trap boundary, when it is running. */
    method Preempt()
      requires Valid()
      modifies Owned()
      ensures Shape() && Abs() == DispatchReady(old(Abs()))
      ensures context == current && tcbs == old(tcbs) && sems == old(sems)
    {
      PreemptReady(Abs());
      AgreesWhenPlaced(current);
      CurrentRuns();
      Dispatch();
    }

    /** A handler that waits on `s`, and what it does once `wait` returns. */
    method WaitThen(s: Sem, cont: Continuation)
      requires Valid() && current != flushTcb && WaitKind(Abs(), s, cont)
      modifies Owned()
      ensures Shape() && Abs() == WaitCall(old(Abs()), s, cont)
      ensures context == current && tcbs == old(tcbs) && sems == old(sems)
    {
      StartWaitCore(Abs(), s, cont);
      AgreesWhenPlaced(current);
      var blocked := StartWait(s, cont);
      if blocked {
        SwitchToNext();
      } else {
        Go(cont);
      }
    }

    method Go(cont: Continuation)
      requires Shape() && current in tcbs && context == current
      modifies Owned()
      ensures Shape() && Abs() == AfterGrant(old(Abs()), cont)
      ensures context == current && tcbs == old(tcbs) && sems == old(sems)
    {
      match cont
      case AfterSemWait => SetA0(WAIT_SUCCESS);
      case ThenPutc(c) => PutChar(c);
      case ThenGetc => GetChar();
      case _ =>
    }

    // ---------- interrupts and the flush thread ----------

    /** `k_handle_timer`. */
    method HandleTimer()
      requires Valid()
      modifies Owned()
      ensures Valid() && Abs() == Step(old(Abs()), Timer)
      ensures tcbs == old(tcbs) && sems == old(sems) && Owned() <= old(Owned())
    {
      StepInv(Abs(), Timer);
      OnTimerTick();
      OwnedShrinks();
    }

    method OnTimerTick()
      requires Valid()
      modifies Owned()
      ensures Shape() && Abs() == OnTimer(old(Abs()))
      ensures context == current && tcbs == old(tcbs) && sems == old(sems)
    {
      CountTickCore(Abs());
      AgreesWhenPlaced(current);
      AddTick();
      CurrentLives(Abs());
      if timerTicks >= current.timeSlice {
        Preempt();
      }
    }

    method AddTick()
      requires Shape() && Agrees(null) && context == current
      modifies Owned()
      ensures Shape() && Abs() == CountTick(old(Abs()))
      ensures context == current && tcbs == old(tcbs) && sems == old(sems)
    {
      Tick();
      SetTicks(timerTicks + 1);
    }

    /** `fill_getc_buffer` when the device holds character `c`. */
    method FillGetcBuffer(c: char)
      requires Valid()
      modifies Owned()
      ensures Valid() && Abs() == Step(old(Abs()), ConsoleInput(c))
      ensures tcbs == old(tcbs) && sems == old(sems) && Owned() <= old(Owned())
    {
      StepInv(Abs(), ConsoleInput(c));
      OnCharacter(c);
      OwnedShrinks();
    }

    method OnCharacter(c: char)
      requires Valid()
      modifies Owned()
      ensures Shape() && Abs() == OnInput(old(Abs()), c)
      ensures context == current && tcbs == old(tcbs) && sems == old(sems)
    {
      if getcBuffer.GetLength() < getcBuffer.GetCapacity() {
        TakeInputCore(Abs(), c);
        AgreesWhenPlaced(current);
        AcceptInput(c);
        Preempt();
      }
    }

    method AcceptInput(c: char)
      requires Shape() && Agrees(null) && context == current && |getcBuffer.Contents()| < IO_BUFFER_SIZE
      modifies Owned()
      ensures Shape() && Abs() == TakeInput(old(Abs()), c)
      ensures context == current && tcbs == old(tcbs) && sems == old(sems)
    {
      StoreInput(c);
      Signal(getcSem);
    }

    method StoreInput(c: char)
      requires Shape() && Agrees(null) && context == current && |getcBuffer.Contents()| < IO_BUFFER_SIZE
      modifies Owned()
      ensures Shape() && Agrees(null)
      ensures Abs() == old(Abs()).(getcBuf := RingPut(old(Abs()).getcBuf, c), log := old(log).(rx := old(log).rx + [c]))
      ensures context == current && tcbs == old(tcbs) && sems == old(sems)
    {
      FillGetc(c);
      SetLog(log.(rx := log.rx + [c]));
    }

    method FillGetc(c: char)
      requires Shape() && Agrees(null)
      modifies getcBuffer, getcBuffer.buffer
      ensures Shape() && Agrees(null) && Abs() == old(Abs()).(getcBuf := RingPut(old(Abs()).getcBuf, c))
    {
      getcBuffer.Put(c);
      ShapeKept();
    }

    /** `flush_putc_buffer` while the device can take `ready` more characters. */
    method FlushPutcBuffer(ready: nat)
      requires Valid() && current == flushTcb
      modifies Owned()
      ensures Valid() && Abs() == Flushed(old(Abs()), ready)
      ensures tcbs == old(tcbs) && sems == old(sems) && Owned() <= old(Owned())
    {
      ghost var goal := Flushed(Abs(), ready);
      var left := ready;
      while putcBuffer.GetLength() > 0 && left > 0
        invariant Valid() && current == flushTcb && tcbs == old(tcbs) && sems == old(sems)
        invariant goal == Flushed(Abs(), left)
        decreases left
      {
        left := left - 1;
        FlushNext(left, goal);
      }
      OwnedShrinks();
    }

    method FlushNext(ghost left: nat, ghost goal: KState)
      requires Valid() && current == flushTcb && putcBuffer.Contents() != []
      requires goal == Flushed(Abs(), left + 1)
      modifies Owned()
      ensures Valid() && current == flushTcb && tcbs == old(tcbs) && sems == old(sems)
      ensures goal == Flushed(Abs(), left)
    {
      FlushedOnce(Abs(), left + 1);
      FlushChar();
    }

    /** One round: the device takes the first character and a waiting `putc` may go on. */
    method FlushChar()
      requires Valid() && current == flushTcb && putcBuffer.Contents() != []
      modifies Owned()
      ensures Valid() && current == flushTcb && Abs() == Step(old(Abs()), Flush)
      ensures tcbs == old(tcbs) && sems == old(sems)
    {
      StepInv(Abs(), Flush);
      FlushRound();
    }

    method FlushRound()
      requires Valid() && putcBuffer.Contents() != []
      modifies Owned()
      ensures Shape() && Abs() == FlushOne(old(Abs()))
      ensures context == current && tcbs == old(tcbs) && sems == old(sems)
    {
      AgreesWhenPlaced(current);
      FlushFirst();
    }

    method FlushFirst()
      requires Shape() && Agrees(null) && context == current && putcBuffer.Contents() != []
      modifies Owned()
      ensures Shape() && Abs() == FlushOne(old(Abs()))
      ensures context == current && tcbs == old(tcbs) && sems == old(sems)
    {
      Transmit();
      Signal(putcSem);
    }

    method Transmit()
      requires Shape() && Agrees(null) && context == current && putcBuffer.Contents() != []
      modifies Owned()
      ensures Shape() && Agrees(null) && Abs() == SendFirst(old(Abs()))
      ensures context == current && tcbs == old(tcbs) && sems == old(sems)
    {
      var c := DrainPutc();
      SetLog(log.(tx := log.tx + [c]));
    }

    method DrainPutc() returns (c: char)
      requires Shape() && Agrees(null) && putcBuffer.Contents() != []
      modifies putcBuffer, putcBuffer.buffer
      ensures Shape() && Agrees(null) && c == old(putcBuffer.Contents()[0])
      ensures Abs() == old(Abs()).(putcBuf := old(Abs()).putcBuf[1..])
    {
      c := putcBuffer.Get();
      ShapeKept();
    }

    // ---------- close ----------

    /** `close`: every waiter becomes ready, in order, with the interrupted flag set. */
    method Close(s: Sem)
      requires Shape() && Agrees(null) && s in sems
      modifies Owned()
      ensures Shape() && Agrees(null) && Abs() == CloseSem(old(Abs()), s)
      ensures context == old(context) && tcbs == old(tcbs) && sems == old(sems)
    {
      ghost var waiters := s.suspended.elems;
      UnblockAll(s);
      CloseAbs(s, waiters);
    }

    method UnblockAll(s: Sem)
      requires Shape() && Agrees(null) && s in sems
      modifies s.suspended, scheduler.queue
      modifies tcbs`next, tcbs`prev, tcbs`status, tcbs`place, tcbs`interrupted
      ensures Shape() && Agrees(null) && sleepQueue.Sleepers() == old(sleepQueue.Sleepers())
      ensures s.suspended.elems == []
      ensures scheduler.queue.elems == old(scheduler.queue.elems) + old(s.suspended.elems)
      ensures ReadyIn(old(ThreadMapOf()), ThreadMapOf(), old(s.suspended.elems), true)
    {
      ghost var threads, all, ready, ts := ThreadMapOf(), s.suspended.elems, scheduler.queue.elems, [];
      var more := true;
      while more
        invariant Shape() && Agrees(null) && sleepQueue.Sleepers() == old(sleepQueue.Sleepers())
        invariant Drained(all, ready, ts, s.suspended.elems, scheduler.queue.elems)
        invariant ReadyIn(threads, ThreadMapOf(), ts, true)
        invariant !more ==> s.suspended.elems == []
        decreases more, |s.suspended.elems|
      {
        more, ts := UnblockNext(s, threads, all, ready, ts);
      }
      assert ts + [] == ts;
    }

    method UnblockNext(s: Sem, ghost threads: ThreadMap, ghost all: seq<TCB>, ghost ready: seq<TCB>, ghost ts: seq<TCB>)
        returns (released: bool, ghost ts': seq<TCB>)
      requires Shape() && Agrees(null) && s in sems
      requires Drained(all, ready, ts, s.suspended.elems, scheduler.queue.elems)
      requires ReadyIn(threads, ThreadMapOf(), ts, true)
      modifies s.suspended, scheduler.queue
      modifies tcbs`next, tcbs`prev, tcbs`status, tcbs`place, tcbs`interrupted
      ensures Shape() && Agrees(null) && sleepQueue.Sleepers() == old(sleepQueue.Sleepers())
      ensures Drained(all, ready, ts', s.suspended.elems, scheduler.queue.elems)
      ensures ReadyIn(threads, ThreadMapOf(), ts', true)
      ensures if released then |s.suspended.elems| < |old(s.suspended.elems)| else s.suspended.elems == []
    {
      ghost var before, waiters, t := ThreadMapOf(), s.suspended.elems, [];
      released, t := UnblockOne(s);
      ReadyTrans(threads, before, ThreadMapOf(), ts, t, true);
      DrainedTrans(all, ready, ts, waiters);
      ts' := ts + t;
    }

    method UnblockAgreeing(s: Sem) returns (released: bool, ghost ts: seq<TCB>)
      requires Shape() && Agrees(null) && s in sems
      modifies s.suspended, s.suspended.elems`next, s.suspended.elems`prev
      modifies scheduler.queue, scheduler.queue.elems`next
      modifies FirstOf(s)`status, FirstOf(s)`place, FirstOf(s)`interrupted
      ensures Shape() && Agrees(null) && sleepQueue.Sleepers() == old(sleepQueue.Sleepers())
      ensures released == (ts != []) && ts == Front(old(s.suspended.elems))
      ensures s.suspended.elems == Rest(old(s.suspended.elems))
      ensures scheduler.queue.elems == old(scheduler.queue.elems) + ts
      ensures ReadyIn(old(ThreadMapOf()), ThreadMapOf(), ts, true)
    {
      released, ts := Unblock(s, true);
      StillAgrees(s);
      ReadiedIn(ts, true);
    }

    method UnblockOne(s: Sem) returns (released: bool, ghost ts: seq<TCB>)
      requires Shape() && Agrees(null) && s in sems
      modifies s.suspended, scheduler.queue
      modifies tcbs`next, tcbs`prev, tcbs`status, tcbs`place, tcbs`interrupted
      ensures Shape() && Agrees(null) && sleepQueue.Sleepers() == old(sleepQueue.Sleepers())
      ensures released == (ts != []) && ts == Front(old(s.suspended.elems))
      ensures s.suspended.elems == Rest(old(s.suspended.elems))
      ensures scheduler.queue.elems == old(scheduler.queue.elems) + ts
      ensures ReadyIn(old(ThreadMapOf()), ThreadMapOf(), ts, true)
    {
      assert s.suspended in Lists();
      released, ts := UnblockAgreeing(s);
    }

    twostate lemma ReadiedIn(new ts: seq<TCB>, new interrupted: bool)
      requires tcbs == old(tcbs) && Readied(ts, true, interrupted)
      ensures ReadyIn(old(ThreadMapOf()), ThreadMapOf(), ts, interrupted)
    {
    }

    twostate lemma StillAgrees(s: Sem)
      requires old(Shape()) && old(Agrees(null)) && Shape() && tcbs == old(tcbs) && sems == old(sems) && s in sems
      requires semOf == old(semOf) && unchanged(sleepQueue.queue)
      requires forall x :: x in sems && x != s ==> unchanged(x.suspended)
      requires s.suspended.elems == Rest(old(s.suspended.elems))
      requires scheduler.queue.elems == old(scheduler.queue.elems) + Front(old(s.suspended.elems))
      requires Readied(Front(old(s.suspended.elems)), true, true)
      ensures Agrees(null)
    {
    }

    twostate lemma CloseAbs(s: Sem, new waiters: seq<TCB>)
      requires old(Shape()) && Shape() && OnlyThreads() && sems == old(sems) && tcbs == old(tcbs) && s in sems
      requires forall x :: x in sems && x != s ==> SemView(x) == old(SemView(x))
      requires waiters == old(s.suspended.elems) && s.value == old(s.value) && s.suspended.elems == []
      requires scheduler.queue.elems == old(scheduler.queue.elems) + waiters
      requires ReadyIn(old(ThreadMapOf()), ThreadMapOf(), waiters, true)
      ensures Abs() == CloseSem(old(Abs()), s)
    {
      assert ThreadMapOf() == MakeReady(old(Abs()), waiters, true, true).threads;
      SemUpdated(s);
      AbsChanged();
      CloseForm(old(Abs()), s, ThreadMapOf(), SemMapOf());
    }

    // ---------- objects come and go ----------

    /** Memory for a semaphore that the kernel does not use yet. */
    ghost predicate Unused(s: Sem)
      reads this
    {
      && s !in sems && s.suspended != scheduler.queue && s.suspended != sleepQueue.queue
      && forall x :: x in sems ==> x.suspended != s.suspended
    }

    /** A new semaphore with nobody waiting. */
    method AddSem(s: Sem, init: nat, user: bool)
      requires Shape() && Agrees(null) && Unused(s)
      modifies this`sems, this`semOf, this`userSems, s, s.suspended
      ensures Shape() && Agrees(null)
      ensures Abs() == WithSem(old(Abs()), s, init, user)
      ensures sems == old(sems) + {s}
    {
      RecordSem(s, init, user);
      SemAdded(s);
      SemAddedAbs(s);
    }

    method RecordSem(s: Sem, init: nat, user: bool)
      requires Shape() && Unused(s)
      modifies this`sems, this`semOf, this`userSems, s, s.suspended
      ensures SemView(s) == SemState(init, []) && s.suspended.Valid()
      ensures sems == old(sems) + {s} && semOf == old(semOf)[s.suspended := s]
      ensures userSems == (if user then old(userSems) + {s} else old(userSems)) && AllKept()
    {
      s.Initialize(init);
      sems := sems + {s};
      semOf := semOf[s.suspended := s];
      userSems := if user then userSems + {s} else userSems;
    }

    /** Everything that was there before is as it was. */
    twostate predicate AllKept()
      requires old(Apart()) && old(sems) <= sems && old(tcbs) <= tcbs
      reads this, Owned()
    {
      && unchanged(sleepQueue) && unchanged(sleepQueue.queue) && unchanged(scheduler.queue)
      && unchanged(putcBuffer) && unchanged(putcBuffer.buffer) && unchanged(getcBuffer) && unchanged(getcBuffer.buffer)
      && (forall x :: x in old(sems) ==> unchanged(x) && unchanged(x.suspended))
      && (forall t :: t in old(tcbs) ==> unchanged(t))
    }

    twostate lemma SemAdded(s: Sem)
      requires old(Shape()) && old(Agrees(null)) && old(Unused(s))
      requires tcbs == old(tcbs) && sems == old(sems) + {s} && AllKept()
      requires s.suspended.Valid() && s.suspended.elems == []
      requires semOf == old(semOf)[s.suspended := s]
      ensures Shape() && Agrees(null) && sleepQueue.Sleepers() == old(sleepQueue.Sleepers())
    {
      SleepersUnchanged();
      scheduler.queue.Undisturbed();
      forall x | x in old(sems)
        ensures x.suspended.Valid() && x.suspended != s.suspended
      {
        x.suspended.Undisturbed();
      }
      assert Apart();
    }

    twostate lemma SemAddedAbs(s: Sem)
      requires old(Shape()) && Shape() && tcbs == old(tcbs) && sems == old(sems) + {s} && AllKept() && s !in old(sems)
      requires current == old(current) && timerTicks == old(timerTicks) && log == old(log)
      requires sleepQueue.Sleepers() == old(sleepQueue.Sleepers())
      ensures Abs() == old(Abs()).(sems := old(Abs()).sems[s := SemView(s)], userSems := userSems)
    {
      assert ThreadMapOf() == old(ThreadMapOf());
      assert SemMapOf() == old(SemMapOf())[s := SemView(s)];
    }

    /** A new thread, put in the ready queue. */
    method NewTcb(t: TCB, join: Sem)
      requires Shape() && Agrees(null) && t !in tcbs
      modifies this`tcbs, scheduler.queue, scheduler.queue.elems`next, t
      ensures Shape() && tcbs == old(tcbs) + {t}
      ensures Abs() == old(Abs()).(ready := old(Abs()).ready + [t],
                                   threads := old(Abs()).threads[t := Thread(READY, false, Fresh, 0, join, InReady)])
    {
      Spawn(t, join);
      TcbAdded(t);
    }

    method Spawn(t: TCB, join: Sem)
      requires Shape() && Agrees(null) && t !in tcbs
      modifies this`tcbs, scheduler.queue, scheduler.queue.elems`next, t
      ensures tcbs == old(tcbs) + {t}
      ensures scheduler.queue.Valid() && scheduler.queue.elems == old(scheduler.queue.elems) + [t]
      ensures View(t) == Thread(READY, false, Fresh, 0, join, InReady) && ReadyLinksOnly()
    {
      NewReady(t, join);
      tcbs := tcbs + {t};
    }

    method NewReady(t: TCB, join: Sem)
      requires scheduler.queue.Valid() && t !in scheduler.queue.elems
      modifies scheduler.queue, scheduler.queue.elems`next, t
      ensures scheduler.queue.Valid() && scheduler.queue.elems == old(scheduler.queue.elems) + [t]
      ensures View(t) == Thread(READY, false, Fresh, 0, join, InReady)
    {
      t.Initialize(join);
      scheduler.queue.Undisturbed();
      scheduler.PutTcb(t);
    }

    twostate predicate ReadyLinksOnly()
      requires old(Shape()) && old(tcbs) <= tcbs
      reads this, Owned()
    {
      && sems == old(sems) && semOf == old(semOf) && userSems == old(userSems) && log == old(log)
      && current == old(current) && timerTicks == old(timerTicks)
      && unchanged(sleepQueue) && unchanged(sleepQueue.queue)
      && (forall x :: x in sems ==> unchanged(x) && unchanged(x.suspended))
      && forall u :: u in old(tcbs) ==>
           && View(u) == old(View(u)) && u.sleepFor == old(u.sleepFor)
           && (u.place != InReady ==> u.next == old(u.next) && u.prev == old(u.prev))
    }

    twostate lemma TcbAdded(t: TCB)
      requires old(Shape()) && old(Agrees(null)) && t !in old(tcbs) && tcbs == old(tcbs) + {t} && ReadyLinksOnly()
      requires RingsValid()
      requires scheduler.queue.Valid() && scheduler.queue.elems == old(scheduler.queue.elems) + [t]
      requires putcBuffer.Contents() == old(putcBuffer.Contents())
      requires getcBuffer.Contents() == old(getcBuffer.Contents())
      ensures Shape()
      ensures Abs() == old(Abs()).(ready := scheduler.queue.elems, threads := old(Abs()).threads[t := View(t)])
    {
      SleepersUnchanged();
      forall x | x in sems
        ensures x.suspended.Valid()
      {
        x.suspended.Undisturbed();
      }
      assert ThreadMapOf() == old(ThreadMapOf())[t := View(t)];
      assert SemMapOf() == old(SemMapOf());
    }

    /** `create_tcb` and `put_tcb`. */
    method CreateThread(t: TCB, join: Sem)
      requires Shape() && Agrees(null) && t !in tcbs && Unused(join)
      modifies Owned(), t, join, join.suspended
      ensures Shape() && Abs() == AddThread(old(Abs()), t, join)
      ensures context == old(context) && tcbs == old(tcbs) + {t} && sems == old(sems) + {join}
    {
      Create(t, join);
    }

    method Create(t: TCB, join: Sem)
      requires Shape() && Agrees(null) && t !in tcbs && Unused(join)
      modifies this`tcbs, this`sems, this`semOf, this`userSems, scheduler.queue, scheduler.queue.elems`next
      modifies t, join, join.suspended
      ensures Shape() && Abs() == AddThread(old(Abs()), t, join)
      ensures tcbs == old(tcbs) + {t} && sems == old(sems) + {join}
    {
      ghost var k := Abs();
      AddSem(join, 0, false);
      NewTcb(t, join);
      AddThreadForm(k, t, join);
    }

    /** `free_sem`: the semaphore is gone. */
    method FreeSem(s: Sem)
      requires Shape() && s != putcSem && s != getcSem
      modifies this`sems, this`userSems
      ensures Shape() && Abs() == DropSem(old(Abs()), s)
      ensures sems == old(sems) - {s} && (old(Agrees(null)) ==> Agrees(null))
    {
      sems := sems - {s};
      userSems := userSems - {s};
      assert ThreadMapOf() == old(ThreadMapOf());
      assert SemMapOf() == old(SemMapOf()) - {s};
    }

    /** `free_tcb` for the thread itself. */
    method FreeTcb()
      requires Shape() && Agrees(current)
      modifies this`tcbs
      ensures Shape() && Abs() == old(Abs()).(threads := old(Abs()).threads - {current})
      ensures tcbs == old(tcbs) - {current}
    {
      tcbs := tcbs - {current};
      assert ThreadMapOf() == old(ThreadMapOf()) - {current};
      assert SemMapOf() == old(SemMapOf());
    }

    /** The end of a thread: joiners are released, its semaphore and its memory freed. */
    method Bury()
      requires Shape() && Agrees(current) && context == current
      requires OwnSem()
      modifies Owned()
      ensures Shape() && Abs() == KernelSpec.Bury(old(Abs()))
      ensures tcbs == old(tcbs) - {current} && sems == old(sems) - {old(current.joinSem)}
    {
      CloseOwn(current.joinSem);
      FreeSem(current.joinSem);
      FreeTcb();
    }

    method CloseOwn(s: Sem)
      requires Shape() && Agrees(current) && s in sems
      modifies Owned()
      ensures Shape() && Agrees(current) && Abs() == CloseSem(old(Abs()), s)
      ensures context == old(context) && tcbs == old(tcbs) && sems == old(sems)
      ensures current == old(current) && current.joinSem == old(current.joinSem)
    {
      assert s.suspended in Lists();
      Close(s);
      assert Abs().threads[current] == View(current);
    }

    // ---------- system calls ----------

    /** `thread_create`, in memory that the kernel does not use yet. */
    method HandleThreadCreate(t: TCB, join: Sem)
      requires Valid() && Enabled(Abs(), KernelSpec.CreateThread(t, join)) && Unused(join)
      modifies Owned(), t, join, join.suspended
      ensures Valid() && Abs() == Step(old(Abs()), KernelSpec.CreateThread(t, join))
      ensures tcbs == old(tcbs) + {t} && sems == old(sems) + {join}
      ensures Owned() <= old(Owned()) + {t, join, join.suspended}
    {
      StepInv(Abs(), KernelSpec.CreateThread(t, join));
      ServeCreate(t, join);
      OwnedGrows(t, join);
    }

    twostate lemma OwnedGrows(t: TCB, new s: Sem)
      requires tcbs <= old(tcbs) + {t} && sems <= old(sems) + {s}
      ensures Owned() <= old(Owned()) + {t, s, s.suspended}
    {
    }

    twostate lemma OwnedGrowsBySem(s: Sem)
      requires tcbs <= old(tcbs) && sems <= old(sems) + {s}
      ensures Owned() <= old(Owned()) + {s, s.suspended}
    {
    }

    method ServeCreate(t: TCB, join: Sem)
      requires Valid() && t !in tcbs && Unused(join)
      modifies Owned(), t, join, join.suspended
      ensures Shape() && Abs() == Created(old(Abs()), t, join) && context == current
      ensures tcbs == old(tcbs) + {t} && sems == old(sems) + {join}
    {
      AgreesWhenPlaced(current);
      CreateCall(t, join);
    }

    method CreateCall(t: TCB, join: Sem)
      requires Shape() && Agrees(null) && context == current && current in tcbs && t !in tcbs && Unused(join)
      modifies Owned(), t, join, join.suspended
      ensures Shape() && Abs() == Created(old(Abs()), t, join) && context == current
      ensures tcbs == old(tcbs) + {t} && sems == old(sems) + {join}
    {
      SetA0(FAILED_SYSCALL);
      CreateAndReport(t, join);
    }

    method CreateAndReport(t: TCB, join: Sem)
      requires Shape() && Agrees(null) && context == current && current in tcbs && t !in tcbs && Unused(join)
      modifies Owned(), t, join, join.suspended
      ensures Shape() && Abs() == KernelSpec.SetA0(AddThread(old(Abs()), t, join), SUCCESS_SYSCALL)
      ensures context == current && tcbs == old(tcbs) + {t} && sems == old(sems) + {join}
    {
      CreateThread(t, join);
      OwnedGrows(t, join);
      SetA0(SUCCESS_SYSCALL);
    }

    /** The other calls that create nothing: `k_handle_ecall`. */
    method HandleEcall(e: Event)
      requires Valid() && IsCall(e) && !e.CreateThread? && !e.SemOpen? && Enabled(Abs(), e)
      requires e.TimeSleep? ==> e.n < TWO_TO_THE_64
      modifies Owned()
      ensures Valid() && Abs() == Step(old(Abs()), e)
      ensures tcbs <= old(tcbs) && sems <= old(sems) && Owned() <= old(Owned())
    {
      StepInv(Abs(), e);
      CallStart(Abs(), e);
      SetA0(FAILED_SYSCALL);
      Serve(e);
      OwnedShrinks();
    }

    /** The switch over the call codes. */
    method Serve(e: Event)
      requires Valid() && IsCall(e) && !e.CreateThread? && !e.SemOpen? && Enabled(Abs(), e)
      requires e.TimeSleep? ==> e.n < TWO_TO_THE_64
      modifies Owned()
      ensures Shape() && Abs() == Call(old(Abs()), e) && context == current
      ensures tcbs <= old(tcbs) && sems <= old(sems)
    {
      match e
      case ThreadExit => ServeThread(e);
      case ThreadDispatch => ServeThread(e);
      case ThreadJoin(_) => ServeThread(e);
      case SemClose(_) => ServeSem(e);
      case SemWait(_) => ServeSem(e);
      case SemSignal(_) => ServeSem(e);
      case TimeSleep(_) => ServeThread(e);
      case GetC => WaitThen(getcSem, ThenGetc);
      case PutC(c) => ServePutc(c);
      case OtherCall(r) => SetA0(r);
    }

    method ServeThread(e: Event)
      requires Valid() && (e.ThreadExit? || e.ThreadDispatch? || e.ThreadJoin? || e.TimeSleep?) && Enabled(Abs(), e)
      requires e.TimeSleep? ==> e.n < TWO_TO_THE_64
      modifies Owned()
      ensures Shape() && Abs() == Call(old(Abs()), e) && context == current
      ensures tcbs <= old(tcbs) && sems <= old(sems)
    {
      match e
      case ThreadExit => ServeExit();
      case ThreadDispatch => Preempt();
      case ThreadJoin(t) => ServeJoin(t);
      case TimeSleep(n) => if n > 0 { ServeSleep(n); }
    }

    method ServeSem(e: Event)
      requires Valid() && (e.SemClose? || e.SemWait? || e.SemSignal?) && Enabled(Abs(), e)
      modifies Owned()
      ensures Shape() && Abs() == Call(old(Abs()), e) && context == current
      ensures tcbs <= old(tcbs) && sems <= old(sems)
    {
      match e
      case SemClose(s) => ServeClose(s);
      case SemWait(s) => ServeWait(s);
      case SemSignal(s) => ServeSignal(s);
    }

    method ServeClose(s: Sem?)
      requires Valid() && Enabled(Abs(), SemClose(s))
      modifies Owned()
      ensures Shape() && Abs() == Call(old(Abs()), SemClose(s)) && context == current
      ensures tcbs <= old(tcbs) && sems <= old(sems)
    {
      CloseIs(Abs(), s);
      if s != null {
        AgreesWhenPlaced(current);
        CloseUser(s);
      }
    }

    method CloseUser(s: Sem)
      requires Shape() && Agrees(null) && context == current && current in tcbs
      requires s in sems && s != putcSem && s != getcSem
      modifies Owned()
      ensures Shape() && context == current
      ensures Abs() == CloseCall(old(Abs()), s)
      ensures tcbs <= old(tcbs) && sems <= old(sems)
    {
      Close(s);
      FreeSem(s);
      SetA0(SUCCESS_SYSCALL);
    }

    method ServeWait(s: Sem?)
      requires Valid() && Enabled(Abs(), SemWait(s))
      modifies Owned()
      ensures Shape() && Abs() == Call(old(Abs()), SemWait(s)) && context == current
      ensures tcbs <= old(tcbs) && sems <= old(sems)
    {
      WaitIs(Abs(), s);
      if s != null {
        WaitThen(s, AfterSemWait);
      }
    }

    method ServeSignal(s: Sem?)
      requires Valid() && Enabled(Abs(), SemSignal(s))
      modifies Owned()
      ensures Shape() && Abs() == Call(old(Abs()), SemSignal(s)) && context == current
      ensures tcbs <= old(tcbs) && sems <= old(sems)
    {
      SignalIs(Abs(), s);
      if s != null {
        AgreesWhenPlaced(current);
        Signal(s);
        SetA0(SUCCESS_SYSCALL);
      }
    }

    method ServePutc(c: char)
      requires Valid() && current != flushTcb
      modifies Owned()
      ensures Shape() && context == current
      ensures Abs() == Putc(old(Abs()), c)
      ensures tcbs <= old(tcbs) && sems <= old(sems)
    {
      PutcCall(Abs(), c);
      NotePutc(c);
      WaitThen(putcSem, ThenPutc(c));
    }

    ghost method NotePutc(c: char)
      requires Valid()
      modifies this`log
      ensures Valid() && Abs() == NoteCall(old(Abs()), c)
    {
      NoteCallCore(Abs(), c);
      SetLog(log.(calls := log.calls + [(current, c)]));
    }

    method ServeJoin(t: TCB?)
      requires Valid() && current != flushTcb && (t == null || t in Abs().threads)
      modifies Owned()
      ensures Shape() && context == current
      ensures Abs() == Join(old(Abs()), t)
      ensures tcbs <= old(tcbs) && sems <= old(sems)
    {
      if t != null && t.joinSem != null {
        assert Abs().threads[t] == View(t);
        JoinKind(Abs(), t);
        WaitThen(t.joinSem, AfterJoin);
      }
    }

    method ServeSleep(n: nat)
      requires Valid() && current != flushTcb && 0 < n < TWO_TO_THE_64
      modifies Owned()
      ensures Shape() && context == current
      ensures Abs() == GoToSleep(old(Abs()), n)
      ensures tcbs <= old(tcbs) && sems <= old(sems)
    {
      SetA0Core(Abs(), SUCCESS_SYSCALL);
      SleepCore(KernelSpec.SetA0(Abs(), SUCCESS_SYSCALL), n);
      AgreesWhenPlaced(current);
      LieDown(n);
      Dispatch();
    }

    method LieDown(n: nat)
      requires Shape() && Agrees(current) && context == current && 1 <= n < TWO_TO_THE_64
      modifies Owned()
      ensures Shape() && context == current && current in tcbs && current.status == SUSPENDED
      ensures Abs() == KernelSpec.FallAsleep(KernelSpec.SetA0(old(Abs()), SUCCESS_SYSCALL), n)
      ensures tcbs == old(tcbs) && sems == old(sems)
    {
      SleepThenA0(Abs(), n, SUCCESS_SYSCALL);
      FallAsleep(n);
      SetA0(SUCCESS_SYSCALL);
      assert Abs().threads[current] == View(current);
    }

    method ServeExit()
      requires Valid() && current != flushTcb
      modifies Owned()
      ensures Shape() && context == current
      ensures Abs() == Exit(old(Abs()))
      ensures tcbs <= old(tcbs) && sems <= old(sems)
    {
      if current != mainTcb {
        ExitFacts(Abs());
        AgreesWhenPlaced(current);
        assert Abs().threads[current] == View(current);
        EndCurrent();
        Dispatch();
      }
    }

    method EndCurrent()
      requires Shape() && Agrees(current) && context == current && OwnSem()
      modifies Owned()
      ensures Shape() && Agrees(current) && context == current && OwnSem() && current.status == TERMINATING
      ensures Abs() == Ended(old(Abs()))
      ensures tcbs == old(tcbs) && sems == old(sems)
    {
      MarkEnded();
    }

    method MarkEnded()
      requires Shape() && Agrees(current) && context == current
      modifies current`status, current`a0
      ensures Shape() && Agrees(current) && current.status == TERMINATING
      ensures Abs() == Ended(old(Abs()))
    {
      WriteEnded();
      EndedAbs();
    }

    method WriteEnded()
      requires Shape() && Agrees(current) && context == current
      modifies current`status, current`a0
      ensures Shape() && Agrees(current) && sleepQueue.Sleepers() == old(sleepQueue.Sleepers())
      ensures View(current) == old(View(current)).(status := TERMINATING, a0 := SUCCESS_SYSCALL)
    {
      current.status := TERMINATING;
      context.a0 := SUCCESS_SYSCALL;
      ShapeKept();
    }

    twostate lemma EndedAbs()
      requires old(Shape()) && Shape() && OnlyThreads() && sems == old(sems) && tcbs == old(tcbs) && current in tcbs
      requires OthersKept(current) && SemMapOf() == old(SemMapOf())
      requires scheduler.queue.elems == old(scheduler.queue.elems)
      requires View(current) == old(View(current)).(status := TERMINATING, a0 := SUCCESS_SYSCALL)
      ensures Abs() == Ended(old(Abs()))
    {
      ThreadUpdated(current);
      AbsChanged();
    }

    /** `sem_open`, in memory that the kernel does not use yet. */
    method HandleSemOpen(s: Sem, init: nat)
      requires Valid() && Enabled(Abs(), SemOpen(s, init)) && Unused(s)
      modifies Owned(), s, s.suspended
      ensures Valid() && Abs() == Step(old(Abs()), SemOpen(s, init))
      ensures tcbs == old(tcbs) && sems == old(sems) + {s} && Owned() <= old(Owned()) + {s, s.suspended}
    {
      StepInv(Abs(), SemOpen(s, init));
      ServeOpen(s, init);
      OwnedGrowsBySem(s);
    }

    method ServeOpen(s: Sem, init: nat)
      requires Valid() && Unused(s)
      modifies Owned(), s, s.suspended
      ensures Shape() && Abs() == Opened(old(Abs()), s, init) && context == current
      ensures tcbs == old(tcbs) && sems == old(sems) + {s}
    {
      AgreesWhenPlaced(current);
      OpenCall(s, init);
    }

    method OpenCall(s: Sem, init: nat)
      requires Shape() && Agrees(null) && context == current && current in tcbs && Unused(s)
      modifies Owned(), s, s.suspended
      ensures Shape() && Abs() == Opened(old(Abs()), s, init) && context == current
      ensures tcbs == old(tcbs) && sems == old(sems) + {s}
    {
      SetA0(FAILED_SYSCALL);
      OpenSem(s, init);
      OwnedGrowsBySem(s);
      SetA0(SUCCESS_SYSCALL);
    }

    method OpenSem(s: Sem, init: nat)
      requires Shape() && Agrees(null) && Unused(s)
      modifies Owned(), s, s.suspended
      ensures Shape() && Abs() == KernelSteps.AddSem(old(Abs()), s, init)
      ensures context == old(context) && tcbs == old(tcbs) && sems == old(sems) + {s}
    {
      AddSem(s, init, true);
    }
  }
}
