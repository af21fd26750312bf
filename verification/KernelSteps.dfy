/** The kernel's steps, and the invariant they keep. */
module KernelSteps {
  import opened Threads
  import opened SleepSpec
  import opened SemSpec
  import opened KernelSpec
  import opened Utils
  import opened KernelPlaces

  // ---------- what each part of a step does to the invariant ----------

  /** Same threads with the same join semaphores, same semaphores with the same roles. */
  ghost predicate SameRoles(k: KState, k': KState) {
    && k'.threads.Keys == k.threads.Keys
    && (forall t :: t in k.threads ==> k'.threads[t].joinSem == k.threads[t].joinSem)
    && k'.mainTcb == k.mainTcb && k'.flushTcb == k.flushTcb
    && k'.putcSem == k.putcSem && k'.getcSem == k.getcSem
    && k'.sems.Keys == k.sems.Keys && k'.userSems == k.userSems
  }

  lemma RolesKept(k: KState, k': KState)
    requires Roles(k) && SameRoles(k, k')
    ensures Roles(k')
  {
    forall t | t in k'.threads && t != k'.mainTcb
      ensures k'.threads[t].joinSem != null && IsInternal(k', k'.threads[t].joinSem)
    {
      assert IsInternal(k, k.threads[t].joinSem);
    }
  }

  /** Only thread `t` changed. */
  ghost predicate OnlyThread(k: KState, k': KState, t: TCB) {
    && t in k.threads && SameRoles(k, k')
    && k'.threads == k.threads[t := k'.threads[t]]
  }

  lemma OneThread(k: KState, k': KState, t: TCB)
    requires Roles(k) && FlushRuns(k) && ContsFit(k) && OnlyThread(k, k', t)
    requires ContFits(k.putcSem, k.getcSem, k.userSems, k'.threads[t])
    requires t == k.flushTcb ==> FlushRuns(k')
    ensures Roles(k') && FlushRuns(k') && ContsFit(k')
  {
    RolesKept(k, k');
  }

  lemma CurrentLives(k: KState)
    requires Placed(k, k.current)
    ensures k.current in k.threads && k.threads[k.current].place == Current
  {
    assert k.current in [k.current];
  }

  /** Only the current thread's a0, the rings, the log and the tick count changed. */
  ghost predicate Quiet(k: KState, k': KState) {
    && k'.current == k.current && k'.ready == k.ready && k'.sleepers == k.sleepers && k'.now == k.now
    && k'.sems == k.sems && k'.userSems == k.userSems
    && k'.mainTcb == k.mainTcb && k'.flushTcb == k.flushTcb
    && k'.putcSem == k.putcSem && k'.getcSem == k.getcSem
    && k.current in k.threads && k.current in k'.threads
    && k'.threads == k.threads[k.current := k.threads[k.current].(a0 := k'.threads[k.current].a0)]
  }

  lemma QuietCore(k: KState, k': KState)
    requires Core(k, k.current) && Quiet(k, k')
    ensures Core(k', k.current)
  {
    SamePlaced(k, k', k.current);
    OneThread(k, k', k.current);
  }

  lemma SetA0Core(k: KState, v: int)
    requires Core(k, k.current)
    ensures k.current in k.threads && Core(SetA0(k, v), k.current)
  {
    CurrentLives(k);
    QuietCore(k, SetA0(k, v));
  }

  lemma GiveUpCore(k: KState)
    requires Core(k, k.current)
    ensures k.current in k.threads && Core(GiveUp(k), null)
  {
    CurrentLives(k);
    var k' := GiveUp(k);
    assert k.ready + [] == k.ready && k.ready + [k.current] + [] == k'.ready;
    LeavePlaced(k, k', InReady, k.ready, []);
    OneThread(k, k', k.current);
  }

  /** What a wait may be followed by, on each kind of semaphore. */
  predicate WaitKind(k: KState, s: Sem, cont: Continuation) {
    s in k.sems && ContFits(k.putcSem, k.getcSem, k.userSems, Thread(SUSPENDED, false, cont, 0, null, WaitingOn(s)))
  }

  lemma StartWaitCore(k: KState, s: Sem, cont: Continuation)
    requires Core(k, k.current) && k.current != k.flushTcb && WaitKind(k, s, cont)
    ensures k.current in k.threads
    ensures Core(StartWait(k, s, cont), if Blocks(k.sems[s]) then null else k.current)
  {
    CurrentLives(k);
    StartWaitPlaced(k, s, cont);
    StartWaitRest(k, s, cont);
  }

  lemma StartWaitRest(k: KState, s: Sem, cont: Continuation)
    requires Roles(k) && FlushRuns(k) && ContsFit(k) && SemsOk(k) && SleepOk(k)
    requires k.current in k.threads && k.current != k.flushTcb && WaitKind(k, s, cont)
    ensures var k' := StartWait(k, s, cont);
      Roles(k') && FlushRuns(k') && ContsFit(k') && SemsOk(k') && SleepOk(k')
  {
    WaitConsistent(k.sems[s], k.current);
    OneThread(k, StartWait(k, s, cont), k.current);
  }

  lemma StartWaitPlaced(k: KState, s: Sem, cont: Continuation)
    requires Placed(k, k.current) && k.current in k.threads && s in k.sems
    ensures Placed(StartWait(k, s, cont), if Blocks(k.sems[s]) then null else k.current)
  {
    var k', q := StartWait(k, s, cont), k.sems[s].waiters;
    if Blocks(k.sems[s]) {
      assert q + [] == q && q + [k.current] + [] == k'.sems[s].waiters;
      LeavePlaced(k, k', WaitingOn(s), q, []);
    } else {
      SamePlaced(k, k', k.current);
    }
  }

  /** `ts` move from the front of the queue of place `p` to the end of the ready queue. */
  ghost predicate Wakes(k: KState, k': KState, ts: seq<TCB>, p: Place, mark: bool, interrupted: bool) {
    && (p == Asleep || p.WaitingOn?)
    && (forall t :: t in ts ==> t in k.threads && k.threads[t].place == p)
    && Distinct(ts) && TakenFrom(k, k', ts, p)
    && k'.threads == MakeReady(k, ts, mark, interrupted).threads && k'.ready == k.ready + ts
    && SameRoles(k, k')
  }

  lemma AwakenCore(k: KState, k': KState, c: TCB?, ts: seq<TCB>, p: Place, mark: bool, interrupted: bool)
    requires Core(k, c) && Wakes(k, k', ts, p, mark, interrupted)
    ensures Placed(k', c) && Roles(k') && FlushRuns(k') && ContsFit(k')
  {
    AwakenPlaced(k, k', c, ts, p, mark, interrupted);
    RolesKept(k, k');
    AwakenConts(k, k', ts, p, mark, interrupted);
  }

  lemma AwakenConts(k: KState, k': KState, ts: seq<TCB>, p: Place, mark: bool, interrupted: bool)
    requires FlushRuns(k) && ContsFit(k) && Wakes(k, k', ts, p, mark, interrupted)
    ensures FlushRuns(k') && ContsFit(k')
  {
  }

  lemma SignalCore(k: KState, s: Sem, c: TCB?)
    requires Core(k, c) && s in k.sems
    ensures Core(SignalSem(k, s), c)
  {
    SignalWakes(k, s, c);
    SignalConsistent(k.sems[s]);
    AwakenCore(k, SignalSem(k, s), c, Released(k.sems[s]), WaitingOn(s), true, false);
  }

  lemma SignalWakes(k: KState, s: Sem, c: TCB?)
    requires Placed(k, c) && s in k.sems
    ensures Wakes(k, SignalSem(k, s), Released(k.sems[s]), WaitingOn(s), true, false)
  {
    assert Listed(k.threads, k.sems[s].waiters, WaitingOn(s));
    SignalTakes(k.sems[s]);
    SignalTaken(k, s);
  }

  lemma SignalTakes(sem: SemState<TCB>)
    ensures sem.waiters == Released(sem) + Signal(sem).waiters
    ensures forall t :: t in Released(sem) ==> t in sem.waiters
  {
  }

  lemma SignalTaken(k: KState, s: Sem)
    requires s in k.sems && k.sems[s].waiters == Released(k.sems[s]) + Signal(k.sems[s]).waiters
    ensures TakenFrom(k, SignalSem(k, s), Released(k.sems[s]), WaitingOn(s))
  {
    forall x | x in k.sems && x != s
      ensures k.sems[x].waiters == [] + SignalSem(k, s).sems[x].waiters
    {
    }
  }

  lemma CloseWakes(k: KState, s: Sem, c: TCB?)
    requires Placed(k, c) && s in k.sems
    ensures Wakes(k, CloseSem(k, s), k.sems[s].waiters, WaitingOn(s), true, true)
  {
    assert Listed(k.threads, k.sems[s].waiters, WaitingOn(s));
  }

  lemma ClosePlaced(k: KState, s: Sem)
    requires Core(k, k.current) && s in k.sems
    ensures var k' := CloseSem(k, s);
      Placed(k', k.current) && Roles(k') && FlushRuns(k') && ContsFit(k')
  {
    CloseWakes(k, s, k.current);
    AwakenCore(k, CloseSem(k, s), k.current, k.sems[s].waiters, WaitingOn(s), true, true);
  }

  /** Dropping a closed semaphore that is no thread's join semaphore. */
  lemma CloseCore(k: KState, s: Sem)
    requires Core(k, k.current) && s in k.userSems
    ensures Core(DropSem(CloseSem(k, s), s), k.current)
  {
    var k1, k' := CloseSem(k, s), DropSem(CloseSem(k, s), s);
    ClosePlaced(k, s);
    DropPlaced(k1, k', k.current, s);
    DropRest(k1, s, k.current);
  }

  lemma DropRest(k: KState, s: Sem, c: TCB?)
    requires Placed(k, c) && Roles(k) && FlushRuns(k) && ContsFit(k)
    requires s in k.userSems && k.sems[s].waiters == []
    ensures Roles(DropSem(k, s)) && FlushRuns(DropSem(k, s)) && ContsFit(DropSem(k, s))
  {
    var k' := DropSem(k, s);
    forall t | t in k'.threads && t != k'.mainTcb
      ensures k'.threads[t].joinSem != null && IsInternal(k', k'.threads[t].joinSem)
    {
      assert IsInternal(k, k.threads[t].joinSem);
    }
    DropConts(k, s, c);
  }

  /** Nobody waits on the dropped semaphore, so no continuation depended on what it was. */
  lemma DropConts(k: KState, s: Sem, c: TCB?)
    requires Placed(k, c) && ContsFit(k)
    requires s in k.sems && k.sems[s].waiters == []
    ensures ContsFit(DropSem(k, s))
  {
    assert Listed(k.threads, k.sems[s].waiters, WaitingOn(s));
    forall t | t in k.threads
      ensures ContFits(k.putcSem, k.getcSem, k.userSems - {s}, k.threads[t])
    {
      assert ContFits(k.putcSem, k.getcSem, k.userSems, k.threads[t]);
      assert k.threads[t].place != WaitingOn(s);
    }
  }

  lemma TickCore(k: KState, c: TCB?)
    requires Core(k, c)
    ensures Core(TickSleepers(k), c)
  {
    TickMoves(k, c);
    AwakenCore(k, TickSleepers(k), c, Due(k.sleepers, k.now + 1), Asleep, false, false);
    TickRest(k);
  }

  lemma TickMoves(k: KState, c: TCB?)
    requires Placed(k, c)
    ensures Wakes(k, TickSleepers(k), Due(k.sleepers, k.now + 1), Asleep, false, false)
  {
    var ts, rest := Due(k.sleepers, k.now + 1), NotDue(k.sleepers, k.now + 1);
    DueFront(k.sleepers, k.now + 1);
    DistinctConcat(ts, Names(rest));
    assert forall t :: t in ts ==> t in Names(k.sleepers);
  }

  lemma TickRest(k: KState)
    requires SemsOk(k) && SleepOk(k)
    ensures SemsOk(TickSleepers(k)) && SleepOk(TickSleepers(k))
  {
    TickWakes(k.sleepers, k.now);
  }

  lemma {:induction false} DueFront(sleepers: seq<Sleeper<TCB>>, now: nat)
    ensures Names(sleepers) == Due(sleepers, now) + Names(NotDue(sleepers, now))
  {
    if sleepers != [] && sleepers[0].deadline <= now {
      DueFront(sleepers[1..], now);
      assert Names(sleepers) == [sleepers[0].thread] + Names(sleepers[1..]);
    }
  }

  lemma SleepCore(k: KState, n: nat)
    requires Core(k, k.current) && k.current != k.flushTcb && n >= 1
    ensures k.current in k.threads && Core(FallAsleep(k, n), null)
  {
    CurrentLives(k);
    SleepPlaced(k, n);
    SleepRest(k, n);
  }

  lemma SleepRest(k: KState, n: nat)
    requires Roles(k) && FlushRuns(k) && ContsFit(k) && SemsOk(k) && SleepOk(k)
    requires k.current in k.threads && k.current != k.flushTcb && n >= 1
    ensures var k' := FallAsleep(k, n);
      Roles(k') && FlushRuns(k') && ContsFit(k') && SemsOk(k') && SleepOk(k')
  {
    OneThread(k, FallAsleep(k, n), k.current);
    SleepSorted(k, Sleeper(k.current, k.now + n));
  }

  lemma SleepPlaced(k: KState, n: nat)
    requires Placed(k, k.current) && k.current in k.threads
    ensures Placed(FallAsleep(k, n), null)
  {
    var i := InsertPlace(k.sleepers, Sleeper(k.current, k.now + n));
    var q := Names(k.sleepers);
    assert q[..i] + q[i..] == q;
    LeavePlaced(k, FallAsleep(k, n), Asleep, q[..i], q[i..]);
  }

  lemma SleepSorted(k: KState, x: Sleeper<TCB>)
    requires SleepOk(k) && k.now < x.deadline
    ensures SleepOk(k.(sleepers := Insert(k.sleepers, x)))
  {
    var sleepers := Insert(k.sleepers, x);
    InsertStable(k.sleepers, x, 0);
    forall j | 0 <= j < |sleepers|
      ensures k.now < sleepers[j].deadline
    {
      assert sleepers[j] in sleepers;
    }
  }

  lemma {:induction false} InsertPlace(sleepers: seq<Sleeper<TCB>>, x: Sleeper<TCB>) returns (i: nat)
    ensures i <= |sleepers|
    ensures Names(Insert(sleepers, x)) == Names(sleepers)[..i] + [x.thread] + Names(sleepers)[i..]
  {
    if sleepers == [] || x.deadline < sleepers[0].deadline {
      i := 0;
    } else {
      i := InsertPlace(sleepers[1..], x);
      NamesCons(sleepers[0], sleepers[1..]);
      NamesCons(sleepers[0], Insert(sleepers[1..], x));
      assert sleepers == [sleepers[0]] + sleepers[1..];
      i := i + 1;
    }
  }

  lemma NamesCons(x: Sleeper<TCB>, rest: seq<Sleeper<TCB>>)
    ensures Names([x] + rest) == [x.thread] + Names(rest)
  {
  }

  /** The flush thread is always there to be taken. */
  lemma NextExists(k: KState)
    requires Core(k, null)
    ensures k.ready != [] && k.ready[0] in k.threads
  {
    assert k.flushTcb in k.ready;
    assert k.ready[0] in k.ready;
  }

  lemma TakeCore(k: KState)
    requires Core(k, null)
    ensures k.ready != [] && k.ready[0] in k.threads
    ensures Core(Take(k), Take(k).current)
  {
    NextExists(k);
    TakePlaced(k);
    OneThread(k, Take(k), k.ready[0]);
  }

  lemma ResumeCore(k: KState)
    requires Core(k, k.current)
    ensures k.current in k.threads
    ensures Core(Resume(k), k.current) && Resume(k).current == k.current
  {
    CurrentLives(k);
    ResumeQuiet(k);
    QuietCore(k, Resume(k));
  }

  lemma ResumeQuiet(k: KState)
    requires k.current in k.threads
    ensures Quiet(k, Resume(k))
  {
    match k.threads[k.current].cont
    case ThenGetc => assert Quiet(k, GetChar(k).(ticks := 0));
    case AfterSemWait =>
    case ThenPutc(c) => assert Quiet(k, PutChar(k, c).(ticks := 0));
    case _ =>
  }

  // ---------- threads and semaphores appear and disappear ----------

  function AddThread(k: KState, t: TCB, s: Sem): KState {
    k.(threads := k.threads[t := Thread(READY, false, Fresh, 0, s, InReady)], ready := k.ready + [t],
       sems := k.sems[s := SemState(0, [])])
  }

  lemma AddThreadCore(k: KState, t: TCB, s: Sem)
    requires Core(k, k.current) && t !in k.threads && s !in k.sems
    ensures Core(AddThread(k, t, s), k.current)
  {
    BirthPlaced(k, AddThread(k, t, s), k.current, t, Thread(READY, false, Fresh, 0, s, InReady));
    AddThreadRoles(k, t, s);
  }

  lemma AddThreadRoles(k: KState, t: TCB, s: Sem)
    requires Roles(k) && t !in k.threads && s !in k.sems
    ensures Roles(AddThread(k, t, s))
  {
    var k' := AddThread(k, t, s);
    forall u | u in k'.threads && u != k'.mainTcb
      ensures k'.threads[u].joinSem != null && IsInternal(k', k'.threads[u].joinSem)
      ensures u != t ==> k'.threads[u].joinSem != s
    {
      if u != t { assert IsInternal(k, k.threads[u].joinSem); }
    }
  }

  function AddSem(k: KState, s: Sem, init: nat): KState {
    k.(sems := k.sems[s := SemState(init, [])], userSems := k.userSems + {s})
  }

  lemma AddSemCore(k: KState, s: Sem, init: nat)
    requires Core(k, k.current) && s !in k.sems
    ensures Core(AddSem(k, s, init), k.current)
  {
    var k' := AddSem(k, s, init);
    AddSemPlaced(k, s, init);
    forall t | t in k'.threads && t != k'.mainTcb
      ensures k'.threads[t].joinSem != null && IsInternal(k', k'.threads[t].joinSem)
    {
      assert IsInternal(k, k.threads[t].joinSem);
    }
    assert Roles(k');
  }

  lemma AddSemPlaced(k: KState, s: Sem, init: nat)
    requires Placed(k, k.current) && ContsFit(k) && s !in k.sems
    ensures Placed(AddSem(k, s, init), k.current) && ContsFit(AddSem(k, s, init))
  {
    forall t | t in k.threads
      ensures k.threads[t].place != WaitingOn(s)
      ensures ContFits(k.putcSem, k.getcSem, k.userSems + {s}, k.threads[t])
    {
      assert ContFits(k.putcSem, k.getcSem, k.userSems, k.threads[t]);
    }
  }

  lemma BuryCore(k: KState)
    requires Core(k, k.current) && k.current != k.mainTcb && k.current != k.flushTcb
    ensures k.current in k.threads && Core(Bury(k), null)
  {
    CurrentLives(k);
    var s := k.threads[k.current].joinSem;
    assert IsInternal(k, s);
    var k1 := CloseSem(k, s);
    ClosePlaced(k, s);
    DropPlaced(k1, DropSem(k1, s), k.current, s);
    DeathPlaced(DropSem(k1, s), Bury(k));
    DropConts(k1, s, k.current);
    BuryRest(k, k1, s);
  }

  lemma BuryRest(k: KState, k1: KState, s: Sem)
    requires Roles(k1) && FlushRuns(k1) && SemsOk(k) && SleepOk(k)
    requires k.current in k.threads && s == k.threads[k.current].joinSem && s in k.sems
    requires k1 == CloseSem(k, s) && ContsFit(DropSem(k1, s))
    requires k.current != k.mainTcb && k.current != k.flushTcb
    ensures Roles(Bury(k)) && FlushRuns(Bury(k)) && ContsFit(Bury(k)) && SemsOk(Bury(k)) && SleepOk(Bury(k))
  {
    var k' := Bury(k);
    assert k1.threads[k.current].joinSem == s;
    forall t | t in k'.threads && t != k'.mainTcb
      ensures k'.threads[t].joinSem != null && IsInternal(k', k'.threads[t].joinSem)
    {
      assert IsInternal(k1, k1.threads[t].joinSem);
    }
  }

  // ---------- the step ----------

  /** The context switch after the current thread has been put away. */
  ghost function Next(k: KState): KState
    requires Core(k, null)
  {
    TakeCore(k);
    ResumeCore(Take(k));
    Resume(Take(k))
  }

  lemma NextCore(k: KState)
    requires Core(k, null)
    ensures Core(Next(k), Next(k).current)
  {
    TakeCore(k);
    ResumeCore(Take(k));
  }

  /** `dispatch` by a running thread. */
  ghost function DispatchReady(k: KState): KState
    requires Core(k, k.current)
  {
    GiveUpCore(k);
    Next(GiveUp(k))
  }

  lemma DispatchCore(k: KState)
    requires Core(k, k.current)
    ensures Core(DispatchReady(k), DispatchReady(k).current)
  {
    GiveUpCore(k);
    NextCore(GiveUp(k));
  }

  /** What a thread does when its `wait` returned without blocking. */
  function AfterGrant(k: KState, cont: Continuation): KState
    requires k.current in k.threads
  {
    match cont
    case AfterSemWait => SetA0(k, WAIT_SUCCESS)
    case ThenPutc(c) => PutChar(k, c)
    case ThenGetc => GetChar(k)
    case _ => k
  }

  /** A handler that waits on `s` and goes on with `cont`. */
  ghost function WaitCall(k: KState, s: Sem, cont: Continuation): KState
    requires Core(k, k.current) && k.current != k.flushTcb && WaitKind(k, s, cont)
  {
    StartWaitCore(k, s, cont);
    var k1 := StartWait(k, s, cont);
    if Blocks(k.sems[s]) then Next(k1) else AfterGrant(k1, cont)
  }

  lemma WaitCallCore(k: KState, s: Sem, cont: Continuation)
    requires Core(k, k.current) && k.current != k.flushTcb && WaitKind(k, s, cont)
    ensures Core(WaitCall(k, s, cont), WaitCall(k, s, cont).current)
  {
    StartWaitCore(k, s, cont);
    var k1 := StartWait(k, s, cont);
    if Blocks(k.sems[s]) {
      NextCore(k1);
    } else {
      AfterGrantQuiet(k1, cont);
      QuietCore(k1, AfterGrant(k1, cont));
    }
  }

  lemma AfterGrantQuiet(k: KState, cont: Continuation)
    requires k.current in k.threads
    ensures Quiet(k, AfterGrant(k, cont))
  {
    match cont
    case ThenGetc => assert Quiet(k, GetChar(k));
    case ThenPutc(c) => assert Quiet(k, PutChar(k, c));
    case _ =>
  }
}
