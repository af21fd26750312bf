/** The console never loses or invents a character. */
module KernelConsole {
  import opened Threads
  import opened SleepSpec
  import opened SemSpec
  import opened KernelSpec
  import opened KernelPlaces
  import opened KernelSteps
  import opened KernelRuns

  function Chars(entries: seq<(TCB, char)>): seq<char> {
    seq(|entries|, i requires 0 <= i < |entries| => entries[i].1)
  }

  function Max0(x: int): nat {
    if x > 0 then x else 0
  }

  /** Woken from a console semaphore and not yet resumed. */
  predicate IsWoken(th: Thread, putc: bool) {
    if putc then th.cont.ThenPutc? else th.cont.ThenGetc?
  }

  function Woken(threads: ThreadMap, q: seq<TCB>, putc: bool): nat {
    if q == [] then 0
    else
      var first := if q[0] in threads && IsWoken(threads[q[0]], putc) then 1 else 0;
      first + Woken(threads, q[1..], putc)
  }

  /** Every slot of the output ring is a permit, a character, or promised to a woken thread; every
      character of the input ring is a permit or promised to a woken thread.  In the middle of a
      step `dp` slots and `dg` characters are in the hands of the running handler. */
  predicate RingsOff(k: KState, dp: int, dg: int) {
    && k.putcSem in k.sems && k.getcSem in k.sems
    && Max0(k.sems[k.putcSem].value) + |k.putcBuf| + Woken(k.threads, k.ready, true) + dp == IO_BUFFER_SIZE
    && |k.getcBuf| == Max0(k.sems[k.getcSem].value) + Woken(k.threads, k.ready, false) + dg
    && |k.getcBuf| <= IO_BUFFER_SIZE
  }

  /** What was sent and what is still in the ring are the completed `putc` calls, in order; what
      was handed out and what is still in the ring are the accepted characters, in order. */
  predicate Conserved(k: KState) {
    && Chars(k.log.puts) == k.log.tx + k.putcBuf
    && k.log.rx == Chars(k.log.gets) + k.getcBuf
  }

  ghost predicate Console(k: KState) {
    RingsOff(k, 0, 0) && Conserved(k)
  }

  // ---------- counting woken threads ----------

  lemma {:induction false} WokenConcat(threads: ThreadMap, q: seq<TCB>, ts: seq<TCB>, putc: bool)
    ensures Woken(threads, q + ts, putc) == Woken(threads, q, putc) + Woken(threads, ts, putc)
  {
    if q == [] {
      assert q + ts == ts;
    } else {
      assert (q + ts)[0] == q[0] && (q + ts)[1..] == q[1..] + ts;
      WokenConcat(threads, q[1..], ts, putc);
    }
  }

  /** The count depends only on the continuations of the listed threads. */
  lemma {:induction false} WokenSame(before: ThreadMap, after: ThreadMap, q: seq<TCB>, putc: bool)
    requires forall t :: t in q ==> t in before && t in after && after[t].cont == before[t].cont
    ensures Woken(after, q, putc) == Woken(before, q, putc)
  {
    if q != [] {
      assert q[0] in q;
      WokenSame(before, after, q[1..], putc);
    }
  }

  lemma {:induction false} NoneWoken(threads: ThreadMap, q: seq<TCB>, putc: bool)
    requires forall t :: t in q ==> t in threads && !IsWoken(threads[t], putc)
    ensures Woken(threads, q, putc) == 0
  {
    if q != [] {
      assert q[0] in q;
      NoneWoken(threads, q[1..], putc);
    }
  }

  /** The ready queue and what its threads will do next are as before. */
  ghost predicate SameReady(k: KState, k': KState) {
    && k'.ready == k.ready
    && forall t :: t in k.ready ==> t in k.threads && t in k'.threads && k'.threads[t].cont == k.threads[t].cont
  }

  lemma ReadySame(k: KState, k': KState, dp: int, dg: int)
    requires RingsOff(k, dp, dg) && SameReady(k, k')
    requires k'.putcSem == k.putcSem && k'.getcSem == k.getcSem
    requires k.putcSem in k'.sems && k'.sems[k.putcSem].value == k.sems[k.putcSem].value
    requires k.getcSem in k'.sems && k'.sems[k.getcSem].value == k.sems[k.getcSem].value
    requires k'.putcBuf == k.putcBuf && k'.getcBuf == k.getcBuf
    ensures RingsOff(k', dp, dg)
  {
    WokenSame(k.threads, k'.threads, k.ready, true);
    WokenSame(k.threads, k'.threads, k.ready, false);
  }

  lemma ReadyListed(k: KState, c: TCB?)
    requires Placed(k, c)
    ensures forall t :: t in k.ready ==> t in k.threads && k.threads[t].place == InReady
  {
  }

  // ---------- the parts of a step ----------

  lemma SetA0Rings(k: KState, v: int, dp: int, dg: int)
    requires Core(k, k.current) && RingsOff(k, dp, dg)
    ensures k.current in k.threads && RingsOff(SetA0(k, v), dp, dg)
  {
    CurrentLives(k);
    ReadyListed(k, k.current);
    ReadySame(k, SetA0(k, v), dp, dg);
  }

  lemma GiveUpRings(k: KState, dp: int, dg: int)
    requires Core(k, k.current) && RingsOff(k, dp, dg)
    ensures k.current in k.threads && RingsOff(GiveUp(k), dp, dg)
  {
    CurrentLives(k);
    ReadyListed(k, k.current);
    var k' := GiveUp(k);
    AppendRings(k, k', [k.current], true);
    AppendRings(k, k', [k.current], false);
    NoneWoken(k'.threads, [k.current], true);
    NoneWoken(k'.threads, [k.current], false);
  }

  lemma AppendRings(k: KState, k': KState, ts: seq<TCB>, putc: bool)
    requires k'.ready == k.ready + ts
    requires forall t :: t in k.ready ==> t in k.threads && t in k'.threads && k'.threads[t].cont == k.threads[t].cont
    ensures Woken(k'.threads, k'.ready, putc) == Woken(k.threads, k.ready, putc) + Woken(k'.threads, ts, putc)
  {
    WokenConcat(k'.threads, k.ready, ts, putc);
    WokenSame(k.threads, k'.threads, k.ready, putc);
  }

  /** A granted wait on a console semaphore takes a slot or a character into the handler's hands. */
  lemma StartWaitRings(k: KState, s: Sem, cont: Continuation)
    requires Core(k, k.current) && RingsOff(k, 0, 0) && s in k.sems
    ensures k.current in k.threads
    ensures var granted := !Blocks(k.sems[s]);
      RingsOff(StartWait(k, s, cont), if granted && s == k.putcSem then 1 else 0,
                                      if granted && s == k.getcSem then 1 else 0)
  {
    CurrentLives(k);
    ReadyListed(k, k.current);
    var k' := StartWait(k, s, cont);
    WokenSame(k.threads, k'.threads, k.ready, true);
    WokenSame(k.threads, k'.threads, k.ready, false);
  }

  lemma PutCharRings(k: KState, c: char)
    requires Core(k, k.current) && RingsOff(k, 1, 0) && Conserved(k)
    ensures Console(PutChar(k, c))
  {
    var entry := (k.current, c);
    assert Chars(k.log.puts + [entry]) == Chars(k.log.puts) + [c];
  }

  lemma GetCharRings(k: KState)
    requires Core(k, k.current) && RingsOff(k, 0, 1) && Conserved(k)
    ensures k.current in k.threads && k.getcBuf != [] && Console(GetChar(k))
  {
    CurrentLives(k);
    ReadyListed(k, k.current);
    GetCharConserved(k);
    WokenSame(k.threads, GetChar(k).threads, k.ready, true);
    WokenSame(k.threads, GetChar(k).threads, k.ready, false);
  }

  lemma GetCharConserved(k: KState)
    requires k.current in k.threads && k.getcBuf != [] && Conserved(k)
    ensures Conserved(GetChar(k))
  {
    var c := RingFirst(k.getcBuf);
    assert Chars(k.log.gets + [(k.current, c)]) == Chars(k.log.gets) + [c];
    assert k.getcBuf == [c] + RingRest(k.getcBuf);
  }

  /** Taking a woken thread puts the slot or character it was promised into its hands. */
  lemma TakeRings(k: KState)
    requires Core(k, null) && RingsOff(k, 0, 0) && k.ready != [] && k.ready[0] in k.threads
    ensures var th := k.threads[k.ready[0]];
      RingsOff(Take(k), if th.cont.ThenPutc? then 1 else 0, if th.cont.ThenGetc? then 1 else 0)
  {
    ReadyListed(k, null);
    var k' := Take(k);
    assert k.ready == [k.ready[0]] + k'.ready;
    assert forall t :: t in k'.ready ==> t in k.ready;
    WokenSame(k.threads, k'.threads, k'.ready, true);
    WokenSame(k.threads, k'.threads, k'.ready, false);
  }

  lemma ResumeRings(k: KState)
    requires Core(k, k.current) && k.current in k.threads && Conserved(k)
    requires var th := k.threads[k.current];
      RingsOff(k, if th.cont.ThenPutc? then 1 else 0, if th.cont.ThenGetc? then 1 else 0)
    ensures Console(Resume(k))
  {
    match k.threads[k.current].cont
    case ThenPutc(c) =>
      PutCharRings(k, c);
      TicksRings(PutChar(k, c), 0);
    case ThenGetc =>
      GetCharRings(k);
      TicksRings(GetChar(k), 0);
    case AfterSemWait =>
      var v := if k.threads[k.current].interrupted then WAIT_FAIL else WAIT_SUCCESS;
      SetA0Rings(k, v, 0, 0);
      TicksRings(SetA0(k, v), 0);
    case Fresh =>
    case _ => TicksRings(k, 0);
  }

  lemma TicksRings(k: KState, ticks: nat)
    requires Console(k)
    ensures Console(k.(ticks := ticks))
  {
  }

  lemma NextConsole(k: KState)
    requires Core(k, null) && Console(k)
    ensures Console(Next(k))
  {
    TakeCore(k);
    TakeRings(k);
    var th := k.threads[k.ready[0]];
    assert Take(k).threads[Take(k).current].cont == th.cont;
    ResumeRings(Take(k));
  }

  lemma WaitCallConsole(k: KState, s: Sem, cont: Continuation)
    requires Core(k, k.current) && k.current != k.flushTcb && WaitKind(k, s, cont) && Console(k)
    ensures Console(WaitCall(k, s, cont))
  {
    StartWaitCore(k, s, cont);
    StartWaitRings(k, s, cont);
    if Blocks(k.sems[s]) {
      NextConsole(StartWait(k, s, cont));
    } else {
      GrantConsole(k, s, cont);
    }
  }

  lemma GrantConsole(k: KState, s: Sem, cont: Continuation)
    requires Core(k, k.current) && k.current != k.flushTcb && WaitKind(k, s, cont) && Console(k)
    requires !Blocks(k.sems[s])
    ensures k.current in k.threads && Console(AfterGrant(StartWait(k, s, cont), cont))
  {
    StartWaitCore(k, s, cont);
    StartWaitRings(k, s, cont);
    var k1 := StartWait(k, s, cont);
    match cont
    case ThenPutc(c) => PutCharRings(k1, c);
    case ThenGetc => GetCharRings(k1);
    case AfterSemWait => SetA0Rings(k1, WAIT_SUCCESS, 0, 0);
    case _ =>
  }

  // ---------- waking ----------

  /** Waking threads that wait for something else leaves the counts alone. */
  lemma AwakenRings(k: KState, k': KState, c: TCB?, ts: seq<TCB>, p: Place, mark: bool, interrupted: bool)
    requires Core(k, c) && Wakes(k, k', ts, p, mark, interrupted)
    ensures Woken(k'.threads, k'.ready, true)
         == Woken(k.threads, k.ready, true) + if p == WaitingOn(k.putcSem) then |ts| else 0
    ensures Woken(k'.threads, k'.ready, false)
         == Woken(k.threads, k.ready, false) + if p == WaitingOn(k.getcSem) then |ts| else 0
  {
    ReadyListed(k, c);
    AwakenRing(k, k', ts, p, mark, interrupted, true);
    AwakenRing(k, k', ts, p, mark, interrupted, false);
  }

  function RingSem(k: KState, putc: bool): Sem {
    if putc then k.putcSem else k.getcSem
  }

  lemma AwakenRing(k: KState, k': KState, ts: seq<TCB>, p: Place, mark: bool, interrupted: bool, putc: bool)
    requires Wakes(k, k', ts, p, mark, interrupted) && ContsFit(k) && k.putcSem != k.getcSem
    requires forall t :: t in k.ready ==> t in k.threads && k.threads[t].place == InReady
    requires k.putcSem !in k.userSems && k.getcSem !in k.userSems
    ensures Woken(k'.threads, k'.ready, putc)
         == Woken(k.threads, k.ready, putc) + if p == WaitingOn(RingSem(k, putc)) then |ts| else 0
  {
    AppendRings(k, k', ts, putc);
    forall t | t in ts
      ensures t in k'.threads && (IsWoken(k'.threads[t], putc) <==> p == WaitingOn(RingSem(k, putc)))
    {
      assert ContFits(k.putcSem, k.getcSem, k.userSems, k.threads[t]);
    }
    WokenAllOrNone(k'.threads, ts, putc);
  }

  lemma {:induction false} WokenAllOrNone(threads: ThreadMap, ts: seq<TCB>, putc: bool)
    requires forall t :: t in ts ==> t in threads
    ensures (forall t :: t in ts ==> IsWoken(threads[t], putc)) ==> Woken(threads, ts, putc) == |ts|
    ensures (forall t :: t in ts ==> !IsWoken(threads[t], putc)) ==> Woken(threads, ts, putc) == 0
  {
    if ts != [] {
      assert ts[0] in ts;
      WokenAllOrNone(threads, ts[1..], putc);
    }
  }

  lemma SignalRings(k: KState, s: Sem, dp: int, dg: int, c: TCB?)
    requires Core(k, c) && RingsOff(k, dp, dg) && s in k.sems
    ensures RingsOff(SignalSem(k, s), if s == k.putcSem then dp - 1 else dp, if s == k.getcSem then dg - 1 else dg)
  {
    SignalWakes(k, s, c);
    SignalConsistent(k.sems[s]);
    AwakenRings(k, SignalSem(k, s), c, Released(k.sems[s]), WaitingOn(s), true, false);
  }

  lemma CloseRings(k: KState, s: Sem, c: TCB?)
    requires Core(k, c) && Console(k) && s in k.sems && s != k.putcSem && s != k.getcSem
    ensures Console(DropSem(CloseSem(k, s), s))
  {
    CloseWakes(k, s, c);
    AwakenRings(k, CloseSem(k, s), c, k.sems[s].waiters, WaitingOn(s), true, true);
  }

  lemma TickRings(k: KState, c: TCB?)
    requires Core(k, c) && Console(k)
    ensures Console(TickSleepers(k))
  {
    TickMoves(k, c);
    AwakenRings(k, TickSleepers(k), c, Due(k.sleepers, k.now + 1), Asleep, false, false);
  }

  // ---------- the other parts ----------

  lemma SleepRings(k: KState, n: nat)
    requires Core(k, k.current) && Console(k)
    ensures k.current in k.threads && Console(FallAsleep(k, n))
  {
    CurrentLives(k);
    ReadyListed(k, k.current);
    ReadySame(k, FallAsleep(k, n), 0, 0);
  }

  lemma BuryRings(k: KState)
    requires Core(k, k.current) && Console(k) && k.current != k.mainTcb
    ensures k.current in k.threads && Console(Bury(k))
  {
    CurrentLives(k);
    var s := k.threads[k.current].joinSem;
    assert IsInternal(k, s);
    CloseRings(k, s, k.current);
    ClosePlaced(k, s);
    ReadyListed(CloseSem(k, s), k.current);
    CurrentLives(CloseSem(k, s));
    ReadySame(DropSem(CloseSem(k, s), s), Bury(k), 0, 0);
  }

  lemma AddThreadRings(k: KState, t: TCB, s: Sem)
    requires Core(k, k.current) && Console(k) && t !in k.threads && s !in k.sems
    ensures Console(AddThread(k, t, s))
  {
    ReadyListed(k, k.current);
    var k' := AddThread(k, t, s);
    AppendRings(k, k', [t], true);
    AppendRings(k, k', [t], false);
    NoneWoken(k'.threads, [t], true);
    NoneWoken(k'.threads, [t], false);
  }

  lemma AddSemRings(k: KState, s: Sem, init: nat)
    requires Core(k, k.current) && Console(k) && s !in k.sems
    ensures Console(AddSem(k, s, init))
  {
    ReadyListed(k, k.current);
    ReadySame(k, AddSem(k, s, init), 0, 0);
  }

  lemma SendFirstRings(k: KState)
    requires Inv(k) && Console(k) && k.putcBuf != []
    ensures Inv(SendFirst(k)) && RingsOff(SendFirst(k), 1, 0) && Conserved(SendFirst(k))
  {
    CurrentLives(k);
    QuietCore(k, SendFirst(k));
    SendFirstConserved(k);
  }

  lemma SendFirstConserved(k: KState)
    requires Conserved(k) && k.putcBuf != []
    ensures Conserved(SendFirst(k))
  {
    assert k.log.tx + k.putcBuf == SendFirst(k).log.tx + SendFirst(k).putcBuf;
  }

  lemma FlushOneConsole(k: KState)
    requires Inv(k) && Console(k) && k.putcBuf != []
    ensures Console(FlushOne(k))
  {
    SendFirstRings(k);
    SignalRings(SendFirst(k), k.putcSem, 1, 0, k.current);
  }

  lemma TakeInputConsole(k: KState, c: char)
    requires Inv(k) && Console(k) && |k.getcBuf| < IO_BUFFER_SIZE
    ensures Console(TakeInput(k, c))
  {
    CurrentLives(k);
    var k1 := k.(getcBuf := RingPut(k.getcBuf, c), log := k.log.(rx := k.log.rx + [c]));
    QuietCore(k, k1);
    assert k1.log.rx == Chars(k.log.gets) + k1.getcBuf;
    SignalRings(k1, k.getcSem, 0, 1, k1.current);
  }

  lemma DispatchConsole(k: KState)
    requires Inv(k) && Console(k)
    ensures Console(DispatchReady(k))
  {
    GiveUpCore(k);
    GiveUpRings(k, 0, 0);
    NextConsole(GiveUp(k));
  }

  lemma ExitConsole(k: KState)
    requires Inv(k) && k.current != k.flushTcb && Console(k)
    ensures Console(Exit(k))
  {
    SetA0Core(k, SUCCESS_SYSCALL);
    SetA0Rings(k, SUCCESS_SYSCALL, 0, 0);
    if k.current != k.mainTcb {
      BuryRings(SetA0(k, SUCCESS_SYSCALL));
      BuryCore(SetA0(k, SUCCESS_SYSCALL));
      NextConsole(Bury(SetA0(k, SUCCESS_SYSCALL)));
    }
  }

  lemma GoToSleepConsole(k: KState, n: nat)
    requires Inv(k) && k.current != k.flushTcb && Console(k)
    ensures Console(GoToSleep(k, n))
  {
    if n > 0 {
      var k1 := SetA0(k, SUCCESS_SYSCALL);
      SetA0Core(k, SUCCESS_SYSCALL);
      SetA0Rings(k, SUCCESS_SYSCALL, 0, 0);
      SleepRings(k1, n);
      SleepCore(k1, n);
      NextConsole(FallAsleep(k1, n));
    }
  }

  lemma CreateConsole(k: KState, t: TCB, s: Sem)
    requires Inv(k) && Console(k) && t !in k.threads && s !in k.sems
    ensures k.current in k.threads && Console(SetA0(AddThread(k, t, s), SUCCESS_SYSCALL))
  {
    CurrentLives(k);
    AddThreadRings(k, t, s);
    AddThreadCore(k, t, s);
    SetA0Rings(AddThread(k, t, s), SUCCESS_SYSCALL, 0, 0);
  }

  lemma OpenConsole(k: KState, s: Sem, init: nat)
    requires Inv(k) && Console(k) && s !in k.sems
    ensures k.current in k.threads && Console(SetA0(AddSem(k, s, init), SUCCESS_SYSCALL))
  {
    CurrentLives(k);
    AddSemRings(k, s, init);
    AddSemCore(k, s, init);
    SetA0Rings(AddSem(k, s, init), SUCCESS_SYSCALL, 0, 0);
  }

  lemma CloseConsole(k: KState, s: Sem)
    requires Inv(k) && Console(k) && s in k.userSems
    ensures k.current in k.threads && Console(SetA0(DropSem(CloseSem(k, s), s), SUCCESS_SYSCALL))
  {
    CurrentLives(k);
    CloseRings(k, s, k.current);
    CloseCore(k, s);
    SetA0Rings(DropSem(CloseSem(k, s), s), SUCCESS_SYSCALL, 0, 0);
  }

  lemma SignalConsole(k: KState, s: Sem)
    requires Inv(k) && Console(k) && s in k.userSems
    ensures k.current in k.threads && Console(SetA0(SignalSem(k, s), SUCCESS_SYSCALL))
  {
    CurrentLives(k);
    SignalRings(k, s, 0, 0, k.current);
    SignalCore(k, s, k.current);
    SetA0Rings(SignalSem(k, s), SUCCESS_SYSCALL, 0, 0);
  }

  lemma CallConsole(k: KState, e: Event)
    requires Inv(k) && IsCall(e) && Enabled(k, e) && Console(k)
    ensures Console(Call(k, e))
  {
    CurrentLives(k);
    match e
    case CreateThread(t, s) => CreateConsole(k, t, s);
    case ThreadExit => ExitConsole(k);
    case ThreadDispatch => DispatchConsole(k);
    case ThreadJoin(t) => JoinConsole(k, t);
    case SemOpen(s, init) => OpenConsole(k, s, init);
    case SemClose(s) => if s != null { CloseConsole(k, s); }
    case SemWait(s) => SemWaitConsole(k, s);
    case SemSignal(s) => if s != null { SignalConsole(k, s); }
    case TimeSleep(n) => GoToSleepConsole(k, n);
    case GetC => GetcConsole(k);
    case PutC(c) => PutcConsole(k, c);
    case OtherCall(r) => SetA0Rings(k, r, 0, 0);
    case _ =>
  }

  lemma JoinConsole(k: KState, t: TCB?)
    requires Inv(k) && Enabled(k, ThreadJoin(t)) && Console(k)
    ensures Console(Call(k, ThreadJoin(t)))
  {
    if t != null && k.threads[t].joinSem != null {
      JoinKind(k, t);
      WaitCallConsole(k, k.threads[t].joinSem, AfterJoin);
    }
  }

  lemma SemWaitConsole(k: KState, s: Sem?)
    requires Inv(k) && Enabled(k, SemWait(s)) && Console(k)
    ensures Console(Call(k, SemWait(s)))
  {
    if s != null { WaitCallConsole(k, s, AfterSemWait); }
  }

  lemma GetcConsole(k: KState)
    requires Inv(k) && k.current != k.flushTcb && Console(k) && k.getcSem in k.sems
    ensures Console(WaitCall(k, k.getcSem, ThenGetc))
  {
    WaitCallConsole(k, k.getcSem, ThenGetc);
  }

  lemma PutcConsole(k: KState, c: char)
    requires Inv(k) && k.current != k.flushTcb && k.current in k.threads && Console(k)
    ensures Console(Putc(k, c))
  {
    NoteCallCore(k, c);
    WaitCallConsole(NoteCall(k, c), k.putcSem, ThenPutc(c));
  }

  lemma TimerConsole(k: KState)
    requires Inv(k) && Console(k)
    ensures Console(OnTimer(k))
  {
    TickRings(k, k.current);
    CountTickCore(k);
    TicksRings(TickSleepers(k), k.ticks + 1);
    if CountTick(k).ticks >= DEFAULT_TIME_SLICE { DispatchConsole(CountTick(k)); }
  }

  lemma InputConsole(k: KState, c: char)
    requires Inv(k) && Console(k)
    ensures Console(OnInput(k, c))
  {
    if |k.getcBuf| < IO_BUFFER_SIZE {
      TakeInputConsole(k, c);
      TakeInputCore(k, c);
      DispatchConsole(TakeInput(k, c));
    }
  }

  lemma OnCallConsole(k: KState, e: Event)
    requires Inv(k) && IsCall(e) && Enabled(k, e) && Console(k)
    ensures Console(OnCall(k, e))
  {
    CallStart(k, e);
    SetA0Rings(k, FAILED_SYSCALL, 0, 0);
    CallConsole(SetA0(k, FAILED_SYSCALL), e);
  }

  /** Every step keeps the console's books: no character is lost or invented. */
  lemma StepConsole(k: KState, e: Event)
    requires Inv(k) && Enabled(k, e) && Console(k)
    ensures Console(Step(k, e))
  {
    match e
    case Timer => TimerConsole(k);
    case ConsoleInput(c) => InputConsole(k, c);
    case Flush => FlushOneConsole(k);
    case _ => OnCallConsole(k, e);
  }

  /** A thread that resumes with a character to put finds a free slot, and one that resumes to
      get a character finds one, whoever overtook it since it was woken. */
  lemma {:induction false} PromisesKept(k: KState, i: nat)
    requires Inv(k) && Console(k) && i < |k.ready|
    ensures k.ready[i] in k.threads
    ensures k.threads[k.ready[i]].cont.ThenPutc? ==> |k.putcBuf| < IO_BUFFER_SIZE
    ensures k.threads[k.ready[i]].cont.ThenGetc? ==> k.getcBuf != []
  {
    ReadyListed(k, k.current);
    assert k.ready[i] in k.ready;
    var front, back := k.ready[..i], k.ready[i..];
    assert k.ready == front + back && back[0] == k.ready[i];
    WokenConcat(k.threads, front, back, true);
    WokenConcat(k.threads, front, back, false);
  }
}
