/** What one step does to a thread other than the one that takes it. */
module KernelEffects {
  import opened Threads
  import opened SleepSpec
  import opened SemSpec
  import opened KernelSpec
  import opened KernelPlaces
  import opened KernelSteps
  import opened KernelRuns

  // ---------- a step is a handler, then perhaps a context switch ----------

  predicate WaitSwitches(k: KState, s: Sem?) {
    s != null && s in k.sems && Blocks(k.sems[s])
  }

  function JoinSemOf(k: KState, t: TCB?): Sem? {
    if t != null && t in k.threads then k.threads[t].joinSem else null
  }

  /** Does the handler of `e` end in a context switch? */
  predicate Switches(k: KState, e: Event) {
    match e
    case ThreadExit => k.current != k.mainTcb
    case ThreadDispatch => true
    case ThreadJoin(t) => WaitSwitches(k, JoinSemOf(k, t))
    case SemWait(s) => WaitSwitches(k, s)
    case TimeSleep(n) => n > 0
    case GetC => WaitSwitches(k, k.getcSem)
    case PutC(c) => WaitSwitches(k, k.putcSem)
    case Timer => k.ticks + 1 >= DEFAULT_TIME_SLICE
    case ConsoleInput(c) => |k.getcBuf| < IO_BUFFER_SIZE
    case _ => false
  }

  function HandleWait(k: KState, s: Sem, cont: Continuation): KState
    requires k.current in k.threads && s in k.sems
  {
    var k1 := StartWait(k, s, cont);
    if Blocks(k.sems[s]) then k1 else AfterGrant(k1, cont)
  }

  /** A system call up to its context switch, once a0 holds the failure code. */
  function HandleCall(k: KState, e: Event): KState
    requires k.current in k.threads && k.getcSem in k.sems && k.putcSem in k.sems
    requires IsCall(e) && Enabled(k, e) && k.userSems <= k.sems.Keys
  {
    match e
    case CreateThread(t, s) => SetA0(AddThread(k, t, s), SUCCESS_SYSCALL)
    case ThreadExit => if k.current == k.mainTcb then k else Bury(SetA0(k, SUCCESS_SYSCALL))
    case ThreadDispatch => GiveUp(k)
    case ThreadJoin(t) =>
      if JoinSemOf(k, t) == null || JoinSemOf(k, t) !in k.sems then k else HandleWait(k, JoinSemOf(k, t), AfterJoin)
    case SemOpen(s, init) => SetA0(AddSem(k, s, init), SUCCESS_SYSCALL)
    case SemClose(s) => if s == null then k else SetA0(DropSem(CloseSem(k, s), s), SUCCESS_SYSCALL)
    case SemWait(s) => if s == null then k else HandleWait(k, s, AfterSemWait)
    case SemSignal(s) => if s == null then k else SetA0(SignalSem(k, s), SUCCESS_SYSCALL)
    case TimeSleep(n) => if n == 0 then k else FallAsleep(SetA0(k, SUCCESS_SYSCALL), n)
    case GetC => HandleWait(k, k.getcSem, ThenGetc)
    case PutC(c) => HandleWait(NoteCall(k, c), k.putcSem, ThenPutc(c))
    case OtherCall(r) => SetA0(k, r)
    case _ => k
  }

  lemma CallReady(k: KState, e: Event)
    requires Inv(k) && IsCall(e) && Enabled(k, e)
    ensures k.current in k.threads
    ensures var k1 := SetA0(k, FAILED_SYSCALL);
      && k1.current in k1.threads && k1.getcSem in k1.sems && k1.putcSem in k1.sems
      && Enabled(k1, e) && k1.userSems <= k1.sems.Keys
  {
    CallStart(k, e);
    CurrentLives(SetA0(k, FAILED_SYSCALL));
  }

  /** An interrupt, or a round of the flush loop, up to its context switch. */
  function HandleInterrupt(k: KState, e: Event): KState
    requires k.current in k.threads && k.getcSem in k.sems && k.putcSem in k.sems
    requires !IsCall(e) && Enabled(k, e)
  {
    match e
    case Timer => if Switches(k, e) then GiveUp(CountTick(k)) else CountTick(k)
    case ConsoleInput(c) => if Switches(k, e) then GiveUp(TakeInput(k, c)) else k
    case Flush => FlushOne(k)
  }

  ghost function Handle(k: KState, e: Event): KState
    requires Inv(k) && Enabled(k, e)
  {
    CurrentLives(k);
    if IsCall(e) then
      CallReady(k, e);
      HandleCall(SetA0(k, FAILED_SYSCALL), e)
    else HandleInterrupt(k, e)
  }

  lemma HandledInterrupt(k: KState, e: Event)
    requires Inv(k) && !IsCall(e) && Enabled(k, e)
    ensures k.current in k.threads && k.getcSem in k.sems && k.putcSem in k.sems
    ensures Handle(k, e) == HandleInterrupt(k, e)
  {
    CurrentLives(k);
  }

  lemma HandledCall(k: KState, e: Event)
    requires Inv(k) && IsCall(e) && Enabled(k, e)
    ensures var k1 := SetA0(k, FAILED_SYSCALL);
      && k1.current in k1.threads && k1.getcSem in k1.sems && k1.putcSem in k1.sems
      && Enabled(k1, e) && k1.userSems <= k1.sems.Keys
      && Handle(k, e) == HandleCall(k1, e)
  {
    CallReady(k, e);
  }

  lemma CallIsHandled(k: KState, e: Event)
    requires Inv(k) && IsCall(e) && Enabled(k, e) && k.current in k.threads && k.userSems <= k.sems.Keys
    ensures Switches(k, e) ==> Core(HandleCall(k, e), null) && Call(k, e) == Next(HandleCall(k, e))
    ensures !Switches(k, e) ==> Call(k, e) == HandleCall(k, e) && HandleCall(k, e).current == k.current
  {
    if e.ThreadExit? {
      ExitIsHandled(k);
    } else if e.ThreadDispatch? {
      GiveUpCore(k);
    } else if e.TimeSleep? {
      SleepIsHandled(k, e.n);
    } else if e.ThreadJoin? {
      JoinIsHandled(k, e.target);
    } else if e.PutC? {
      PutcIsHandled(k, e.c);
    } else if e.SemWait? || e.GetC? {
      WaitingIsHandled(k, e);
    }
  }

  lemma WaitingIsHandled(k: KState, e: Event)
    requires Inv(k) && Enabled(k, e) && k.current in k.threads && k.userSems <= k.sems.Keys
    requires e.SemWait? || e.GetC?
    ensures Switches(k, e) ==> Core(HandleCall(k, e), null) && Call(k, e) == Next(HandleCall(k, e))
    ensures !Switches(k, e) ==> Call(k, e) == HandleCall(k, e) && HandleCall(k, e).current == k.current
  {
    if e.GetC? {
      WaitIsHandled(k, k.getcSem, ThenGetc);
    } else if e.sem != null {
      WaitIsHandled(k, e.sem, AfterSemWait);
    }
  }

  lemma JoinIsHandled(k: KState, t: TCB?)
    requires Inv(k) && Enabled(k, ThreadJoin(t)) && k.current in k.threads
    ensures var e := ThreadJoin(t);
      && (Switches(k, e) ==> Core(HandleCall(k, e), null) && Call(k, e) == Next(HandleCall(k, e)))
      && (!Switches(k, e) ==> Call(k, e) == HandleCall(k, e) && HandleCall(k, e).current == k.current)
  {
    if t != null && k.threads[t].joinSem != null {
      JoinKind(k, t);
      WaitIsHandled(k, k.threads[t].joinSem, AfterJoin);
    }
  }

  lemma ExitIsHandled(k: KState)
    requires Inv(k) && k.current != k.flushTcb && k.current in k.threads
    ensures k.current != k.mainTcb ==>
      Core(Bury(SetA0(k, SUCCESS_SYSCALL)), null) && Exit(k) == Next(Bury(SetA0(k, SUCCESS_SYSCALL)))
  {
    SetA0Core(k, SUCCESS_SYSCALL);
    if k.current != k.mainTcb { BuryCore(SetA0(k, SUCCESS_SYSCALL)); }
  }

  lemma SleepIsHandled(k: KState, n: nat)
    requires Inv(k) && k.current != k.flushTcb && k.current in k.threads
    ensures n > 0 ==>
      && Core(FallAsleep(SetA0(k, SUCCESS_SYSCALL), n), null)
      && GoToSleep(k, n) == Next(FallAsleep(SetA0(k, SUCCESS_SYSCALL), n))
  {
    SetA0Core(k, SUCCESS_SYSCALL);
    if n > 0 { SleepCore(SetA0(k, SUCCESS_SYSCALL), n); }
  }

  lemma PutcIsHandled(k: KState, c: char)
    requires Inv(k) && k.current != k.flushTcb && k.current in k.threads && k.putcSem in k.sems
    ensures var h := HandleWait(NoteCall(k, c), k.putcSem, ThenPutc(c));
      && (Blocks(k.sems[k.putcSem]) ==> Core(h, null) && Putc(k, c) == Next(h))
      && (!Blocks(k.sems[k.putcSem]) ==> Putc(k, c) == h && h.current == k.current)
  {
    NoteCallCore(k, c);
    WaitIsHandled(NoteCall(k, c), k.putcSem, ThenPutc(c));
  }

  lemma WaitIsHandled(k: KState, s: Sem, cont: Continuation)
    requires Inv(k) && k.current != k.flushTcb && WaitKind(k, s, cont)
    ensures k.current in k.threads
    ensures Blocks(k.sems[s]) ==>
      Core(HandleWait(k, s, cont), null) && WaitCall(k, s, cont) == Next(HandleWait(k, s, cont))
    ensures !Blocks(k.sems[s]) ==>
      WaitCall(k, s, cont) == HandleWait(k, s, cont) && HandleWait(k, s, cont).current == k.current
  {
    StartWaitCore(k, s, cont);
  }

  lemma OnCallIsHandled(k: KState, e: Event)
    requires Inv(k) && IsCall(e) && Enabled(k, e)
    ensures Switches(k, e) ==> Core(Handle(k, e), null) && OnCall(k, e) == Next(Handle(k, e))
    ensures !Switches(k, e) ==> OnCall(k, e) == Handle(k, e) && Handle(k, e).current == k.current
  {
    CallStart(k, e);
    CallReady(k, e);
    CallIsHandled(SetA0(k, FAILED_SYSCALL), e);
    SwitchesSame(k, e);
  }

  lemma SwitchesSame(k: KState, e: Event)
    requires k.current in k.threads && IsCall(e)
    ensures Switches(SetA0(k, FAILED_SYSCALL), e) <==> Switches(k, e)
  {
  }

  lemma InterruptIsHandled(k: KState, e: Event)
    requires Inv(k) && !IsCall(e) && Enabled(k, e)
    ensures Switches(k, e) ==> Core(Handle(k, e), null) && Step(k, e) == Next(Handle(k, e))
    ensures !Switches(k, e) ==> Step(k, e) == Handle(k, e) && Handle(k, e).current == k.current
  {
    match e
    case Timer =>
      CountTickCore(k);
      if Switches(k, e) { GiveUpCore(CountTick(k)); }
    case ConsoleInput(c) =>
      if Switches(k, e) {
        TakeInputCore(k, c);
        GiveUpCore(TakeInput(k, c));
      }
    case Flush => FlushOneCore(k);
  }

  /** A step is its handler, followed by a context switch exactly when the handler ends in one. */
  lemma StepIsHandled(k: KState, e: Event)
    requires Inv(k) && Enabled(k, e)
    ensures Switches(k, e) ==> Core(Handle(k, e), null) && Step(k, e) == Next(Handle(k, e))
    ensures !Switches(k, e) ==> Step(k, e) == Handle(k, e) && Handle(k, e).current == k.current
  {
    if IsCall(e) {
      OnCallIsHandled(k, e);
    } else {
      InterruptIsHandled(k, e);
    }
  }

  // ---------- effects of a handler ----------

  /** The handler of `e` signals, or closes, semaphore `s`. */
  predicate Signals(k: KState, e: Event, s: Sem) {
    || (e.SemSignal? && e.sem == s)
    || (e.ConsoleInput? && s == k.getcSem)
    || (e.Flush? && s == k.putcSem)
  }

  predicate Closes(k: KState, e: Event, s: Sem) {
    || (e.SemClose? && e.sem == s)
    || (e.ThreadExit? && k.current in k.threads && k.threads[k.current].joinSem == s)
  }

  /** Thread record `th` is as it was, or the thread has been made ready for a reason:
      its semaphore was signalled or closed, or its time came. */
  predicate LeftOrWoken(k: KState, e: Event, th: Thread, th': Thread) {
    || th' == th
    || (th.place.WaitingOn? && Signals(k, e, th.place.sem) && th' == Awaken(th, true, false))
    || (th.place.WaitingOn? && Closes(k, e, th.place.sem) && th' == Awaken(th, true, true))
    || (th.place == Asleep && e.Timer? && th' == Awaken(th, false, false))
  }

  /** Other threads keep their records unless woken, and nobody leaves the ready queue. */
  ghost predicate Effect(k: KState, e: Event, h: KState) {
    && k.ready <= h.ready
    && h.ticks == k.ticks + (if e.Timer? then 1 else 0)
    && (forall t :: t in k.threads && t != k.current ==>
          t in h.threads && LeftOrWoken(k, e, k.threads[t], h.threads[t]))
  }

  /** A part of a handler that touches no thread but the current one. */
  ghost predicate OnlyCurrent(k: KState, h: KState) {
    && k.ready <= h.ready && h.ticks == k.ticks && h.current == k.current
    && (forall t :: t in k.threads && t != k.current ==> t in h.threads && h.threads[t] == k.threads[t])
  }

  lemma EffectThen(k: KState, e: Event, h: KState, h': KState)
    requires Effect(k, e, h) && OnlyCurrent(h, h') && h.current == k.current
    ensures Effect(k, e, h')
  {
  }

  lemma OnlyCurrentEffect(k: KState, e: Event, h: KState)
    requires OnlyCurrent(k, h) && !e.Timer?
    ensures Effect(k, e, h)
  {
  }

  lemma EffectAfter(k: KState, e: Event, k1: KState, h: KState)
    requires OnlyCurrent(k, k1) && Effect(k1, e, h)
    requires forall s :: s in k.sems ==>
      (Signals(k1, e, s) <==> Signals(k, e, s)) && (Closes(k1, e, s) <==> Closes(k, e, s))
    requires forall t :: t in k.threads && k.threads[t].place.WaitingOn? ==> k.threads[t].place.sem in k.sems
    ensures Effect(k, e, h)
  {
    forall t | t in k.threads && t != k.current
      ensures t in h.threads && LeftOrWoken(k, e, k.threads[t], h.threads[t])
    {
      assert LeftOrWoken(k1, e, k1.threads[t], h.threads[t]);
    }
  }

  lemma AwakenEffect(k: KState, e: Event, h: KState, ts: seq<TCB>, p: Place, mark: bool, interrupted: bool)
    requires Wakes(k, h, ts, p, mark, interrupted) && h.ticks == k.ticks && !e.Timer?
    requires p.WaitingOn? && mark && (if interrupted then Closes(k, e, p.sem) else Signals(k, e, p.sem))
    ensures Effect(k, e, h)
  {
  }

  lemma SignalEffect(k: KState, e: Event, s: Sem, c: TCB?)
    requires Placed(k, c) && s in k.sems && Signals(k, e, s)
    ensures Effect(k, e, SignalSem(k, s))
  {
    SignalWakes(k, s, c);
    AwakenEffect(k, e, SignalSem(k, s), Released(k.sems[s]), WaitingOn(s), true, false);
  }

  lemma CloseEffect(k: KState, e: Event, s: Sem)
    requires Placed(k, k.current) && s in k.sems && Closes(k, e, s)
    ensures Effect(k, e, DropSem(CloseSem(k, s), s))
  {
    CloseWakes(k, s, k.current);
    AwakenEffect(k, e, CloseSem(k, s), k.sems[s].waiters, WaitingOn(s), true, true);
    EffectThen(k, e, CloseSem(k, s), DropSem(CloseSem(k, s), s));
  }

  lemma TickEffect(k: KState, e: Event)
    requires Placed(k, k.current) && e.Timer?
    ensures Effect(k, e, CountTick(k))
  {
    TickMoves(k, k.current);
    assert Wakes(k, TickSleepers(k), Due(k.sleepers, k.now + 1), Asleep, false, false);
  }

  lemma GiveUpOnly(k: KState)
    requires k.current in k.threads
    ensures OnlyCurrent(k, GiveUp(k))
  {
  }

  lemma SetA0Only(k: KState, v: int)
    requires k.current in k.threads
    ensures OnlyCurrent(k, SetA0(k, v))
  {
  }

  lemma HandleWaitOnly(k: KState, s: Sem, cont: Continuation)
    requires k.current in k.threads && s in k.sems
    ensures OnlyCurrent(k, HandleWait(k, s, cont))
  {
    var k1 := StartWait(k, s, cont);
    assert OnlyCurrent(k, k1);
    if !Blocks(k.sems[s]) { AfterGrantQuiet(k1, cont); }
  }

  lemma BuryEffect(k: KState, e: Event)
    requires Core(k, k.current) && e.ThreadExit? && k.current != k.mainTcb
    ensures k.current in k.threads && Effect(k, e, Bury(k))
  {
    CurrentLives(k);
    var s := k.threads[k.current].joinSem;
    assert IsInternal(k, s);
    CloseEffect(k, e, s);
  }

  lemma HandleCallEffect(k: KState, e: Event)
    requires Inv(k) && IsCall(e) && Enabled(k, e) && k.current in k.threads && k.userSems <= k.sems.Keys
    ensures Effect(k, e, HandleCall(k, e))
  {
    if e.ThreadExit? {
      if k.current != k.mainTcb { ExitEffect(k, e); }
    } else if e.SemClose? {
      if e.sem != null { CloseCallEffect(k, e, e.sem); }
    } else if e.SemSignal? {
      if e.sem != null { SignalCallEffect(k, e, e.sem); }
    } else {
      HandleCallOnly(k, e);
      OnlyCurrentEffect(k, e, HandleCall(k, e));
    }
  }

  lemma HandleCallOnly(k: KState, e: Event)
    requires Inv(k) && IsCall(e) && Enabled(k, e) && k.current in k.threads && k.userSems <= k.sems.Keys
    requires !e.ThreadExit? && !e.SemClose? && !e.SemSignal?
    ensures OnlyCurrent(k, HandleCall(k, e))
  {
    if e.ThreadDispatch? {
      GiveUpOnly(k);
    } else if e.ThreadJoin? || e.SemWait? || e.GetC? || e.PutC? {
      WaitCallOnly(k, e);
    } else {
      PlainCallOnly(k, e);
    }
  }

  lemma PlainCallOnly(k: KState, e: Event)
    requires Enabled(k, e) && k.current in k.threads && k.getcSem in k.sems && k.putcSem in k.sems
    requires k.userSems <= k.sems.Keys && (e.CreateThread? || e.SemOpen? || e.TimeSleep? || e.OtherCall?)
    ensures OnlyCurrent(k, HandleCall(k, e))
  {
  }

  lemma WaitCallOnly(k: KState, e: Event)
    requires Inv(k) && Enabled(k, e) && k.current in k.threads && k.userSems <= k.sems.Keys
    requires e.ThreadJoin? || e.SemWait? || e.GetC? || e.PutC?
    ensures OnlyCurrent(k, HandleCall(k, e))
  {
    match e
    case ThreadJoin(t) =>
      if JoinSemOf(k, t) != null && JoinSemOf(k, t) in k.sems {
        HandleWaitOnly(k, JoinSemOf(k, t), AfterJoin);
      }
    case SemWait(s) => if s != null { HandleWaitOnly(k, s, AfterSemWait); }
    case GetC => HandleWaitOnly(k, k.getcSem, ThenGetc);
    case PutC(c) => HandleWaitOnly(NoteCall(k, c), k.putcSem, ThenPutc(c));
  }

  lemma ExitEffect(k: KState, e: Event)
    requires Inv(k) && e.ThreadExit? && k.current in k.threads && k.current != k.mainTcb
    ensures Effect(k, e, Bury(SetA0(k, SUCCESS_SYSCALL)))
  {
    var k1 := SetA0(k, SUCCESS_SYSCALL);
    SetA0Core(k, SUCCESS_SYSCALL);
    SetA0Only(k, SUCCESS_SYSCALL);
    BuryEffect(k1, e);
    EffectAfter(k, e, k1, Bury(k1));
  }

  lemma CloseCallEffect(k: KState, e: Event, s: Sem)
    requires Inv(k) && e == SemClose(s) && s in k.sems && k.current in k.threads
    ensures Effect(k, e, SetA0(DropSem(CloseSem(k, s), s), SUCCESS_SYSCALL))
  {
    CloseEffect(k, e, s);
    SetA0Only(DropSem(CloseSem(k, s), s), SUCCESS_SYSCALL);
    EffectThen(k, e, DropSem(CloseSem(k, s), s), SetA0(DropSem(CloseSem(k, s), s), SUCCESS_SYSCALL));
  }

  lemma SignalCallEffect(k: KState, e: Event, s: Sem)
    requires Inv(k) && e == SemSignal(s) && s in k.sems && k.current in k.threads
    ensures Effect(k, e, SetA0(SignalSem(k, s), SUCCESS_SYSCALL))
  {
    SignalEffect(k, e, s, k.current);
    SetA0Only(SignalSem(k, s), SUCCESS_SYSCALL);
    EffectThen(k, e, SignalSem(k, s), SetA0(SignalSem(k, s), SUCCESS_SYSCALL));
  }

  lemma OnCallEffect(k: KState, e: Event)
    requires Inv(k) && IsCall(e) && Enabled(k, e)
    ensures Effect(k, e, Handle(k, e))
  {
    CallStart(k, e);
    CallReady(k, e);
    var k1 := SetA0(k, FAILED_SYSCALL);
    SetA0Only(k, FAILED_SYSCALL);
    HandleCallEffect(k1, e);
    EffectAfter(k, e, k1, HandleCall(k1, e));
  }

  lemma InputEffect(k: KState, c: char)
    requires Inv(k) && |k.getcBuf| < IO_BUFFER_SIZE
    ensures k.current in k.threads && Effect(k, ConsoleInput(c), GiveUp(TakeInput(k, c)))
  {
    CurrentLives(k);
    var e, k1 := ConsoleInput(c), k.(getcBuf := RingPut(k.getcBuf, c), log := k.log.(rx := k.log.rx + [c]));
    QuietCore(k, k1);
    SignalEffect(k1, e, k.getcSem, k1.current);
    EffectAfter(k, e, k1, TakeInput(k, c));
    GiveUpOnly(TakeInput(k, c));
    EffectThen(k, e, TakeInput(k, c), GiveUp(TakeInput(k, c)));
  }

  lemma FlushEffect(k: KState)
    requires Inv(k) && k.putcBuf != []
    ensures Effect(k, Flush, FlushOne(k))
  {
    CurrentLives(k);
    QuietCore(k, SendFirst(k));
    SignalEffect(SendFirst(k), Flush, k.putcSem, k.current);
    EffectAfter(k, Flush, SendFirst(k), FlushOne(k));
  }

  lemma TimerEffect(k: KState)
    requires Inv(k)
    ensures Effect(k, Timer, Handle(k, Timer))
  {
    CurrentLives(k);
    TickEffect(k, Timer);
    if Switches(k, Timer) {
      CountTickCore(k);
      CurrentLives(CountTick(k));
      GiveUpOnly(CountTick(k));
      EffectThen(k, Timer, CountTick(k), GiveUp(CountTick(k)));
    }
  }

  lemma HandleEffect(k: KState, e: Event)
    requires Inv(k) && Enabled(k, e)
    ensures Effect(k, e, Handle(k, e))
  {
    match e
    case Timer => TimerEffect(k);
    case ConsoleInput(c) => if |k.getcBuf| < IO_BUFFER_SIZE { InputEffect(k, c); }
    case Flush => FlushEffect(k);
    case _ => OnCallEffect(k, e);
  }
}
