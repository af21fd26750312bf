/** Whole runs of the kernel. */
module KernelRuns {
  import opened Threads
  import opened KernelSpec
  import opened KernelPlaces
  import opened KernelSteps

  /** The invariant at a trap boundary: the thread on the processor is the current one. */
  ghost predicate Inv(k: KState) {
    Core(k, k.current)
  }

  ghost function Exit(k: KState): KState
    requires Inv(k) && k.current != k.flushTcb
  {
    SetA0Core(k, SUCCESS_SYSCALL);
    var k1 := SetA0(k, SUCCESS_SYSCALL);
    if k.current == k.mainTcb then k
    else
      BuryCore(k1);
      Next(Bury(k1))
  }

  ghost function Join(k: KState, t: TCB?): KState
    requires Inv(k) && k.current != k.flushTcb && (t == null || t in k.threads)
  {
    if t == null || k.threads[t].joinSem == null then k
    else
      JoinKind(k, t);
      WaitCall(k, k.threads[t].joinSem, AfterJoin)
  }

  lemma JoinKind(k: KState, t: TCB)
    requires Roles(k) && t in k.threads && k.threads[t].joinSem != null
    ensures WaitKind(k, k.threads[t].joinSem, AfterJoin)
  {
    assert IsInternal(k, k.threads[t].joinSem);
  }

  ghost function GoToSleep(k: KState, n: nat): KState
    requires Inv(k) && k.current != k.flushTcb
  {
    if n == 0 then k
    else
      SetA0Core(k, SUCCESS_SYSCALL);
      SleepCore(SetA0(k, SUCCESS_SYSCALL), n);
      Next(FallAsleep(SetA0(k, SUCCESS_SYSCALL), n))
  }

  function NoteCall(k: KState, c: char): KState {
    k.(log := k.log.(calls := k.log.calls + [(k.current, c)]))
  }

  lemma NoteCallCore(k: KState, c: char)
    requires Inv(k)
    ensures Inv(NoteCall(k, c))
  {
    CurrentLives(k);
    QuietCore(k, NoteCall(k, c));
  }

  function CloseCall(k: KState, s: Sem): KState
    requires k.current in k.threads && s in k.sems
  {
    SetA0(DropSem(CloseSem(k, s), s), SUCCESS_SYSCALL)
  }

  function SignalCall(k: KState, s: Sem): KState
    requires k.current in k.threads && s in k.sems
  {
    SetA0(SignalSem(k, s), SUCCESS_SYSCALL)
  }

  ghost function Putc(k: KState, c: char): KState
    requires Inv(k) && k.current != k.flushTcb
  {
    NoteCallCore(k, c);
    WaitCall(NoteCall(k, c), k.putcSem, ThenPutc(c))
  }

  /** A system call, once a0 holds the failure code. */
  ghost function Call(k: KState, e: Event): KState
    requires Inv(k) && IsCall(e) && Enabled(k, e)
  {
    CurrentLives(k);
    match e
    case CreateThread(t, s) =>
      SetA0(AddThread(k, t, s), SUCCESS_SYSCALL)
    case ThreadExit => Exit(k)
    case ThreadDispatch => DispatchReady(k)
    case ThreadJoin(t) => Join(k, t)
    case SemOpen(s, init) => SetA0(AddSem(k, s, init), SUCCESS_SYSCALL)
    case SemClose(s) => if s == null then k else CloseCall(k, s)
    case SemWait(s) => if s == null then k else WaitCall(k, s, AfterSemWait)
    case SemSignal(s) => if s == null then k else SignalCall(k, s)
    case TimeSleep(n) => GoToSleep(k, n)
    case GetC => WaitCall(k, k.getcSem, ThenGetc)
    case PutC(c) => Putc(k, c)
    case OtherCall(r) => SetA0(k, r)
    case _ => k
  }

  lemma CallCore(k: KState, e: Event)
    requires Inv(k) && IsCall(e) && Enabled(k, e)
    ensures Inv(Call(k, e))
  {
    CurrentLives(k);
    match e
    case CreateThread(t, s) =>
      AddThreadCore(k, t, s);
      SetA0Core(AddThread(k, t, s), SUCCESS_SYSCALL);
    case ThreadExit => ExitCore(k);
    case ThreadDispatch => DispatchCore(k);
    case ThreadJoin(t) =>
      if t != null && k.threads[t].joinSem != null {
        JoinKind(k, t);
        WaitCallCore(k, k.threads[t].joinSem, AfterJoin);
      }
    case SemOpen(s, init) =>
      AddSemCore(k, s, init);
      SetA0Core(AddSem(k, s, init), SUCCESS_SYSCALL);
    case SemClose(s) =>
      if s != null {
        CloseCore(k, s);
        SetA0Core(DropSem(CloseSem(k, s), s), SUCCESS_SYSCALL);
      }
    case SemWait(s) => if s != null { WaitCallCore(k, s, AfterSemWait); }
    case SemSignal(s) =>
      if s != null {
        SignalCore(k, s, k.current);
        SetA0Core(SignalSem(k, s), SUCCESS_SYSCALL);
      }
    case TimeSleep(n) => GoToSleepCore(k, n);
    case GetC => WaitCallCore(k, k.getcSem, ThenGetc);
    case PutC(c) =>
      NoteCallCore(k, c);
      WaitCallCore(NoteCall(k, c), k.putcSem, ThenPutc(c));
    case OtherCall(r) => SetA0Core(k, r);
    case _ =>
  }

  lemma ExitCore(k: KState)
    requires Inv(k) && k.current != k.flushTcb
    ensures Inv(Exit(k))
  {
    SetA0Core(k, SUCCESS_SYSCALL);
    if k.current != k.mainTcb {
      BuryCore(SetA0(k, SUCCESS_SYSCALL));
      NextCore(Bury(SetA0(k, SUCCESS_SYSCALL)));
    }
  }

  lemma GoToSleepCore(k: KState, n: nat)
    requires Inv(k) && k.current != k.flushTcb
    ensures Inv(GoToSleep(k, n))
  {
    if n > 0 {
      SetA0Core(k, SUCCESS_SYSCALL);
      SleepCore(SetA0(k, SUCCESS_SYSCALL), n);
      NextCore(FallAsleep(SetA0(k, SUCCESS_SYSCALL), n));
    }
  }

  /** The timer handler up to its test: sleepers are woken and the tick counted. */
  function CountTick(k: KState): KState {
    TickSleepers(k).(ticks := k.ticks + 1)
  }

  lemma CountTickCore(k: KState)
    requires Inv(k)
    ensures Inv(CountTick(k))
  {
    TickCore(k, k.current);
    CurrentLives(TickSleepers(k));
    QuietCore(TickSleepers(k), CountTick(k));
  }

  /** The console handler up to its dispatch. */
  function TakeInput(k: KState, c: char): KState
    requires k.getcSem in k.sems
  {
    SignalSem(k.(getcBuf := RingPut(k.getcBuf, c), log := k.log.(rx := k.log.rx + [c])), k.getcSem)
  }

  lemma TakeInputCore(k: KState, c: char)
    requires Inv(k)
    ensures Inv(TakeInput(k, c))
  {
    CurrentLives(k);
    var k1 := k.(getcBuf := RingPut(k.getcBuf, c), log := k.log.(rx := k.log.rx + [c]));
    QuietCore(k, k1);
    SignalCore(k1, k.getcSem, k1.current);
  }

  lemma FlushOneCore(k: KState)
    requires Inv(k) && k.putcBuf != []
    ensures Inv(FlushOne(k))
    ensures FlushOne(k).current == k.current && FlushOne(k).putcBuf == k.putcBuf[1..]
  {
    CurrentLives(k);
    QuietCore(k, SendFirst(k));
    SignalCore(SendFirst(k), k.putcSem, k.current);
  }

  /** `k_handle_timer`. */
  ghost function OnTimer(k: KState): KState
    requires Inv(k)
  {
    CountTickCore(k);
    if CountTick(k).ticks >= DEFAULT_TIME_SLICE then DispatchReady(CountTick(k)) else CountTick(k)
  }

  lemma OnTimerCore(k: KState)
    requires Inv(k)
    ensures Inv(OnTimer(k))
  {
    CountTickCore(k);
    if CountTick(k).ticks >= DEFAULT_TIME_SLICE { DispatchCore(CountTick(k)); }
  }

  /** `fill_getc_buffer` with a character waiting; a full ring drops it. */
  ghost function OnInput(k: KState, c: char): KState
    requires Inv(k)
  {
    if |k.getcBuf| < IO_BUFFER_SIZE then
      TakeInputCore(k, c);
      DispatchReady(TakeInput(k, c))
    else k
  }

  lemma OnInputCore(k: KState, c: char)
    requires Inv(k)
    ensures Inv(OnInput(k, c))
  {
    if |k.getcBuf| < IO_BUFFER_SIZE {
      TakeInputCore(k, c);
      DispatchCore(TakeInput(k, c));
    }
  }

  /** `k_handle_ecall`: a0 holds the failure code unless the call says otherwise. */
  ghost function OnCall(k: KState, e: Event): KState
    requires Inv(k) && IsCall(e) && Enabled(k, e)
  {
    CallStart(k, e);
    Call(SetA0(k, FAILED_SYSCALL), e)
  }

  lemma CallStart(k: KState, e: Event)
    requires Inv(k) && IsCall(e) && Enabled(k, e)
    ensures k.current in k.threads
    ensures Inv(SetA0(k, FAILED_SYSCALL)) && Enabled(SetA0(k, FAILED_SYSCALL), e)
  {
    SetA0Core(k, FAILED_SYSCALL);
    EnabledSame(k, SetA0(k, FAILED_SYSCALL), e);
  }

  lemma EnabledSame(k: KState, k': KState, e: Event)
    requires Enabled(k, e) && Quiet(k, k') && k'.putcBuf == k.putcBuf
    ensures Enabled(k', e)
  {
  }

  lemma OnCallCore(k: KState, e: Event)
    requires Inv(k) && IsCall(e) && Enabled(k, e)
    ensures Inv(OnCall(k, e))
  {
    CallStart(k, e);
    CallCore(SetA0(k, FAILED_SYSCALL), e);
  }

  /** One step of the kernel. */
  ghost function Step(k: KState, e: Event): KState
    requires Inv(k) && Enabled(k, e)
  {
    match e
    case Timer => OnTimer(k)
    case ConsoleInput(c) => OnInput(k, c)
    case Flush => FlushOne(k)
    case _ => OnCall(k, e)
  }

  /** Every step keeps the invariant: each live thread stays in exactly one place, and the
      flush thread is always there to be run. */
  lemma StepInv(k: KState, e: Event)
    requires Inv(k) && Enabled(k, e)
    ensures Inv(Step(k, e))
  {
    match e
    case Timer => OnTimerCore(k);
    case ConsoleInput(c) => OnInputCore(k, c);
    case Flush => FlushOneCore(k);
    case _ => OnCallCore(k, e);
  }
}
