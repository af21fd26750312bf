/** The thread kernel as a transition system.

    One step is one trap handler run to its end, including the context switch and whatever the
    restored thread still does in the kernel before it leaves it: interrupts are masked in the
    kernel, so nothing comes between.  Control blocks and semaphores are only names here. */
module KernelSpec {
  import opened Threads
  import opened SleepSpec
  import opened SemSpec

  const IO_BUFFER_SIZE := 2048
  const SUCCESS_SYSCALL := 0
  const FAILED_SYSCALL := -1
  const WAIT_SUCCESS := 0
  const WAIT_FAIL := -1
  const TWO_TO_THE_31 := 0x8000_0000

  datatype Thread = Thread(status: TCBStatus, interrupted: bool, cont: Continuation, a0: int,
                           joinSem: Sem?, place: Place)

  /** What went through the console so far.  `puts` are completed `putc` calls, `calls` those
      begun; `rx` are the characters accepted from the device, `gets` those handed to threads. */
  datatype Log = Log(tx: seq<char>, puts: seq<(TCB, char)>, calls: seq<(TCB, char)>,
                     rx: seq<char>, gets: seq<(TCB, char)>)

  datatype KState = KState(
    current: TCB, ready: seq<TCB>, sleepers: seq<Sleeper<TCB>>, now: nat, ticks: nat,
    threads: map<TCB, Thread>, sems: map<Sem, SemState<TCB>>, userSems: set<Sem>,
    putcBuf: seq<char>, getcBuf: seq<char>, log: Log,
    mainTcb: TCB, flushTcb: TCB, putcSem: Sem, getcSem: Sem)

  datatype Event =
    // system calls of the current thread
    | CreateThread(tcb: TCB, joinSem: Sem)
    | ThreadExit
    | ThreadDispatch
    | ThreadJoin(target: TCB?)
    | SemOpen(newSem: Sem, init: nat)
    | SemClose(sem: Sem?)
    | SemWait(sem: Sem?)
    | SemSignal(sem: Sem?)
    | TimeSleep(n: nat)
    | GetC
    | PutC(c: char)
    | OtherCall(result: int)  // memory and mode calls: they only set a0 here
    // interrupts
    | Timer
    | ConsoleInput(c: char)
    // one round of the flush thread's loop: the device takes a character
    | Flush

  // ---------- one thread ----------

  function WithThread(k: KState, t: TCB, th: Thread): KState {
    k.(threads := k.threads[t := th])
  }

  function SetA0(k: KState, v: int): KState
    requires k.current in k.threads
  {
    WithThread(k, k.current, k.threads[k.current].(a0 := v))
  }

  /** `k_save_context` for the current thread, with the place it has been put in. */
  function Save(k: KState, cont: Continuation, status: TCBStatus, place: Place): KState
    requires k.current in k.threads
  {
    WithThread(k, k.current, k.threads[k.current].(cont := cont, status := status, place := place))
  }

  // ---------- making threads ready ----------

  function Awaken(th: Thread, mark: bool, interrupted: bool): Thread {
    th.(status := READY, place := InReady, interrupted := if mark then interrupted else th.interrupted)
  }

  /** Append `ts` to the ready queue; `unblock` also sets the interrupted flag. */
  function MakeReady(k: KState, ts: seq<TCB>, mark: bool, interrupted: bool): KState {
    k.(ready := k.ready + ts,
       threads := map t | t in k.threads :: if t in ts then Awaken(k.threads[t], mark, interrupted) else k.threads[t])
  }

  // ---------- the context switch ----------

  function RingPut(buf: seq<char>, c: char): seq<char> {
    if |buf| < IO_BUFFER_SIZE then buf + [c] else buf
  }

  function RingFirst(buf: seq<char>): char {
    if buf != [] then buf[0] else '\0'
  }

  function RingRest(buf: seq<char>): seq<char> {
    if buf != [] then buf[1..] else []
  }

  /** `putc_buffer.put(c)` on behalf of the current thread. */
  function PutChar(k: KState, c: char): KState {
    k.(putcBuf := RingPut(k.putcBuf, c), log := k.log.(puts := k.log.puts + [(k.current, c)]))
  }

  /** `a0 = getc_buffer.get()` for the current thread. */
  function GetChar(k: KState): KState
    requires k.current in k.threads
  {
    var c := RingFirst(k.getcBuf);
    SetA0(k, c as int).(getcBuf := RingRest(k.getcBuf), log := k.log.(gets := k.log.gets + [(k.current, c)]))
  }

  /** What the restored thread does between `k_restore_context` and the end of its trap. */
  function Resume(k: KState): KState
    requires k.current in k.threads
  {
    var th := k.threads[k.current];
    match th.cont
    case Fresh => k
    case AfterDispatch => k.(ticks := 0)
    case AfterJoin => k.(ticks := 0)
    case AfterSemWait => SetA0(k, if th.interrupted then WAIT_FAIL else WAIT_SUCCESS).(ticks := 0)
    case ThenPutc(c) => PutChar(k, c).(ticks := 0)
    case ThenGetc => GetChar(k).(ticks := 0)
  }

  /** Take the first ready thread and restore it. */
  function Take(k: KState): KState
    requires k.ready != [] && k.ready[0] in k.threads
  {
    var t := k.ready[0];
    WithThread(k, t, k.threads[t].(status := RUNNING, place := Current)).(current := t, ready := k.ready[1..])
  }

  /** The current thread gives up the processor but stays ready. */
  function GiveUp(k: KState): KState
    requires k.current in k.threads
  {
    Save(k, AfterDispatch, READY, InReady).(ready := k.ready + [k.current])
  }

  // ---------- semaphores ----------

  /** The part of `wait` before it either returns or switches. */
  function StartWait(k: KState, s: Sem, cont: Continuation): KState
    requires k.current in k.threads && s in k.sems
  {
    var k1 := k.(sems := k.sems[s := Wait(k.sems[s], k.current)]);
    if Blocks(k.sems[s]) then Save(k1, cont, SUSPENDED, WaitingOn(s)) else k1
  }

  function SignalSem(k: KState, s: Sem): KState
    requires s in k.sems
  {
    MakeReady(k, Released(k.sems[s]), true, false).(sems := k.sems[s := Signal(k.sems[s])])
  }

  /** `close`: every waiter becomes ready, in order, with the interrupted flag set. */
  function CloseSem(k: KState, s: Sem): KState
    requires s in k.sems
  {
    MakeReady(k, k.sems[s].waiters, true, true).(sems := k.sems[s := SemState(k.sems[s].value, [])])
  }

  /** `free_sem` and forgetting the handle. */
  function DropSem(k: KState, s: Sem): KState {
    k.(sems := k.sems - {s}, userSems := k.userSems - {s})
  }

  // ---------- other parts of handlers ----------

  function TickSleepers(k: KState): KState {
    MakeReady(k, Due(k.sleepers, k.now + 1), false, false)
      .(sleepers := NotDue(k.sleepers, k.now + 1), now := k.now + 1)
  }

  function FallAsleep(k: KState, n: nat): KState
    requires k.current in k.threads
  {
    Save(k, AfterDispatch, SUSPENDED, Asleep).(sleepers := Insert(k.sleepers, Sleeper(k.current, k.now + n)))
  }

  /** `close` the join semaphore of the exiting thread and free its memory. */
  function Bury(k: KState): KState
    requires k.current in k.threads
  {
    var s := k.threads[k.current].joinSem;
    var k1 := if s != null && s in k.sems then DropSem(CloseSem(k, s), s) else k;
    k1.(threads := k1.threads - {k.current})
  }

  /** The device takes the first character of the output ring. */
  function SendFirst(k: KState): KState
    requires k.putcBuf != []
  {
    k.(putcBuf := k.putcBuf[1..], log := k.log.(tx := k.log.tx + [k.putcBuf[0]]))
  }

  /** One round of `flush_putc_buffer`. */
  function FlushOne(k: KState): KState
    requires k.putcSem in k.sems && k.putcBuf != []
  {
    SignalSem(SendFirst(k), k.putcSem)
  }

  // ---------- events ----------

  predicate IsCall(e: Event) {
    !e.Timer? && !e.ConsoleInput? && !e.Flush?
  }

  /** What callers owe.  Handles are null or name live objects; fresh names come from the
      allocator; the flush thread makes no call but `thread_dispatch`. */
  predicate Enabled(k: KState, e: Event) {
    && (IsCall(e) && !e.ThreadDispatch? ==> k.current != k.flushTcb)
    && match e
       case CreateThread(t, s) => t !in k.threads && s !in k.sems
       case ThreadJoin(t) => t == null || t in k.threads
       case SemOpen(s, init) => s !in k.sems && init < TWO_TO_THE_31
       case SemClose(s) => s == null || s in k.userSems
       case SemWait(s) => s == null || s in k.userSems
       case SemSignal(s) => s == null || (s in k.userSems && s in k.sems && k.sems[s].value < TWO_TO_THE_31 - 1)
       case Flush => k.current == k.flushTcb && k.putcBuf != []
       case _ => true
  }
}
