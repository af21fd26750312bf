/** What each call gives its caller and does to everybody else, read off the state before it. */
module KernelResults {
  import opened Threads
  import opened SleepSpec
  import opened SemSpec
  import opened KernelSpec
  import opened KernelPlaces
  import opened KernelSteps
  import opened KernelRuns
  import opened KernelEffects
  import opened KernelTheorems

  // ---------- a0 ----------

  /** What a call that does not switch leaves in a0. */
  function Immediate(k: KState, e: Event): int {
    match e
    case CreateThread(_, _) => 0
    case SemOpen(_, _) => 0
    case SemClose(s) => if s == null then -1 else 0
    case SemWait(s) => if s == null then -1 else 0
    case SemSignal(s) => if s == null then -1 else 0
    case GetC => if k.getcBuf == [] then 0 else k.getcBuf[0] as int
    case OtherCall(r) => r
    case _ => -1
  }

  /** What a handler that switches leaves there, and where its thread will go on. */
  function Meanwhile(k: KState, e: Event): int
    requires k.current in k.threads
  {
    if !IsCall(e) then k.threads[k.current].a0 else if e.TimeSleep? then 0 else -1
  }

  function GoesOn(e: Event): Continuation {
    match e
    case ThreadJoin(_) => AfterJoin
    case SemWait(_) => AfterSemWait
    case GetC => ThenGetc
    case PutC(c) => ThenPutc(c)
    case _ => AfterDispatch
  }

  function WaitsIn(k: KState, e: Event): Place {
    match e
    case ThreadJoin(t) => if JoinSemOf(k, t) == null then InReady else WaitingOn(JoinSemOf(k, t))
    case SemWait(s) => if s == null then InReady else WaitingOn(s)
    case GetC => WaitingOn(k.getcSem)
    case PutC(_) => WaitingOn(k.putcSem)
    case TimeSleep(_) => Asleep
    case _ => InReady
  }

  /** The current thread's record when the handler is done. */
  predicate Served(k: KState, e: Event, h: KState)
    requires k.current in k.threads
  {
    if e.ThreadExit? && k.current != k.mainTcb then k.current !in h.threads
    else
      && k.current in h.threads
      && var th := h.threads[k.current];
         if Switches(k, e) then
           th.a0 == Meanwhile(k, e) && th.cont == GoesOn(e) && th.place == WaitsIn(k, e)
         else th.a0 == if IsCall(e) then Immediate(k, e) else k.threads[k.current].a0
  }

  lemma HandlerServes(k: KState, e: Event)
    requires Inv(k) && Enabled(k, e)
    ensures k.current in k.threads && Served(k, e, Handle(k, e))
  {
    CurrentLives(k);
    if IsCall(e) {
      HandledCall(k, e);
      CallServes(SetA0(k, FAILED_SYSCALL), e);
      SwitchesSame(k, e);
    } else {
      HandledInterrupt(k, e);
      InterruptServes(k, e);
    }
  }

  lemma CallServes(k: KState, e: Event)
    requires k.current in k.threads && k.getcSem in k.sems && k.putcSem in k.sems
    requires IsCall(e) && Enabled(k, e) && k.userSems <= k.sems.Keys && k.threads[k.current].a0 == -1
    ensures Served(k, e, HandleCall(k, e))
  {
  }

  lemma InterruptServes(k: KState, e: Event)
    requires k.current in k.threads && k.getcSem in k.sems && k.putcSem in k.sems && Enabled(k, e) && !IsCall(e)
    ensures Served(k, e, HandleInterrupt(k, e))
  {
  }

  // ---------- who becomes ready, and what comes and goes ----------

  function FirstOf(k: KState, s: Sem?): seq<TCB> {
    if s != null && s in k.sems && k.sems[s].waiters != [] then [k.sems[s].waiters[0]] else []
  }

  function AllOf(k: KState, s: Sem?): seq<TCB> {
    if s != null && s in k.sems then k.sems[s].waiters else []
  }

  /** Those whom a handler adds to the ready queue, in order. */
  function Readied(k: KState, e: Event): seq<TCB>
    requires k.current in k.threads
  {
    match e
    case CreateThread(t, _) => [t]
    case ThreadExit => if k.current == k.mainTcb then [] else AllOf(k, k.threads[k.current].joinSem)
    case ThreadDispatch => [k.current]
    case SemClose(s) => AllOf(k, s)
    case SemSignal(s) => FirstOf(k, s)
    case Timer => Due(k.sleepers, k.now + 1) + if k.ticks + 1 < DEFAULT_TIME_SLICE then [] else [k.current]
    case ConsoleInput(_) => if |k.getcBuf| < IO_BUFFER_SIZE then FirstOf(k, k.getcSem) + [k.current] else []
    case Flush => FirstOf(k, k.putcSem)
    case _ => []
  }

  function Opened(e: Event): map<Sem, SemState<TCB>> {
    match e
    case CreateThread(_, s) => map[s := SemState(0, [])]
    case SemOpen(s, init) => map[s := SemState(init, [])]
    case _ => map[]
  }

  function Born(e: Event): map<TCB, Thread> {
    match e
    case CreateThread(t, s) => map[t := Thread(READY, false, Fresh, 0, s, InReady)]
    case _ => map[]
  }

  function Gone(k: KState, e: Event): set<Sem>
    requires k.current in k.threads
  {
    match e
    case SemClose(s) => if s == null then {} else {s}
    case ThreadExit =>
      var s := k.threads[k.current].joinSem;
      if k.current == k.mainTcb || s == null || s !in k.sems then {} else {s}
    case _ => {}
  }

  /** The queue and the tables after a handler. */
  predicate Moves(k: KState, e: Event, h: KState)
    requires k.current in k.threads
  {
    && h.ready == k.ready + Readied(k, e)
    && h.sems.Keys == k.sems.Keys + Opened(e).Keys - Gone(k, e)
    && (forall s :: s in Opened(e) ==> s in h.sems && h.sems[s] == Opened(e)[s])
    && h.userSems == k.userSems + (if e.SemOpen? then {e.newSem} else {}) - Gone(k, e)
    && h.threads.Keys == k.threads.Keys + Born(e).Keys
                         - (if e.ThreadExit? && k.current != k.mainTcb then {k.current} else {})
    && (forall t :: t in Born(e) ==> t in h.threads && h.threads[t] == Born(e)[t])
  }

  lemma HandlerMoves(k: KState, e: Event)
    requires Inv(k) && Enabled(k, e)
    ensures k.current in k.threads && Moves(k, e, Handle(k, e))
  {
    CurrentLives(k);
    if IsCall(e) {
      HandledCall(k, e);
      CallMoves(SetA0(k, FAILED_SYSCALL), e);
      SameMoves(k, e, Handle(k, e));
    } else {
      HandledInterrupt(k, e);
      InterruptMoves(k, e);
    }
  }

  lemma SameMoves(k: KState, e: Event, h: KState)
    requires k.current in k.threads && IsCall(e) && Moves(SetA0(k, FAILED_SYSCALL), e, h)
    ensures Moves(k, e, h)
  {
  }

  lemma CallMoves(k: KState, e: Event)
    requires k.current in k.threads && k.getcSem in k.sems && k.putcSem in k.sems
    requires IsCall(e) && Enabled(k, e) && k.userSems <= k.sems.Keys && SemsOk(k)
    requires k.threads[k.current].joinSem != null ==> k.threads[k.current].joinSem !in k.userSems
    ensures Moves(k, e, HandleCall(k, e))
  {
    if e.CreateThread? || e.SemOpen? {
      NewMoves(k, e);
    } else if e.ThreadExit? || e.SemClose? || e.SemSignal? {
      EndMoves(k, e);
    } else {
      OwnMoves(k, e);
    }
  }

  lemma NewMoves(k: KState, e: Event)
    requires k.current in k.threads && k.getcSem in k.sems && k.putcSem in k.sems
    requires (e.CreateThread? || e.SemOpen?) && Enabled(k, e) && k.userSems <= k.sems.Keys
    ensures Moves(k, e, HandleCall(k, e))
  {
  }

  lemma EndMoves(k: KState, e: Event)
    requires k.current in k.threads && k.getcSem in k.sems && k.putcSem in k.sems && SemsOk(k)
    requires (e.ThreadExit? || e.SemClose? || e.SemSignal?) && Enabled(k, e) && k.userSems <= k.sems.Keys
    requires k.threads[k.current].joinSem != null ==> k.threads[k.current].joinSem !in k.userSems
    ensures Moves(k, e, HandleCall(k, e))
  {
  }

  lemma OwnMoves(k: KState, e: Event)
    requires k.current in k.threads && k.getcSem in k.sems && k.putcSem in k.sems
    requires IsCall(e) && Enabled(k, e) && k.userSems <= k.sems.Keys
    requires !e.CreateThread? && !e.SemOpen? && !e.ThreadExit? && !e.SemClose? && !e.SemSignal?
    ensures Moves(k, e, HandleCall(k, e))
  {
    if e.ThreadJoin? || e.SemWait? || e.GetC? || e.PutC? { WaitMoves(k, e); }
  }

  lemma WaitMoves(k: KState, e: Event)
    requires k.current in k.threads && k.getcSem in k.sems && k.putcSem in k.sems
    requires (e.ThreadJoin? || e.SemWait? || e.GetC? || e.PutC?) && Enabled(k, e) && k.userSems <= k.sems.Keys
    ensures Moves(k, e, HandleCall(k, e))
  {
  }

  lemma InterruptMoves(k: KState, e: Event)
    requires k.current in k.threads && k.getcSem in k.sems && k.putcSem in k.sems && Enabled(k, e) && !IsCall(e)
    requires SemsOk(k)
    ensures Moves(k, e, HandleInterrupt(k, e))
  {
  }

  // ---------- the console ----------

  /** The events' own characters. */
  function CallOf(k: KState, e: Event): seq<(TCB, char)> {
    match e
    case PutC(c) => [(k.current, c)]
    case _ => []
  }

  function Accepted(k: KState, e: Event): seq<char> {
    match e
    case ConsoleInput(c) => if |k.getcBuf| < IO_BUFFER_SIZE then [c] else []
    case _ => []
  }

  function Sent(k: KState, e: Event): seq<char> {
    if e.Flush? && k.putcBuf != [] then [k.putcBuf[0]] else []
  }

  /** The console after a handler. */
  predicate Recorded(k: KState, e: Event, h: KState) {
    && h.log.calls == k.log.calls + CallOf(k, e)
    && h.log.rx == k.log.rx + Accepted(k, e)
    && h.log.tx == k.log.tx + Sent(k, e)
    && (if e.GetC? && !Switches(k, e) then
          h.log.gets == k.log.gets + [(k.current, RingFirst(k.getcBuf))] && h.getcBuf == RingRest(k.getcBuf)
        else
          h.log.gets == k.log.gets && h.getcBuf == k.getcBuf + Accepted(k, e))
  }

  lemma HandlerRecords(k: KState, e: Event)
    requires Inv(k) && Enabled(k, e)
    ensures Recorded(k, e, Handle(k, e))
  {
    CurrentLives(k);
    if IsCall(e) {
      HandledCall(k, e);
      CallRecords(SetA0(k, FAILED_SYSCALL), e);
      SwitchesSame(k, e);
    } else {
      HandledInterrupt(k, e);
      InterruptRecords(k, e);
    }
  }

  lemma CallRecords(k: KState, e: Event)
    requires k.current in k.threads && k.getcSem in k.sems && k.putcSem in k.sems
    requires IsCall(e) && Enabled(k, e) && k.userSems <= k.sems.Keys
    ensures Recorded(k, e, HandleCall(k, e))
  {
    if e.ThreadJoin? || e.SemWait? || e.GetC? || e.PutC? { WaitRecords(k, e); }
  }

  lemma WaitRecords(k: KState, e: Event)
    requires k.current in k.threads && k.getcSem in k.sems && k.putcSem in k.sems
    requires (e.ThreadJoin? || e.SemWait? || e.GetC? || e.PutC?) && Enabled(k, e) && k.userSems <= k.sems.Keys
    ensures Recorded(k, e, HandleCall(k, e))
  {
  }

  lemma InterruptRecords(k: KState, e: Event)
    requires k.current in k.threads && k.getcSem in k.sems && k.putcSem in k.sems && Enabled(k, e) && !IsCall(e)
    ensures Recorded(k, e, HandleInterrupt(k, e))
  {
  }

  // ---------- the context switch ----------

  /** The thread taken, with the result it was suspended for. */
  lemma NextServes(h: KState)
    requires Core(h, null)
    ensures h.ready != [] && h.ready[0] in h.threads
    ensures var k, t := Next(h), h.ready[0];
      && k.current == t && t in k.threads && k.ready == h.ready[1..]
      && k.sems == h.sems && k.userSems == h.userSems && k.threads.Keys == h.threads.Keys
      && (forall u :: u in h.threads && u != t ==> k.threads[u] == h.threads[u])
      && k.threads[t].a0 == (match h.threads[t].cont
                             case AfterSemWait => if h.threads[t].interrupted then -1 else 0
                             case ThenGetc => RingFirst(h.getcBuf) as int
                             case _ => h.threads[t].a0)
      && k.log.calls == h.log.calls && k.log.rx == h.log.rx && k.log.tx == h.log.tx
      && (if h.threads[t].cont.ThenGetc? then
            k.log.gets == h.log.gets + [(t, RingFirst(h.getcBuf))] && k.getcBuf == RingRest(h.getcBuf)
          else k.log.gets == h.log.gets && k.getcBuf == h.getcBuf)
  {
    NextEffect(h);
    ResumeServes(Take(h));
  }

  lemma ResumeServes(k: KState)
    requires k.current in k.threads
    ensures var k', th := Resume(k), k.threads[k.current];
      && Quiet(k, k')
      && k'.threads[k.current].a0 == (match th.cont
                                      case AfterSemWait => if th.interrupted then -1 else 0
                                      case ThenGetc => RingFirst(k.getcBuf) as int
                                      case _ => th.a0)
      && k'.log.calls == k.log.calls && k'.log.rx == k.log.rx && k'.log.tx == k.log.tx
      && (if th.cont.ThenGetc? then
            k'.log.gets == k.log.gets + [(k.current, RingFirst(k.getcBuf))] && k'.getcBuf == RingRest(k.getcBuf)
          else k'.log.gets == k.log.gets && k'.getcBuf == k.getcBuf)
  {
    ResumeQuiet(k);
  }
}
