/** Joins, semaphore histories and the order of each thread's output, over whole runs. */
module KernelHistories {
  import opened Threads
  import opened SemSpec
  import opened KernelSpec
  import opened KernelPlaces
  import opened KernelSteps
  import opened KernelRuns
  import opened KernelEffects
  import opened KernelTheorems

  // ---------- join ----------

  /** `t` waits for `target` to end. */
  predicate Joining(k: KState, t: TCB, target: TCB) {
    && t in k.threads && target in k.threads && k.threads[target].joinSem != null
    && k.threads[t].place == WaitingOn(k.threads[target].joinSem)
  }

  predicate ExitsNow(k: KState, e: Event, target: TCB) {
    e.ThreadExit? && k.current == target
  }

  /** A joined thread stays until it exits, and its joiners become ready at that very step. */
  lemma JoinEndsAtExit(k: KState, e: Event, t: TCB, target: TCB)
    requires Inv(k) && Enabled(k, e) && Joining(k, t, target)
    ensures t in Step(k, e).threads
    ensures Step(k, e).threads[t].place
         in if ExitsNow(k, e, target) then {InReady, Current} else {k.threads[t].place}
    ensures target !in Step(k, e).threads <==> ExitsNow(k, e, target)
  {
    var s := k.threads[target].joinSem;
    assert IsInternal(k, s) by { assert k.threads[k.mainTcb].joinSem == null; }
    InternalCloses(k, e, target, s);
    WaiterMoves(k, e, t, s);
    WhoIsLeft(k, e, target);
    assert k.threads[k.mainTcb].joinSem == null;
  }

  /** A thread waiting on a join semaphore moves when that is closed, and only then. */
  lemma WaiterMoves(k: KState, e: Event, t: TCB, s: Sem)
    requires Inv(k) && Enabled(k, e) && IsInternal(k, s) && t in k.threads && k.threads[t].place == WaitingOn(s)
    ensures t in Step(k, e).threads
    ensures Step(k, e).threads[t].place in if Closes(k, e, s) then {InReady, Current} else {WaitingOn(s)}
  {
    StepIsHandled(k, e);
    WaiterStep(k, e, t, s);
    NotSignalled(k, e, s);
    WaitingSems(k, t, s);
    WaiterHandled(k, e, t, s);
    if Switches(k, e) {
      if Closes(k, e, s) { ReadyOrTaken(Handle(k, e), t); } else { WaitingNotTaken(k, e, t, s); }
    }
  }

  lemma WaiterHandled(k: KState, e: Event, t: TCB, s: Sem)
    requires Inv(k) && Enabled(k, e) && IsInternal(k, s) && t in k.threads && k.threads[t].place == WaitingOn(s)
    ensures t in Handle(k, e).threads
    ensures Handle(k, e).threads[t].place == if Closes(k, e, s) then InReady else WaitingOn(s)
  {
    NotSignalled(k, e, s);
    WaitingSems(k, t, s);
    WaiterStep(k, e, t, s);
    HandleEffect(k, e);
    assert LeftOrWoken(k, e, k.threads[t], Handle(k, e).threads[t]);
  }

  lemma ReadyOrTaken(h: KState, t: TCB)
    requires Core(h, null) && t in h.threads && h.threads[t].place == InReady
    ensures t in Next(h).threads && Next(h).threads[t].place in {InReady, Current}
  {
    NextEffect(h);
    NextCore(h);
    CurrentLives(Next(h));
  }

  lemma JoinSemKept(k: KState, e: Event, u: TCB)
    requires Inv(k) && Enabled(k, e) && u in k.threads && u in Step(k, e).threads
    ensures Step(k, e).threads[u].joinSem == k.threads[u].joinSem
  {
    StepIsHandled(k, e);
    if Switches(k, e) {
      NextEffect(Handle(k, e));
      NextJoinSem(Handle(k, e), u);
    }
    HandleJoinSem(k, e, u);
  }

  lemma HandleJoinSem(k: KState, e: Event, u: TCB)
    requires Inv(k) && Enabled(k, e) && u in k.threads && u in Handle(k, e).threads
    ensures Handle(k, e).threads[u].joinSem == k.threads[u].joinSem
  {
    if u == k.current { OwnJoinSem(k, e); } else { OtherJoinSem(k, e, u); }
  }

  lemma OtherJoinSem(k: KState, e: Event, u: TCB)
    requires Inv(k) && Enabled(k, e) && u in k.threads && u != k.current && u in Handle(k, e).threads
    ensures Handle(k, e).threads[u].joinSem == k.threads[u].joinSem
  {
    HandleEffect(k, e);
    assert LeftOrWoken(k, e, k.threads[u], Handle(k, e).threads[u]);
  }

  lemma NextJoinSem(h: KState, u: TCB)
    requires Core(h, null) && u in h.threads
    ensures u in Next(h).threads && Next(h).threads[u].joinSem == h.threads[u].joinSem
  {
    NextEffect(h);
    ResumeEffect(Take(h));
  }

  lemma OwnJoinSem(k: KState, e: Event)
    requires Inv(k) && Enabled(k, e)
    ensures k.current in k.threads
    ensures k.current in Handle(k, e).threads ==>
      Handle(k, e).threads[k.current].joinSem == k.threads[k.current].joinSem
  {
    CurrentLives(k);
    if IsCall(e) {
      HandledCall(k, e);
      CallJoinSem(SetA0(k, FAILED_SYSCALL), e);
    } else {
      HandledInterrupt(k, e);
      InterruptJoinSem(k, e);
    }
  }

  lemma CallJoinSem(k: KState, e: Event)
    requires k.current in k.threads && k.getcSem in k.sems && k.putcSem in k.sems
    requires IsCall(e) && Enabled(k, e) && k.userSems <= k.sems.Keys
    ensures k.current in HandleCall(k, e).threads ==>
      HandleCall(k, e).threads[k.current].joinSem == k.threads[k.current].joinSem
  {
  }

  lemma InterruptJoinSem(k: KState, e: Event)
    requires k.current in k.threads && k.getcSem in k.sems && k.putcSem in k.sems && Enabled(k, e) && !IsCall(e)
    ensures k.current in HandleInterrupt(k, e).threads ==>
      HandleInterrupt(k, e).threads[k.current].joinSem == k.threads[k.current].joinSem
  {
  }

  /** For `n` steps the joiner waits and the thread it joined lives; step `n`, if the run is that
      long, is the exit of that thread and makes the joiner ready. */
  ghost predicate JoinLasts(k: KState, events: seq<Event>, t: TCB, target: TCB, n: nat)
    requires Inv(k)
  {
    && n <= |events| && CanRun(k, events[..n]) && Joining(After(k, events[..n]), t, target)
    && (n < |events| ==>
         && ExitsNow(After(k, events[..n]), events[n], target) && CanRun(k, events[..n + 1])
         && Released(After(k, events[..n + 1]), t, target))
  }

  /** The exit is over: `target` is gone and `t` is on its way. */
  predicate Released(k: KState, t: TCB, target: TCB) {
    target !in k.threads && t in k.threads && k.threads[t].place in {InReady, Current}
  }

  /** In every run a joiner waits until the thread it joined exits, and no longer. */
  lemma {:induction false} JoinLastsUntilExit(k: KState, events: seq<Event>, t: TCB, target: TCB) returns (n: nat)
    requires Inv(k) && CanRun(k, events) && Joining(k, t, target)
    ensures JoinLasts(k, events, t, target, n)
    decreases |events|
  {
    if events == [] {
      n := 0;
      JoinLastsEmpty(k, events, t, target);
    } else {
      JoinStep(k, events, t, target);
      if ExitsNow(k, events[0], target) {
        n := 0;
        JoinLastsNot(k, events, t, target);
      } else {
        n := JoinLastsUntilExit(Step(k, events[0]), events[1..], t, target);
        JoinLastsOn(k, events, t, target, n);
        n := n + 1;
      }
    }
  }

  lemma JoinStep(k: KState, events: seq<Event>, t: TCB, target: TCB)
    requires Inv(k) && CanRun(k, events) && events != [] && Joining(k, t, target)
    ensures Inv(Step(k, events[0])) && CanRun(Step(k, events[0]), events[1..])
    ensures if ExitsNow(k, events[0], target) then Released(Step(k, events[0]), t, target)
            else Joining(Step(k, events[0]), t, target)
  {
    StepInv(k, events[0]);
    JoinEndsAtExit(k, events[0], t, target);
    if !ExitsNow(k, events[0], target) { JoinSemKept(k, events[0], target); }
  }

  lemma JoinLastsEmpty(k: KState, events: seq<Event>, t: TCB, target: TCB)
    requires Inv(k) && events == [] && Joining(k, t, target)
    ensures JoinLasts(k, events, t, target, 0)
  {
    NoStepYet(k, events);
  }

  lemma NoStepYet(k: KState, events: seq<Event>)
    requires Inv(k)
    ensures events[..0] == [] && CanRun(k, events[..0]) && After(k, events[..0]) == k
  {
  }

  lemma JoinLastsNot(k: KState, events: seq<Event>, t: TCB, target: TCB)
    requires Inv(k) && CanRun(k, events) && events != [] && Joining(k, t, target)
    requires ExitsNow(k, events[0], target) && Released(Step(k, events[0]), t, target)
    ensures JoinLasts(k, events, t, target, 0)
  {
    NoStepYet(k, events);
    OneStep(k, events);
  }

  lemma JoinLastsOn(k: KState, events: seq<Event>, t: TCB, target: TCB, n: nat)
    requires Inv(k) && CanRun(k, events) && events != [] && Inv(Step(k, events[0]))
    requires JoinLasts(Step(k, events[0]), events[1..], t, target, n)
    ensures JoinLasts(k, events, t, target, n + 1)
  {
    PrefixUnfolds(k, events, n + 1);
    if n + 1 < |events| { PrefixUnfolds(k, events, n + 2); }
  }

  lemma InternalCloses(k: KState, e: Event, target: TCB, s: Sem)
    requires Inv(k) && Enabled(k, e) && target in k.threads && k.threads[target].joinSem == s && IsInternal(k, s)
    ensures Closes(k, e, s) <==> e.ThreadExit? && k.current == target
  {
    CurrentLives(k);
  }

  lemma NotSignalled(k: KState, e: Event, s: Sem)
    requires Inv(k) && Enabled(k, e) && IsInternal(k, s)
    ensures !Signals(k, e, s)
  {
  }

  lemma WaitingNotTaken(k: KState, e: Event, t: TCB, s: Sem)
    requires Inv(k) && Enabled(k, e) && Switches(k, e) && t in k.threads && t in Handle(k, e).threads
    requires k.threads[t].place == WaitingOn(s) && Handle(k, e).threads[t] == k.threads[t]
    ensures t in Step(k, e).threads && Step(k, e).threads[t] == k.threads[t]
  {
    StepIsHandled(k, e);
    var h := Handle(k, e);
    NextEffect(h);
    assert h.ready[0] in h.ready;
  }

  /** Only an exiting thread disappears, and only itself. */
  lemma WhoIsLeft(k: KState, e: Event, u: TCB)
    requires Inv(k) && Enabled(k, e) && u in k.threads
    ensures u in Step(k, e).threads <==> !(e.ThreadExit? && k.current == u && u != k.mainTcb)
  {
    StepIsHandled(k, e);
    HandleEffect(k, e);
    CurrentLives(k);
    if Switches(k, e) { NextEffect(Handle(k, e)); }
    if u == k.current { CurrentStays(k, e); }
  }

  lemma CurrentStays(k: KState, e: Event)
    requires Inv(k) && Enabled(k, e)
    ensures k.current in Handle(k, e).threads <==> !(e.ThreadExit? && k.current != k.mainTcb)
  {
    CurrentLives(k);
    if IsCall(e) {
      CallReady(k, e);
      CallStays(SetA0(k, FAILED_SYSCALL), e);
    } else {
      HandledInterrupt(k, e);
      InterruptStays(k, e);
    }
  }

  lemma CallStays(k: KState, e: Event)
    requires k.current in k.threads && k.getcSem in k.sems && k.putcSem in k.sems
    requires IsCall(e) && Enabled(k, e) && k.userSems <= k.sems.Keys
    ensures k.current in HandleCall(k, e).threads <==> !(e.ThreadExit? && k.current != k.mainTcb)
  {
  }

  lemma InterruptStays(k: KState, e: Event)
    requires k.current in k.threads && k.getcSem in k.sems && k.putcSem in k.sems && Enabled(k, e) && !IsCall(e)
    ensures k.current in HandleInterrupt(k, e).threads
  {
  }

  // ---------- semaphores ----------

  /** The operations a step performs on semaphore `s`. */
  function OpsOn(k: KState, e: Event, s: Sem): seq<SemOp<TCB>> {
    match e
    case SemWait(x) => if x == s then [OpWait(k.current)] else []
    case ThreadJoin(t) => if JoinSemOf(k, t) == s then [OpWait(k.current)] else []
    case GetC => if s == k.getcSem then [OpWait(k.current)] else []
    case PutC(c) => if s == k.putcSem then [OpWait(k.current)] else []
    case SemSignal(x) => if x == s then [OpSignal] else []
    case Flush => if s == k.putcSem then [OpSignal] else []
    case ConsoleInput(c) => if s == k.getcSem && |k.getcBuf| < IO_BUFFER_SIZE then [OpSignal] else []
    case _ => []
  }

  lemma ApplyOne(s: SemState<TCB>, op: SemOp<TCB>)
    ensures ApplyAll(s, [op]) == Apply(s, op)
  {
    assert [op][..0] == [];
  }

  /** What a step does to a semaphore that outlives it are those operations and nothing else. */
  lemma StepOnSem(k: KState, e: Event, s: Sem)
    requires Inv(k) && Enabled(k, e) && s in k.sems && !Closes(k, e, s)
    ensures s in Step(k, e).sems && Step(k, e).sems[s] == ApplyAll(k.sems[s], OpsOn(k, e, s))
  {
    StepIsHandled(k, e);
    HandleOnSem(k, e, s);
    if Switches(k, e) { NextEffect(Handle(k, e)); }
  }

  lemma HandleOnSem(k: KState, e: Event, s: Sem)
    requires Inv(k) && Enabled(k, e) && s in k.sems && !Closes(k, e, s)
    ensures s in Handle(k, e).sems && Handle(k, e).sems[s] == ApplyAll(k.sems[s], OpsOn(k, e, s))
  {
    if IsCall(e) {
      HandledCall(k, e);
      CallOnSem(SetA0(k, FAILED_SYSCALL), e, s);
    } else {
      HandledInterrupt(k, e);
      InterruptOnSem(k, e, s);
    }
  }

  lemma InterruptOnSem(k: KState, e: Event, s: Sem)
    requires k.current in k.threads && k.getcSem in k.sems && k.putcSem in k.sems && Enabled(k, e) && !IsCall(e)
    requires s in k.sems
    ensures s in HandleInterrupt(k, e).sems && HandleInterrupt(k, e).sems[s] == ApplyAll(k.sems[s], OpsOn(k, e, s))
  {
    ApplyOne(k.sems[s], OpSignal);
  }

  lemma CallOnSem(k: KState, e: Event, s: Sem)
    requires k.current in k.threads && k.getcSem in k.sems && k.putcSem in k.sems
    requires IsCall(e) && Enabled(k, e) && k.userSems <= k.sems.Keys && s in k.sems && !Closes(k, e, s)
    ensures s in HandleCall(k, e).sems && HandleCall(k, e).sems[s] == ApplyAll(k.sems[s], OpsOn(k, e, s))
  {
    ApplyOne(k.sems[s], OpWait(k.current));
    ApplyOne(k.sems[s], OpSignal);
  }

  ghost predicate NeverClosed(k: KState, events: seq<Event>, s: Sem)
    requires Inv(k) && CanRun(k, events)
    decreases |events|
  {
    events != [] ==>
      !Closes(k, events[0], s) && (StepInv(k, events[0]); NeverClosed(Step(k, events[0]), events[1..], s))
  }

  ghost function AllOpsOn(k: KState, events: seq<Event>, s: Sem): seq<SemOp<TCB>>
    requires Inv(k) && CanRun(k, events)
    decreases |events|
  {
    if events == [] then []
    else
      StepInv(k, events[0]);
      OpsOn(k, events[0], s) + AllOpsOn(Step(k, events[0]), events[1..], s)
  }

  lemma {:induction false} RunOnSem(k: KState, events: seq<Event>, s: Sem)
    requires Inv(k) && CanRun(k, events) && s in k.sems && NeverClosed(k, events, s)
    ensures s in After(k, events).sems
    ensures After(k, events).sems[s] == ApplyAll(k.sems[s], AllOpsOn(k, events, s))
    decreases |events|
  {
    if events != [] {
      StepInv(k, events[0]);
      StepOnSem(k, events[0], s);
      RunOnSem(Step(k, events[0]), events[1..], s);
      ApplyAllConcat(k.sems[s], OpsOn(k, events[0], s), AllOpsOn(Step(k, events[0]), events[1..], s));
    }
  }

  /** Over every run of the kernel, from a value nobody waits for up to the closing, the law of
      counting semaphores holds of the operations performed on a semaphore. */
  lemma LawFrom(k: KState, events: seq<Event>, s: Sem, init: nat)
    requires Inv(k) && CanRun(k, events) && s in k.sems && NeverClosed(k, events, s)
    requires k.sems[s] == SemState(init, [])
    ensures s in After(k, events).sems
    ensures SemaphoreLaw(init, AllOpsOn(k, events, s), After(k, events).sems[s])
  {
    RunOnSem(k, events, s);
    SemaphoreRun<TCB>(init, AllOpsOn(k, events, s));
  }

  // ---------- each thread's output keeps its order ----------

  /** The characters of thread `t`. */
  function Mine(entries: seq<(TCB, char)>, t: TCB): seq<char> {
    if entries == [] then []
    else
      var last := entries[|entries| - 1];
      Mine(entries[..|entries| - 1], t) + if last.0 == t then [last.1] else []
  }

  lemma {:induction false} MineConcat(a: seq<(TCB, char)>, b: seq<(TCB, char)>, t: TCB)
    ensures Mine(a + b, t) == Mine(a, t) + Mine(b, t)
  {
    if b == [] {
      assert a + b == a;
    } else {
      var front := b[..|b| - 1];
      assert (a + b)[..|a + b| - 1] == a + front;
      MineConcat(a, front, t);
    }
  }

  /** The character a suspended thread still has to put. */
  function Pending(k: KState, t: TCB, c: TCB?): seq<char> {
    if t in k.threads && t != c && k.threads[t].cont.ThenPutc? then [k.threads[t].cont.c] else []
  }

  /** A thread's completed puts are its calls, in order, up to the one it is suspended in. */
  ghost predicate InOrder(k: KState, t: TCB, c: TCB?) {
    Mine(k.log.puts, t) + Pending(k, t, c) == Mine(k.log.calls, t)
  }

  /** Nobody has put anything yet. */
  lemma BootedInOrder(mainTcb: TCB, flushTcb: TCB, putcSem: Sem, getcSem: Sem, flushJoin: Sem, t: TCB)
    ensures InOrder(Booted(mainTcb, flushTcb, putcSem, getcSem, flushJoin), t, mainTcb)
  {
  }

  /** What handlers other than that of `putc` do to the log. */
  lemma HandleLog(k: KState, e: Event)
    requires Inv(k) && Enabled(k, e) && !e.PutC?
    ensures Handle(k, e).log.puts == k.log.puts && Handle(k, e).log.calls == k.log.calls
  {
    if IsCall(e) {
      HandledCall(k, e);
      CallLog(SetA0(k, FAILED_SYSCALL), e);
    } else {
      HandledInterrupt(k, e);
      InterruptLog(k, e);
    }
  }

  lemma InterruptLog(k: KState, e: Event)
    requires k.current in k.threads && k.getcSem in k.sems && k.putcSem in k.sems && Enabled(k, e) && !IsCall(e)
    ensures HandleInterrupt(k, e).log.puts == k.log.puts && HandleInterrupt(k, e).log.calls == k.log.calls
  {
  }

  lemma CallLog(k: KState, e: Event)
    requires k.current in k.threads && k.getcSem in k.sems && k.putcSem in k.sems
    requires IsCall(e) && Enabled(k, e) && k.userSems <= k.sems.Keys && !e.PutC?
    ensures HandleCall(k, e).log.puts == k.log.puts && HandleCall(k, e).log.calls == k.log.calls
  {
  }

  /** What a handler other than that of `putc` leaves the current and any new thread to do. */
  lemma HandleConts(k: KState, e: Event, t: TCB)
    requires Inv(k) && Enabled(k, e) && !e.PutC? && t in Handle(k, e).threads
    ensures t == k.current && Switches(k, e) ==> !Handle(k, e).threads[t].cont.ThenPutc?
    ensures t !in k.threads ==> Handle(k, e).threads[t].cont.Fresh?
  {
    CurrentLives(k);
    if IsCall(e) {
      HandledCall(k, e);
      CallConts(SetA0(k, FAILED_SYSCALL), e, t);
      SwitchesSame(k, e);
    } else {
      HandledInterrupt(k, e);
      InterruptConts(k, e, t);
    }
  }

  lemma CallConts(k: KState, e: Event, t: TCB)
    requires k.current in k.threads && k.getcSem in k.sems && k.putcSem in k.sems
    requires IsCall(e) && Enabled(k, e) && k.userSems <= k.sems.Keys && !e.PutC? && t in HandleCall(k, e).threads
    ensures t == k.current && Switches(k, e) ==> !HandleCall(k, e).threads[t].cont.ThenPutc?
    ensures t !in k.threads ==> HandleCall(k, e).threads[t].cont.Fresh?
  {
  }

  lemma InterruptConts(k: KState, e: Event, t: TCB)
    requires k.current in k.threads && k.getcSem in k.sems && k.putcSem in k.sems && Enabled(k, e) && !IsCall(e)
    requires t in HandleInterrupt(k, e).threads
    ensures t == k.current && Switches(k, e) ==> !HandleInterrupt(k, e).threads[t].cont.ThenPutc?
    ensures t in k.threads
  {
  }

  lemma HandleOrder(k: KState, e: Event, t: TCB)
    requires Inv(k) && Enabled(k, e) && !e.PutC? && InOrder(k, t, k.current)
    ensures InOrder(Handle(k, e), t, if Switches(k, e) then null else k.current)
  {
    HandleLog(k, e);
    HandlePending(k, e, t);
  }

  lemma HandlePending(k: KState, e: Event, t: TCB)
    requires Inv(k) && Enabled(k, e) && !e.PutC?
    ensures Pending(Handle(k, e), t, if Switches(k, e) then null else k.current) == Pending(k, t, k.current)
  {
    OthersKeepConts(k, e, t);
    if t in Handle(k, e).threads { HandleConts(k, e, t); }
  }

  lemma OthersKeepConts(k: KState, e: Event, t: TCB)
    requires Inv(k) && Enabled(k, e)
    ensures t in k.threads && t != k.current ==>
      t in Handle(k, e).threads && Handle(k, e).threads[t].cont == k.threads[t].cont
  {
    HandleEffect(k, e);
    if t in k.threads && t != k.current {
      assert LeftOrWoken(k, e, k.threads[t], Handle(k, e).threads[t]);
    }
  }

  /** A `putc` either completes at once or leaves its character pending. */
  lemma PutHandled(k: KState, c: char, t: TCB)
    requires Inv(k) && Enabled(k, PutC(c))
    ensures k.current in k.threads && PutHandledBy(k, c, t, Handle(k, PutC(c)))
  {
    CurrentLives(k);
    HandledCall(k, PutC(c));
    PutCalled(SetA0(k, FAILED_SYSCALL), c, t);
    SwitchesSame(k, PutC(c));
  }

  predicate PutHandledBy(k: KState, c: char, t: TCB, h: KState) {
    && h.log.calls == k.log.calls + [(k.current, c)]
    && h.log.puts == k.log.puts + (if Switches(k, PutC(c)) then [] else [(k.current, c)])
    && k.current in h.threads && (Switches(k, PutC(c)) ==> h.threads[k.current].cont == ThenPutc(c))
    && (t !in k.threads ==> t !in h.threads)
  }

  lemma PutCalled(k: KState, c: char, t: TCB)
    requires k.current in k.threads && k.getcSem in k.sems && k.putcSem in k.sems
    requires Enabled(k, PutC(c)) && k.userSems <= k.sems.Keys
    ensures PutHandledBy(k, c, t, HandleCall(k, PutC(c)))
  {
  }

  lemma PutOrder(k: KState, c: char, t: TCB)
    requires Inv(k) && Enabled(k, PutC(c)) && InOrder(k, t, k.current)
    ensures InOrder(Handle(k, PutC(c)), t, if Switches(k, PutC(c)) then null else k.current)
  {
    PutHandled(k, c, t);
    OthersKeepConts(k, PutC(c), t);
    PutInOrder(k, c, t, Handle(k, PutC(c)));
  }

  lemma PutInOrder(k: KState, c: char, t: TCB, h: KState)
    requires PutHandledBy(k, c, t, h) && InOrder(k, t, k.current)
    requires t in k.threads && t != k.current ==> t in h.threads && h.threads[t].cont == k.threads[t].cont
    ensures InOrder(h, t, if Switches(k, PutC(c)) then null else k.current)
  {
    PutAppends(k.log.puts, k.log.calls, k.current, c, t);
  }

  lemma PutAppends(puts: seq<(TCB, char)>, calls: seq<(TCB, char)>, u: TCB, c: char, t: TCB)
    ensures Mine(calls + [(u, c)], t) == Mine(calls, t) + if u == t then [c] else []
    ensures Mine(puts + [(u, c)], t) == Mine(puts, t) + if u == t then [c] else []
    ensures puts + [] == puts
  {
    MineConcat(calls, [(u, c)], t);
    MineConcat(puts, [(u, c)], t);
    assert [(u, c)][..0] == [];
  }

  lemma NextOrder(h: KState, t: TCB)
    requires Core(h, null) && InOrder(h, t, null)
    ensures InOrder(Next(h), t, Next(h).current)
  {
    NextPending(h, t);
    MinePut(h.log.puts, h.ready[0], h.threads[h.ready[0]].cont, t);
  }

  lemma MinePut(puts: seq<(TCB, char)>, u: TCB, cont: Continuation, t: TCB)
    ensures Mine(puts + PutOf(u, cont), t) == Mine(puts, t) + if u == t && cont.ThenPutc? then [cont.c] else []
  {
    match cont
    case ThenPutc(c) => PutAppends(puts, [], u, c, t);
    case _ => assert puts + [] == puts;
  }

  lemma NextPending(h: KState, t: TCB)
    requires Core(h, null)
    ensures h.ready != [] && h.ready[0] in h.threads
    ensures var first, k := h.ready[0], Next(h);
      && k.log.calls == h.log.calls
      && k.log.puts == h.log.puts + PutOf(first, h.threads[first].cont)
      && Pending(k, t, k.current) == if t == first then [] else Pending(h, t, null)
  {
    NextEffect(h);
  }

  lemma StepOrder(k: KState, e: Event, t: TCB)
    requires Inv(k) && Enabled(k, e) && InOrder(k, t, k.current)
    ensures InOrder(Step(k, e), t, Step(k, e).current)
  {
    StepIsHandled(k, e);
    if e.PutC? { PutOrder(k, e.c, t); } else { HandleOrder(k, e, t); }
    if Switches(k, e) { NextOrder(Handle(k, e), t); }
  }

  /** In every run, each thread's characters enter the output in the order of its calls, none
      lost and none repeated; at most the one it is suspended in is still to come. */
  lemma {:induction false} OutputInOrder(k: KState, events: seq<Event>, t: TCB)
    requires Inv(k) && CanRun(k, events) && InOrder(k, t, k.current)
    ensures InOrder(After(k, events), t, After(k, events).current)
    decreases |events|
  {
    if events != [] {
      StepInv(k, events[0]);
      StepOrder(k, events[0], t);
      OutputInOrder(Step(k, events[0]), events[1..], t);
    }
  }
}
