/** What callers get: results of calls, joins, semaphores and characters, over whole runs. */
module KernelCalls {
  import opened Threads
  import opened SemSpec
  import opened KernelSpec
  import opened KernelPlaces
  import opened KernelSteps
  import opened KernelRuns
  import opened KernelConsole
  import opened KernelEffects
  import opened KernelTheorems
  import opened KernelHistories
  import opened KernelResults

  // ---------- one step ----------

  /** A call that does not switch returns to its caller with the result due. */
  lemma ReturnsAtOnce(k: KState, e: Event)
    requires Inv(k) && Enabled(k, e) && IsCall(e) && !Switches(k, e)
    ensures var k' := Step(k, e);
      k'.current == k.current && k.current in k'.threads && k'.threads[k.current].a0 == Immediate(k, e)
  {
    StepIsHandled(k, e);
    HandlerServes(k, e);
  }

  /** Who runs next, who is ready behind in which order, and which threads and semaphores there are. */
  lemma StepMoves(k: KState, e: Event)
    requires Inv(k) && Enabled(k, e)
    ensures k.current in k.threads
    ensures var k', queue := Step(k, e), k.ready + Readied(k, e);
      && (if Switches(k, e) then queue != [] && k'.current == queue[0] && k'.ready == queue[1..]
          else k'.current == k.current && k'.ready == queue)
      && k'.sems.Keys == k.sems.Keys + Opened(e).Keys - Gone(k, e)
      && (forall s :: s in Opened(e) ==> s in k'.sems && k'.sems[s] == Opened(e)[s])
      && k'.userSems == k.userSems + (if e.SemOpen? then {e.newSem} else {}) - Gone(k, e)
      && k'.threads.Keys == k.threads.Keys + Born(e).Keys
                            - (if e.ThreadExit? && k.current != k.mainTcb then {k.current} else {})
      && (forall t :: t in Born(e) ==> t in k'.threads && k'.threads[t] == Born(e)[t])
  {
    StepIsHandled(k, e);
    HandlerMoves(k, e);
    if Switches(k, e) { NextServes(Handle(k, e)); }
  }

  /** A thread that does not run keeps its a0 and its place to go on at; when it is taken, it gets
      the result it was suspended for. */
  lemma OthersStay(k: KState, e: Event, t: TCB)
    requires Inv(k) && Enabled(k, e) && t in k.threads && t != k.current
    ensures var k', th := Step(k, e), k.threads[t];
      && t in k'.threads
      && (k'.current != t ==> k'.threads[t].a0 == th.a0 && k'.threads[t].cont == th.cont)
      && (k'.current == t && !th.cont.AfterSemWait? && !th.cont.ThenGetc? ==> k'.threads[t].a0 == th.a0)
      && (k'.current == t && th.cont.ThenGetc? ==>
            k'.log.gets != [] && k'.log.gets[|k'.log.gets| - 1].0 == t
            && k'.threads[t].a0 == k'.log.gets[|k'.log.gets| - 1].1 as int)
  {
    StepIsHandled(k, e);
    OthersHandled(k, e, t);
    if Switches(k, e) { NextOf(Handle(k, e), t); }
  }

  lemma OthersHandled(k: KState, e: Event, t: TCB)
    requires Inv(k) && Enabled(k, e) && t in k.threads && t != k.current
    ensures var h, th := Handle(k, e), k.threads[t];
      t in h.threads && h.threads[t].a0 == th.a0 && h.threads[t].cont == th.cont
  {
    HandleEffect(k, e);
    assert LeftOrWoken(k, e, k.threads[t], Handle(k, e).threads[t]);
  }

  lemma NextOf(h: KState, t: TCB)
    requires Core(h, null) && t in h.threads
    ensures var k', th := Next(h), h.threads[t];
      && t in k'.threads && (k'.current != t ==> k'.threads[t] == th)
      && (k'.current == t && !th.cont.AfterSemWait? && !th.cont.ThenGetc? ==> k'.threads[t].a0 == th.a0)
      && (k'.current == t && th.cont.ThenGetc? ==>
            k'.log.gets != [] && k'.log.gets[|k'.log.gets| - 1].0 == t
            && k'.threads[t].a0 == k'.log.gets[|k'.log.gets| - 1].1 as int)
  {
    NextServes(h);
  }

  /** A caller that is suspended is not taken by the same step, unless it only gave up its turn. */
  lemma CallerSuspended(k: KState, e: Event)
    requires Inv(k) && Enabled(k, e) && IsCall(e) && Switches(k, e) && !e.ThreadExit?
    ensures k.current in k.threads
    ensures var k', t := Step(k, e), k.current;
      && t in k'.threads
      && (k'.current == t ==> e.ThreadDispatch? && k'.threads[t].a0 == -1)
      && (k'.current != t ==>
            var th := k'.threads[t];
            th.a0 == (if e.TimeSleep? then 0 else -1) && th.cont == GoesOn(e) && th.place == WaitsIn(k, e))
  {
    StepIsHandled(k, e);
    HandlerServes(k, e);
    var h := Handle(k, e);
    NextServes(h);
    assert h.ready[0] in h.ready;
  }

  // ---------- results of calls ----------

  /** A suspended thread finds in a0 what was there, unless it waited or asked for a character. */
  lemma {:induction false} KeepsResult(k: KState, events: seq<Event>, t: TCB)
    requires Inv(k) && CanRun(k, events) && FirstRunsAtEnd(k, events, t)
    requires t in k.threads && t != k.current && !k.threads[t].cont.AfterSemWait? && !k.threads[t].cont.ThenGetc?
    ensures t in After(k, events).threads && After(k, events).threads[t].a0 == k.threads[t].a0
    decreases |events|
  {
    StepInv(k, events[0]);
    OthersStay(k, events[0], t);
    if |events| > 1 { KeepsResult(Step(k, events[0]), events[1..], t); } else { assert events[1..] == []; }
  }

  /** One that asked for a character finds the one handed out last. */
  lemma {:induction false} GetsCharacter(k: KState, events: seq<Event>, t: TCB)
    requires Inv(k) && CanRun(k, events) && FirstRunsAtEnd(k, events, t)
    requires t in k.threads && t != k.current && k.threads[t].cont.ThenGetc?
    ensures t in After(k, events).threads && HandedOut(After(k, events), t)
    decreases |events|
  {
    StepInv(k, events[0]);
    OthersStay(k, events[0], t);
    if |events| > 1 { GetsCharacter(Step(k, events[0]), events[1..], t); } else { assert events[1..] == []; }
  }

  /** The last character handed out went to `t`, which has it in a0. */
  predicate HandedOut(k: KState, t: TCB)
    requires t in k.threads
  {
    && k.log.gets != [] && k.log.gets[|k.log.gets| - 1].0 == t
    && k.threads[t].a0 == k.log.gets[|k.log.gets| - 1].1 as int
  }

  /** The result of every call, when its caller next runs. */
  ghost predicate Returned(k: KState, events: seq<Event>)
    requires Inv(k) && CanRun(k, events) && events != []
  {
    StepInv(k, events[0]);
    var t, k' := k.current, After(k, events);
    && t in k'.threads
    && match events[0]
       case CreateThread(_, _) => k'.threads[t].a0 == 0
       case SemOpen(_, _) => k'.threads[t].a0 == 0
       case SemClose(s) => k'.threads[t].a0 == if s == null then -1 else 0
       case SemSignal(s) => k'.threads[t].a0 == if s == null then -1 else 0
       case SemWait(s) =>
         k'.threads[t].a0 ==
           if s == null || ClosedWhileQueued(Step(k, events[0]), events[1..], t, s) then -1 else 0
       case TimeSleep(n) => k'.threads[t].a0 == if n == 0 then -1 else 0
       case GetC => HandedOut(k', t)
       case OtherCall(r) => k'.threads[t].a0 == r
       case _ => k'.threads[t].a0 == -1
  }

  /** Whatever happens until then: success and failure codes are as documented; a wait fails exactly
      if its caller was queued when the semaphore was closed; `getc` returns the character taken. */
  lemma CallReturns(k: KState, events: seq<Event>)
    requires Inv(k) && CanRun(k, events) && FirstRunsAtEnd(k, events, k.current)
    requires IsCall(events[0]) && !(events[0].ThreadExit? && k.current != k.mainTcb)
    ensures Returned(k, events)
  {
    var e, t := events[0], k.current;
    StepInv(k, e);
    if !Switches(k, e) {
      ReturnsNow(k, events);
    } else {
      CallerSuspended(k, e);
      if Step(k, e).current == t {
        assert |events| == 1 && events[1..] == [];
      } else {
        ReturnsLater(k, events);
      }
    }
  }

  lemma ReturnsNow(k: KState, events: seq<Event>)
    requires Inv(k) && CanRun(k, events) && FirstRunsAtEnd(k, events, k.current)
    requires IsCall(events[0]) && !Switches(k, events[0])
    ensures Returned(k, events)
  {
    StepInv(k, events[0]);
    ReturnsAtOnce(k, events[0]);
    assert |events| == 1 && events[1..] == [];
    if events[0].GetC? { GetcAtOnce(k); }
  }

  lemma GetcAtOnce(k: KState)
    requires Inv(k) && Enabled(k, GetC) && !Switches(k, GetC)
    ensures k.current in Step(k, GetC).threads && HandedOut(Step(k, GetC), k.current)
  {
    StepIsHandled(k, GetC);
    HandlerServes(k, GetC);
    HandlerRecords(k, GetC);
  }

  lemma ReturnsLater(k: KState, events: seq<Event>)
    requires Inv(k) && CanRun(k, events) && FirstRunsAtEnd(k, events, k.current)
    requires IsCall(events[0]) && Switches(k, events[0]) && !events[0].ThreadExit?
    requires Inv(Step(k, events[0])) && Step(k, events[0]).current != k.current
    ensures Returned(k, events)
  {
    var e, t, k1 := events[0], k.current, Step(k, events[0]);
    CallerSuspended(k, e);
    if e.SemWait? {
      WaitOutcome(k1, events[1..], t, e.sem);
    } else if e.GetC? {
      GetsCharacter(k1, events[1..], t);
    } else {
      KeepsResult(k1, events[1..], t);
    }
  }

  // ---------- join ----------

  /** Every live thread's join semaphore has let nobody pass: its value is minus its joiners. */
  ghost predicate JoinsHold(k: KState) {
    forall t :: t in k.threads && k.threads[t].joinSem != null ==>
      var s := k.threads[t].joinSem; s in k.sems && k.sems[s].value == -|k.sems[s].waiters|
  }

  lemma StepJoins(k: KState, e: Event)
    requires Inv(k) && Enabled(k, e) && JoinsHold(k)
    ensures JoinsHold(Step(k, e))
  {
    var k' := Step(k, e);
    StepInv(k, e);
    StepMoves(k, e);
    forall t | t in k'.threads && k'.threads[t].joinSem != null
      ensures k'.threads[t].joinSem in k'.sems && k'.sems[k'.threads[t].joinSem].value <= 0
    {
      if t in k.threads {
        JoinSemKept(k, e, t);
        JoinSemWaits(k, e, t);
      }
    }
  }

  /** Nobody signals the join semaphore of a thread that lives on. */
  lemma JoinSemWaits(k: KState, e: Event, t: TCB)
    requires Inv(k) && Enabled(k, e) && t in k.threads && t in Step(k, e).threads && k.threads[t].joinSem != null
    requires JoinsHold(k)
    ensures var s := k.threads[t].joinSem; s in Step(k, e).sems && Step(k, e).sems[s].value <= 0
  {
    var s := k.threads[t].joinSem;
    assert k.threads[k.mainTcb].joinSem == null;
    assert IsInternal(k, s);
    WhoIsLeft(k, e, t);
    InternalCloses(k, e, t, s);
    NotSignalled(k, e, s);
    StepOnSem(k, e, s);
    ApplyOne(k.sems[s], OpWait(k.current));
  }

  lemma {:induction false} RunJoins(k: KState, events: seq<Event>)
    requires Inv(k) && CanRun(k, events) && JoinsHold(k)
    ensures JoinsHold(After(k, events))
    decreases |events|
  {
    if events != [] {
      StepInv(k, events[0]);
      StepJoins(k, events[0]);
      RunJoins(Step(k, events[0]), events[1..]);
    }
  }

  lemma BootedJoins(mainTcb: TCB, flushTcb: TCB, putcSem: Sem, getcSem: Sem, flushJoin: Sem)
    requires flushJoin != putcSem && flushJoin != getcSem && mainTcb != flushTcb
    ensures JoinsHold(Booted(mainTcb, flushTcb, putcSem, getcSem, flushJoin))
  {
  }

  /** Joining a live thread other than main suspends the caller until that thread exits. */
  lemma JoinStarts(k: KState, t: TCB)
    requires Inv(k) && JoinsHold(k) && Enabled(k, ThreadJoin(t)) && t != k.mainTcb
    ensures Switches(k, ThreadJoin(t)) && Inv(Step(k, ThreadJoin(t)))
    ensures Step(k, ThreadJoin(t)).current != k.current && Joining(Step(k, ThreadJoin(t)), k.current, t)
  {
    var e := ThreadJoin(t);
    StepInv(k, e);
    CurrentLives(k);
    assert IsInternal(k, k.threads[t].joinSem);
    CallerSuspended(k, e);
    WhoIsLeft(k, e, t);
    JoinSemKept(k, e, t);
  }

  /** In every run, `BootedJoins` being the start: whoever joins a live thread other than main waits
      from that call to the exit of that thread, and becomes ready in just that step. */
  lemma JoinWaitsForExit(k0: KState, events: seq<Event>, t: TCB, events': seq<Event>) returns (n: nat)
    requires Inv(k0) && JoinsHold(k0) && CanRun(k0, events)
    requires Enabled(After(k0, events), ThreadJoin(t)) && t != After(k0, events).mainTcb
    requires Inv(Step(After(k0, events), ThreadJoin(t))) && CanRun(Step(After(k0, events), ThreadJoin(t)), events')
    ensures JoinLasts(Step(After(k0, events), ThreadJoin(t)), events', After(k0, events).current, t, n)
  {
    var k := After(k0, events);
    RunJoins(k0, events);
    JoinStarts(k, t);
    n := JoinLastsUntilExit(Step(k, ThreadJoin(t)), events', k.current, t);
  }

  // ---------- semaphores ----------

  /** Over every run of the kernel that begins with `sem_open`, until the semaphore is closed, the law
      of counting semaphores holds of the operations performed on it, from the value asked for. */
  lemma KernelSemaphore(k: KState, events: seq<Event>, s: Sem, init: nat)
    requires Inv(k) && CanRun(k, events) && events != [] && events[0] == SemOpen(s, init)
    requires Inv(Step(k, events[0])) && NeverClosed(Step(k, events[0]), events[1..], s)
    ensures s in After(k, events).sems
    ensures SemaphoreLaw(init, AllOpsOn(Step(k, events[0]), events[1..], s), After(k, events).sems[s])
  {
    StepMoves(k, events[0]);
    LawFrom(Step(k, events[0]), events[1..], s, init);
  }

  // ---------- characters ----------

  function Codes(chars: seq<char>): seq<int> {
    seq(|chars|, i requires 0 <= i < |chars| => chars[i] as int)
  }

  /** Thread `t` comes out of a `getc`, at once or after having been suspended in it. */
  ghost predicate Got(k: KState, e: Event, t: TCB)
    requires Inv(k) && Enabled(k, e)
  {
    && Step(k, e).current == t && t in Step(k, e).threads
    && if t == k.current then e.GetC? && !Switches(k, e) else t in k.threads && k.threads[t].cont.ThenGetc?
  }

  /** What it then has in a0. */
  ghost function Found(k: KState, e: Event, t: TCB): seq<int>
    requires Inv(k) && Enabled(k, e)
  {
    if Got(k, e, t) then [Step(k, e).threads[t].a0] else []
  }

  ghost function AllFound(k: KState, events: seq<Event>, t: TCB): seq<int>
    requires Inv(k) && CanRun(k, events)
    decreases |events|
  {
    if events == [] then []
    else
      StepInv(k, events[0]);
      Found(k, events[0], t) + AllFound(Step(k, events[0]), events[1..], t)
  }

  ghost function AllAccepted(k: KState, events: seq<Event>): seq<char>
    requires Inv(k) && CanRun(k, events)
    decreases |events|
  {
    if events == [] then []
    else
      StepInv(k, events[0]);
      Accepted(k, events[0]) + AllAccepted(Step(k, events[0]), events[1..])
  }

  ghost function AllCalls(k: KState, events: seq<Event>): seq<(TCB, char)>
    requires Inv(k) && CanRun(k, events)
    decreases |events|
  {
    if events == [] then []
    else
      StepInv(k, events[0]);
      CallOf(k, events[0]) + AllCalls(Step(k, events[0]), events[1..])
  }

  /** What a step hands out is what the thread that runs after it finds. */
  ghost predicate HandsOut(k: KState, k': KState, got: bool)
    requires k'.current in k'.threads
  {
    if got then
      |k'.log.gets| == |k.log.gets| + 1 && k'.log.gets[..|k.log.gets|] == k.log.gets && HandedOut(k', k'.current)
    else k'.log.gets == k.log.gets
  }

  lemma StepHandsOut(k: KState, e: Event)
    requires Inv(k) && Enabled(k, e)
    ensures var k' := Step(k, e); k'.current in k'.threads && HandsOut(k, k', Got(k, e, k'.current))
  {
    StepIsHandled(k, e);
    HandlerServes(k, e);
    HandlerRecords(k, e);
    if Switches(k, e) {
      GotBySwitch(k, e);
      NextHandsOut(k, Handle(k, e));
    }
  }

  lemma GotBySwitch(k: KState, e: Event)
    requires Inv(k) && Enabled(k, e) && Switches(k, e)
    ensures var h := Handle(k, e);
      && Core(h, null) && h.ready != [] && h.ready[0] in h.threads && Step(k, e) == Next(h)
      && Next(h).current == h.ready[0]
      && (Got(k, e, h.ready[0]) <==> h.threads[h.ready[0]].cont.ThenGetc?)
  {
    StepIsHandled(k, e);
    NextServes(Handle(k, e));
    HeadOf(k, e, Handle(k, e).ready[0]);
  }

  lemma NextHandsOut(k: KState, h: KState)
    requires Core(h, null) && h.log.gets == k.log.gets && h.ready != [] && h.ready[0] in h.threads
    ensures Next(h).current in Next(h).threads
    ensures HandsOut(k, Next(h), h.threads[h.ready[0]].cont.ThenGetc?)
  {
    NextServes(h);
  }

  /** Where the thread that is taken was before. */
  lemma HeadOf(k: KState, e: Event, t: TCB)
    requires Inv(k) && Enabled(k, e) && Switches(k, e)
    requires Handle(k, e).ready != [] && t == Handle(k, e).ready[0]
    ensures t in Handle(k, e).threads
    ensures var th := Handle(k, e).threads[t];
      if t == k.current then !th.cont.ThenGetc?
      else if t in k.threads then th.cont == k.threads[t].cont
      else th.cont.Fresh?
  {
    StepIsHandled(k, e);
    HandlerMoves(k, e);
    ReadyPlace(Handle(k, e), t);
    if t == k.current {
      HandlerServes(k, e);
    } else if t in k.threads {
      OthersHandled(k, e, t);
    }
  }

  lemma ReadyPlace(h: KState, t: TCB)
    requires Core(h, null) && t in h.ready
    ensures t in h.threads && h.threads[t].place == InReady
  {
  }

  lemma FoundIsMine(k: KState, e: Event, t: TCB)
    requires Inv(k) && Enabled(k, e)
    ensures Codes(Mine(Step(k, e).log.gets, t)) == Codes(Mine(k.log.gets, t)) + Found(k, e, t)
  {
    StepHandsOut(k, e);
    var k' := Step(k, e);
    if Got(k, e, k'.current) {
      OneMore(k.log.gets, k'.log.gets, t);
    } else {
      assert Codes(Mine(k.log.gets, t)) + [] == Codes(Mine(k.log.gets, t));
    }
  }

  lemma OneMore(before: seq<(TCB, char)>, after: seq<(TCB, char)>, t: TCB)
    requires |after| == |before| + 1 && after[..|before|] == before
    ensures var last := after[|before|];
      Codes(Mine(after, t)) == Codes(Mine(before, t)) + if last.0 == t then [last.1 as int] else []
  {
  }

  /** Over every run the characters that a thread finds in a0 after its `getc`s are those handed to
      it, in order. */
  lemma {:induction false} InputInOrder(k: KState, events: seq<Event>, t: TCB)
    requires Inv(k) && CanRun(k, events)
    ensures Codes(Mine(After(k, events).log.gets, t)) == Codes(Mine(k.log.gets, t)) + AllFound(k, events, t)
    decreases |events|
  {
    if events != [] {
      var e, k1 := events[0], Step(k, events[0]);
      StepInv(k, e);
      FoundIsMine(k, e, t);
      InputInOrder(k1, events[1..], t);
      Chain(Codes(Mine(k.log.gets, t)), Found(k, e, t), Codes(Mine(k1.log.gets, t)),
            AllFound(k1, events[1..], t), Codes(Mine(After(k, events).log.gets, t)));
    }
  }

  /** And the log holds what the device delivered, as far as the ring had room, and what was called. */
  lemma {:induction false} LogsAreTrue(k: KState, events: seq<Event>)
    requires Inv(k) && CanRun(k, events)
    ensures After(k, events).log.rx == k.log.rx + AllAccepted(k, events)
    ensures After(k, events).log.calls == k.log.calls + AllCalls(k, events)
    decreases |events|
  {
    if events != [] {
      var e, k1 := events[0], Step(k, events[0]);
      StepInv(k, e);
      StepRecords(k, e);
      LogsAreTrue(k1, events[1..]);
      Chain(k.log.rx, Accepted(k, e), k1.log.rx, AllAccepted(k1, events[1..]), After(k, events).log.rx);
      Chain(k.log.calls, CallOf(k, e), k1.log.calls, AllCalls(k1, events[1..]), After(k, events).log.calls);
    }
  }

  lemma Chain<T>(before: seq<T>, first: seq<T>, middle: seq<T>, rest: seq<T>, after: seq<T>)
    requires middle == before + first && after == middle + rest
    ensures after == before + (first + rest)
  {
  }

  lemma StepRecords(k: KState, e: Event)
    requires Inv(k) && Enabled(k, e)
    ensures Step(k, e).log.rx == k.log.rx + Accepted(k, e)
    ensures Step(k, e).log.calls == k.log.calls + CallOf(k, e)
    ensures Step(k, e).log.tx == k.log.tx + Sent(k, e)
  {
    StepIsHandled(k, e);
    HandlerRecords(k, e);
    if Switches(k, e) { NextServes(Handle(k, e)); }
  }

  /** From boot on, end to end.  In: the characters that the device delivered and the ring had room
      for are those that threads found in a0 and those still in the ring.  Out: the characters that a
      thread passed to `putc` are those of its own among the sent and the buffered, in order, and at
      most one that it still waits to put. */
  lemma ConsoleEndToEnd(mainTcb: TCB, flushTcb: TCB, putcSem: Sem, getcSem: Sem, join: Sem, events: seq<Event>, t: TCB)
    requires mainTcb != flushTcb && putcSem != getcSem && join != putcSem && join != getcSem
    requires Inv(Booted(mainTcb, flushTcb, putcSem, getcSem, join))
    requires CanRun(Booted(mainTcb, flushTcb, putcSem, getcSem, join), events)
    ensures var k0 := Booted(mainTcb, flushTcb, putcSem, getcSem, join);
      var k := After(k0, events);
      && AllAccepted(k0, events) == Chars(k.log.gets) + k.getcBuf
      && Codes(Mine(k.log.gets, t)) == AllFound(k0, events, t)
      && Chars(k.log.puts) == k.log.tx + k.putcBuf
      && Mine(k.log.puts, t) + Pending(k, t, k.current) == Mine(AllCalls(k0, events), t)
  {
    var k0 := Booted(mainTcb, flushTcb, putcSem, getcSem, join);
    ReachableStates(mainTcb, flushTcb, putcSem, getcSem, join, events);
    BootedInOrder(mainTcb, flushTcb, putcSem, getcSem, join, t);
    InputInOrder(k0, events, t);
    LogsAreTrue(k0, events);
    OutputInOrder(k0, events, t);
    assert [] + AllAccepted(k0, events) == AllAccepted(k0, events) && [] + AllCalls(k0, events) == AllCalls(k0, events);
    assert Codes(Mine([], t)) == [] && [] + AllFound(k0, events, t) == AllFound(k0, events, t);
  }
}
