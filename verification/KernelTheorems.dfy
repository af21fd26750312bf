/** What holds over whole runs of the kernel, for every thread and every semaphore. */
module KernelTheorems {
  import opened Threads
  import opened SemSpec
  import opened KernelSpec
  import opened KernelPlaces
  import opened KernelSteps
  import opened KernelRuns
  import opened KernelConsole
  import opened KernelEffects

  // ---------- runs ----------

  /** Every event of the list may happen when its turn comes. */
  ghost predicate CanRun(k: KState, events: seq<Event>)
    requires Inv(k)
    decreases |events|
  {
    events != [] ==>
      && Enabled(k, events[0])
      && (StepInv(k, events[0]); CanRun(Step(k, events[0]), events[1..]))
  }

  ghost function After(k: KState, events: seq<Event>): (k': KState)
    requires Inv(k) && CanRun(k, events)
    ensures Inv(k')
    decreases |events|
  {
    if events == [] then k
    else
      StepInv(k, events[0]);
      After(Step(k, events[0]), events[1..])
  }

  /** The state `main` leaves behind before it enables interrupts. */
  function Booted(mainTcb: TCB, flushTcb: TCB, putcSem: Sem, getcSem: Sem, flushJoin: Sem): KState {
    KState(mainTcb, [flushTcb], [], 0, 0,
           map[mainTcb := Thread(RUNNING, false, AfterDispatch, SUCCESS_SYSCALL, null, Current),
               flushTcb := Thread(READY, false, Fresh, 0, flushJoin, InReady)],
           map[putcSem := SemState(IO_BUFFER_SIZE, []), getcSem := SemState(0, []), flushJoin := SemState(0, [])],
           {}, [], [], Log([], [], [], [], []), mainTcb, flushTcb, putcSem, getcSem)
  }

  lemma BootedInv(mainTcb: TCB, flushTcb: TCB, putcSem: Sem, getcSem: Sem, flushJoin: Sem)
    requires mainTcb != flushTcb && putcSem != getcSem && flushJoin != putcSem && flushJoin != getcSem
    ensures var k := Booted(mainTcb, flushTcb, putcSem, getcSem, flushJoin); Inv(k) && Console(k)
  {
    BootedPlaced(mainTcb, flushTcb, putcSem, getcSem, flushJoin);
    BootedRest(mainTcb, flushTcb, putcSem, getcSem, flushJoin);
  }

  lemma BootedPlaced(mainTcb: TCB, flushTcb: TCB, putcSem: Sem, getcSem: Sem, flushJoin: Sem)
    requires mainTcb != flushTcb && putcSem != getcSem && flushJoin != putcSem && flushJoin != getcSem
    ensures Placed(Booted(mainTcb, flushTcb, putcSem, getcSem, flushJoin), mainTcb)
  {
    var k := Booted(mainTcb, flushTcb, putcSem, getcSem, flushJoin);
    assert k.ready[1..] == [];
    assert Listed(k.threads, Names(k.sleepers), Asleep);
  }

  lemma BootedRest(mainTcb: TCB, flushTcb: TCB, putcSem: Sem, getcSem: Sem, flushJoin: Sem)
    requires mainTcb != flushTcb && putcSem != getcSem && flushJoin != putcSem && flushJoin != getcSem
    ensures var k := Booted(mainTcb, flushTcb, putcSem, getcSem, flushJoin);
      Roles(k) && FlushRuns(k) && ContsFit(k) && SemsOk(k) && SleepOk(k) && Console(k)
  {
    var k := Booted(mainTcb, flushTcb, putcSem, getcSem, flushJoin);
    assert k.ready == [flushTcb] && k.ready[1..] == [];
  }

  lemma {:induction false} RunConsole(k: KState, events: seq<Event>)
    requires Inv(k) && Console(k) && CanRun(k, events)
    ensures Console(After(k, events))
    decreases |events|
  {
    if events != [] {
      StepInv(k, events[0]);
      StepConsole(k, events[0]);
      RunConsole(Step(k, events[0]), events[1..]);
    }
  }

  /** In every state the kernel can reach, each live thread is in exactly one place, the flush
      thread is running or ready, and the console's books balance. */
  lemma ReachableStates(mainTcb: TCB, flushTcb: TCB, putcSem: Sem, getcSem: Sem, flushJoin: Sem, events: seq<Event>)
    requires mainTcb != flushTcb && putcSem != getcSem && flushJoin != putcSem && flushJoin != getcSem
    requires Inv(Booted(mainTcb, flushTcb, putcSem, getcSem, flushJoin))
    requires CanRun(Booted(mainTcb, flushTcb, putcSem, getcSem, flushJoin), events)
    ensures var k := After(Booted(mainTcb, flushTcb, putcSem, getcSem, flushJoin), events);
      Inv(k) && Console(k)
  {
    BootedInv(mainTcb, flushTcb, putcSem, getcSem, flushJoin);
    RunConsole(Booted(mainTcb, flushTcb, putcSem, getcSem, flushJoin), events);
  }

  // ---------- the context switch ----------

  /** The thread taken is the first of the queue; no other thread notices. */
  lemma NextEffect(h: KState)
    requires Core(h, null)
    ensures h.ready != [] && h.ready[0] in h.threads
    ensures var k, t := Next(h), h.ready[0];
      && k.current == t && k.ready == h.ready[1..] && k.now == h.now && k.sems == h.sems && k.sleepers == h.sleepers
      && k.threads.Keys == h.threads.Keys
      && (forall u :: u in h.threads && u != t ==> k.threads[u] == h.threads[u])
      && k.ticks == (if h.threads[t].cont.Fresh? then h.ticks else 0)
      && (h.threads[t].cont.AfterSemWait? ==>
            k.threads[t].a0 == if h.threads[t].interrupted then WAIT_FAIL else WAIT_SUCCESS)
      && k.log.calls == h.log.calls
      && k.log.puts == h.log.puts + PutOf(t, h.threads[t].cont)
  {
    TakeCore(h);
    ResumeEffect(Take(h));
  }

  /** The character a thread puts when it resumes. */
  function PutOf(t: TCB, cont: Continuation): seq<(TCB, char)> {
    match cont
    case ThenPutc(c) => [(t, c)]
    case _ => []
  }

  lemma ResumeEffect(k: KState)
    requires k.current in k.threads
    ensures var k', th := Resume(k), k.threads[k.current];
      && Quiet(k, k') && k'.log.calls == k.log.calls && k'.log.puts == k.log.puts + PutOf(k.current, th.cont)
      && k'.ticks == (if th.cont.Fresh? then k.ticks else 0)
      && (th.cont.AfterSemWait? ==>
            k'.threads[k.current].a0 == if th.interrupted then WAIT_FAIL else WAIT_SUCCESS)
  {
    ResumeQuiet(k);
  }

  // ---------- bounded waiting ----------

  function TimersIn(events: seq<Event>): nat {
    if events == [] then 0 else (if events[0].Timer? then 1 else 0) + TimersIn(events[1..])
  }

  ghost function SwitchesIn(k: KState, events: seq<Event>): nat
    requires Inv(k) && CanRun(k, events)
    decreases |events|
  {
    if events == [] then 0
    else
      StepInv(k, events[0]);
      (if Switches(k, events[0]) then 1 else 0) + SwitchesIn(Step(k, events[0]), events[1..])
  }

  /** The ready queue is first in, first out, across every kind of step. */
  lemma StepQueue(k: KState, e: Event)
    requires Inv(k) && Enabled(k, e) && k.ready != []
    ensures Switches(k, e) ==> Step(k, e).current == k.ready[0] && k.ready[1..] <= Step(k, e).ready
    ensures !Switches(k, e) ==> Step(k, e).current == k.current && k.ready <= Step(k, e).ready
    ensures !Switches(k, e) ==> Step(k, e).ticks == k.ticks + if e.Timer? then 1 else 0
  {
    StepIsHandled(k, e);
    HandleEffect(k, e);
    if Switches(k, e) { FirstTaken(k.ready, Handle(k, e)); }
  }

  lemma FirstTaken(q: seq<TCB>, h: KState)
    requires Core(h, null) && q != [] && q <= h.ready
    ensures Next(h).current == q[0] && q[1..] <= Next(h).ready
  {
    NextEffect(h);
    assert h.ready[0] == q[0] && q[1..] <= h.ready[1..];
  }

  /** A ready thread with `i` threads ahead of it runs after exactly i + 1 switches, and within
      2(i + 1) timer interrupts (one fewer if a tick of this slice has already passed), whatever
      system calls, wake-ups and thread creations intervene. */
  lemma {:induction false} BoundedWaiting(k: KState, events: seq<Event>, i: nat) returns (j: nat)
    requires Inv(k) && CanRun(k, events) && i < |k.ready|
    requires Timely(events, k.ticks, i)
    ensures 0 < j <= |events| && CanRun(k, events[..j])
    ensures After(k, events[..j]).current == k.ready[i]
    ensures SwitchesIn(k, events[..j]) == i + 1
    decreases |events|
  {
    var switched := WaitStep(k, events, i);
    if switched && i == 0 {
      j := 1;
      OneStep(k, events);
    } else {
      var j1 := BoundedWaiting(Step(k, events[0]), events[1..], if switched then i - 1 else i);
      j := j1 + 1;
      PrefixUnfolds(k, events, j);
    }
  }

  /** Timer interrupts enough for a thread with `i` threads ahead of it. */
  predicate Timely(events: seq<Event>, ticks: nat, i: nat) {
    TimersIn(events) + (if ticks >= 1 then 1 else 0) >= 2 * (i + 1)
  }

  lemma TimerSpent(events: seq<Event>, ticks: nat, i: nat)
    requires Timely(events, ticks, i)
    ensures events != []
    ensures i > 0 ==> Timely(events[1..], 0, i - 1)
    ensures !events[0].Timer? ==> Timely(events[1..], ticks, i)
    ensures ticks == 0 ==> Timely(events[1..], 1, i)
  {
  }

  /** One step of the wait: the thread runs, or is still as near as the interrupts to come allow. */
  lemma WaitStep(k: KState, events: seq<Event>, i: nat) returns (switched: bool)
    requires Inv(k) && CanRun(k, events) && i < |k.ready| && Timely(events, k.ticks, i)
    ensures events != [] && switched == Switches(k, events[0])
    ensures Inv(Step(k, events[0])) && CanRun(Step(k, events[0]), events[1..])
    ensures switched && i == 0 ==> Step(k, events[0]).current == k.ready[i]
    ensures !(switched && i == 0) ==>
      var k1, i1 := Step(k, events[0]), if switched then i - 1 else i;
      i1 < |k1.ready| && k1.ready[i1] == k.ready[i] && Timely(events[1..], k1.ticks, i1)
  {
    TimerSpent(events, k.ticks, i);
    StepInv(k, events[0]);
    QueueAdvances(k, events[0], i);
    switched := Switches(k, events[0]);
  }

  lemma QueueAdvances(k: KState, e: Event, i: nat)
    requires Inv(k) && Enabled(k, e) && i < |k.ready|
    ensures var k1 := Step(k, e);
      && (Switches(k, e) && i == 0 ==> k1.current == k.ready[0])
      && (Switches(k, e) && i > 0 ==> i - 1 < |k1.ready| && k1.ready[i - 1] == k.ready[i])
      && (!Switches(k, e) ==> i < |k1.ready| && k1.ready[i] == k.ready[i])
      && (!Switches(k, e) ==> k1.ticks == k.ticks + if e.Timer? then 1 else 0)
  {
    StepQueue(k, e);
    if i > 0 { assert k.ready[1..][i - 1] == k.ready[i]; }
  }

  lemma OneStep(k: KState, events: seq<Event>)
    requires Inv(k) && CanRun(k, events) && events != []
    ensures CanRun(k, events[..1]) && Inv(Step(k, events[0]))
    ensures After(k, events[..1]) == Step(k, events[0])
    ensures SwitchesIn(k, events[..1]) == if Switches(k, events[0]) then 1 else 0
  {
    StepInv(k, events[0]);
    assert events[..1][0] == events[0] && events[..1][1..] == [];
  }

  /** A prefix of a run is its first step and a prefix of the rest. */
  lemma PrefixUnfolds(k: KState, events: seq<Event>, j: nat)
    requires Inv(k) && CanRun(k, events) && 1 <= j <= |events|
    requires Inv(Step(k, events[0])) && CanRun(Step(k, events[0]), events[1..][..j - 1])
    ensures CanRun(k, events[..j])
    ensures After(k, events[..j]) == After(Step(k, events[0]), events[1..][..j - 1])
    ensures SwitchesIn(k, events[..j])
         == (if Switches(k, events[0]) then 1 else 0) + SwitchesIn(Step(k, events[0]), events[1..][..j - 1])
  {
    PrefixParts(events, j);
  }

  lemma PrefixParts<T>(s: seq<T>, j: nat)
    requires 1 <= j <= |s|
    ensures s[..j][0] == s[0] && s[..j][1..] == s[1..][..j - 1]
  {
  }

  // ---------- how a wait ends ----------

  /** `t` is next current exactly at the end of the run. */
  ghost predicate FirstRunsAtEnd(k: KState, events: seq<Event>, t: TCB)
    requires Inv(k) && CanRun(k, events)
    decreases |events|
  {
    events != [] &&
    (StepInv(k, events[0]);
     var k1 := Step(k, events[0]);
     if |events| == 1 then k1.current == t else k1.current != t && FirstRunsAtEnd(k1, events[1..], t))
  }

  /** At some point of the run `s` is closed while `t` is queued on it. */
  ghost predicate ClosedWhileQueued(k: KState, events: seq<Event>, t: TCB, s: Sem)
    requires Inv(k) && CanRun(k, events)
    decreases |events|
  {
    events != [] &&
    (StepInv(k, events[0]);
     (s in k.sems && t in k.sems[s].waiters && Closes(k, events[0], s))
     || ClosedWhileQueued(Step(k, events[0]), events[1..], t, s))
  }

  lemma QueuedIsPlaced(k: KState, c: TCB?, t: TCB, s: Sem)
    requires Placed(k, c) && s in k.sems && t in k.threads
    ensures t in k.sems[s].waiters <==> k.threads[t].place == WaitingOn(s)
  {
  }

  /** A closed semaphore is gone when the handler is done. */
  lemma ClosedIsGone(k: KState, e: Event, s: Sem)
    requires Inv(k) && Enabled(k, e) && Closes(k, e, s) && s in k.sems
    ensures s !in Handle(k, e).sems
  {
    CurrentLives(k);
    if e.ThreadExit? {
      assert k.threads[k.mainTcb].joinSem == null;
      CallReady(k, e);
    }
  }

  /** What a step does to a thread that waits, in terms of why. */
  lemma WaiterStep(k: KState, e: Event, t: TCB, s: Sem)
    requires Inv(k) && Enabled(k, e) && t in k.threads && k.threads[t].place == WaitingOn(s)
    ensures t in Handle(k, e).threads
    ensures var th' := Handle(k, e).threads[t];
      || (th' == k.threads[t] && !Closes(k, e, s))
      || th' == Awaken(k.threads[t], true, Closes(k, e, s))
  {
    HandleEffect(k, e);
    StepIsHandled(k, e);
    CurrentLives(k);
    assert LeftOrWoken(k, e, k.threads[t], Handle(k, e).threads[t]);
    if Closes(k, e, s) {
      ClosedIsGone(k, e, s);
      GoneMeansWoken(k, e, t, s);
    }
    SignalsOrCloses(k, e, s);
  }

  lemma GoneMeansWoken(k: KState, e: Event, t: TCB, s: Sem)
    requires Inv(k) && Enabled(k, e) && s !in Handle(k, e).sems && t in Handle(k, e).threads
    ensures Handle(k, e).threads[t].place != WaitingOn(s)
  {
    StepIsHandled(k, e);
    StepInv(k, e);
    var h, c := Handle(k, e), if Switches(k, e) then null else Handle(k, e).current;
    assert Placed(h, c);
  }

  lemma SignalsOrCloses(k: KState, e: Event, s: Sem)
    requires Inv(k) && Enabled(k, e)
    ensures !(Signals(k, e, s) && Closes(k, e, s))
  {
  }

  /** A thread that is ready with the result of a wait still to deliver delivers it when it runs:
      the interrupted flag survives whatever happens in between. */
  lemma {:induction false} FlagSurvives(k: KState, events: seq<Event>, t: TCB)
    requires Inv(k) && CanRun(k, events) && FirstRunsAtEnd(k, events, t)
    requires t in k.threads && k.threads[t].place == InReady && k.threads[t].cont == AfterSemWait
    ensures t in After(k, events).threads
    ensures After(k, events).threads[t].a0 == if k.threads[t].interrupted then WAIT_FAIL else WAIT_SUCCESS
    decreases |events|
  {
    var e := events[0];
    StepInv(k, e);
    ReadyStep(k, e, t);
    if |events| > 1 {
      FlagSurvives(Step(k, e), events[1..], t);
    } else {
      assert events[1..] == [];
    }
  }

  /** A ready thread is in no semaphore's queue until it has run. */
  lemma {:induction false} ReadyNotQueued(k: KState, events: seq<Event>, t: TCB, s: Sem)
    requires Inv(k) && CanRun(k, events) && FirstRunsAtEnd(k, events, t)
    requires t in k.threads && k.threads[t].place == InReady
    ensures !ClosedWhileQueued(k, events, t, s)
    decreases |events|
  {
    var e := events[0];
    StepInv(k, e);
    ReadyStep(k, e, t);
    if s in k.sems { QueuedIsPlaced(k, k.current, t, s); }
    if |events| > 1 { ReadyNotQueued(Step(k, e), events[1..], t, s); }
  }

  /** A ready thread is left alone or taken. */
  lemma ReadyStep(k: KState, e: Event, t: TCB)
    requires Inv(k) && Enabled(k, e) && t in k.threads && k.threads[t].place == InReady
    ensures t in Step(k, e).threads
    ensures Step(k, e).current != t ==> Step(k, e).threads[t] == k.threads[t]
    ensures Step(k, e).current == t && k.threads[t].cont == AfterSemWait ==>
      Step(k, e).threads[t].a0 == if k.threads[t].interrupted then WAIT_FAIL else WAIT_SUCCESS
  {
    CurrentLives(k);
    HandleEffect(k, e);
    StepIsHandled(k, e);
    assert LeftOrWoken(k, e, k.threads[t], Handle(k, e).threads[t]);
    if Switches(k, e) { NextEffect(Handle(k, e)); }
  }

  /** A blocked `wait` returns WAIT_FAIL exactly when its thread was still queued at `close`. */
  lemma {:induction false} WaitOutcome(k: KState, events: seq<Event>, t: TCB, s: Sem)
    requires Inv(k) && CanRun(k, events) && FirstRunsAtEnd(k, events, t)
    requires t in k.threads && k.threads[t].place == WaitingOn(s) && k.threads[t].cont == AfterSemWait
    ensures t in After(k, events).threads
    ensures After(k, events).threads[t].a0 == if ClosedWhileQueued(k, events, t, s) then WAIT_FAIL else WAIT_SUCCESS
    decreases |events|
  {
    var e := events[0];
    StepInv(k, e);
    WaitingSems(k, t, s);
    StepIsHandled(k, e);
    WaiterStep(k, e, t, s);
    var h, k1 := Handle(k, e), Step(k, e);
    if Switches(k, e) { NextEffect(h); }
    if |events| == 1 {
      assert events[1..] == [];
      WokenRuns(k, e, t, s);
    } else if k1.threads[t].place == WaitingOn(s) {
      WaitOutcome(k1, events[1..], t, s);
    } else {
      FlagSurvives(k1, events[1..], t);
      ReadyNotQueued(k1, events[1..], t, s);
    }
  }

  lemma WaitingSems(k: KState, t: TCB, s: Sem)
    requires Inv(k) && t in k.threads && k.threads[t].place == WaitingOn(s)
    ensures s in k.sems && t in k.sems[s].waiters && t != k.current
  {
    CurrentLives(k);
  }

  /** A waiting thread that runs after this very step was woken by it. */
  lemma WokenRuns(k: KState, e: Event, t: TCB, s: Sem)
    requires Inv(k) && Enabled(k, e) && t in k.threads && Step(k, e).current == t
    requires k.threads[t].place == WaitingOn(s) && k.threads[t].cont == AfterSemWait
    ensures t in Step(k, e).threads
    ensures Step(k, e).threads[t].a0 == if Closes(k, e, s) then WAIT_FAIL else WAIT_SUCCESS
  {
    StepIsHandled(k, e);
    WaitingSems(k, t, s);
    WaiterStep(k, e, t, s);
    var h := Handle(k, e);
    if Switches(k, e) {
      NextEffect(h);
      assert t in h.ready;
      assert h.threads[t].place == InReady;
    }
  }
}
