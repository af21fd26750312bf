/** How long threads sleep, and the order in which they are woken, over whole runs. */
module KernelSleep {
  import opened Threads
  import opened SleepSpec
  import opened KernelSpec
  import opened KernelPlaces
  import opened KernelSteps
  import opened KernelRuns
  import opened KernelEffects
  import opened KernelTheorems
  import opened KernelHistories

  lemma {:induction false} NotDueKeeps(sleepers: seq<Sleeper<TCB>>, now: nat, x: Sleeper<TCB>)
    requires x in sleepers && Sorted(sleepers)
    ensures now < x.deadline ==> x in NotDue(sleepers, now)
    ensures x.deadline <= now ==> x.thread in Due(sleepers, now)
  {
    if sleepers[0].deadline <= now && x != sleepers[0] {
      assert x in sleepers[1..];
      NotDueKeeps(sleepers[1..], now, x);
    } else {
      assert forall i :: 0 <= i < |sleepers| ==> sleepers[0].deadline <= sleepers[i].deadline;
    }
  }

  /** The sleep queue after the handler of `e`. */
  function QueueAfter(k: KState, e: Event): seq<Sleeper<TCB>> {
    match e
    case Timer => NotDue(k.sleepers, k.now + 1)
    case TimeSleep(n) => if n > 0 then Insert(k.sleepers, Sleeper(k.current, k.now + n)) else k.sleepers
    case _ => k.sleepers
  }

  lemma InterruptQueue(k: KState, e: Event)
    requires k.current in k.threads && k.getcSem in k.sems && k.putcSem in k.sems && Enabled(k, e) && !IsCall(e)
    ensures HandleInterrupt(k, e).sleepers == QueueAfter(k, e)
  {
  }

  lemma CallQueue(k: KState, e: Event)
    requires k.current in k.threads && k.getcSem in k.sems && k.putcSem in k.sems
    requires IsCall(e) && Enabled(k, e) && k.userSems <= k.sems.Keys
    ensures HandleCall(k, e).sleepers == QueueAfter(k, e)
  {
  }

  lemma HandleClock(k: KState, e: Event)
    requires Inv(k) && Enabled(k, e)
    ensures Handle(k, e).now == k.now + if e.Timer? then 1 else 0
  {
    if IsCall(e) {
      HandledCall(k, e);
      CallClock(SetA0(k, FAILED_SYSCALL), e);
    } else {
      HandledInterrupt(k, e);
      InterruptClock(k, e);
    }
  }

  lemma InterruptClock(k: KState, e: Event)
    requires k.current in k.threads && k.getcSem in k.sems && k.putcSem in k.sems && Enabled(k, e) && !IsCall(e)
    ensures HandleInterrupt(k, e).now == k.now + if e.Timer? then 1 else 0
  {
  }

  lemma CallClock(k: KState, e: Event)
    requires k.current in k.threads && k.getcSem in k.sems && k.putcSem in k.sems
    requires IsCall(e) && Enabled(k, e) && k.userSems <= k.sems.Keys
    ensures HandleCall(k, e).now == k.now
  {
  }

  lemma StepClock(k: KState, e: Event)
    requires Inv(k) && Enabled(k, e)
    ensures Step(k, e).now == k.now + if e.Timer? then 1 else 0
  {
    StepIsHandled(k, e);
    HandleClock(k, e);
    if Switches(k, e) { NextEffect(Handle(k, e)); }
  }

  /** A sleeping thread sleeps on through every step but the timer interrupt of its deadline. */
  lemma SleepStepExact(k: KState, e: Event, x: Sleeper<TCB>)
    requires Inv(k) && Enabled(k, e) && x in k.sleepers
    ensures x in Step(k, e).sleepers <==> !(e.Timer? && x.deadline == k.now + 1)
  {
    StepQueueAfter(k, e);
    QueueKeeps(k, e, x);
  }

  lemma QueueKeeps(k: KState, e: Event, x: Sleeper<TCB>)
    requires SleepOk(k) && x in k.sleepers
    ensures x in QueueAfter(k, e) <==> !(e.Timer? && x.deadline == k.now + 1)
  {
    match e
    case Timer => TickKeeps(k.sleepers, k.now, x);
    case TimeSleep(n) => InsertKeeps(k.sleepers, Sleeper(k.current, k.now + n), x);
    case _ =>
  }

  lemma TickKeeps(sleepers: seq<Sleeper<TCB>>, now: nat, x: Sleeper<TCB>)
    requires Sorted(sleepers) && AllAfter(sleepers, now) && x in sleepers
    ensures x in NotDue(sleepers, now + 1) <==> x.deadline != now + 1
  {
    NotDueKeeps(sleepers, now + 1, x);
    TickWakes(sleepers, now);
  }

  lemma InsertKeeps(sleepers: seq<Sleeper<TCB>>, y: Sleeper<TCB>, x: Sleeper<TCB>)
    requires Sorted(sleepers) && x in sleepers
    ensures x in Insert(sleepers, y)
  {
    InsertStable(sleepers, y, 0);
  }

  lemma {:induction false} ClockRuns(k: KState, events: seq<Event>)
    requires Inv(k) && CanRun(k, events)
    ensures After(k, events).now == k.now + TimersIn(events)
    decreases |events|
  {
    if events != [] {
      StepInv(k, events[0]);
      StepClock(k, events[0]);
      ClockRuns(Step(k, events[0]), events[1..]);
    }
  }

  /** Over every run a thread sleeps on while fewer timer interrupts have come than it asked for. */
  lemma {:induction false} SleepsLongEnough(k: KState, events: seq<Event>, x: Sleeper<TCB>)
    requires Inv(k) && CanRun(k, events) && x in k.sleepers && k.now + TimersIn(events) < x.deadline
    ensures x in After(k, events).sleepers
    decreases |events|
  {
    if events != [] {
      StepInv(k, events[0]);
      StepClock(k, events[0]);
      SleepStepExact(k, events[0], x);
      SleepsLongEnough(Step(k, events[0]), events[1..], x);
    }
  }

  /** And the timer interrupt that completes the number makes it ready; it may run at once. */
  lemma SleepsNoLonger(k: KState, events: seq<Event>, x: Sleeper<TCB>)
    requires Inv(k) && CanRun(k, events) && x in k.sleepers && k.now + TimersIn(events) + 1 == x.deadline
    ensures x in After(k, events).sleepers && x !in Step(After(k, events), Timer).sleepers
    ensures var k' := Step(After(k, events), Timer);
      x.thread in k'.threads && k'.threads[x.thread].place in {InReady, Current}
  {
    SleepsLongEnough(k, events, x);
    ClockRuns(k, events);
    SleepStepExact(After(k, events), Timer, x);
    DueRuns(After(k, events), x);
  }

  lemma DueRuns(k: KState, x: Sleeper<TCB>)
    requires Inv(k) && x in k.sleepers && x.deadline == k.now + 1
    ensures x.thread in Step(k, Timer).threads && Step(k, Timer).threads[x.thread].place in {InReady, Current}
  {
    StepIsHandled(k, Timer);
    HandledInterrupt(k, Timer);
    DueIsReady(k, x);
    if Switches(k, Timer) { ReadyOrTaken(Handle(k, Timer), x.thread); }
  }

  lemma DueIsReady(k: KState, x: Sleeper<TCB>)
    requires Inv(k) && x in k.sleepers && x.deadline == k.now + 1
    requires k.current in k.threads && k.getcSem in k.sems && k.putcSem in k.sems
    ensures var h := HandleInterrupt(k, Timer); x.thread in h.threads && h.threads[x.thread].place == InReady
  {
    NotDueKeeps(k.sleepers, k.now + 1, x);
    SleeperLives(k, x);
    CurrentLives(k);
    DueIsAwakened(k, x.thread);
  }

  lemma DueIsAwakened(k: KState, t: TCB)
    requires k.current in k.threads && k.getcSem in k.sems && k.putcSem in k.sems
    requires t in Due(k.sleepers, k.now + 1) && t in k.threads && t != k.current
    ensures var h := HandleInterrupt(k, Timer); t in h.threads && h.threads[t].place == InReady
  {
    assert CountTick(k).threads[t] == Awaken(k.threads[t], false, false);
  }

  lemma SleeperLives(k: KState, x: Sleeper<TCB>)
    requires Placed(k, k.current) && x in k.sleepers
    ensures x.thread in k.threads && k.threads[x.thread].place == Asleep
  {
    var i :| 0 <= i < |k.sleepers| && k.sleepers[i] == x;
    assert Names(k.sleepers)[i] == x.thread;
  }

  // ---------- the order of waking ----------

  /** What a step asks of the sleep queue. */
  function SleepOps(k: KState, e: Event): seq<SleepEvent<TCB>> {
    match e
    case TimeSleep(n) => if n > 0 then [SleepFor(k.current, n)] else []
    case Timer => [TimerTick]
    case _ => []
  }

  lemma StepOnSleepers(k: KState, e: Event, r: SleepRun<TCB>)
    requires Inv(k) && Enabled(k, e) && r.queue == k.sleepers && r.now == k.now
    ensures var r' := RunFrom(r, SleepOps(k, e)); Step(k, e).sleepers == r'.queue && Step(k, e).now == r'.now
  {
    StepQueueAfter(k, e);
    StepClock(k, e);
    OpsQueue(k, e, r);
  }

  lemma OpsQueue(k: KState, e: Event, r: SleepRun<TCB>)
    requires r.queue == k.sleepers && r.now == k.now
    ensures var r' := RunFrom(r, SleepOps(k, e));
      r'.queue == QueueAfter(k, e) && r'.now == k.now + if e.Timer? then 1 else 0
  {
    if SleepOps(k, e) != [] { RunFromOne(r, SleepOps(k, e)[0]); }
  }

  lemma StepQueueAfter(k: KState, e: Event)
    requires Inv(k) && Enabled(k, e)
    ensures Step(k, e).sleepers == QueueAfter(k, e)
  {
    StepIsHandled(k, e);
    HandleQueue(k, e);
    if Switches(k, e) { NextEffect(Handle(k, e)); }
  }

  lemma HandleQueue(k: KState, e: Event)
    requires Inv(k) && Enabled(k, e)
    ensures Handle(k, e).sleepers == QueueAfter(k, e)
  {
    if IsCall(e) {
      HandledCall(k, e);
      CallQueue(SetA0(k, FAILED_SYSCALL), e);
      SameQueue(k, SetA0(k, FAILED_SYSCALL), e);
    } else {
      HandledInterrupt(k, e);
      InterruptQueue(k, e);
    }
  }

  lemma SameQueue(k: KState, k': KState, e: Event)
    requires k'.sleepers == k.sleepers && k'.now == k.now && k'.current == k.current
    ensures QueueAfter(k', e) == QueueAfter(k, e)
  {
  }

  ghost function AllSleepOps(k: KState, events: seq<Event>): (ops: seq<SleepEvent<TCB>>)
    requires Inv(k) && CanRun(k, events)
    ensures forall op :: op in ops && op.SleepFor? ==> op.ticks >= 1
    decreases |events|
  {
    if events == [] then []
    else
      StepInv(k, events[0]);
      SleepOps(k, events[0]) + AllSleepOps(Step(k, events[0]), events[1..])
  }

  /** The kernel's sleep queue is the one of the sleep queue's own history. */
  lemma {:induction false} RunOnSleepers(k: KState, events: seq<Event>, r: SleepRun<TCB>)
    requires Inv(k) && CanRun(k, events) && r.queue == k.sleepers && r.now == k.now
    ensures var r' := RunFrom(r, AllSleepOps(k, events));
      After(k, events).sleepers == r'.queue && After(k, events).now == r'.now
    decreases |events|
  {
    if events != [] {
      var ops := SleepOps(k, events[0]);
      StepInv(k, events[0]);
      StepOnSleepers(k, events[0], r);
      RunOnSleepers(Step(k, events[0]), events[1..], RunFrom(r, ops));
      RunFromConcat(r, ops, AllSleepOps(Step(k, events[0]), events[1..]));
    }
  }

  /** From the start of the kernel on, every timer interrupt appends to the ready queue exactly the
      threads whose sleep ends with it, in the order in which they went to sleep. */
  lemma KernelWakesInOrder(k0: KState, events: seq<Event>)
    requires Inv(k0) && CanRun(k0, events) && k0.sleepers == [] && k0.now == 0
    ensures var k := After(k0, events);
      Handle(k, Timer).ready == k.ready + DueExactly(Arrivals(AllSleepOps(k0, events)), k.now + 1)
                                + if Switches(k, Timer) then [k.current] else []
  {
    var k, ops := After(k0, events), AllSleepOps(k0, events);
    AgreesAfter(k0, events);
    NextDue(RunQueue(ops), Arrivals(ops), k.sleepers, k.now);
    TickReadies(k);
  }

  lemma AgreesAfter(k0: KState, events: seq<Event>)
    requires Inv(k0) && CanRun(k0, events) && k0.sleepers == [] && k0.now == 0
    ensures var k, ops := After(k0, events), AllSleepOps(k0, events);
      && RunQueue(ops).queue == k.sleepers && RunQueue(ops).now == k.now
      && Agrees(RunQueue(ops), Arrivals(ops))
  {
    RunOnSleepers(k0, events, SleepRun([], 0, []));
    RunAgrees(AllSleepOps(k0, events));
  }

  lemma NextDue(r: SleepRun<TCB>, arrivals: seq<Sleeper<TCB>>, sleepers: seq<Sleeper<TCB>>, now: nat)
    requires Agrees(r, arrivals) && r.queue == sleepers && r.now == now
    ensures Due(sleepers, now + 1) == DueExactly(arrivals, now + 1)
  {
    TickWakes(sleepers, now);
  }

  lemma TickReadies(k: KState)
    requires Inv(k)
    ensures Handle(k, Timer).ready
         == k.ready + Due(k.sleepers, k.now + 1) + if Switches(k, Timer) then [k.current] else []
  {
    HandledInterrupt(k, Timer);
    TimerReady(k);
  }

  lemma TimerReady(k: KState)
    requires k.current in k.threads && k.getcSem in k.sems && k.putcSem in k.sems
    ensures HandleInterrupt(k, Timer).ready
         == k.ready + Due(k.sleepers, k.now + 1) + if Switches(k, Timer) then [k.current] else []
  {
    assert CountTick(k).ready == k.ready + Due(k.sleepers, k.now + 1);
  }
}
