/** How long a thread may run: its slice, counted in timer interrupts. */
module KernelSlices {
  import opened Threads
  import opened KernelSpec
  import opened KernelRuns
  import opened KernelEffects
  import opened KernelTheorems

  /** The thread that the switch of `e` takes has never run. */
  ghost predicate TakesFresh(k: KState, e: Event)
    requires Inv(k) && Enabled(k, e) && Switches(k, e)
  {
    StepIsHandled(k, e);
    NextEffect(Handle(k, e));
    var h := Handle(k, e);
    h.threads[h.ready[0]].cont.Fresh?
  }

  /** The interrupts that are already counted against the thread taken. */
  ghost function Inherited(k: KState, e: Event): nat
    requires Inv(k) && Enabled(k, e) && Switches(k, e)
  {
    if TakesFresh(k, e) then Handle(k, e).ticks else 0
  }

  lemma SliceStart(k: KState, e: Event)
    requires Inv(k) && Enabled(k, e) && Switches(k, e)
    ensures Inv(Step(k, e)) && Step(k, e).ticks == Inherited(k, e)
    ensures Handle(k, e).ticks == k.ticks + if e.Timer? then 1 else 0
  {
    StepInv(k, e);
    StepIsHandled(k, e);
    NextEffect(Handle(k, e));
    HandleEffect(k, e);
  }

  /** While nobody else gets the processor, every timer interrupt counts. */
  lemma {:induction false} TicksCount(k: KState, events: seq<Event>)
    requires Inv(k) && CanRun(k, events) && SwitchesIn(k, events) == 0
    ensures After(k, events).ticks == k.ticks + TimersIn(events) && After(k, events).current == k.current
    decreases |events|
  {
    if events != [] {
      StepInv(k, events[0]);
      StepIsHandled(k, events[0]);
      HandleEffect(k, events[0]);
      TicksCount(Step(k, events[0]), events[1..]);
    }
  }

  /** Nobody else gets the processor. */
  ghost predicate Alone(k: KState, events: seq<Event>)
    requires Inv(k)
  {
    CanRun(k, events) && SwitchesIn(k, events) == 0
  }

  /** The next timer interrupt takes the processor away. */
  ghost predicate TimerTakes(k: KState, events: seq<Event>)
    requires Inv(k) && Alone(k, events)
  {
    Switches(After(k, events), Timer)
  }

  /** That is the one that, with those counted before, completes the slice. */
  lemma SliceEnds(k: KState, events: seq<Event>)
    requires Inv(k) && Alone(k, events)
    ensures TimerTakes(k, events) <==> k.ticks + TimersIn(events) + 1 >= DEFAULT_TIME_SLICE
  {
    TicksCount(k, events);
    TimerSwitches(After(k, events), k.ticks + TimersIn(events));
  }

  lemma TimerSwitches(k: KState, ticks: nat)
    requires k.ticks == ticks
    ensures Switches(k, Timer) <==> ticks + 1 >= DEFAULT_TIME_SLICE
  {
  }

  lemma NoneYet(k: KState)
    requires Inv(k)
    ensures Alone(k, []) && TimersIn([]) == 0
  {
  }

  /** The slice is complete in every run exactly when no interrupt is counted at its start. */
  lemma CountFromZero(k: KState)
    requires Inv(k)
    ensures k.ticks == 0 <==>
            forall events :: Alone(k, events) ==>
              (TimerTakes(k, events) <==> TimersIn(events) + 1 >= DEFAULT_TIME_SLICE)
  {
    forall events | Alone(k, events)
      ensures TimerTakes(k, events) <==> k.ticks + TimersIn(events) + 1 >= DEFAULT_TIME_SLICE
    {
      SliceEnds(k, events);
    }
    NoneYet(k);
  }

  /** The slice of the thread taken is cut short. */
  ghost predicate ShortSlice(k: KState, e: Event)
    requires Inv(k) && Enabled(k, e) && Switches(k, e)
  {
    TakesFresh(k, e) && k.ticks + (if e.Timer? then 1 else 0) >= 1
  }

  /** That is exactly when it has never run while interrupts of the slice before are counted: then
      the first timer interrupt may stop it.  In every other case none does before its slice is
      complete, whatever happens until then. */
  lemma FullSliceIff(k: KState, e: Event)
    requires Inv(k) && Enabled(k, e) && Switches(k, e)
    ensures Inv(Step(k, e))
    ensures Switches(Step(k, e), Timer) <==> ShortSlice(k, e)
    ensures !ShortSlice(k, e) <==>
            forall events :: Alone(Step(k, e), events) ==>
              (TimerTakes(Step(k, e), events) <==> TimersIn(events) + 1 >= DEFAULT_TIME_SLICE)
  {
    SliceStart(k, e);
    CountFromZero(Step(k, e));
    TimerSwitches(Step(k, e), Inherited(k, e));
  }

  /** After boot the second timer interrupt starts the flush thread, and the third stops it. */
  lemma FirstSliceShort(mainTcb: TCB, flushTcb: TCB, putcSem: Sem, getcSem: Sem, join: Sem)
    requires mainTcb != flushTcb && putcSem != getcSem && join != putcSem && join != getcSem
    ensures var k := Booted(mainTcb, flushTcb, putcSem, getcSem, join);
      && Inv(k) && CanRun(k, [Timer]) && Switches(After(k, [Timer]), Timer)
      && Step(After(k, [Timer]), Timer).current == flushTcb
      && Switches(Step(After(k, [Timer]), Timer), Timer) && ShortSlice(After(k, [Timer]), Timer)
  {
    var k := Booted(mainTcb, flushTcb, putcSem, getcSem, join);
    BootedInv(mainTcb, flushTcb, putcSem, getcSem, join);
    assert [Timer][1..] == [];
    StepInv(k, Timer);
    var k1 := Step(k, Timer);
    assert k1 == CountTick(k);
    assert k1.ready == [flushTcb];
    StepQueue(k1, Timer);
    StepIsHandled(k1, Timer);
    assert Handle(k1, Timer).ready[0] == flushTcb;
    FullSliceIff(k1, Timer);
  }
}
