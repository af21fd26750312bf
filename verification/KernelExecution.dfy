/** Whole runs of the kernel over the heap. */
module KernelExecution {
  import opened Threads
  import opened KernelSpec
  import opened KernelRuns
  import opened KernelConsole
  import opened KernelTheorems
  import opened Utils
  import Kernel

  /** The memory that an event hands to the kernel. */
  ghost function Memory(e: Event): set<object> {
    match e
    case CreateThread(t, s) => {t, s, s.suspended}
    case SemOpen(s, _) => {s, s.suspended}
    case _ => {}
  }

  ghost function MemoryOf(events: seq<Event>): set<object> {
    if events == [] then {} else Memory(events[0]) + MemoryOf(events[1..])
  }

  ghost function NewSems(e: Event): set<Sem> {
    match e
    case CreateThread(_, s) => {s}
    case SemOpen(s, _) => {s}
    case _ => {}
  }

  ghost function NewSemsOf(events: seq<Event>): set<Sem> {
    if events == [] then {} else NewSems(events[0]) + NewSemsOf(events[1..])
  }

  /** The memory for semaphores does not overlap, nor what the kernel has. */
  ghost predicate Apart(m: Kernel.Kernel, sems: set<Sem>)
    reads m`sems
  {
    Kernel.OwnLists(m.scheduler.queue, m.sleepQueue.queue, m.sems + sems)
  }

  /** The time to sleep is given in a 64-bit register. */
  predicate Sized(e: Event) {
    e.TimeSleep? ==> e.n < TWO_TO_THE_64
  }

  /** One event, by the handler it belongs to. */
  method Perform(m: Kernel.Kernel, e: Event)
    requires m.Valid() && Enabled(m.Abs(), e) && Sized(e) && Apart(m, NewSems(e))
    modifies m.Owned(), Memory(e)
    ensures m.Valid() && m.Abs() == Step(old(m.Abs()), e)
    ensures m.Owned() <= old(m.Owned()) + Memory(e) && m.sems <= old(m.sems) + NewSems(e)
  {
    match e
    case CreateThread(t, s) => m.HandleThreadCreate(t, s);
    case SemOpen(s, init) => m.HandleSemOpen(s, init);
    case _ => PerformOther(m, e);
  }

  method PerformOther(m: Kernel.Kernel, e: Event)
    requires m.Valid() && Enabled(m.Abs(), e) && Sized(e) && !e.CreateThread? && !e.SemOpen?
    modifies m.Owned()
    ensures m.Valid() && m.Abs() == Step(old(m.Abs()), e)
    ensures m.Owned() <= old(m.Owned()) && m.sems <= old(m.sems)
  {
    if e.Timer? {
      m.HandleTimer();
    } else if e.ConsoleInput? {
      m.FillGetcBuffer(e.c);
    } else if e.Flush? {
      FlushedOne(m.Abs());
      m.FlushPutcBuffer(1);
    } else {
      m.HandleEcall(e);
    }
  }

  lemma FlushedOne(k: KState)
    requires Inv(k) && Enabled(k, Flush)
    ensures Kernel.Flushed(k, 1) == Step(k, Flush)
  {
    Kernel.FlushedOnce(k, 1);
  }

  /** Over every run, the heap follows the transition system step by step: at the end all lists are
      well formed and apart, and `k_current_context` is the current thread's. */
  method Execute(m: Kernel.Kernel, events: seq<Event>)
    requires m.Valid() && CanRun(m.Abs(), events) && forall e :: e in events ==> Sized(e)
    requires Apart(m, NewSemsOf(events))
    modifies m.Owned(), MemoryOf(events)
    ensures m.Valid() && m.Abs() == After(old(m.Abs()), events)
    decreases |events|
  {
    if events != [] {
      ghost var sems := m.sems;
      FirstAndRest(m.scheduler.queue, m.sleepQueue.queue, sems, events);
      Perform(m, events[0]);
      ListsStayApart(m.scheduler.queue, m.sleepQueue.queue, sems, m.sems, events);
      Execute(m, events[1..]);
    }
  }

  lemma FirstAndRest(ready: TCBList, sleepers: TCBList, sems: set<Sem>, events: seq<Event>)
    requires events != [] && Kernel.OwnLists(ready, sleepers, sems + NewSemsOf(events))
    ensures Kernel.OwnLists(ready, sleepers, sems + NewSems(events[0]))
    ensures MemoryOf(events) == Memory(events[0]) + MemoryOf(events[1..])
  {
  }

  lemma ListsStayApart(ready: TCBList, sleepers: TCBList, sems: set<Sem>, sems': set<Sem>, events: seq<Event>)
    requires events != [] && Kernel.OwnLists(ready, sleepers, sems + NewSemsOf(events))
    requires sems' <= sems + NewSems(events[0])
    ensures Kernel.OwnLists(ready, sleepers, sems' + NewSemsOf(events[1..]))
  {
  }

  /** From boot on: every state the kernel reaches is represented by a well-formed heap. */
  method BootAndExecute(parts: Kernel.Parts, events: seq<Event>) returns (m: Kernel.Kernel)
    requires parts.Initial() && Inv(parts.Boot()) && CanRun(parts.Boot(), events)
    requires forall e :: e in events ==> Sized(e)
    requires Kernel.OwnLists(parts.ready.queue, parts.sleepers.queue, parts.Sems() + NewSemsOf(events))
    modifies parts.Objects(), MemoryOf(events)
    ensures m.Valid() && m.Abs() == After(parts.Boot(), events) && Console(m.Abs())
  {
    m := new Kernel.Kernel(parts);
    Execute(m, events);
    ReachableStates(parts.main, parts.flush, parts.putcSem, parts.getcSem, parts.join, events);
  }
}
