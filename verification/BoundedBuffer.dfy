/** The bounded buffer on four semaphores, by any number of threads that can be preempted
    between any two statements. */
module BoundedBuffer {
  import opened SemSpec
  import RingQueue
  import opened Utils

  datatype SemId = SpaceAvailable | ItemAvailable | MutexHead | MutexTail

  datatype Statement =
    | SemWait(sem: SemId)
    | SemSignal(sem: SemId)
    | StoreAtTail    // buffer[tail] = val
    | AdvanceTail    // tail = (tail + 1) % cap
    | LoadAtHead     // ret = buffer[head]
    | AdvanceHead    // head = (head + 1) % cap
    | Compare        // tail >= head
    | Subtract       // ret = tail - head, or cap - head + tail

  datatype Operation = Put | Get | GetCnt

  /** The statements of an operation, in order. */
  function Statements(op: Operation): (s: seq<Statement>)
    ensures |s| == 6
  {
    match op
    case Put => [SemWait(SpaceAvailable), SemWait(MutexTail), StoreAtTail, AdvanceTail,
                 SemSignal(MutexTail), SemSignal(ItemAvailable)]
    case Get => [SemWait(ItemAvailable), SemWait(MutexHead), LoadAtHead, AdvanceHead,
                 SemSignal(MutexHead), SemSignal(SpaceAvailable)]
    case GetCnt => [SemWait(MutexHead), SemWait(MutexTail), Compare, Subtract,
                    SemSignal(MutexTail), SemSignal(MutexHead)]
  }

  /** `at` statements of the operation are done; `value` is the argument or what `ret` holds. */
  datatype Thread =
    | Idle(returned: int)
    | Running(op: Operation, at: nat, blocked: bool, value: int)

  datatype State = State(cap: nat, buffer: seq<int>, head: nat, tail: nat,
                         sems: map<SemId, SemState<nat>>, threads: seq<Thread>,
                         stored: seq<int>, delivered: seq<int>)

  datatype Event = Call(t: nat, op: Operation, value: int) | Run(t: nat)

  predicate AtStatement(th: Thread) {
    th.Running? && th.at < 6
  }

  function Next(th: Thread): Statement
    requires AtStatement(th)
  {
    Statements(th.op)[th.at]
  }

  /** The thread has done the statement it was at. */
  function Done(th: Thread, value: int): Thread
    requires AtStatement(th)
  {
    if th.at == 5 then Idle(value) else Running(th.op, th.at + 1, false, value)
  }

  /** The next slot, wrapping at the end. */
  function Advance(i: nat, cap: nat): (i': nat)
    requires i < cap
    ensures i' < cap
  {
    RingQueue.Slot(i, 1, cap)
  }

  predicate Enabled(s: State, e: Event) {
    e.t < |s.threads| &&
    match e
    case Call(t, _, _) => s.threads[t].Idle?
    case Run(t) => AtStatement(s.threads[t]) && !s.threads[t].blocked
  }

  /** Threads of `ts` come out of the wait they were blocked in. */
  function WakeAll(threads: seq<Thread>, ts: seq<nat>): seq<Thread> {
    seq(|threads|, i requires 0 <= i < |threads| =>
      if i in ts && AtStatement(threads[i]) then Done(threads[i], threads[i].value) else threads[i])
  }

  ghost predicate Wellformed(s: State) {
    && s.cap > 0 && |s.buffer| == s.cap && s.head < s.cap && s.tail < s.cap
    && forall x: SemId :: x in s.sems
  }

  ghost function Step(s: State, e: Event): State
    requires Wellformed(s) && Enabled(s, e)
  {
    var t := e.t;
    match e
    case Call(_, op, value) => s.(threads := s.threads[t := Running(op, 0, false, value)])
    case Run(_) => Execute(s, t, Next(s.threads[t]))
  }

  ghost function Execute(s: State, t: nat, statement: Statement): State
    requires Wellformed(s) && t < |s.threads| && AtStatement(s.threads[t])
  {
    var th := s.threads[t];
    match statement
    case SemWait(x) =>
      s.(sems := s.sems[x := Wait(s.sems[x], t)],
         threads := s.threads[t := if Blocks(s.sems[x]) then th.(blocked := true) else Done(th, th.value)])
    case SemSignal(x) =>
      s.(sems := s.sems[x := Signal(s.sems[x])],
         threads := WakeAll(s.threads, Released(s.sems[x]))[t := Done(th, th.value)])
    case StoreAtTail => s.(buffer := s.buffer[s.tail := th.value], threads := s.threads[t := Done(th, th.value)])
    case AdvanceTail =>
      s.(tail := Advance(s.tail, s.cap), threads := s.threads[t := Done(th, th.value)], stored := s.stored + [th.value])
    case LoadAtHead => s.(threads := s.threads[t := Done(th, s.buffer[s.head])])
    case AdvanceHead =>
      s.(head := Advance(s.head, s.cap), threads := s.threads[t := Done(th, th.value)],
         delivered := s.delivered + [th.value])
    case Compare => s.(threads := s.threads[t := Done(th, if s.tail >= s.head then 1 else 0)])
    case Subtract =>
      s.(threads := s.threads[t := Done(th, if th.value == 1 then s.tail - s.head else s.cap - s.head + s.tail)])
  }

  /** `Buffer(_cap)` with `n` threads about. */
  function Opened(capacity: nat, n: nat, initial: seq<int>): State
    requires |initial| == capacity + 1
  {
    State(capacity + 1, initial, 0, 0,
          map[ItemAvailable := SemState(0, []), SpaceAvailable := SemState(capacity, []),
              MutexHead := SemState(1, []), MutexTail := SemState(1, [])],
          seq(n, i => Idle(0)), [], [])
  }

  // ---------- tokens ----------

  /** Tokens of semaphore `x` that a thread has taken and not yet given on. */
  function Held(x: SemId, th: Thread): nat {
    if th.Idle? then 0
    else
      match (th.op, x)
      case (Put, SpaceAvailable) => if 1 <= th.at <= 3 then 1 else 0
      case (Put, MutexTail) => if 2 <= th.at <= 4 then 1 else 0
      case (Put, ItemAvailable) => if 4 <= th.at <= 5 then 1 else 0
      case (Get, ItemAvailable) => if 1 <= th.at <= 3 then 1 else 0
      case (Get, MutexHead) => if 2 <= th.at <= 4 then 1 else 0
      case (Get, SpaceAvailable) => if 4 <= th.at <= 5 then 1 else 0
      case (GetCnt, MutexHead) => if 1 <= th.at <= 5 then 1 else 0
      case (GetCnt, MutexTail) => if 2 <= th.at <= 4 then 1 else 0
      case _ => 0
  }

  function HeldByAll(x: SemId, threads: seq<Thread>): nat {
    if threads == [] then 0
    else HeldByAll(x, threads[..|threads| - 1]) + Held(x, threads[|threads| - 1])
  }

  lemma {:induction false} HeldUpdated(x: SemId, threads: seq<Thread>, t: nat, th: Thread)
    requires t < |threads|
    ensures HeldByAll(x, threads[t := th]) == HeldByAll(x, threads) - Held(x, threads[t]) + Held(x, th)
  {
    var n := |threads| - 1;
    if t == n {
      assert threads[t := th][..n] == threads[..n];
    } else {
      HeldUpdated(x, threads[..n], t, th);
      assert threads[t := th][..n] == threads[..n][t := th];
    }
  }

  lemma {:induction false} HeldAtLeast(x: SemId, threads: seq<Thread>, t: nat)
    requires t < |threads|
    ensures HeldByAll(x, threads) >= Held(x, threads[t])
  {
    if t < |threads| - 1 { HeldAtLeast(x, threads[..|threads| - 1], t); }
  }

  /** Two threads hold at most what all hold. */
  lemma HeldByTwo(x: SemId, threads: seq<Thread>, t: nat, u: nat)
    requires t < |threads| && u < |threads| && t != u
    ensures Held(x, threads[t]) + Held(x, threads[u]) <= HeldByAll(x, threads)
  {
    HeldUpdated(x, threads, t, Idle(0));
    HeldAtLeast(x, threads[t := Idle(0)], u);
  }

  lemma {:induction false} SomebodyHolds(x: SemId, threads: seq<Thread>) returns (t: nat)
    requires HeldByAll(x, threads) > 0
    ensures t < |threads| && Held(x, threads[t]) > 0
  {
    var n := |threads| - 1;
    if Held(x, threads[n]) > 0 {
      t := n;
    } else {
      t := SomebodyHolds(x, threads[..n]);
    }
  }

  /** How a statement moves tokens. */
  function Moved(x: SemId, statement: Statement): int {
    match statement
    case SemWait(y) => if x == y then 1 else 0
    case SemSignal(y) => if x == y then -1 else 0
    case AdvanceTail => if x == SpaceAvailable then -1 else if x == ItemAvailable then 1 else 0
    case AdvanceHead => if x == ItemAvailable then -1 else if x == SpaceAvailable then 1 else 0
    case _ => 0
  }

  lemma TokensMove(x: SemId, th: Thread, value: int)
    requires AtStatement(th)
    ensures Held(x, Done(th, value)) == Held(x, th) + Moved(x, Next(th))
  {
  }

  // ---------- the invariant ----------

  function Available(s: SemState<nat>): nat {
    if s.value > 0 then s.value else 0
  }

  /** Values stored and not yet taken out. */
  function Contents(s: State): seq<int> {
    if |s.delivered| <= |s.stored| then s.stored[|s.delivered|..] else []
  }

  function Tokens(s: State, x: SemId): int {
    match x
    case SpaceAvailable => s.cap - 1 - |Contents(s)|
    case ItemAvailable => |Contents(s)|
    case _ => 1
  }

  /** Each token is in its semaphore or held by a thread. */
  ghost predicate TokensOk(s: State)
    requires Wellformed(s)
  {
    forall x: SemId :: TokenOk(s, x)
  }

  predicate WaitsFor(th: Thread, x: SemId) {
    AtStatement(th) && th.blocked && Next(th) == SemWait(x)
  }

  /** The queues list the blocked threads, each in the queue of the semaphore it waits for. */
  ghost predicate QueueOk(threads: seq<Thread>, x: SemId, sem: SemState<nat>) {
    && Consistent(sem) && Distinct(sem.waiters)
    && (forall t :: t in sem.waiters ==> t < |threads| && WaitsFor(threads[t], x))
    && (forall t :: 0 <= t < |threads| && WaitsFor(threads[t], x) ==> t in sem.waiters)
  }

  ghost predicate QueuesOk(s: State)
    requires Wellformed(s)
  {
    forall x: SemId :: QueueOk(s.threads, x, s.sems[x])
  }

  /** The ring holds the contents, and everything stored came out in order or is still there. */
  ghost predicate Ring(buffer: seq<int>, head: nat, tail: nat, stored: seq<int>, delivered: seq<int>,
                       contents: seq<int>) {
    && stored == delivered + contents
    && head < |buffer| && |contents| < |buffer|
    && contents == RingQueue.Wrapped(buffer, head, |contents|)
    && tail == RingQueue.Slot(head, |contents|, |buffer|)
  }

  ghost predicate RingOk(s: State)
    requires Wellformed(s)
  {
    Ring(s.buffer, s.head, s.tail, s.stored, s.delivered, Contents(s))
  }

  /** What a thread between two statements of its critical section relies on. */
  predicate LocalOk(s: State, th: Thread)
    requires Wellformed(s)
  {
    th.Running? ==>
      && th.at < 6 && (th.blocked ==> Next(th).SemWait?)
      && (th.op == Put && th.at == 3 ==> s.buffer[s.tail] == th.value)
      && (th.op == Get && th.at == 3 ==> th.value == s.buffer[s.head])
      && (th.op == GetCnt && th.at == 3 ==> th.value == if s.tail >= s.head then 1 else 0)
  }

  ghost predicate LocalsOk(s: State)
    requires Wellformed(s)
  {
    forall t :: 0 <= t < |s.threads| ==> LocalOk(s, s.threads[t])
  }

  ghost predicate Inv(s: State) {
    Wellformed(s) && TokensOk(s) && QueuesOk(s) && RingOk(s) && LocalsOk(s)
  }

  lemma {:induction false} IdleHoldNothing(x: SemId, n: nat)
    ensures HeldByAll(x, seq(n, i => Idle(0))) == 0
  {
    if n > 0 {
      assert seq(n, i => Idle(0))[..n - 1] == seq(n - 1, i => Idle(0));
      IdleHoldNothing(x, n - 1);
    }
  }

  lemma OpenedInv(capacity: nat, n: nat, initial: seq<int>)
    requires |initial| == capacity + 1
    ensures Inv(Opened(capacity, n, initial))
  {
    var s := Opened(capacity, n, initial);
    forall x: SemId
      ensures x in s.sems && TokenOk(s, x)
    {
      IdleHoldNothing(x, n);
      match x
      case SpaceAvailable =>
      case ItemAvailable =>
      case MutexHead =>
      case MutexTail =>
    }
  }

  // ---------- tokens are conserved ----------

  ghost predicate TokenOk(s: State, x: SemId)
    requires x in s.sems
  {
    Available(s.sems[x]) + HeldByAll(x, s.threads) == Tokens(s, x)
  }

  lemma TokensStep(s: State, t: nat)
    requires Wellformed(s) && TokensOk(s) && QueuesOk(s) && |s.delivered| <= |s.stored| && Enabled(s, Run(t))
    ensures TokensOk(Step(s, Run(t)))
  {
    var th := s.threads[t];
    forall x: SemId
      ensures TokenOk(Step(s, Run(t)), x)
    {
      assert TokenOk(s, x);
      match Next(th)
      case SemWait(y) => WaitTokens(s, t, x, y);
      case SemSignal(y) => SignalTokens(s, t, x, y);
      case _ => DataTokens(s, t, x);
    }
  }

  lemma WaitTokens(s: State, t: nat, x: SemId, y: SemId)
    requires Wellformed(s) && TokenOk(s, x) && Enabled(s, Run(t)) && Next(s.threads[t]) == SemWait(y)
    ensures TokenOk(Step(s, Run(t)), x)
  {
    var th := s.threads[t];
    var s' := Step(s, Run(t));
    HeldUpdated(x, s.threads, t, s'.threads[t]);
    TokensMove(x, th, th.value);
    assert s'.threads == s.threads[t := s'.threads[t]];
    assert Held(x, s'.threads[t]) == Held(x, th) + if x == y && !Blocks(s.sems[y]) then 1 else 0;
    assert Tokens(s', x) == Tokens(s, x);
  }

  lemma DataTokens(s: State, t: nat, x: SemId)
    requires Wellformed(s) && TokensOk(s) && Enabled(s, Run(t)) && |s.delivered| <= |s.stored|
    requires !Next(s.threads[t]).SemWait? && !Next(s.threads[t]).SemSignal?
    ensures TokenOk(Step(s, Run(t)), x)
  {
    var s', th := Step(s, Run(t)), s.threads[t];
    HeldUpdated(x, s.threads, t, Done(th, Result(s, th)));
    TokensMove(x, th, Result(s, th));
    if Next(th).AdvanceHead? {
      SomethingStored(s, t);
    }
    assert TokenOk(s, x);
    assert s'.threads == s.threads[t := Done(th, Result(s, th))];
    assert |Contents(s')|
        == |Contents(s)| + (if Next(th).AdvanceTail? then 1 else if Next(th).AdvanceHead? then -1 else 0);
  }

  /** A thread past its wait for an item finds one. */
  lemma SomethingStored(s: State, t: nat)
    requires Wellformed(s) && TokenOk(s, ItemAvailable) && t < |s.threads| && Held(ItemAvailable, s.threads[t]) > 0
    ensures Contents(s) != []
  {
    HeldAtLeast(ItemAvailable, s.threads, t);
  }

  /** What the statement leaves in the thread's local variable. */
  function Result(s: State, th: Thread): int
    requires AtStatement(th) && |s.buffer| == s.cap && s.head < s.cap
  {
    match Next(th)
    case LoadAtHead => s.buffer[s.head]
    case Compare => if s.tail >= s.head then 1 else 0
    case Subtract => if th.value == 1 then s.tail - s.head else s.cap - s.head + s.tail
    case _ => th.value
  }

  /** At most one thread comes out of a wait, and not the one that signals. */
  ghost predicate SignalWakes(s: State, t: nat, y: SemId)
    requires Wellformed(s)
  {
    var ts := Released(s.sems[y]);
    && (ts == [] ==> WakeAll(s.threads, ts) == s.threads && s.sems[y].value >= 0)
    && (ts != [] ==>
         && ts == [s.sems[y].waiters[0]] && ts[0] < |s.threads| && ts[0] != t && WaitsFor(s.threads[ts[0]], y)
         && s.sems[y].value < 0
         && WakeAll(s.threads, ts) == s.threads[ts[0] := Done(s.threads[ts[0]], s.threads[ts[0]].value)])
  }

  lemma AtMostOneWakes(s: State, t: nat, y: SemId)
    requires Wellformed(s) && QueueOk(s.threads, y, s.sems[y])
    requires t < |s.threads| && !(s.threads[t].Running? && s.threads[t].blocked)
    ensures SignalWakes(s, t, y)
  {
    var sem := s.sems[y];
    assert QueueOk(s.threads, y, sem);
    if Released(sem) != [] {
      assert sem.waiters[0] in sem.waiters;
    }
  }

  lemma SignalTokens(s: State, t: nat, x: SemId, y: SemId)
    requires Wellformed(s) && TokenOk(s, x) && QueuesOk(s) && Enabled(s, Run(t)) && Next(s.threads[t]) == SemSignal(y)
    ensures TokenOk(Step(s, Run(t)), x)
  {
    assert QueueOk(s.threads, y, s.sems[y]);
    AtMostOneWakes(s, t, y);
    SignalHeld(s, t, x, y);
  }

  /** Who holds how many tokens after a signal: one less, unless it is handed over. */
  lemma SignalHeld(s: State, t: nat, x: SemId, y: SemId)
    requires Wellformed(s) && Enabled(s, Run(t)) && Next(s.threads[t]) == SemSignal(y)
    requires SignalWakes(s, t, y)
    ensures HeldByAll(x, Step(s, Run(t)).threads)
         == HeldByAll(x, s.threads) - if x == y && s.sems[y].value >= 0 then 1 else 0
  {
    var th, ts := s.threads[t], Released(s.sems[y]);
    if ts == [] {
      HeldUpdated(x, s.threads, t, Done(th, th.value));
      TokensMove(x, th, th.value);
    } else {
      HandedOver(s.threads, t, ts[0], x, y);
    }
  }

  /** The token goes from the thread that signals straight to the one that waited. */
  lemma HandedOver(threads: seq<Thread>, t: nat, u: nat, x: SemId, y: SemId)
    requires t < |threads| && u < |threads| && t != u && AtStatement(threads[t]) && AtStatement(threads[u])
    requires Next(threads[t]) == SemSignal(y) && Next(threads[u]) == SemWait(y)
    ensures HeldByAll(x, threads[u := Done(threads[u], threads[u].value)][t := Done(threads[t], threads[t].value)])
         == HeldByAll(x, threads)
  {
    var woken := threads[u := Done(threads[u], threads[u].value)];
    HeldUpdated(x, threads, u, Done(threads[u], threads[u].value));
    TokensMove(x, threads[u], threads[u].value);
    HeldUpdated(x, woken, t, Done(threads[t], threads[t].value));
    TokensMove(x, threads[t], threads[t].value);
  }

  // ---------- queues ----------

  lemma QueueKept(threads: seq<Thread>, t: nat, th: Thread, x: SemId, sem: SemState<nat>)
    requires QueueOk(threads, x, sem) && t < |threads| && !WaitsFor(threads[t], x) && !WaitsFor(th, x)
    ensures QueueOk(threads[t := th], x, sem)
  {
  }

  lemma QueueJoined(threads: seq<Thread>, t: nat, x: SemId, sem: SemState<nat>)
    requires QueueOk(threads, x, sem) && t < |threads| && AtStatement(threads[t]) && !threads[t].blocked
    requires Next(threads[t]) == SemWait(x) && Blocks(sem)
    ensures QueueOk(threads[t := threads[t].(blocked := true)], x, Wait(sem, t))
  {
    WaitConsistent(sem, t);
  }

  lemma QueueLeft(threads: seq<Thread>, x: SemId, sem: SemState<nat>)
    requires QueueOk(threads, x, sem) && sem.value < 0
    ensures sem.waiters != [] && sem.waiters[0] < |threads| && AtStatement(threads[sem.waiters[0]])
    ensures var u := sem.waiters[0]; QueueOk(threads[u := Done(threads[u], threads[u].value)], x, Signal(sem))
  {
    SignalConsistent(sem);
    assert sem.waiters[0] in sem.waiters;
    var rest := sem.waiters[1..];
    var u := sem.waiters[0];
    assert Signal(sem).waiters == rest && sem.waiters == [u] + rest;
    assert forall i :: 0 <= i < |rest| ==> rest[i] == sem.waiters[i + 1];
    assert u !in rest;
    assert forall t :: t in sem.waiters <==> t == u || t in rest;
    var threads' := threads[u := Done(threads[u], threads[u].value)];
    assert !WaitsFor(threads'[u], x);
  }

  lemma QueuesStep(s: State, t: nat)
    requires Wellformed(s) && QueuesOk(s) && Enabled(s, Run(t))
    ensures forall x: SemId :: QueueOk(Step(s, Run(t)).threads, x, Step(s, Run(t)).sems[x])
  {
    var th, s' := s.threads[t], Step(s, Run(t));
    forall x: SemId
      ensures QueueOk(s'.threads, x, s'.sems[x])
    {
      assert QueueOk(s.threads, x, s.sems[x]);
      match Next(th)
      case SemWait(y) =>
        if x == y && Blocks(s.sems[y]) {
          QueueJoined(s.threads, t, x, s.sems[x]);
        } else {
          QueueKept(s.threads, t, s'.threads[t], x, s.sems[x]);
        }
      case SemSignal(y) => SignalQueue(s, t, x, y);
      case _ => QueueKept(s.threads, t, s'.threads[t], x, s.sems[x]);
    }
  }

  lemma SignalQueue(s: State, t: nat, x: SemId, y: SemId)
    requires Wellformed(s) && QueuesOk(s) && Enabled(s, Run(t)) && Next(s.threads[t]) == SemSignal(y)
    ensures QueueOk(Step(s, Run(t)).threads, x, Step(s, Run(t)).sems[x])
  {
    var th, ts := s.threads[t], Released(s.sems[y]);
    assert QueueOk(s.threads, y, s.sems[y]);
    AtMostOneWakes(s, t, y);
    SignalConsistent(s.sems[y]);
    assert QueueOk(s.threads, x, s.sems[x]) && QueueOk(s.threads, y, s.sems[y]);
    if ts == [] {
      QueueKept(s.threads, t, Done(th, th.value), x, s.sems[x]);
    } else {
      var u := ts[0];
      var w := Done(s.threads[u], s.threads[u].value);
      if x == y {
        QueueLeft(s.threads, x, s.sems[x]);
      } else {
        QueueKept(s.threads, u, w, x, s.sems[x]);
      }
      QueueKept(s.threads[u := w], t, Done(th, th.value), x, if x == y then Signal(s.sems[x]) else s.sems[x]);
    }
  }

  // ---------- the ring ----------

  /** Two threads do not hold the same mutex. */
  lemma Exclusive(s: State, x: SemId, t: nat, u: nat)
    requires x == MutexHead || x == MutexTail
    requires x in s.sems && TokenOk(s, x) && t < |s.threads| && u < |s.threads| && t != u
    requires Held(x, s.threads[t]) > 0
    ensures Held(x, s.threads[u]) == 0
  {
    HeldByTwo(x, s.threads, t, u);
  }

  /** A thread past its wait for space finds some: the slot it stores into is not in use. */
  lemma SpaceLeft(s: State, t: nat)
    requires Wellformed(s) && TokenOk(s, SpaceAvailable) && t < |s.threads| && Held(SpaceAvailable, s.threads[t]) > 0
    ensures |Contents(s)| < s.cap - 1
  {
    HeldAtLeast(SpaceAvailable, s.threads, t);
  }

  lemma StoreKeepsRing(buffer: seq<int>, head: nat, tail: nat, stored: seq<int>, delivered: seq<int>,
                       contents: seq<int>, v: int)
    requires Ring(buffer, head, tail, stored, delivered, contents)
    ensures Ring(buffer[tail := v], head, tail, stored, delivered, contents)
  {
  }

  lemma TailMoves(buffer: seq<int>, head: nat, n: nat)
    requires head < |buffer| && n < |buffer| - 1
    ensures var tail := RingQueue.Slot(head, n, |buffer|);
      && RingQueue.Wrapped(buffer, head, n + 1) == RingQueue.Wrapped(buffer, head, n) + [buffer[tail]]
      && Advance(tail, |buffer|) == RingQueue.Slot(head, n + 1, |buffer|)
  {
    var tail := RingQueue.Slot(head, n, |buffer|);
    RingQueue.AppendLast(buffer, head, n, buffer[tail]);
    assert buffer[tail := buffer[tail]] == buffer;
  }

  lemma HeadMoves(buffer: seq<int>, head: nat, n: nat)
    requires head < |buffer| && 0 < n < |buffer|
    ensures var head' := Advance(head, |buffer|);
      && head' < |buffer|
      && RingQueue.Wrapped(buffer, head, n) == [buffer[head]] + RingQueue.Wrapped(buffer, head', n - 1)
      && RingQueue.Slot(head', n - 1, |buffer|) == RingQueue.Slot(head, n, |buffer|)
  {
    RingQueue.DropFirst(buffer, head, n);
    var all := RingQueue.Wrapped(buffer, head, n);
    assert all == [all[0]] + all[1..];
  }

  lemma StoreTakesPlace(buffer: seq<int>, head: nat, tail: nat, stored: seq<int>, delivered: seq<int>,
                        contents: seq<int>)
    requires Ring(buffer, head, tail, stored, delivered, contents) && |contents| < |buffer| - 1
    ensures tail < |buffer| && Advance(tail, |buffer|) < |buffer|
    ensures var v := buffer[tail];
      Ring(buffer, head, Advance(tail, |buffer|), stored + [v], delivered, contents + [v])
  {
    TailMoves(buffer, head, |contents|);
  }

  lemma FirstLeaves(buffer: seq<int>, head: nat, tail: nat, stored: seq<int>, delivered: seq<int>, contents: seq<int>)
    requires Ring(buffer, head, tail, stored, delivered, contents) && contents != []
    ensures contents[0] == buffer[head] && Advance(head, |buffer|) < |buffer|
    ensures Ring(buffer, Advance(head, |buffer|), tail, stored, delivered + [contents[0]], contents[1..])
  {
    HeadMoves(buffer, head, |contents|);
    assert contents == [contents[0]] + contents[1..];
  }

  lemma RingStep(s: State, t: nat)
    requires Inv(s) && Enabled(s, Run(t))
    ensures Wellformed(Step(s, Run(t))) && RingOk(Step(s, Run(t)))
  {
    match Next(s.threads[t])
    case StoreAtTail =>
      StoreKeepsRing(s.buffer, s.head, s.tail, s.stored, s.delivered, Contents(s), s.threads[t].value);
    case AdvanceTail => TailRing(s, t);
    case AdvanceHead => HeadRing(s, t);
    case _ =>
  }

  lemma TailRing(s: State, t: nat)
    requires Inv(s) && Enabled(s, Run(t)) && Next(s.threads[t]) == AdvanceTail
    ensures Wellformed(Step(s, Run(t))) && RingOk(Step(s, Run(t)))
    ensures Contents(Step(s, Run(t))) == Contents(s) + [s.threads[t].value]
  {
    SpaceLeft(s, t);
    assert LocalOk(s, s.threads[t]);
    StoreTakesPlace(s.buffer, s.head, s.tail, s.stored, s.delivered, Contents(s));
    ContentsGain(s.stored, s.delivered, s.threads[t].value);
  }

  lemma HeadRing(s: State, t: nat)
    requires Inv(s) && Enabled(s, Run(t)) && Next(s.threads[t]) == AdvanceHead
    ensures Contents(s) != [] && s.threads[t].value == Contents(s)[0]
    ensures Wellformed(Step(s, Run(t))) && RingOk(Step(s, Run(t)))
    ensures Contents(Step(s, Run(t))) == Contents(s)[1..]
  {
    SomethingStored(s, t);
    assert LocalOk(s, s.threads[t]);
    FirstLeaves(s.buffer, s.head, s.tail, s.stored, s.delivered, Contents(s));
    ContentsLose(s.stored, s.delivered, s.threads[t].value);
  }

  lemma ContentsGain(stored: seq<int>, delivered: seq<int>, v: int)
    requires |delivered| <= |stored|
    ensures (stored + [v])[|delivered|..] == stored[|delivered|..] + [v]
  {
  }

  lemma ContentsLose(stored: seq<int>, delivered: seq<int>, v: int)
    requires |delivered| < |stored|
    ensures stored[|delivered + [v]|..] == stored[|delivered|..][1..]
  {
  }

  // ---------- what threads rely on between statements ----------

  /** What the local facts rest on, but for the ring's contents. */
  ghost predicate Settled(s: State) {
    && Wellformed(s) && TokensOk(s) && QueuesOk(s) && LocalsOk(s)
    && (Contents(s) != [] ==> s.tail != s.head)
  }

  lemma InvSettled(s: State)
    requires Inv(s)
    ensures Settled(s)
  {
  }

  lemma LocalsStep(s: State, t: nat)
    requires Settled(s) && Enabled(s, Run(t)) && Wellformed(Step(s, Run(t)))
    ensures LocalsOk(Step(s, Run(t)))
  {
    var s' := Step(s, Run(t));
    forall u | 0 <= u < |s'.threads|
      ensures LocalOk(s', s'.threads[u])
    {
      if u == t {
        OwnLocal(s, t);
      } else {
        OtherLocal(s, t, u);
      }
    }
  }

  lemma OwnLocal(s: State, t: nat)
    requires Wellformed(s) && Enabled(s, Run(t)) && LocalOk(s, s.threads[t]) && Wellformed(Step(s, Run(t)))
    ensures LocalOk(Step(s, Run(t)), Step(s, Run(t)).threads[t])
  {
  }

  /** A thread's local facts survive the statement of another. */
  lemma OtherLocal(s: State, t: nat, u: nat)
    requires Settled(s) && Enabled(s, Run(t)) && Wellformed(Step(s, Run(t))) && u < |s.threads| && u != t
    ensures |Step(s, Run(t)).threads| == |s.threads|
    ensures LocalOk(Step(s, Run(t)), Step(s, Run(t)).threads[u])
  {
    assert LocalOk(s, s.threads[t]) && LocalOk(s, s.threads[u]);
    SharedKept(s, t, u);
    if Next(s.threads[t]).SemSignal? {
      assert QueueOk(s.threads, Next(s.threads[t]).sem, s.sems[Next(s.threads[t]).sem]);
      AtMostOneWakes(s, t, Next(s.threads[t]).sem);
    }
    SameLocal(s, t, u);
  }

  lemma SameLocal(s: State, t: nat, u: nat)
    requires Wellformed(s) && Enabled(s, Run(t)) && Wellformed(Step(s, Run(t))) && u < |s.threads| && u != t
    requires LocalOk(s, s.threads[u]) && SharedSame(s, Step(s, Run(t)), s.threads[u])
    requires Next(s.threads[t]).SemSignal? ==> SignalWakes(s, t, Next(s.threads[t]).sem)
    ensures |Step(s, Run(t)).threads| == |s.threads|
    ensures LocalOk(Step(s, Run(t)), Step(s, Run(t)).threads[u])
  {
    ThreadAfter(s, t, u);
    SharedFacts(s, Step(s, Run(t)), s.threads[u]);
  }

  /** Another thread is where it was, or it comes out of a wait. */
  lemma ThreadAfter(s: State, t: nat, u: nat)
    requires Wellformed(s) && Enabled(s, Run(t)) && u < |s.threads| && u != t
    requires Next(s.threads[t]).SemSignal? ==> SignalWakes(s, t, Next(s.threads[t]).sem)
    ensures |Step(s, Run(t)).threads| == |s.threads|
    ensures var th, th' := s.threads[u], Step(s, Run(t)).threads[u];
      th' == th || (AtStatement(th) && Next(th).SemWait? && th' == Done(th, th.value))
  {
  }

  lemma SharedFacts(s: State, s': State, th: Thread)
    requires Wellformed(s) && Wellformed(s') && LocalOk(s, th) && SharedSame(s, s', th)
    ensures LocalOk(s', th)
    ensures AtStatement(th) && Next(th).SemWait? ==> LocalOk(s', Done(th, th.value))
  {
  }

  /** What a thread may rely on, by the mutexes it holds. */
  predicate SharedSame(s: State, s': State, th: Thread) {
    && (Held(MutexTail, th) > 0 ==>
          s'.tail == s.tail && s.tail < |s.buffer| == |s'.buffer| && s'.buffer[s.tail] == s.buffer[s.tail])
    && (Held(MutexHead, th) > 0 ==> s'.head == s.head)
    && (Held(MutexHead, th) > 0 && Held(ItemAvailable, th) > 0 ==>
          s.head < |s.buffer| == |s'.buffer| && s'.buffer[s.head] == s.buffer[s.head])
  }

  /** The part of the shared state that `u` looks at is not written by `t`. */
  lemma SharedKept(s: State, t: nat, u: nat)
    requires Settled(s) && Enabled(s, Run(t)) && Wellformed(Step(s, Run(t))) && u < |s.threads| && u != t
    ensures SharedSame(s, Step(s, Run(t)), s.threads[u])
  {
    assert TokenOk(s, MutexTail) && TokenOk(s, MutexHead) && TokenOk(s, ItemAvailable);
    if Held(MutexTail, s.threads[u]) > 0 { Exclusive(s, MutexTail, u, t); }
    if Held(MutexHead, s.threads[u]) > 0 { Exclusive(s, MutexHead, u, t); }
    if Held(ItemAvailable, s.threads[u]) > 0 { SomethingStored(s, u); }
  }

  /** Every step of every thread keeps the invariant. */
  lemma StepInv(s: State, e: Event)
    requires Inv(s) && Enabled(s, e)
    ensures Inv(Step(s, e))
  {
    match e
    case Call(t, op, value) => CallInv(s, t, op, value);
    case Run(t) =>
      RingStep(s, t);
      InvSettled(s);
      TokensStep(s, t);
      QueuesStep(s, t);
      LocalsStep(s, t);
  }

  lemma CallInv(s: State, t: nat, op: Operation, value: int)
    requires Inv(s) && Enabled(s, Call(t, op, value))
    ensures Inv(Step(s, Call(t, op, value)))
  {
    var th := Running(op, 0, false, value);
    forall x: SemId
      ensures TokenOk(Step(s, Call(t, op, value)), x) && QueueOk(s.threads[t := th], x, s.sems[x])
    {
      assert TokenOk(s, x) && QueueOk(s.threads, x, s.sems[x]);
      HeldUpdated(x, s.threads, t, th);
      QueueKept(s.threads, t, th, x, s.sems[x]);
    }
    var threads' := s.threads[t := th];
    forall u | 0 <= u < |threads'|
      ensures LocalOk(Step(s, Call(t, op, value)), threads'[u])
    {
      assert LocalOk(s, s.threads[u]);
    }
  }

  // ---------- whole runs ----------

  ghost predicate CanRun(s: State, events: seq<Event>)
    requires Inv(s)
    decreases |events|
  {
    events != [] ==> Enabled(s, events[0]) && (StepInv(s, events[0]); CanRun(Step(s, events[0]), events[1..]))
  }

  ghost function After(s: State, events: seq<Event>): (s': State)
    requires Inv(s) && CanRun(s, events)
    ensures Inv(s')
    decreases |events|
  {
    if events == [] then s
    else
      StepInv(s, events[0]);
      After(Step(s, events[0]), events[1..])
  }

  /** Whatever the interleaving: the values taken out are the first of those put in, in their
      order, and never more than the capacity are inside. */
  lemma DeliversInOrder(capacity: nat, n: nat, initial: seq<int>, events: seq<Event>)
    requires |initial| == capacity + 1 && Inv(Opened(capacity, n, initial))
    requires CanRun(Opened(capacity, n, initial), events)
    ensures var s := After(Opened(capacity, n, initial), events);
      && s.delivered <= s.stored && |s.stored| - |s.delivered| <= capacity
  {
    CapacityKept(Opened(capacity, n, initial), events);
  }

  lemma {:induction false} CapacityKept(s: State, events: seq<Event>)
    requires Inv(s) && CanRun(s, events)
    ensures After(s, events).cap == s.cap
    decreases |events|
  {
    if events != [] {
      StepInv(s, events[0]);
      StepKeepsCapacity(s, events[0]);
      CapacityKept(Step(s, events[0]), events[1..]);
    }
  }

  lemma StepKeepsCapacity(s: State, e: Event)
    requires Wellformed(s) && Enabled(s, e)
    ensures Step(s, e).cap == s.cap
  {
  }

  /** Storing overwrites no value that is still inside. */
  lemma NeverOverwrites(s: State, t: nat)
    requires Inv(s) && Enabled(s, Run(t)) && Next(s.threads[t]) == StoreAtTail
    ensures forall i :: 0 <= i < |Contents(s)| ==> RingQueue.Slot(s.head, i, s.cap) != s.tail
    ensures |Contents(s)| < s.cap - 1 && Contents(Step(s, Run(t))) == Contents(s)
  {
    SpaceLeft(s, t);
  }

  /** Loading finds the oldest value inside. */
  lemma ReadsOldest(s: State, t: nat)
    requires Inv(s) && Enabled(s, Run(t)) && Next(s.threads[t]) == LoadAtHead
    ensures Contents(s) != [] && Step(s, Run(t)).threads[t].value == Contents(s)[0]
  {
    SomethingStored(s, t);
    HeadMoves(s.buffer, s.head, |Contents(s)|);
  }

  /** What a thread takes out is what it loaded, and goes to no other. */
  lemma TakesWhatItLoaded(s: State, t: nat)
    requires Inv(s) && Enabled(s, Run(t)) && Next(s.threads[t]) == AdvanceHead
    ensures Contents(s) != [] && s.threads[t].value == Contents(s)[0]
    ensures Contents(Step(s, Run(t))) == Contents(s)[1..]
  {
    HeadRing(s, t);
  }

  /** `getCnt` computes the exact number of values inside at that moment. */
  lemma CountsExactly(s: State, t: nat)
    requires Inv(s) && Enabled(s, Run(t)) && Next(s.threads[t]) == Subtract
    ensures Result(s, s.threads[t]) == |Contents(s)|
  {
    assert LocalOk(s, s.threads[t]);
  }

  /** Two threads are never both between `sem_wait` and `sem_signal` of a mutex. */
  lemma MutualExclusion(s: State, x: SemId, t: nat, u: nat)
    requires Inv(s) && (x == MutexHead || x == MutexTail) && t < |s.threads| && u < |s.threads| && t != u
    ensures !(Held(x, s.threads[t]) > 0 && Held(x, s.threads[u]) > 0)
  {
    if Held(x, s.threads[t]) > 0 { Exclusive(s, x, t, u); }
  }

  /** The thread can do its next statement at once, without being blocked. */
  predicate CanGoOn(s: State, th: Thread) {
    AtStatement(th) && !th.blocked && (Next(th).SemWait? ==> Next(th).sem in s.sems && !Blocks(s.sems[Next(th).sem]))
  }

  /** No deadlock: while a mutex is taken, some thread that holds one can go on. */
  lemma HoldersGoOn(s: State, x: SemId) returns (t: nat)
    requires Inv(s) && (x == MutexHead || x == MutexTail) && Available(s.sems[x]) == 0
    ensures t < |s.threads| && (Held(MutexHead, s.threads[t]) > 0 || Held(MutexTail, s.threads[t]) > 0)
    ensures CanGoOn(s, s.threads[t])
  {
    InvSettled(s);
    t := HolderGoesOn(s, x);
  }

  lemma HolderGoesOn(s: State, x: SemId) returns (t: nat)
    requires Settled(s) && (x == MutexHead || x == MutexTail) && Available(s.sems[x]) == 0
    ensures t < |s.threads| && (Held(MutexHead, s.threads[t]) > 0 || Held(MutexTail, s.threads[t]) > 0)
    ensures CanGoOn(s, s.threads[t])
  {
    assert TokenOk(s, MutexHead) && TokenOk(s, MutexTail);
    if HeldByAll(MutexTail, s.threads) > 0 {
      t := SomebodyHolds(MutexTail, s.threads);
    } else {
      t := SomebodyHolds(MutexHead, s.threads);
    }
    assert QueueOk(s.threads, MutexTail, s.sems[MutexTail]);
    assert LocalOk(s, s.threads[t]);
  }

  // ---------- the buffer in memory ----------

  class Buffer {
    const cap: nat
    const buffer: array<int>
    var head: nat
    var tail: nat
    /** The four semaphores, as the kernel sees them. */
    var sems: map<SemId, SemState<nat>>
    /** Where each thread is in the operation it is doing. */
    var threads: seq<Thread>
    ghost var stored: seq<int>
    ghost var delivered: seq<int>

    constructor (capacity: nat, n: nat)
      ensures fresh(buffer) && cap == capacity + 1 && buffer.Length == cap
      ensures Contains() == Opened(capacity, n, buffer[..]) && Inv(Contains())
    {
      cap := capacity + 1;
      buffer := new int[capacity + 1](i => 0);
      head, tail := 0, 0;
      sems := map[ItemAvailable := SemState(0, []), SpaceAvailable := SemState(capacity, []),
                  MutexHead := SemState(1, []), MutexTail := SemState(1, [])];
      threads := seq(n, i => Idle(0));
      stored, delivered := [], [];
      new;
      OpenedInv(capacity, n, buffer[..]);
    }

    ghost function Contains(): State
      reads this, buffer
    {
      State(cap, buffer[..], head, tail, sems, threads, stored, delivered)
    }

    method Begin(t: nat, op: Operation, value: int)
      requires Inv(Contains()) && Enabled(Contains(), Call(t, op, value))
      modifies this`threads
      ensures Inv(Contains()) && Contains() == Step(old(Contains()), Call(t, op, value))
    {
      StepInv(Contains(), Call(t, op, value));
      threads := threads[t := Running(op, 0, false, value)];
    }

    /** Thread `t` executes its next statement. */
    method ExecuteStatement(t: nat)
      requires Inv(Contains()) && Enabled(Contains(), Run(t))
      modifies this, buffer
      ensures Inv(Contains()) && Contains() == Step(old(Contains()), Run(t))
    {
      StepInv(Contains(), Run(t));
      RunStatement(t, Next(threads[t]));
    }

    /** The array is written in place and the indices go round by a remainder; the semaphores and
        the threads' positions are the kernel's, and are those of `Execute`. */
    method RunStatement(t: nat, statement: Statement)
      requires Wellformed(Contains()) && t < |threads| && AtStatement(threads[t])
      modifies this, buffer
      ensures Contains() == Execute(old(Contains()), t, statement)
    {
      var th := threads[t];
      match statement
      case SemWait(x) =>
        var blocked := Blocks(sems[x]);
        sems := sems[x := Wait(sems[x], t)];
        threads := threads[t := if blocked then th.(blocked := true) else Done(th, th.value)];
      case SemSignal(x) =>
        var released := Released(sems[x]);
        sems := sems[x := Signal(sems[x])];
        threads := WakeAll(threads, released)[t := Done(th, th.value)];
      case StoreAtTail =>
        buffer[tail] := th.value;
        threads := threads[t := Done(th, th.value)];
      case AdvanceTail =>
        RingQueue.SlotIsRemainder(tail, 1, cap);
        tail := (tail + 1) % cap;
        threads, stored := threads[t := Done(th, th.value)], stored + [th.value];
      case LoadAtHead =>
        threads := threads[t := Done(th, buffer[head])];
      case AdvanceHead =>
        RingQueue.SlotIsRemainder(head, 1, cap);
        head := (head + 1) % cap;
        threads, delivered := threads[t := Done(th, th.value)], delivered + [th.value];
      case Compare =>
        threads := threads[t := Done(th, if tail >= head then 1 else 0)];
      case Subtract =>
        threads := threads[t := Done(th, if th.value == 1 then tail - head else cap - head + tail)];
    }
  }
}
