/** Counting semaphores with a first-in first-out queue, on values. */
module SemSpec {

  datatype SemState<T> = SemState(value: int, waiters: seq<T>)

  predicate Blocks<T>(s: SemState<T>) {
    s.value - 1 < 0
  }

  /** `wait` by thread `t`. */
  function Wait<T>(s: SemState<T>, t: T): SemState<T> {
    SemState(s.value - 1, if Blocks(s) then s.waiters + [t] else s.waiters)
  }

  /** Whom `signal` releases: at most one thread. */
  function Released<T>(s: SemState<T>): seq<T> {
    if s.value + 1 <= 0 && s.waiters != [] then [s.waiters[0]] else []
  }

  function Signal<T>(s: SemState<T>): SemState<T> {
    SemState(s.value + 1, if Released(s) == [] then s.waiters else s.waiters[1..])
  }

  /** A negative value counts the queued threads. */
  predicate Consistent<T>(s: SemState<T>) {
    |s.waiters| == if s.value < 0 then -s.value else 0
  }

  lemma WaitConsistent<T>(s: SemState<T>, t: T)
    requires Consistent(s)
    ensures Consistent(Wait(s, t))
  {
  }

  lemma SignalConsistent<T>(s: SemState<T>)
    requires Consistent(s)
    ensures Consistent(Signal(s))
    ensures Released(s) == if s.value < 0 then [s.waiters[0]] else []
  {
  }

  // ---------- whole runs, up to `close` ----------

  datatype SemOp<T> = OpWait(thread: T) | OpSignal

  function Apply<T>(s: SemState<T>, op: SemOp<T>): SemState<T> {
    match op
    case OpWait(t) => Wait(s, t)
    case OpSignal => Signal(s)
  }

  function ApplyAll<T>(s: SemState<T>, ops: seq<SemOp<T>>): SemState<T> {
    if ops == [] then s else Apply(ApplyAll(s, ops[..|ops| - 1]), ops[|ops| - 1])
  }

  function CountWaits<T>(ops: seq<SemOp<T>>): nat {
    if ops == [] then 0
    else CountWaits(ops[..|ops| - 1]) + if ops[|ops| - 1].OpWait? then 1 else 0
  }

  function CountSignals<T>(ops: seq<SemOp<T>>): nat {
    if ops == [] then 0
    else CountSignals(ops[..|ops| - 1]) + if ops[|ops| - 1].OpSignal? then 1 else 0
  }

  /** The threads that had to queue, in order of arrival. */
  function Queued<T>(s: SemState<T>, ops: seq<SemOp<T>>): seq<T> {
    if ops == [] then []
    else
      var before, op := ops[..|ops| - 1], ops[|ops| - 1];
      Queued(s, before) + if op.OpWait? && Blocks(ApplyAll(s, before)) then [op.thread] else []
  }

  /** The queued threads that were released, in order of release. */
  function Unblocked<T>(s: SemState<T>, ops: seq<SemOp<T>>): seq<T> {
    if ops == [] then []
    else
      var before, op := ops[..|ops| - 1], ops[|ops| - 1];
      Unblocked(s, before) + if op.OpSignal? then Released(ApplyAll(s, before)) else []
  }

  lemma {:induction false} ApplyAllConcat<T>(s: SemState<T>, a: seq<SemOp<T>>, b: seq<SemOp<T>>)
    ensures ApplyAll(s, a + b) == ApplyAll(ApplyAll(s, a), b)
  {
    if b == [] {
      assert a + b == a;
    } else {
      var front := b[..|b| - 1];
      assert (a + b)[..|a + b| - 1] == a + front;
      ApplyAllConcat(s, a, front);
    }
  }

  function Min(x: int, y: int): int {
    if x < y then x else y
  }

  /** After operations `ops` on a semaphore opened with `init`: the value is what was put in less
      what was taken out, its negation counts the queue, as many waits are granted as the total
      allows, and blocked threads leave in the order in which they came. */
  ghost predicate SemaphoreLaw<T>(init: nat, ops: seq<SemOp<T>>, s: SemState<T>) {
    && s.value == init + CountSignals(ops) - CountWaits(ops)
    && |s.waiters| == (if s.value < 0 then -s.value else 0)
    && CountWaits(ops) - |s.waiters| == Min(CountWaits(ops), init + CountSignals(ops))
    && Queued(SemState(init, []), ops) == Unblocked(SemState(init, []), ops) + s.waiters
  }

  /** The law holds over every run. */
  lemma {:induction false} SemaphoreRun<T>(init: nat, ops: seq<SemOp<T>>)
    ensures SemaphoreLaw(init, ops, ApplyAll(SemState(init, []), ops))
  {
    if ops != [] {
      var before, op := ops[..|ops| - 1], ops[|ops| - 1];
      assert ops == before + [op];
      SemaphoreRun(init, before);
      QueueStep(SemState(init, []), before, op);
    }
  }

  /** `sem_open` takes an unsigned value and keeps it as a signed one of 32 bits. */
  function AsInt(init: nat): int
    requires init < 0x1_0000_0000
  {
    if init < 0x8000_0000 then init else init - 0x1_0000_0000
  }

  /** The law holds of every run from the value asked for exactly when that fits the signed type;
      otherwise already the first wait blocks. */
  lemma OpensRight<T>(init: nat)
    requires init < 0x1_0000_0000
    ensures (forall ops: seq<SemOp<T>> :: SemaphoreLaw(init, ops, ApplyAll(SemState(AsInt(init), []), ops)))
            <==> init < 0x8000_0000
    ensures init >= 0x8000_0000 ==> Blocks<T>(SemState(AsInt(init), []))
  {
    if init < 0x8000_0000 {
      forall ops: seq<SemOp<T>>
        ensures SemaphoreLaw(init, ops, ApplyAll(SemState(AsInt(init), []), ops))
      {
        SemaphoreRun(init, ops);
      }
    } else {
      var none: seq<SemOp<T>> := [];
      assert ApplyAll(SemState(AsInt(init), []), none).value != init;
    }
  }

  lemma QueueStep<T>(s0: SemState<T>, before: seq<SemOp<T>>, op: SemOp<T>)
    requires Queued(s0, before) == Unblocked(s0, before) + ApplyAll(s0, before).waiters
    ensures Queued(s0, before + [op]) == Unblocked(s0, before + [op]) + ApplyAll(s0, before + [op]).waiters
  {
    var s := ApplyAll(s0, before);
    assert (before + [op])[..|before|] == before;
    match op
    case OpWait(t) => WaitQueue(Unblocked(s0, before), s, t);
    case OpSignal => SignalQueue(Unblocked(s0, before), s);
  }

  lemma WaitQueue<T>(gone: seq<T>, s: SemState<T>, t: T)
    ensures gone + s.waiters + (if Blocks(s) then [t] else []) == gone + Wait(s, t).waiters
  {
  }

  lemma SignalQueue<T>(gone: seq<T>, s: SemState<T>)
    ensures gone + s.waiters == gone + Released(s) + Signal(s).waiters
  {
  }
}
