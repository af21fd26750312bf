/** Sleeping threads as a plain list of deadlines.

    The kernel's queue stores how many ticks each thread sleeps after its predecessor; these
    are the functions on absolute deadlines that it has to agree with. */
module SleepSpec {

  datatype Sleeper<T> = Sleeper(thread: T, deadline: nat)

  /** Stable insertion: after every sleeper that is due no later. */
  function Insert<T>(queue: seq<Sleeper<T>>, x: Sleeper<T>): seq<Sleeper<T>> {
    if queue == [] then [x]
    else if x.deadline < queue[0].deadline then [x] + queue
    else [queue[0]] + Insert(queue[1..], x)
  }

  /** The threads at the front that are due by tick `now`. */
  function Due<T>(queue: seq<Sleeper<T>>, now: nat): seq<T> {
    if queue == [] || now < queue[0].deadline then [] else [queue[0].thread] + Due(queue[1..], now)
  }

  function NotDue<T>(queue: seq<Sleeper<T>>, now: nat): seq<Sleeper<T>> {
    if queue == [] || now < queue[0].deadline then queue else NotDue(queue[1..], now)
  }

  /** Threads with deadline exactly `d`, in list order. */
  function DueExactly<T>(queue: seq<Sleeper<T>>, d: nat): seq<T> {
    if queue == [] then []
    else (if queue[0].deadline == d then [queue[0].thread] else []) + DueExactly(queue[1..], d)
  }

  ghost predicate Sorted<T>(queue: seq<Sleeper<T>>) {
    forall i, j :: 0 <= i < j < |queue| ==> queue[i].deadline <= queue[j].deadline
  }

  ghost predicate AllAfter<T>(queue: seq<Sleeper<T>>, now: nat) {
    forall i :: 0 <= i < |queue| ==> now < queue[i].deadline
  }

  // ---------- the queue as it is stored: ticks relative to the predecessor ----------

  function SumTo(deltas: seq<nat>, k: nat): nat
    requires k <= |deltas|
  {
    if k == 0 then 0 else SumTo(deltas, k - 1) + deltas[k - 1]
  }

  /** The deadlines that relative ticks stand for. */
  function Absolute<T>(threads: seq<T>, deltas: seq<nat>, base: nat): seq<Sleeper<T>>
    requires |threads| == |deltas|
  {
    if threads == [] then []
    else [Sleeper(threads[0], base + deltas[0])] + Absolute(threads[1..], deltas[1..], base + deltas[0])
  }

  /** What `put_to_sleep` does to the relative ticks when it stops before element `k`. */
  function InsertDelta(deltas: seq<nat>, k: nat, ticks: nat): (out: seq<nat>)
    requires k <= |deltas| && SumTo(deltas, k) <= ticks
    requires k < |deltas| ==> ticks < SumTo(deltas, k + 1)
    ensures |out| == |deltas| + 1
  {
    var own := ticks - SumTo(deltas, k);
    if k == |deltas| then deltas + [own]
    else deltas[..k] + [own, deltas[k] - own] + deltas[k + 1..]
  }

  lemma {:induction false} SumToTail(deltas: seq<nat>, k: nat)
    requires 1 <= k <= |deltas|
    ensures SumTo(deltas, k) == deltas[0] + SumTo(deltas[1..], k - 1)
  {
    if k > 1 { SumToTail(deltas, k - 1); }
  }

  lemma {:induction false} SumToPrefix(a: seq<nat>, b: seq<nat>, k: nat)
    requires k <= |a| && k <= |b| && a[..k] == b[..k]
    ensures SumTo(a, k) == SumTo(b, k)
  {
    if k > 0 {
      assert a[k - 1] == a[..k][k - 1] == b[k - 1];
      assert a[..k - 1] == a[..k][..k - 1] == b[..k - 1];
      SumToPrefix(a, b, k - 1);
    }
  }

  lemma {:induction false} SumMonotone(deltas: seq<nat>, i: nat, k: nat)
    requires i <= k <= |deltas|
    ensures SumTo(deltas, i) <= SumTo(deltas, k)
  {
    if i < k { SumMonotone(deltas, i, k - 1); }
  }

  /** Inserting on relative ticks is stable insertion on deadlines. */
  lemma {:induction false} InsertRefines<T>(threads: seq<T>, deltas: seq<nat>, base: nat, k: nat, t: T, ticks: nat)
    requires |threads| == |deltas| && k <= |deltas|
    requires SumTo(deltas, k) <= ticks
    requires k < |deltas| ==> ticks < SumTo(deltas, k + 1)
    ensures Absolute(threads[..k] + [t] + threads[k..], InsertDelta(deltas, k, ticks), base)
         == Insert(Absolute(threads, deltas, base), Sleeper(t, base + ticks))
  {
    if k == 0 {
      InsertFront(threads, deltas, base, t, ticks);
    } else {
      var ts, ds, d0 := threads[1..], deltas[1..], deltas[0];
      InsertDeltaTail(deltas, k, ticks);
      InsertRefines(ts, ds, base + d0, k - 1, t, ticks - d0);
      PlaceTail(threads, k, t);
      HeadTail(threads);
      HeadTail(deltas);
      InsertStep(threads[0], ts, d0, ds, base, ts[..k - 1] + [t] + ts[k - 1..], InsertDelta(ds, k - 1, ticks - d0),
                 Sleeper(t, base + ticks));
    }
  }

  lemma HeadTail<T>(s: seq<T>)
    requires s != []
    ensures s == [s[0]] + s[1..]
  {
  }

  lemma PlaceTail<T>(s: seq<T>, k: nat, x: T)
    requires 1 <= k <= |s|
    ensures s[..k] + [x] + s[k..] == [s[0]] + (s[1..][..k - 1] + [x] + s[1..][k - 1..])
  {
  }

  lemma InsertStep<T>(t0: T, ts: seq<T>, d0: nat, ds: seq<nat>, base: nat,
                      tail: seq<T>, ins: seq<nat>, x: Sleeper<T>)
    requires |ts| == |ds| && |tail| == |ins| && base + d0 <= x.deadline
    requires Absolute(tail, ins, base + d0) == Insert(Absolute(ts, ds, base + d0), x)
    ensures Absolute([t0] + tail, [d0] + ins, base) == Insert(Absolute([t0] + ts, [d0] + ds, base), x)
  {
    AbsoluteCons(t0, tail, d0, ins, base);
    AbsoluteCons(t0, ts, d0, ds, base);
    InsertCons(Sleeper(t0, base + d0), Absolute(ts, ds, base + d0), x);
  }

  lemma InsertCons<T>(first: Sleeper<T>, rest: seq<Sleeper<T>>, x: Sleeper<T>)
    requires first.deadline <= x.deadline
    ensures Insert([first] + rest, x) == [first] + Insert(rest, x)
  {
    assert ([first] + rest)[1..] == rest;
  }

  lemma AbsoluteCons<T>(t: T, threads: seq<T>, delta: nat, deltas: seq<nat>, base: nat)
    requires |threads| == |deltas|
    ensures Absolute([t] + threads, [delta] + deltas, base)
         == [Sleeper(t, base + delta)] + Absolute(threads, deltas, base + delta)
  {
    assert ([t] + threads)[1..] == threads && ([delta] + deltas)[1..] == deltas;
  }

  lemma InsertFront<T>(threads: seq<T>, deltas: seq<nat>, base: nat, t: T, ticks: nat)
    requires |threads| == |deltas|
    requires SumTo(deltas, 0) <= ticks
    requires 0 < |deltas| ==> ticks < SumTo(deltas, 1)
    ensures Absolute(threads[..0] + [t] + threads[0..], InsertDelta(deltas, 0, ticks), base)
         == Insert(Absolute(threads, deltas, base), Sleeper(t, base + ticks))
  {
    var out, ins := threads[..0] + [t] + threads[0..], InsertDelta(deltas, 0, ticks);
    assert out[0] == t && out[1..] == threads;
    if threads != [] {
      var rest := ins[1..];
      assert ins[0] == ticks && rest[0] == deltas[0] - ticks && rest[1..] == deltas[1..];
    }
  }

  lemma InsertDeltaTail(deltas: seq<nat>, k: nat, ticks: nat)
    requires 1 <= k <= |deltas|
    requires SumTo(deltas, k) <= ticks
    requires k < |deltas| ==> ticks < SumTo(deltas, k + 1)
    ensures deltas[0] <= ticks
    ensures SumTo(deltas[1..], k - 1) <= ticks - deltas[0]
    ensures k < |deltas| ==> ticks - deltas[0] < SumTo(deltas[1..], k)
    ensures InsertDelta(deltas, k, ticks) == [deltas[0]] + InsertDelta(deltas[1..], k - 1, ticks - deltas[0])
  {
    SumToTail(deltas, k);
    if k < |deltas| { SumToTail(deltas, k + 1); }
    var tail, own := deltas[1..], ticks - SumTo(deltas, k);
    if k < |deltas| {
      SplitTail(deltas, k, own);
    } else {
      HeadTail(deltas);
      assert deltas + [own] == [deltas[0]] + (tail + [own]);
    }
  }

  lemma SplitTail(deltas: seq<nat>, k: nat, own: nat)
    requires 1 <= k < |deltas| && own <= deltas[k]
    ensures var tail := deltas[1..];
      deltas[..k] + [own, deltas[k] - own] + deltas[k + 1..]
        == [deltas[0]] + (tail[..k - 1] + [own, tail[k - 1] - own] + tail[k..])
  {
  }

  lemma {:induction false} InsertSum(deltas: seq<nat>, k: nat, ticks: nat)
    requires k <= |deltas| && SumTo(deltas, k) <= ticks
    requires k < |deltas| ==> ticks < SumTo(deltas, k + 1)
    ensures var out := InsertDelta(deltas, k, ticks);
      SumTo(out, |out|) == if k == |deltas| then ticks else SumTo(deltas, |deltas|)
  {
    var out := InsertDelta(deltas, k, ticks);
    SumToPrefix(out, deltas, k);
    assert out[k] == ticks - SumTo(deltas, k);
    assert SumTo(out, k + 1) == ticks;
    if k < |deltas| {
      SumShift(out, deltas, k, |deltas|);
    }
  }

  lemma {:induction false} SumShift(out: seq<nat>, deltas: seq<nat>, k: nat, n: nat)
    requires k < n <= |deltas| && |out| == |deltas| + 1
    requires SumTo(out, k + 2) == SumTo(deltas, k + 1)
    requires out[k + 2..] == deltas[k + 1..]
    ensures SumTo(out, n + 1) == SumTo(deltas, n)
  {
    if n > k + 1 {
      SumShift(out, deltas, k, n - 1);
      assert out[n] == out[k + 2..][n - k - 2] == deltas[n - 1];
    }
  }

  lemma {:induction false} AbsoluteSorted<T>(threads: seq<T>, deltas: seq<nat>, base: nat)
    requires |threads| == |deltas|
    ensures Sorted(Absolute(threads, deltas, base))
    ensures |Absolute(threads, deltas, base)| == |threads|
    ensures forall i :: 0 <= i < |threads| ==>
      Absolute(threads, deltas, base)[i].thread == threads[i] && base <= Absolute(threads, deltas, base)[i].deadline
  {
    if threads != [] { AbsoluteSorted(threads[1..], deltas[1..], base + deltas[0]); }
  }

  // ---------- agreement with the order of arrival ----------

  datatype SleepEvent<T> = SleepFor(thread: T, ticks: nat) | TimerTick

  /** The queue, the tick count, and who was woken by each tick so far. */
  datatype SleepRun<T> = SleepRun(queue: seq<Sleeper<T>>, now: nat, woken: seq<seq<T>>)

  function SleepStep<T>(r: SleepRun<T>, e: SleepEvent<T>): SleepRun<T> {
    match e
    case SleepFor(t, ticks) => r.(queue := Insert(r.queue, Sleeper(t, r.now + ticks)))
    case TimerTick => SleepRun(NotDue(r.queue, r.now + 1), r.now + 1, r.woken + [Due(r.queue, r.now + 1)])
  }

  function RunFrom<T>(r: SleepRun<T>, events: seq<SleepEvent<T>>): SleepRun<T> {
    if events == [] then r else SleepStep(RunFrom(r, events[..|events| - 1]), events[|events| - 1])
  }

  /** From an empty queue, at tick 0. */
  function RunQueue<T>(events: seq<SleepEvent<T>>): SleepRun<T> {
    RunFrom(SleepRun([], 0, []), events)
  }

  lemma {:induction false} RunFromConcat<T>(r: SleepRun<T>, a: seq<SleepEvent<T>>, b: seq<SleepEvent<T>>)
    ensures RunFrom(r, a + b) == RunFrom(RunFrom(r, a), b)
  {
    if b == [] {
      assert a + b == a;
    } else {
      var front := b[..|b| - 1];
      assert (a + b)[..|a + b| - 1] == a + front;
      RunFromConcat(r, a, front);
    }
  }

  lemma RunFromOne<T>(r: SleepRun<T>, e: SleepEvent<T>)
    ensures RunFrom(r, [e]) == SleepStep(r, e)
  {
    assert [e][..0] == [];
  }

  function TicksIn<T>(events: seq<SleepEvent<T>>): nat {
    if events == [] then 0
    else TicksIn(events[..|events| - 1]) + if events[|events| - 1].TimerTick? then 1 else 0
  }

  /** The plain reference: every thread that ever went to sleep, in order, with its deadline. */
  function Arrivals<T>(events: seq<SleepEvent<T>>): seq<Sleeper<T>> {
    if events == [] then []
    else
      var before, e := events[..|events| - 1], events[|events| - 1];
      Arrivals(before) + if e.SleepFor? then [Sleeper(e.thread, TicksIn(before) + e.ticks)] else []
  }

  ghost predicate Agrees<T>(r: SleepRun<T>, arrivals: seq<Sleeper<T>>) {
    && Sorted(r.queue) && AllAfter(r.queue, r.now) && |r.woken| == r.now
    && (forall d :: r.now < d ==> DueExactly(r.queue, d) == DueExactly(arrivals, d))
    && (forall d :: 1 <= d <= r.now ==> r.woken[d - 1] == DueExactly(arrivals, d))
  }

  lemma {:induction false} DueExactlyConcat<T>(a: seq<Sleeper<T>>, b: seq<Sleeper<T>>, d: nat)
    ensures DueExactly(a + b, d) == DueExactly(a, d) + DueExactly(b, d)
  {
    if a == [] {
      assert a + b == b;
    } else {
      var first := if a[0].deadline == d then [a[0].thread] else [];
      var rest, more := DueExactly(a[1..], d), DueExactly(b, d);
      DueExactlyConcat(a[1..], b, d);
      assert (a + b)[0] == a[0] && (a + b)[1..] == a[1..] + b;
      assert first + (rest + more) == (first + rest) + more;
    }
  }

  /** Stable insertion keeps, for every deadline, the order of arrival. */
  lemma {:induction false} InsertStable<T>(queue: seq<Sleeper<T>>, x: Sleeper<T>, d: nat)
    requires Sorted(queue)
    ensures Sorted(Insert(queue, x))
    ensures DueExactly(Insert(queue, x), d) == DueExactly(queue + [x], d)
    ensures forall y :: y in Insert(queue, x) <==> y == x || y in queue
  {
    DueExactlyConcat(queue, [x], d);
    if queue == [] {
      assert queue + [x] == [x];
    } else if x.deadline < queue[0].deadline {
      NoneDue(queue, x.deadline);
    } else {
      InsertStable(queue[1..], x, d);
      DueExactlyConcat(queue[1..], [x], d);
      HeadTail(queue);
      StableCons(queue[0], queue[1..], Insert(queue[1..], x), x, d);
    }
  }

  lemma StableCons<T>(first: Sleeper<T>, tail: seq<Sleeper<T>>, rest: seq<Sleeper<T>>, x: Sleeper<T>, d: nat)
    requires Sorted([first] + tail) && Sorted(rest) && first.deadline <= x.deadline
    requires forall y :: y in rest <==> y == x || y in tail
    ensures Sorted([first] + rest)
    ensures DueExactly([first] + rest, d) == DueExactly([first], d) + DueExactly(rest, d)
    ensures DueExactly([first] + tail, d) == DueExactly([first], d) + DueExactly(tail, d)
    ensures forall y :: y in [first] + rest <==> y == x || y in [first] + tail
  {
    DueExactlyConcat([first], rest, d);
    DueExactlyConcat([first], tail, d);
    forall j | 0 <= j < |rest|
      ensures first.deadline <= rest[j].deadline
    {
      assert rest[j] in rest;
      if rest[j] != x {
        var i :| 0 <= i < |tail| && tail[i] == rest[j];
        assert ([first] + tail)[i + 1] == tail[i];
      }
    }
  }

  lemma {:induction false} NoneDue<T>(queue: seq<Sleeper<T>>, d: nat)
    requires AllAfter(queue, d)
    ensures DueExactly(queue, d) == []
  {
    if queue != [] { NoneDue(queue[1..], d); }
  }

  /** A tick wakes exactly the threads due at it and leaves the others. */
  lemma {:induction false} TickWakes<T>(queue: seq<Sleeper<T>>, now: nat)
    requires Sorted(queue) && AllAfter(queue, now)
    ensures Due(queue, now + 1) == DueExactly(queue, now + 1)
    ensures Sorted(NotDue(queue, now + 1)) && AllAfter(NotDue(queue, now + 1), now + 1)
    ensures forall d :: now + 1 < d ==> DueExactly(NotDue(queue, now + 1), d) == DueExactly(queue, d)
  {
    if queue != [] {
      if queue[0].deadline == now + 1 {
        TickWakes(queue[1..], now);
      } else {
        NoneDue(queue, now + 1);
      }
    }
  }

  lemma {:induction false} RunAgrees<T>(events: seq<SleepEvent<T>>)
    requires forall e :: e in events && e.SleepFor? ==> e.ticks >= 1
    ensures Agrees(RunQueue(events), Arrivals(events))
    ensures RunQueue(events).now == TicksIn(events)
  {
    if events != [] {
      var before, e := events[..|events| - 1], events[|events| - 1];
      assert e in events;
      RunAgrees(before);
      var r := RunQueue(before);
      if e.SleepFor? {
        SleepAgrees(r, Arrivals(before), Sleeper(e.thread, r.now + e.ticks));
      } else {
        TickAgrees(r, Arrivals(before));
        assert Arrivals(events) == Arrivals(before);
      }
    }
  }

  lemma TickAgrees<T>(r: SleepRun<T>, arrivals: seq<Sleeper<T>>)
    requires Agrees(r, arrivals)
    ensures Agrees(SleepStep(r, TimerTick), arrivals)
  {
    TickWakes(r.queue, r.now);
  }

  lemma DueOneMore<T>(r: SleepRun<T>, arrivals: seq<Sleeper<T>>, x: Sleeper<T>, d: nat)
    requires Agrees(r, arrivals) && r.now < x.deadline
    ensures r.now < d ==> DueExactly(Insert(r.queue, x), d) == DueExactly(arrivals + [x], d)
    ensures d <= r.now ==> DueExactly(arrivals + [x], d) == DueExactly(arrivals, d)
  {
    InsertStable(r.queue, x, d);
    DueExactlyConcat(r.queue, [x], d);
    DueExactlyConcat(arrivals, [x], d);
  }

  lemma SleepAgrees<T>(r: SleepRun<T>, arrivals: seq<Sleeper<T>>, x: Sleeper<T>)
    requires Agrees(r, arrivals) && r.now < x.deadline
    ensures Agrees(r.(queue := Insert(r.queue, x)), arrivals + [x])
  {
    var queue := Insert(r.queue, x);
    forall d: nat
      ensures r.now < d ==> DueExactly(queue, d) == DueExactly(arrivals + [x], d)
      ensures d <= r.now ==> DueExactly(arrivals + [x], d) == DueExactly(arrivals, d)
    {
      DueOneMore(r, arrivals, x, d);
    }
    InsertStable(r.queue, x, 0);
    forall i | 0 <= i < |queue|
      ensures r.now < queue[i].deadline
    {
      assert queue[i] in queue;
    }
  }

  /** A thread that goes to sleep for S ticks is woken by exactly the S-th following tick, and
      threads due together are woken in the order in which they went to sleep. */
  lemma WakesExactlyOnTime<T>(events: seq<SleepEvent<T>>, d: nat)
    requires forall e :: e in events && e.SleepFor? ==> e.ticks >= 1
    requires 1 <= d <= TicksIn(events)
    ensures |RunQueue(events).woken| == TicksIn(events)
    ensures RunQueue(events).woken[d - 1] == DueExactly(Arrivals(events), d)
  {
    RunAgrees(events);
  }
}
