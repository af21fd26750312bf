/** The ready queue and the delta-encoded sleep queue. */
module Scheduling {
  import opened Threads
  import opened SleepSpec
  import opened Utils

  class Scheduler {
    const queue: TCBList

    constructor ()
      ensures fresh(queue) && queue.Valid() && queue.elems == []
    {
      queue := new TCBList();
    }

    method NextTcb() returns (t: TCB?)
      requires queue.Valid()
      modifies queue, queue.elems`next, queue.elems`prev
      ensures queue.Valid()
      ensures t == if old(queue.elems) == [] then null else old(queue.elems)[0]
      ensures queue.elems == if old(queue.elems) == [] then [] else old(queue.elems)[1..]
    {
      t := queue.TakeFirst();
    }

    method PutTcb(t: TCB?)
      requires queue.Valid() && t !in queue.elems
      modifies queue, queue.elems`next
      modifies (if t == null then {} else {t})`next, (if t == null then {} else {t})`prev
      modifies (if t == null then {} else {t})`status, (if t == null then {} else {t})`place
      ensures queue.Valid()
      ensures queue.elems == old(queue.elems) + if t == null then [] else [t]
      ensures t != null ==> t.status == READY && t.place == InReady
    {
      if t != null {
        t.status := READY;
        t.place := InReady;
        queue.AddLast(t);
      }
    }
  }

  /** The stored ticks of a list of threads. */
  ghost function Deltas(threads: seq<TCB>): (ds: seq<nat>)
    reads threads
    ensures |ds| == |threads|
  {
    seq(|threads|, i requires 0 <= i < |threads| reads threads => threads[i].sleepFor)
  }

  /** The head has ticks left, and the longest sleep fits 64 bits. */
  ghost predicate TicksOk(deltas: seq<nat>) {
    && (deltas != [] ==> deltas[0] >= 1)
    && SumTo(deltas, |deltas|) < TWO_TO_THE_64
  }

  /** What inserting before place `k` does to the stored ticks. */
  lemma PlaceFits(threads: seq<TCB>, deltas: seq<nat>, now: nat, k: nat, t: TCB, ticks: nat)
    requires |threads| == |deltas| && k <= |deltas| && SumTo(deltas, k) <= ticks
    requires k < |deltas| ==> ticks < SumTo(deltas, k + 1)
    requires 1 <= ticks < TWO_TO_THE_64 && TicksOk(deltas)
    ensures var out := InsertDelta(deltas, k, ticks);
      && TicksOk(out)
      && Absolute(threads[..k] + [t] + threads[k..], out, now)
           == Insert(Absolute(threads, deltas, now), Sleeper(t, now + ticks))
  {
    InsertRefines(threads, deltas, now, k, t, ticks);
    InsertSum(deltas, k, ticks);
  }

  /** The threads with no ticks left, up to the first that has some, are the ones due. */
  lemma {:induction false} DueSplit(threads: seq<TCB>, deltas: seq<nat>, now: nat, j: nat)
    requires |threads| == |deltas| && Expired(deltas, j)
    ensures Due(Absolute(threads, deltas, now), now) == threads[..j]
    ensures NotDue(Absolute(threads, deltas, now), now) == Absolute(threads[j..], deltas[j..], now)
  {
    if j == 0 {
      assert threads[0..] == threads && deltas[0..] == deltas;
    } else {
      var ts, ds := threads[1..], deltas[1..];
      DueSplit(ts, ds, now, j - 1);
      assert threads[..j] == [threads[0]] + ts[..j - 1] && ts[j - 1..] == threads[j..] && ds[j - 1..] == deltas[j..];
      assert threads == [threads[0]] + ts && deltas == [deltas[0]] + ds;
      AbsoluteCons(threads[0], ts, 0, ds, now);
      DueCons(Sleeper(threads[0], now), Absolute(ts, ds, now), now);
    }
  }

  function CountedDown(deltas: seq<nat>): (ds: seq<nat>)
    requires deltas != [] ==> deltas[0] >= 1
    ensures |ds| == |deltas|
  {
    if deltas == [] then [] else deltas[0 := deltas[0] - 1]
  }

  /** Exactly the first `j` have no ticks left before one that has some. */
  ghost predicate Expired(deltas: seq<nat>, j: nat) {
    && j <= |deltas|
    && (forall i :: 0 <= i < j ==> deltas[i] == 0)
    && (j < |deltas| ==> deltas[j] != 0)
  }

  /** The same, starting from the ticks as they were before the head was counted down. */
  lemma TickSplit(threads: seq<TCB>, deltas: seq<nat>, now: nat, j: nat)
    requires |threads| == |deltas| && TicksOk(deltas)
    requires Expired(CountedDown(deltas), j)
    ensures Due(Absolute(threads, deltas, now), now + 1) == threads[..j]
    ensures NotDue(Absolute(threads, deltas, now), now + 1)
         == Absolute(threads[j..], CountedDown(deltas)[j..], now + 1)
    ensures TicksOk(CountedDown(deltas)[j..])
  {
    var ds := CountedDown(deltas);
    if deltas != [] {
      assert ds[1..] == deltas[1..];
      assert Absolute(threads, deltas, now) == Absolute(threads, ds, now + 1);
      DueSplit(threads, ds, now + 1, j);
      ZerosSum(ds, j);
      SumToTail(ds, |ds|);
      SumToTail(deltas, |ds|);
    }
  }

  /** What is left of the queue when the first `j` have gone. */
  lemma AfterTick(threads: seq<TCB>, deltas: seq<nat>, now: nat, j: nat, threads': seq<TCB>, deltas': seq<nat>)
    requires |threads| == |deltas| && TicksOk(deltas) && Expired(CountedDown(deltas), j)
    requires threads' == threads[j..] && deltas' == CountedDown(deltas)[j..]
    ensures |threads'| == |deltas'| && TicksOk(deltas')
    ensures var before := Absolute(threads, deltas, now);
      && Due(before, now + 1) == threads[..j] && |threads[..j]| == j
      && NotDue(before, now + 1) == Absolute(threads', deltas', now + 1)
  {
    TickSplit(threads, deltas, now, j);
  }

  lemma DeltasAfter(threads: seq<TCB>, ds: seq<nat>, j: nat)
    requires j <= |threads| == |ds| && forall i :: 0 <= i < |ds| ==> threads[i].sleepFor == ds[i]
    ensures Deltas(threads[j..]) == ds[j..]
  {
  }

  lemma DueCons(first: Sleeper<TCB>, rest: seq<Sleeper<TCB>>, now: nat)
    requires first.deadline <= now
    ensures Due([first] + rest, now) == [first.thread] + Due(rest, now)
    ensures NotDue([first] + rest, now) == NotDue(rest, now)
  {
    assert ([first] + rest)[1..] == rest;
  }

  lemma {:induction false} ZerosSum(deltas: seq<nat>, j: nat)
    requires j <= |deltas| && forall i :: 0 <= i < j ==> deltas[i] == 0
    ensures SumTo(deltas[j..], |deltas| - j) == SumTo(deltas, |deltas|)
  {
    if j == 0 {
      assert deltas[0..] == deltas;
    } else {
      SumToTail(deltas, |deltas|);
      ZerosSum(deltas[1..], j - 1);
      assert deltas[1..][j - 1..] == deltas[j..];
    }
  }

  lemma SliceStep<T>(s: seq<T>, j: nat)
    requires j < |s|
    ensures s[j..] != [] && s[j..][0] == s[j] && s[j..][1..] == s[j + 1..]
    ensures s[..j] + [s[j]] == s[..j + 1]
  {
  }

  ghost predicate AllReady(ts: seq<TCB>)
    reads ts`status, ts`place
  {
    forall t :: t in ts ==> t.status == READY && t.place == InReady
  }

  /** Neither status nor place changed. */
  twostate predicate SameMarks(ts: seq<TCB>)
    reads ts`status, ts`place
  {
    forall t :: t in ts ==> t.status == old(t.status) && t.place == old(t.place)
  }

  lemma ReadyGrows(ts: seq<TCB>, j: nat)
    requires j < |ts| && AllReady(ts[..j]) && ts[j].status == READY && ts[j].place == InReady
    ensures AllReady(ts[..j + 1])
  {
  }

  class TCBSleepQueue {
    const queue: TCBList
    /** Ticks so far. */
    ghost var now: nat

    constructor ()
      ensures fresh(queue) && Valid() && queue.elems == [] && now == 0
    {
      queue := new TCBList();
      now := 0;
    }

    ghost predicate Valid()
      reads this, queue, queue.elems
    {
      queue.Valid() && TicksOk(Deltas(queue.elems))
    }

    /** The abstract value: who sleeps, and until which tick. */
    ghost function Sleepers(): seq<Sleeper<TCB>>
      reads this, queue, queue.elems
    {
      Absolute(queue.elems, Deltas(queue.elems), now)
    }

    method PutToSleep(t: TCB?, sleepFor: nat) returns (ghost k: nat)
      requires Valid() && t !in queue.elems && 1 <= sleepFor < TWO_TO_THE_64
      modifies queue, queue.elems`next, queue.elems`prev, queue.elems`sleepFor
      modifies (if t == null then {} else {t})`next, (if t == null then {} else {t})`prev
      modifies (if t == null then {} else {t})`status, (if t == null then {} else {t})`place
      modifies (if t == null then {} else {t})`sleepFor
      ensures Valid()
      ensures t == null ==> queue.elems == old(queue.elems) && Sleepers() == old(Sleepers())
      ensures t != null ==> t.status == SUSPENDED && t.place == Asleep
      ensures t != null ==> Sleepers() == Insert(old(Sleepers()), Sleeper(t, now + sleepFor))
      ensures t != null ==> k <= |old(queue.elems)|
      ensures t != null ==> queue.elems == old(queue.elems)[..k] + [t] + old(queue.elems)[k..]
    {
      k := 0;
      if t == null {
        return;
      }
      k := Enqueue(t, sleepFor);
    }

    method Enqueue(t: TCB, sleepFor: nat) returns (ghost k: nat)
      requires Valid() && t !in queue.elems && 1 <= sleepFor < TWO_TO_THE_64
      modifies queue, queue.elems`next, queue.elems`prev, queue.elems`sleepFor
      modifies t`next, t`prev, t`status, t`place, t`sleepFor
      ensures Valid()
      ensures t.status == SUSPENDED && t.place == Asleep
      ensures Sleepers() == Insert(old(Sleepers()), Sleeper(t, now + sleepFor))
      ensures k <= |old(queue.elems)| && queue.elems == old(queue.elems)[..k] + [t] + old(queue.elems)[k..]
    {
      ghost var ds := Deltas(queue.elems);
      Suspend(t, sleepFor);
      var current, totalTime;
      current, totalTime, k := FindPlace(sleepFor);
      PlaceFits(queue.elems, ds, now, k, t, sleepFor);
      ChainAt(t, current, totalTime, k, ds);
    }

    /** The fields of a thread that goes to sleep, before it is chained. */
    method Suspend(t: TCB, sleepFor: nat)
      requires Valid() && t !in queue.elems
      modifies t`next, t`prev, t`status, t`place, t`sleepFor
      ensures Valid() && Deltas(queue.elems) == old(Deltas(queue.elems))
      ensures t.sleepFor == sleepFor && t.status == SUSPENDED && t.place == Asleep
    {
      t.sleepFor := sleepFor;
      t.status := SUSPENDED;
      t.place := Asleep;
      TCBList.Unlink(t);
      assert Deltas(queue.elems) == old(Deltas(queue.elems));
    }

    /** Chain `t` in its place. */
    method ChainAt(t: TCB, current: TCB?, totalTime: nat, ghost k: nat, ghost ds: seq<nat>)
      requires queue.Valid() && t !in queue.elems && ds == Deltas(queue.elems)
      requires k <= |queue.elems| && current == queue.At(k)
      requires totalTime == SumTo(ds, k) <= t.sleepFor
      requires k < |ds| ==> t.sleepFor < SumTo(ds, k + 1)
      modifies queue, queue.elems`next, queue.elems`prev, queue.elems`sleepFor, t`next, t`prev, t`sleepFor
      ensures queue.Valid()
      ensures queue.elems == old(queue.elems[..k] + [t] + queue.elems[k..])
      ensures Deltas(queue.elems) == InsertDelta(ds, k, old(t.sleepFor))
    {
      if queue.IsEmpty() {
        queue.SetFirst(t);
      } else if current != null {
        ChainBefore(t, current, totalTime, k);
      } else {
        ChainLast(t, totalTime);
      }
    }

    /** The first sleeper due later than `sleepFor` ticks from now, with the ticks up to it. */
    method FindPlace(sleepFor: nat) returns (current: TCB?, totalTime: nat, ghost k: nat)
      requires Valid()
      ensures k <= |queue.elems| && current == queue.At(k)
      ensures totalTime == SumTo(Deltas(queue.elems), k) <= sleepFor
      ensures k < |queue.elems| ==> sleepFor < SumTo(Deltas(queue.elems), k + 1)
    {
      ghost var ds := Deltas(queue.elems);
      totalTime := 0;
      current := queue.head;
      k := 0;
      while current != null
        invariant 0 <= k <= |queue.elems| == |ds| && current == queue.At(k)
        invariant totalTime == SumTo(ds, k) <= sleepFor
        decreases |queue.elems| - k
      {
        SumMonotone(ds, k + 1, |ds|);
        totalTime := totalTime + current.sleepFor;
        assert totalTime < TWO_TO_THE_64;
        if sleepFor >= totalTime {
          assert queue.NodeAt(k);
          current := current.next;
          k := k + 1;
        } else {
          totalTime := totalTime - current.sleepFor;
          break;
        }
      }
    }

    /** Chain `t` before `current`, splitting the ticks `current` still sleeps after its predecessor. */
    method ChainBefore(t: TCB, current: TCB, totalTime: nat, ghost k: nat)
      requires queue.Valid() && t !in queue.elems
      requires k < |queue.elems| && current == queue.elems[k]
      requires totalTime == SumTo(Deltas(queue.elems), k) <= t.sleepFor
      requires t.sleepFor < SumTo(Deltas(queue.elems), k + 1)
      modifies queue, queue.elems`next, queue.elems`prev, queue.elems`sleepFor, t`next, t`prev, t`sleepFor
      ensures queue.Valid()
      ensures queue.elems == old(queue.elems[..k] + [t] + queue.elems[k..])
      ensures Deltas(queue.elems) == old(InsertDelta(Deltas(queue.elems), k, t.sleepFor))
    {
      ghost var ds := InsertDelta(Deltas(queue.elems), k, t.sleepFor);
      LinkBefore(t, current, k);
      if t.prev != null {
        t.sleepFor := t.sleepFor - totalTime;
      }
      current.sleepFor := current.sleepFor - t.sleepFor;
      forall i | 0 <= i < |queue.elems|
        ensures queue.elems[i].sleepFor == ds[i]
      {
        assert i < k ==> queue.elems[i] != current;
      }
    }

    method LinkBefore(t: TCB, current: TCB, ghost k: nat)
      requires queue.Valid() && t !in queue.elems
      requires k < |queue.elems| && current == queue.elems[k]
      modifies queue, queue.elems`next, queue.elems`prev, t`next, t`prev
      ensures queue.Valid()
      ensures queue.elems == old(queue.elems[..k] + [t] + queue.elems[k..])
      ensures t.prev == null <==> k == 0
    {
      assert queue.NodeAt(k);
      if k > 0 { assert queue.NodeAt(k - 1); }
      t.next := current;
      t.prev := current.prev;
      if t.prev != null {
        t.prev.next := t;
      } else {
        queue.head := t;
      }
      current.prev := t;
      queue.elems := queue.elems[..k] + [t] + queue.elems[k..];
      forall i | 0 <= i < |queue.elems|
        ensures queue.NodeAt(i)
      {
        if i != k { assert old(queue.NodeAt(if i < k then i else i - 1)); }
      }
    }

    /** Nobody sleeps longer than `t`: it goes last. */
    method ChainLast(t: TCB, totalTime: nat)
      requires queue.Valid() && t !in queue.elems
      requires totalTime == SumTo(Deltas(queue.elems), |queue.elems|) <= t.sleepFor
      modifies queue, queue.elems`next, t`next, t`prev, t`sleepFor
      ensures queue.Valid()
      ensures queue.elems == old(queue.elems) + [t]
      ensures queue.elems == old(queue.elems[..|queue.elems|] + [t] + queue.elems[|queue.elems|..])
      ensures Deltas(queue.elems) == old(InsertDelta(Deltas(queue.elems), |queue.elems|, t.sleepFor))
    {
      t.sleepFor := t.sleepFor - totalTime;
      queue.AddLast(t);
    }

    /** One timer tick: the threads now due go to the ready queue. */
    method TimerTick(scheduler: Scheduler)
      requires Valid() && scheduler.queue.Valid() && Apart(scheduler)
      modifies this`now, queue, queue.elems`next, queue.elems`prev
      modifies queue.elems`sleepFor, queue.elems`status, queue.elems`place
      modifies scheduler.queue, scheduler.queue.elems`next
      ensures Valid() && scheduler.queue.Valid()
      ensures now == old(now) + 1
      ensures Sleepers() == NotDue(old(Sleepers()), now)
      ensures var due := Due(old(Sleepers()), old(now) + 1);
        && scheduler.queue.elems == old(scheduler.queue.elems) + due
        && |due| <= |old(queue.elems)| && due == old(queue.elems)[..|due|]
        && queue.elems == old(queue.elems)[|due|..]
        && AllReady(due) && SameMarks(old(queue.elems)[|due|..])
    {
      ghost var elems0, ds0, now0 := queue.elems, Deltas(queue.elems), now;
      ghost var j := WakeExpired(scheduler);
      now := now + 1;
      AfterTick(elems0, ds0, now0, j, queue.elems, Deltas(queue.elems));
    }

    /** Count the head down and wake everyone with no ticks left. */
    method WakeExpired(scheduler: Scheduler) returns (ghost j: nat)
      requires Valid() && scheduler.queue.Valid() && Apart(scheduler)
      modifies queue, queue.elems`next, queue.elems`prev
      modifies queue.elems`sleepFor, queue.elems`status, queue.elems`place
      modifies scheduler.queue, scheduler.queue.elems`next
      ensures queue.Valid() && scheduler.queue.Valid()
      ensures j <= |old(queue.elems)| && Expired(CountedDown(old(Deltas(queue.elems))), j)
      ensures queue.elems == old(queue.elems)[j..]
      ensures Deltas(queue.elems) == CountedDown(old(Deltas(queue.elems)))[j..]
      ensures scheduler.queue.elems == old(scheduler.queue.elems) + old(queue.elems)[..j]
      ensures AllReady(old(queue.elems)[..j]) && SameMarks(old(queue.elems)[j..])
    {
      j := 0;
      if !queue.IsEmpty() {
        j := CountAndWake(scheduler);
      }
    }

    method CountAndWake(scheduler: Scheduler) returns (ghost j: nat)
      requires Valid() && scheduler.queue.Valid() && Apart(scheduler) && queue.elems != []
      modifies queue, queue.elems`next, queue.elems`prev
      modifies queue.elems`sleepFor, queue.elems`status, queue.elems`place
      modifies scheduler.queue, scheduler.queue.elems`next
      ensures queue.Valid() && scheduler.queue.Valid()
      ensures j <= |old(queue.elems)| && Expired(CountedDown(old(Deltas(queue.elems))), j)
      ensures queue.elems == old(queue.elems)[j..]
      ensures Deltas(queue.elems) == CountedDown(old(Deltas(queue.elems)))[j..]
      ensures scheduler.queue.elems == old(scheduler.queue.elems) + old(queue.elems)[..j]
      ensures AllReady(old(queue.elems)[..j]) && SameMarks(old(queue.elems)[j..])
    {
      ghost var elems0, ds := queue.elems, CountedDown(Deltas(queue.elems));
      queue.head.sleepFor := queue.head.sleepFor - 1;
      j := WakeDue(scheduler, ds);
      DeltasAfter(elems0, ds, j);
    }

    method WakeDue(scheduler: Scheduler, ghost ds: seq<nat>) returns (ghost j: nat)
      requires queue.Valid() && scheduler.queue.Valid() && Apart(scheduler)
      requires |ds| == |queue.elems| && forall i :: 0 <= i < |ds| ==> ds[i] == queue.elems[i].sleepFor
      modifies queue, queue.elems`next, queue.elems`prev, queue.elems`status, queue.elems`place
      modifies scheduler.queue, scheduler.queue.elems`next
      ensures queue.Valid() && scheduler.queue.Valid()
      ensures Expired(ds, j)
      ensures queue.elems == old(queue.elems)[j..]
      ensures scheduler.queue.elems == old(scheduler.queue.elems) + old(queue.elems)[..j]
      ensures AllReady(old(queue.elems)[..j]) && SameMarks(old(queue.elems)[j..])
    {
      ghost var ready0, elems0 := scheduler.queue.elems, queue.elems;
      j := 0;
      while !queue.IsEmpty() && queue.head.sleepFor <= 0
        invariant j <= |ds| == |elems0| && queue.elems == elems0[j..] && Distinct(elems0)
        invariant queue.Valid() && scheduler.queue.Valid() && Apart(scheduler)
        invariant forall i :: 0 <= i < j ==> ds[i] == 0
        invariant scheduler.queue.elems == ready0 + elems0[..j]
        invariant AllReady(elems0[..j]) && SameMarks(elems0[j..])
        decreases |queue.elems|
      {
        j := WakeNext(scheduler, elems0, j);
      }
    }

    method WakeNext(scheduler: Scheduler, ghost all: seq<TCB>, ghost j: nat) returns (ghost j': nat)
      requires queue.Valid() && queue.elems != [] && scheduler.queue.Valid() && Apart(scheduler)
      requires j <= |all| && queue.elems == all[j..] && AllReady(all[..j]) && Distinct(all)
      modifies queue, queue.elems`next, queue.elems`prev, queue.elems`status, queue.elems`place
      modifies scheduler.queue, scheduler.queue.elems`next
      ensures queue.Valid() && scheduler.queue.Valid() && Apart(scheduler)
      ensures j' == j + 1 <= |all| && queue.elems == all[j'..] && AllReady(all[..j']) && SameMarks(all[j'..])
      ensures scheduler.queue.elems == old(scheduler.queue.elems) + [all[j]]
    {
      SliceStep(all, j);
      WakeFirst(scheduler, all[j]);
      ReadyGrows(all, j);
      j' := j + 1;
    }

    /** The two queues have no thread in common. */
    ghost predicate Apart(scheduler: Scheduler)
      reads queue, scheduler.queue
    {
      scheduler.queue != queue && forall t :: t in queue.elems ==> t !in scheduler.queue.elems
    }

    method WakeFirst(scheduler: Scheduler, ghost first: TCB)
      requires queue.Valid() && queue.elems != [] && first == queue.elems[0]
      requires scheduler.queue.Valid() && Apart(scheduler)
      modifies queue, queue.elems`next, queue.elems`prev
      modifies first`status, first`place
      modifies scheduler.queue, scheduler.queue.elems`next
      ensures queue.Valid() && scheduler.queue.Valid()
      ensures queue.elems == old(queue.elems)[1..] && Apart(scheduler)
      ensures scheduler.queue.elems == old(scheduler.queue.elems) + [first]
      ensures first.status == READY && first.place == InReady && first !in queue.elems
    {
      assert queue.elems[0] in queue.elems;
      var t := queue.TakeFirst();
      scheduler.queue.Undisturbed();
      label taken:
      scheduler.PutTcb(t);
      queue.Undisturbed@taken();
    }
  }
}
