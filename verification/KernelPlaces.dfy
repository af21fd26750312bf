/** Every thread is in exactly one place: the invariant every step of the kernel keeps. */
module KernelPlaces {
  import opened Threads
  import opened SleepSpec
  import opened SemSpec
  import opened KernelSpec
  import opened Utils

  type ThreadMap = map<TCB, Thread>

  function StatusOf(p: Place): TCBStatus {
    match p
    case Current => RUNNING
    case InReady => READY
    case _ => SUSPENDED
  }

  function Names(sleepers: seq<Sleeper<TCB>>): seq<TCB> {
    seq(|sleepers|, i requires 0 <= i < |sleepers| => sleepers[i].thread)
  }

  /** `q` lists, once each, the threads whose place is `p`. */
  ghost predicate Listed(threads: ThreadMap, q: seq<TCB>, p: Place) {
    && Distinct(q)
    && (forall t :: t in q ==> t in threads && threads[t].place == p)
    && (forall t :: t in threads && threads[t].place == p ==> t in q)
  }

  /** `c` is the thread on the processor, or null between saving one thread and restoring
      the next. */
  ghost predicate Placed(k: KState, c: TCB?) {
    && Listed(k.threads, if c == null then [] else [c], Current)
    && Listed(k.threads, k.ready, InReady)
    && Listed(k.threads, Names(k.sleepers), Asleep)
    && (forall s :: s in k.sems ==> Listed(k.threads, k.sems[s].waiters, WaitingOn(s)))
    && (forall t :: t in k.threads ==>
          && k.threads[t].status == StatusOf(k.threads[t].place)
          && (k.threads[t].place.WaitingOn? ==> k.threads[t].place.sem in k.sems))
  }

  /** Why a suspended thread is suspended decides where its saved context returns to. */
  predicate ContFits(putcSem: Sem, getcSem: Sem, userSems: set<Sem>, th: Thread) {
    match th.place
    case WaitingOn(s) =>
      if s == putcSem then th.cont.ThenPutc?
      else if s == getcSem then th.cont.ThenGetc?
      else if s in userSems then th.cont.AfterSemWait?
      else th.cont.AfterJoin?
    case Asleep => th.cont.AfterDispatch?
    case _ => true
  }

  ghost predicate ContsFit(k: KState) {
    forall t :: t in k.threads ==> ContFits(k.putcSem, k.getcSem, k.userSems, k.threads[t])
  }

  predicate IsInternal(k: KState, s: Sem) {
    s in k.sems && s !in k.userSems && s != k.putcSem && s != k.getcSem
  }

  ghost predicate Roles(k: KState) {
    && k.mainTcb in k.threads && k.flushTcb in k.threads && k.mainTcb != k.flushTcb
    && k.putcSem in k.sems && k.getcSem in k.sems && k.putcSem != k.getcSem
    && k.putcSem !in k.userSems && k.getcSem !in k.userSems && k.userSems <= k.sems.Keys
    && k.threads[k.mainTcb].joinSem == null
    && (forall t :: t in k.threads && t != k.mainTcb ==>
          k.threads[t].joinSem != null && IsInternal(k, k.threads[t].joinSem))
    && (forall t, u :: t in k.threads && u in k.threads && t != u && k.threads[t].joinSem != null ==>
          k.threads[t].joinSem != k.threads[u].joinSem)
  }

  /** The flush thread is running or ready, and when it is ready it has nothing left to do in
      the kernel. */
  ghost predicate FlushRuns(k: KState) {
    k.flushTcb in k.threads &&
    var th := k.threads[k.flushTcb];
    th.place == Current || (th.place == InReady && (th.cont.Fresh? || th.cont.AfterDispatch?))
  }

  ghost predicate SemsOk(k: KState) {
    forall s :: s in k.sems ==> Consistent(k.sems[s])
  }

  ghost predicate SleepOk(k: KState) {
    Sorted(k.sleepers) && AllAfter(k.sleepers, k.now)
  }

  ghost predicate Core(k: KState, c: TCB?) {
    Placed(k, c) && Roles(k) && FlushRuns(k) && ContsFit(k) && SemsOk(k) && SleepOk(k)
  }

  // ---------- moving threads between places ----------

  /** Only the threads in `ts` changed place, all to `p`. */
  ghost predicate Moved(before: ThreadMap, after: ThreadMap, ts: seq<TCB>, p: Place) {
    && before.Keys == after.Keys
    && forall t :: t in before ==> after[t].place == if t in ts then p else before[t].place
  }

  lemma ListedKept(before: ThreadMap, after: ThreadMap, ts: seq<TCB>, to: Place, q: seq<TCB>, p: Place)
    requires Listed(before, q, p) && Moved(before, after, ts, to) && p != to
    requires forall t :: t in ts && t in before ==> before[t].place != p
    ensures Listed(after, q, p)
  {
  }

  lemma DistinctConcat<T>(a: seq<T>, b: seq<T>)
    ensures Distinct(a + b) <==> Distinct(a) && Distinct(b) && forall x :: x in a ==> x !in b
  {
    var ab := a + b;
    if Distinct(ab) {
      forall i, j | 0 <= i < |a| && 0 <= j < |b|
        ensures a[i] != b[j]
      {
        assert ab[i] != ab[|a| + j];
      }
      forall i, j | 0 <= i < j < |b|
        ensures b[i] != b[j]
      {
        assert ab[|a| + i] != ab[|a| + j];
      }
      forall i, j | 0 <= i < j < |a|
        ensures a[i] != a[j]
      {
        assert ab[i] != ab[j];
      }
    }
    if Distinct(a) && Distinct(b) && forall x :: x in a ==> x !in b {
      forall i, j | 0 <= i < j < |ab|
        ensures ab[i] != ab[j]
      {
        if i < |a| <= j { assert a[i] in a && b[j - |a|] in b; }
      }
    }
  }

  lemma ListedGained(before: ThreadMap, after: ThreadMap, ts: seq<TCB>, to: Place, q: seq<TCB>)
    requires Listed(before, q, to) && Moved(before, after, ts, to) && Distinct(ts)
    requires forall t :: t in ts ==> t in before && before[t].place != to
    ensures Listed(after, q + ts, to)
  {
    DistinctConcat(q, ts);
  }

  lemma ListedLost(before: ThreadMap, after: ThreadMap, ts: seq<TCB>, to: Place, q: seq<TCB>, rest: seq<TCB>, p: Place)
    requires Listed(before, q, p) && Moved(before, after, ts, to) && p != to && q == ts + rest
    ensures Listed(after, rest, p)
  {
    DistinctConcat(ts, rest);
  }

  lemma ListedInserted(before: ThreadMap, after: ThreadMap, t: TCB, to: Place, q1: seq<TCB>, q2: seq<TCB>)
    requires Listed(before, q1 + q2, to) && Moved(before, after, [t], to)
    requires t in before && before[t].place != to
    ensures Listed(after, q1 + [t] + q2, to)
  {
    DistinctConcat(q1, q2);
    DistinctConcat(q1, [t]);
    DistinctConcat(q1 + [t], q2);
    assert forall x :: x in q1 + q2 <==> x in q1 || x in q2;
    assert forall x :: x in q1 + [t] + q2 <==> x in q1 || x == t || x in q2;
  }

  /** Statuses follow places. */
  ghost predicate StatusesFit(threads: ThreadMap, sems: set<Sem>) {
    forall t :: t in threads ==>
      && threads[t].status == StatusOf(threads[t].place)
      && (threads[t].place.WaitingOn? ==> threads[t].place.sem in sems)
  }

  // ---------- waking ----------

  /** `ts` leave the front of the queue they are in, if it is the one of place `p`. */
  ghost predicate TakenFrom(k: KState, k': KState, ts: seq<TCB>, p: Place) {
    && Names(k.sleepers) == (if p == Asleep then ts else []) + Names(k'.sleepers)
    && k'.sems.Keys == k.sems.Keys
    && forall s :: s in k.sems ==>
         k.sems[s].waiters == (if p == WaitingOn(s) then ts else []) + k'.sems[s].waiters
  }

  lemma AwakenPlaced(k: KState, k': KState, c: TCB?, ts: seq<TCB>, p: Place, mark: bool, interrupted: bool)
    requires Placed(k, c) && (p == Asleep || p.WaitingOn?)
    requires forall t :: t in ts ==> t in k.threads && k.threads[t].place == p
    requires Distinct(ts) && TakenFrom(k, k', ts, p)
    requires k'.threads == MakeReady(k, ts, mark, interrupted).threads && k'.ready == k.ready + ts
    ensures Placed(k', c)
  {
    var before, after := k.threads, k'.threads;
    assert Moved(before, after, ts, InReady);
    ListedKept(before, after, ts, InReady, if c == null then [] else [c], Current);
    ListedGained(before, after, ts, InReady, k.ready);
    AwakenQueue(before, after, ts, p, Names(k.sleepers), Names(k'.sleepers), Asleep);
    forall s | s in k'.sems
      ensures Listed(after, k'.sems[s].waiters, WaitingOn(s))
    {
      AwakenQueue(before, after, ts, p, k.sems[s].waiters, k'.sems[s].waiters, WaitingOn(s));
    }
  }

  lemma AwakenQueue(before: ThreadMap, after: ThreadMap, ts: seq<TCB>, p: Place,
                    q: seq<TCB>, rest: seq<TCB>, at: Place)
    requires Listed(before, q, at) && Moved(before, after, ts, InReady) && at != InReady
    requires forall t :: t in ts ==> t in before && before[t].place == p
    requires q == (if p == at then ts else []) + rest
    ensures Listed(after, rest, at)
  {
    if p == at {
      ListedLost(before, after, ts, InReady, q, rest, at);
    } else {
      assert q == rest;
      ListedKept(before, after, ts, InReady, q, at);
    }
  }

  // ---------- the current thread leaves the processor ----------

  /** The current thread joined the queue of place `p`, anywhere in it. */
  ghost predicate Joined(k: KState, k': KState, p: Place, q1: seq<TCB>, q2: seq<TCB>) {
    && (if p == InReady then k.ready == q1 + q2 && k'.ready == q1 + [k.current] + q2 else k'.ready == k.ready)
    && (if p == Asleep then Names(k.sleepers) == q1 + q2 && Names(k'.sleepers) == q1 + [k.current] + q2
        else Names(k'.sleepers) == Names(k.sleepers))
    && k'.sems.Keys == k.sems.Keys
    && (forall s :: s in k.sems ==>
          if p == WaitingOn(s) then k.sems[s].waiters == q1 + q2 && k'.sems[s].waiters == q1 + [k.current] + q2
          else k'.sems[s].waiters == k.sems[s].waiters)
  }

  lemma LeavePlaced(k: KState, k': KState, p: Place, q1: seq<TCB>, q2: seq<TCB>)
    requires Placed(k, k.current) && p != Current && (p.WaitingOn? ==> p.sem in k.sems)
    requires Joined(k, k', p, q1, q2)
    requires Moved(k.threads, k'.threads, [k.current], p) && StatusesFit(k'.threads, k'.sems.Keys)
    ensures Placed(k', null)
  {
    var before, after, t := k.threads, k'.threads, k.current;
    assert t in [t];
    ListedLost(before, after, [t], p, [t], [], Current);
    LeaveQueue(before, after, t, p, k.ready, k'.ready, InReady, q1, q2);
    LeaveQueue(before, after, t, p, Names(k.sleepers), Names(k'.sleepers), Asleep, q1, q2);
    forall s | s in k'.sems
      ensures Listed(after, k'.sems[s].waiters, WaitingOn(s))
    {
      LeaveQueue(before, after, t, p, k.sems[s].waiters, k'.sems[s].waiters, WaitingOn(s), q1, q2);
    }
  }

  lemma LeaveQueue(before: ThreadMap, after: ThreadMap, t: TCB, p: Place, q: seq<TCB>, q': seq<TCB>, at: Place,
                   q1: seq<TCB>, q2: seq<TCB>)
    requires Listed(before, q, at) && Moved(before, after, [t], p) && at != Current
    requires t in before && before[t].place == Current
    requires if p == at then q == q1 + q2 && q' == q1 + [t] + q2 else q' == q
    ensures Listed(after, q', at)
  {
    if p == at {
      ListedInserted(before, after, t, p, q1, q2);
    } else {
      ListedKept(before, after, [t], p, q, at);
    }
  }

  // ---------- the next thread is taken ----------

  lemma TakePlaced(k: KState)
    requires Placed(k, null) && k.ready != []
    ensures k.ready[0] in k.threads && Placed(Take(k), Take(k).current)
  {
    var t, k' := k.ready[0], Take(k);
    assert t in k.ready;
    var before, after := k.threads, k'.threads;
    assert Moved(before, after, [t], Current);
    assert k.ready == [t] + k'.ready;
    ListedLost(before, after, [t], Current, k.ready, k'.ready, InReady);
    ListedGained(before, after, [t], Current, []);
    assert [] + [t] == [t];
    ListedKept(before, after, [t], Current, Names(k.sleepers), Asleep);
    forall s | s in k'.sems
      ensures Listed(after, k'.sems[s].waiters, WaitingOn(s))
    {
      ListedKept(before, after, [t], Current, k.sems[s].waiters, WaitingOn(s));
    }
  }

  // ---------- threads appear and disappear ----------

  lemma BirthPlaced(k: KState, k': KState, c: TCB?, t: TCB, th: Thread)
    requires Placed(k, c) && t !in k.threads && th.place == InReady && th.status == READY
    requires k'.threads == k.threads[t := th] && k'.ready == k.ready + [t] && k'.sleepers == k.sleepers
    requires k.sems.Keys <= k'.sems.Keys
    requires forall s :: s in k'.sems ==> k'.sems[s].waiters == if s in k.sems then k.sems[s].waiters else []
    ensures Placed(k', c)
  {
    assert forall x :: x in k.ready ==> x in k.threads;
    DistinctConcat(k.ready, [t]);
    forall s | s in k'.sems
      ensures Listed(k'.threads, k'.sems[s].waiters, WaitingOn(s))
    {
      if s !in k.sems {
        assert forall x :: x in k.threads && k.threads[x].place.WaitingOn? ==> k.threads[x].place.sem in k.sems;
      }
    }
  }

  lemma DeathPlaced(k: KState, k': KState)
    requires Placed(k, k.current)
    requires k'.threads == k.threads - {k.current} && k'.ready == k.ready && k'.sleepers == k.sleepers
    requires k'.sems == k.sems
    ensures Placed(k', null)
  {
    assert k.current in [k.current];
    ListedWithout(k.threads, k.current, k.ready, InReady);
    ListedWithout(k.threads, k.current, Names(k.sleepers), Asleep);
    forall s | s in k.sems
      ensures Listed(k'.threads, k'.sems[s].waiters, WaitingOn(s))
    {
      ListedWithout(k.threads, k.current, k.sems[s].waiters, WaitingOn(s));
    }
    NoneCurrent(k.threads, k.current);
  }

  lemma ListedWithout(threads: ThreadMap, t: TCB, q: seq<TCB>, p: Place)
    requires Listed(threads, q, p) && t in threads && threads[t].place != p
    ensures Listed(threads - {t}, q, p)
  {
  }

  lemma NoneCurrent(threads: ThreadMap, t: TCB)
    requires Listed(threads, [t], Current)
    ensures Listed(threads - {t}, [], Current)
  {
    forall u | u in threads && u != t
      ensures threads[u].place != Current
    {
      assert u in [t] <==> u == t;
    }
  }

  /** A semaphore nobody waits on can be dropped. */
  lemma DropPlaced(k: KState, k': KState, c: TCB?, s: Sem)
    requires Placed(k, c) && s in k.sems && k.sems[s].waiters == []
    requires k'.threads == k.threads && k'.ready == k.ready && k'.sleepers == k.sleepers
    requires k'.sems == k.sems - {s}
    ensures Placed(k', c)
  {
    forall t | t in k.threads && k.threads[t].place.WaitingOn?
      ensures k.threads[t].place.sem in k'.sems
    {
      var waiters := k.sems[s].waiters;
      assert k.threads[t].place == WaitingOn(s) ==> t in waiters;
    }
  }

  /** What does not touch places or queues keeps everyone where they are. */
  lemma SamePlaced(k: KState, k': KState, c: TCB?)
    requires Placed(k, c)
    requires Moved(k.threads, k'.threads, [], Current)
    requires forall t :: t in k.threads ==> k'.threads[t].status == k.threads[t].status
    requires k'.ready == k.ready && k'.sleepers == k.sleepers && k'.sems.Keys == k.sems.Keys
    requires forall s :: s in k.sems ==> k'.sems[s].waiters == k.sems[s].waiters
    ensures Placed(k', c)
  {
    forall s | s in k'.sems
      ensures Listed(k'.threads, k'.sems[s].waiters, WaitingOn(s))
    {
      assert Listed(k.threads, k.sems[s].waiters, WaitingOn(s));
    }
  }
}
