/** What the operations of the bounded buffer give their callers, over whole runs of all threads. */
module BufferResults {
  import opened SemSpec
  import opened BoundedBuffer

  // ---------- what a step of thread `t` does ----------

  /** What it takes out, and what it puts in. */
  ghost function Taken(s: State, e: Event, t: nat): seq<int>
    requires Wellformed(s) && Enabled(s, e)
  {
    var s' := Step(s, e);
    if e == Run(t) && |s.delivered| <= |s'.delivered| then s'.delivered[|s.delivered|..] else []
  }

  ghost function PutIn(s: State, e: Event, t: nat): seq<int>
    requires Wellformed(s) && Enabled(s, e)
  {
    var s' := Step(s, e);
    if e == Run(t) && |s.stored| <= |s'.stored| then s'.stored[|s.stored|..] else []
  }

  /** The number of values inside when it counts them. */
  ghost function Counted(s: State, e: Event, t: nat): seq<int>
    requires Wellformed(s) && Enabled(s, e)
  {
    if e == Run(t) && Next(s.threads[t]) == Subtract then [|Contents(s)|] else []
  }

  /** The argument of a `put` it begins, and the result of an operation it ends. */
  function Asked(e: Event, t: nat): seq<int> {
    if e.Call? && e.t == t && e.op == Put then [e.value] else []
  }

  ghost function Returned(s: State, e: Event, t: nat, op: Operation): seq<int>
    requires Wellformed(s) && Enabled(s, e)
  {
    var s' := Step(s, e);
    if t < |s.threads| && t < |s'.threads| && s.threads[t].Running? && s.threads[t].op == op && s'.threads[t].Idle?
    then [s'.threads[t].returned] else []
  }

  // ---------- what a thread has in hand ----------

  /** A value it was given and has not stored yet. */
  function ToPut(th: Thread): seq<int> {
    if th.Running? && th.op == Put && th.at <= 3 then [th.value] else []
  }

  /** A result that is decided and not returned yet. */
  function ToReturn(th: Thread, op: Operation): seq<int> {
    if th.Running? && th.op == op && th.at >= 4 then [th.value] else []
  }

  /** One step of any thread, seen from thread `t`. */
  ghost predicate Accounted(s: State, e: Event, t: nat)
    requires Wellformed(s) && Enabled(s, e) && t < |s.threads|
  {
    var s' := Step(s, e);
    && |s'.threads| == |s.threads|
    && Returned(s, e, t, Get) + ToReturn(s'.threads[t], Get) == ToReturn(s.threads[t], Get) + Taken(s, e, t)
    && Returned(s, e, t, GetCnt) + ToReturn(s'.threads[t], GetCnt) == ToReturn(s.threads[t], GetCnt) + Counted(s, e, t)
    && PutIn(s, e, t) + ToPut(s'.threads[t]) == ToPut(s.threads[t]) + Asked(e, t)
  }

  lemma StepAccounted(s: State, e: Event, t: nat)
    requires Inv(s) && Enabled(s, e) && t < |s.threads|
    ensures Accounted(s, e, t)
  {
    match e
    case Call(u, op, value) =>
    case Run(u) =>
      if u == t { OwnAccounted(s, t); } else { OtherAccounted(s, u, t); }
  }

  lemma OwnAccounted(s: State, t: nat)
    requires Inv(s) && Enabled(s, Run(t))
    ensures Accounted(s, Run(t), t)
  {
    assert LocalOk(s, s.threads[t]);
    if Next(s.threads[t]) == Subtract { CountsExactly(s, t); }
    Appended(s.delivered, s.threads[t].value);
    Appended(s.stored, s.threads[t].value);
    if Next(s.threads[t]).SemWait? || Next(s.threads[t]).SemSignal? { SemAccounted(s, t); }
  }

  lemma SemAccounted(s: State, t: nat)
    requires Wellformed(s) && Enabled(s, Run(t)) && s.threads[t].at < 6
    requires Next(s.threads[t]).SemWait? || Next(s.threads[t]).SemSignal?
    requires s.delivered[|s.delivered|..] == [] && s.stored[|s.stored|..] == []
    ensures Accounted(s, Run(t), t)
  {
  }

  lemma Appended(q: seq<int>, v: int)
    ensures (q + [v])[|q|..] == [v] && q[|q|..] == []
  {
  }

  lemma OtherAccounted(s: State, u: nat, t: nat)
    requires Inv(s) && Enabled(s, Run(u)) && t < |s.threads| && t != u
    ensures Accounted(s, Run(u), t)
  {
    assert LocalOk(s, s.threads[u]) && LocalOk(s, s.threads[t]);
    if Next(s.threads[u]).SemSignal? {
      assert QueueOk(s.threads, Next(s.threads[u]).sem, s.sems[Next(s.threads[u]).sem]);
      AtMostOneWakes(s, u, Next(s.threads[u]).sem);
    }
    ThreadAfter(s, u, t);
  }

  // ---------- whole runs ----------

  /** What thread `t` was given to put and what it stored, what it took out and what its `get`s
      returned, what it counted and what its `getCnt`s returned. */
  datatype Account = Account(asked: seq<int>, stored: seq<int>, taken: seq<int>, got: seq<int>,
                             counted: seq<int>, counts: seq<int>)

  function Plus(a: Account, b: Account): Account {
    Account(a.asked + b.asked, a.stored + b.stored, a.taken + b.taken, a.got + b.got,
            a.counted + b.counted, a.counts + b.counts)
  }

  ghost function AccountOf(s: State, e: Event, t: nat): Account
    requires Wellformed(s) && Enabled(s, e)
  {
    Account(Asked(e, t), PutIn(s, e, t), Taken(s, e, t), Returned(s, e, t, Get), Counted(s, e, t),
            Returned(s, e, t, GetCnt))
  }

  ghost function RunAccount(s: State, events: seq<Event>, t: nat): Account
    requires Inv(s) && CanRun(s, events)
    decreases |events|
  {
    if events == [] then Account([], [], [], [], [], [])
    else
      StepInv(s, events[0]);
      Plus(AccountOf(s, events[0], t), RunAccount(Step(s, events[0]), events[1..], t))
  }

  ghost predicate Balanced(a: Account, th: Thread, th': Thread) {
    && a.stored + ToPut(th') == ToPut(th) + a.asked
    && a.got + ToReturn(th', Get) == ToReturn(th, Get) + a.taken
    && a.counts + ToReturn(th', GetCnt) == ToReturn(th, GetCnt) + a.counted
  }

  lemma BalancedOn(a: Account, b: Account, th: Thread, th': Thread, th'': Thread)
    requires Balanced(a, th, th') && Balanced(b, th', th'')
    ensures Balanced(Plus(a, b), th, th'')
  {
    Chain(a.stored, b.stored, ToPut(th), ToPut(th'), ToPut(th''), a.asked, b.asked);
    Chain(a.got, b.got, ToReturn(th, Get), ToReturn(th', Get), ToReturn(th'', Get), a.taken, b.taken);
    Chain(a.counts, b.counts, ToReturn(th, GetCnt), ToReturn(th', GetCnt), ToReturn(th'', GetCnt),
          a.counted, b.counted);
  }

  lemma Chain(out: seq<int>, out': seq<int>, held: seq<int>, held': seq<int>, held'': seq<int>,
              into: seq<int>, into': seq<int>)
    requires out + held' == held + into && out' + held'' == held' + into'
    ensures (out + out') + held'' == held + (into + into')
  {
    assert (out + out') + held'' == out + (out' + held'') == (out + held') + into';
  }

  lemma {:induction false} RunBalanced(s: State, events: seq<Event>, t: nat)
    requires Inv(s) && CanRun(s, events) && t < |s.threads|
    ensures t < |After(s, events).threads|
    ensures Balanced(RunAccount(s, events, t), s.threads[t], After(s, events).threads[t])
    decreases |events|
  {
    if events != [] {
      var e, s1 := events[0], Step(s, events[0]);
      StepInv(s, e);
      StepAccounted(s, e, t);
      RunBalanced(s1, events[1..], t);
      BalancedOn(AccountOf(s, e, t), RunAccount(s1, events[1..], t),
                 s.threads[t], s1.threads[t], After(s, events).threads[t]);
    }
  }

  /** From the opening on, under every interleaving, for every thread: what it put in are the arguments
      of its `put`s, what its `get`s returned is what it took out, and what its `getCnt`s returned are
      the numbers of values inside when it counted, each in order and but for the one in hand. */
  lemma CallersGetTheirs(capacity: nat, n: nat, initial: seq<int>, events: seq<Event>, t: nat)
    requires |initial| == capacity + 1 && t < n && Inv(Opened(capacity, n, initial))
    requires CanRun(Opened(capacity, n, initial), events)
    ensures t < |After(Opened(capacity, n, initial), events).threads|
    ensures var s := Opened(capacity, n, initial);
      var a, th := RunAccount(s, events, t), After(s, events).threads[t];
      && a.stored + ToPut(th) == a.asked && a.got + ToReturn(th, Get) == a.taken
      && a.counts + ToReturn(th, GetCnt) == a.counted
  {
    RunBalanced(Opened(capacity, n, initial), events, t);
  }

  lemma OnlyAppends(s: State, t: nat)
    requires Wellformed(s) && Enabled(s, Run(t))
    ensures Step(s, Run(t)).delivered in {s.delivered, s.delivered + [s.threads[t].value]}
    ensures Step(s, Run(t)).stored in {s.stored, s.stored + [s.threads[t].value]}
  {
  }

  /** And nothing enters or leaves the buffer but that. */
  lemma NothingElse(s: State, e: Event)
    requires Wellformed(s) && Enabled(s, e)
    ensures Step(s, e).delivered == s.delivered + Taken(s, e, e.t)
    ensures Step(s, e).stored == s.stored + PutIn(s, e, e.t)
  {
    if e.Run? {
      OnlyAppends(s, e.t);
      Suffix(s.delivered, Step(s, e).delivered, s.threads[e.t].value);
      Suffix(s.stored, Step(s, e).stored, s.threads[e.t].value);
    }
  }

  lemma Suffix(q: seq<int>, q': seq<int>, v: int)
    requires q' == q || q' == q + [v]
    ensures |q| <= |q'| && q' == q + q'[|q|..]
  {
  }

  // ---------- when an operation has to wait ----------

  /** `put` waits exactly when every place holds a value or is promised to another operation. */
  lemma PutWaitsIff(s: State, t: nat)
    requires Inv(s) && Enabled(s, Run(t)) && Next(s.threads[t]) == SemWait(SpaceAvailable)
    ensures Blocks(s.sems[SpaceAvailable]) <==> |Contents(s)| + HeldByAll(SpaceAvailable, s.threads) >= s.cap - 1
  {
    assert TokenOk(s, SpaceAvailable);
  }

  /** `get` waits exactly when every value inside is promised to another operation. */
  lemma GetWaitsIff(s: State, t: nat)
    requires Inv(s) && Enabled(s, Run(t)) && Next(s.threads[t]) == SemWait(ItemAvailable)
    ensures Blocks(s.sems[ItemAvailable]) <==> |Contents(s)| <= HeldByAll(ItemAvailable, s.threads)
  {
    assert TokenOk(s, ItemAvailable);
  }
}
