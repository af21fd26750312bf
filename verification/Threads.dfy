/** Control blocks and the intrusive list they are chained in.

    A control block has one pair of `next`/`prev` links, shared by the ready queue, every
    semaphore's queue and the sleep queue: it can be in one list at a time. */
module Threads {
  import opened Utils

  datatype TCBStatus = INITIALIZING | SUSPENDED | TERMINATING | READY | RUNNING

  /** Where the saved kernel context returns to when the thread is next restored. */
  datatype Continuation =
    | Fresh              // `k_tcb_start`: the thread has never run
    | AfterDispatch      // from `yield` in `dispatch`, then out of the trap
    | AfterSemWait       // from `yield` in `block`, then the result of `wait` goes to a0
    | AfterJoin          // the same, with the result of `wait` dropped
    | ThenPutc(c: char)  // then `putc_buffer.put(c)`
    | ThenGetc           // then a0 gets `getc_buffer.get()`

  const DEFAULT_TIME_SLICE := 2

  class TCB {
    var next: TCB?
    var prev: TCB?
    var status: TCBStatus
    var interrupted: bool
    var sleepFor: nat
    /** Every thread's, from its creation on. */
    const timeSlice: nat := DEFAULT_TIME_SLICE
    var joinSem: Sem?
    var a0: int
    var cont: Continuation
    /** Which list the thread is in: the map the lists must agree with. */
    ghost var place: Place

    /** The fields that `create_tcb` sets, in whatever memory the control block was given. */
    method Initialize(joinSem: Sem?)
      modifies this
      ensures this.joinSem == joinSem && status == INITIALIZING && !interrupted
      ensures cont == Fresh && a0 == 0 && sleepFor == 0 && next == null && prev == null
    {
      sleepFor := 0;
      status := INITIALIZING;
      interrupted := false;
      next, prev := null, null;
      a0 := 0;
      cont := Fresh;
      this.joinSem := joinSem;
    }
  }

  datatype Place = Current | InReady | WaitingOn(sem: Sem) | Asleep

  /** A semaphore's fields. */
  class Sem {
    var value: int
    const suspended: TCBList

    constructor (value: int)
      ensures this.value == value && fresh(suspended)
      ensures suspended.Valid() && suspended.elems == []
    {
      this.value := value;
      suspended := new TCBList();
    }

    method Initialize(value: int)
      modifies this, suspended
      ensures this.value == value && suspended.Valid() && suspended.elems == []
    {
      this.value := value;
      suspended.Initialize();
    }
  }

  class TCBList {
    var head: TCB?
    var tail: TCB?
    ghost var elems: seq<TCB>

    ghost function At(i: int): TCB?
      reads this
    {
      if 0 <= i < |elems| then elems[i] else null
    }

    ghost predicate NodeAt(i: nat)
      requires i < |elems|
      reads this, elems`next, elems`prev
    {
      elems[i].next == At(i + 1) && elems[i].prev == At(i - 1)
    }

    ghost predicate Valid()
      reads this, elems`next, elems`prev
    {
      && head == At(0) && tail == At(|elems| - 1)
      && Distinct(elems)
      && forall i :: 0 <= i < |elems| ==> NodeAt(i)
    }

    /** A list is not disturbed by changes to blocks that are not in it. */
    twostate lemma Undisturbed()
      requires old(Valid()) && unchanged(this)
      requires forall t :: t in old(elems) ==> t.next == old(t.next) && t.prev == old(t.prev)
      ensures Valid()
    {
      forall i | 0 <= i < |elems|
        ensures NodeAt(i)
      {
        assert old(NodeAt(i));
      }
    }

    constructor ()
      ensures Valid() && elems == []
    {
      head, tail := null, null;
      elems := [];
    }

    method Initialize()
      modifies this
      ensures Valid() && elems == []
    {
      head, tail := null, null;
      elems := [];
    }

    predicate IsEmpty()
      reads this
    {
      head == null
    }

    static method Unlink(t: TCB?)
      modifies (if t == null then {} else {t})`next, (if t == null then {} else {t})`prev
      ensures t != null ==> t.next == null && t.prev == null
    {
      if t != null {
        t.next := null;
        t.prev := null;
      }
    }

    method SetFirst(t: TCB?)
      requires Valid()
      modifies this, (if t == null then {} else {t})`next, (if t == null then {} else {t})`prev
      ensures Valid()
      ensures elems == if t != null && old(elems) == [] then [t] else old(elems)
    {
      if t != null && IsEmpty() {
        Unlink(t);
        head := t;
        tail := t;
        elems := [t];
      }
    }

    method AddFirst(t: TCB?)
      requires Valid() && t !in elems
      modifies this, (if t == null then {} else {t})`next, (if t == null then {} else {t})`prev, elems`prev
      ensures Valid()
      ensures elems == (if t == null then [] else [t]) + old(elems)
    {
      if IsEmpty() {
        SetFirst(t);
        return;
      }
      if t != null {
        t.prev := null;
        t.next := head;
        head.prev := t;
        head := t;
        elems := [t] + elems;
        forall i | 0 <= i < |elems|
          ensures NodeAt(i)
        {
          if i > 0 { assert old(NodeAt(i - 1)); }
        }
      }
    }

    method AddLast(t: TCB?)
      requires Valid() && t !in elems
      modifies this, (if t == null then {} else {t})`next, (if t == null then {} else {t})`prev, elems`next
      ensures Valid()
      ensures elems == old(elems) + if t == null then [] else [t]
    {
      if IsEmpty() {
        SetFirst(t);
        return;
      }
      if t != null {
        t.next := null;
        t.prev := tail;
        tail.next := t;
        tail := t;
        elems := elems + [t];
        forall i | 0 <= i < |elems|
          ensures NodeAt(i)
        {
          if i < |elems| - 1 { assert old(NodeAt(i)); }
        }
      }
    }

    method TakeFirst() returns (t: TCB?)
      requires Valid()
      modifies this, elems`next, elems`prev
      ensures Valid()
      ensures t == old(At(0)) && (t != null ==> t.next == null && t.prev == null)
      ensures elems == if old(elems) == [] then [] else old(elems)[1..]
    {
      t := head;
      if !IsEmpty() {
        assert NodeAt(0);
        head := head.next;
        if head == null {
          tail := null;
        } else {
          head.prev := null;
        }
        elems := elems[1..];
      }
      Unlink(t);
      forall i | 0 <= i < |elems|
        ensures NodeAt(i)
      {
        assert old(NodeAt(i + 1));
      }
    }

    method TakeLast() returns (t: TCB?)
      requires Valid()
      modifies this, elems`next, elems`prev
      ensures Valid()
      ensures t == old(At(|elems| - 1)) && (t != null ==> t.next == null && t.prev == null)
      ensures elems == if old(elems) == [] then [] else old(elems)[..|old(elems)| - 1]
    {
      t := tail;
      if !IsEmpty() {
        assert NodeAt(|elems| - 1);
        tail := tail.prev;
        if tail == null {
          head := null;
        } else {
          tail.next := null;
        }
        elems := elems[..|elems| - 1];
      }
      Unlink(t);
      forall i | 0 <= i < |elems|
        ensures NodeAt(i)
      {
        assert old(NodeAt(i));
      }
    }
  }
}
