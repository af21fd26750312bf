/** The circular buffer behind `getc` and `putc`. */
module RingQueue {
  import Utils

  /** Slot `i` places after `head` in a buffer of `n`, wrapping at its end. */
  function Slot(head: nat, i: nat, n: nat): (slot: nat)
    requires head < n && i <= n
    ensures slot < n
  {
    if head + i < n then head + i else head + i - n
  }

  /** The remainder the code computes is that slot. */
  lemma SlotIsRemainder(head: nat, i: nat, n: nat)
    requires head < n && i <= n
    ensures (head + i) % n == Slot(head, i, n)
  {
    if head + i >= n { Wraps(head + i - n, n); }
  }

  lemma Wraps(rest: nat, n: nat)
    requires rest < n
    ensures (n + rest) % n == rest
  {
    Utils.QuotientIs(n + rest, n, 1, rest);
    Utils.Quotient(n + rest, n);
  }

  /** The `count` values from `head` on. */
  function Wrapped<T>(buffer: seq<T>, head: nat, count: nat): seq<T>
    requires head < |buffer| && count <= |buffer|
  {
    seq(count, i requires 0 <= i < count => buffer[Slot(head, i, |buffer|)])
  }

  lemma DropFirst<T>(buffer: seq<T>, head: nat, count: nat)
    requires head < |buffer| && 0 < count <= |buffer|
    ensures Wrapped(buffer, head, count)[0] == buffer[head]
    ensures var next := Slot(head, 1, |buffer|);
      && Wrapped(buffer, next, count - 1) == Wrapped(buffer, head, count)[1..]
      && Slot(next, count - 1, |buffer|) == Slot(head, count, |buffer|)
  {
    assert forall i :: 0 <= i < count ==> Slot(Slot(head, 1, |buffer|), i, |buffer|) == Slot(head, i + 1, |buffer|);
  }

  lemma AppendLast<T>(buffer: seq<T>, head: nat, count: nat, t: T)
    requires head < |buffer| && count < |buffer|
    ensures var tail := Slot(head, count, |buffer|);
      && Wrapped(buffer[tail := t], head, count + 1) == Wrapped(buffer, head, count) + [t]
      && Slot(tail, 1, |buffer|) == Slot(head, count + 1, |buffer|)
  {
    assert forall i :: 0 <= i < count ==> Slot(head, i, |buffer|) != Slot(head, count, |buffer|);
  }

  class RingQueue<T(0)> {
    var head: nat
    var tail: nat
    var count: nat
    const buffer: array<T>
    const default: T

    constructor (size: nat, default: T)
      requires size > 0
      ensures Valid() && fresh(buffer) && Contents() == [] && buffer.Length == size && this.default == default
    {
      head, tail, count := 0, 0, 0;
      buffer := new T[size];
      this.default := default;
    }

    ghost predicate Valid()
      reads this, buffer
    {
      && buffer.Length > 0
      && head < buffer.Length && count <= buffer.Length
      && tail == Slot(head, count, buffer.Length)
    }

    ghost function Contents(): seq<T>
      requires Valid()
      reads this, buffer
    {
      Wrapped(buffer[..], head, count)
    }

    function GetLength(): (n: nat)
      requires Valid()
      reads this, buffer
      ensures n == |Contents()|
    {
      count
    }

    function GetCapacity(): nat {
      buffer.Length
    }

    method Get() returns (t: T)
      requires Valid()
      modifies this`head, this`count
      ensures Valid()
      ensures t == if old(Contents()) != [] then old(Contents())[0] else default
      ensures Contents() == if old(Contents()) != [] then old(Contents())[1..] else []
    {
      if count > 0 {
        DropFirst(buffer[..], head, count);
        SlotIsRemainder(head, 1, buffer.Length);
        t := buffer[head];
        head := (head + 1) % buffer.Length;
        count := count - 1;
      } else {
        t := default;
      }
    }

    method Put(t: T)
      requires Valid()
      modifies this`tail, this`count, buffer
      ensures Valid()
      ensures Contents() == if |old(Contents())| < buffer.Length then old(Contents()) + [t] else old(Contents())
    {
      if count < buffer.Length {
        AppendLast(buffer[..], head, count, t);
        SlotIsRemainder(tail, 1, buffer.Length);
        ghost var after := buffer[..][tail := t];
        buffer[tail] := t;
        assert buffer[..] == after;
        tail := (tail + 1) % buffer.Length;
        count := count + 1;
      }
    }

    method Clear()
      requires Valid()
      modifies this`head, this`tail, this`count
      ensures Valid() && Contents() == []
    {
      head, tail, count := 0, 0, 0;
    }
  }
}
