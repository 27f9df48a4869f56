/** The fixed-size ring behind the submission queue. */
module Rings {

  datatype Status = Ok | NoEntry | NoBuffers

  lemma WrapByOne(x: nat, size: nat)
    requires x < size
    ensures (x + 1) % size == if x + 1 == size then 0 else x + 1
  {
  }

  class Ring<T(0)> {
    const slots: array<T>
    var len: nat
    var head: nat
    var tail: nat

    ghost predicate Valid()
      reads this
    {
      && 0 < slots.Length && len <= slots.Length
      && head < slots.Length
      && tail == Wrap(head + len)
    }

    ghost function Wrap(x: nat): nat
    {
      if x < slots.Length then x else x - slots.Length
    }

    /** The queued values, oldest first. */
    ghost function Contents(): (s: seq<T>)
      reads this, slots
      requires Valid()
      ensures |s| == len
    {
      if head + len <= slots.Length then slots[head..head + len]
      else slots[head..] + slots[..head + len - slots.Length]
    }

    constructor (size: nat)
      requires size > 0
      ensures Valid() && fresh(slots) && slots.Length == size && Contents() == []
    {
      slots := new T[size];
      len, head, tail := 0, 0, 0;
    }

    predicate Full()
      reads this
    {
      len == slots.Length
    }

    method First() returns (x: T)
      requires Valid() && len > 0
      ensures x == Contents()[0]
    {
      x := slots[head];
    }

    /** Fails without a change when the ring is full, and otherwise appends. */
    method Push(x: T) returns (status: Status)
      requires Valid()
      modifies this, slots
      ensures Valid()
      ensures status == if old(Full()) then NoBuffers else Ok
      ensures Contents() == if old(Full()) then old(Contents()) else old(Contents()) + [x]
    {
      if len == slots.Length {
        return NoBuffers;
      }
      ghost var before := Contents();
      slots[tail] := x;
      WrapByOne(tail, slots.Length);
      tail := (tail + 1) % slots.Length;
      len := len + 1;
      status := Ok;
      assert Contents()[..len - 1] == before;
      assert Contents() == Contents()[..len - 1] + [x];
    }

    /** Fails without a change when the ring is empty, and otherwise removes the oldest value. */
    method Pop() returns (status: Status, x: T)
      requires Valid()
      modifies this
      ensures Valid()
      ensures status == if old(len) == 0 then NoEntry else Ok
      ensures status.NoEntry? ==> Contents() == []
      ensures status.Ok? ==> old(Contents()) == [x] + Contents()
    {
      if len == 0 {
        x := *;
        return NoEntry, x;
      }
      ghost var before := Contents();
      x := slots[head];
      WrapByOne(head, slots.Length);
      head := (head + 1) % slots.Length;
      len := len - 1;
      status := Ok;
      assert before[1..] == Contents();
    }
  }
}
