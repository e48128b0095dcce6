/** The ring buffer behind every channel (uvco/bounded_queue.h).

    A `std::vector` with reserved capacity first grows by `push_back`, with `head == |buf|`, and
    only once it is full does the queue start to wrap around. */
module BoundedQueues {
  import opened Wrappers

  /** `head_`, `tail_` and `size_` are 32-bit unsigned integers. */
  const UINT_LIMIT: nat := 0x1_0000_0000

  datatype QueueError = QueueFull | QueueEmpty

  /** The position `i` places after `tail` in a ring of `cap` places. */
  function Place(tail: nat, i: nat, cap: nat): (p: nat)
    requires tail < cap && i <= cap
    ensures p < cap
  {
    if tail + i < cap then tail + i else tail + i - cap
  }

  lemma SmallMod(tail: nat, i: nat, cap: nat)
    requires tail < cap && i <= cap
    ensures Place(tail, i, cap) == (tail + i) % cap
  {
    if tail + i < cap {
    } else {
      assert tail + i == cap + (tail + i - cap);
      assert (tail + i - cap) / cap == 0;
    }
  }

  /** The elements of a ring, oldest first. */
  function View<T>(buf: seq<T>, tail: nat, size: nat, cap: nat): (view: seq<T>)
    requires |buf| <= cap && size <= |buf|
    requires |buf| < cap ==> tail + size == |buf|
    requires |buf| == cap > 0 ==> tail < cap
    ensures |view| == size
  {
    seq(size, i requires 0 <= i < size => buf[Place(tail, i, cap)])
  }

  /** Writing at the position behind the last element appends, in the growth phase and in the wrapping one. */
  lemma ViewAppend<T>(buf: seq<T>, tail: nat, size: nat, cap: nat, x: T)
    requires |buf| <= cap && size <= |buf| && size < cap
    requires |buf| < cap ==> tail + size == |buf|
    requires |buf| == cap ==> tail < cap
    ensures |buf| < cap ==> View(buf + [x], tail, size + 1, cap) == View(buf, tail, size, cap) + [x]
    ensures |buf| == cap ==>
              View(buf[Place(tail, size, cap) := x], tail, size + 1, cap) == View(buf, tail, size, cap) + [x]
  {
    if |buf| == cap {
      var next := buf[Place(tail, size, cap) := x];
      forall i | 0 <= i < size
        ensures next[Place(tail, i, cap)] == buf[Place(tail, i, cap)]
      {
      }
      assert View(next, tail, size + 1, cap) == View(buf, tail, size, cap) + [x];
    } else {
      assert View(buf + [x], tail, size + 1, cap) == View(buf, tail, size, cap) + [x];
    }
  }

  /** Advancing the tail by one place drops the oldest element. */
  lemma ViewDrop<T>(buf: seq<T>, tail: nat, size: nat, cap: nat)
    requires |buf| <= cap && 0 < size <= |buf|
    requires |buf| < cap ==> tail + size == |buf|
    requires |buf| == cap ==> tail < cap
    ensures tail < |buf| && buf[tail] == View(buf, tail, size, cap)[0]
    ensures |buf| < cap ==> Place(tail, 1, cap) == tail + 1
    ensures View(buf, Place(tail, 1, cap), size - 1, cap) == View(buf, tail, size, cap)[1..]
  {
    forall i | 0 <= i < size - 1
      ensures Place(Place(tail, 1, cap), i, cap) == Place(tail, i + 1, cap)
    {
    }
    assert View(buf, Place(tail, 1, cap), size - 1, cap) == View(buf, tail, size, cap)[1..];
  }

  class BoundedQueue<T> {
    const cap: nat
    var buf: seq<T>
    var head: nat
    var tail: nat
    var size: nat

    ghost predicate Valid()
      reads this
    {
      && cap < UINT_LIMIT
      && |buf| <= cap && size <= |buf|
      && (|buf| < cap ==> head == |buf| && tail + size == head)
      && (|buf| == cap > 0 ==> tail < cap && head == Place(tail, size, cap))
    }

    /** The abstract queue, oldest element first. */
    ghost function Contents(): seq<T>
      reads this
      requires Valid()
    {
      View(buf, tail, size, cap)
    }

    constructor (capacity: nat)
      requires capacity < UINT_LIMIT
      ensures Valid() && cap == capacity && Contents() == []
    {
      cap := capacity;
      buf, head, tail, size := [], 0, 0, 0;
    }

    predicate Empty()
      reads this
    {
      size == 0
    }

    predicate HasSpace()
      reads this
    {
      size < cap
    }

    /** Appends, or reports a full queue and changes nothing. */
    method Put(x: T) returns (r: Result<(), QueueError>)
      requires Valid()
      modifies this
      ensures Valid()
      ensures |old(Contents())| < cap ==> r == Ok(()) && Contents() == old(Contents()) + [x]
      ensures |old(Contents())| >= cap ==> r == Err(QueueFull) && Contents() == old(Contents())
    {
      if !HasSpace() {
        return Err(QueueFull);
      }
      ViewAppend(buf, tail, size, cap, x);
      SmallMod(head, 1, cap);
      if |buf| < cap {
        assert tail <= head;
        buf := buf + [x];
      } else {
        buf := buf[head := x];
      }
      head := (head + 1) % cap;
      size := size + 1;
      return Ok(());
    }

    /** Removes and returns the oldest element, or reports an empty queue and changes nothing. */
    method Get() returns (r: Result<T, QueueError>)
      requires Valid()
      modifies this
      ensures Valid()
      ensures old(Contents()) != [] ==> r == Ok(old(Contents())[0]) && Contents() == old(Contents())[1..]
      ensures old(Contents()) == [] ==> r == Err(QueueEmpty) && Contents() == old(Contents())
    {
      if Empty() {
        return Err(QueueEmpty);
      }
      ViewDrop(buf, tail, size, cap);
      SmallMod(tail, 1, cap);
      var element := buf[tail];
      tail := tail + 1;
      tail := tail % cap;
      size := size - 1;
      return Ok(element);
    }

    /** Edits every queued element in place; order, length and positions stay. */
    method ForEach(edit: T -> T)
      requires Valid()
      modifies this`buf
      ensures Valid()
      ensures |Contents()| == |old(Contents())|
      ensures forall i :: 0 <= i < |Contents()| ==> Contents()[i] == edit(old(Contents())[i])
    {
      var idx := tail;
      ghost var was := buf;
      for i := 0 to size
        invariant |buf| == |was| && Valid()
        invariant size > 0 ==> idx == Place(tail, i, cap)
        invariant forall k :: 0 <= k < i ==> buf[Place(tail, k, cap)] == edit(was[Place(tail, k, cap)])
        invariant forall k :: i <= k < size ==> buf[Place(tail, k, cap)] == was[Place(tail, k, cap)]
      {
        buf := buf[idx := edit(buf[idx])];
        SmallMod(idx, 1, cap);
        idx := (idx + 1) % cap;
      }
    }
  }
}
