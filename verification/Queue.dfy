/**
 The ring buffer of util/queue/queue.c.

 `Ring` holds the four counters of a queue record; which array cell an operation touches depends on
 them alone. `Queue` is the record with its array, updated in place, and behaves as a bounded FIFO
 sequence.
 */
module Queues {
  import opened Options

  function Succ(value: int, capacity: nat): int {
    if value + 1 == capacity then 0 else value + 1
  }

  datatype Ring = Ring(capacity: nat, front: int, rear: int, size: int)

  function EmptyRing(capacity: nat): Ring {
    Ring(capacity, 1, 0, 0)
  }

  datatype Op = MakeEmpty | Enqueue | Dequeue

  function Apply(r: Ring, op: Op): Ring {
    match op
    case MakeEmpty => EmptyRing(r.capacity)
    case Enqueue =>
      if r.size == r.capacity then r else r.(size := r.size + 1, rear := Succ(r.rear, r.capacity))
    case Dequeue =>
      if r.size == 0 then r else r.(size := r.size - 1, front := Succ(r.front, r.capacity))
  }

  /** The array cell the operation writes (enqueue) or reads (front and dequeue), if any. */
  function Touched(r: Ring, op: Op): Option<int> {
    match op
    case MakeEmpty => None
    case Enqueue => if r.size == r.capacity then None else Some(Succ(r.rear, r.capacity))
    case Dequeue => if r.size == 0 then None else Some(r.front)
  }

  ghost predicate StaysInBounds(r: Ring, ops: seq<Op>)
    decreases |ops|
  {
    ops == [] ||
    (var cell := Touched(r, ops[0]);
     (cell.Some? ==> 0 <= cell.value < r.capacity) && StaysInBounds(Apply(r, ops[0]), ops[1..]))
  }

  /**
   Every index is in range, and rear + 1 is congruent to front + size modulo the capacity: for indexes
   in range, their difference is 0 or the capacity with either sign.
   */
  predicate WellFormed(r: Ring) {
    && 0 <= r.size <= r.capacity
    && (r.capacity > 0 ==>
          && 0 <= r.front < r.capacity
          && 0 <= r.rear < r.capacity
          && var difference := r.rear + 1 - (r.front + r.size);
             (difference == 0 || difference == r.capacity || difference == 0 - r.capacity))
  }

  lemma WellFormedKept(r: Ring, op: Op)
    requires WellFormed(r) && r.capacity != 1
    ensures WellFormed(Apply(r, op)) && Apply(r, op).capacity == r.capacity
    ensures Touched(r, op).Some? ==> 0 <= Touched(r, op).value < r.capacity
  {
  }

  lemma {:induction false} WellFormedStaysInBounds(r: Ring, ops: seq<Op>)
    requires WellFormed(r) && r.capacity != 1
    ensures StaysInBounds(r, ops)
    decreases |ops|
  {
    if ops != [] {
      WellFormedKept(r, ops[0]);
      WellFormedStaysInBounds(Apply(r, ops[0]), ops[1..]);
    }
  }

  ghost predicate NeverLeavesArray(capacity: nat) {
    forall ops: seq<Op> :: StaysInBounds(EmptyRing(capacity), ops)
  }

  /**
   No sequence of operations leaves the array, exactly when the capacity is not 1: with one cell,
   `queue_make_empty` starts `front` at 1 and the first dequeue reads past the end.
   */
  lemma InBoundsIff(capacity: nat)
    ensures NeverLeavesArray(capacity) <==> capacity != 1
  {
    if capacity == 1 {
      var ops := [Enqueue, Dequeue];
      var r := Apply(EmptyRing(1), Enqueue);
      assert ops[0] == Enqueue && ops[1..] == [Dequeue];
      assert Touched(r, ops[1..][0]) == Some(1);
      assert !StaysInBounds(r, ops[1..]);
      assert !StaysInBounds(EmptyRing(capacity), ops);
    } else {
      forall ops {
        WellFormedStaysInBounds(EmptyRing(capacity), ops);
      }
    }
  }

  class Queue<T(0)> {
    const capacity: nat
    const cells: array<T>
    var front: int
    var rear: int
    var size: int

    ghost function Counters(): Ring
      reads this
    {
      Ring(capacity, front, rear, size)
    }

    function Cell(i: nat): nat
      requires capacity > 0 && 0 <= front < capacity && i <= capacity
      reads this
    {
      if front + i < capacity then front + i else front + i - capacity
    }

    ghost predicate Valid()
      reads this, cells
    {
      && capacity != 1
      && cells.Length == capacity
      && WellFormed(Counters())
      && (capacity > 0 ==> Succ(rear, capacity) == Cell(size))
    }

    /** The queued elements, oldest first. */
    ghost function Contents(): (s: seq<T>)
      requires Valid()
      reads this, cells
      ensures |s| == size
    {
      seq(size, i requires 0 <= i < size && Valid() reads this, cells => cells[Cell(i)])
    }

    /** queue_create_queue */
    constructor (maxElements: nat)
      requires maxElements != 1
      ensures Valid() && fresh(cells) && capacity == maxElements
      ensures Contents() == [] && Counters() == EmptyRing(maxElements)
    {
      capacity := maxElements;
      cells := new T[maxElements];
      size := 0;
      front := 1;
      rear := 0;
      new;
      assert Valid();
    }

    method MakeEmpty()
      requires Valid()
      modifies this
      ensures Valid() && Contents() == []
      ensures Counters() == Apply(old(Counters()), Op.MakeEmpty)
    {
      size := 0;
      front := 1;
      rear := 0;
    }

    method EnqueueElement(element: T) returns (ok: bool)
      requires Valid()
      modifies this, cells
      ensures Valid()
      ensures ok == (|old(Contents())| < capacity)
      ensures Contents() == if ok then old(Contents()) + [element] else old(Contents())
      ensures Counters() == Apply(old(Counters()), Op.Enqueue)
    {
      if size == capacity {
        return false;
      }
      WellFormedKept(Counters(), Op.Enqueue);
      size := size + 1;
      rear := Succ(rear, capacity);
      cells[rear] := element;
      return true;
    }

    method Front() returns (element: Option<T>)
      requires Valid()
      ensures element == if Contents() == [] then None else Some(Contents()[0])
    {
      if size == 0 {
        return None;
      }
      return Some(cells[front]);
    }

    method DequeueElement() returns (ok: bool)
      requires Valid()
      modifies this
      ensures Valid()
      ensures ok == (old(Contents()) != [])
      ensures Contents() == if ok then old(Contents())[1..] else old(Contents())
      ensures Counters() == Apply(old(Counters()), Op.Dequeue)
    {
      if size == 0 {
        return false;
      }
      WellFormedKept(Counters(), Op.Dequeue);
      size := size - 1;
      front := Succ(front, capacity);
      return true;
    }

    method FrontAndDequeue() returns (element: Option<T>)
      requires Valid()
      modifies this
      ensures Valid()
      ensures element == if old(Contents()) == [] then None else Some(old(Contents())[0])
      ensures Contents() == if old(Contents()) == [] then [] else old(Contents())[1..]
      ensures Counters() == Apply(old(Counters()), Op.Dequeue)
    {
      if size == 0 {
        return None;
      }
      WellFormedKept(Counters(), Op.Dequeue);
      size := size - 1;
      element := Some(cells[front]);
      front := Succ(front, capacity);
    }
  }
}
