/** The queue of src/queue.c: a ring over a growable array that never grows again. */
module Queues {
  import opened Common
  import opened Arrays
  import opened Rings

  class Queue<T(0)> {
    const data: Array<T>
    var front: nat

    ghost function Repr(): set<object>
      reads this, data
    {
      {this} + data.Repr()
    }

    ghost predicate Valid()
      reads this, data, data.data
    {
      data.Valid() && RingOk(Val())
    }

    ghost function Val(): (q: Ring<T>)
      reads this, data, data.data
    {
      Ring(if data.data == null then [] else data.data[..], data.size, front)
    }

    /** queueInit. */
    constructor (itemSize: nat, maxCount: nat)
      requires itemSize > 0
      ensures Valid() && fresh(Repr())
      ensures Val().size == 0 && Val().front == 0 && |Val().slots| == maxCount
    {
      data := new Array<T>(itemSize);
      front := 0;
      new;
      data.Reserve(maxCount);
    }

    /** queueFinalize: nothing is left of the ring. */
    method Finalize()
      requires Valid()
      modifies data
      ensures data.Valid() && Val().slots == [] && Val().size == 0
    {
      data.Destroy();
    }

    /** queuePush. */
    method Push(item: T) returns (code: int)
      requires Valid()
      modifies data, data.data
      ensures Valid() && data.data == old(data.data)
      ensures (Val(), code) == RingPush(old(Val()), item)
    {
      if data.size == data.capacity {
        return ENOMEM;
      }
      PushAppends(Val(), item);
      data.data[Wrap(front + data.size, data.capacity)] := item;
      data.size := data.size + 1;
      code := data.size;
    }

    /** queuePop: `size` stays. */
    method Pop() returns (item: Option<T>)
      requires Valid()
      modifies this
      ensures Valid()
      ensures (Val(), item) == RingPop(old(Val()))
    {
      if data.size == 0 {
        return None;
      }
      item := Some(data.data[front]);
      front := Wrap(front + 1, data.capacity);
    }

    /** queuePeek. */
    method Peek() returns (item: Option<T>)
      requires Valid()
      ensures item == RingPeek(Val())
    {
      if data.size == 0 {
        return None;
      }
      item := Some(data.data[front]);
    }

    /** queueGetSize. */
    method GetSize() returns (size: nat)
      ensures size == Val().size
    {
      size := data.size;
    }
  }
}
