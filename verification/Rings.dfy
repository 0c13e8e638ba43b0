/**
 The queue of src/queue.c as a value. The header calls it a FIFO queue, but taking an item out
 only moves `front`: `size` never goes down. What the code implements is a ring that, once full,
 rotates.
*/
module Rings {
  import opened Common

  /** `|slots|` is the capacity. */
  datatype Ring<T> = Ring(slots: seq<T>, size: nat, front: nat)

  ghost predicate RingOk<T>(q: Ring<T>) {
    && q.size <= |q.slots|
    && (q.front < |q.slots| || q.front == |q.slots| == 0)
  }

  function Wrap(i: nat, n: nat): (r: nat)
    requires 0 < n
    ensures r < n
    ensures i < n ==> r == i
    ensures n <= i < 2 * n ==> r == i - n
  {
    if n <= i < 2 * n then
      WrapOnce(i, n);
      i % n
    else i % n
  }

  lemma WrapOnce(i: nat, n: nat)
    requires 0 < n <= i < 2 * n
    ensures i % n == i - n
  {
    assert i == 1 * n + (i - n);
  }

  /** The items from the front on, the next one to be handed out first. */
  function Contents<T>(q: Ring<T>): (r: seq<T>)
    requires RingOk(q)
    ensures |r| == q.size
  {
    seq(q.size, k requires 0 <= k < q.size => q.slots[Wrap(q.front + k, |q.slots|)])
  }

  function RingPush<T>(q: Ring<T>, item: T): (Ring<T>, int) {
    if q.size == |q.slots| then (q, ENOMEM) else
      var n := |q.slots|;
      if n == 0 then (q, ENOMEM) else
        (q.(slots := q.slots[Wrap(q.front + q.size, n) := item], size := q.size + 1), q.size + 1)
  }

  function RingPeek<T>(q: Ring<T>): Option<T> {
    if q.size == 0 || q.front >= |q.slots| then None else Some(q.slots[q.front])
  }

  function RingPop<T>(q: Ring<T>): (Ring<T>, Option<T>) {
    if q.size == 0 || q.front >= |q.slots| then (q, None)
    else (q.(front := Wrap(q.front + 1, |q.slots|)), Some(q.slots[q.front]))
  }

  /** An item is appended while there is room. A full queue refuses it, with a positive code. */
  lemma PushAppends<T>(q: Ring<T>, item: T)
    requires RingOk(q)
    ensures var (r, code) := RingPush(q, item);
      && RingOk(r) && r.front == q.front
      && (q.size < |q.slots| ==> Contents(r) == Contents(q) + [item] && code == q.size + 1)
      && (q.size == |q.slots| ==> r == q && code == ENOMEM)
  {
    var r := RingPush(q, item).0;
    if q.size < |q.slots| {
      forall k | 0 <= k < q.size
        ensures Contents(r)[k] == Contents(q)[k]
      {
        assert Wrap(q.front + k, |q.slots|) != Wrap(q.front + q.size, |q.slots|);
      }
    }
  }

  /** A pop hands out the first item and brings the slot after the last one into view; nothing is removed. */
  lemma PopShifts<T>(q: Ring<T>)
    requires RingOk(q) && q.size > 0
    ensures var (r, item) := RingPop(q);
      && RingOk(r) && r.size == q.size && r.slots == q.slots
      && item == Some(Contents(q)[0]) == RingPeek(q)
      && Contents(r) == Contents(q)[1..] + [q.slots[Wrap(q.front + q.size, |q.slots|)]]
  {
    var r := RingPop(q).0;
    var n := |q.slots|;
    assert Wrap(q.front + 0, n) == q.front;
    forall k | 0 <= k < q.size
      ensures Contents(r)[k] == (Contents(q)[1..] + [q.slots[Wrap(q.front + q.size, n)]])[k]
    {
      assert Wrap(r.front + k, n) == Wrap(q.front + (k + 1), n) by {
        if q.front + 1 == n {
          assert r.front == 0;
        }
      }
      if k < q.size - 1 {
        assert Contents(q)[1..][k] == Contents(q)[k + 1];
      }
    }
  }

  /** On a full queue a pop rotates: the item that is handed out goes to the end. */
  lemma PopRotates<T>(q: Ring<T>)
    requires RingOk(q) && 0 < q.size == |q.slots|
    ensures var (r, item) := RingPop(q);
      && RingOk(r) && r.size == q.size == |r.slots|
      && item == Some(Contents(q)[0])
      && Contents(r) == Contents(q)[1..] + [Contents(q)[0]]
  {
    PopShifts(q);
    assert Wrap(q.front + q.size, |q.slots|) == q.front;
  }

  /** What a FIFO queue holds after its first item is taken out. */
  function AfterFirst<T>(s: seq<T>): seq<T> {
    if s == [] then [] else s[1..]
  }

  /** The header's claim, exactly: a pop is a FIFO pop if and only if there was nothing to take. */
  lemma PopIsFifoOnlyWhenEmpty<T>(q: Ring<T>)
    requires RingOk(q)
    ensures RingOk(RingPop(q).0)
    ensures Contents(RingPop(q).0) == AfterFirst(Contents(q)) <==> q.size == 0
  {
    if q.size > 0 {
      PopShifts(q);
      assert |Contents(RingPop(q).0)| == |Contents(q)|;
    }
  }
}
