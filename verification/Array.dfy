/** The growable array of src/array.h. */
module Arrays {
  import opened Common

  /** `copied` counts the items that growing has copied so far. */
  datatype ArrayVal<T> = ArrayVal(items: seq<T>, capacity: nat, itemSize: nat, copied: nat)

  function FirstCapacity(itemSize: nat): (c: nat)
    requires itemSize > 0
    ensures c >= 1
  {
    (16 + itemSize - 1) / itemSize
  }

  function GrownCapacity(capacity: nat, itemSize: nat): (c: nat)
    requires itemSize > 0
    ensures c > capacity
  {
    var c := if capacity != 0 then capacity * 3 / 2 else FirstCapacity(itemSize);
    if c > capacity then c else capacity + 1
  }

  function Reserved<T>(v: ArrayVal<T>, capacity: nat): ArrayVal<T> {
    if capacity <= v.capacity then v else v.(capacity := capacity, copied := v.copied + |v.items|)
  }

  function Appended<T>(v: ArrayVal<T>, item: T): ArrayVal<T>
    requires v.itemSize > 0
  {
    var grown := if |v.items| == v.capacity then Reserved(v, GrownCapacity(v.capacity, v.itemSize)) else v;
    grown.(items := v.items + [item])
  }

  class Array<T(0)> {
    var data: array?<T>
    var size: nat
    var capacity: nat
    const itemSize: nat
    ghost var copied: nat

    ghost predicate Valid()
      reads this, data
    {
      && itemSize > 0
      && (data == null ==> capacity == 0)
      && (data != null ==> data.Length == capacity)
      && size <= capacity
    }

    ghost function Repr(): set<object>
      reads this
    {
      if data == null then {this} else {this, data}
    }

    ghost function Val(): (v: ArrayVal<T>)
      requires Valid()
      reads this, data
      ensures |v.items| == size && v.capacity == capacity && v.itemSize == itemSize
    {
      ArrayVal(if data == null then [] else data[..size], capacity, itemSize, copied)
    }

    /** arrayInit. */
    constructor (itemSize: nat)
      requires itemSize > 0
      ensures Valid() && data == null && Val() == ArrayVal([], 0, itemSize, 0)
    {
      this.itemSize := itemSize;
      data, size, capacity, copied := null, 0, 0, 0;
    }

    /** arrayReserve: the items move to a larger block and stay what they are. */
    method Reserve(wanted: nat)
      requires Valid()
      modifies this
      ensures Valid() && Val() == Reserved(old(Val()), wanted)
      ensures if wanted <= old(capacity) then data == old(data) else data != null && fresh(data)
    {
      if wanted <= capacity {
        return;
      }
      var newData := new T[wanted];
      if data != null {
        var block: array<T> := data;
        for i := 0 to size
          modifies newData
          invariant newData[..i] == block[..i]
        {
          newData[i] := block[i];
        }
        copied := copied + size;
      }
      data, capacity := newData, wanted;
    }

    /** arrayAppend: without an item the new slot holds whatever the block held. The index of the slot is returned. */
    method Append(item: Option<T>) returns (index: nat)
      requires Valid()
      modifies this, data
      ensures Valid() && size == old(size) + 1 && index == old(size)
      ensures Val() == Appended(old(Val()), Val().items[index])
      ensures item.Some? ==> Val().items[index] == item.value
      ensures data != null && (data == old(data) || fresh(data))
    {
      if size == capacity {
        var newCapacity := if capacity != 0 then capacity * 3 / 2 else (16 + itemSize - 1) / itemSize;
        Reserve(if newCapacity > capacity then newCapacity else capacity + 1);
      }
      if item.Some? {
        data[size] := item.value;
      }
      index := size;
      size := size + 1;
      assert data[..size] == data[..index] + [data[index]];
    }

    /** arrayDestroy. */
    method Destroy()
      requires Valid()
      modifies this
      ensures Valid() && Val().items == [] && capacity == 0
    {
      data, size, capacity := null, 0, 0;
    }
  }

  // ---------- any number of appends ----------

  function AppendAll<T>(v: ArrayVal<T>, items: seq<T>): ArrayVal<T>
    requires v.itemSize > 0
    decreases |items|
  {
    if items == [] then v else
      var init := AppendAll(v, items[..|items| - 1]);
      if init.itemSize > 0 then Appended(init, items[|items| - 1]) else init
  }

  /** Growing by half, rounded down but by one at least: the new capacity is four thirds of the old one or more. */
  lemma GrowsByHalf(capacity: nat, itemSize: nat)
    requires itemSize > 0
    ensures 4 * capacity <= 3 * GrownCapacity(capacity, itemSize)
  {}

  /**
   The capacities: at first the least number of items that fills 16 bytes, then half as much again, rounded
   down, and two after one.
  */
  lemma GrowthExactly(capacity: nat, itemSize: nat)
    requires itemSize > 0
    ensures var c := GrownCapacity(capacity, itemSize);
      && (capacity == 0 ==> c * itemSize >= 16 && (c - 1) * itemSize < 16)
      && (capacity == 1 ==> c == 2)
      && (capacity >= 2 ==> c == capacity + capacity / 2)
  {
    var n := 16 + itemSize - 1;
    assert n == (n / itemSize) * itemSize + n % itemSize;
  }

  ghost predicate Amortised<T>(v: ArrayVal<T>) {
    v.itemSize > 0 && |v.items| <= v.capacity && v.copied <= 3 * v.capacity && v.copied <= 4 * |v.items|
  }

  /** A full array pays for copying its items with the room it gains. */
  lemma AppendIsAmortised<T>(v: ArrayVal<T>, item: T)
    requires Amortised(v)
    ensures Amortised(Appended(v, item))
  {
    GrowsByHalf(v.capacity, v.itemSize);
    hide GrownCapacity;
  }

  /**
   Any number of appends to an empty array keep every item at its index and within the capacity,
   and all the copying that growing does is at most four copies for each item appended.
  */
  lemma {:induction false} AppendsAreAmortised<T>(items: seq<T>, itemSize: nat)
    requires itemSize > 0
    ensures var v := AppendAll(ArrayVal([], 0, itemSize, 0), items);
      && v.items == items && |items| <= v.capacity && v.itemSize == itemSize
      && v.copied <= 4 * |items| && Amortised(v)
    decreases |items|
  {
    hide Appended;
    if items != [] {
      var init, last := items[..|items| - 1], items[|items| - 1];
      AppendsAreAmortised(init, itemSize);
      var v := AppendAll(ArrayVal([], 0, itemSize, 0), init);
      AppendIsAmortised(v, last);
      AppendedLast(v, last);
      assert init + [last] == items;
    }
  }

  lemma AppendedLast<T>(v: ArrayVal<T>, item: T)
    requires v.itemSize > 0
    ensures Appended(v, item).items == v.items + [item] && Appended(v, item).itemSize == v.itemSize
  {}
}
