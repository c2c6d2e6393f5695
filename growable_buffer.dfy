/** The capacity-doubling buffers `LoadObjFromFile` keeps for positions,
    normals, UVs and output vertices: a heap block, an element count and a
    capacity, grown by doubling and `realloc` when full. */
module Growable {

  class GrowableBuffer<T(0)> {
    var data: array<T>
    var count: nat
    var capacity: nat

    /** The block is `capacity` elements long and holds `count` of them. */
    ghost predicate Valid()
      reads this
    {
      data.Length == capacity && 0 < capacity && count <= capacity
    }

    /** The elements written so far, in order. */
    function Elements(): seq<T>
      reads this, data
      requires Valid()
    {
      data[..count]
    }

    /** `malloc(initialCapacity * sizeof(T))` with a count of zero. */
    constructor (initialCapacity: nat)
      requires 0 < initialCapacity
      ensures Valid() && fresh(data)
      ensures capacity == initialCapacity && Elements() == []
    {
      data := new T[initialCapacity];
      count := 0;
      capacity := initialCapacity;
    }

    /** `if (count >= capacity) { capacity *= 2; block = realloc(block, ...); }`:
        afterwards there is room for one more element, the elements are those
        before, and the capacity has doubled exactly when the block was full. */
    method GrowIfFull()
      requires Valid()
      modifies this
      ensures Valid() && count == old(count) && Elements() == old(Elements())
      ensures capacity == if old(count) >= old(capacity) then 2 * old(capacity) else old(capacity)
      ensures count < capacity
      ensures data == old(data) || fresh(data)
    {
      if count >= capacity {
        var grown := new T[2 * capacity];
        // `realloc` keeps the first `capacity` elements of the old block
        var i := 0;
        while i < capacity
          invariant 0 <= i <= capacity
          invariant grown[..i] == data[..i]
          modifies grown
        {
          grown[i] := data[i];
          i := i + 1;
        }
        assert grown[..count] == data[..count];
        capacity := 2 * capacity;
        data := grown;
      }
    }

    /** Writes `x` at index `count` of a block known to have room for it and
        counts it. */
    method PushWithinCapacity(x: T)
      requires Valid() && count < capacity
      modifies this, data
      ensures Valid() && data == old(data) && capacity == old(capacity)
      ensures count == old(count) + 1
      ensures Elements() == old(Elements()) + [x]
    {
      data[count] := x;
      count := count + 1;
    }

    /** Append: grow when full, then write at the old count. Earlier
        elements are preserved, the count grows by one and stays within the
        capacity. */
    method Append(x: T)
      requires Valid()
      modifies this, data
      ensures Valid() && count == old(count) + 1 && count <= capacity
      ensures Elements() == old(Elements()) + [x]
      ensures capacity == if old(count) >= old(capacity) then 2 * old(capacity) else old(capacity)
      ensures data == old(data) || fresh(data)
    {
      GrowIfFull();
      PushWithinCapacity(x);
    }
  }
}
