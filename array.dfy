/**
 * Array<T>: a growable buffer. The first `size` slots of `data` hold the live
 * elements; `capacity` is the length of `data`. A null buffer is an array of
 * length 0.
 */
module Arrays {

  /** The result of a bounds-checked read: the element, or std::out_of_range. */
  datatype Access<T> = Ok(value: T) | OutOfRange

  /** The growth rule of push_back: 0 becomes 1, anything else doubles. */
  function NextCapacity(capacity: nat): nat {
    if capacity == 0 then 1 else capacity * 2
  }

  /** NextCapacity always makes room for at least one more element. */
  lemma NextCapacityGrows(capacity: nat)
    ensures capacity < NextCapacity(capacity) <= 2 * capacity + 1
  {
  }

  /** The capacity after pushing count elements, one at a time, into a default array. */
  function CapacityAfter(count: nat): nat {
    if count == 0 then 0
    else
      var c := CapacityAfter(count - 1);
      if count - 1 >= c then NextCapacity(c) else c
  }

  predicate IsPowerOfTwo(n: nat)
    decreases n
  {
    n == 1 || (n > 1 && n % 2 == 0 && IsPowerOfTwo(n / 2))
  }

  /**
   * Starting from a default array, the capacity after count pushes is the
   * smallest power of two that holds them: a power of two with
   * count <= capacity < 2 * count.
   */
  lemma {:induction false} CapacityAfterIsTightPowerOfTwo(count: nat)
    requires 1 <= count
    ensures IsPowerOfTwo(CapacityAfter(count))
    ensures count <= CapacityAfter(count) < 2 * count
  {
    if count == 1 {
      assert CapacityAfter(0) == 0;
    } else {
      CapacityAfterIsTightPowerOfTwo(count - 1);
      var c := CapacityAfter(count - 1);
      if count - 1 >= c {
        assert NextCapacity(c) == 2 * c;
        assert (2 * c) / 2 == c;
      }
    }
  }

  class Array<T(0)> {
    var data: array<T>
    var capacity: nat
    var size: nat
    /** The objects this array owns exclusively: itself and its buffer. */
    ghost var Repr: set<object>

    /**
     * The class invariant: the array owns itself and its buffer, capacity_ is
     * the buffer length, and size_ never exceeds it.
     */
    ghost predicate Valid()
      reads this, Repr
      ensures Valid() ==> this in Repr && data in Repr
    {
      Repr == {this, data} && data.Length == capacity && size <= capacity
    }

    /** The live elements, data[0 .. size_). */
    ghost function Elements(): seq<T>
      reads this, Repr
      requires Valid()
    {
      data[..size]
    }

    /** Array(): no buffer, size 0, capacity 0. */
    constructor ()
      ensures Valid() && fresh(Repr)
      ensures Elements() == [] && size == 0 && capacity == 0
    {
      data := new T[0];
      capacity := 0;
      size := 0;
      Repr := {this, data};
    }

    /** Array(n): an empty buffer of n slots. */
    constructor WithCapacity(initialCapacity: nat)
      ensures Valid() && fresh(Repr)
      ensures Elements() == [] && size == 0 && capacity == initialCapacity
    {
      data := new T[initialCapacity];
      capacity := initialCapacity;
      size := 0;
      Repr := {this, data};
    }

    /** The copy constructor: a new buffer of the same capacity holding the same elements. */
    constructor Copy(other: Array<T>)
      requires other.Valid()
      ensures Valid() && fresh(Repr)
      ensures size == other.size && capacity == other.capacity
      ensures Elements() == other.Elements()
    {
      var buffer := new T[other.capacity];
      for i := 0 to other.size
        invariant buffer[..i] == other.data[..i]
      {
        buffer[i] := other.data[i];
      }
      data := buffer;
      capacity := other.capacity;
      size := other.size;
      Repr := {this, data};
    }

    /**
     * Copy assignment: a new buffer with other's capacity and elements, or
     * nothing at all on self-assignment.
     */
    method CopyAssign(other: Array<T>)
      requires Valid() && other.Valid()
      modifies Repr
      ensures Valid() && fresh(Repr - old(Repr))
      ensures size == old(other.size) && capacity == old(other.capacity)
      ensures Elements() == old(other.Elements())
      ensures other == this ==> data == old(data)
      ensures other != this ==> fresh(data) && unchanged(other)
    {
      if other != this {
        var buffer := new T[other.capacity];
        for i := 0 to other.size
          modifies buffer
          invariant buffer[..i] == other.data[..i]
        {
          buffer[i] := other.data[i];
        }
        data := buffer;
        capacity := other.capacity;
        size := other.size;
        Repr := {this, data};
      }
    }

    /**
     * The move constructor: takes over other's buffer, size and capacity, and
     * leaves other with no buffer, size 0 and capacity 0.
     */
    constructor Move(other: Array<T>)
      requires other.Valid()
      modifies other
      ensures Valid() && other.Valid()
      ensures data == old(other.data) && size == old(other.size) && capacity == old(other.capacity)
      ensures Elements() == old(other.Elements())
      ensures other.size == 0 && other.capacity == 0 && other.Elements() == []
      ensures Repr == {this, old(other.data)} && fresh(other.data)
    {
      data := other.data;
      capacity := other.capacity;
      size := other.size;
      Repr := {this, data};
      new;
      other.data := new T[0];
      other.capacity := 0;
      other.size := 0;
      other.Repr := {other, other.data};
    }

    /** Move assignment: as the move constructor, or nothing on self-assignment. */
    method MoveAssign(other: Array<T>)
      requires Valid() && other.Valid()
      modifies this, other
      ensures Valid() && other.Valid()
      ensures other == this ==> unchanged(this)
      ensures other != this ==>
                data == old(other.data) && size == old(other.size) && capacity == old(other.capacity) &&
                Elements() == old(other.Elements()) &&
                other.size == 0 && other.capacity == 0 && other.Elements() == [] &&
                Repr == {this, old(other.data)} && fresh(other.data)
    {
      if other != this {
        data := other.data;
        capacity := other.capacity;
        size := other.size;
        Repr := {this, data};
        other.data := new T[0];
        other.capacity := 0;
        other.size := 0;
        other.Repr := {other, other.data};
      }
    }

    /** resize: moves the live elements into a fresh buffer of newCapacity slots. */
    method Resize(newCapacity: nat)
      requires Valid() && size <= newCapacity
      modifies this
      ensures Valid() && fresh(data) && Repr == {this, data}
      ensures capacity == newCapacity && size == old(size)
      ensures Elements() == old(Elements())
    {
      var buffer := new T[newCapacity];
      for i := 0 to size
        modifies buffer
        invariant buffer[..i] == data[..i]
      {
        buffer[i] := data[i];
      }
      data := buffer;
      capacity := newCapacity;
      Repr := {this, data};
    }

    /**
     * push_back: appends item, first growing a full buffer by NextCapacity.
     * The elements already there keep their places.
     */
    method PushBack(item: T)
      requires Valid()
      modifies Repr
      ensures Valid() && fresh(Repr - old(Repr)) && (data == old(data) || fresh(data))
      ensures Elements() == old(Elements()) + [item]
      ensures capacity == if old(size) >= old(capacity) then NextCapacity(old(capacity)) else old(capacity)
    {
      if size >= capacity {
        NextCapacityGrows(capacity);
        Resize(NextCapacity(capacity));
      }
      data[size] := item;
      size := size + 1;
    }

    /**
     * remove: shifts the elements after index one place to the left and
     * drops the last. An index outside the live elements is out of range:
     * nothing changes and ok is false.
     */
    method Remove(index: nat) returns (ok: bool)
      requires Valid()
      modifies Repr
      ensures Valid() && Repr == old(Repr) && data == old(data) && capacity == old(capacity)
      ensures ok <==> index < old(size)
      ensures ok ==> size == old(size) - 1 &&
                     Elements() == old(Elements()[..index] + Elements()[index + 1..])
      ensures !ok ==> size == old(size) && unchanged(data)
    {
      if index >= size {
        return false;
      }
      for i := index to size - 1
        modifies data
        invariant forall j :: 0 <= j < index ==> data[j] == old(data[j])
        invariant forall j :: index <= j < i ==> data[j] == old(data[j + 1])
        invariant forall j :: i <= j < data.Length ==> data[j] == old(data[j])
      {
        data[i] := data[i + 1];
      }
      size := size - 1;
      ok := true;
      assert Elements() == old(Elements()[..index] + Elements()[index + 1..]) by {
        assert |Elements()| == |old(Elements()[..index] + Elements()[index + 1..])|;
        forall j | 0 <= j < size
          ensures Elements()[j] == old(Elements()[..index] + Elements()[index + 1..])[j]
        {
          if j < index {
            assert Elements()[j] == old(data[j]);
          } else {
            assert Elements()[j] == old(data[j + 1]);
          }
        }
      }
    }

    /** operator[] for reading: the element at index, or out_of_range. */
    function At(index: nat): (r: Access<T>)
      reads this, Repr
      requires Valid()
      ensures index < |Elements()| ==> r == Ok(Elements()[index])
      ensures index >= |Elements()| ==> r == OutOfRange
    {
      if index >= size then OutOfRange else Ok(data[index])
    }

    /**
     * operator[] for writing: stores value at index, or signals out_of_range
     * and changes nothing.
     */
    method Set(index: nat, value: T) returns (ok: bool)
      requires Valid()
      modifies data
      ensures Valid() && Repr == old(Repr)
      ensures ok <==> index < size
      ensures ok ==> Elements() == old(Elements())[index := value]
      ensures !ok ==> unchanged(data)
    {
      if index >= size {
        return false;
      }
      data[index] := value;
      ok := true;
    }

    /** size(): the number of live elements. */
    function Size(): (n: nat)
      reads this, Repr
      requires Valid()
      ensures n == |Elements()|
    {
      size
    }

    /** capacity(): the buffer length, never below the size. */
    function Capacity(): (n: nat)
      reads this, Repr
      requires Valid()
      ensures n == data.Length && |Elements()| <= n
    {
      capacity
    }

    /** empty(): no live elements. */
    function Empty(): (e: bool)
      reads this, Repr
      requires Valid()
      ensures e <==> Elements() == []
    {
      size == 0
    }

    /** clear(): forgets the elements and keeps the buffer. */
    method Clear()
      requires Valid()
      modifies this
      ensures Valid() && Repr == old(Repr) && data == old(data) && capacity == old(capacity)
      ensures Elements() == []
    {
      size := 0;
    }
  }

  /**
   * Pushes the given values, in order, into a default array. The result holds
   * exactly those values, in a buffer whose capacity is CapacityAfter(|xs|).
   */
  method FromSequence<T(0)>(xs: seq<T>) returns (a: Array<T>)
    ensures a.Valid() && a.Elements() == xs
    ensures a.capacity == CapacityAfter(|xs|)
    ensures fresh(a.Repr)
  {
    a := new Array();
    for i := 0 to |xs|
      invariant a.Valid() && fresh(a.Repr)
      invariant a.Elements() == xs[..i]
      invariant a.capacity == CapacityAfter(i)
    {
      a.PushBack(xs[i]);
      assert xs[..i + 1] == xs[..i] + [xs[i]];
    }
    assert xs[..|xs|] == xs;
  }

  /**
   * A copy is independent of its source: writing through the copy leaves the
   * source as it was.
   */
  method CopyThenWrite<T(0)>(source: Array<T>, index: nat, value: T) returns (copy: Array<T>, ok: bool)
    requires source.Valid()
    ensures source.Valid() && copy.Valid() && fresh(copy.Repr)
    ensures source.Elements() == old(source.Elements())
    ensures ok <==> index < |source.Elements()|
    ensures ok ==> copy.Elements() == source.Elements()[index := value]
    ensures !ok ==> copy.Elements() == source.Elements()
  {
    copy := new Array.Copy(source);
    ok := copy.Set(index, value);
  }

  /**
   * Each array owns its buffer: pushing onto one array leaves any array with
   * a separate footprint exactly as it was, even when the push reallocates.
   */
  method PushLeavesOthersAlone<T(0)>(a: Array<T>, b: Array<T>, item: T)
    requires a.Valid() && b.Valid() && a.Repr !! b.Repr
    modifies a.Repr
    ensures a.Valid() && b.Valid() && a.Repr !! b.Repr
    ensures a.Elements() == old(a.Elements()) + [item]
    ensures b.Elements() == old(b.Elements())
  {
    a.PushBack(item);
  }

  /**
   * Three pushes into a default array, a read past the end, and growth from
   * capacity 2: the values come back in order, the read is out of range,
   * and the capacity after the third push into Array(2) is 4.
   */
  method PushScenario() returns (elements: seq<int>, outside: Access<int>, grownCapacity: nat)
    ensures elements == [1, 2, 3] && outside == OutOfRange && grownCapacity == 4
  {
    var a := new Array<int>();
    a.PushBack(1);
    a.PushBack(2);
    a.PushBack(3);
    elements := [a.At(0).value, a.At(1).value, a.At(2).value];
    outside := a.At(10);
    var b := new Array<int>.WithCapacity(2);
    b.PushBack(10);
    b.PushBack(20);
    b.PushBack(30);
    grownCapacity := b.Capacity();
  }

  /**
   * Removal from the middle, the front and the back of 0, 10, 20, 30, 40
   * leaves 10, 30.
   */
  method RemoveScenario() returns (remaining: seq<int>, sizes: seq<nat>)
    ensures remaining == [10, 30] && sizes == [4, 3, 2]
  {
    var a := FromSequence([0, 10, 20, 30, 40]);
    var ok := a.Remove(2);
    assert a.Elements() == [0, 10, 30, 40];
    var s1 := a.Size();
    ok := a.Remove(0);
    assert a.Elements() == [10, 30, 40];
    var s2 := a.Size();
    ok := a.Remove(a.Size() - 1);
    assert a.Elements() == [10, 30];
    sizes := [s1, s2, a.Size()];
    remaining := [a.At(0).value, a.At(1).value];
  }

  /**
   * A copy of 1, 2, 3 is written at index 0 and then moved from: the source
   * keeps 1, the destination of the move holds 100, 2, 3, and the moved-from
   * copy is empty.
   */
  method CopyMoveScenario() returns (sourceFirst: int, moved: seq<int>, movedFromEmpty: bool)
    ensures sourceFirst == 1 && moved == [100, 2, 3] && movedFromEmpty
  {
    var a1 := FromSequence([1, 2, 3]);
    var a2 := new Array.Copy(a1);
    var ok := a2.Set(0, 100);
    sourceFirst := a1.At(0).value;
    var a3 := new Array.Move(a2);
    moved := [a3.At(0).value, a3.At(1).value, a3.At(2).value];
    movedFromEmpty := a2.Empty();
  }
}
