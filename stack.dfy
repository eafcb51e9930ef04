/** The two stacks of `rust/rotext/src/utils/stack.rs`: a growable
    `VecStack` and a bounded `ArrayStack` whose capacity `N` is fixed when it
    is created. Both expose `TryPush`, `Pop` and `AsSlice`; the slice lists
    the items from the bottom of the stack to its top. */
module Stack {
  import opened Common

  datatype Error = OutOfStackSpace

  datatype Result = Ok | Err(error: Error)

  /** A stack backed by a growable vector: pushing never fails. */
  class VecStack<T> {
    var items: seq<T>

    constructor ()
      ensures items == []
    {
      items := [];
    }

    method TryPush(item: T) returns (r: Result)
      modifies this
      ensures r == Ok
      ensures items == old(items) + [item]
    {
      items := items + [item];
      r := Ok;
    }

    /** Removes and returns the most recently pushed item, if any. */
    method Pop() returns (r: Option<T>)
      modifies this
      ensures old(items) == [] ==> r == None && items == []
      ensures old(items) != [] ==> r == Some(old(items)[|old(items)| - 1]) && items + [r.value] == old(items)
    {
      if items == [] {
        r := None;
      } else {
        r := Some(items[|items| - 1]);
        items := items[..|items| - 1];
      }
    }

    function AsSlice(): (s: seq<T>)
      reads this
      ensures |s| == |items|
      ensures forall i :: 0 <= i < |s| ==> s[i] == items[i]
    {
      items
    }
  }

  /** A stack of at most `n` items, kept in the first `len` slots of a
      fixed array. */
  class ArrayStack<T(0)> {
    const n: nat
    const items: array<T>
    var len: nat

    ghost predicate Valid()
      reads this
    {
      items.Length == n && len <= n
    }

    constructor (n: nat)
      ensures Valid() && fresh(items)
      ensures this.n == n && AsSlice() == []
    {
      this.n := n;
      items := new T[n];
      len := 0;
    }

    /** The occupied slots, bottom first. */
    function AsSlice(): (s: seq<T>)
      requires Valid()
      reads this, items
      ensures |s| == len <= n
      ensures forall i :: 0 <= i < len ==> s[i] == items[i]
    {
      items[..len]
    }

    /** Pushes `item` unless the stack already holds `n` items, in which case
        nothing changes and `OutOfStackSpace` is reported. */
    method TryPush(item: T) returns (r: Result)
      requires Valid()
      modifies this, items
      ensures Valid()
      ensures old(len) == n ==> r == Err(OutOfStackSpace) && len == old(len) && AsSlice() == old(AsSlice())
      ensures old(len) < n ==> r == Ok && len == old(len) + 1 && AsSlice() == old(AsSlice()) + [item]
    {
      if len == n {
        r := Err(OutOfStackSpace);
      } else {
        items[len] := item;
        len := len + 1;
        r := Ok;
      }
    }

    /** Removes and returns the most recently pushed item, if any. The slot it
        occupied is left as it was: only `len` tells which slots are in use. */
    method Pop() returns (r: Option<T>)
      requires Valid()
      modifies this
      ensures Valid()
      ensures old(len) == 0 ==> r == None && len == 0
      ensures old(len) > 0 ==> len == old(len) - 1 && r == Some(old(AsSlice())[len])
      ensures old(len) > 0 ==> AsSlice() + [r.value] == old(AsSlice())
    {
      if len == 0 {
        r := None;
      } else {
        len := len - 1;
        r := Some(items[len]);
      }
    }
  }

  /** The scenario of the `array_stack_works` test: with capacity 2, an empty
      pop gives nothing, two pushes succeed, a third fails, the pops return
      2 then 1, and a push succeeds again. */
  method ArrayStackScenario() returns (pop0: Option<int>, push1: Result, push2: Result, push3: Result,
                                       pop1: Option<int>, pop2: Option<int>, push4: Result)
    ensures pop0 == None
    ensures push1 == Ok && push2 == Ok && push3 == Err(OutOfStackSpace)
    ensures pop1 == Some(2) && pop2 == Some(1)
    ensures push4 == Ok
  {
    var s := new ArrayStack<int>(2);
    pop0 := s.Pop();
    push1 := s.TryPush(1);
    push2 := s.TryPush(2);
    push3 := s.TryPush(3);
    pop1 := s.Pop();
    pop2 := s.Pop();
    push4 := s.TryPush(4);
  }
}
