/**
 The slot allocator that gives ids to transaction states (src/ptr_array.c). The
 growing capacity of the C array is not visible to its users.
 */
module PtrArrays {
  import opened Store

  /** The first free slot, or the end of the array. */
  function FirstFree<T>(slots: seq<Option<T>>): (n: nat)
    ensures n <= |slots|
    ensures n < |slots| ==> slots[n].None?
    ensures forall i :: 0 <= i < n ==> slots[i].Some?
  {
    if slots == [] || slots[0].None? then 0
    else
      var n := FirstFree(slots[1..]);
      assert forall i :: 1 <= i < n + 1 ==> slots[i] == slots[1..][i - 1];
      n + 1
  }

  function Placed<T>(slots: seq<Option<T>>, value: T): (r: seq<Option<T>>)
    ensures var n := FirstFree(slots);
      && n < |r| && r[n] == Some(value) && |slots| <= |r|
      && forall i :: 0 <= i < |r| && i != n ==> i < |slots| && r[i] == slots[i]
  {
    var n := FirstFree(slots);
    if n < |slots| then slots[n := Some(value)] else slots + [Some(value)]
  }

  lemma FirstFreeUnique<T>(slots: seq<Option<T>>, n: nat)
    requires n <= |slots| && (n < |slots| ==> slots[n].None?) && forall i :: 0 <= i < n ==> slots[i].Some?
    ensures n == FirstFree(slots)
  {
  }

  class PtrArray<T> {
    var data: seq<Option<T>>

    constructor ()
      ensures data == []
    {
      data := [];
    }

    method Put(value: T) returns (id: nat)
      modifies this
      ensures id == FirstFree(old(data))
      ensures data == Placed(old(data), value)
    {
      var i := 0;
      while i < |data|
        invariant 0 <= i <= |data| && data == old(data)
        invariant forall j :: 0 <= j < i ==> data[j].Some?
      {
        if data[i].None? {
          FirstFreeUnique(data, i);
          data := data[i := Some(value)];
          return i;
        }
        i := i + 1;
      }
      FirstFreeUnique(data, i);
      id := |data|;
      data := data + [Some(value)];
    }

    method Set(id: nat, value: Option<T>)
      requires id < |data|
      modifies this
      ensures data == old(data)[id := value]
    {
      data := data[id := value];
    }
  }
}
