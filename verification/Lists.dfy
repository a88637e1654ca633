/**
 The linked list behind the run queue and the waiting queues (src/cpu/list.c):
 items are pushed at the tail, shifted from the head, and a woken waiter is put back
 at the head. The same item object moves from a waiting queue to the run queue.
 */
module Lists {

  class ListItem {
    const event: nat
    var next: ListItem?

    constructor (event: nat)
      ensures this.event == event && next == null
    {
      this.event := event;
      next := null;
    }
  }

  ghost function After(spine: seq<ListItem>, i: nat): ListItem? { if i + 1 < |spine| then spine[i + 1] else null }

  lemma ShiftedAfter(item: ListItem, was: seq<ListItem>)
    ensures After([item] + was, 0) == if was == [] then null else was[0]
    ensures forall i :: 1 <= i <= |was| ==>
      ([item] + was)[i] == was[i - 1] && After([item] + was, i) == After(was, i - 1)
  {
  }

  class CpuList {
    var head: ListItem?
    var tail: ListItem?
    var size: nat
    ghost var spine: seq<ListItem>

    ghost predicate Valid()
      reads this, spine
    {
      && size == |spine|
      && head == (if spine == [] then null else spine[0])
      && tail == (if spine == [] then null else spine[|spine| - 1])
      && (forall i :: 0 <= i < |spine| ==> spine[i].next == After(spine, i))
      && forall i, j :: 0 <= i < j < |spine| ==> spine[i] != spine[j]
    }

    constructor ()
      ensures Valid() && spine == []
    {
      head, tail, size, spine := null, null, 0, [];
    }

    method IsEmpty() returns (r: bool)
      requires Valid()
      ensures r == (spine == [])
    {
      r := head == null;
    }

    method Push(item: ListItem)
      requires Valid() && item !in spine && item.next == null
      modifies this, spine
      ensures Valid() && spine == old(spine) + [item]
    {
      if tail == null {
        head := item;
      } else {
        tail.next := item;
      }
      tail := item;
      size := size + 1;
      spine := spine + [item];
    }

    method Shift() returns (item: ListItem?)
      requires Valid()
      modifies this, spine
      ensures Valid()
      ensures old(spine) == [] ==> item == null && spine == []
      ensures old(spine) != [] ==> item == old(spine)[0] && spine == old(spine)[1..] && item.next == null
    {
      item := head;
      if item == null {
        return;
      }
      ghost var was := spine;
      assert item == was[0] && item.next == After(was, 0);
      head := item.next;
      if tail == item {
        tail := null;
      }
      size := size - 1;
      item.next := null;
      spine := spine[1..];
      assert forall i :: 0 <= i < |spine| ==>
        spine[i] == was[i + 1] && spine[i] != item && After(spine, i) == After(was, i + 1);
    }

    method Unshift(item: ListItem)
      requires Valid() && item !in spine
      modifies this, item
      ensures Valid() && spine == [item] + old(spine)
    {
      ghost var was := spine;
      assert forall i :: 0 <= i < |was| ==> was[i] in was;
      if head == null {
        tail := item;
        item.next := null;
      } else {
        item.next := head;
      }
      head := item;
      size := size + 1;
      spine := [item] + spine;
      ShiftedAfter(item, was);
    }
  }

  /** A list stays valid as long as neither it nor its items change. */
  twostate lemma StaysValid(l: CpuList)
    requires old(l.Valid()) && unchanged(l) && forall x :: x in l.spine ==> unchanged(x)
    ensures l.Valid()
  {
    assert forall i :: 0 <= i < |l.spine| ==> l.spine[i] in l.spine;
  }

  lemma FirstLeaves(item: ListItem, was: seq<ListItem>, rest: seq<ListItem>)
    requires was != [] && item == was[0] && rest == was[1..] && forall i, j :: 0 <= i < j < |was| ==> was[i] != was[j]
    ensures item in was && item !in rest && forall x :: x in rest ==> x in was
  {
  }

  ghost predicate Disjoint(a: seq<ListItem>, b: seq<ListItem>) { forall x :: x in a ==> x !in b }

  /** The first waiter leaves its queue. */
  method TakeFirst(waiters: CpuList, queue: CpuList) returns (item: ListItem)
    requires waiters != queue && waiters.Valid() && queue.Valid() && waiters.spine != []
    requires Disjoint(waiters.spine, queue.spine)
    modifies waiters, waiters.spine
    ensures waiters.Valid() && queue.Valid() && queue.spine == old(queue.spine)
    ensures item == old(waiters.spine)[0] && waiters.spine == old(waiters.spine)[1..]
    ensures Disjoint([item], waiters.spine + queue.spine) && Disjoint(waiters.spine, queue.spine)
  {
    item := waiters.Shift();
    StaysValid(queue);
    FirstLeaves(item, old(waiters.spine), waiters.spine);
  }

  /** The hand-over of an unlock: the first waiter moves to the front of the run queue. */
  method HandOver(waiters: CpuList, queue: CpuList)
    requires waiters != queue && waiters.Valid() && queue.Valid()
    requires Disjoint(waiters.spine, queue.spine)
    modifies waiters, waiters.spine, queue
    ensures waiters.Valid() && queue.Valid()
    ensures var was := old(waiters.spine);
      && waiters.spine == (if was == [] then [] else was[1..])
      && queue.spine == (if was == [] then [] else [was[0]]) + old(queue.spine)
    ensures Disjoint(waiters.spine, queue.spine)
  {
    var empty := waiters.IsEmpty();
    if !empty {
      var item := TakeFirst(waiters, queue);
      assert item in [item];
      label taken:
      queue.Unshift(item);
      StaysValid@taken(waiters);
    }
  }
}
