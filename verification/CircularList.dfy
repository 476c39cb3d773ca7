/** An intrusive circular doubly linked list with a sentinel head. */
module CircularList {
  class Node<T> {
    var data: T
    var next: Node<T>
    var prev: Node<T>

    constructor (data: T)
      ensures this.data == data && next == this && prev == this
    {
      this.data := data;
      next := this;
      prev := this;
    }
  }

  class List<T> {
    const head: Node<T>
    /** The items in order, without the head. */
    ghost var items: seq<Node<T>>

    ghost predicate Valid()
      reads this, head, items
    {
      && head !in items
      && (forall i, j :: 0 <= i < j < |items| ==> items[i] != items[j])
      && Linked([head] + items)
      && head.prev == Last() && Last().next == head
    }

    ghost function Last(): Node<T>
      reads this
    {
      if items == [] then head else items[|items| - 1]
    }

    /** Neighbours in `ring` point at each other. */
    ghost static predicate Linked(ring: seq<Node<T>>)
      reads ring
    {
      forall i :: 0 <= i < |ring| - 1 ==> ring[i].next == ring[i + 1] && ring[i + 1].prev == ring[i]
    }

    ghost function Contents(): seq<T>
      reads this, items
    {
      seq(|items|, i requires 0 <= i < |items| reads this, items => items[i].data)
    }

    /** The neighbours of the k-th item and of the head. */
    lemma {:induction false} Neighbours(k: nat)
      requires Valid()
      ensures head.next == if items == [] then head else items[0]
      ensures k < |items| ==> items[k].next == if k + 1 == |items| then head else items[k + 1]
      ensures k < |items| ==> items[k].prev == if k == 0 then head else items[k - 1]
    {
      var ring := [head] + items;
      assert ring[0] == head;
      if items != [] { assert ring[0].next == ring[1]; }
      if k < |items| {
        assert ring[k].next == ring[k + 1] && ring[k + 1].prev == ring[k];
        if k + 1 < |items| { assert ring[k + 1].next == ring[k + 2]; }
      }
    }

    constructor (filler: T)
      ensures Valid() && fresh(head) && items == []
    {
      head := new Node<T>(filler);
      items := [];
    }

    /** list_init on the head. */
    method Init()
      modifies this, head
      ensures Valid() && items == []
    {
      head.next := head;
      head.prev := head;
      items := [];
    }

    /** list_add_tail */
    method AddTail(item: Node<T>)
      requires Valid() && item != head && item !in items
      modifies this, head, items, item`next, item`prev
      ensures Valid() && items == old(items) + [item]
      ensures Contents() == old(Contents()) + [old(item.data)]
    {
      ghost var last := Last();
      assert last == ([head] + items)[|items|];
      item.next := head;
      item.prev := head.prev;
      head.prev.next := item;
      head.prev := item;
      items := items + [item];
      ghost var ring := [head] + items;
      forall i | 0 <= i < |ring| - 1 ensures ring[i].next == ring[i + 1] && ring[i + 1].prev == ring[i] {
        assert i < |ring| - 2 ==> ring[i] == old([head] + items)[i] && ring[i + 1] == old([head] + items)[i + 1];
      }
    }

    /** list_remove: only the two neighbours are touched. */
    method Remove(item: Node<T>, ghost k: nat)
      requires Valid() && k < |items| && items[k] == item
      modifies this, head, items
      ensures Valid() && items == old(items)[..k] + old(items)[k + 1..]
      ensures item.next == old(item.next) && forall n <- old(items) :: n.data == old(n.data)
      ensures Contents() == old(Contents())[..k] + old(Contents())[k + 1..]
    {
      ghost var ring := [head] + items;
      Neighbours(k);
      item.next.prev := item.prev;
      item.prev.next := item.next;
      items := items[..k] + items[k + 1..];
      ghost var ring' := [head] + items;
      forall i | 0 <= i < |ring'| - 1 ensures ring'[i].next == ring'[i + 1] && ring'[i + 1].prev == ring'[i] {
        assert ring'[i] == if i <= k then ring[i] else ring[i + 1];
        assert ring'[i + 1] == if i < k then ring[i + 1] else ring[i + 2];
      }
      if items == [] {
        assert Last() == head;
      } else {
        assert Last() == if k == |items| then ring[k] else ring[|items| + 1];
      }
    }

    /** Release every item from the front, then initialise. */
    method Clear()
      requires Valid()
      modifies this, head, items
      ensures Valid() && items == []
    {
      var p := head.next;
      Neighbours(0);
      while p != head
        invariant Valid() && p == (if items == [] then head else items[0])
        invariant forall i :: 0 <= i < |items| ==> items[i] in old(items)
        decreases |items|
      {
        var next := p.next;
        Neighbours(0);
        Remove(p, 0);
        p := next;
      }
      Init();
    }
  }
}
