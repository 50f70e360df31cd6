/** The linked structure of list.c, refining the list values of module Lists.

    Every pointer write of the source is here; what a method promises is the
    value of the list before and after, and Valid says that next and previous
    are inverse around the whole ring and that every item knows its list. */
module ListHeap {
  import opened Lists

  class ListItem {
    var itemValue: Tick          // xItemValue
    var next: ListItem?          // pxNext
    var previous: ListItem?      // pxPrevious
    var container: List?         // pxContainer

    /** vListInitialiseItem: the item is on no list. */
    constructor (value: Tick)
      ensures container == null && itemValue == value
    {
      itemValue, next, previous, container := value, null, null, null;
    }
  }

  /** next and previous are inverse along the nodes of ring, except maybe
      between node gap and its successor. */
  ghost predicate LinkedExcept(ring: seq<ListItem>, gap: int)
    reads ring`next, ring`previous
  {
    forall i {:trigger ring[i].next} {:trigger ring[i + 1].previous} :: 0 <= i < |ring| - 1 && i != gap ==>
      ring[i].next == ring[i + 1] && ring[i + 1].previous == ring[i]
  }

  ghost predicate Linked(ring: seq<ListItem>)
    reads ring`next, ring`previous
  {
    LinkedExcept(ring, -1)
  }

  /** A ring: distinct nodes, the first of which closes it. */
  ghost predicate Closed(ring: seq<ListItem>) {
    |ring| > 1 && ring[|ring| - 1] == ring[0] && NoDuplicates(ring[1..])
  }

  ghost function Spliced(ring: seq<ListItem>, pos: nat, x: ListItem): seq<ListItem>
    requires pos < |ring|
  {
    ring[..pos + 1] + [x] + ring[pos + 1..]
  }

  lemma SplicedIsLinked(ring: seq<ListItem>, pos: nat, x: ListItem)
    requires pos + 1 < |ring| && LinkedExcept(ring, pos)
    requires ring[pos].next == x && x.previous == ring[pos]
    requires x.next == ring[pos + 1] && ring[pos + 1].previous == x
    ensures Linked(Spliced(ring, pos, x))
  {
    var r := Spliced(ring, pos, x);
    forall i | 0 <= i < |r| - 1 ensures r[i].next == r[i + 1] && r[i + 1].previous == r[i] {
      if i < pos {
        assert ring[i].next == ring[i + 1];
      } else if i > pos + 1 {
        assert ring[i - 1].next == ring[i];
      }
    }
  }

  /** The pointer writes that end vListInsert. */
  method LinkAfter(node: ListItem, x: ListItem, ghost ring: seq<ListItem>, ghost pos: nat)
    requires Closed(ring) && Linked(ring) && x !in ring
    requires pos + 1 < |ring| && node == ring[pos]
    modifies x`next, x`previous, ring`next, ring`previous
    ensures Linked(Spliced(ring, pos, x))
  {
    assert ring[pos].next == ring[pos + 1];
    assert forall i, j :: 0 <= i < j < |ring| - 1 ==> ring[i + 1] == ring[1..][i] && ring[j + 1] == ring[1..][j];
    x.next := node.next;
    x.next.previous := x;
    x.previous := node;
    node.next := x;
    SplicedIsLinked(ring, pos, x);
  }

  /** The pointer writes of vListInsertEnd. */
  method LinkBefore(node: ListItem, x: ListItem, ghost ring: seq<ListItem>, ghost pos: nat)
    requires Closed(ring) && Linked(ring) && x !in ring
    requires pos + 1 < |ring| && node == ring[pos + 1]
    modifies x`next, x`previous, ring`next, ring`previous
    ensures Linked(Spliced(ring, pos, x))
  {
    assert ring[pos + 1].previous == ring[pos];
    assert forall i, j :: 0 <= i < j < |ring| - 1 ==> ring[i + 1] == ring[1..][i] && ring[j + 1] == ring[1..][j];
    x.next := node;
    x.previous := node.previous;
    node.previous.next := x;
    node.previous := x;
    SplicedIsLinked(ring, pos, x);
  }

  /** The pointer writes of uxListRemove. */
  method Unlink(x: ListItem, ghost ring: seq<ListItem>, ghost pos: nat)
    requires Closed(ring) && Linked(ring)
    requires 0 < pos < |ring| - 1 && x == ring[pos]
    modifies ring`next, ring`previous
    ensures Linked(Without(ring, pos))
    ensures x.previous == ring[pos - 1]
  {
    assert ring[pos].next == ring[pos + 1] && ring[pos - 1].next == ring[pos];
    assert forall i, j :: 0 <= i < j < |ring| - 1 ==> ring[i + 1] == ring[1..][i] && ring[j + 1] == ring[1..][j];
    x.next.previous := x.previous;
    x.previous.next := x.next;
    var r := Without(ring, pos);
    forall i | 0 <= i < |r| - 1 ensures r[i].next == r[i + 1] && r[i + 1].previous == r[i] {
      if i < pos - 1 {
        assert ring[i].next == ring[i + 1];
      } else if i >= pos {
        assert ring[i + 1].next == ring[i + 2];
      }
    }
  }

  lemma RingWithout(end: ListItem, was: seq<ListItem>, i: nat)
    requires i < |was|
    ensures Without([end] + was + [end], i + 1) == [end] + Without(was, i) + [end]
  {
    WithoutSplit([end] + was[..i], was[i], was[i + 1..] + [end]);
    assert [end] + was + [end] == [end] + was[..i] + [was[i]] + (was[i + 1..] + [end]);
  }

  /** pxIndex stays where it was, or steps back from a node that is removed. */
  lemma IndexSteps(ring: seq<ListItem>, i: nat, at: nat)
    requires Closed(ring) && i + 2 < |ring| && at + 1 < |ring|
    ensures ring[at] == ring[i + 1] <==> at == i + 1
    ensures Without(ring, i + 1)[if i < at then at - 1 else at] == if at == i + 1 then ring[i] else ring[at]
  {
    assert forall k :: 0 <= k < |ring| - 1 ==> ring[k + 1] == ring[1..][k];
  }

  /** pxIndex stays on its node when another one is spliced in. */
  lemma IndexStays(end: ListItem, was: seq<ListItem>, pos: nat, x: ListItem, at: nat)
    requires pos <= |was| && at <= |was|
    ensures var r := [end] + (was[..pos] + [x] + was[pos..]) + [end];
            ([end] + was + [end])[at] == r[if pos < at then at + 1 else at]
  {
  }

  class List {
    var numberOfItems: nat       // uxNumberOfItems
    var index: ListItem          // pxIndex
    const listEnd: ListItem      // xListEnd
    ghost var items: seq<ListItem>
    ghost var at: nat

    /** The nodes in order, from the end marker round to the end marker. */
    ghost function Ring(): seq<ListItem>
      reads this
    {
      [listEnd] + items + [listEnd]
    }

    ghost predicate Valid()
      reads this, listEnd, items
    {
      && NoDuplicates(items) && at <= |items| && index == Ring()[at]
      && numberOfItems == |items|
      && listEnd.itemValue == MAX_DELAY && listEnd.container == null
      && (forall k :: 0 <= k < |items| ==> items[k].container == this)
      && Linked(Ring())
    }

    ghost function Value(): ListV<ListItem>
      reads this
    {
      ListV(items, at)
    }

    ghost function Keys(): seq<nat>
      reads this, items
    {
      seq(|items|, i requires 0 <= i < |items| reads this, items => items[i].itemValue)
    }

    lemma SplicedKeys(keys: seq<nat>, was: seq<ListItem>, x: ListItem, pos: nat)
      requires pos <= |was| == |keys| && items == was[..pos] + [x] + was[pos..]
      requires forall i :: 0 <= i < |was| ==> keys[i] == was[i].itemValue as nat
      ensures Keys() == keys[..pos] + [x.itemValue as nat] + keys[pos..]
    {
      forall i | 0 <= i < |items| ensures Keys()[i] == (keys[..pos] + [x.itemValue as nat] + keys[pos..])[i] {
        SplicedAt(keys, pos, x.itemValue, i);
        SplicedAt(was, pos, x, i);
      }
    }

    /** vListInitialise */
    constructor ()
      ensures Valid() && Value() == ListV([], 0) && fresh(listEnd)
    {
      var end := new ListItem(MAX_DELAY);
      listEnd, index, numberOfItems, items, at := end, end, 0, [], 0;
      new;
      end.next, end.previous := end, end;
    }

    lemma RingIsClosed()
      requires Valid()
      ensures Closed(Ring())
    {
      assert Ring()[1..] == items + [listEnd];
    }

    /** Valid once x has been spliced in behind node pos and everything but the
        links of the old list is as the caller says. */
    lemma InsertedIsValid(was: seq<ListItem>, pos: nat, x: ListItem)
      requires NoDuplicates(was) && pos <= |was| && x !in was
      requires items == InsertAt(ListV(was, 0), pos, x).items
      requires Linked(Spliced([listEnd] + was + [listEnd], pos, x))
      requires listEnd.itemValue == MAX_DELAY && listEnd.container == null
      requires x.container == this && forall k :: 0 <= k < |was| ==> was[k].container == this
      requires at <= |items| && index == Ring()[at] && numberOfItems == |items|
      ensures Valid()
    {
      InsertAtMembers(ListV(was, 0), pos, x);
      assert Ring() == Spliced([listEnd] + was + [listEnd], pos, x);
    }

    /** Valid once x has been taken out of place i of the old list. */
    lemma RemovedIsValid(was: seq<ListItem>, i: nat, x: ListItem)
      requires NoDuplicates(was) && i < |was| && x == was[i]
      requires items == Without(was, i)
      requires Linked(Without([listEnd] + was + [listEnd], i + 1))
      requires listEnd.itemValue == MAX_DELAY && listEnd.container == null
      requires forall k :: 0 <= k < |was| && k != i ==> was[k].container == this
      requires at <= |items| && numberOfItems == |items|
      requires index == Without([listEnd] + was + [listEnd], i + 1)[at]
      ensures Valid()
    {
      IndexOfUnique(was, x, i);
      RemoveMembers(ListV(was, 0), x);
      RingWithout(listEnd, was, i);
    }

    /** vListInsertEnd */
    method InsertAtEnd(x: ListItem)
      requires Valid() && x.container == null && x != listEnd
      modifies this, listEnd`next, listEnd`previous, items`next, items`previous
      modifies x`next, x`previous, x`container
      ensures Valid() && Value() == InsertEnd(old(Value()), x) && x.container == this
    {
      ghost var was, ring, pos := items, Ring(), if at == 0 then |items| else at - 1;
      RingIsClosed();
      assert x !in ring;
      assert index == ring[pos + 1];
      LinkBefore(index, x, ring, pos);
      x.container := this;
      numberOfItems := numberOfItems + 1;
      items := was[..pos] + [x] + was[pos..];
      at := if pos < at then at + 1 else at;
      InsertedIsValid(was, pos, x);
    }

    /** The scan of vListInsert: it stops at the end marker at the latest,
        because portMAX_DELAY itself never enters the loop. */
    method FindPosition(value: Tick) returns (node: ListItem, ghost pos: nat)
      requires Valid()
      ensures pos == InsertPosition(Keys(), value) && node == Ring()[pos]
    {
      ghost var ring, keys := Ring(), Keys();
      if value == MAX_DELAY {
        assert ring[|items|].next == ring[|items| + 1];
        node, pos := listEnd.previous, |items|;
      } else {
        node, pos := listEnd, 0;
        assert ring[0].next == ring[1];
        while node.next.itemValue <= value
          invariant pos <= |items| && node == ring[pos] && node.next == ring[pos + 1]
          invariant forall i :: 0 <= i < pos ==> keys[i] <= value
          decreases |items| - pos
        {
          node, pos := node.next, pos + 1;
          assert ring[pos].next == ring[pos + 1];
        }
      }
      InsertPositionIs(keys, value, pos);
    }

    method Attach(node: ListItem, x: ListItem, ghost pos: nat)
      requires Valid() && x.container == null && x != listEnd
      requires pos <= |items| && node == Ring()[pos]
      modifies this, listEnd`next, listEnd`previous, items`next, items`previous
      modifies x`next, x`previous, x`container
      ensures Valid() && x.container == this && Value() == InsertAt(old(Value()), pos, x)
    {
      hide LinkedExcept, Linked, NoDuplicates, Closed;
      ghost var was, ring := items, Ring();
      RingIsClosed();
      assert x !in ring;
      IndexStays(listEnd, was, pos, x, at);
      LinkAfter(node, x, ring, pos);
      x.container := this;
      numberOfItems := numberOfItems + 1;
      items := was[..pos] + [x] + was[pos..];
      at := if pos < at then at + 1 else at;
      InsertedIsValid(was, pos, x);
    }

    /** vListInsert */
    method Insert(x: ListItem)
      requires Valid() && x.container == null && x != listEnd
      modifies this, listEnd`next, listEnd`previous, items`next, items`previous
      modifies x`next, x`previous, x`container
      ensures Valid() && x.container == this
      ensures Value() == InsertAt(old(Value()), InsertPosition(old(Keys()), x.itemValue), x)
      ensures old(Sorted(Keys())) ==> Sorted(Keys())
    {
      var node, pos := FindPosition(x.itemValue);
      ghost var keys, was := Keys(), items;
      Attach(node, x, pos);
      hide Sorted, NoDuplicates, LinkedExcept, Linked;
      SplicedKeys(keys, was, x, pos);
      if Sorted(keys) {
        InsertKeepsSorted(keys, x.itemValue);
      }
    }

    /** uxListRemove, on the list that the item names as its container */
    method RemoveItem(x: ListItem) returns (left: nat)
      requires Valid() && x in items
      modifies this, x`container, listEnd`next, listEnd`previous, items`next, items`previous
      ensures Valid() && x.container == null && left == |items|
      ensures Value() == Remove(old(Value()), x)
    {
      hide LinkedExcept, Linked, Closed, IndexOf;
      ghost var was, ring, i := items, Ring(), IndexOf(items, x);
      RingIsClosed();
      IndexSteps(ring, i, at);
      Unlink(x, ring, i + 1);
      if index == x {
        index := x.previous;
      }
      numberOfItems := numberOfItems - 1;
      items := Without(was, i);
      at := if i < at then at - 1 else at;
      x.container := null;
      RemovedIsValid(was, i, x);
      left := numberOfItems;
    }

    /** listGET_OWNER_OF_NEXT_ENTRY */
    method GetNext() returns (x: ListItem)
      requires Valid() && items != []
      modifies `index, `at
      ensures Valid() && Value() == Advance(old(Value())) && x == Next(old(Value()))
    {
      ghost var ring := Ring();
      assert ring[at].next == ring[at + 1] && ring[0].next == ring[1];
      index := index.next;
      if index == listEnd {
        index := listEnd.next;
      }
      at := NextIndex(Value());
      x := index;
    }
  }

  /** An item is on one list only: valid lists with their own end markers
      share no node, so an operation on one leaves every other one valid. */
  lemma DisjointLists(a: List, b: List)
    requires a.Valid() && b.Valid() && a != b && a.listEnd != b.listEnd
    ensures forall x :: x in a.Ring() ==> x !in b.Ring()
  {
  }

  /** listREMOVE_ITEM, then listINSERT_END on another list, as every change of
      a task's state does: each list sees its own operation only. */
  method MoveItem(from: List, to: List, x: ListItem)
    requires from.Valid() && to.Valid() && from != to && from.listEnd != to.listEnd && x in from.items
    modifies from, from.listEnd`next, from.listEnd`previous, from.items`next, from.items`previous
    modifies to, to.listEnd`next, to.listEnd`previous, to.items`next, to.items`previous, x`container
    ensures from.Valid() && from.Value() == Remove(old(from.Value()), x)
    ensures to.Valid() && to.Value() == InsertEnd(old(to.Value()), x) && x.container == to
  {
    hide LinkedExcept, NoDuplicates, Remove, InsertEnd, InsertAt;
    DisjointLists(from, to);
    ghost var was := from.items;
    RemovedLeaves(from, x);
    var _ := from.RemoveItem(x);
    DisjointLists(from, to);
    to.InsertAtEnd(x);
  }

  lemma RemovedLeaves(l: List, x: ListItem)
    requires l.Valid() && x in l.items
    ensures forall y :: y in Remove(l.Value(), x).items <==> y != x && y in l.items
  {
    RemoveMembers(l.Value(), x);
  }
}
