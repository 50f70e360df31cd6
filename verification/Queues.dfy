/** The byte ring of queue.c, refining a bounded deque of items.

    Pointers into the storage area are offsets from pcHead. A queue whose item
    size is 0 is a semaphore: only its count moves, and an overwrite counts up
    even when the queue is full. */
module Queues {
  import opened Division
  import opened Lists

  type byte = b: int | 0 <= b < 256

  // ----- slots -------------------------------------------------------------------------

  /** The slot i places after slot s in a ring of n. */
  function At(s: nat, i: nat, n: nat): (r: nat)
    requires s < n && i <= n + 1
    ensures r < n
  {
    if s + i < n then s + i else if s + i < 2 * n then s + i - n else s + i - 2 * n
  }

  lemma AtIsModulo(s: nat, i: nat, n: nat)
    requires s < n && i <= n + 1
    ensures At(s, i, n) == (s + i) % n
  {
    QuotientIs(s + i, n, if s + i < n then 0 else if s + i < 2 * n then 1 else 2);
  }

  /** Where slot s of size z begins. */
  function Offset(s: nat, z: nat): nat {
    s * z
  }

  /** Slots of size z do not overlap, and follow each other closely. */
  lemma SlotsApart(s: nat, s': nat, z: nat)
    requires s < s'
    ensures Offset(s, z) + z <= Offset(s', z)
    ensures s' == s + 1 ==> Offset(s, z) + z == Offset(s', z)
  {
    var gap := s' - s - 1;
    assert s' * z == s * z + z + gap * z;
    assert gap * z >= 0;
  }

  lemma NoSize(z: nat)
    ensures z == 0 ==> forall s: nat :: Offset(s, z) == 0
  {
  }

  datatype Position = ToBack | ToFront | Overwrite

  // ----- the ring as a value -------------------------------------------------------------

  /** read is the slot of pcReadFrom, the one before the oldest item. */
  datatype Ring = Ring(bytes: seq<byte>, length: nat, itemSize: nat, read: nat, count: nat)

  ghost predicate FineRing(r: Ring) {
    && r.length >= 1 && r.read < r.length && (r.itemSize > 0 ==> r.count <= r.length)
    && |r.bytes| == Offset(r.length, r.itemSize)
  }

  lemma SlotFits(r: Ring, s: nat)
    requires FineRing(r) && s < r.length
    ensures Offset(s, r.itemSize) + r.itemSize <= |r.bytes|
  {
    hide Offset;
    SlotsApart(s, r.length, r.itemSize);
  }

  ghost function Slot(r: Ring, s: nat): (item: seq<byte>)
    requires FineRing(r) && s < r.length
    ensures |item| == r.itemSize
  {
    hide Offset;
    SlotFits(r, s);
    r.bytes[Offset(s, r.itemSize)..Offset(s, r.itemSize) + r.itemSize]
  }

  /** The items, oldest first. */
  ghost function Items(r: Ring): (items: seq<seq<byte>>)
    requires FineRing(r)
    ensures |items| == r.count
    ensures r.itemSize > 0 ==> forall i :: 0 <= i < r.count ==> items[i] == Slot(r, At(r.read, i + 1, r.length))
    ensures r.itemSize == 0 ==> forall i :: 0 <= i < r.count ==> items[i] == []
  {
    hide Slot;
    seq(r.count, i requires 0 <= i < r.count => if r.itemSize == 0 then [] else Slot(r, At(r.read, i + 1, r.length)))
  }

  /** The slot of pcWriteTo. */
  ghost function WriteSlot(r: Ring): (s: nat)
    requires FineRing(r)
    ensures s < r.length
  {
    if r.itemSize == 0 then 0 else At(r.read, r.count + 1, r.length)
  }

  ghost function Overlay(bytes: seq<byte>, offset: nat, item: seq<byte>): (r: seq<byte>)
    requires offset + |item| <= |bytes|
    ensures |r| == |bytes|
  {
    bytes[..offset] + item + bytes[offset + |item|..]
  }

  ghost function Store(r: Ring, s: nat, item: seq<byte>): (r': Ring)
    requires FineRing(r) && s < r.length && |item| == r.itemSize
    ensures FineRing(r') && r' == r.(bytes := r'.bytes)
  {
    hide Offset;
    SlotFits(r, s);
    r.(bytes := Overlay(r.bytes, Offset(s, r.itemSize), item))
  }

  /** A store changes its own slot and no other. */
  lemma StoreSlot(r: Ring, s: nat, item: seq<byte>, s': nat)
    requires FineRing(r) && s < r.length && |item| == r.itemSize && s' < r.length
    ensures Slot(Store(r, s, item), s') == if s' == s then item else Slot(r, s')
  {
    hide Overlay, Offset;
    SlotFits(r, s);
    SlotFits(r, s');
    if s' < s {
      SlotsApart(s', s, r.itemSize);
    } else if s < s' {
      SlotsApart(s, s', r.itemSize);
    }
    OverlaySlice(r.bytes, Offset(s, r.itemSize), item, Offset(s', r.itemSize));
  }

  lemma OverlaySlice(bytes: seq<byte>, offset: nat, item: seq<byte>, from: nat)
    requires offset + |item| <= |bytes| && from + |item| <= |bytes|
    ensures from == offset ==> Overlay(bytes, offset, item)[from..from + |item|] == item
    ensures from + |item| <= offset || offset + |item| <= from ==>
              Overlay(bytes, offset, item)[from..from + |item|] == bytes[from..from + |item|]
  {
  }

  lemma SameSlots(r: Ring, r': Ring)
    requires FineRing(r) && FineRing(r') && r'.bytes == r.bytes && r'.length == r.length && r'.itemSize == r.itemSize
    ensures forall s :: 0 <= s < r.length ==> Slot(r', s) == Slot(r, s)
  {
  }

  ghost function Counted(r: Ring): (r': Ring)
    requires FineRing(r) && r.itemSize == 0
    ensures FineRing(r')
  {
    r.(count := r.count + 1)
  }

  ghost function SentToBack(r: Ring, item: seq<byte>): (r': Ring)
    requires FineRing(r) && r.count < r.length && |item| == r.itemSize
    ensures FineRing(r')
  {
    if r.itemSize == 0 then Counted(r) else Store(r, WriteSlot(r), item).(count := r.count + 1)
  }

  ghost function SentToFront(r: Ring, item: seq<byte>): (r': Ring)
    requires FineRing(r) && r.count < r.length && |item| == r.itemSize
    ensures FineRing(r')
  {
    if r.itemSize == 0 then Counted(r)
    else Store(r, r.read, item).(count := r.count + 1, read := if r.read == 0 then r.length - 1 else r.read - 1)
  }

  /** Overwriting keeps the count of a full queue, unless items have no size. */
  ghost function Overwritten(r: Ring, item: seq<byte>): (r': Ring)
    requires FineRing(r) && r.length == 1 && |item| == r.itemSize
    ensures FineRing(r')
  {
    if r.itemSize == 0 then Counted(r) else Store(r, r.read, item).(count := 1)
  }

  ghost function Received(r: Ring): (r': Ring)
    requires FineRing(r) && r.count > 0
    ensures FineRing(r')
  {
    if r.itemSize == 0 then r.(count := r.count - 1)
    else r.(count := r.count - 1, read := At(r.read, 1, r.length))
  }

  /** Send-to-back appends, and the write slot stays read slot + count + 1. */
  lemma BackAppends(r: Ring, item: seq<byte>)
    requires FineRing(r) && r.count < r.length && |item| == r.itemSize
    ensures Items(SentToBack(r, item)) == Items(r) + [item]
    ensures r.itemSize > 0 ==> WriteSlot(SentToBack(r, item)) == At(WriteSlot(r), 1, r.length)
  {
    hide Items, Slot, Store, Overlay;
    var r', w := SentToBack(r, item), WriteSlot(r);
    if r.itemSize == 0 {
      OnlyCounted(r);
    } else {
      SameSlots(Store(r, w, item), r');
      forall i | 0 <= i < r'.count ensures Items(r')[i] == (Items(r) + [item])[i] {
        StoreSlot(r, w, item, At(r.read, i + 1, r.length));
      }
    }
  }

  lemma OnlyCounted(r: Ring)
    requires FineRing(r) && r.itemSize == 0
    ensures Items(Counted(r)) == Items(r) + [[]] == [[]] + Items(r)
  {
    hide Items;
  }

  /** Send-to-front prepends and leaves the write slot alone. */
  lemma FrontPrepends(r: Ring, item: seq<byte>)
    requires FineRing(r) && r.count < r.length && |item| == r.itemSize
    ensures Items(SentToFront(r, item)) == [item] + Items(r)
    ensures WriteSlot(SentToFront(r, item)) == WriteSlot(r)
  {
    hide Items, Slot, Store, Overlay;
    var r' := SentToFront(r, item);
    if r.itemSize == 0 {
      OnlyCounted(r);
    } else {
      SameSlots(Store(r, r.read, item), r');
      forall i | 0 <= i < r'.count ensures Items(r')[i] == ([item] + Items(r))[i] {
        StoreSlot(r, r.read, item, At(r.read, i, r.length));
      }
    }
  }

  /** What an accepted item does to the deque. */
  function Placed(items: seq<seq<byte>>, item: seq<byte>, position: Position): seq<seq<byte>> {
    match position
    case ToBack => items + [item]
    case ToFront => [item] + items
    case Overwrite => if item == [] then items + [item] else [item]
  }

  lemma OverwriteReplaces(r: Ring, item: seq<byte>)
    requires FineRing(r) && r.length == 1 && |item| == r.itemSize
    ensures Items(Overwritten(r, item)) == Placed(Items(r), item, Overwrite)
    ensures WriteSlot(Overwritten(r, item)) == WriteSlot(r)
  {
    hide Items, Slot, Store, Overlay;
    if r.itemSize == 0 {
      OnlyCounted(r);
    } else {
      SameSlots(Store(r, r.read, item), Overwritten(r, item));
      StoreSlot(r, r.read, item, 0);
    }
  }

  /** xQueueOverwrite is meant to leave exactly the new item in a queue of one.
      It does, unless the queue is a semaphore that has been given already. */
  lemma OverwriteIsExact(r: Ring, item: seq<byte>)
    requires FineRing(r) && r.length == 1 && |item| == r.itemSize
    ensures var r' := Overwritten(r, item);
            r'.count <= r'.length && Items(r') == [item] <==> !(r.itemSize == 0 && r.count >= 1)
  {
    hide Items, Store;
    OverwriteReplaces(r, item);
  }

  /** A given binary semaphore that is overwritten counts two. */
  lemma OverwriteExample()
    ensures var given := Ring([], 1, 0, 0, 1);
            FineRing(given) && Overwritten(given, []).count == 2 && Items(Overwritten(given, [])) == [[], []]
  {
    hide Items;
    OverwriteReplaces(Ring([], 1, 0, 0, 1), []);
  }

  /** Receiving takes the oldest item off. */
  lemma ReceiveTakesHead(r: Ring)
    requires FineRing(r) && r.count > 0
    ensures Items(r) == [Slot(r, At(r.read, 1, r.length))] + Items(Received(r))
    ensures WriteSlot(Received(r)) == WriteSlot(r)
  {
    hide Items, Slot;
    SameSlots(r, Received(r));
    var s := [Slot(r, At(r.read, 1, r.length))] + Items(Received(r));
    forall i | 0 <= i < r.count ensures Items(r)[i] == s[i] {
      assert r.itemSize > 0 && i > 0 ==> At(At(r.read, 1, r.length), i, r.length) == At(r.read, i + 1, r.length);
    }
  }

  // ----- the queue object ------------------------------------------------------------------

  class Queue {
    const storage: array<byte>   // pcHead
    const length: nat            // uxLength
    const itemSize: nat          // uxItemSize
    var writeTo: int             // pcWriteTo
    var readFrom: int            // u.xQueue.pcReadFrom
    var messagesWaiting: nat     // uxMessagesWaiting
    ghost var read: nat

    ghost function Value(): Ring
      reads this, storage
    {
      Ring(storage[..], length, itemSize, read, messagesWaiting)
    }

    ghost predicate Valid()
      reads this, storage
    {
      && FineRing(Value())
      && readFrom == Offset(read, itemSize)
      && writeTo == Offset(WriteSlot(Value()), itemSize)
    }

    ghost function Contents(): seq<seq<byte>>
      requires Valid()
      reads this, storage
    {
      Items(Value())
    }

    function Tail(): int {
      storage.Length
    }

    /** xQueueGenericCreate with xQueueGenericReset */
    constructor (queueLength: nat, size: nat)
      requires queueLength >= 1
      ensures Valid() && Contents() == [] && length == queueLength && itemSize == size && fresh(storage)
    {
      length, itemSize := queueLength, size;
      storage := new byte[queueLength * size];
      writeTo, readFrom, messagesWaiting, read := 0, (queueLength - 1) * size, 0, queueLength - 1;
    }

    /** xQueueGenericReset, except for the task it may unblock */
    method Reset()
      requires Valid()
      modifies this
      ensures Valid() && Contents() == []
    {
      messagesWaiting, writeTo := 0, 0;
      readFrom, read := (length - 1) * itemSize, length - 1;
    }

    /** memcpy into the storage area */
    method CopyIn(offset: int, item: seq<byte>)
      requires 0 <= offset <= offset + |item| <= storage.Length
      modifies storage
      ensures storage[..] == Overlay(old(storage[..]), offset, item)
    {
      forall i | 0 <= i < |item| {
        storage[offset + i] := item[i];
      }
    }

    lemma OneOn(s: nat)
      requires FineRing(Value()) && s < length
      ensures Offset(s, itemSize) + itemSize == Offset(s + 1, itemSize) <= storage.Length
      ensures s + 1 < length && itemSize > 0 ==> Offset(s + 1, itemSize) < storage.Length
      ensures s + 1 == length ==> Offset(s + 1, itemSize) == storage.Length
      ensures Offset(0, itemSize) == 0
    {
      SlotsApart(s, s + 1, itemSize);
      SlotFits(Value(), s);
      if s + 1 < length {
        SlotFits(Value(), s + 1);
      }
    }

    lemma OneBack(s: nat)
      requires FineRing(Value()) && s < length
      ensures s > 0 ==> Offset(s, itemSize) - itemSize == Offset(s - 1, itemSize) >= 0
      ensures storage.Length - itemSize == Offset(length - 1, itemSize) && Offset(0, itemSize) == 0
    {
      SlotsApart(length - 1, length, itemSize);
      if s > 0 {
        SlotsApart(s - 1, s, itemSize);
      }
    }

    /** prvCopyDataToQueue */
    method CopyDataToQueue(item: seq<byte>, position: Position)
      requires Valid() && |item| == itemSize && HasRoom(position)
      modifies this, storage
      ensures Valid() && Contents() == Placed(old(Contents()), item, position)
    {
      hide Overlay, Slot, Items, Offset;
      ghost var v := Value();
      var waiting := messagesWaiting;
      SlotFits(v, WriteSlot(v));
      SlotFits(v, v.read);
      OneOn(WriteSlot(v));
      OneBack(v.read);
      NoSize(itemSize);
      if itemSize == 0 {
        OnlyCounted(v);
      } else if position == ToBack {
        CopyIn(writeTo, item);
        writeTo := writeTo + itemSize;
        if writeTo >= Tail() {
          writeTo := 0;
        }
        BackAppends(v, item);
      } else {
        CopyIn(readFrom, item);
        readFrom := readFrom - itemSize;
        if readFrom < 0 {
          readFrom := Tail() - itemSize;
        }
        if position == Overwrite {
          if waiting > 0 {
            waiting := waiting - 1;
          }
          OverwriteReplaces(v, item);
        } else {
          FrontPrepends(v, item);
          read := if read == 0 then length - 1 else read - 1;
        }
      }
      messagesWaiting := waiting + 1;
      assert Value() == if itemSize == 0 then Counted(v)
                        else if position == ToBack then SentToBack(v, item)
                        else if position == ToFront then SentToFront(v, item) else Overwritten(v, item);
    }

    predicate HasRoom(position: Position)
      reads this
    {
      if position == Overwrite then length == 1 else messagesWaiting < length
    }

    /** prvCopyDataFromQueue; the caller adjusts the count. */
    method CopyDataFromQueue() returns (item: seq<byte>)
      requires Valid() && messagesWaiting > 0
      modifies `readFrom
      ensures item == old(Contents()[0])
      ensures readFrom == Offset(At(read, 1, length), itemSize)
    {
      hide Overlay, Items, Offset;
      item := [];
      ReceiveTakesHead(Value());
      OneOn(read);
      NoSize(itemSize);
      SlotFits(Value(), At(read, 1, length));
      if itemSize != 0 {
        readFrom := readFrom + itemSize;
        if readFrom >= Tail() {
          readFrom := 0;
        }
        item := storage[readFrom..readFrom + itemSize];
      }
    }

    /** xQueueGenericSend and xQueueGenericSendFromISR, one pass of the loop:
        the item is accepted, or the queue is full and nothing changes. */
    method Send(item: seq<byte>, position: Position) returns (sent: bool)
      requires Valid() && |item| == itemSize
      requires position == Overwrite ==> length == 1
      modifies this, storage
      ensures Valid() && sent == (old(|Contents()|) < length || position == Overwrite)
      ensures Contents() == if sent then Placed(old(Contents()), item, position) else old(Contents())
      ensures sent && position == ToBack ==> Contents() == old(Contents()) + [item]
      ensures sent && position == ToFront ==> Contents() == [item] + old(Contents())
      ensures sent && position == Overwrite ==> Contents() == if itemSize == 0 then old(Contents()) + [item] else [item]
    {
      sent := messagesWaiting < length || position == Overwrite;
      if sent {
        CopyDataToQueue(item, position);
      }
    }

    /** xQueueReceive and xQueueReceiveFromISR, one pass of the loop */
    method Receive() returns (received: bool, item: seq<byte>)
      requires Valid()
      modifies this
      ensures Valid() && received == (old(Contents()) != [])
      ensures if received then old(Contents()) == [item] + Contents() else Contents() == old(Contents())
    {
      received, item := messagesWaiting > 0, [];
      if received {
        ReceiveTakesHead(Value());
        item := CopyDataFromQueue();
        messagesWaiting, read := messagesWaiting - 1, if itemSize == 0 then read else At(read, 1, length);
      }
    }

    /** xQueuePeek: the read pointer is put back, so nothing changes. */
    method Peek() returns (received: bool, item: seq<byte>)
      requires Valid()
      modifies `readFrom
      ensures Valid() && received == (Contents() != []) && readFrom == old(readFrom)
      ensures received ==> item == Contents()[0]
    {
      received, item := messagesWaiting > 0, [];
      if received {
        var original := readFrom;
        item := CopyDataFromQueue();
        readFrom := original;
      }
    }

    method Perform(op: QueueOp) returns (accepted: seq<seq<byte>>, delivered: seq<seq<byte>>)
      requires Valid() && Suits(op, itemSize, length)
      modifies this, storage
      ensures Valid() && (accepted, delivered, Contents()) == Step(old(Contents()), length, op)
    {
      hide Items;
      accepted, delivered := [], [];
      match op {
        case SendItem(item, position) =>
          var sent := Send(item, position);
          if sent {
            accepted := [item];
          }
        case ReceiveItem =>
          var received, item := Receive();
          if received {
            delivered := [item];
          }
        case PeekItem =>
          var _, _ := Peek();
      }
    }

    /** Any sequence of calls: the items that the ring accepts, delivers and
        keeps are those of the deque. Sent to the back and received, they come
        out in order; without overwrites none is lost or made. */
    method Execute(ops: seq<QueueOp>) returns (accepted: seq<seq<byte>>, delivered: seq<seq<byte>>)
      requires Valid() && forall i :: 0 <= i < |ops| ==> Suits(ops[i], itemSize, length)
      modifies this, storage
      ensures Valid() && (accepted, delivered, Contents()) == Run(old(Contents()), length, ops)
      ensures OnlyToBack(ops) ==> delivered + Contents() == old(Contents()) + accepted
      ensures NoOverwrite(ops) ==>
                multiset(delivered) + multiset(Contents()) == multiset(old(Contents())) + multiset(accepted)
      ensures old(|Contents()|) <= length && (NoOverwrite(ops) || itemSize > 0) ==> |Contents()| <= length
    {
      hide Items;
      accepted, delivered := [], [];
      ghost var was := Contents();
      var i := 0;
      while i < |ops|
        invariant 0 <= i <= |ops| && Valid()
        invariant (accepted, delivered, Contents()) == Run(was, length, ops[..i])
      {
        assert ops[..i + 1][..i] == ops[..i] && Suits(ops[i], itemSize, length);
        var taken, given := Perform(ops[i]);
        accepted, delivered := accepted + taken, delivered + given;
        i := i + 1;
      }
      assert ops[..|ops|] == ops;
      if OnlyToBack(ops) {
        FirstInFirstOut(was, length, ops);
      }
      if NoOverwrite(ops) {
        Conserved(was, length, ops);
      }
      if |was| <= length && (NoOverwrite(ops) || itemSize > 0) {
        NeverOverfull(was, length, itemSize, ops);
      }
    }
  }

  // ----- whole runs ------------------------------------------------------------------------

  datatype QueueOp = SendItem(item: seq<byte>, position: Position) | ReceiveItem | PeekItem

  /** What xQueueGenericSend asserts of its arguments. */
  predicate Suits(op: QueueOp, itemSize: nat, length: nat) {
    op.SendItem? ==> |op.item| == itemSize && (op.position == Overwrite ==> length == 1)
  }

  predicate OnlyToBack(ops: seq<QueueOp>) {
    forall i :: 0 <= i < |ops| ==> ops[i].SendItem? ==> ops[i].position == ToBack
  }

  predicate NoOverwrite(ops: seq<QueueOp>) {
    forall i :: 0 <= i < |ops| ==> ops[i].SendItem? ==> ops[i].position != Overwrite
  }

  /** One call: the accepted and the delivered items, and the queue after it. */
  ghost function Step(items: seq<seq<byte>>, length: nat, op: QueueOp)
    : (seq<seq<byte>>, seq<seq<byte>>, seq<seq<byte>>)
  {
    match op
    case SendItem(item, position) =>
      if |items| < length || position == Overwrite then ([item], [], Placed(items, item, position)) else ([], [], items)
    case ReceiveItem => if items == [] then ([], [], items) else ([], [items[0]], items[1..])
    case PeekItem => ([], [], items)
  }

  /** A post to the back or the front is accepted exactly when there is room, and
      the next receive after a post to the front returns its item; an overwrite
      is always accepted; a receive returns the oldest item, and a peek nothing
      of it. */
  lemma StepTakes(items: seq<seq<byte>>, length: nat, op: QueueOp)
    ensures var s := Step(items, length, op);
            match op
            case SendItem(item, position) =>
              if position != Overwrite && |items| >= length then s == ([], [], items)
              else
                && s.0 == [item] && s.1 == []
                && (position == ToBack ==> s.2 == items + [item])
                && (position == ToFront ==> Step(s.2, length, ReceiveItem) == ([], [item], items))
                && (position == Overwrite ==> s.2 == if item == [] then items + [item] else [item])
            case ReceiveItem => s.0 == [] && s.1 + s.2 == items && |s.1| == if items == [] then 0 else 1
            case PeekItem => s == ([], [], items)
  {
  }

  ghost function Run(items: seq<seq<byte>>, length: nat, ops: seq<QueueOp>)
    : (seq<seq<byte>>, seq<seq<byte>>, seq<seq<byte>>)
    decreases |ops|
  {
    if ops == [] then ([], [], items)
    else
      var r := Run(items, length, ops[..|ops| - 1]);
      var s := Step(r.2, length, ops[|ops| - 1]);
      (r.0 + s.0, r.1 + s.1, s.2)
  }

  /** First in, first out and nothing lost: what was delivered, then what is
      left, is what was there, then what was accepted. */
  lemma {:induction false} FirstInFirstOut(items: seq<seq<byte>>, length: nat, ops: seq<QueueOp>)
    requires OnlyToBack(ops)
    ensures var r := Run(items, length, ops); r.1 + r.2 == items + r.0
    decreases |ops|
  {
    if ops != [] {
      var r := Run(items, length, ops[..|ops| - 1]);
      var s := Step(r.2, length, ops[|ops| - 1]);
      FirstInFirstOut(items, length, ops[..|ops| - 1]);
      assert s.1 + s.2 == r.2 + s.0;
      Follows(r.1, r.2, items, r.0, s.1, s.2, s.0);
    }
  }

  lemma FollowsCount<T>(out: seq<T>, mid: seq<T>, was: seq<T>, into: seq<T>, out': seq<T>, left: seq<T>, into': seq<T>)
    requires multiset(out) + multiset(mid) == multiset(was) + multiset(into)
    requires multiset(out') + multiset(left) == multiset(mid) + multiset(into')
    ensures multiset(out + out') + multiset(left) == multiset(was) + multiset(into + into')
  {
    var o, m, w, i := multiset(out), multiset(mid), multiset(was), multiset(into);
    var o', l, i' := multiset(out'), multiset(left), multiset(into');
    assert (o + o') + l == o + (o' + l);
    assert o + (m + i') == (o + m) + i';
    assert (w + i) + i' == w + (i + i');
  }

  lemma StepConserves(items: seq<seq<byte>>, length: nat, op: QueueOp)
    requires op.SendItem? ==> op.position != Overwrite
    ensures var s := Step(items, length, op);
            multiset(s.1) + multiset(s.2) == multiset(items) + multiset(s.0)
  {
    if op.ReceiveItem? && items != [] {
      assert items == [items[0]] + items[1..];
    }
  }

  /** Without overwrites no item is lost, made or changed. */
  lemma {:induction false} Conserved(items: seq<seq<byte>>, length: nat, ops: seq<QueueOp>)
    requires NoOverwrite(ops)
    ensures var r := Run(items, length, ops);
            multiset(r.1) + multiset(r.2) == multiset(items) + multiset(r.0)
    decreases |ops|
  {
    hide Step;
    if ops != [] {
      var r := Run(items, length, ops[..|ops| - 1]);
      var s := Step(r.2, length, ops[|ops| - 1]);
      Conserved(items, length, ops[..|ops| - 1]);
      StepConserves(r.2, length, ops[|ops| - 1]);
      FollowsCount(r.1, r.2, items, r.0, s.1, s.2, s.0);
    }
  }

  /** The count never exceeds the length, unless items without size are
      overwritten. */
  lemma {:induction false} NeverOverfull(items: seq<seq<byte>>, length: nat, itemSize: nat, ops: seq<QueueOp>)
    requires |items| <= length && (NoOverwrite(ops) || itemSize > 0)
    requires forall i :: 0 <= i < |ops| ==> Suits(ops[i], itemSize, length)
    ensures |Run(items, length, ops).2| <= length
    decreases |ops|
  {
    if ops != [] {
      assert Suits(ops[|ops| - 1], itemSize, length);
      NeverOverfull(items, length, itemSize, ops[..|ops| - 1]);
    }
  }
}
