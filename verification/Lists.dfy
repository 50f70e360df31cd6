/** Values of the kernel's circular lists (list.c, list.h).

    A list is the sequence of its items as met from the end marker, and the
    position of pxIndex: the number of items up to and including the one it
    points at, so that 0 stands for the end marker. */
module Lists {

  // TickType_t is 32 bits wide; portMAX_DELAY is its largest value.
  const TICK_MODULUS: nat := 0x1_0000_0000
  const MAX_DELAY: nat := 0xFFFF_FFFF
  type Tick = n: nat | n < TICK_MODULUS

  datatype ListV<T> = ListV(items: seq<T>, index: nat)

  ghost predicate NoDuplicates<T>(s: seq<T>) {
    forall i, j :: 0 <= i < j < |s| ==> s[i] != s[j]
  }

  ghost predicate WellFormed<T>(l: ListV<T>) {
    NoDuplicates(l.items) && l.index <= |l.items|
  }

  function IndexOf<T(==)>(s: seq<T>, x: T): (i: nat)
    requires x in s
    ensures i < |s| && s[i] == x && x !in s[..i]
  {
    if s[0] == x then 0 else 1 + IndexOf(s[1..], x)
  }

  // ----- the list operations ------------------------------------------------

  /** Linking x in so that it is preceded by exactly pos items. */
  function InsertAt<T>(l: ListV<T>, pos: nat, x: T): (r: ListV<T>)
    requires pos <= |l.items|
    ensures l.index <= |l.items| ==> r.index <= |r.items|
  {
    ListV(l.items[..pos] + [x] + l.items[pos..], if pos < l.index then l.index + 1 else l.index)
  }

  /** vListInsertEnd: just before the item that pxIndex points at. */
  function InsertEnd<T>(l: ListV<T>, x: T): ListV<T>
    requires l.index <= |l.items|
  {
    InsertAt(l, if l.index == 0 then |l.items| else l.index - 1, x)
  }

  /** Where vListInsert puts a key: before the first key that is greater. */
  function InsertPosition(keys: seq<nat>, key: nat): (pos: nat)
    ensures pos <= |keys|
    ensures forall i :: 0 <= i < pos ==> keys[i] <= key
    ensures pos < |keys| ==> keys[pos] > key
  {
    if keys == [] || keys[0] > key then 0 else 1 + InsertPosition(keys[1..], key)
  }

  lemma InsertPositionIs(keys: seq<nat>, key: nat, pos: nat)
    requires pos <= |keys| && forall i :: 0 <= i < pos ==> keys[i] <= key
    requires pos < |keys| ==> keys[pos] > key
    ensures pos == InsertPosition(keys, key)
  {
    var p := InsertPosition(keys, key);
    assert p < |keys| ==> keys[p] > key;
  }

  /** uxListRemove: pxIndex steps back if it pointed at the item. */
  function Remove<T(==)>(l: ListV<T>, x: T): (r: ListV<T>)
    requires x in l.items
    ensures l.index <= |l.items| ==> r.index <= |r.items|
  {
    var i := IndexOf(l.items, x);
    ListV(Without(l.items, i), if i < l.index then l.index - 1 else l.index)
  }

  /** The position of pxIndex after listGET_OWNER_OF_NEXT_ENTRY. */
  function NextIndex<T>(l: ListV<T>): nat {
    if l.index >= |l.items| then 1 else l.index + 1
  }

  function Advance<T>(l: ListV<T>): ListV<T> {
    l.(index := NextIndex(l))
  }

  /** The item that the next listGET_OWNER_OF_NEXT_ENTRY returns. */
  function Next<T>(l: ListV<T>): T
    requires l.items != [] && l.index <= |l.items|
  {
    l.items[NextIndex(l) - 1]
  }

  // ----- sorted lists ---------------------------------------------------------

  ghost predicate Sorted(keys: seq<nat>) {
    forall i, j :: 0 <= i < j < |keys| ==> keys[i] <= keys[j]
  }

  lemma SplicedAt<T>(s: seq<T>, pos: nat, x: T, i: nat)
    requires pos <= |s| && i <= |s|
    ensures (s[..pos] + [x] + s[pos..])[i] == if i < pos then s[i] else if i == pos then x else s[i - 1]
  {
  }

  /** Insertion keeps a list sorted and is stable: equal keys stay in front. */
  lemma InsertKeepsSorted(keys: seq<nat>, key: nat)
    requires Sorted(keys)
    ensures var pos := InsertPosition(keys, key);
            && Sorted(keys[..pos] + [key] + keys[pos..])
            && (forall i :: 0 <= i < |keys| ==> (i < pos <==> keys[i] <= key))
  {
    var pos := InsertPosition(keys, key);
    var s := keys[..pos] + [key] + keys[pos..];
    forall i | pos <= i < |keys| ensures keys[i] > key {
      assert keys[pos] <= keys[i];
    }
    forall i, j | 0 <= i < j < |s| ensures s[i] <= s[j] {
      SplicedAt(keys, pos, key, i);
      SplicedAt(keys, pos, key, j);
      var i', j' := if i < pos then i else i - 1, if j < pos then j else j - 1;
      assert i != pos && j != pos ==> 0 <= i' <= j' < |keys| && keys[i'] <= keys[j'];
    }
  }

  // ----- membership -----------------------------------------------------------

  lemma InsertAtMembers<T>(l: ListV<T>, pos: nat, x: T)
    requires WellFormed(l) && pos <= |l.items| && x !in l.items
    ensures WellFormed(InsertAt(l, pos, x))
    ensures forall y :: y in InsertAt(l, pos, x).items <==> y == x || y in l.items
    ensures |InsertAt(l, pos, x).items| == |l.items| + 1
  {
    var s := InsertAt(l, pos, x).items;
    assert forall i :: 0 <= i < |s| ==> s[i] == if i < pos then l.items[i] else if i == pos then x else l.items[i - 1];
    forall y | y in l.items ensures y in s {
      var i := IndexOf(l.items, y);
      assert s[if i < pos then i else i + 1] == y;
    }
    assert s[pos] == x;
  }

  lemma RemoveMembers<T>(l: ListV<T>, x: T)
    requires WellFormed(l) && x in l.items
    ensures WellFormed(Remove(l, x))
    ensures forall y :: y in Remove(l, x).items <==> y != x && y in l.items
    ensures |Remove(l, x).items| == |l.items| - 1
  {
    var i := IndexOf(l.items, x);
    var s := Remove(l, x).items;
    assert forall j :: 0 <= j < |s| ==> s[j] == if j < i then l.items[j] else l.items[j + 1];
    forall y | y in l.items && y != x ensures y in s {
      var j := IndexOf(l.items, y);
      assert s[if j < i then j else j - 1] == y;
    }
  }

  ghost function Elements<T>(s: seq<T>): set<T> {
    set x | x in s
  }

  lemma {:induction false} CountElements<T>(s: seq<T>)
    requires NoDuplicates(s)
    ensures |Elements(s)| == |s|
  {
    if s != [] {
      CountElements(s[1..]);
      assert Elements(s) == {s[0]} + Elements(s[1..]);
    }
  }

  lemma SubsetSize<T>(a: set<T>, b: set<T>)
    requires a <= b
    ensures |a| <= |b|
  {
    assert b == a + (b - a);
  }

  /** Two steps, each of which only moves items along, make one. */
  lemma Follows<T>(out: seq<T>, mid: seq<T>, was: seq<T>, into: seq<T>, out': seq<T>, left: seq<T>, into': seq<T>)
    requires out + mid == was + into && out' + left == mid + into'
    ensures (out + out') + left == was + (into + into')
  {
    assert (out + out') + left == out + (out' + left);
    assert out + (mid + into') == (out + mid) + into';
    assert (was + into) + into' == was + (into + into');
  }

  // ----- round robin ------------------------------------------------------------

  /** The items in the order in which successive picks return them. */
  function Rotation<T>(l: ListV<T>): seq<T>
    requires l.index <= |l.items|
  {
    Rotate(l.items, l.index)
  }

  function Rotate<T>(s: seq<T>, k: nat): seq<T>
    requires k <= |s|
  {
    s[k..] + s[..k]
  }

  function Without<T>(s: seq<T>, i: nat): seq<T>
    requires i < |s|
  {
    s[..i] + s[i + 1..]
  }

  function Picks<T>(l: ListV<T>, n: nat): (r: (seq<T>, ListV<T>))
    requires l.items != [] && l.index <= |l.items|
    ensures r.1.items == l.items && r.1.index <= |l.items|
    decreases n
  {
    if n == 0 then ([], l)
    else var r := Picks(Advance(l), n - 1); ([Next(l)] + r.0, r.1)
  }

  /** A pick serves the head of the rotation and sends it to the back. */
  lemma PickRotates<T>(l: ListV<T>)
    requires l.items != [] && l.index <= |l.items|
    ensures Next(l) == Rotation(l)[0]
    ensures Rotation(Advance(l)) == Rotation(l)[1..] + [Next(l)]
  {
  }

  lemma TurnStep<T>(rot: seq<T>, n: nat)
    requires 0 < n <= |rot|
    ensures var r := rot[1..] + [rot[0]];
            [rot[0]] + r[..n - 1] == rot[..n] && r[n - 1..] + r[..n - 1] == rot[n..] + rot[..n]
  {
    var r := rot[1..] + [rot[0]];
    assert r[..n - 1] == rot[1..n];
    assert r[n - 1..] == rot[n..] + [rot[0]];
  }

  lemma {:induction false} PicksRotate<T>(l: ListV<T>, n: nat)
    requires l.items != [] && l.index <= |l.items| && n <= |l.items|
    ensures Picks(l, n).0 == Rotation(l)[..n]
    ensures Rotation(Picks(l, n).1) == Rotation(l)[n..] + Rotation(l)[..n]
    decreases n
  {
    if n > 0 {
      PickRotates(l);
      PicksRotate(Advance(l), n - 1);
      TurnStep(Rotation(l), n);
    }
  }

  lemma RotationMembers<T>(l: ListV<T>)
    requires WellFormed(l)
    ensures NoDuplicates(Rotation(l))
    ensures forall x :: x in Rotation(l) <==> x in l.items
  {
    var rot, n := Rotation(l), |l.items|;
    assert forall i :: 0 <= i < n ==> rot[i] == l.items[if i < n - l.index then i + l.index else i - (n - l.index)];
    assert l.items == l.items[..l.index] + l.items[l.index..];
  }

  /** n picks from a list of n items return every item exactly once, in
      rotation order, and leave the rotation where it was. */
  lemma FullTurn<T>(l: ListV<T>)
    requires WellFormed(l) && l.items != []
    ensures var r := Picks(l, |l.items|);
            && r.0 == Rotation(l) == Rotation(r.1)
            && NoDuplicates(r.0) && forall x :: x in r.0 <==> x in l.items
  {
    PicksRotate(l, |l.items|);
    RotationMembers(l);
  }

  lemma RotateSplit<T>(a: seq<T>, b: seq<T>)
    ensures Rotate(a + b, |a|) == b + a
  {
    assert (a + b)[|a|..] == b && (a + b)[..|a|] == a;
  }

  lemma WithoutSplit<T>(a: seq<T>, x: T, b: seq<T>)
    ensures Without(a + [x] + b, |a|) == a + b
  {
    var s := a + [x] + b;
    assert s[..|a|] == a && s[|a| + 1..] == b;
  }

  lemma RotateWithoutEarlier<T>(s: seq<T>, k: nat, p: nat)
    requires p < k <= |s|
    ensures Rotate(Without(s, p), k - 1) == Without(Rotate(s, k), |s| - k + p)
  {
    var a, x, m, b := s[..p], s[p], s[p + 1..k], s[k..];
    assert s == (a + [x] + m) + b;
    assert Without(s, p) == (a + m) + b;
    RotateSplit(a + [x] + m, b);
    RotateSplit(a + m, b);
    WithoutSplit(b + a, x, m);
    assert b + (a + [x] + m) == (b + a) + [x] + m;
  }

  lemma RotateWithoutLater<T>(s: seq<T>, k: nat, p: nat)
    requires k <= p < |s|
    ensures Rotate(Without(s, p), k) == Without(Rotate(s, k), p - k)
  {
    var a, x, m, b := s[..k], s[p], s[k..p], s[p + 1..];
    assert s == a + (m + [x] + b);
    assert Without(s, p) == a + (m + b);
    RotateSplit(a, m + [x] + b);
    RotateSplit(a, m + b);
    WithoutSplit(m, x, b + a);
    assert (m + [x] + b) + a == m + [x] + (b + a);
  }

  /** Removal of the item at place i of the rotation keeps the order of the others. */
  lemma RotationOfRemove<T>(l: ListV<T>, i: nat)
    requires WellFormed(l) && i < |l.items|
    ensures var x := Rotation(l)[i];
            && x in l.items && Remove(l, x).index <= |Remove(l, x).items|
            && Rotation(Remove(l, x)) == Without(Rotation(l), i)
  {
    var left := |l.items| - l.index;
    var p := if i < left then i + l.index else i - left;
    IndexOfUnique(l.items, Rotation(l)[i], p);
    if p < l.index {
      RotateWithoutEarlier(l.items, l.index, p);
    } else {
      RotateWithoutLater(l.items, l.index, p);
    }
  }

  /** A new item goes to the very back of the rotation, or, when pxIndex is on
      an item, just in front of that one item. */
  lemma RotationOfInsert<T>(l: ListV<T>, x: T)
    requires WellFormed(l)
    ensures var rot, n, r := Rotation(l), |l.items|, InsertEnd(l, x);
            r.index <= |r.items| &&
            Rotation(r) == if l.index == 0 then rot + [x] else rot[..n - 1] + [x] + rot[n - 1..]
  {
    hide NoDuplicates;
    var s, k := l.items, l.index;
    if k == 0 {
      assert s[..|s|] == s;
    } else {
      var a, y, b := s[..k - 1], s[k - 1], s[k..];
      assert s == (a + [y]) + b;
      assert InsertEnd(l, x).items == (a + [x, y]) + b;
      RotateSplit(a + [y], b);
      RotateSplit(a + [x, y], b);
      var rot := b + (a + [y]);
      assert rot[..|s| - 1] == b + a && rot[|s| - 1..] == [y];
    }
  }

  lemma IndexOfUnique<T>(s: seq<T>, x: T, i: nat)
    requires NoDuplicates(s) && i < |s| && s[i] == x
    ensures x in s && IndexOf(s, x) == i
  {
  }

  lemma WithoutKeepsSorted(keys: seq<nat>, i: nat)
    requires Sorted(keys) && i < |keys|
    ensures Sorted(Without(keys, i)) && (|keys| > 1 ==> keys[0] <= Without(keys, i)[0])
  {
  }

  // ----- no starvation ------------------------------------------------------------

  datatype ListOp<T> = Pick | Add(x: T) | Drop(x: T)

  ghost predicate Applicable<T>(l: ListV<T>, op: ListOp<T>) {
    match op
    case Pick => l.items != []
    case Add(x) => x !in l.items
    case Drop(x) => x in l.items
  }

  function Apply<T(==)>(l: ListV<T>, op: ListOp<T>): ListV<T>
    requires l.index <= |l.items| && Applicable(l, op)
  {
    match op
    case Pick => Advance(l)
    case Add(x) => InsertEnd(l, x)
    case Drop(x) => Remove(l, x)
  }

  /** A run of list operations that never drops or picks x and never lets the
      list grow beyond bound items. */
  ghost predicate Ignores<T>(l: ListV<T>, ops: seq<ListOp<T>>, x: T, bound: nat)
    requires l.index <= |l.items|
    decreases |ops|
  {
    |l.items| <= bound &&
    (ops != [] ==>
       && Applicable(l, ops[0])
       && ops[0] != Drop(x)
       && (ops[0].Pick? ==> Next(l) != x)
       && Apply(l, ops[0]).index <= |Apply(l, ops[0]).items|
       && Ignores(Apply(l, ops[0]), ops[1..], x, bound))
  }

  function PickCount<T>(ops: seq<ListOp<T>>): nat {
    if ops == [] then 0 else (if ops[0].Pick? then 1 else 0) + PickCount(ops[1..])
  }

  /** An upper bound on the picks left before x is served: what is left of
      this pass over the list, and a second pass if x was already passed. */
  function Patience<T(==)>(l: ListV<T>, x: T, bound: nat): int
    requires x in l.items
  {
    var p := IndexOf(l.items, x);
    if p >= l.index then p - l.index else |l.items| - l.index + bound
  }

  lemma PatienceOnAdd<T>(l: ListV<T>, y: T, x: T, bound: nat)
    requires WellFormed(l) && x in l.items && y !in l.items
    ensures WellFormed(InsertEnd(l, y)) && x in InsertEnd(l, y).items
    ensures Patience(InsertEnd(l, y), x, bound) <= Patience(l, x, bound)
  {
    var p, q := IndexOf(l.items, x), if l.index == 0 then |l.items| else l.index - 1;
    InsertAtMembers(l, q, y);
    IndexOfUnique(InsertEnd(l, y).items, x, if p < q then p else p + 1);
  }

  lemma PatienceOnDrop<T>(l: ListV<T>, y: T, x: T, bound: nat)
    requires WellFormed(l) && x in l.items && y in l.items && x != y && |l.items| <= bound
    ensures WellFormed(Remove(l, y)) && x in Remove(l, y).items
    ensures Patience(Remove(l, y), x, bound) <= Patience(l, x, bound)
  {
    var p, q := IndexOf(l.items, x), IndexOf(l.items, y);
    RemoveMembers(l, y);
    IndexOfUnique(Remove(l, y).items, x, if p < q then p else p - 1);
  }

  /** No item of a ready list starves: however inserts, removals and picks
      interleave, x is picked before 2 * bound picks of others have passed. */
  lemma {:induction false} NoStarvation<T>(l: ListV<T>, ops: seq<ListOp<T>>, x: T, bound: nat)
    requires WellFormed(l) && x in l.items && Ignores(l, ops, x, bound)
    ensures PickCount(ops) <= Patience(l, x, bound) < 2 * bound
    decreases |ops|
  {
    if ops != [] {
      match ops[0] {
        case Pick =>
        case Add(y) => PatienceOnAdd(l, y, x, bound);
        case Drop(y) => PatienceOnDrop(l, y, x, bound);
      }
      NoStarvation(Apply(l, ops[0]), ops[1..], x, bound);
    }
  }
}
