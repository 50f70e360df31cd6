/** One writer and one reader of a stream buffer, interleaved byte by byte:
    each samples the other's index, copies, and then publishes its own. */
module StreamRuns {
  import opened Division
  import opened StreamBuffers

  datatype Writer = WriterIdle | WriterReady(space: nat) | WriterCopying(data: seq<byte>, done: nat)

  datatype Reader = ReaderIdle | ReaderReady(available: nat) | ReaderCopying(count: nat, got: seq<byte>, available: nat)

  /** The buffer, the two parties, and all bytes ever published and consumed. */
  datatype Link = Link(
    bytes: seq<byte>,          // pucBuffer
    head: nat, tail: nat,      // xHead, xTail
    writer: Writer, reader: Reader,
    accepted: seq<byte>, delivered: seq<byte>)

  // ----- places in the ring --------------------------------------------------------------

  /** The place of the p-th byte of the stream. */
  function Place(p: nat, size: nat): nat
    requires size > 0
  {
    p % size
  }

  lemma PlaceStep(p: nat, size: nat)
    requires size > 0
    ensures Place(p, size) < size && Place(p + 1, size) == if Place(p, size) + 1 == size then 0 else Place(p, size) + 1
  {
    var q, r := p / size, p % size;
    assert p == q * size + r;
    if r + 1 == size {
      assert p + 1 == (q + 1) * size;
      QuotientIs(p + 1, size, q + 1);
    } else {
      QuotientIs(p + 1, size, q);
    }
  }

  /** i bytes further along the stream is i places further round the ring. */
  lemma {:induction false} PlaceAlong(p: nat, i: nat, size: nat)
    requires size > 0 && i <= size
    ensures Place(p, size) < size && Place(p + i, size) == Along(Place(p, size), i, size)
    decreases i
  {
    hide Place;
    PlaceStep(p, size);
    if i > 0 {
      PlaceAlong(p, i - 1, size);
      PlaceStep(p + i - 1, size);
    }
  }

  // ----- steps -------------------------------------------------------------------------------

  /** ReadOn: the reader of a message has its length and goes on to its data. */
  datatype Op =
    | SampleTail
    | BeginWrite(data: seq<byte>, whole: bool)
    | CopyIn
    | PublishHead
    | SampleHead
    | BeginRead(limit: nat)
    | CopyOut
    | ReadOn(limit: nat)
    | PublishTail
    | AbandonRead

  ghost predicate Fine(l: Link) {
    && |l.bytes| > 1 && l.head < |l.bytes| && l.tail < |l.bytes|
  }

  ghost predicate Enabled(l: Link, op: Op) {
    match op
    case SampleTail => l.writer.WriterIdle?
    case BeginWrite(_, _) => l.writer.WriterReady?
    case CopyIn => l.writer.WriterCopying? && l.writer.done < |l.writer.data| <= |l.bytes|
    case PublishHead => l.writer.WriterCopying? && l.writer.done == |l.writer.data| <= |l.bytes|
    case SampleHead => l.reader.ReaderIdle?
    case BeginRead(_) => l.reader.ReaderReady?
    case CopyOut => l.reader.ReaderCopying? && |l.reader.got| < l.reader.count <= |l.bytes|
    case ReadOn(_) =>
      l.reader.ReaderCopying? && |l.reader.got| == l.reader.count == LENGTH_BYTES <= l.reader.available
    case PublishTail => l.reader.ReaderCopying? && |l.reader.got| == l.reader.count <= |l.bytes|
    case AbandonRead => l.reader.ReaderCopying?
  }

  ghost function Step(l: Link, op: Op): Link
    requires Fine(l) && Enabled(l, op)
  {
    var size := |l.bytes|;
    match op
    case SampleTail =>
      var n := size + l.tail - l.head - 1;
      l.(writer := WriterReady(if n >= size then n - size else n))
    case BeginWrite(data, whole) =>
      var n := if whole && |data| > l.writer.space then 0 else Least(|data|, l.writer.space);
      l.(writer := if n == 0 then WriterIdle else WriterCopying(data[..n], 0))
    case CopyIn =>
      l.(bytes := l.bytes[Along(l.head, l.writer.done, size) := l.writer.data[l.writer.done]],
         writer := l.writer.(done := l.writer.done + 1))
    case PublishHead =>
      l.(head := Along(l.head, |l.writer.data|, size), accepted := l.accepted + l.writer.data, writer := WriterIdle)
    case SampleHead =>
      var n := size + l.head - l.tail;
      l.(reader := ReaderReady(if n >= size then n - size else n))
    case BeginRead(limit) =>
      var n := Least(limit, l.reader.available);
      l.(reader := if n == 0 then ReaderIdle else ReaderCopying(n, [], l.reader.available))
    case CopyOut =>
      l.(reader := l.reader.(got := l.reader.got + [l.bytes[Along(l.tail, |l.reader.got|, size)]]))
    case ReadOn(limit) =>
      var n := DecodeLength(l.reader.got);
      var m := if n > limit then 0 else Least(n, l.reader.available - LENGTH_BYTES);
      l.(reader := if m == 0 then ReaderIdle else l.reader.(count := LENGTH_BYTES + m))
    case PublishTail =>
      l.(tail := Along(l.tail, l.reader.count, size), delivered := l.delivered + l.reader.got, reader := ReaderIdle)
    case AbandonRead => l.(reader := ReaderIdle)
  }

  // ----- invariant -----------------------------------------------------------------------------

  /** Every published byte that was not consumed is in its place. */
  ghost predicate Stored(l: Link)
    requires Fine(l)
  {
    && |l.delivered| <= |l.accepted| < |l.delivered| + |l.bytes|
    && l.delivered == l.accepted[..|l.delivered|]
    && l.head == Place(|l.accepted|, |l.bytes|) && l.tail == Place(|l.delivered|, |l.bytes|)
    && forall p :: |l.delivered| <= p < |l.accepted| ==> l.bytes[ValidPlace(p, l.bytes)] == l.accepted[p]
  }

  function ValidPlace(p: nat, bytes: seq<byte>): (i: nat)
    requires bytes != []
    ensures i == Place(p, |bytes|) && i < |bytes|
  {
    Place(p, |bytes|)
  }

  /** The writer stays behind the reader by at least one place. */
  ghost predicate WriterFine(l: Link)
    requires Fine(l)
  {
    match l.writer
    case WriterIdle => true
    case WriterReady(space) => |l.accepted| + space < |l.delivered| + |l.bytes|
    case WriterCopying(data, done) =>
      && done <= |data| && 0 < |data| && |l.accepted| + |data| < |l.delivered| + |l.bytes|
      && forall j :: 0 <= j < done ==> l.bytes[ValidPlace(|l.accepted| + j, l.bytes)] == data[j]
  }

  ghost predicate ReaderFine(l: Link) {
    match l.reader
    case ReaderIdle => true
    case ReaderReady(available) => |l.delivered| + available <= |l.accepted|
    case ReaderCopying(count, got, available) =>
      && |got| <= count <= available && |l.delivered| + available <= |l.accepted|
      && got == l.accepted[|l.delivered|..|l.delivered| + |got|]
  }

  ghost predicate Good(l: Link) {
    Fine(l) && Stored(l) && WriterFine(l) && ReaderFine(l)
  }

  lemma Places(l: Link, i: nat)
    requires Good(l) && i <= |l.bytes|
    ensures Along(l.head, i, |l.bytes|) == Place(|l.accepted| + i, |l.bytes|)
    ensures Along(l.tail, i, |l.bytes|) == Place(|l.delivered| + i, |l.bytes|)
  {
    hide Place;
    PlaceAlong(|l.accepted|, i, |l.bytes|);
    PlaceAlong(|l.delivered|, i, |l.bytes|);
  }

  /** Two bytes less than a buffer apart are in different places. */
  lemma PlacesDiffer(p: nat, q: nat, size: nat)
    requires p < q < p + size
    ensures Place(p, size) != Place(q, size)
  {
    hide Place;
    PlaceAlong(p, q - p, size);
  }

  lemma SamplesAreExact(l: Link)
    requires Good(l)
    ensures var n := |l.bytes| + l.tail - l.head - 1;
            (if n >= |l.bytes| then n - |l.bytes| else n) == |l.delivered| + |l.bytes| - 1 - |l.accepted|
    ensures var n := |l.bytes| + l.head - l.tail;
            (if n >= |l.bytes| then n - |l.bytes| else n) == |l.accepted| - |l.delivered|
  {
    hide Place;
    PlaceAlong(|l.delivered|, |l.accepted| - |l.delivered|, |l.bytes|);
  }

  lemma CopyInKeeps(l: Link)
    requires Good(l) && Enabled(l, CopyIn)
    ensures Good(Step(l, CopyIn))
  {
    hide Place;
    var at := |l.accepted| + l.writer.done;
    Places(l, l.writer.done);
    var r := Step(l, CopyIn);
    forall p | |l.delivered| <= p < at ensures ValidPlace(p, r.bytes) != Place(at, |l.bytes|) {
      PlacesDiffer(p, at, |l.bytes|);
    }
    assert forall p | |l.delivered| <= p < at :: r.bytes[ValidPlace(p, r.bytes)] == l.bytes[ValidPlace(p, l.bytes)];
  }

  lemma PublishHeadKeeps(l: Link)
    requires Good(l) && Enabled(l, PublishHead)
    ensures Good(Step(l, PublishHead))
  {
    hide Place;
    var data, w := l.writer.data, |l.accepted|;
    Places(l, |data|);
    var r := Step(l, PublishHead);
    forall p | |l.delivered| <= p < |r.accepted| ensures r.bytes[ValidPlace(p, r.bytes)] == r.accepted[p] {
      if p >= w {
        assert l.bytes[ValidPlace(w + (p - w), l.bytes)] == data[p - w];
      }
    }
    assert r.accepted[..w] == l.accepted;
    KeepsReading(l, r);
  }

  lemma SliceOfPrefix(a: seq<byte>, b: seq<byte>, from: nat, to: nat)
    requires from <= to <= |a| <= |b| && b[..|a|] == a
    ensures b[from..to] == a[from..to]
  {
    forall i | 0 <= i < to - from ensures b[from..to][i] == a[from..to][i] {
      assert b[from + i] == b[..|a|][from + i];
    }
  }

  lemma KeepsReading(l: Link, r: Link)
    requires ReaderFine(l) && r.reader == l.reader && r.delivered == l.delivered
    requires |l.accepted| <= |r.accepted| && r.accepted[..|l.accepted|] == l.accepted
    ensures ReaderFine(r)
  {
    if l.reader.ReaderCopying? {
      SliceOfPrefix(l.accepted, r.accepted, |l.delivered|, |l.delivered| + |l.reader.got|);
    }
  }

  lemma CopyOutKeeps(l: Link)
    requires Good(l) && Enabled(l, CopyOut)
    ensures Good(Step(l, CopyOut))
  {
    hide Place;
    var at := |l.delivered| + |l.reader.got|;
    Places(l, |l.reader.got|);
    assert l.bytes[ValidPlace(at, l.bytes)] == l.accepted[at];
    assert l.accepted[|l.delivered|..at] + [l.accepted[at]] == l.accepted[|l.delivered|..at + 1];
  }

  lemma PublishTailKeeps(l: Link)
    requires Good(l) && Enabled(l, PublishTail)
    ensures Good(Step(l, PublishTail))
  {
    hide Place;
    Places(l, l.reader.count);
    var to := |l.delivered| + l.reader.count;
    assert l.accepted[..|l.delivered|] + l.accepted[|l.delivered|..to] == l.accepted[..to];
  }

  lemma StepKeeps(l: Link, op: Op)
    requires Good(l) && Enabled(l, op)
    ensures Good(Step(l, op))
  {
    hide Place;
    match op {
      case SampleTail => SamplesAreExact(l);
      case SampleHead => SamplesAreExact(l);
      case CopyIn => CopyInKeeps(l);
      case PublishHead => PublishHeadKeeps(l);
      case CopyOut => CopyOutKeeps(l);
      case PublishTail => PublishTailKeeps(l);
      case BeginWrite(_, _) =>
      case BeginRead(_) =>
      case ReadOn(_) =>
      case AbandonRead =>
    }
  }

  /** What each step does to the stream, with the samples as they truly are: free
      and stored bytes. A step of one party leaves the other's alone. */
  lemma StepIs(l: Link, op: Op)
    requires Good(l) && Enabled(l, op)
    ensures var r, size := Step(l, op), |l.bytes|;
            && (op.SampleTail? ==> r == l.(writer := WriterReady(|l.delivered| + size - 1 - |l.accepted|)))
            && (op.SampleHead? ==> r == l.(reader := ReaderReady(|l.accepted| - |l.delivered|)))
            && (op.BeginWrite? ==>
                  var space, all := l.writer.space, |op.data|;
                  var n := if all <= space then all else if op.whole then 0 else space;
                  r == l.(writer := if n == 0 then WriterIdle else WriterCopying(op.data[..n], 0)))
            && (op.BeginRead? ==>
                  var n := if op.limit < l.reader.available then op.limit else l.reader.available;
                  r == l.(reader := if n == 0 then ReaderIdle else ReaderCopying(n, [], l.reader.available)))
            && (op.AbandonRead? ==> r == l.(reader := ReaderIdle))
  {
    hide Place;
    SamplesAreExact(l);
  }

  /** Bytes are copied to and from their places in the stream, and publishing an
      index accepts, or delivers, exactly the bytes that were copied. */
  lemma CopyIs(l: Link, op: Op)
    requires Good(l) && Enabled(l, op)
    ensures var r, size := Step(l, op), |l.bytes|;
            && (op.CopyIn? ==>
                  var w := l.writer;
                  r == l.(bytes := l.bytes[ValidPlace(|l.accepted| + w.done, l.bytes) := w.data[w.done]],
                          writer := WriterCopying(w.data, w.done + 1)))
            && (op.PublishHead? ==>
                  r == l.(head := Place(|l.accepted| + |l.writer.data|, size),
                          accepted := l.accepted + l.writer.data, writer := WriterIdle))
            && (op.CopyOut? ==>
                  var g, next := l.reader, |l.delivered| + |l.reader.got|;
                  && next < |l.accepted|
                  && r == l.(reader := ReaderCopying(g.count, g.got + [l.accepted[next]], g.available)))
            && (op.PublishTail? ==>
                  && |l.delivered| + l.reader.count <= |l.accepted|
                  && r == l.(tail := Place(|l.delivered| + l.reader.count, size),
                             delivered := l.accepted[..|l.delivered| + l.reader.count], reader := ReaderIdle))
  {
    hide Place;
    match op {
      case CopyIn => Places(l, l.writer.done);
      case PublishHead => Places(l, |l.writer.data|);
      case CopyOut =>
        var next := |l.delivered| + |l.reader.got|;
        Places(l, |l.reader.got|);
        assert l.bytes[ValidPlace(next, l.bytes)] == l.accepted[next];
      case PublishTail =>
        Places(l, l.reader.count);
        PublishTailKeeps(l);
      case _ =>
    }
  }

  ghost predicate IsRun(l: Link, ops: seq<Op>)
    decreases |ops|
  {
    ops != [] ==> Fine(l) && Enabled(l, ops[0]) && IsRun(Step(l, ops[0]), ops[1..])
  }

  ghost function Final(l: Link, ops: seq<Op>): Link
    requires IsRun(l, ops)
    decreases |ops|
  {
    if ops == [] then l else Final(Step(l, ops[0]), ops[1..])
  }

  /** However the two parties interleave, the bytes delivered are a prefix of
      the bytes accepted, and what is stored is the rest of them. */
  lemma {:induction false} DeliveredIsPrefix(l: Link, ops: seq<Op>)
    requires Good(l) && IsRun(l, ops)
    ensures var f := Final(l, ops);
            && Good(f) && f.delivered <= f.accepted
            && Window(f.bytes, f.tail, |f.accepted| - |f.delivered|) == f.accepted[|f.delivered|..]
    decreases |ops|
  {
    hide Step, Enabled;
    if ops == [] {
      StoredWindow(l);
    } else {
      StepKeeps(l, ops[0]);
      DeliveredIsPrefix(Step(l, ops[0]), ops[1..]);
    }
  }

  lemma StoredWindow(l: Link)
    requires Good(l)
    ensures Window(l.bytes, l.tail, |l.accepted| - |l.delivered|) == l.accepted[|l.delivered|..]
  {
    hide Place;
    var w := Window(l.bytes, l.tail, |l.accepted| - |l.delivered|);
    forall i | 0 <= i < |w| ensures w[i] == l.accepted[|l.delivered|..][i] {
      Places(l, i);
      assert l.bytes[ValidPlace(|l.delivered| + i, l.bytes)] == l.accepted[|l.delivered| + i];
    }
  }

  // ----- whole writes and reads ------------------------------------------------------------

  /** The rest of a write: n bytes are copied and the head is published. */
  ghost function Writing(n: nat): (ops: seq<Op>)
    ensures ops != []
  {
    if n == 0 then [PublishHead] else [CopyIn] + Writing(n - 1)
  }

  ghost function Reading(n: nat): (ops: seq<Op>)
    ensures ops != []
  {
    if n == 0 then [PublishTail] else [CopyOut] + Reading(n - 1)
  }

  lemma FirstStep(l: Link, op: Op, ops: seq<Op>)
    requires Fine(l) && Enabled(l, op) && IsRun(Step(l, op), ops)
    ensures IsRun(l, [op] + ops) && Final(l, [op] + ops) == Final(Step(l, op), ops)
  {
    hide Step, Enabled;
    assert ([op] + ops)[1..] == ops;
  }

  lemma NoSteps(l: Link)
    ensures IsRun(l, []) && Final(l, []) == l
  {
  }

  lemma {:induction false} FinishesWrite(l: Link)
    requires Good(l) && l.writer.WriterCopying?
    ensures var ops := Writing(|l.writer.data| - l.writer.done);
            && IsRun(l, ops)
            && var f := Final(l, ops);
               && Good(f) && f.accepted == l.accepted + l.writer.data && f.delivered == l.delivered
               && f.writer == WriterIdle && f.reader == l.reader
    decreases |l.writer.data| - l.writer.done
  {
    hide Stored, WriterFine, ReaderFine, Place, IsRun, Final;
    var op := if l.writer.done < |l.writer.data| then CopyIn else PublishHead;
    WriteFits(l);
    CopyIs(l, op);
    StepKeeps(l, op);
    var r := Step(l, op);
    if op.CopyIn? {
      FinishesWrite(r);
      FirstStep(l, op, Writing(|l.writer.data| - l.writer.done - 1));
    } else {
      NoSteps(r);
      FirstStep(l, op, []);
      assert [op] + [] == [op];
    }
  }

  lemma WriteFits(l: Link)
    requires Good(l) && l.writer.WriterCopying?
    ensures l.writer.done <= |l.writer.data| <= |l.bytes|
  {
    hide Place;
  }

  lemma {:induction false} FinishesRead(l: Link)
    requires Good(l) && l.reader.ReaderCopying?
    ensures |l.reader.got| <= l.reader.count && |l.delivered| + l.reader.count <= |l.accepted|
    ensures var ops := Reading(l.reader.count - |l.reader.got|);
            && IsRun(l, ops)
            && var f := Final(l, ops);
               && Good(f) && f.delivered == l.accepted[..|l.delivered| + l.reader.count] && f.accepted == l.accepted
               && f.writer == l.writer && f.reader == ReaderIdle
    decreases l.reader.count - |l.reader.got|
  {
    hide Stored, WriterFine, ReaderFine, Place, IsRun, Final;
    ReadFits(l);
    var op := if |l.reader.got| < l.reader.count then CopyOut else PublishTail;
    CopyIs(l, op);
    StepKeeps(l, op);
    var r := Step(l, op);
    if op.CopyOut? {
      FinishesRead(r);
      FirstStep(l, op, Reading(l.reader.count - |l.reader.got| - 1));
    } else {
      NoSteps(r);
      FirstStep(l, op, []);
      assert [op] + [] == [op];
    }
  }

  lemma ReadFits(l: Link)
    requires Good(l) && l.reader.ReaderCopying?
    ensures |l.reader.got| <= l.reader.count <= |l.bytes| && |l.delivered| + l.reader.count <= |l.accepted|
  {
    hide Place;
  }

  /** A write that is not interrupted takes what fits, or all or nothing, into the
      space that is free when it begins, and appends exactly that. */
  lemma WriteThrough(l: Link, data: seq<byte>, whole: bool)
    requires Good(l) && l.writer.WriterIdle?
    ensures var free := |l.delivered| + |l.bytes| - 1 - |l.accepted|;
            var n := if |data| <= free then |data| else if whole then 0 else free;
            var ops := [SampleTail] + ([BeginWrite(data, whole)] + if n == 0 then [] else Writing(n));
            && 0 <= n <= |data| && IsRun(l, ops)
            && var f := Final(l, ops);
               && Good(f) && f.accepted == l.accepted + data[..n] && f.delivered == l.delivered
               && f.writer == WriterIdle && f.reader == l.reader
  {
    hide Stored, WriterFine, ReaderFine, Place, IsRun, Final;
    var free := |l.delivered| + |l.bytes| - 1 - |l.accepted|;
    FreeIsNat(l);
    var n := if |data| <= free then |data| else if whole then 0 else free;
    StepIs(l, SampleTail);
    StepKeeps(l, SampleTail);
    var s := Step(l, SampleTail);
    StepIs(s, BeginWrite(data, whole));
    StepKeeps(s, BeginWrite(data, whole));
    var b := Step(s, BeginWrite(data, whole));
    if n == 0 { NoSteps(b); } else { FinishesWrite(b); }
    FirstStep(s, BeginWrite(data, whole), if n == 0 then [] else Writing(n));
    FirstStep(l, SampleTail, [BeginWrite(data, whole)] + if n == 0 then [] else Writing(n));
  }

  lemma FreeIsNat(l: Link)
    requires Good(l)
    ensures |l.delivered| <= |l.accepted| <= |l.delivered| + |l.bytes| - 1
    ensures l.delivered == l.accepted[..|l.delivered|]
  {
    hide Place;
  }

  /** A read that is not interrupted delivers the oldest bytes that are stored when
      it begins, up to the caller's limit. */
  lemma ReadThrough(l: Link, limit: nat)
    requires Good(l) && l.reader.ReaderIdle?
    ensures |l.delivered| <= |l.accepted|
    ensures var stored := |l.accepted| - |l.delivered|;
            var n := if limit < stored then limit else stored;
            var ops := [SampleHead] + ([BeginRead(limit)] + if n == 0 then [] else Reading(n));
            && IsRun(l, ops)
            && var f := Final(l, ops);
               && Good(f) && f.delivered == l.accepted[..|l.delivered| + n] && f.accepted == l.accepted
               && f.writer == l.writer && f.reader == ReaderIdle
  {
    hide Stored, WriterFine, ReaderFine, Place, IsRun, Final;
    FreeIsNat(l);
    var stored := |l.accepted| - |l.delivered|;
    var n := if limit < stored then limit else stored;
    StepIs(l, SampleHead);
    StepKeeps(l, SampleHead);
    var s := Step(l, SampleHead);
    StepIs(s, BeginRead(limit));
    StepKeeps(s, BeginRead(limit));
    var b := Step(s, BeginRead(limit));
    if n == 0 { NoSteps(b); } else { FinishesRead(b); }
    FirstStep(s, BeginRead(limit), if n == 0 then [] else Reading(n));
    FirstStep(l, SampleHead, [BeginRead(limit)] + if n == 0 then [] else Reading(n));
  }

  /** No byte that the writer is about to write is one that the reader may be
      reading, whether or not either region wraps. */
  lemma RegionsNeverOverlap(l: Link, i: nat, j: nat)
    requires Good(l) && l.writer.WriterCopying? && l.reader.ReaderCopying?
    requires i < |l.writer.data| && j < l.reader.count
    ensures Along(l.head, i, |l.bytes|) != Along(l.tail, j, |l.bytes|)
  {
    hide Place;
    Places(l, i);
    Places(l, j);
    PlacesDiffer(|l.delivered| + j, |l.accepted| + i, |l.bytes|);
  }

  /** A new buffer satisfies the invariant. */
  lemma StartsGood(bytes: seq<byte>)
    requires |bytes| > 1
    ensures Good(Link(bytes, 0, 0, WriterIdle, ReaderIdle, [], []))
  {
    QuotientIs(0, |bytes|, 0);
  }
}
