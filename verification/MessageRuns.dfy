/** A message buffer with one writer and one reader interleaved byte by byte: the
    writer publishes whole frames, and the reader takes whole messages off. */
module MessageRuns {
  import opened StreamBuffers
  import opened StreamRuns

  /** The link, and the messages published and taken. */
  datatype Talk = Talk(link: Link, sent: seq<Message>, fetched: seq<Message>)

  /** A length word and at least one byte of data. */
  predicate FrameSized(s: seq<byte>) {
    LENGTH_BYTES < |s| < LENGTH_BYTES + LENGTH_LIMIT
  }

  function Body(s: seq<byte>): Message
    requires FrameSized(s)
  {
    s[LENGTH_BYTES..]
  }

  ghost predicate IsFrame(s: seq<byte>) {
    FrameSized(s) && s == Frame(Body(s))
  }

  /** How prvWriteMessageToBuffer and prvReadMessageFromBuffer use the ring: a frame
      is written whole or not at all, a length is read only if more than a length
      is there, and the tail is published only once data were read behind it. */
  ghost predicate Allowed(t: Talk, op: Op) {
    && Fine(t.link) && Enabled(t.link, op)
    && match op
       case BeginWrite(data, whole) => whole && IsFrame(data)
       case BeginRead(limit) => limit == 0 || (limit == LENGTH_BYTES && t.link.reader.available > LENGTH_BYTES)
       case PublishHead => FrameSized(t.link.writer.data)
       case PublishTail => FrameSized(t.link.reader.got)
       case _ => true
  }

  ghost function TalkStep(t: Talk, op: Op): Talk
    requires Allowed(t, op)
  {
    Talk(Step(t.link, op),
         if op.PublishHead? then t.sent + [Body(t.link.writer.data)] else t.sent,
         if op.PublishTail? then t.fetched + [Body(t.link.reader.got)] else t.fetched)
  }

  // ----- invariant -------------------------------------------------------------------------

  /** The bytes published and consumed are those of the messages, in order. */
  ghost predicate Framing(t: Talk) {
    && t.fetched <= t.sent
    && t.link.accepted == Framed(t.sent) && t.link.delivered == Framed(t.fetched)
  }

  /** The next message lies wholly within n published bytes. */
  ghost predicate Covers(t: Talk, n: nat) {
    |t.fetched| < |t.sent| && |Frame(t.sent[|t.fetched|])| <= n
  }

  ghost predicate PartiesFine(t: Talk) {
    && (t.link.writer.WriterCopying? ==> IsFrame(t.link.writer.data))
    && match t.link.reader
       case ReaderIdle => true
       case ReaderReady(available) => available > 0 ==> Covers(t, available)
       case ReaderCopying(count, _, available) =>
         Covers(t, available) && (count == LENGTH_BYTES || count == |Frame(t.sent[|t.fetched|])|)
  }

  ghost predicate TalkGood(t: Talk) {
    Good(t.link) && Framing(t) && PartiesFine(t)
  }

  lemma {:induction false} FramedSplit(a: seq<Message>, b: seq<Message>)
    ensures Framed(a + b) == Framed(a) + Framed(b)
    decreases |a|
  {
    hide Frame;
    if a == [] {
      assert a + b == b;
    } else {
      FramedSplit(a[1..], b);
      assert (a + b)[1..] == a[1..] + b;
      assert Frame(a[0]) + (Framed(a[1..]) + Framed(b)) == (Frame(a[0]) + Framed(a[1..])) + Framed(b);
    }
  }

  /** What was published and not consumed is the frames of the messages not taken. */
  lemma Pending(t: Talk)
    requires Framing(t)
    ensures |t.link.delivered| <= |t.link.accepted|
    ensures t.link.accepted[|t.link.delivered|..] == Framed(t.sent[|t.fetched|..])
    ensures |t.fetched| < |t.sent| ==>
              Framed(t.sent[|t.fetched|..]) == Frame(t.sent[|t.fetched|]) + Framed(t.sent[|t.fetched| + 1..])
  {
    hide Frame, Framed;
    var n := |t.fetched|;
    assert t.sent == t.fetched + t.sent[n..];
    FramedSplit(t.fetched, t.sent[n..]);
    if n < |t.sent| {
      FramedOne(t.sent[n..]);
      assert t.sent[n..][1..] == t.sent[n + 1..];
    }
  }

  lemma FramedOne(ms: seq<Message>)
    ensures Framed(ms) == if ms == [] then [] else Frame(ms[0]) + Framed(ms[1..])
  {
    hide Frame;
  }

  /** More than nothing pending is at least the next message. */
  lemma AvailableCovers(t: Talk)
    requires Framing(t)
    ensures |t.link.accepted| > |t.link.delivered| ==> Covers(t, |t.link.accepted| - |t.link.delivered|)
  {
    hide Frame, Framed;
    Pending(t);
    FramedOne(t.sent[|t.fetched|..]);
  }

  /** The first bytes pending are those of the next frame. */
  lemma NextBytes(t: Talk, n: nat)
    requires Framing(t) && |t.fetched| < |t.sent| && n <= |Frame(t.sent[|t.fetched|])|
    ensures var d := |t.link.delivered|;
            d + n <= |t.link.accepted| && t.link.accepted[d..d + n] == Frame(t.sent[|t.fetched|])[..n]
  {
    hide Frame, Framed;
    Pending(t);
    var d := |t.link.delivered|;
    assert t.link.accepted[d..d + n] == t.link.accepted[d..][..n];
  }

  lemma FrameLength(m: Message)
    ensures |Frame(m)| == LENGTH_BYTES + |m| && DecodeLength(Frame(m)[..LENGTH_BYTES]) == |m|
    ensures FrameSized(Frame(m)) && Body(Frame(m)) == m
  {
    LengthRoundTrip(|m|);
    assert Frame(m)[..LENGTH_BYTES] == EncodeLength(|m|);
  }

  // ----- steps -----------------------------------------------------------------------------

  lemma ReadOnKeeps(t: Talk, limit: nat)
    requires TalkGood(t) && Allowed(t, ReadOn(limit))
    ensures PartiesFine(TalkStep(t, ReadOn(limit))) && Framing(TalkStep(t, ReadOn(limit)))
  {
    hide Frame, Framed, DecodeLength, StreamRuns.Stored;
    var m := t.sent[|t.fetched|];
    FrameLength(m);
    NextBytes(t, LENGTH_BYTES);
  }

  lemma PublishHeadFrames(t: Talk)
    requires TalkGood(t) && Allowed(t, PublishHead)
    ensures Framing(TalkStep(t, PublishHead)) && PartiesFine(TalkStep(t, PublishHead))
  {
    hide Frame, Framed, StreamRuns.Stored;
    FramedAppend(t.sent, Body(t.link.writer.data));
    assert forall n :: Covers(t, n) ==> Covers(TalkStep(t, PublishHead), n);
  }

  lemma PublishTailFrames(t: Talk)
    requires TalkGood(t) && Allowed(t, PublishTail)
    ensures Framing(TalkStep(t, PublishTail)) && PartiesFine(TalkStep(t, PublishTail))
  {
    hide Frame, Framed, StreamRuns.Stored;
    var m := t.sent[|t.fetched|];
    FrameLength(m);
    NextBytes(t, |Frame(m)|);
    assert t.link.reader.got == Frame(m);
    FramedAppend(t.fetched, m);
  }

  lemma TalkKeeps(t: Talk, op: Op)
    requires TalkGood(t) && Allowed(t, op)
    ensures TalkGood(TalkStep(t, op))
  {
    hide Frame, Framed, StreamRuns.Stored, WriterFine, ReaderFine;
    StepKeeps(t.link, op);
    match op {
      case PublishHead => PublishHeadFrames(t);
      case PublishTail => PublishTailFrames(t);
      case ReadOn(limit) => ReadOnKeeps(t, limit);
      case SampleHead => SamplesAreExact(t.link); AvailableCovers(t);
      case BeginRead(_) =>
      case BeginWrite(data, _) => assert data[..|data|] == data;
      case _ =>
    }
  }

  ghost predicate IsTalk(t: Talk, ops: seq<Op>)
    decreases |ops|
  {
    ops != [] ==> Allowed(t, ops[0]) && IsTalk(TalkStep(t, ops[0]), ops[1..])
  }

  ghost function TalkEnd(t: Talk, ops: seq<Op>): Talk
    requires IsTalk(t, ops)
    decreases |ops|
  {
    if ops == [] then t else TalkEnd(TalkStep(t, ops[0]), ops[1..])
  }

  /** However writer and reader interleave, the messages taken are a prefix of those
      published, and the bytes between tail and head parse as exactly the rest. */
  lemma {:induction false} MessagesStayWhole(t: Talk, ops: seq<Op>)
    requires TalkGood(t) && IsTalk(t, ops)
    ensures var r := TalkEnd(t, ops);
            && TalkGood(r) && r.fetched <= r.sent
            && var pending := Window(r.link.bytes, r.link.tail, |r.link.accepted| - |r.link.delivered|);
               pending == Framed(r.sent[|r.fetched|..]) && Parse(pending) == r.sent[|r.fetched|..]
    decreases |ops|
  {
    hide TalkStep, Allowed, Framed, Parse, PartiesFine;
    if ops == [] {
      StoredWindow(t.link);
      Pending(t);
      ParseFramed(t.sent[|t.fetched|..]);
    } else {
      TalkKeeps(t, ops[0]);
      MessagesStayWhole(TalkStep(t, ops[0]), ops[1..]);
    }
  }

  lemma StartsWhole(bytes: seq<byte>)
    requires |bytes| > 1
    ensures TalkGood(Talk(Link(bytes, 0, 0, WriterIdle, ReaderIdle, [], []), [], []))
  {
    StartsGood(bytes);
  }

  // ----- whole messages ---------------------------------------------------------------------

  lemma FirstTalk(t: Talk, op: Op, ops: seq<Op>)
    requires Allowed(t, op) && IsTalk(TalkStep(t, op), ops)
    ensures IsTalk(t, [op] + ops) && TalkEnd(t, [op] + ops) == TalkEnd(TalkStep(t, op), ops)
  {
    hide TalkStep, Allowed;
    assert ([op] + ops)[1..] == ops;
  }

  lemma NoTalk(t: Talk)
    ensures IsTalk(t, []) && TalkEnd(t, []) == t
  {
  }

  /** The talk has ended with more messages published, or taken, and a party at
      rest; the other party is where it was. */
  ghost predicate Published(t: Talk, f: Talk, more: seq<Message>) {
    && TalkGood(f) && f.sent == t.sent + more && f.fetched == t.fetched
    && f.link.writer == WriterIdle && f.link.reader == t.link.reader
  }

  ghost predicate TakenOff(t: Talk, f: Talk, more: seq<Message>) {
    && TalkGood(f) && f.fetched == t.fetched + more && f.sent == t.sent
    && f.link.reader == ReaderIdle && f.link.writer == t.link.writer
  }

  lemma {:induction false} FrameIsPublished(t: Talk, m: Message)
    requires TalkGood(t) && t.link.writer.WriterCopying? && t.link.writer.data == Frame(m)
    ensures var ops := Writing(|Frame(m)| - t.link.writer.done);
            IsTalk(t, ops) && Published(t, TalkEnd(t, ops), [m])
    decreases |Frame(m)| - t.link.writer.done
  {
    hide Frame, Framing, PartiesFine, StreamRuns.Stored, WriterFine, ReaderFine, Step, IsTalk, TalkEnd;
    var op := if t.link.writer.done < |Frame(m)| then CopyIn else PublishHead;
    WriteFits(t.link);
    FrameLength(m);
    CopyIs(t.link, op);
    TalkKeeps(t, op);
    var r := TalkStep(t, op);
    if op.CopyIn? {
      FrameIsPublished(r, m);
      FirstTalk(t, op, Writing(|Frame(m)| - t.link.writer.done - 1));
    } else {
      NoTalk(r);
      FirstTalk(t, op, []);
      assert [op] + [] == [op];
    }
  }

  /** A send that is not interrupted publishes the whole message exactly when its
      frame fits into the space that is free when it begins. */
  lemma SendThrough(t: Talk, m: Message)
    requires TalkGood(t) && t.link.writer.WriterIdle?
    ensures var fits := |t.link.accepted| + |Frame(m)| < |t.link.delivered| + |t.link.bytes|;
            var ops := [SampleTail] + ([BeginWrite(Frame(m), true)] + if fits then Writing(|Frame(m)|) else []);
            IsTalk(t, ops) && Published(t, TalkEnd(t, ops), if fits then [m] else [])
  {
    hide Frame, Framing, PartiesFine, StreamRuns.Stored, WriterFine, ReaderFine, Step, IsTalk, TalkEnd;
    FreeIsNat(t.link);
    FrameLength(m);
    StepIs(t.link, SampleTail);
    TalkKeeps(t, SampleTail);
    var s, begin := TalkStep(t, SampleTail), BeginWrite(Frame(m), true);
    StepIs(s.link, begin);
    TalkKeeps(s, begin);
    var b := TalkStep(s, begin);
    if |t.link.accepted| + |Frame(m)| < |t.link.delivered| + |t.link.bytes| {
      assert Frame(m)[..|Frame(m)|] == Frame(m);
      FrameIsPublished(b, m);
      FirstTalk(s, begin, Writing(|Frame(m)|));
      FirstTalk(t, SampleTail, [begin] + Writing(|Frame(m)|));
    } else {
      NoTalk(b);
      FirstTalk(s, begin, []);
      FirstTalk(t, SampleTail, [begin] + []);
    }
  }

  lemma CopyingGives(t: Talk)
    requires TalkGood(t) && t.link.reader.ReaderCopying?
    ensures |t.fetched| < |t.sent| && |t.link.reader.got| <= t.link.reader.count <= t.link.reader.available
    ensures t.link.reader.count == LENGTH_BYTES || t.link.reader.count == |Frame(t.sent[|t.fetched|])|
    ensures t.link.reader.got == Frame(t.sent[|t.fetched|])[..|t.link.reader.got|]
    ensures |Frame(t.sent[|t.fetched|])| <= t.link.reader.available
    ensures t.link.reader.count <= |t.link.bytes|
  {
    hide Frame, Framed, StreamRuns.Stored;
    FrameLength(t.sent[|t.fetched|]);
    NextBytes(t, |t.link.reader.got|);
    ReadFits(t.link);
  }

  /** The data of the next message are read, and it is taken off. */
  lemma {:induction false} DataIsTaken(t: Talk)
    requires TalkGood(t) && t.link.reader.ReaderCopying?
    requires |t.fetched| < |t.sent| && t.link.reader.count == |Frame(t.sent[|t.fetched|])|
    ensures |t.link.reader.got| <= t.link.reader.count
    ensures var ops := Reading(t.link.reader.count - |t.link.reader.got|);
            IsTalk(t, ops) && TakenOff(t, TalkEnd(t, ops), [t.sent[|t.fetched|]])
    decreases t.link.reader.count - |t.link.reader.got|
  {
    hide Frame, Framing, PartiesFine, StreamRuns.Stored, WriterFine, ReaderFine, Step, IsTalk, TalkEnd;
    CopyingGives(t);
    var m := t.sent[|t.fetched|];
    FrameLength(m);
    var op := if |t.link.reader.got| < t.link.reader.count then CopyOut else PublishTail;
    assert op.PublishTail? ==> t.link.reader.got == Frame(m);
    CopyIs(t.link, op);
    TalkKeeps(t, op);
    var r := TalkStep(t, op);
    if op.CopyOut? {
      DataIsTaken(r);
      FirstTalk(t, op, Reading(t.link.reader.count - |t.link.reader.got| - 1));
    } else {
      NoTalk(r);
      FirstTalk(t, op, []);
      assert [op] + [] == [op];
    }
  }

  ghost function Copying(n: nat, ops: seq<Op>): seq<Op> {
    if n == 0 then ops else [CopyOut] + Copying(n - 1, ops)
  }

  /** What a reader does with the length in hand: it gives up on a message that
      is longer than its limit. */
  ghost function AfterLength(m: Message, limit: nat): seq<Op> {
    [ReadOn(limit)] + if |m| <= limit then Reading(|m|) else []
  }

  lemma ReadOnIs(t: Talk, limit: nat)
    requires TalkGood(t) && t.link.reader.ReaderCopying?
    requires t.link.reader.count == LENGTH_BYTES == |t.link.reader.got|
    ensures Allowed(t, ReadOn(limit)) && |t.fetched| < |t.sent|
    ensures var g, m := t.link.reader, t.sent[|t.fetched|];
            TalkStep(t, ReadOn(limit)) ==
            t.(link := t.link.(reader := if |m| > limit then ReaderIdle
                                         else ReaderCopying(|Frame(m)|, g.got, g.available)))
  {
    hide Frame, Framed, DecodeLength, StreamRuns.Stored, Framing, PartiesFine;
    CopyingGives(t);
    FrameLength(t.sent[|t.fetched|]);
  }

  lemma {:induction false} LengthIsRead(t: Talk, limit: nat)
    requires TalkGood(t) && t.link.reader.ReaderCopying? && t.link.reader.count == LENGTH_BYTES
    ensures |t.fetched| < |t.sent| && |t.link.reader.got| <= LENGTH_BYTES
    ensures var m := t.sent[|t.fetched|];
            var ops := Copying(LENGTH_BYTES - |t.link.reader.got|, AfterLength(m, limit));
            IsTalk(t, ops) && TakenOff(t, TalkEnd(t, ops), if |m| <= limit then [m] else [])
    decreases LENGTH_BYTES - |t.link.reader.got|
  {
    hide Frame, Framing, PartiesFine, StreamRuns.Stored, WriterFine, ReaderFine, Step, IsTalk, TalkEnd, TalkStep;
    CopyingGives(t);
    var m := t.sent[|t.fetched|];
    FrameLength(m);
    if |t.link.reader.got| < LENGTH_BYTES {
      CopyOutTalk(t);
      var r := TalkStep(t, CopyOut);
      LengthIsRead(r, limit);
      FirstTalk(t, CopyOut, Copying(LENGTH_BYTES - |t.link.reader.got| - 1, AfterLength(m, limit)));
    } else {
      ReadOnIs(t, limit);
      TalkKeeps(t, ReadOn(limit));
      var r := TalkStep(t, ReadOn(limit));
      if |m| <= limit {
        DataIsTaken(r);
        FirstTalk(t, ReadOn(limit), Reading(|m|));
      } else {
        NoTalk(r);
        FirstTalk(t, ReadOn(limit), []);
      }
    }
  }

  lemma CopyOutTalk(t: Talk)
    requires TalkGood(t) && t.link.reader.ReaderCopying? && |t.link.reader.got| < t.link.reader.count
    ensures Allowed(t, CopyOut) && TalkGood(TalkStep(t, CopyOut))
    ensures var r := TalkStep(t, CopyOut);
            && r.sent == t.sent && r.fetched == t.fetched && r.link.writer == t.link.writer
            && r.link.reader.ReaderCopying? && r.link.reader.count == t.link.reader.count
            && |r.link.reader.got| == |t.link.reader.got| + 1
  {
    hide Frame, Framing, PartiesFine, StreamRuns.Stored, WriterFine, ReaderFine;
    CopyingGives(t);
    TalkKeeps(t, CopyOut);
  }

  /** A receive that is not interrupted takes the next message off whole, unless
      it is longer than the caller's limit: then the message stays. */
  lemma FetchThrough(t: Talk, limit: nat)
    requires TalkGood(t) && t.link.reader.ReaderIdle? && |t.fetched| < |t.sent|
    ensures var m := t.sent[|t.fetched|];
            var ops := [SampleHead] + ([BeginRead(LENGTH_BYTES)] + Copying(LENGTH_BYTES, AfterLength(m, limit)));
            IsTalk(t, ops) && TakenOff(t, TalkEnd(t, ops), if |m| <= limit then [m] else [])
  {
    hide Frame, PartiesFine, Framed, StreamRuns.Stored, WriterFine, ReaderFine, Step, IsTalk, TalkEnd, Copying;
    var m := t.sent[|t.fetched|];
    FrameLength(m);
    Pending(t);
    StepIs(t.link, SampleHead);
    TalkKeeps(t, SampleHead);
    var s, begin := TalkStep(t, SampleHead), BeginRead(LENGTH_BYTES);
    StepIs(s.link, begin);
    TalkKeeps(s, begin);
    var b := TalkStep(s, begin);
    LengthIsRead(b, limit);
    FirstTalk(s, begin, Copying(LENGTH_BYTES, AfterLength(m, limit)));
    FirstTalk(t, SampleHead, [begin] + Copying(LENGTH_BYTES, AfterLength(m, limit)));
  }
}
