/** Stream and message buffers (stream_buffer.c): the ring of bytes as an
    object, and message framing on top of it. */
module StreamBuffers {
  import opened Lists

  type byte = b: int | 0 <= b < 256

  // ----- message framing --------------------------------------------------------------

  const LENGTH_BYTES: nat := 4         // sbBYTES_TO_STORE_MESSAGE_LENGTH
  const LENGTH_LIMIT: nat := 0x1_0000_0000

  /** A length as the bytes that a little-endian machine stores for it. */
  function EncodeLength(n: nat): (s: seq<byte>)
    requires n < LENGTH_LIMIT
    ensures |s| == LENGTH_BYTES
  {
    [n % 256, n / 256 % 256, n / 0x1_0000 % 256, n / 0x100_0000]
  }

  function DecodeLength(s: seq<byte>): nat
    requires |s| == LENGTH_BYTES
  {
    var a: int, b: int, c: int, d: int := s[0], s[1], s[2], s[3];
    a + 256 * b + 0x1_0000 * c + 0x100_0000 * d
  }

  lemma LengthRoundTrip(n: nat)
    requires n < LENGTH_LIMIT
    ensures DecodeLength(EncodeLength(n)) == n
  {
    var a := n / 256;
    var b := a / 256;
    assert n / 0x1_0000 == b && n / 0x100_0000 == b / 256;
  }

  type Message = m: seq<byte> | 0 < |m| < LENGTH_LIMIT witness [0]

  function Frame(m: Message): seq<byte> {
    EncodeLength(|m|) + m
  }

  function Framed(ms: seq<Message>): seq<byte> {
    if ms == [] then [] else Frame(ms[0]) + Framed(ms[1..])
  }

  /** Reading length-prefixed messages until fewer bytes than a whole one are left. */
  function Parse(bytes: seq<byte>): seq<seq<byte>>
    decreases |bytes|
  {
    if |bytes| < LENGTH_BYTES then []
    else
      var n := DecodeLength(bytes[..LENGTH_BYTES]);
      if LENGTH_BYTES + n > |bytes| then []
      else [bytes[LENGTH_BYTES..LENGTH_BYTES + n]] + Parse(bytes[LENGTH_BYTES + n..])
  }

  lemma FrameSplits(m: Message, rest: seq<byte>)
    ensures var s := Frame(m) + rest;
            && |s| == LENGTH_BYTES + |m| + |rest|
            && s[..LENGTH_BYTES] == EncodeLength(|m|) && DecodeLength(s[..LENGTH_BYTES]) == |m|
            && s[LENGTH_BYTES..LENGTH_BYTES + |m|] == m && s[LENGTH_BYTES + |m|..] == rest
  {
    LengthRoundTrip(|m|);
  }

  /** The stored bytes parse as exactly the messages that were stored. */
  lemma {:induction false} ParseFramed(ms: seq<Message>)
    ensures Parse(Framed(ms)) == ms
  {
    if ms != [] {
      hide DecodeLength, EncodeLength;
      FrameSplits(ms[0], Framed(ms[1..]));
      ParseFramed(ms[1..]);
    }
  }

  lemma {:induction false} FramedAppend(ms: seq<Message>, m: Message)
    ensures Framed(ms + [m]) == Framed(ms) + Frame(m)
  {
    if ms == [] {
      assert Framed([m]) == Frame(m) + Framed([]);
    } else {
      FramedAppend(ms[1..], m);
      assert (ms + [m])[1..] == ms[1..] + [m];
      assert Frame(ms[0]) + (Framed(ms[1..]) + Frame(m)) == (Frame(ms[0]) + Framed(ms[1..])) + Frame(m);
    }
  }

  // ----- the ring ------------------------------------------------------------------------

  function Least(a: nat, b: nat): nat {
    if a < b then a else b
  }

  /** The place i bytes after place p in a ring of n. */
  function Along(p: nat, i: nat, n: nat): (r: nat)
    requires p < n && i <= n
    ensures r < n
  {
    if p + i < n then p + i else p + i - n
  }

  /** How many bytes lie from the tail to the head. */
  function Stored(head: nat, tail: nat, n: nat): (r: nat)
    requires head < n && tail < n
    ensures r < n && head == Along(tail, r, n)
  {
    if head >= tail then head - tail else head + n - tail
  }

  lemma StoredAfter(head: nat, tail: nat, n: nat, d: nat)
    requires head < n && tail < n && d <= Stored(head, tail, n)
    ensures Stored(head, Along(tail, d, n), n) == Stored(head, tail, n) - d
  {
  }

  lemma StoredGrows(head: nat, tail: nat, n: nat, d: nat)
    requires head < n && tail < n && Stored(head, tail, n) + d < n
    ensures Stored(Along(head, d, n), tail, n) == Stored(head, tail, n) + d
  {
  }

  lemma AlongTwice(p: nat, i: nat, j: nat, n: nat)
    requires p < n && i + j <= n
    ensures Along(Along(p, i, n), j, n) == Along(p, i + j, n)
  {
  }

  /** How far after place p place q is. */
  function Distance(p: nat, q: nat, n: nat): (d: nat)
    requires p < n && q < n
    ensures d < n && Along(p, d, n) == q
  {
    if q >= p then q - p else q + n - p
  }

  /** The n bytes from place p on. */
  function Window(bytes: seq<byte>, p: nat, n: nat): (s: seq<byte>)
    requires p < |bytes| && n <= |bytes|
    ensures |s| == n && forall i :: 0 <= i < n ==> s[i] == bytes[Along(p, i, |bytes|)]
  {
    seq(n, i requires 0 <= i < n => bytes[Along(p, i, |bytes|)])
  }

  /** bytes' is bytes with data written from place p on. */
  ghost predicate Overlaid(bytes: seq<byte>, bytes': seq<byte>, p: nat, data: seq<byte>)
    requires p < |bytes|
  {
    && |bytes'| == |bytes| && |data| <= |bytes|
    && forall q :: 0 <= q < |bytes| ==>
         bytes'[q] == var d := Distance(p, q, |bytes|); if d < |data| then data[d] else bytes[q]
  }

  /** Bytes written right behind n stored ones are appended to them, and the
      stored ones stay. */
  lemma WriteAppends(bytes: seq<byte>, bytes': seq<byte>, tail: nat, n: nat, data: seq<byte>)
    requires tail < |bytes| && n + |data| < |bytes|
    requires Overlaid(bytes, bytes', Along(tail, n, |bytes|), data)
    ensures Window(bytes', tail, n) == Window(bytes, tail, n)
    ensures Window(bytes', tail, n + |data|) == Window(bytes, tail, n) + data
  {
    var head := Along(tail, n, |bytes|);
    forall i | 0 <= i < n + |data| ensures Window(bytes', tail, n + |data|)[i] == (Window(bytes, tail, n) + data)[i] {
      var q := Along(tail, i, |bytes|);
      assert Distance(head, q, |bytes|) == if i < n then |bytes| - n + i else i - n;
    }
    assert Window(bytes', tail, n) == Window(bytes', tail, n + |data|)[..n];
  }

  /** Two writes in a row are one write of both. */
  lemma WritesJoin(bytes: seq<byte>, bytes': seq<byte>, bytes'': seq<byte>, p: nat, a: seq<byte>, b: seq<byte>)
    requires p < |bytes| && |a| + |b| <= |bytes|
    requires Overlaid(bytes, bytes', p, a) && Overlaid(bytes', bytes'', Along(p, |a|, |bytes|), b)
    ensures Overlaid(bytes, bytes'', p, a + b)
  {
    var n := |bytes|;
    forall q | 0 <= q < n
      ensures bytes''[q] == var d := Distance(p, q, n); if d < |a + b| then (a + b)[d] else bytes[q]
    {
      var d := Distance(p, q, n);
      assert Distance(Along(p, |a|, n), q, n) == if d < |a| then n - |a| + d else d - |a|;
    }
  }

  /** Moving the tail over bytes drops them from the front. */
  lemma ReadDrops(bytes: seq<byte>, tail: nat, n: nat, skip: nat, data: seq<byte>)
    requires tail < |bytes| && n < |bytes| && skip + |data| <= n
    requires data == Window(bytes, Along(tail, skip, |bytes|), |data|)
    ensures Window(bytes, tail, n)[skip..skip + |data|] == data
    ensures Window(bytes, Along(tail, skip + |data|, |bytes|), n - skip - |data|) ==
            Window(bytes, tail, n)[skip + |data|..]
    ensures Along(Along(tail, skip, |bytes|), |data|, |bytes|) == Along(tail, skip + |data|, |bytes|)
  {
    hide Window;
    var size, all := |bytes|, Window(bytes, tail, n);
    forall i | 0 <= i < |data| ensures all[skip..skip + |data|][i] == data[i] {
      AlongTwice(tail, skip, i, size);
    }
    var rest := Window(bytes, Along(tail, skip + |data|, size), n - skip - |data|);
    forall i | 0 <= i < |rest| ensures all[skip + |data|..][i] == rest[i] {
      AlongTwice(tail, skip + |data|, i, size);
    }
  }

  class StreamBuffer {
    const buffer: array<byte>            // pucBuffer, of xLength bytes
    const isMessageBuffer: bool          // sbFLAGS_IS_MESSAGE_BUFFER
    var head: nat                        // xHead
    var tail: nat                        // xTail
    ghost var messages: seq<Message>

    ghost predicate Fine()
      reads this
    {
      head < buffer.Length && tail < buffer.Length
    }

    /** The bytes from tail to head. */
    ghost function Contents(): (s: seq<byte>)
      requires Fine()
      reads this, buffer
    {
      Window(buffer[..], tail, Count())
    }

    ghost function Count(): nat
      requires Fine()
      reads this
    {
      Stored(head, tail, buffer.Length)
    }

    /** A message buffer holds whole frames, and nothing else. */
    ghost predicate Valid()
      reads this, buffer
    {
      Fine() && (isMessageBuffer ==> Contents() == Framed(messages))
    }

    /** xStreamBufferGenericCreate; one byte more than was asked for */
    constructor (size: nat, forMessages: bool)
      requires size > if forMessages then LENGTH_BYTES else 0
      ensures Valid() && Contents() == [] && messages == [] && fresh(buffer)
      ensures buffer.Length == size + 1 && isMessageBuffer == forMessages
    {
      buffer := new byte[size + 1];
      isMessageBuffer, head, tail, messages := forMessages, 0, 0, [];
    }

    /** prvBytesInBuffer */
    function BytesInBuffer(): (n: nat)
      requires Fine()
      reads this
      ensures n == Count()
    {
      var n := buffer.Length + head - tail;
      if n >= buffer.Length then n - buffer.Length else n
    }

    /** xStreamBufferSpacesAvailable, with the indices at rest */
    function SpacesAvailable(): (n: nat)
      requires Fine()
      reads this
      ensures n + Count() + 1 == buffer.Length
    {
      var n := buffer.Length + tail - head - 1;
      if n >= buffer.Length then n - buffer.Length else n
    }

    /** prvWriteBytesToBuffer: at most two copies, the second from the start. */
    method WriteBytes(data: seq<byte>, from: nat) returns (next: nat)
      requires 0 < |data| <= buffer.Length && from < buffer.Length
      modifies buffer
      ensures next == Along(from, |data|, buffer.Length)
      ensures Overlaid(old(buffer[..]), buffer[..], from, data)
    {
      var first := Least(buffer.Length - from, |data|);
      forall i | 0 <= i < first {
        buffer[from + i] := data[i];
      }
      if |data| > first {
        forall i | 0 <= i < |data| - first {
          buffer[i] := data[first + i];
        }
      }
      next := from + |data|;
      if next >= buffer.Length {
        next := next - buffer.Length;
      }
    }

    /** prvReadBytesFromBuffer */
    method ReadBytes(count: nat, from: nat) returns (data: seq<byte>, next: nat)
      requires 0 < count <= buffer.Length && from < buffer.Length
      ensures next == Along(from, count, buffer.Length) && data == Window(buffer[..], from, count)
    {
      var first := Least(buffer.Length - from, count);
      data := buffer[from..from + first];
      if count > first {
        data := data + buffer[..count - first];
      }
      next := from + count;
      if next >= buffer.Length {
        next := next - buffer.Length;
      }
    }

    lemma HeadIs()
      requires Fine()
      ensures Count() < buffer.Length && head == Along(tail, Count(), buffer.Length)
      ensures Along(tail, 0, buffer.Length) == tail
    {
    }

    /** prvWriteMessageToBuffer; space may be a count that was true earlier,
        since only the reader changes it meanwhile, and only upwards. */
    method WriteMessage(data: seq<byte>, space: nat, required: nat) returns (sent: nat)
      requires Valid() && space <= SpacesAvailable()
      requires isMessageBuffer ==> required == |data| + LENGTH_BYTES < LENGTH_LIMIT
      modifies buffer, `head, `messages
      ensures Valid()
      ensures sent == if !isMessageBuffer then Least(|data|, space) else if required <= space then |data| else 0
      ensures !isMessageBuffer ==> Contents() == old(Contents()) + data[..sent]
      ensures isMessageBuffer ==> messages == if sent > 0 then old(messages) + [data] else old(messages)
    {
      hide Window, Framed, EncodeLength, Overlaid, Along, Stored;
      var nextHead := head;
      sent := |data|;
      ghost var bytes, n := buffer[..], Count();
      HeadIs();
      if isMessageBuffer {
        if space >= required {
          nextHead := WriteBytes(EncodeLength(|data|), nextHead);
          WriteAppends(bytes, buffer[..], tail, n, EncodeLength(|data|));
        } else {
          sent := 0;
        }
      } else {
        sent := Least(|data|, space);
      }
      if sent != 0 {
        ghost var middle := buffer[..];
        head := WriteBytes(data[..sent], nextHead);
        StoredGrows(old(head), tail, buffer.Length, sent + if isMessageBuffer then LENGTH_BYTES else 0);
        if isMessageBuffer {
          assert data[..sent] == data;
          AlongTwice(old(head), LENGTH_BYTES, sent, buffer.Length);
          WritesJoin(bytes, middle, buffer[..], old(head), EncodeLength(|data|), data);
          WriteAppends(bytes, buffer[..], tail, n, Frame(data));
          FramedAppend(messages, data);
          messages := messages + [data];
        } else {
          WriteAppends(bytes, buffer[..], tail, n, data[..sent]);
        }
      }
    }

    /** xStreamBufferSend without waiting, and xStreamBufferSendFromISR: a
        stream buffer takes what fits, a message buffer all or nothing. */
    method Send(data: seq<byte>) returns (sent: nat)
      requires Valid() && (isMessageBuffer ==> |data| + LENGTH_BYTES < LENGTH_LIMIT)
      modifies buffer, `head, `messages
      ensures Valid()
      ensures !isMessageBuffer ==>
                sent == Least(|data|, old(SpacesAvailable())) && Contents() == old(Contents()) + data[..sent]
      ensures isMessageBuffer ==>
                && sent == (if |data| + LENGTH_BYTES <= old(SpacesAvailable()) then |data| else 0)
                && messages == if sent > 0 then old(messages) + [data] else old(messages)
    {
      var required := |data|;
      if isMessageBuffer {
        required := required + LENGTH_BYTES;
      }
      sent := WriteMessage(data, SpacesAvailable(), required);
    }

    lemma FirstFrame()
      requires Valid() && isMessageBuffer && messages != []
      ensures var m := messages[0];
              && LENGTH_BYTES + |m| <= Count()
              && Contents()[..LENGTH_BYTES] == EncodeLength(|m|)
              && Contents()[LENGTH_BYTES..LENGTH_BYTES + |m|] == m
              && Contents()[LENGTH_BYTES + |m|..] == Framed(messages[1..])
      ensures DecodeLength(Contents()[..LENGTH_BYTES]) == |messages[0]|
    {
      FrameSplits(messages[0], Framed(messages[1..]));
    }

    /** prvReadMessageFromBuffer: a message too long for the caller stays. */
    method ReadMessage(limit: nat, available: nat) returns (data: seq<byte>)
      requires Valid() && available <= Count()
      requires isMessageBuffer ==> messages != [] && available >= LENGTH_BYTES + |messages[0]|
      modifies `tail, `messages
      ensures Valid()
      ensures !isMessageBuffer ==> |data| == Least(limit, available) && old(Contents()) == data + Contents()
      ensures isMessageBuffer ==>
                if |old(messages[0])| <= limit then old(messages) == [data] + messages
                else data == [] && messages == old(messages) && Contents() == old(Contents())
    {
      hide Window, Framed, EncodeLength, DecodeLength, Along, Stored;
      var nextTail, wanted, left := tail, limit, available;
      if isMessageBuffer {
        FirstFrame();
        var lengthBytes;
        lengthBytes, nextTail := ReadBytes(LENGTH_BYTES, nextTail);
        HeadIs();
        ReadDrops(buffer[..], tail, Count(), 0, lengthBytes);
        wanted := DecodeLength(lengthBytes);
        left := left - LENGTH_BYTES;
        if wanted > limit {
          wanted := 0;
        }
      }
      var count := Least(wanted, left);
      data := [];
      if count != 0 {
        ghost var skip := if isMessageBuffer then LENGTH_BYTES else 0;
        HeadIs();
        data, tail := ReadBytes(count, nextTail);
        ReadDrops(buffer[..], old(tail), old(Count()), skip, data);
        StoredAfter(head, old(tail), buffer.Length, skip + count);
        if isMessageBuffer {
          messages := messages[1..];
        }
      }
    }

    /** xStreamBufferReceive without waiting, and xStreamBufferReceiveFromISR */
    method Receive(limit: nat) returns (data: seq<byte>)
      requires Valid()
      modifies `tail, `messages
      ensures Valid()
      ensures !isMessageBuffer ==>
                |data| == Least(limit, old(Count())) && old(Contents()) == data + Contents()
      ensures isMessageBuffer ==>
                if old(messages) != [] && |old(messages)[0]| <= limit then old(messages) == [data] + messages
                else data == [] && messages == old(messages) && Contents() == old(Contents())
    {
      data := [];
      var available := BytesInBuffer();
      if isMessageBuffer && messages != [] {
        FirstFrame();
      }
      if available > if isMessageBuffer then LENGTH_BYTES else 0 {
        data := ReadMessage(limit, available);
      }
    }

    /** xStreamBufferNextMessageLengthBytes: the length of the message that the
        next receive returns; its assertion holds. */
    method NextMessageLength() returns (n: nat)
      requires Valid()
      ensures n == if isMessageBuffer && messages != [] then |messages[0]| else 0
    {
      n := 0;
      if isMessageBuffer {
        if messages != [] {
          FirstFrame();
        }
        var available := BytesInBuffer();
        if available > LENGTH_BYTES {
          var lengthBytes, _ := ReadBytes(LENGTH_BYTES, tail);
          HeadIs();
          ReadDrops(buffer[..], tail, Count(), 0, lengthBytes);
          n := DecodeLength(lengthBytes);
        } else {
          assert available == 0;
        }
      }
    }

    method Perform(op: MessageOp) returns (accepted: seq<Message>, delivered: seq<Message>)
      requires Valid() && isMessageBuffer && Suits(op)
      modifies buffer, `head, `tail, `messages
      ensures Valid()
      ensures (accepted, delivered, messages) == MessageStep(old(messages), buffer.Length - 1, op)
    {
      hide Framed, Window, Stored;
      accepted, delivered := [], [];
      match op {
        case Post(data) =>
          var sent := Send(data);
          if sent > 0 {
            accepted := [data];
          }
        case Fetch(limit) =>
          var data := Receive(limit);
          if data != [] {
            delivered := [data];
          }
      }
    }

    /** Any sequence of sends and receives on a message buffer: what the ring of
        bytes accepts, delivers and keeps are whole messages, in order. */
    method Execute(ops: seq<MessageOp>) returns (accepted: seq<Message>, delivered: seq<Message>)
      requires Valid() && isMessageBuffer && forall i :: 0 <= i < |ops| ==> Suits(ops[i])
      modifies buffer, `head, `tail, `messages
      ensures Valid()
      ensures (accepted, delivered, messages) == MessageRun(old(messages), buffer.Length - 1, ops)
      ensures delivered + messages == old(messages) + accepted && Parse(Contents()) == messages
    {
      hide Framed, Window, Stored, MessageStep, Parse;
      accepted, delivered := [], [];
      ghost var was := messages;
      var i := 0;
      while i < |ops|
        invariant 0 <= i <= |ops| && Valid()
        invariant (accepted, delivered, messages) == MessageRun(was, buffer.Length - 1, ops[..i])
      {
        assert ops[..i + 1][..i] == ops[..i] && Suits(ops[i]);
        var taken, given := Perform(ops[i]);
        accepted, delivered := accepted + taken, delivered + given;
        i := i + 1;
      }
      assert ops[..|ops|] == ops;
      MessagesRoundTrip(was, buffer.Length - 1, ops);
    }
  }

  // ----- whole runs of a message buffer ---------------------------------------------------

  datatype MessageOp = Post(data: seq<byte>) | Fetch(limit: nat)

  /** The assertion of xStreamBufferSend that the frame's length does not wrap. */
  predicate Suits(op: MessageOp) {
    op.Post? ==> |op.data| + LENGTH_BYTES < LENGTH_LIMIT
  }

  /** One call on a message buffer of the given capacity: the accepted and the
      delivered messages, and those that are left. */
  function MessageStep(ms: seq<Message>, capacity: nat, op: MessageOp): (seq<Message>, seq<Message>, seq<Message>) {
    match op
    case Post(data) =>
      if 0 < |data| && |data| + LENGTH_BYTES < LENGTH_LIMIT && |Framed(ms)| + LENGTH_BYTES + |data| <= capacity
      then ([data], [], ms + [data]) else ([], [], ms)
    case Fetch(limit) =>
      if ms != [] && |ms[0]| <= limit then ([], [ms[0]], ms[1..]) else ([], [], ms)
  }

  /** A message is accepted exactly when it is not empty and its frame fits beside
      the stored ones; a fetch returns the oldest message unless it is longer
      than the caller's limit. */
  lemma MessageStepTakes(ms: seq<Message>, capacity: nat, op: MessageOp)
    requires Suits(op)
    ensures op.Post? ==>
              var s := MessageStep(ms, capacity, op);
              && s.1 == [] && s.2 == ms + s.0
              && s.0 == if op.data != [] && |Framed(ms)| + LENGTH_BYTES + |op.data| <= capacity then [op.data] else []
    ensures op.Fetch? ==>
              var s := MessageStep(ms, capacity, op);
              && s.0 == [] && s.1 + s.2 == ms
              && |s.1| == if ms != [] && |ms[0]| <= op.limit then 1 else 0
  {
    hide Framed;
  }

  function MessageRun(ms: seq<Message>, capacity: nat, ops: seq<MessageOp>): (seq<Message>, seq<Message>, seq<Message>)
    decreases |ops|
  {
    if ops == [] then ([], [], ms)
    else
      var r := MessageRun(ms, capacity, ops[..|ops| - 1]);
      var s := MessageStep(r.2, capacity, ops[|ops| - 1]);
      (r.0 + s.0, r.1 + s.1, s.2)
  }

  /** Messages come out whole, in order, and each accepted one is delivered or
      still stored, where the stored bytes parse as exactly those. */
  lemma {:induction false} MessagesRoundTrip(ms: seq<Message>, capacity: nat, ops: seq<MessageOp>)
    requires |Framed(ms)| <= capacity
    ensures var r := MessageRun(ms, capacity, ops);
            && r.1 + r.2 == ms + r.0
            && |Framed(r.2)| <= capacity && Parse(Framed(r.2)) == r.2
    decreases |ops|
  {
    hide Frame, Parse, Framed;
    if ops == [] {
      ParseFramed(ms);
    } else {
      var r := MessageRun(ms, capacity, ops[..|ops| - 1]);
      var s := MessageStep(r.2, capacity, ops[|ops| - 1]);
      MessagesRoundTrip(ms, capacity, ops[..|ops| - 1]);
      StepFits(r.2, capacity, ops[|ops| - 1]);
      Follows(r.1, r.2, ms, r.0, s.1, s.2, s.0);
      ParseFramed(s.2);
    }
  }

  lemma StepFits(ms: seq<Message>, capacity: nat, op: MessageOp)
    requires |Framed(ms)| <= capacity
    ensures var s := MessageStep(ms, capacity, op);
            |Framed(s.2)| <= capacity && s.1 + s.2 == ms + s.0
  {
    if op.Post? && 0 < |op.data| < LENGTH_LIMIT {
      FramedAppend(ms, op.data);
    }
  }
}
