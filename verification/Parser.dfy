/** Cutting frames back out of the receive buffer (src/callbacks.h). */
module Parser {
  import opened Bytes
  import opened Wire
  import opened PendingReplies
  import opened SwapList

  datatype Reason = WrongProtocol | WrongVersion | WrongDelimiter | NoDelimiter

  /** What one call of processMessage does: nothing yet, drop out with an error, drop out at an unknown type, or
      take a frame of size bytes off the buffer. answered is the key of the pending entry the frame answers;
      message is what its handler gets, None for a frame that no send function builds (other sizes, or flags that
      do not go with the type): the source calls some handler for those as well, which this model leaves out. */
  datatype Outcome =
    | Incomplete
    | Rejected(reason: Reason)
    | Unknown(answered: Option<u64>)
    | Handled(size: nat, answered: Option<u64>, message: Option<Message>)

  /** A frame with the reply flag answers the message with its own two ids. */
  function AnsweredBy(flags: nat, sessionId: nat, messageId: nat): Option<u64> {
    if flags / FLAG_REPLY % 2 == 1 then Some(Key(Low32(sessionId), Low32(messageId))) else None
  }

  function NextMessage(ring: seq<byte>): (o: Outcome)
    ensures o.Handled? ==> 0 < o.size <= |ring|
  {
    if |ring| < HEADER_SIZE then Incomplete
    else
      HeaderWidth();
      var h := Unpack(HEADER_WIDTHS, ring);
      var answered := AnsweredBy(h[4], h[6], h[7]);
      if h[0] != PROTOCOL_IDENTIFIER then Rejected(WrongProtocol)
      else if h[1] != 1 then Rejected(WrongVersion)
      else if |ring| < h[8] then Incomplete
      else if h[8] < 4 then Rejected(NoDelimiter)
      else if Word(ring, h[8] / 4 - 1) != MESSAGE_DELIMITER then Rejected(WrongDelimiter)
      else if h[2] == 0 || h[2] > 6 then Unknown(answered)
      else Handled(h[8], answered, if h[8] < HEADER_SIZE then None else Decode(ring[..h[8]]))
  }

  /** The messages handled, the keys of the entries they answered, both in order, and the bytes left over. */
  datatype Drained = Drained(messages: seq<Message>, answered: seq<u64>, rest: seq<byte>)

  function Listed<T>(o: Option<T>): seq<T> { if o.Some? then [o.value] else [] }

  /** processMessage until it returns 0. */
  function Drain(ring: seq<byte>): (d: Drained)
    decreases |ring|
  {
    var o := NextMessage(ring);
    if o.Handled? then
      var d := Drain(ring[o.size..]);
      Drained(Listed(o.message) + d.messages, Listed(o.answered) + d.answered, d.rest)
    else Drained([], [], ring)
  }

  /** A frame of unknown type stays in the buffer, yet each look at it strikes out what it answers. */
  function Stuck(ring: seq<byte>): Option<u64> {
    if NextMessage(ring).Unknown? then NextMessage(ring).answered else None
  }

  /** The receiving side of one connection: its ring buffer and the messages given to the handlers. */
  class Receiver<S(==)> {
    const replies: ReplyHandler<S>
    var ring: seq<byte>
    var dispatched: seq<Message>

    constructor (replies: ReplyHandler<S>)
      ensures this.replies == replies && ring == [] && dispatched == []
    {
      this.replies := replies;
      ring, dispatched := [], [];
    }

    /** One call: an incomplete or rejected frame changes nothing; otherwise the frame leaves the buffer, the
        entry a reply answers leaves the pending list, and the message goes to its handler. */
    method ProcessMessage() returns (taken: nat)
      modifies this, replies
      ensures var o := NextMessage(old(ring));
              if o.Handled? then
                && taken == o.size && ring == old(ring)[o.size..]
                && dispatched == old(dispatched) + Listed(o.message)
                && replies.messageList == Struck(old(replies.messageList), o.answered)
              else
                && taken == 0 && ring == old(ring) && dispatched == old(dispatched)
                && replies.messageList == Struck(old(replies.messageList), Stuck(old(ring)))
    {
      hide Word, Decode, Unpack, Sum, Find, Remove, FromLE;
      if |ring| < HEADER_SIZE {
        return 0;
      }
      HeaderWidth();
      var h := Unpack(HEADER_WIDTHS, ring);
      if h[0] != PROTOCOL_IDENTIFIER || h[1] != 1 || |ring| < h[8] || h[8] < 4 {
        return 0;
      }
      if Word(ring, h[8] / 4 - 1) != MESSAGE_DELIMITER {
        return 0;
      }
      if h[4] / 2 % 2 == 1 {
        var _ := replies.RemoveMessage(Key(Low32(h[6]), Low32(h[7])));
      }
      if h[2] == 0 || h[2] > 6 {
        return 0;
      }
      if HEADER_SIZE <= h[8] {
        var decoded := Decode(ring[..h[8]]);
        if decoded.Some? {
          dispatched := dispatched + [decoded.value];
        }
      }
      ring := ring[h[8]..];
      return h[8];
    }

    /** New bytes arrive, and the socket calls processMessage until it takes nothing more. */
    method Receive(chunk: seq<byte>)
      modifies this, replies
      ensures var d := Drain(old(ring) + chunk);
              && dispatched == old(dispatched) + d.messages && ring == d.rest
              && replies.messageList == Struck(StruckAll(old(replies.messageList), d.answered), Stuck(d.rest))
    {
      hide NextMessage, Drain, Remove, Stuck;
      ring := ring + chunk;
      ghost var all, before, pending := ring, dispatched, replies.messageList;
      ghost var done: seq<u64> := [];
      var more := true;
      assert done + Drain(ring).answered == Drain(ring).answered;
      while more
        invariant dispatched + Drain(ring).messages == before + Drain(all).messages
        invariant done + Drain(ring).answered == Drain(all).answered && Drain(ring).rest == Drain(all).rest
        invariant more ==> replies.messageList == StruckAll(pending, done)
        invariant !more ==> !NextMessage(ring).Handled?
        invariant !more ==> replies.messageList == Struck(StruckAll(pending, done), Stuck(ring))
        decreases |ring|, more
      {
        DrainStep(ring);
        ghost var was := ring;
        var taken := ProcessMessage();
        if taken > 0 {
          assert ring == was[NextMessage(was).size..];
          StruckNext(pending, done, NextMessage(was).answered);
          done := done + Listed(NextMessage(was).answered);
        }
        more := taken > 0;
      }
      DrainStep(ring);
      assert dispatched + [] == dispatched && done + [] == done;
    }
  }

  lemma {:induction false} StruckNext<S>(l: PendingList<S>, done: seq<u64>, answered: Option<u64>)
    ensures StruckAll(l, done + Listed(answered)) == Struck(StruckAll(l, done), answered)
    decreases |done|
  {
    hide Remove;
    var all := done + Listed(answered);
    if done == [] {
      assert all == Listed(answered);
      if answered.Some? {
        assert all[1..] == [];
      }
    } else {
      assert all[1..] == done[1..] + Listed(answered);
      StruckNext(Remove(l, done[0]), done[1..], answered);
    }
  }

  /** Drain, one frame at a time. */
  lemma DrainStep(ring: seq<byte>)
    ensures var o := NextMessage(ring);
            if o.Handled? then
              var d := Drain(ring[o.size..]);
              Drain(ring) == Drained(Listed(o.message) + d.messages, Listed(o.answered) + d.answered, d.rest)
            else Drain(ring) == Drained([], [], ring)
  {
    hide NextMessage;
  }

  // ---- one frame ----

  lemma HeaderOf(m: Message, pad: Padding, tail: seq<byte>)
    requires Valid(m.body) && PadFits(m.body, pad)
    ensures Sum(HEADER_WIDTHS) == HEADER_SIZE <= TotalSize(m.body)
    ensures Unpack(HEADER_WIDTHS, Encode(m, pad) + tail) == HeaderValues(m)
  {
    hide Pack, Unpack, Sum, Fit, LayoutOf;
    HeaderWidth();
    SizeBounds(m.body);
    HeaderFits(m);
    LayoutFits(m.body);
    var l := LayoutOf(m.body);
    UnpackPack(HEADER_WIDTHS, HeaderValues(m), l.Tail(pad) + tail);
    assert Encode(m, pad) + tail == Pack(HEADER_WIDTHS, HeaderValues(m)) + (l.Tail(pad) + tail);
  }

  /** The key of the message a reply answers: the two ids of its own header. */
  function ReplyKey(m: Message): Option<u64> {
    if IsReply(m.body) then Some(Key(m.sessionId, m.messageId)) else None
  }

  lemma FlagsAnswer(m: Message)
    ensures AnsweredBy(Flags(m.body), m.sessionId, m.messageId) == ReplyKey(m)
  {
    hide Key;
  }

  /** A whole frame at the front of the buffer is taken as the message it was built from. */
  lemma {:induction false} FrameHandled(m: Message, pad: Padding, tail: seq<byte>)
    requires Valid(m.body) && PadFits(m.body, pad)
    ensures NextMessage(Encode(m, pad) + tail) == Handled(TotalSize(m.body), ReplyKey(m), Some(m))
  {
    hide Pack, Unpack, Sum, Fit, LayoutOf, Encode, Decode, FromLE, TotalSize, AnsweredBy, ReplyKey, Flags;
    FlagsAnswer(m);
    var e, n := Encode(m, pad), TotalSize(m.body);
    HeaderOf(m, pad, tail);
    DelimiterWord(m, pad);
    DecodeEncode(m, pad);
    var k := n / 4 - 1;
    assert (e + tail)[4 * k..4 * k + 4] == e[4 * k..4 * k + 4];
    assert (e + tail)[..n] == e;
  }

  /** A frame that has not arrived completely has no effect at all. */
  lemma {:induction false} PrefixIncomplete(m: Message, pad: Padding, n: nat)
    requires Valid(m.body) && PadFits(m.body, pad) && n < TotalSize(m.body)
    ensures NextMessage(Encode(m, pad)[..n]) == Incomplete
  {
    if HEADER_SIZE <= n {
      PrefixHeader(m, pad, n);
      hide Pack, Unpack, Sum, Fit, LayoutOf, Encode, Decode, FromLE, TotalSize;
      HeaderWidth();
    }
  }

  lemma PrefixHeader(m: Message, pad: Padding, n: nat)
    requires Valid(m.body) && PadFits(m.body, pad) && HEADER_SIZE <= n <= TotalSize(m.body)
    ensures Sum(HEADER_WIDTHS) == HEADER_SIZE
    ensures Unpack(HEADER_WIDTHS, Encode(m, pad)[..n]) == HeaderValues(m)
  {
    hide Pack, Unpack, Sum, Fit, LayoutOf;
    HeaderWidth();
    HeaderFits(m);
    LayoutFits(m.body);
    var head, tail := Pack(HEADER_WIDTHS, HeaderValues(m)), LayoutOf(m.body).Tail(pad);
    UnpackPack(HEADER_WIDTHS, HeaderValues(m), tail[..n - HEADER_SIZE]);
    assert (head + tail)[..n] == head + tail[..n - HEADER_SIZE];
  }

  /** What a frame must look like to be taken, byte by byte: protocol identifier, version, one of the six types, a
      size that has arrived, and the delimiter in the last whole word of that size. */
  predicate LooksLikeFrame(ring: seq<byte>) {
    && 32 <= |ring| && Read(4, ring, 0) == 0x6e79616e && ring[4] == 1 && 1 <= ring[5] <= 6
    && var n := Read(4, ring, 24);
    4 <= n <= |ring| && Read(4, ring, n / 4 * 4 - 4) == 0x70617375
  }

  /** A frame is taken if and only if it looks like one, with exactly the size it announces; it answers a pending
      message exactly if its reply flag is set, the one with its own two ids. */
  lemma {:induction false} TakenExactly(ring: seq<byte>)
    ensures NextMessage(ring).Handled? <==> LooksLikeFrame(ring)
    ensures LooksLikeFrame(ring) ==>
              && NextMessage(ring).size == Read(4, ring, 24)
              && NextMessage(ring).answered
                 == if ring[7] / 2 % 2 == 1 then Some(Key(Low32(Read(4, ring, 16)), Low32(Read(4, ring, 20)))) else None
  {
    if 32 <= |ring| {
      HeaderFields(ring);
      OneByte(ring, 4);
      OneByte(ring, 5);
      OneByte(ring, 7);
    }
    hide Unpack, Sum, FromLE, Decode, Key;
  }

  lemma OneByte(b: seq<byte>, at: nat)
    requires at < |b|
    ensures Read(1, b, at) == b[at]
  {
    var one := b[at..at + 1];
    assert one == [b[at]] && one[1..] == [];
    assert FromLE(one) == one[0] + 256 * FromLE(one[1..]);
  }

  // ---- whole streams under any chunking ----

  datatype Framed = Framed(message: Message, pad: Padding)

  ghost predicate WellFormed(fs: seq<Framed>) {
    forall i :: 0 <= i < |fs| ==> Valid(fs[i].message.body) && PadFits(fs[i].message.body, fs[i].pad)
  }

  /** The bytes the senders put on the connection. */
  ghost function ByteStream(fs: seq<Framed>): seq<byte>
    requires WellFormed(fs)
  {
    if fs == [] then [] else Encode(fs[0].message, fs[0].pad) + ByteStream(fs[1..])
  }

  ghost function Messages(fs: seq<Framed>): (ms: seq<Message>)
    ensures |ms| == |fs|
  {
    seq(|fs|, i requires 0 <= i < |fs| => fs[i].message)
  }

  /** The keys of the messages the replies among these messages answer. */
  function ReplyKeys(ms: seq<Message>): seq<u64> {
    if ms == [] then [] else Listed(ReplyKey(ms[0])) + ReplyKeys(ms[1..])
  }

  lemma StreamStep(f: Framed, fs: seq<Framed>)
    requires Valid(f.message.body) && PadFits(f.message.body, f.pad) && WellFormed(fs)
    ensures WellFormed([f] + fs) && ByteStream([f] + fs) == Encode(f.message, f.pad) + ByteStream(fs)
    ensures Messages([f] + fs) == [f.message] + Messages(fs)
    ensures ReplyKeys(Messages([f] + fs)) == Listed(ReplyKey(f.message)) + ReplyKeys(Messages(fs))
  {
    hide Valid, PadFits, Encode, ReplyKey;
    assert ([f] + fs)[1..] == fs;
    assert ([f.message] + Messages(fs))[1..] == Messages(fs);
  }

  /** The leading frames that lie completely in the first n bytes of the stream. */
  ghost function Complete(fs: seq<Framed>, n: nat): (done: seq<Framed>)
    requires WellFormed(fs)
    ensures WellFormed(done) && |ByteStream(done)| <= n
  {
    hide *;
    if fs == [] then (NoBytes(); [])
    else (HeadFits(fs);
      if n < TotalSize(fs[0].message.body) then (NoBytes(); [])
      else
        var more := Complete(fs[1..], n - TotalSize(fs[0].message.body));
        StreamStep(fs[0], more);
        [fs[0]] + more)
  }

  lemma NoBytes()
    ensures WellFormed([]) && ByteStream([]) == []
  {
  }

  lemma HeadFits(fs: seq<Framed>)
    requires WellFormed(fs) && fs != []
    ensures Valid(fs[0].message.body) && PadFits(fs[0].message.body, fs[0].pad) && WellFormed(fs[1..])
  {
    hide Valid, PadFits;
  }

  lemma {:induction false} CompleteIsPrefix(fs: seq<Framed>, n: nat)
    requires WellFormed(fs)
    ensures Complete(fs, n) <= fs
  {
    hide Valid, PadFits, TotalSize, ByteStream;
    if fs != [] && TotalSize(fs[0].message.body) <= n {
      CompleteIsPrefix(fs[1..], n - TotalSize(fs[0].message.body));
    }
  }

  /** Whatever was received of a stream: exactly the complete frames are handled, and the rest waits. */
  lemma {:induction false} DrainPrefix(fs: seq<Framed>, n: nat)
    requires WellFormed(fs) && n <= |ByteStream(fs)|
    ensures var done := Complete(fs, n);
            Drain(ByteStream(fs)[..n])
            == Drained(Messages(done), ReplyKeys(Messages(done)), ByteStream(fs)[|ByteStream(done)|..n])
  {
    hide NextMessage, Encode, TotalSize, Drain, Valid, PadFits;
    if fs == [] {
      DrainNothing();
      assert Messages([]) == [];
    } else {
      var e, rest := Encode(fs[0].message, fs[0].pad), ByteStream(fs[1..]);
      if n < |e| {
        PrefixIncomplete(fs[0].message, fs[0].pad, n);
        assert ByteStream(fs)[..n] == e[..n];
        DrainStep(ByteStream(fs)[..n]);
        assert Messages([]) == [];
      } else {
        var done := Complete(fs[1..], n - |e|);
        DrainPrefix(fs[1..], n - |e|);
        FrameHandled(fs[0].message, fs[0].pad, rest[..n - |e|]);
        assert ByteStream(fs)[..n] == e + rest[..n - |e|];
        DrainStep(ByteStream(fs)[..n]);
        StreamStep(fs[0], done);
      }
    }
  }

  lemma DrainNothing()
    ensures Drain([]) == Drained([], [], [])
  {
  }

  // ---- chunking ----

  lemma {:induction false} UnpackPrefix(widths: seq<nat>, a: seq<byte>, c: seq<byte>)
    requires Sum(widths) <= |a|
    ensures Unpack(widths, a + c) == Unpack(widths, a)
  {
    if widths != [] {
      var w := widths[0];
      assert (a + c)[..w] == a[..w];
      assert (a + c)[w..] == a[w..] + c;
      UnpackPrefix(widths[1..], a[w..], c);
    }
  }

  /** Later bytes never change how a complete frame is handled, well-formed or not. */
  lemma HandledStable(a: seq<byte>, c: seq<byte>)
    requires NextMessage(a).Handled?
    ensures NextMessage(a + c) == NextMessage(a)
  {
    hide Unpack, Decode, FromLE, Sum;
    HeaderWidth();
    UnpackPrefix(HEADER_WIDTHS, a, c);
    var n := Unpack(HEADER_WIDTHS, a)[8];
    var k := n / 4 - 1;
    assert (a + c)[4 * k..4 * k + 4] == a[4 * k..4 * k + 4];
    assert (a + c)[..n] == a[..n];
  }

  lemma Joined<T>(a: seq<T>, b: seq<T>, c: seq<T>)
    ensures a + (b + c) == a + b + c
    ensures a == b == [] ==> a + c == c
  {
  }

  lemma {:induction false} DrainAppend(a: seq<byte>, c: seq<byte>)
    ensures var first := Drain(a);
            var then_ := Drain(first.rest + c);
            Drain(a + c) == Drained(first.messages + then_.messages, first.answered + then_.answered, then_.rest)
    decreases |a|
  {
    hide NextMessage, Drain;
    DrainStep(a);
    var o := NextMessage(a);
    if o.Handled? {
      HandledStable(a, c);
      DrainStep(a + c);
      assert (a + c)[o.size..] == a[o.size..] + c;
      DrainAppend(a[o.size..], c);
      var d := Drain(a[o.size..]);
      var then_ := Drain(d.rest + c);
      Joined(Listed(o.message), d.messages, then_.messages);
      Joined(Listed(o.answered), d.answered, then_.answered);
    } else {
      Joined([], [], Drain(a + c).messages);
      Joined([], [], Drain(a + c).answered);
    }
  }

  /** What a receiver has handled and still holds after the chunks, one Receive each. */
  function ReceiveAll(ring: seq<byte>, chunks: seq<seq<byte>>): Drained
    decreases |chunks|
  {
    if chunks == [] then Drained([], [], ring)
    else
      var first := Drain(ring + chunks[0]);
      var more := ReceiveAll(first.rest, chunks[1..]);
      Drained(first.messages + more.messages, first.answered + more.answered, more.rest)
  }

  function Flatten(chunks: seq<seq<byte>>): seq<byte> {
    if chunks == [] then [] else chunks[0] + Flatten(chunks[1..])
  }

  /** How the bytes are split into chunks never matters, for any bytes whatever: not for the messages given to
      the handlers, not for the entries struck out, not for the bytes left over. */
  lemma {:induction false} ChunkingIrrelevant(ring: seq<byte>, chunks: seq<seq<byte>>)
    requires chunks != []
    ensures ReceiveAll(ring, chunks) == Drain(ring + Flatten(chunks))
    decreases |chunks|
  {
    hide Drain;
    var c, more := chunks[0], chunks[1..];
    if more == [] {
      assert Flatten(chunks) == c;
      var first := Drain(ring + c);
      assert ReceiveAll(first.rest, more) == Drained([], [], first.rest);
      assert first.messages + [] == first.messages && first.answered + [] == first.answered;
    } else {
      ChunkingIrrelevant(Drain(ring + c).rest, more);
      DrainAppend(ring + c, Flatten(more));
      assert ring + Flatten(chunks) == ring + c + Flatten(more);
    }
  }

  lemma {:induction false} AllComplete(fs: seq<Framed>)
    requires WellFormed(fs)
    ensures Complete(fs, |ByteStream(fs)|) == fs
  {
    hide Encode, TotalSize, Valid, PadFits;
    if fs != [] {
      AllComplete(fs[1..]);
    }
  }

  /** Main result: of a stream of frames cut into chunks anywhere, with any padding and any payload bytes, the
      receiver has handled exactly the messages whose frames have arrived, in order, has struck out exactly what
      the replies among them answer, and holds the rest. */
  lemma {:induction false} StreamReceived(fs: seq<Framed>, chunks: seq<seq<byte>>)
    requires WellFormed(fs) && chunks != [] && Flatten(chunks) <= ByteStream(fs)
    ensures var n := |Flatten(chunks)|;
            var done := Complete(fs, n);
            && done <= fs
            && ReceiveAll([], chunks)
               == Drained(Messages(done), ReplyKeys(Messages(done)), ByteStream(fs)[|ByteStream(done)|..n])
    ensures Flatten(chunks) == ByteStream(fs) ==>
              ReceiveAll([], chunks) == Drained(Messages(fs), ReplyKeys(Messages(fs)), [])
  {
    hide NextMessage, Drain, Encode, TotalSize, Valid, PadFits;
    var n := |Flatten(chunks)|;
    ChunkingIrrelevant([], chunks);
    DrainPrefix(fs, n);
    CompleteIsPrefix(fs, n);
    assert [] + Flatten(chunks) == ByteStream(fs)[..n];
    if Flatten(chunks) == ByteStream(fs) {
      AllComplete(fs);
    }
  }
}
