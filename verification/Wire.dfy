/** Message kinds and their byte layout (src/message_definitions.h). */
module Wire {
  import opened Bytes

  const PROTOCOL_IDENTIFIER: u32 := 0x6e79616e
  const MESSAGE_DELIMITER: u32 := 0x70617375
  const MESSAGE_CACHE_SIZE: nat := 1024 * 1024
  const IDENTIFIER_SIZE: nat := 64000
  const HEADER_SIZE: nat := 32
  const FOOTER_SIZE: nat := 8

  const FLAG_REPLY_REQUIRED := 1
  const FLAG_REPLY := 2
  const FLAG_RESPONSE := 8

  const HEADER_WIDTHS: seq<nat> := [4, 1, 1, 1, 1, 8, 4, 4, 4, 4]

  /** Application payloads on their way in one or several frames. */
  datatype Packet =
    | Single(multiblockId: u64, blockerId: u64, payload: seq<byte>)
    | Part(multiblockId: u64, totalSize: u64, totalPartNumber: u32, partId: u32, payload: seq<byte>)
    | Finish(multiblockId: u64, blockerId: u64)

  datatype Body =
    | InitStart(clientSessionId: u32, identifier: seq<byte>)
    | InitReply(clientSessionId: u32, completeSessionId: u32, identifier: seq<byte>)
    | CloseStart(closingId: u32, replyExpected: bool)
    | CloseReply(closingId: u32)
    | HeartbeatStart
    | HeartbeatReply
    | Stream(payload: seq<byte>, replyExpected: bool)
    | StreamReply
    | SingleReply
    | Data(packet: Packet)

  datatype Message = Message(sessionId: u32, messageId: u32, body: Body)

  /** Bytes no sender initialises: struct padding, the unused rest of a fixed array, the fill. */
  datatype Padding = Padding(front: seq<byte>, fill: seq<byte>, back: seq<byte>)

  function Type(b: Body): byte {
    match b
    case InitStart(_, _) => 1
    case InitReply(_, _, _) => 1
    case CloseStart(_, _) => 1
    case CloseReply(_) => 1
    case HeartbeatStart => 2
    case HeartbeatReply => 2
    case Stream(_, _) => 4
    case StreamReply => 4
    case SingleReply => 5
    case Data(p) => if p.Single? then 5 else 6
  }

  function SubType(b: Body): byte {
    match b
    case InitStart(_, _) => 1
    case InitReply(_, _, _) => 2
    case CloseStart(_, _) => 3
    case CloseReply(_) => 4
    case HeartbeatStart => 1
    case HeartbeatReply => 2
    case Stream(_, _) => 1
    case StreamReply => 2
    case SingleReply => 2
    case Data(p) => if p.Finish? then 2 else 1
  }

  function Flags(b: Body): byte {
    match b
    case InitStart(_, _) => FLAG_REPLY_REQUIRED
    case CloseStart(_, r) => if r then FLAG_REPLY_REQUIRED else 0
    case HeartbeatStart => FLAG_REPLY_REQUIRED
    case Stream(_, r) => if r then FLAG_REPLY_REQUIRED else 0
    case Data(Single(_, blocker, _)) => FLAG_REPLY_REQUIRED + (if blocker != 0 then FLAG_RESPONSE else 0)
    case Data(Part(_, _, _, _, _)) => 0
    case Data(Finish(_, blocker)) => if blocker != 0 then FLAG_RESPONSE else 0
    case _ => FLAG_REPLY
  }

  predicate WantsReply(b: Body) { HasFlag(Flags(b), FLAG_REPLY_REQUIRED) }

  predicate IsReply(b: Body) { HasFlag(Flags(b), FLAG_REPLY) }

  /** Fill bytes behind a payload of n bytes, up to a multiple of 8. */
  function Fill(n: nat): (f: nat)
    ensures f < 8 && (n + f) % 8 == 0
  {
    (8 - n % 8) % 8
  }

  function Content(b: Body): seq<byte> {
    match b
    case InitStart(_, s) => s
    case InitReply(_, _, s) => s
    case Stream(s, _) => s
    case Data(Single(_, _, s)) => s
    case Data(Part(_, _, _, _, s)) => s
    case _ => []
  }

  predicate IsInit(b: Body) { b.InitStart? || b.InitReply? }

  /** What the senders guarantee: identifiers fit their array, sizes fit 32 bits. */
  predicate Valid(b: Body) {
    if IsInit(b) then |Content(b)| <= IDENTIFIER_SIZE else |Content(b)| <= 0xffff_ff00
  }

  /** The value of the header field payloadSize: only the data senders fill it in. */
  function PayloadSize(b: Body): nat { if IsInit(b) then 0 else |Content(b)| }

  /** The part of a frame between the common header and the common footer: fields, uninitialised bytes,
      content, fill, fields, uninitialised bytes. */
  datatype Layout = Layout(widths: seq<nat>, values: seq<nat>, pad: nat, content: seq<byte>, fill: nat,
                           backWidths: seq<nat>, backValues: seq<nat>, backPad: nat)
  {
    predicate Fits() { Fit(widths, values) && Fit(backWidths, backValues) }

    function ContentOffset(): nat { HEADER_SIZE + Sum(widths) + pad }

    function BackOffset(): nat { ContentOffset() + |content| + fill }

    function TotalSize(): nat { BackOffset() + Sum(backWidths) + backPad + FOOTER_SIZE }

    predicate PadFits(p: Padding) { |p.front| == pad && |p.fill| == fill && |p.back| == backPad }

    /** Everything behind the common header. */
    function Tail(p: Padding): seq<byte>
      requires Fits()
    {
      Pack(widths, values) + (p.front + (content + (p.fill + (Pack(backWidths, backValues) + (p.back + Footer())))))
    }
  }

  function LayoutOf(b: Body): Layout
    requires Valid(b)
  {
    match b
    case InitStart(c, s) => Layout([4], [c], 0, s, IDENTIFIER_SIZE - |s|, [4], [|s|], 0)
    case InitReply(c, id, s) => Layout([4, 4], [c, id], 0, s, IDENTIFIER_SIZE - |s|, [4], [|s|], 4)
    case CloseStart(id, _) => Layout([4], [id], 4, [], 0, [], [], 0)
    case CloseReply(id) => Layout([4], [id], 4, [], 0, [], [], 0)
    case Stream(s, _) => Layout([], [], 0, s, Fill(|s|), [], [], 0)
    case Data(Single(m, blocker, s)) => Layout([8, 8], [m, blocker], 4, s, Fill(|s|), [], [], 0)
    case Data(Part(m, total, count, part, s)) =>
      Layout([8, 8, 4, 4], [total, m, count, part], 0, s, Fill(|s|), [], [], 0)
    case Data(Finish(m, blocker)) => Layout([8, 8], [m, blocker], 0, [], 0, [], [], 0)
    case _ => Layout([], [], 0, [], 0, [], [], 0)
  }

  function TotalSize(b: Body): nat
    requires Valid(b)
  {
    LayoutOf(b).TotalSize()
  }

  predicate PadFits(b: Body, pad: Padding)
    requires Valid(b)
  {
    LayoutOf(b).PadFits(pad)
  }

  function HeaderValues(m: Message): (v: seq<nat>)
    requires Valid(m.body)
    ensures |v| == |HEADER_WIDTHS|
  {
    [PROTOCOL_IDENTIFIER, 1, Type(m.body), SubType(m.body), Flags(m.body), 0,
     m.sessionId, m.messageId, TotalSize(m.body), PayloadSize(m.body)]
  }

  function Footer(): (f: seq<byte>)
    ensures |f| == FOOTER_SIZE
  {
    ToLE(4, 0) + ToLE(4, MESSAGE_DELIMITER)
  }

  function EncodeLayout(header: seq<nat>, l: Layout, pad: Padding): (e: seq<byte>)
    requires |header| == |HEADER_WIDTHS| && l.Fits() && l.PadFits(pad)
    ensures |e| == Sum(HEADER_WIDTHS) - HEADER_SIZE + l.TotalSize()
  {
    Pack(HEADER_WIDTHS, header) + l.Tail(pad)
  }

  lemma LayoutFits(b: Body)
    requires Valid(b)
    ensures LayoutOf(b).Fits()
  {
  }

  /** The frame of a message. */
  function Encode(m: Message, pad: Padding): (e: seq<byte>)
    requires Valid(m.body) && PadFits(m.body, pad)
    ensures |e| == TotalSize(m.body)
  {
    HeaderWidth();
    LayoutFits(m.body);
    EncodeLayout(HeaderValues(m), LayoutOf(m.body), pad)
  }

  /** Word number k of a frame, as the receiver reads the delimiter. */
  function Word(b: seq<byte>, k: nat): nat
    requires 4 * k + 4 <= |b|
  {
    FromLE(b[4 * k..4 * k + 4])
  }

  lemma HeaderWidth()
    ensures Sum(HEADER_WIDTHS) == HEADER_SIZE
  {
    assert HEADER_WIDTHS[1..][1..][1..][1..][1..] == [8, 4, 4, 4, 4];
  }

  lemma WidthSums()
    ensures Sum([]) == 0 && Sum([4]) == 4 && Sum([4, 4]) == 8 && Sum([8, 8]) == 16 && Sum([8, 8, 4, 4]) == 24
  {
    var part := [8, 8, 4, 4];
    assert part[1..][1..] == [4, 4];
    assert [8, 8][1..] == [8];
  }

  lemma RegionBounds(b: Body)
    requires Valid(b)
    ensures var l := LayoutOf(b);
            && (Sum(l.widths) + l.pad) % 4 == 0 && Sum(l.widths) + l.pad <= 24
            && (Sum(l.backWidths) + l.backPad) % 4 == 0 && Sum(l.backWidths) + l.backPad <= 8
            && (|l.content| + l.fill) % 4 == 0 && |l.content| + l.fill <= 0xffff_ff07
  {
    hide Sum, Fill;
    WidthSums();
    var n := |Content(b)|;
    assert (n + Fill(n)) % 8 == 0;
    assert (n + Fill(n)) % 4 == 0;
  }

  lemma WholeWords(a: nat, b: nat, c: nat)
    requires a % 4 == b % 4 == c % 4 == 0
    ensures (HEADER_SIZE + a + b + c + FOOTER_SIZE) % 4 == 0
  {
  }

  lemma {:induction false} SizeBounds(b: Body)
    requires Valid(b)
    ensures TotalSize(b) % 4 == 0 && HEADER_SIZE + FOOTER_SIZE <= TotalSize(b) < 0x1_0000_0000
  {
    hide Sum, LayoutOf, Fill;
    RegionBounds(b);
    var l := LayoutOf(b);
    WholeWords(Sum(l.widths) + l.pad, |l.content| + l.fill, Sum(l.backWidths) + l.backPad);
  }

  lemma HeaderFits(m: Message)
    requires Valid(m.body)
    ensures Fit(HEADER_WIDTHS, HeaderValues(m))
  {
    SizeBounds(m.body);
  }

  lemma Peel(e: seq<byte>, at: nat, a: seq<byte>, r: seq<byte>)
    requires at <= |e| && e[at..] == a + r
    ensures at + |a| <= |e| && e[at..at + |a|] == a && e[at + |a|..] == r
  {
    assert e[at..][..|a|] == a;
    assert e[at..][|a|..] == r;
  }

  /** Frame e holds the fields and the content of layout l at their places. */
  predicate HoldsLayout(l: Layout, e: seq<byte>) {
    && |e| == l.TotalSize()
    && Unpack(l.widths, e[HEADER_SIZE..]) == l.values
    && e[l.ContentOffset()..l.ContentOffset() + |l.content|] == l.content
    && Unpack(l.backWidths, e[l.BackOffset()..]) == l.backValues
  }

  /** Where each region of a frame lies and what it reads as, whatever the padding holds. */
  lemma FrameLayout(header: seq<nat>, l: Layout, pad: Padding)
    requires Fit(HEADER_WIDTHS, header) && l.Fits() && l.PadFits(pad)
    ensures Sum(HEADER_WIDTHS) == HEADER_SIZE
    ensures var e := EncodeLayout(header, l, pad);
            && HoldsLayout(l, e)
            && Unpack(HEADER_WIDTHS, e) == header
            && e[|e| - FOOTER_SIZE..] == Footer()
  {
    hide Pack, Unpack, Sum, Footer, ToLE, FromLE;
    HeaderWidth();
    var e := EncodeLayout(header, l, pad);
    UnpackPack(HEADER_WIDTHS, header, l.Tail(pad));
    var back := Pack(l.backWidths, l.backValues);
    var r5 := pad.back + Footer();
    var r4 := back + r5;
    var r3 := pad.fill + r4;
    var r2 := l.content + r3;
    var r1 := pad.front + r2;
    Peel(e, 0, Pack(HEADER_WIDTHS, header), l.Tail(pad));
    Peel(e, HEADER_SIZE, Pack(l.widths, l.values), r1);
    Peel(e, HEADER_SIZE + Sum(l.widths), pad.front, r2);
    Peel(e, l.ContentOffset(), l.content, r3);
    Peel(e, l.ContentOffset() + |l.content|, pad.fill, r4);
    Peel(e, l.BackOffset(), back, r5);
    Peel(e, l.BackOffset() + |back|, pad.back, Footer());
    UnpackPack(l.widths, l.values, r1);
    UnpackPack(l.backWidths, l.backValues, r5);
  }

  lemma LastWord(e: seq<byte>, footer: seq<byte>, first: seq<byte>, second: seq<byte>)
    requires |first| == |second| == 4 && footer == first + second
    requires |footer| <= |e| && |e| % 4 == 0 && e[|e| - |footer|..] == footer
    ensures Word(e, |e| / 4 - 1) == FromLE(second)
  {
    hide FromLE;
    assert e[|e| - 4..|e|] == second;
  }

  lemma FooterWord(e: seq<byte>)
    requires FOOTER_SIZE <= |e| && |e| % 4 == 0 && e[|e| - FOOTER_SIZE..] == Footer()
    ensures Word(e, |e| / 4 - 1) == MESSAGE_DELIMITER
  {
    hide FromLE, ToLE, Pow256;
    LimitIsPower(4);
    LERoundTrip(4, MESSAGE_DELIMITER);
    LastWord(e, Footer(), ToLE(4, 0), ToLE(4, MESSAGE_DELIMITER));
  }

  /** The receiver's delimiter check passes on every frame: frames are whole 32-bit words. */
  lemma {:induction false} DelimiterWord(m: Message, pad: Padding)
    requires Valid(m.body) && PadFits(m.body, pad)
    ensures TotalSize(m.body) % 4 == 0 && HEADER_SIZE < TotalSize(m.body)
    ensures Word(Encode(m, pad), TotalSize(m.body) / 4 - 1) == MESSAGE_DELIMITER
  {
    hide Pack, Unpack, Sum, ToLE, FromLE, LayoutOf, Fit, EncodeLayout, HoldsLayout, HeaderValues;
    SizeBounds(m.body);
    HeaderFits(m);
    LayoutFits(m.body);
    FrameLayout(HeaderValues(m), LayoutOf(m.body), pad);
    FooterWord(Encode(m, pad));
  }

  /** The data packets among the messages of one direction; the other messages do not touch the buffers. */
  function Packets(ms: seq<Message>): seq<Packet> {
    if ms == [] then []
    else (if ms[0].body.Data? then [ms[0].body.packet] else []) + Packets(ms[1..])
  }

  lemma {:induction false} PacketsAppend(a: seq<Message>, b: seq<Message>)
    ensures Packets(a + b) == Packets(a) + Packets(b)
  {
    if a == [] {
      assert a + b == b && [] + Packets(b) == Packets(b);
    } else {
      assert (a + b)[0] == a[0] && (a + b)[1..] == a[1..] + b;
      PacketsAppend(a[1..], b);
      var head := if a[0].body.Data? then [a[0].body.packet] else [];
      assert head + (Packets(a[1..]) + Packets(b)) == head + Packets(a[1..]) + Packets(b);
    }
  }

  function Low32(x: nat): u32 { x % 0x1_0000_0000 }

  function Low64(x: nat): u64 { x % 0x1_0000_0000_0000_0000 }

  function Read(w: nat, b: seq<byte>, at: nat): nat
    requires at + w <= |b|
  {
    FromLE(b[at..at + w])
  }

  /** What the handlers read out of a complete frame, by its type and subtype. */
  function DecodeBody(kind: nat, sub: nat, flags: byte, size: nat, b: seq<byte>): Option<Body>
    requires HEADER_SIZE <= |b|
  {
    var wantsReply := HasFlag(flags, FLAG_REPLY_REQUIRED);
    if kind == 1 && sub == 1 && |b| == 64048 then
      var n := Read(4, b, 64036);
      if n <= IDENTIFIER_SIZE then Some(InitStart(Low32(Read(4, b, 32)), b[36..36 + n])) else None
    else if kind == 1 && sub == 2 && |b| == 64056 then
      var n := Read(4, b, 64040);
      if n <= IDENTIFIER_SIZE
      then Some(InitReply(Low32(Read(4, b, 32)), Low32(Read(4, b, 36)), b[40..40 + n])) else None
    else if kind == 1 && sub == 3 && |b| == 48 then Some(CloseStart(Low32(Read(4, b, 32)), wantsReply))
    else if kind == 1 && sub == 4 && |b| == 48 then Some(CloseReply(Low32(Read(4, b, 32))))
    else if kind == 2 && sub == 1 then Some(HeartbeatStart)
    else if kind == 2 && sub == 2 then Some(HeartbeatReply)
    else if kind == 4 && sub == 1 && 32 + size <= |b| then Some(Stream(b[32..32 + size], wantsReply))
    else if kind == 4 && sub == 2 then Some(StreamReply)
    else if kind == 5 && sub == 1 && 52 + size <= |b| then
      Some(Data(Single(Low64(Read(8, b, 32)), Low64(Read(8, b, 40)), b[52..52 + size])))
    else if kind == 5 && sub == 2 then Some(SingleReply)
    else if kind == 6 && sub == 1 && 56 + size <= |b| then
      Some(Data(Part(Low64(Read(8, b, 40)), Low64(Read(8, b, 32)),
                     Low32(Read(4, b, 48)), Low32(Read(4, b, 52)), b[56..56 + size])))
    else if kind == 6 && sub == 2 && |b| == 56 then
      Some(Data(Finish(Low64(Read(8, b, 32)), Low64(Read(8, b, 40)))))
    else None
  }

  /** The message a complete frame carries; None for a frame that no send function builds. */
  function Decode(b: seq<byte>): Option<Message>
    requires HEADER_SIZE <= |b|
  {
    HeaderWidth();
    var h := Unpack(HEADER_WIDTHS, b);
    var flags: byte := h[4] % 0x100;
    match DecodeBody(h[2], h[3], flags, h[9], b)
    case None => None
    case Some(body) => if Flags(body) == flags then Some(Message(Low32(h[6]), Low32(h[7]), body)) else None
  }

  lemma UnpackAt(widths: seq<nat>, b: seq<byte>, at: nat)
    requires widths != [] && at + Sum(widths) <= |b|
    ensures at + widths[0] <= |b|
    ensures Unpack(widths, b[at..]) == [Read(widths[0], b, at)] + Unpack(widths[1..], b[at + widths[0]..])
  {
    assert b[at..][..widths[0]] == b[at..at + widths[0]];
    assert b[at..][widths[0]..] == b[at + widths[0]..];
  }

  lemma UnpackNext(w: nat, rest: seq<nat>, b: seq<byte>, at: nat)
    requires at + Sum([w] + rest) <= |b|
    ensures at + w + Sum(rest) <= |b|
    ensures Unpack([w] + rest, b[at..]) == [Read(w, b, at)] + Unpack(rest, b[at + w..])
  {
    assert ([w] + rest)[1..] == rest;
    UnpackAt([w] + rest, b, at);
  }

  /** The offsets of the header fields. */
  lemma HeaderFields(b: seq<byte>)
    requires HEADER_SIZE <= |b|
    ensures Sum(HEADER_WIDTHS) == HEADER_SIZE
    ensures var h := Unpack(HEADER_WIDTHS, b);
            && h[0] == Read(4, b, 0) && h[1] == Read(1, b, 4) && h[2] == Read(1, b, 5) && h[3] == Read(1, b, 6)
            && h[4] == Read(1, b, 7) && h[6] == Read(4, b, 16) && h[7] == Read(4, b, 20)
            && h[8] == Read(4, b, 24) && h[9] == Read(4, b, 28)
  {
    HeaderWidth();
    hide Unpack, Sum, FromLE;
    var w7, w6: seq<nat> := [4, 4, 4], [4, 4, 4, 4];
    assert b[0..] == b && HEADER_WIDTHS == [4] + [1, 1, 1, 1, 8, 4, 4, 4, 4];
    UnpackNext(4, [1, 1, 1, 1, 8, 4, 4, 4, 4], b, 0);
    assert [1, 1, 1, 1, 8, 4, 4, 4, 4] == [1] + [1, 1, 1, 8, 4, 4, 4, 4];
    UnpackNext(1, [1, 1, 1, 8, 4, 4, 4, 4], b, 4);
    assert [1, 1, 1, 8, 4, 4, 4, 4] == [1] + [1, 1, 8, 4, 4, 4, 4];
    UnpackNext(1, [1, 1, 8, 4, 4, 4, 4], b, 5);
    assert [1, 1, 8, 4, 4, 4, 4] == [1] + [1, 8, 4, 4, 4, 4];
    UnpackNext(1, [1, 8, 4, 4, 4, 4], b, 6);
    assert [1, 8, 4, 4, 4, 4] == [1] + [8, 4, 4, 4, 4];
    UnpackNext(1, [8, 4, 4, 4, 4], b, 7);
    assert [8, 4, 4, 4, 4] == [8] + w6;
    UnpackNext(8, w6, b, 8);
    assert w6 == [4] + w7;
    UnpackNext(4, w7, b, 16);
    assert w7 == [4] + [4, 4];
    UnpackNext(4, [4, 4], b, 20);
    UnpackTwo(4, b, 24, Unpack([4, 4], b[24..]));
  }

  lemma UnpackOne(b: seq<byte>, at: nat, value: nat)
    requires at + 4 <= |b| && Sum([4]) == 4 && Unpack([4], b[at..]) == [value]
    ensures value == Read(4, b, at)
  {
    UnpackAt([4], b, at);
    assert Unpack([4], b[at..])[0] == Read(4, b, at);
  }

  lemma UnpackTwo(w: nat, b: seq<byte>, at: nat, values: seq<nat>)
    requires at + Sum([w, w]) <= |b| && Unpack([w, w], b[at..]) == values
    ensures at + 2 * w <= |b|
    ensures values == [Read(w, b, at), Read(w, b, at + w)]
  {
    assert [w, w][1..] == [w] && [w][1..] == [];
    UnpackAt([w, w], b, at);
    UnpackAt([w], b, at + w);
  }

  lemma UnpackFour(b: seq<byte>, at: nat, values: seq<nat>)
    requires at + 24 <= |b| && Sum([8, 8, 4, 4]) == 24 && Unpack([8, 8, 4, 4], b[at..]) == values
    ensures values == [Read(8, b, at), Read(8, b, at + 8), Read(4, b, at + 16), Read(4, b, at + 20)]
  {
    WidthSums();
    assert [8, 8, 4, 4][1..] == [8, 4, 4] && [8, 4, 4][1..] == [4, 4];
    UnpackAt([8, 8, 4, 4], b, at);
    UnpackAt([8, 4, 4], b, at + 8);
    UnpackTwo(4, b, at + 16, Unpack([4, 4], b[at + 16..]));
  }

  lemma DecodeInit(b: Body, e: seq<byte>)
    requires Valid(b) && IsInit(b) && HoldsLayout(LayoutOf(b), e)
    ensures DecodeBody(Type(b), SubType(b), Flags(b), PayloadSize(b), e) == Some(b)
  {
    hide Unpack, Sum, FromLE;
    WidthSums();
    if b.InitStart? {
      UnpackOne(e, 32, b.clientSessionId);
      UnpackOne(e, 64036, |b.identifier|);
    } else {
      UnpackTwo(4, e, 32, LayoutOf(b).values);
      UnpackOne(e, 64040, |b.identifier|);
    }
  }

  lemma DecodeData(b: Body, e: seq<byte>)
    requires Valid(b) && b.Data? && HoldsLayout(LayoutOf(b), e)
    ensures DecodeBody(Type(b), SubType(b), Flags(b), PayloadSize(b), e) == Some(b)
  {
    hide Unpack, Sum, FromLE;
    WidthSums();
    if b.packet.Part? {
      UnpackFour(e, 32, LayoutOf(b).values);
    } else {
      UnpackTwo(8, e, 32, LayoutOf(b).values);
    }
  }

  lemma DecodeOther(b: Body, e: seq<byte>)
    requires Valid(b) && !b.Data? && !IsInit(b) && HoldsLayout(LayoutOf(b), e)
    ensures DecodeBody(Type(b), SubType(b), Flags(b), PayloadSize(b), e) == Some(b)
  {
    hide Unpack, Sum, FromLE;
    WidthSums();
    if b.CloseStart? || b.CloseReply? {
      UnpackOne(e, 32, b.closingId);
    }
  }

  lemma DecodeHeld(m: Message, e: seq<byte>)
    requires Valid(m.body) && HoldsLayout(LayoutOf(m.body), e) && HEADER_SIZE == Sum(HEADER_WIDTHS)
    requires Unpack(HEADER_WIDTHS, e) == HeaderValues(m)
    ensures Decode(e) == Some(m)
  {
    hide Pack, Unpack, Sum, ToLE, FromLE, DecodeBody, LayoutOf;
    var b := m.body;
    assert DecodeBody(Type(b), SubType(b), Flags(b), PayloadSize(b), e) == Some(b) by {
      if IsInit(b) {
        DecodeInit(b, e);
      } else if b.Data? {
        DecodeData(b, e);
      } else {
        DecodeOther(b, e);
      }
    }
  }

  /** Main result of the layout: a frame reads back as the message it was built from. */
  lemma {:induction false} DecodeEncode(m: Message, pad: Padding)
    requires Valid(m.body) && PadFits(m.body, pad)
    ensures HEADER_SIZE <= TotalSize(m.body)
    ensures Decode(Encode(m, pad)) == Some(m)
  {
    hide Pack, Unpack, Sum, ToLE, FromLE, DecodeBody;
    SizeBounds(m.body);
    HeaderFits(m);
    LayoutFits(m.body);
    FrameLayout(HeaderValues(m), LayoutOf(m.body), pad);
    DecodeHeld(m, Encode(m, pad));
  }
}
