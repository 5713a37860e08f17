/** Building data frames in place in the message cache, memcpy by memcpy
    (src/messages_processing/stream_data_processing.h, singleblock_data_processing.h,
    multiblock_data_processing.h). */
module FrameBuilder {
  import opened Bytes
  import opened Wire

  const STREAM_HEADER_SIZE: nat := 32
  const SINGLEBLOCK_HEADER_SIZE: nat := 52
  const MULTIBLOCK_HEADER_SIZE: nat := 56

  /** Largest payload whose frame fits the message cache, whatever its kind. */
  const MAX_PAYLOAD: nat := MESSAGE_CACHE_SIZE - 72

  function Overwritten(old_: seq<byte>, at: nat, src: seq<byte>): (r: seq<byte>)
    requires at + |src| <= |old_|
    ensures |r| == |old_|
  {
    old_[..at] + src + old_[at + |src|..]
  }

  method CopyInto(cache: array<byte>, at: nat, src: seq<byte>)
    requires at + |src| <= cache.Length
    modifies cache
    ensures cache[..] == Overwritten(old(cache[..]), at, src)
  {
    var i := 0;
    while i < |src|
      invariant i <= |src|
      invariant cache[..] == Overwritten(old(cache[..]), at, src[..i])
    {
      cache[at + i] := src[i];
      assert cache[..] == Overwritten(old(cache[..]), at, src[..i])[at + i := src[i]];
      assert src[..i + 1] == src[..i] + [src[i]];
      i := i + 1;
    }
    assert src[..i] == src;
  }

  lemma ThreeWrites(before: seq<byte>, header: seq<byte>, payload: seq<byte>, footer: seq<byte>, total: nat)
    requires |header| + |payload| + |footer| <= total <= |before|
    ensures var b, c := |header| + |payload|, total - |footer|;
            Overwritten(Overwritten(Overwritten(before, 0, header), |header|, payload), c, footer)[..total]
            == header + (payload + (before[b..c] + footer))
  {
    var a, b, c := |header|, |header| + |payload|, total - |footer|;
    var one := Overwritten(before, 0, header);
    assert one == header + before[a..];
    var two := Overwritten(one, a, payload);
    assert two == header + payload + before[b..];
    var three := Overwritten(two, c, footer);
    assert two[..c] == header + payload + before[b..c];
    assert three[..total] == two[..c] + footer;
  }

  /** Header, payload and footer go to their places; the fill bytes stay as they were in the cache. */
  method FillCache(cache: array<byte>, header: seq<byte>, payload: seq<byte>, total: nat)
    requires |header| + |payload| + FOOTER_SIZE <= total <= cache.Length
    modifies cache
    ensures cache[..total]
         == header + (payload + (old(cache[..])[|header| + |payload|..total - FOOTER_SIZE] + Footer()))
  {
    hide Footer, Overwritten;
    ThreeWrites(cache[..], header, payload, Footer(), total);
    CopyInto(cache, 0, header);
    CopyInto(cache, |header|, payload);
    CopyInto(cache, total - FOOTER_SIZE, Footer());
    assert cache[..total] == cache[..][..total];
  }

  /** The packed header struct of a data frame; its own padding bytes come from the stack. */
  function HeaderStruct(m: Message, headerPad: seq<byte>): (h: seq<byte>)
    requires Valid(m.body) && |headerPad| == LayoutOf(m.body).pad
    ensures |h| == LayoutOf(m.body).ContentOffset()
  {
    HeaderWidth();
    LayoutFits(m.body);
    Pack(HEADER_WIDTHS, HeaderValues(m)) + (Pack(LayoutOf(m.body).widths, LayoutOf(m.body).values) + headerPad)
  }

  /** The padding a frame built on top of old cache contents ends up with. */
  function CachePadding(cache: seq<byte>, headerPad: seq<byte>, from: nat, total: nat): Padding
    requires from + FOOTER_SIZE <= total <= |cache|
  {
    Padding(headerPad, cache[from..total - FOOTER_SIZE], [])
  }

  lemma DataLayout(b: Body)
    requires Valid(b) && (b.Stream? || b.Data?)
    ensures var l := LayoutOf(b); l.backWidths == [] && l.backValues == [] && l.backPad == 0 && l.content == Content(b)
  {
  }

  lemma Regroup(head: seq<byte>, front: seq<byte>, pad: seq<byte>, content: seq<byte>, fill: seq<byte>, foot: seq<byte>)
    ensures head + (front + (pad + (content + (fill + ([] + ([] + foot))))))
         == head + (front + pad) + (content + (fill + foot))
  {
  }

  lemma FrameShape(m: Message, pad: Padding)
    requires Valid(m.body) && PadFits(m.body, pad) && (m.body.Stream? || m.body.Data?)
    ensures Encode(m, pad) == HeaderStruct(m, pad.front) + (Content(m.body) + (pad.fill + Footer()))
  {
    DataLayout(m.body);
    LayoutFits(m.body);
    var l := LayoutOf(m.body);
    assert Pack(l.backWidths, l.backValues) == [] && pad.back == [];
    hide Pack, LayoutOf, Footer, HeaderValues, Content;
    Regroup(Pack(HEADER_WIDTHS, HeaderValues(m)), Pack(l.widths, l.values), pad.front, l.content, pad.fill, Footer());
  }

  /** The steps the three send functions share, once the total size is known. */
  method BuildFrame(cache: array<byte>, m: Message, headerPad: seq<byte>, total: nat)
    requires cache.Length == MESSAGE_CACHE_SIZE && (m.body.Stream? || m.body.Data?) && Valid(m.body)
    requires var l := LayoutOf(m.body);
             |headerPad| == l.pad && total == l.ContentOffset() + |l.content| + l.fill + FOOTER_SIZE <= cache.Length
    modifies cache
    ensures var from := LayoutOf(m.body).ContentOffset() + |LayoutOf(m.body).content|;
            var pad := CachePadding(old(cache[..]), headerPad, from, total);
            && PadFits(m.body, pad) && total == TotalSize(m.body) && cache[..total] == Encode(m, pad)
  {
    hide LayoutOf, Footer, HeaderStruct, Encode, Content, Sum, HeaderValues;
    ghost var l := LayoutOf(m.body);
    DataLayout(m.body);
    NoFields();
    ghost var pad := CachePadding(cache[..], headerPad, l.ContentOffset() + |l.content|, total);
    FrameShape(m, pad);
    FillCache(cache, HeaderStruct(m, headerPad), Content(m.body), total);
  }

  lemma NoFields()
    ensures Sum([]) == 0
  {
  }

  method SendDataStream(cache: array<byte>, sessionId: u32, messageId: u32, data: seq<byte>, replyExpected: bool)
    returns (total: nat)
    requires cache.Length == MESSAGE_CACHE_SIZE && |data| <= MAX_PAYLOAD
    modifies cache
    ensures var m := Message(sessionId, messageId, Stream(data, replyExpected));
            && total == TotalSize(m.body) <= cache.Length && total % 4 == 0
            && STREAM_HEADER_SIZE + |data| + FOOTER_SIZE <= total
            && var pad := CachePadding(old(cache[..]), [], STREAM_HEADER_SIZE + |data|, total);
            && PadFits(m.body, pad) && cache[..total] == Encode(m, pad)
  {
    hide Encode, Sum;
    total := STREAM_HEADER_SIZE + |data| + (8 - |data| % 8) % 8 + FOOTER_SIZE;
    var m := Message(sessionId, messageId, Stream(data, replyExpected));
    WidthSums();
    SizeBounds(m.body);
    BuildFrame(cache, m, [], total);
  }

  method SendDataSingleBlock(cache: array<byte>, headerPad: seq<byte>, sessionId: u32, messageId: u32,
                             multiblockId: u64, data: seq<byte>, blockerId: u64)
    returns (total: nat)
    requires cache.Length == MESSAGE_CACHE_SIZE && |data| <= MAX_PAYLOAD && |headerPad| == 4
    modifies cache
    ensures var m := Message(sessionId, messageId, Data(Single(multiblockId, blockerId, data)));
            && total == TotalSize(m.body) <= cache.Length && total % 4 == 0
            && SINGLEBLOCK_HEADER_SIZE + |data| + FOOTER_SIZE <= total
            && var pad := CachePadding(old(cache[..]), headerPad, SINGLEBLOCK_HEADER_SIZE + |data|, total);
            && PadFits(m.body, pad) && cache[..total] == Encode(m, pad)
  {
    hide Encode, Sum;
    total := SINGLEBLOCK_HEADER_SIZE + |data| + (8 - |data| % 8) % 8 + FOOTER_SIZE;
    var m := Message(sessionId, messageId, Data(Single(multiblockId, blockerId, data)));
    WidthSums();
    SizeBounds(m.body);
    BuildFrame(cache, m, headerPad, total);
  }

  method SendDataMultiStatic(cache: array<byte>, sessionId: u32, messageId: u32, totalSize: u64,
                             multiblockId: u64, totalPartNumber: u32, partId: u32, data: seq<byte>)
    returns (total: nat)
    requires cache.Length == MESSAGE_CACHE_SIZE && |data| <= MAX_PAYLOAD
    modifies cache
    ensures var m := Message(sessionId, messageId, Data(Part(multiblockId, totalSize, totalPartNumber, partId, data)));
            && total == TotalSize(m.body) <= cache.Length && total % 4 == 0
            && MULTIBLOCK_HEADER_SIZE + |data| + FOOTER_SIZE <= total
            && var pad := CachePadding(old(cache[..]), [], MULTIBLOCK_HEADER_SIZE + |data|, total);
            && PadFits(m.body, pad) && cache[..total] == Encode(m, pad)
  {
    hide Encode, Sum;
    total := MULTIBLOCK_HEADER_SIZE + |data| + (8 - |data| % 8) % 8 + FOOTER_SIZE;
    var m := Message(sessionId, messageId, Data(Part(multiblockId, totalSize, totalPartNumber, partId, data)));
    WidthSums();
    SizeBounds(m.body);
    BuildFrame(cache, m, [], total);
  }
}
