/** Splitting a payload that is too large for one frame (src/multiblock_io.cpp, sendOutgoingData). */
module Fragmentation {
  import opened Bytes
  import opened Wire

  type pos = n: int | 0 < n witness 1

  const DEFAULT_MAX: pos := 128 * 1024
  const WRAP: nat := 0x1_0000_0000

  function Min(a: nat, b: nat): nat { if a <= b then a else b }

  /** ceil(size / max) */
  function PartCount(max: pos, size: nat): nat {
    if size == 0 then 0 else (size - 1) / max + 1
  }

  /** The announced number of parts: a division rounded down, cast to 32 bits, plus one. */
  function Announced(max: pos, size: nat): u32 { (size / max % WRAP + 1) % WRAP }

  /** Number of bytes in front of part k. */
  function Offset(max: pos, k: nat): nat { k * max }

  /** The 32-bit product the code adds to the data pointer. */
  function CodeOffset(max: pos, k: nat): (o: u32)
    ensures o <= Offset(max, k)
  {
    MulMonotone(k % WRAP, k, max);
    max * (k % WRAP) % WRAP
  }

  lemma MulMonotone(a: nat, b: nat, m: nat)
    requires a <= b
    ensures a * m <= b * m && m * a <= m * b
  {
  }

  lemma DivBounds(x: nat, d: pos)
    ensures Offset(d, x / d) <= x < Offset(d, x / d + 1)
  {
    assert x == x / d * d + x % d;
  }

  lemma OffsetStep(max: pos, k: nat)
    ensures Offset(max, 0) == 0 && Offset(max, k + 1) == Offset(max, k) + max
  {
  }

  lemma OffsetMonotone(max: pos, j: nat, k: nat)
    requires j <= k
    ensures Offset(max, j) <= Offset(max, k) && k <= Offset(max, k)
  {
    MulMonotone(j, k, max);
    MulMonotone(1, max, k);
  }

  lemma PartBounds(max: pos, size: nat, k: nat)
    requires k < PartCount(max, size)
    ensures Offset(max, k) < size && (k + 1 < PartCount(max, size) <==> Offset(max, k + 1) < size)
  {
    var n := (size - 1) / max;
    DivBounds(size - 1, max);
    hide Offset;
    OffsetMonotone(max, k, n);
    if k + 1 <= n {
      OffsetMonotone(max, k + 1, n);
    }
  }

  /** The k-th slice of max bytes; the last one may be shorter. */
  function Slice(max: pos, data: seq<byte>, k: nat): seq<byte>
    requires Offset(max, k) <= |data|
  {
    data[Offset(max, k)..Min(Offset(max, k) + max, |data|)]
  }

  /** Every part is sent with the right bytes: the ideal transfer. */
  function PartAt(max: pos, id: u64, data: seq<byte>, k: nat): Packet
    requires |data| <= 0xffff_ffff_ffff_ffff && k < PartCount(max, |data|)
  {
    PartBounds(max, |data|, k);
    Part(id, |data|, Announced(max, |data|), k % WRAP, Slice(max, data, k))
  }

  function Frames(max: pos, id: u64, data: seq<byte>, blockerId: u64): (fs: seq<Packet>)
    requires |data| <= 0xffff_ffff_ffff_ffff
    ensures |fs| == PartCount(max, |data|) + 1
  {
    seq(PartCount(max, |data|), k requires 0 <= k < PartCount(max, |data|) => PartAt(max, id, data, k))
    + [Finish(id, blockerId)]
  }

  /** What the code sends as part k. */
  function CodePartAt(max: pos, id: u64, data: seq<byte>, k: nat): Packet
    requires |data| <= 0xffff_ffff_ffff_ffff && k < PartCount(max, |data|)
  {
    PartBounds(max, |data|, k);
    var at := CodeOffset(max, k);
    Part(id, |data|, Announced(max, |data|), k % WRAP, data[at..at + Min(max, |data| - Offset(max, k))])
  }

  function CodeFrames(max: pos, id: u64, data: seq<byte>, blockerId: u64): (fs: seq<Packet>)
    requires |data| <= 0xffff_ffff_ffff_ffff
    ensures |fs| == PartCount(max, |data|) + 1
  {
    seq(PartCount(max, |data|), k requires 0 <= k < PartCount(max, |data|) => CodePartAt(max, id, data, k))
    + [Finish(id, blockerId)]
  }

  /** The send loop. accepted is the number of frames the socket takes before a send fails, aborted the number
      of frames after which the destructor has set m_abort. */
  method SendOutgoingData(max: pos, data: seq<byte>, newMultiblockId: u64, blockerId: u64, accepted: nat, aborted: nat)
    returns (result: u64, sent: seq<Packet>)
    requires |data| <= 0xffff_ffff_ffff_ffff
    ensures var all, stop := CodeFrames(max, newMultiblockId, data, blockerId), Min(accepted, aborted);
            && sent == all[..Min(stop, |all|)]
            && result == if |all| <= stop then newMultiblockId else 0
  {
    hide Offset, PartCount, CodeOffset, CodeFrames, Announced;
    var totalSize: u64 := |data|;
    var partCounter: u32 := 0;
    var totalPartNumber: u32 := Announced(max, |data|);
    sent := [];
    ghost var k := 0;
    ghost var count := PartCount(max, |data|);
    ghost var all := CodeFrames(max, newMultiblockId, data, blockerId);
    OffsetStep(max, 0);
    NoParts(max, |data|);
    while totalSize != 0 && |sent| < aborted
      invariant k <= count && k <= accepted && k <= aborted && partCounter == k % WRAP
      invariant k < count ==> Offset(max, k) <= |data| && totalSize == |data| - Offset(max, k)
      invariant totalSize == 0 <==> k == count
      invariant sent == all[..k]
      decreases count - k
    {
      PartBounds(max, |data|, k);
      OffsetStep(max, k);
      var currentMessageSize := max;
      if totalSize <= max {
        currentMessageSize := totalSize;
      }
      totalSize := totalSize - currentMessageSize;
      var at := CodeOffset(max, partCounter);
      SameOffset(max, k);
      CodePartIs(max, newMultiblockId, data, blockerId, k);
      if |sent| == accepted {
        assert accepted == k < |all|;
        return 0, sent;
      }
      var part := Part(newMultiblockId, |data|, totalPartNumber, partCounter, data[at..at + currentMessageSize]);
      sent := sent + [part];
      partCounter := (partCounter + 1) % WRAP;
      NextCounter(k);
      k := k + 1;
    }
    if |sent| == aborted {
      return 0, sent;
    }
    if |sent| == accepted {
      return 0, sent;
    }
    sent := sent + [Finish(newMultiblockId, blockerId)];
    FinishIs(max, newMultiblockId, data, blockerId);
    return newMultiblockId, sent;
  }

  lemma CodePartIs(max: pos, id: u64, data: seq<byte>, blockerId: u64, k: nat)
    requires |data| <= 0xffff_ffff_ffff_ffff && k < PartCount(max, |data|)
    ensures Offset(max, k) < |data|
    ensures var at, n := CodeOffset(max, k), Min(max, |data| - Offset(max, k));
            && at + n <= |data|
            && CodeFrames(max, id, data, blockerId)[k]
               == Part(id, |data|, Announced(max, |data|), k % WRAP, data[at..at + n])
    ensures Min(max, |data| - Offset(max, k)) == if |data| - Offset(max, k) <= max then |data| - Offset(max, k) else max
  {
    PartBounds(max, |data|, k);
  }

  lemma FinishIs(max: pos, id: u64, data: seq<byte>, blockerId: u64)
    requires |data| <= 0xffff_ffff_ffff_ffff
    ensures var fs := CodeFrames(max, id, data, blockerId);
            && fs == fs[..PartCount(max, |data|)] + [Finish(id, blockerId)]
            && forall n: nat {:trigger Min(n, |fs|)} :: Min(n, |fs|) == if n <= |fs| then n else |fs|
  {
  }

  lemma NextCounter(k: nat)
    ensures (k % WRAP + 1) % WRAP == (k + 1) % WRAP
  {
  }

  lemma NoParts(max: pos, size: nat)
    ensures PartCount(max, size) == 0 <==> size == 0
  {
  }

  lemma SameOffset(max: pos, k: nat)
    ensures CodeOffset(max, k % WRAP) == CodeOffset(max, k)
  {
    assert k % WRAP % WRAP == k % WRAP;
  }

  // ---- the arithmetic ----

  /** No offset of the transfer reaches 2^32. */
  predicate OffsetsFit(max: pos, size: nat) {
    size == 0 || Offset(max, PartCount(max, size) - 1) < WRAP
  }

  lemma CodeOffsetExact(max: pos, k: nat)
    ensures CodeOffset(max, k) == Offset(max, k) <==> Offset(max, k) < WRAP
  {
    OffsetMonotone(max, k, k);
    assert max * k == k * max;
  }

  /** The 32-bit offset is the number of bytes already sent, for every part, exactly under this condition. */
  lemma {:induction false} OffsetsExact(max: pos, size: nat)
    ensures OffsetsFit(max, size)
       <==> (forall k :: 0 <= k < PartCount(max, size) ==> CodeOffset(max, k) == Offset(max, k))
  {
    var n := PartCount(max, size);
    NoParts(max, size);
    hide PartCount, Offset, CodeOffset;
    if size > 0 {
      CodeOffsetExact(max, n - 1);
      if OffsetsFit(max, size) {
        forall k | 0 <= k < n ensures CodeOffset(max, k) == Offset(max, k) {
          OffsetMonotone(max, k, n - 1);
          CodeOffsetExact(max, k);
        }
      }
    }
  }

  /** With the default limit that is: sizes up to 2^32. */
  lemma DefaultOffsets(size: nat)
    ensures OffsetsFit(DEFAULT_MAX, size) <==> size <= WRAP
  {
  }

  /** Under that condition the code sends the ideal transfer. */
  lemma {:induction false} CodeSendsIdeal(max: pos, id: u64, data: seq<byte>, blockerId: u64)
    requires |data| <= 0xffff_ffff_ffff_ffff && OffsetsFit(max, |data|)
    ensures CodeFrames(max, id, data, blockerId) == Frames(max, id, data, blockerId)
  {
    OffsetsExact(max, |data|);
    forall k | 0 <= k < PartCount(max, |data|)
      ensures CodePartAt(max, id, data, k) == PartAt(max, id, data, k)
    {
      PartBounds(max, |data|, k);
    }
  }

  /** Beyond it the bytes are wrong: one byte more than 2^32, and the last part repeats the first byte. */
  lemma WrapRepeatsStart(id: u64, data: seq<byte>, blockerId: u64)
    requires |data| == WRAP + 1 && data[0] != data[WRAP]
    ensures CodeFrames(DEFAULT_MAX, id, data, blockerId) != Frames(DEFAULT_MAX, id, data, blockerId)
  {
    var k := 0x8000;
    assert PartCount(DEFAULT_MAX, |data|) == k + 1;
    assert CodePartAt(DEFAULT_MAX, id, data, k).payload[0] == data[0];
    assert PartAt(DEFAULT_MAX, id, data, k).payload[0] == data[WRAP];
    assert CodeFrames(DEFAULT_MAX, id, data, blockerId)[k] != Frames(DEFAULT_MAX, id, data, blockerId)[k];
  }

  lemma QuotientIs(x: nat, d: pos, q: nat)
    requires Offset(d, q) <= x < Offset(d, q) + d
    ensures x / d == q
  {
    DivBounds(x, d);
    OffsetStep(d, q);
    hide Offset;
    if x / d < q {
      OffsetMonotone(d, x / d + 1, q);
    } else if q < x / d {
      OffsetMonotone(d, q + 1, x / d);
    }
  }

  lemma DivPredecessor(size: pos, max: pos, q: nat, r: nat)
    requires size == Offset(max, q) + r && r < max
    ensures (size - 1) / max == if r == 0 then q - 1 else q
  {
    OffsetStep(max, if q == 0 then 0 else q - 1);
    hide Offset;
    if r > 0 {
      QuotientIs(size - 1, max, q);
    } else if q > 0 {
      QuotientIs(size - 1, max, q - 1);
    }
  }

  lemma DivMod(x: nat, d: pos)
    ensures x == Offset(d, x / d) + x % d && x % d < d
    ensures x == 0 ==> x / d == x % d == 0
  {
  }

  lemma PartCountIs(max: pos, size: nat)
    ensures PartCount(max, size) == size / max + if size % max == 0 then 0 else 1
  {
    DivMod(size, max);
    hide Offset;
    if size > 0 {
      DivPredecessor(size, max, size / max, size % max);
    }
  }

  /** The announced number of parts is right exactly when max does not divide the size and the number fits. */
  lemma {:induction false} AnnouncedExact(max: pos, size: nat)
    ensures Announced(max, size) == PartCount(max, size) <==> size % max != 0 && size / max + 1 < WRAP
  {
    PartCountIs(max, size);
    hide PartCount;
  }

  /** When the limit divides the size, one part more is announced than is sent. */
  lemma {:induction false} AnnouncedOneMore(max: pos, size: nat)
    requires size % max == 0 && size / max + 1 < WRAP
    ensures Announced(max, size) == PartCount(max, size) + 1
  {
    PartCountIs(max, size);
    hide PartCount;
  }

  function Payloads(fs: seq<Packet>): seq<byte> {
    if fs == [] then []
    else (if fs[0].Part? then fs[0].payload else []) + Payloads(fs[1..])
  }

  lemma {:induction false} PayloadsAppend(a: seq<Packet>, b: seq<Packet>)
    ensures Payloads(a + b) == Payloads(a) + Payloads(b)
  {
    if a == [] {
      assert a + b == b;
    } else {
      assert (a + b)[1..] == a[1..] + b;
      PayloadsAppend(a[1..], b);
    }
  }

  lemma FrameIs(max: pos, id: u64, data: seq<byte>, blockerId: u64, k: nat)
    requires |data| <= 0xffff_ffff_ffff_ffff && k <= PartCount(max, |data|)
    ensures var fs, n := Frames(max, id, data, blockerId), PartCount(max, |data|);
            if k == n then fs[n..] == [Finish(id, blockerId)]
            else
              && Offset(max, k) < |data|
              && fs[k] == Part(id, |data|, Announced(max, |data|), k % WRAP, Slice(max, data, k))
              && (if k < n - 1 then |Slice(max, data, k)| == max else 0 < |Slice(max, data, k)| <= max)
  {
    var n := PartCount(max, |data|);
    if k < n {
      PartBounds(max, |data|, k);
      OffsetStep(max, k);
    }
  }

  lemma PrefixJoined(data: seq<byte>, at: nat, max: nat)
    requires at <= |data|
    ensures data[..Min(at, |data|)] + data[at..Min(at + max, |data|)] == data[..Min(at + max, |data|)]
  {
  }

  /** After k parts the receiver has the first k * max bytes, or all of them. */
  lemma {:induction false} PayloadsOfPrefix(max: pos, id: u64, data: seq<byte>, blockerId: u64, k: nat)
    requires |data| <= 0xffff_ffff_ffff_ffff && k <= PartCount(max, |data|)
    ensures Payloads(Frames(max, id, data, blockerId)[..k]) == data[..Min(Offset(max, k), |data|)]
    decreases k
  {
    var fs := Frames(max, id, data, blockerId);
    hide Offset, PartCount, Frames, Announced;
    if k == 0 {
      OffsetStep(max, 0);
    } else {
      PayloadsOfPrefix(max, id, data, blockerId, k - 1);
      FrameIs(max, id, data, blockerId, k - 1);
      OffsetStep(max, k - 1);
      PrefixJoined(data, Offset(max, k - 1), max);
      assert fs[..k] == fs[..k - 1] + [fs[k - 1]];
      PayloadsAppend(fs[..k - 1], [fs[k - 1]]);
      assert Payloads([fs[k - 1]]) == fs[k - 1].payload;
    }
  }

  lemma AnnouncedIs(max: pos, size: nat)
    ensures Announced(max, size) == (size / max + 1) % WRAP
  {
  }

  /** The parts put together are the data; all but the last are full; each carries the ids and sizes of the
      transfer and its own number, and a finish with the blocker id comes behind them. */
  lemma {:induction false} PartsPartition(max: pos, id: u64, data: seq<byte>, blockerId: u64)
    requires |data| <= 0xffff_ffff_ffff_ffff
    ensures var fs, n := Frames(max, id, data, blockerId), PartCount(max, |data|);
            && Payloads(fs[..n]) == data && fs[n..] == [Finish(id, blockerId)]
            && (forall k :: 0 <= k < n ==>
                  && fs[k].Part? && fs[k].partId == k % WRAP
                  && fs[k].multiblockId == id && fs[k].totalSize == |data|
                  && fs[k].totalPartNumber == (|data| / max + 1) % WRAP
                  && (if k < n - 1 then |fs[k].payload| == max else 0 < |fs[k].payload| <= max))
  {
    var n := PartCount(max, |data|);
    PayloadsOfPrefix(max, id, data, blockerId, n);
    WholeData(max, data);
    FrameIs(max, id, data, blockerId, n);
    AnnouncedIs(max, |data|);
    hide Offset, Slice, PartCount, Frames, Payloads, Announced;
    forall k | 0 <= k < n
      ensures var p := Frames(max, id, data, blockerId)[k];
              && p.Part? && p.partId == k % WRAP && p.multiblockId == id && p.totalSize == |data|
              && p.totalPartNumber == (|data| / max + 1) % WRAP
              && if k < n - 1 then |p.payload| == max else 0 < |p.payload| <= max
    {
      FrameIs(max, id, data, blockerId, k);
    }
  }

  lemma WholeData(max: pos, data: seq<byte>)
    ensures data[..Min(Offset(max, PartCount(max, |data|)), |data|)] == data
  {
    var n := PartCount(max, |data|);
    if n > 0 {
      PartBounds(max, |data|, n - 1);
    }
  }
}
