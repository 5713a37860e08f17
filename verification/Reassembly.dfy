/** Putting multi-block payloads back together, as values: one growing byte sequence per multiblock id
    (src/multiblock_io.cpp, src/messages_processing/multiblock_data_processing.h). */
module Reassembly {
  import opened Bytes
  import opened Wire
  import opened Fragmentation

  /** What a complete payload is handed over with: its own id, the blocker id, the bytes. */
  datatype Delivery = Delivery(multiblockId: u64, blockerId: u64, data: Option<seq<byte>>)

  type Contents = map<u64, seq<byte>>

  /** What a packet does to the buffer of its own id. A part numbered 0 creates the buffer, unless there is
      one already; a finish hands over what there is and removes it. */
  function AbsorbOne(o: Option<seq<byte>>, p: Packet): (Option<seq<byte>>, seq<Delivery>) {
    match p
    case Single(id, blocker, payload) => (o, [Delivery(id, blocker, Some(payload))])
    case Part(_, _, _, partId, payload) =>
      var base := if partId == 0 && o.None? then Some([]) else o;
      (if base.Some? then Some(base.value + payload) else None, [])
    case Finish(id, blocker) => (None, [Delivery(id, blocker, o)])
  }

  function At(c: Contents, id: u64): Option<seq<byte>> { if id in c then Some(c[id]) else None }

  function Put(c: Contents, id: u64, o: Option<seq<byte>>): Contents {
    if o.Some? then c[id := o.value] else c - {id}
  }

  function Absorb(c: Contents, p: Packet): (Contents, seq<Delivery>) {
    var r := AbsorbOne(At(c, p.multiblockId), p);
    (Put(c, p.multiblockId, r.0), r.1)
  }

  function Run(c: Contents, ps: seq<Packet>): (Contents, seq<Delivery>)
    decreases |ps|
  {
    if ps == [] then (c, [])
    else
      var first := Absorb(c, ps[0]);
      var rest := Run(first.0, ps[1..]);
      (rest.0, first.1 + rest.1)
  }

  function RunOne(o: Option<seq<byte>>, ps: seq<Packet>): (Option<seq<byte>>, seq<Delivery>)
    decreases |ps|
  {
    if ps == [] then (o, [])
    else
      var first := AbsorbOne(o, ps[0]);
      var rest := RunOne(first.0, ps[1..]);
      (rest.0, first.1 + rest.1)
  }

  /** The packets of one transfer, in their own order. */
  function Only(ps: seq<Packet>, id: u64): seq<Packet> {
    if ps == [] then []
    else (if ps[0].multiblockId == id then [ps[0]] else []) + Only(ps[1..], id)
  }

  function OnlyDeliveries(ds: seq<Delivery>, id: u64): seq<Delivery> {
    if ds == [] then []
    else (if ds[0].multiblockId == id then [ds[0]] else []) + OnlyDeliveries(ds[1..], id)
  }

  lemma Assoc<T>(a: seq<T>, b: seq<T>, c: seq<T>)
    ensures a + (b + c) == a + b + c
  {
  }

  lemma {:induction false} OnlyDeliveriesAppend(a: seq<Delivery>, b: seq<Delivery>, id: u64)
    ensures OnlyDeliveries(a + b, id) == OnlyDeliveries(a, id) + OnlyDeliveries(b, id)
  {
    if a == [] {
      assert a + b == b;
    } else {
      assert (a + b)[1..] == a[1..] + b && (a + b)[0] == a[0];
      OnlyDeliveriesAppend(a[1..], b, id);
      var head := if a[0].multiblockId == id then [a[0]] else [];
      Assoc(head, OnlyDeliveries(a[1..], id), OnlyDeliveries(b, id));
    }
  }

  lemma {:induction false} OnlyAppend(a: seq<Packet>, b: seq<Packet>, id: u64)
    ensures Only(a + b, id) == Only(a, id) + Only(b, id)
  {
    if a == [] {
      assert a + b == b;
    } else {
      assert (a + b)[1..] == a[1..] + b && (a + b)[0] == a[0];
      OnlyAppend(a[1..], b, id);
      var head := if a[0].multiblockId == id then [a[0]] else [];
      Assoc(head, Only(a[1..], id), Only(b, id));
    }
  }

  lemma AbsorbedDelivery(o: Option<seq<byte>>, p: Packet, id: u64)
    ensures OnlyDeliveries(AbsorbOne(o, p).1, id) == if p.multiblockId == id then AbsorbOne(o, p).1 else []
  {
    var ds := AbsorbOne(o, p).1;
    if ds != [] {
      assert ds[1..] == [];
    }
  }

  /** Transfers do not touch each other: what happens under an id depends on the packets of that id alone. */
  lemma {:induction false} Independent(c: Contents, ps: seq<Packet>, id: u64)
    ensures At(Run(c, ps).0, id) == RunOne(At(c, id), Only(ps, id)).0
    ensures OnlyDeliveries(Run(c, ps).1, id) == RunOne(At(c, id), Only(ps, id)).1
    decreases |ps|
  {
    if ps != [] {
      hide AbsorbOne;
      var p, rest := ps[0], ps[1..];
      var first := Absorb(c, p);
      Independent(first.0, rest, id);
      OnlyDeliveriesAppend(first.1, Run(first.0, rest).1, id);
      AbsorbedDelivery(At(c, p.multiblockId), p, id);
      if p.multiblockId == id {
        assert Only(ps, id) == [p] + Only(rest, id);
        assert ([p] + Only(rest, id))[1..] == Only(rest, id);
      } else {
        assert Only(ps, id) == Only(rest, id);
      }
    }
  }

  lemma {:induction false} RunOneSnoc(o: Option<seq<byte>>, a: seq<Packet>, p: Packet)
    ensures var first := RunOne(o, a);
            var last := AbsorbOne(first.0, p);
            RunOne(o, a + [p]) == (last.0, first.1 + last.1)
    decreases |a|
  {
    hide AbsorbOne;
    if a == [] {
      assert a + [p] == [p] && [p][1..] == [];
      var last := AbsorbOne(o, p);
      assert last.1 + [] == [] + last.1;
    } else {
      assert (a + [p])[1..] == a[1..] + [p];
      var first := AbsorbOne(o, a[0]);
      RunOneSnoc(first.0, a[1..], p);
      var middle := RunOne(first.0, a[1..]);
      var last := AbsorbOne(middle.0, p);
      assert first.1 + (middle.1 + last.1) == first.1 + middle.1 + last.1;
    }
  }

  // ---- whole transfers ----

  datatype Transfer = Transfer(data: seq<byte>, blockerId: u64, single: bool)
  {
    /** The multi-block path is taken for non-empty payloads only. */
    predicate Sound() { |data| <= 0xffff_ffff_ffff_ffff && (single || data != []) }
  }

  function FramesOf(max: pos, id: u64, t: Transfer): (fs: seq<Packet>)
    requires t.Sound()
    ensures fs != []
  {
    if t.single then [Single(id, t.blockerId, t.data)] else Frames(max, id, t.data, t.blockerId)
  }

  function Base(o: Option<seq<byte>>): seq<byte> { if o.Some? then o.value else [] }

  /** The bytes the first k parts of a transfer carry. */
  function Prefix(max: pos, data: seq<byte>, k: nat): seq<byte> {
    data[..Min(Offset(max, k), |data|)]
  }

  lemma PrefixGrows(max: pos, data: seq<byte>, k: nat)
    requires k < PartCount(max, |data|)
    ensures Offset(max, k) <= |data|
    ensures Prefix(max, data, k + 1) == Prefix(max, data, k) + Slice(max, data, k)
    ensures Prefix(max, data, 0) == []
  {
    hide Offset, PartCount;
    PartBounds(max, |data|, k);
    OffsetStep(max, k);
  }

  lemma PrefixWhole(max: pos, data: seq<byte>)
    requires data != []
    ensures PartCount(max, |data|) > 0 && Prefix(max, data, PartCount(max, |data|)) == data
  {
    var n := PartCount(max, |data|);
    NoParts(max, |data|);
    PartBounds(max, |data|, n - 1);
    OffsetStep(max, n - 1);
  }

  lemma FrameAt(max: pos, id: u64, t: Transfer, k: nat)
    requires t.Sound() && !t.single && k <= PartCount(max, |t.data|)
    ensures var fs, n := FramesOf(max, id, t), PartCount(max, |t.data|);
            && |fs| == n + 1
            && fs[..k + 1] == fs[..k] + [fs[k]]
            && (if k < n then
                  && Offset(max, k) <= |t.data|
                  && fs[k].Part? && fs[k].partId == k % WRAP && fs[k].payload == Slice(max, t.data, k)
                else fs[k] == Finish(id, t.blockerId))
  {
    if k < PartCount(max, |t.data|) {
      PartBounds(max, |t.data|, k);
    }
  }

  lemma AbsorbPart(o: Option<seq<byte>>, p: Packet)
    requires p.Part? && (o.Some? || p.partId == 0)
    ensures AbsorbOne(o, p) == (Some(Base(o) + p.payload), [])
  {
  }

  lemma RunOneNothing(o: Option<seq<byte>>)
    ensures RunOne(o, []) == (o, [])
  {
  }

  lemma {:induction false} PartsAppended(max: pos, id: u64, t: Transfer, o: Option<seq<byte>>, k: nat)
    requires t.Sound() && !t.single && k <= PartCount(max, |t.data|)
    requires |FramesOf(max, id, t)| == PartCount(max, |t.data|) + 1
    ensures RunOne(o, FramesOf(max, id, t)[..k])
         == (if k == 0 then o else Some(Base(o) + Prefix(max, t.data, k)), [])
    decreases k
  {
    hide FramesOf, Offset, PartCount, Prefix, Slice, RunOne, AbsorbOne;
    var fs := FramesOf(max, id, t);
    if k == 0 {
      RunOneNothing(o);
      assert fs[..0] == [];
    } else {
      FrameAt(max, id, t, k - 1);
      PrefixGrows(max, t.data, k - 1);
      PartsAppended(max, id, t, o, k - 1);
      RunOneSnoc(o, fs[..k - 1], fs[k - 1]);
      AbsorbPart(RunOne(o, fs[..k - 1]).0, fs[k - 1]);
      Assoc(Base(o), Prefix(max, t.data, k - 1), Slice(max, t.data, k - 1));
      assert [] + Slice(max, t.data, k - 1) == Slice(max, t.data, k - 1);
      assert RunOne(o, fs[..k - 1]).1 + [] == [];
    }
  }

  lemma MultiDelivers(max: pos, id: u64, t: Transfer, o: Option<seq<byte>>)
    requires t.Sound() && !t.single
    ensures RunOne(o, FramesOf(max, id, t)) == (None, [Delivery(id, t.blockerId, Some(Base(o) + t.data))])
  {
    hide FramesOf, Offset, PartCount, Prefix, RunOne;
    var fs, n := FramesOf(max, id, t), PartCount(max, |t.data|);
    PrefixWhole(max, t.data);
    FrameAt(max, id, t, n);
    PartsAppended(max, id, t, o, n);
    RunOneSnoc(o, fs[..n], fs[n]);
    assert fs[..n + 1] == fs;
    var handed := [Delivery(id, t.blockerId, Some(Base(o) + t.data))];
    assert [] + handed == handed;
  }

  lemma RunOneSingleton(o: Option<seq<byte>>, p: Packet)
    ensures RunOne(o, [p]) == AbsorbOne(o, p)
  {
    RunOneSnoc(o, [], p);
    assert [] + [p] == [p] && [] + AbsorbOne(o, p).1 == AbsorbOne(o, p).1;
  }

  /** A transfer hands over once, in front of it whatever an older buffer of the same id still held. */
  lemma TransferDelivers(max: pos, id: u64, t: Transfer, o: Option<seq<byte>>)
    requires t.Sound()
    ensures RunOne(o, FramesOf(max, id, t))
         == (if t.single then o else None,
             [Delivery(id, t.blockerId, Some(if t.single then t.data else Base(o) + t.data))])
  {
    if t.single {
      RunOneSingleton(o, Single(id, t.blockerId, t.data));
    } else {
      MultiDelivers(max, id, t, o);
    }
  }

  /** The id must be unused, or its buffer empty: exactly then the bytes sent are the bytes handed over. */
  lemma {:induction false} FreshIdNeeded(max: pos, id: u64, t: Transfer, o: Option<seq<byte>>)
    requires t.Sound() && !t.single
    ensures RunOne(o, FramesOf(max, id, t)).1 == [Delivery(id, t.blockerId, Some(t.data))] <==> Base(o) == []
  {
    TransferDelivers(max, id, t, o);
    if Base(o) == [] {
      assert [] + t.data == t.data;
    } else {
      assert |Base(o) + t.data| != |t.data|;
    }
  }

  /** Without the part numbered 0 nothing is put together: the other parts are dropped, and the finish hands over
      that there is nothing. */
  lemma {:induction false} StartNeeded(ps: seq<Packet>, id: u64, blockerId: u64)
    requires forall k :: 0 <= k < |ps| ==> ps[k].Part? && ps[k].multiblockId == id && ps[k].partId != 0
    ensures RunOne(None, ps + [Finish(id, blockerId)]) == (None, [Delivery(id, blockerId, None)])
    decreases |ps|
  {
    if ps == [] {
      assert [] + [Finish(id, blockerId)] == [Finish(id, blockerId)];
      RunOneSingleton(None, Finish(id, blockerId));
    } else {
      StartNeeded(ps[1..], id, blockerId);
      var all := ps + [Finish(id, blockerId)];
      assert all[0] == ps[0] && all[1..] == ps[1..] + [Finish(id, blockerId)];
      assert AbsorbOne(None, all[0]) == (None, []);
      assert [] + [Delivery(id, blockerId, None)] == [Delivery(id, blockerId, None)];
    }
  }

  /** ps is some interleaving of exactly the frames of the given transfers, each in its own order. */
  ghost predicate Interleaves(max: pos, ps: seq<Packet>, ts: map<u64, Transfer>) {
    && (forall id :: id in ts ==> ts[id].Sound())
    && (forall id :: Only(ps, id) == if id in ts then FramesOf(max, id, ts[id]) else [])
  }

  /** Main result: whatever way the frames of any number of transfers interleave, every transfer hands over
      exactly its bytes, exactly once, under its ids, and the incoming map ends as it began. */
  lemma {:induction false} InterleavedTransfers(max: pos, c: Contents, ps: seq<Packet>, ts: map<u64, Transfer>)
    requires Interleaves(max, ps, ts) && ts.Keys !! c.Keys
    ensures Run(c, ps).0 == c
    ensures forall id :: OnlyDeliveries(Run(c, ps).1, id)
                      == if id in ts then [Delivery(id, ts[id].blockerId, Some(ts[id].data))] else []
  {
    forall id
      ensures At(Run(c, ps).0, id) == At(c, id)
      ensures OnlyDeliveries(Run(c, ps).1, id)
           == if id in ts then [Delivery(id, ts[id].blockerId, Some(ts[id].data))] else []
    {
      Independent(c, ps, id);
      if id in ts {
        TransferDelivers(max, id, ts[id], None);
        assert [] + ts[id].data == ts[id].data;
      }
    }
    var end := Run(c, ps).0;
    assert forall id :: (id in end <==> id in c) && (id in c ==> end[id] == c[id]) by {
      forall id ensures (id in end <==> id in c) && (id in c ==> end[id] == c[id]) {
        assert At(end, id) == At(c, id);
      }
    }
    assert end == c;
  }
}
