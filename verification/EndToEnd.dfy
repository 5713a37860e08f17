/** From the send loop of one process to the callback of the other: fragmentation, framing, the byte stream cut
    into chunks, parsing and reassembly put together. */
module EndToEnd {
  import opened Bytes
  import opened Wire
  import opened Parser
  import opened Fragmentation
  import opened Reassembly

  /** What the send functions put on the connection for one payload. */
  function SentFrames(max: pos, id: u64, t: Transfer): seq<Packet>
    requires t.Sound()
  {
    if t.single then [Single(id, t.blockerId, t.data)] else CodeFrames(max, id, t.data, t.blockerId)
  }

  /** The threads of the sender took turns in any way: each transfer's frames come in their own order. */
  ghost predicate SentInterleaved(max: pos, ps: seq<Packet>, ts: map<u64, Transfer>) {
    && (forall id :: id in ts ==> ts[id].Sound())
    && (forall id :: Only(ps, id) == if id in ts then SentFrames(max, id, ts[id]) else [])
  }

  lemma SentAsIntended(max: pos, id: u64, t: Transfer)
    requires t.Sound() && (t.single || OffsetsFit(max, |t.data|))
    ensures SentFrames(max, id, t) == FramesOf(max, id, t)
  {
    if !t.single {
      CodeSendsIdeal(max, id, t.data, t.blockerId);
    }
  }

  lemma InterleavesSent(max: pos, ps: seq<Packet>, ts: map<u64, Transfer>)
    requires SentInterleaved(max, ps, ts)
    requires forall id :: id in ts && !ts[id].single ==> OffsetsFit(max, |ts[id].data|)
    ensures Interleaves(max, ps, ts)
  {
    hide FramesOf, SentFrames, Only, OffsetsFit;
    forall id ensures Only(ps, id) == if id in ts then FramesOf(max, id, ts[id]) else [] {
      if id in ts {
        SentAsIntended(max, id, ts[id]);
      }
    }
  }

  /** Main result: any number of payloads, sent by any number of threads, mixed with any other messages, with any
      padding bytes, cut into chunks anywhere: each payload is handed over once, byte for byte, and nothing is
      left behind, neither in the receive buffer nor in the incoming map. */
  lemma {:induction false} PayloadsArrive(max: pos, fs: seq<Framed>, chunks: seq<seq<byte>>,
                                          ts: map<u64, Transfer>, c: Contents)
    requires WellFormed(fs) && chunks != [] && Flatten(chunks) == ByteStream(fs)
    requires SentInterleaved(max, Packets(Messages(fs)), ts) && ts.Keys !! c.Keys
    requires forall id :: id in ts && !ts[id].single ==> OffsetsFit(max, |ts[id].data|)
    ensures var d := ReceiveAll([], chunks);
            var (c', handed) := Reassembly.Run(c, Packets(d.messages));
            && d.rest == [] && c' == c
            && forall id :: OnlyDeliveries(handed, id)
                         == if id in ts then [Delivery(id, ts[id].blockerId, Some(ts[id].data))] else []
  {
    hide *;
    StreamReceived(fs, chunks);
    InterleavesSent(max, Packets(Messages(fs)), ts);
    InterleavedTransfers(max, c, Packets(Messages(fs)), ts);
  }
}
