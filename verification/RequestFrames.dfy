/** How the payload of a call goes out: in one frame if the limit allows it, and in parts of at most the limit
    otherwise (src/session.cpp, src/multiblock_io.cpp). */
module RequestFrames {
  import opened Bytes
  import opened Wire
  import opened BlockedCallers
  import opened Fragmentation
  import opened DataProcessing
  import opened RequestSteps
  import opened RequestSystem
  import opened RequestTraces

  /** fs carry data in parts of at most max bytes, numbered from 0, and a finish behind them. */
  predicate InParts(max: pos, id: u64, data: seq<byte>, blockerId: u64, fs: seq<Packet>) {
    && |fs| > 1 && fs[|fs| - 1] == Finish(id, blockerId) && Payloads(fs[..|fs| - 1]) == data
    && forall k :: 0 <= k < |fs| - 1 ==>
         fs[k].Part? && fs[k].multiblockId == id && fs[k].partId == k % WRAP && 0 < |fs[k].payload| <= max
  }

  /** Requests and normal messages fit one frame up to the limit, responses only below it. */
  predicate FitsOne(max: pos, a: Action)
    requires IsSend(a)
  {
    if a.SendResponse? then |a.data| < max else |a.data| <= max
  }

  predicate GoesOut(max: pos, a: Action, fs: seq<Packet>)
    requires IsSend(a)
  {
    var blockerId := if a.SendResponse? then a.blockerId else 0;
    if FitsOne(max, a) then fs == [Single(a.id, blockerId, a.data)] else InParts(max, a.id, a.data, blockerId, fs)
  }

  lemma PartsOut(max: pos, id: u64, data: seq<byte>, blockerId: u64)
    requires data != [] && |data| <= 0xffff_ffff_ffff_ffff && OffsetsFit(max, |data|)
    ensures InParts(max, id, data, blockerId, CodeFrames(max, id, data, blockerId))
  {
    hide OffsetsFit, CodeFrames, Payloads;
    CodeSendsIdeal(max, id, data, blockerId);
    PartsPartition(max, id, data, blockerId);
    NoParts(max, |data|);
    hide Frames, PartCount;
    var fs, n := Frames(max, id, data, blockerId), PartCount(max, |data|);
    assert fs[n] == fs[n..][0];
  }

  /** A call with a new id and a payload whose offsets fit is never held up, and queues exactly these frames. */
  lemma ActedSplits(max: pos, me: Peer, a: Action)
    requires IsSend(a) && a.id != 0 && a.id !in me.used
    requires |a.data| <= 0xffff_ffff_ffff_ffff && OffsetsFit(max, |a.data|)
    ensures Enabled(max, me, a)
    ensures var jobs := Acted(max, me, a).jobs;
            && a.id in jobs && GoesOut(max, a, jobs[a.id])
            && forall x :: x in me.jobs && x != a.id ==> x in jobs && jobs[x] == me.jobs[x]
  {
    hide OffsetsFit, CodeFrames, InParts;
    if !FitsOne(max, a) {
      PartsOut(max, a.id, a.data, if a.SendResponse? then a.blockerId else 0);
    }
  }

  /** The same within the system: the call takes effect on its own session alone, and at once. */
  lemma {:induction false} SendSplits(max: pos, sys: System, e: nat, a: Action)
    requires Shaped(sys) && e < |sys.ends| && IsSend(a) && a.id != 0 && a.id !in PeerAt(sys, e).used
    requires |a.data| <= 0xffff_ffff_ffff_ffff && OffsetsFit(max, |a.data|)
    ensures CanMove(max, sys, Move(e, a))
    ensures var sent := Stepped(max, sys, e, a);
            && |sent.ends| == |sys.ends| && a.id in sent.ends[e].jobs && GoesOut(max, a, sent.ends[e].jobs[a.id])
            && forall d :: 0 <= d < |sys.ends| && d != e ==> sent.ends[d] == sys.ends[d]
  {
    hide OffsetsFit, GoesOut, Begun;
    ActedSplits(max, PeerAt(sys, e), a);
    hide Acted, Enabled;
  }

  /** No frame ever queued or under way holds more than the limit. */
  predicate Short(max: pos, fs: seq<Packet>) { forall k :: 0 <= k < |fs| && !fs[k].Finish? ==> |fs[k].payload| <= max }

  ghost predicate AllShort(max: pos, p: Peer) {
    Short(max, p.inbox) && forall id :: id in p.jobs ==> Short(max, p.jobs[id])
  }

  lemma OutShort(max: pos, a: Action, fs: seq<Packet>)
    requires IsSend(a) && GoesOut(max, a, fs)
    ensures Short(max, fs)
  {
    hide Payloads;
  }

  lemma ActedShort(max: pos, me: Peer, a: Action)
    requires Enabled(max, me, a) && AllShort(max, me)
    ensures AllShort(max, Acted(max, me, a))
    ensures a.Emit? ==> a.id in me.jobs && me.jobs[a.id] != [] && Short(max, [me.jobs[a.id][0]])
  {
    if IsSend(a) {
      CallFits(max, me, a);
      ActedSplits(max, me, a);
      OutShort(max, a, Acted(max, me, a).jobs[a.id]);
      SendKeepsRest(max, me, a);
      hide Acted, Enabled, GoesOut, OffsetsFit;
    } else {
      hide Begun, Handle, Woken, BlockedCallers.Step, Block;
    }
  }

  lemma CallFits(max: pos, me: Peer, a: Action)
    requires Enabled(max, me, a) && IsSend(a)
    ensures a.id != 0 && a.id !in me.used && |a.data| <= 0xffff_ffff_ffff_ffff && OffsetsFit(max, |a.data|)
  {
    if |a.data| <= max {
      SmallFits(max, |a.data|);
    }
    hide OffsetsFit;
  }

  lemma SmallFits(max: pos, size: nat)
    requires size <= max
    ensures OffsetsFit(max, size)
  {
  }

  lemma SendKeepsRest(max: pos, me: Peer, a: Action)
    requires Enabled(max, me, a) && IsSend(a)
    ensures Acted(max, me, a).inbox == me.inbox && Acted(max, me, a).jobs.Keys == me.jobs.Keys + {a.id}
  {
    hide CodeFrames;
  }

  lemma {:induction false} FramesShort(max: pos, t: Trace, n: nat, e: nat)
    requires IsRun(max, t) && n <= |t.moves| && Shaped(t.states[n]) && e < |t.states[n].ends|
    ensures AllShort(max, PeerAt(t.states[n], e))
    decreases n
  {
    hide Inv, IsStep, CanMove, AllShort, PeerAt, Stepped, Enabled;
    if n == 0 {
      assert Initial(t.states[0]);
      NoFrames(max, t.states[0], e);
    } else {
      RunStep(max, t, n);
      var sys, m := t.states[n - 1], t.moves[n - 1];
      OneStep(max, sys, m, t.states[n]);
      InBounds(max, sys, m);
      FramesShort(max, t, n - 1, e);
      FramesShort(max, t, n - 1, m.end);
      ShortAfter(max, sys, m, e);
    }
  }

  lemma InBounds(max: pos, sys: System, m: Move)
    requires Shaped(sys) && CanMove(max, sys, m)
    ensures m.end < |sys.ends|
  {
  }

  lemma NoFrames(max: pos, sys: System, e: nat)
    requires Initial(sys) && e < |sys.ends|
    ensures AllShort(max, PeerAt(sys, e))
  {
  }

  lemma ShortAfter(max: pos, sys: System, m: Move, e: nat)
    requires Shaped(sys) && CanMove(max, sys, m) && e < |sys.ends|
    requires AllShort(max, PeerAt(sys, e)) && AllShort(max, PeerAt(sys, m.end))
    ensures var sys' := Stepped(max, sys, m.end, m.action);
            Shaped(sys') && e < |sys'.ends| && AllShort(max, PeerAt(sys', e))
  {
    PeersAfter(max, sys, m.end, m.action, e);
    ActedShort(max, PeerAt(sys, m.end), m.action);
    hide PeerAt, Stepped, Acted, Enabled;
  }
}
