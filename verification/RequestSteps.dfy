/** Requests and responses, one session at a time: what the calls, the arriving frames and the timer do to one
    session, its process and the session at the other end of its connection (src/session.cpp). */
module RequestSteps {
  import opened Bytes
  import opened Wire
  import opened SwapList
  import opened BlockedCallers
  import opened Fragmentation
  import opened Reassembly
  import opened DataProcessing
  import opened SharedBuffers

  /** One session as it sees itself and its process. inbox is the channel to it; jobs holds the frames its sending
      threads have still to send; asking the requests sent but not yet blocked on, with their timeouts; blocked
      the callers inside blockMessage. History: used holds every id drawn in the process, sent every payload sent
      on this session, by its id, and done how many frames of each id of the other side were handled here. */
  datatype Peer = Peer(ep: Endpoint, used: set<u64>, inbox: seq<Packet>, done: map<u64, nat>,
                       sent: map<u64, Transfer>, jobs: map<u64, seq<Packet>>, asking: map<u64, u64>,
                       blocked: set<u64>)

  datatype Action =
    | SendNormal(id: u64, data: seq<byte>)
    | SendRequest(id: u64, data: seq<byte>, timeout: u64)
    | SendResponse(id: u64, data: seq<byte>, blockerId: u64)
    | Emit(id: u64)      // one thread puts its next frame on the channel
    | Fail(id: u64)      // the socket refuses a frame: the call gives up
    | BlockOn(id: u64)
    | Wake(id: u64)      // released, or spuriously
    | Deliver
    | TimerStep

  function Done(p: Peer, id: u64): nat { if id in p.done then p.done[id] else 0 }

  function JobOf(p: Peer, id: u64): seq<Packet> { if id in p.jobs then p.jobs[id] else [] }

  /** getRandId never gives 0, and is assumed never to repeat within a process. */
  predicate CanSend(max: pos, me: Peer, id: u64, t: Transfer) {
    id != 0 && id !in me.used && |t.data| <= 0xffff_ffff_ffff_ffff && (t.single || OffsetsFit(max, |t.data|))
  }

  /** Requests and normal messages go as one block up to max bytes, responses only below it. */
  function TransferFor(max: pos, a: Action): Transfer
    requires a.SendNormal? || a.SendRequest? || a.SendResponse?
  {
    match a
    case SendNormal(_, data) => Transfer(data, 0, |data| <= max)
    case SendRequest(_, data, _) => Transfer(data, 0, |data| <= max)
    case SendResponse(_, data, blockerId) => Transfer(data, blockerId, |data| < max)
  }

  predicate Enabled(max: pos, me: Peer, a: Action) {
    match a
    case SendNormal(id, _) => CanSend(max, me, id, TransferFor(max, a))
    case SendRequest(id, _, _) => CanSend(max, me, id, TransferFor(max, a))
    case SendResponse(id, _, _) => CanSend(max, me, id, TransferFor(max, a))
    case Emit(id) => id in me.jobs && me.jobs[id] != []
    case Fail(id) => id in me.jobs
    case BlockOn(id) => id in me.asking && id !in me.jobs
    case Wake(id) => id in me.blocked
    case Deliver => me.inbox != []
    case TimerStep => true
  }

  function Begun(max: pos, me: Peer, id: u64, t: Transfer): Peer
    requires |t.data| <= 0xffff_ffff_ffff_ffff
  {
    var frames := if t.single then [Single(id, t.blockerId, t.data)] else CodeFrames(max, id, t.data, t.blockerId);
    me.(sent := me.sent[id := t], jobs := me.jobs[id := frames], used := me.used + {id})
  }

  /** The acting process after its step. */
  function Acted(max: pos, me: Peer, a: Action): Peer
    requires Enabled(max, me, a)
  {
    match a
    case SendNormal(id, _) => Begun(max, me, id, TransferFor(max, a))
    case SendRequest(id, _, timeout) =>
      var me' := Begun(max, me, id, TransferFor(max, a));
      me'.(asking := me.asking[id := timeout])
    case SendResponse(id, _, _) => Begun(max, me, id, TransferFor(max, a))
    case Emit(id) =>
      var rest := me.jobs[id][1..];
      me.(jobs := if rest == [] then me.jobs - {id} else me.jobs[id := rest])
    case Fail(id) => me.(jobs := me.jobs - {id}, asking := me.asking - {id})
    case BlockOn(id) =>
      me.(ep := me.ep.(blockers := Block(me.ep.blockers, id, me.asking[id])),
          asking := me.asking - {id}, blocked := me.blocked + {id})
    case Wake(id) => me.(ep := Woken(me.ep, id), blocked := me.blocked - {id})
    case Deliver =>
      var p := me.inbox[0];
      me.(ep := Handle(me.ep, p), inbox := me.inbox[1..],
          done := me.done[p.multiblockId := Done(me, p.multiblockId) + 1])
    case TimerStep => me.(ep := me.ep.(blockers := Step(me.ep.blockers)))
  }

  /** The other process: only a frame put on the channel changes it. */
  function Affected(me: Peer, other: Peer, a: Action): Peer
    requires a.Emit? ==> a.id in me.jobs && me.jobs[a.id] != []
  {
    if a.Emit? then other.(inbox := other.inbox + [me.jobs[a.id][0]]) else other
  }

  // ---- what holds in every reachable state ----

  ghost predicate TransferInv(max: pos, snd: Peer, rcv: Peer, id: u64) {
    if id in snd.sent then
      var t := snd.sent[id];
      && t.Sound() && Done(rcv, id) <= |FramesOf(max, id, t)|
      && var fs, k := FramesOf(max, id, t), Done(rcv, id);
      && Only(rcv.inbox, id) + JobOf(snd, id) <= fs[k..]
      && At(ContentsOf(rcv.ep), id) == RunOne(None, fs[..k]).0
    else
      && Only(rcv.inbox, id) == [] && id !in snd.jobs && Done(rcv, id) == 0
      && At(ContentsOf(rcv.ep), id) == None
  }

  ghost predicate RequestInv(max: pos, snd: Peer, rcv: Peer, i: nat)
    requires i < |rcv.ep.requests|
  {
    var r := rcv.ep.requests[i];
    && r.buffer.Some? && r.buffer.value < rcv.ep.next
    && r.id in snd.sent && snd.sent[r.id].Sound() && snd.sent[r.id].blockerId == 0
    && Stored(rcv.ep.heap, r.buffer.value) == snd.sent[r.id].data
    && Done(rcv, r.id) == |FramesOf(max, r.id, snd.sent[r.id])|
  }

  /** What rcv handed to its request callback, with respect to what snd sent. */
  ghost predicate RequestsInv(max: pos, snd: Peer, rcv: Peer) {
    && (forall i :: 0 <= i < |rcv.ep.requests| ==> RequestInv(max, snd, rcv, i))
    && (forall i, j :: 0 <= i < j < |rcv.ep.requests| ==> rcv.ep.requests[i].id != rcv.ep.requests[j].id)
  }

  ghost predicate DirectionInv(max: pos, snd: Peer, rcv: Peer) {
    && (forall id :: TransferInv(max, snd, rcv, id))
    && RequestsInv(max, snd, rcv)
  }

  /** bytes passed to sendResponse for a blocker id. */
  datatype Answer = Answer(id: u64, bytes: seq<byte>)

  ghost predicate Answers(sent: map<u64, Transfer>, a: Answer) {
    exists x :: x in sent && sent[x].blockerId == a.id && sent[x].data == a.bytes
  }

  /** What the entries of the blocked callers hold are answers to them out of the given ones. */
  ghost predicate WaitingInv(e: Endpoint, answers: iset<Answer>) {
    forall id :: Holds(e, AtBlocker(id)).Some? ==>
      Answer(id, Stored(e.heap, Holds(e, AtBlocker(id)).value)) in answers
  }

  /** And so is what callers have returned with. */
  ghost predicate ReturnedInv(e: Endpoint, answers: iset<Answer>) {
    forall i :: 0 <= i < |e.returned| && e.returned[i].buffer.Some? ==>
      Answer(e.returned[i].id, Stored(e.heap, e.returned[i].buffer.value)) in answers
  }

  ghost predicate LocalInv(p: Peer) {
    && Owned(p.ep)
    && Ids(p.ep.blockers) <= p.used && p.asking.Keys <= p.sent.Keys <= p.used && p.blocked <= p.sent.Keys
    && Ids(p.ep.blockers) !! p.asking.Keys && 0 !in p.used
    && forall i :: 0 <= i < |p.ep.returned| ==> p.ep.returned[i].id in p.sent
  }

  /** A session and the one at the other end; answers are those its process may get on all its connections. */
  ghost predicate PairInv(max: pos, me: Peer, other: Peer, answers: iset<Answer>) {
    && LocalInv(me) && DirectionInv(max, me, other) && DirectionInv(max, other, me)
    && WaitingInv(me.ep, answers) && ReturnedInv(me.ep, answers)
    && forall a :: Answers(other.sent, a) ==> a in answers
  }

  /** What a step of a session does to the rest of its process. */
  ghost predicate Effect(me: Peer, me': Peer) {
    && Frozen(me.ep, me'.ep) && Kept(me.ep, me'.ep)
    && Ids(me'.ep.blockers) <= Ids(me.ep.blockers) + me.asking.Keys
    && me.used <= me'.used && me'.sent.Keys <= me.sent.Keys + (me'.used - me.used)
    && (forall id :: id in me.sent ==> id in me'.sent && me'.sent[id] == me.sent[id])
    && me.ep.requests <= me'.ep.requests
  }

  // ---- frames of one transfer ----

  lemma FramesCarryId(max: pos, id: u64, t: Transfer, i: nat)
    requires t.Sound() && i < |FramesOf(max, id, t)|
    ensures FramesOf(max, id, t)[i].multiblockId == id
  {
  }

  lemma FramesSent(max: pos, me: Peer, id: u64, t: Transfer)
    requires CanSend(max, me, id, t) && t.Sound()
    ensures Begun(max, me, id, t).jobs == me.jobs[id := FramesOf(max, id, t)]
  {
    if !t.single {
      CodeSendsIdeal(max, id, t.data, t.blockerId);
    }
  }

  /** Only the last frame of a transfer hands something over: the whole payload, under the transfer's ids. */
  lemma FrameDelivers(max: pos, id: u64, t: Transfer, k: nat)
    requires t.Sound() && k < |FramesOf(max, id, t)|
    ensures var fs := FramesOf(max, id, t);
            var held := RunOne(None, fs[..k]).0;
            && AbsorbOne(held, fs[k]).1 == (if k == |fs| - 1 then [Delivery(id, t.blockerId, Some(t.data))] else [])
            && RunOne(None, fs[..k + 1]).0 == AbsorbOne(held, fs[k]).0
            && (k == |fs| - 1 ==> !fs[k].Part? && fs[k].blockerId == t.blockerId)
  {
    var fs := FramesOf(max, id, t);
    RunOneSnoc(None, fs[..k], fs[k]);
    assert fs[..k + 1] == fs[..k] + [fs[k]];
    if t.single {
      RunOneNothing(None);
      assert fs[..0] == [];
    } else {
      MultiFrameDelivers(max, id, t, k);
    }
  }

  lemma MultiFrameDelivers(max: pos, id: u64, t: Transfer, k: nat)
    requires t.Sound() && !t.single && k <= PartCount(max, |t.data|)
    requires |FramesOf(max, id, t)| == PartCount(max, |t.data|) + 1
    ensures var fs := FramesOf(max, id, t);
            var held := RunOne(None, fs[..k]).0;
            && AbsorbOne(held, fs[k]).1 == (if k == |fs| - 1 then [Delivery(id, t.blockerId, Some(t.data))] else [])
            && (k == |fs| - 1 ==> fs[k] == Finish(id, t.blockerId))
  {
    hide FramesOf, Prefix, PartCount, RunOne, Slice;
    FrameAt(max, id, t, k);
    PrefixWhole(max, t.data);
    PartsAppended(max, id, t, None, k);
    assert [] + t.data == t.data;
  }

  // ---- steps, transfers ----

  lemma BegunTransfers(max: pos, me: Peer, other: Peer, id: u64, t: Transfer)
    requires CanSend(max, me, id, t) && t.Sound() && id !in me.sent
    requires forall x :: TransferInv(max, me, other, x)
    ensures forall x :: TransferInv(max, Begun(max, me, id, t), other, x)
  {
    FramesSent(max, me, id, t);
    hide FramesOf, Only, RunOne, ContentsOf, Begun;
    var me' := Begun(max, me, id, t);
    assert me'.sent == me.sent[id := t] by { BegunFields(max, me, id, t); }
    forall x ensures TransferInv(max, me', other, x) {
      assert TransferInv(max, me, other, x);
      if x == id {
        var fs := FramesOf(max, id, t);
        RunOneNothing(None);
        assert fs[..0] == [] && fs[0..] == fs && [] + fs == fs;
      }
    }
  }

  lemma BegunFields(max: pos, me: Peer, id: u64, t: Transfer)
    requires |t.data| <= 0xffff_ffff_ffff_ffff
    ensures var me' := Begun(max, me, id, t);
            me' == me.(sent := me.sent[id := t], jobs := me'.jobs, used := me.used + {id})
  {
  }

  lemma FailTransfers(max: pos, me: Peer, other: Peer, id: u64)
    requires forall x :: TransferInv(max, me, other, x)
    ensures forall x :: TransferInv(max, me.(jobs := me.jobs - {id}, asking := me.asking - {id}), other, x)
  {
    hide FramesOf, Only, RunOne, ContentsOf;
    var me' := me.(jobs := me.jobs - {id}, asking := me.asking - {id});
    forall x ensures TransferInv(max, me', other, x) {
      assert TransferInv(max, me, other, x);
      if x == id {
        assert Only(other.inbox, x) + [] == Only(other.inbox, x);
      }
    }
  }

  lemma OnlyOne(p: Packet, id: u64)
    ensures Only([p], id) == if p.multiblockId == id then [p] else []
  {
    assert [p][1..] == [];
  }

  lemma JobFrame(max: pos, me: Peer, other: Peer, id: u64)
    requires TransferInv(max, me, other, id) && JobOf(me, id) != []
    ensures id in me.sent && JobOf(me, id)[0].multiblockId == id
  {
    hide Only, RunOne, ContentsOf, FramesOf;
    var fs, k := FramesOf(max, id, me.sent[id]), Done(other, id);
    var rest := Only(other.inbox, id) + JobOf(me, id);
    var i := |Only(other.inbox, id)|;
    assert rest[i] == JobOf(me, id)[0] && rest[i] == fs[k..][i];
    FramesCarryId(max, id, me.sent[id], k + i);
  }

  lemma EmitTransfers(max: pos, me: Peer, other: Peer, id: u64)
    requires Enabled(max, me, Emit(id)) && forall x :: TransferInv(max, me, other, x)
    ensures forall x :: TransferInv(max, Acted(max, me, Emit(id)), Affected(me, other, Emit(id)), x)
  {
    hide FramesOf, RunOne, ContentsOf;
    var me', other' := Acted(max, me, Emit(id)), Affected(me, other, Emit(id));
    var p := me.jobs[id][0];
    JobFrame(max, me, other, id);
    forall x ensures TransferInv(max, me', other', x) {
      assert TransferInv(max, me, other, x);
      OnlyAppend(other.inbox, [p], x);
      OnlyOne(p, x);
      hide Only;
      if x == id {
        assert JobOf(me', id) == JobOf(me, id)[1..];
        assert Only(other.inbox, id) + JobOf(me, id) == Only(other.inbox, id) + [p] + JobOf(me, id)[1..];
      } else {
        assert JobOf(me', x) == JobOf(me, x);
        assert Only(other.inbox, x) + [] == Only(other.inbox, x);
      }
    }
  }

  /** The first packet of the channel is the next frame of its transfer. */
  lemma NextFrame(max: pos, snd: Peer, rcv: Peer)
    requires rcv.inbox != [] && TransferInv(max, snd, rcv, rcv.inbox[0].multiblockId)
    ensures var id := rcv.inbox[0].multiblockId;
            && id in snd.sent && Done(rcv, id) < |FramesOf(max, id, snd.sent[id])|
            && var fs, k := FramesOf(max, id, snd.sent[id]), Done(rcv, id);
            && rcv.inbox[0] == fs[k]
            && Only(rcv.inbox, id) == [fs[k]] + Only(rcv.inbox[1..], id)
            && Only(rcv.inbox[1..], id) + JobOf(snd, id) <= fs[k + 1..]
  {
    var p, id := rcv.inbox[0], rcv.inbox[0].multiblockId;
    assert Only(rcv.inbox, id) == [p] + Only(rcv.inbox[1..], id);
    hide FramesOf, RunOne, ContentsOf, Only, JobOf, Done;
    assert id in snd.sent;
    FirstOfRest(p, Only(rcv.inbox[1..], id), JobOf(snd, id), FramesOf(max, id, snd.sent[id]), Done(rcv, id));
  }

  lemma FirstOfRest(p: Packet, more: seq<Packet>, job: seq<Packet>, fs: seq<Packet>, k: nat)
    requires k <= |fs| && ([p] + more) + job <= fs[k..]
    ensures k < |fs| && p == fs[k] && more + job <= fs[k + 1..]
  {
    assert ([p] + more) + job == [p] + (more + job);
    PrefixTail(p, more + job, fs[k..]);
    assert fs[k..][1..] == fs[k + 1..];
  }

  lemma PrefixTail(p: Packet, tail: seq<Packet>, whole: seq<Packet>)
    requires [p] + tail <= whole
    ensures whole != [] && whole[0] == p && tail <= whole[1..]
  {
    assert ([p] + tail)[0] == p;
    assert forall i :: 0 <= i < |tail| ==> tail[i] == ([p] + tail)[i + 1];
  }

  lemma HandledContents(e: Endpoint, p: Packet, x: u64)
    requires Owned(e)
    ensures At(ContentsOf(Handle(e, p)), x)
         == if x == p.multiblockId then AbsorbOne(At(ContentsOf(e), x), p).0 else At(ContentsOf(e), x)
  {
    HandleRefines(e, p);
    hide ContentsOf, Handle, AbsorbOne, Owned;
  }

  lemma DeliverTransfer(max: pos, snd: Peer, rcv: Peer, x: u64)
    requires rcv.inbox != [] && Owned(rcv.ep)
    requires TransferInv(max, snd, rcv, x) && TransferInv(max, snd, rcv, rcv.inbox[0].multiblockId)
    ensures TransferInv(max, snd, Acted(max, rcv, Deliver), x)
  {
    hide FramesOf, RunOne, ContentsOf, Handle, AbsorbOne, Owned, Only;
    var p, id := rcv.inbox[0], rcv.inbox[0].multiblockId;
    NextFrame(max, snd, rcv);
    HandledContents(rcv.ep, p, x);
    if x == id {
      FrameDelivers(max, id, snd.sent[id], Done(rcv, id));
    } else {
      OnlySkips(rcv.inbox, x);
    }
  }

  lemma OnlySkips(ps: seq<Packet>, x: u64)
    requires ps != [] && ps[0].multiblockId != x
    ensures Only(ps, x) == Only(ps[1..], x)
  {
  }

  lemma DeliverTransfers(max: pos, snd: Peer, rcv: Peer)
    requires rcv.inbox != [] && Owned(rcv.ep) && forall x :: TransferInv(max, snd, rcv, x)
    ensures forall x :: TransferInv(max, snd, Acted(max, rcv, Deliver), x)
  {
    hide TransferInv, Owned, Acted;
    forall x ensures TransferInv(max, snd, Acted(max, rcv, Deliver), x) {
      DeliverTransfer(max, snd, rcv, x);
    }
  }

  // ---- steps, what is handed over ----

  lemma BegunRequests(max: pos, snd: Peer, rcv: Peer, id: u64, t: Transfer)
    requires CanSend(max, snd, id, t) && id !in snd.sent && RequestsInv(max, snd, rcv)
    ensures RequestsInv(max, Begun(max, snd, id, t), rcv)
  {
    BegunFields(max, snd, id, t);
    hide FramesOf, Begun;
    var snd' := Begun(max, snd, id, t);
    forall i | 0 <= i < |rcv.ep.requests| ensures RequestInv(max, snd', rcv, i) {
      assert RequestInv(max, snd, rcv, i);
    }
  }

  lemma OwnedElsewhere(e: Endpoint, at: Place)
    requires Owned(e) && !at.InMap? && Holds(e, at).Some?
    ensures Holds(e, at).value < e.next
    ensures forall id :: id in e.incoming ==> e.incoming[id] != Holds(e, at).value
  {
    forall id | id in e.incoming ensures e.incoming[id] != Holds(e, at).value {
      assert Holds(e, InMap(id)) == Some(e.incoming[id]);
    }
  }

  lemma FrozenThere(e: Endpoint, e': Endpoint, at: Place)
    requires Owned(e) && Frozen(e, e') && !at.InMap? && Holds(e, at).Some?
    ensures Stored(e'.heap, Holds(e, at).value) == Stored(e.heap, Holds(e, at).value)
  {
    OwnedElsewhere(e, at);
    hide Holds, Owned;
  }

  /** Handing over to a blocked caller: the entry of the blocker id, and no other, may hold the new buffer. */
  lemma ReleasedHolds(e: Endpoint, e': Endpoint, blockerId: u64, b: Option<nat>)
    requires Owned(e) && e'.blockers == Release(e.blockers, blockerId, b)
    ensures forall x :: x != blockerId ==> Holds(e', AtBlocker(x)) == Holds(e, AtBlocker(x))
    ensures Holds(e', AtBlocker(blockerId)) == b || Holds(e', AtBlocker(blockerId)) == None
  {
    hide Release, Result;
    forall x ensures x != blockerId ==> Holds(e', AtBlocker(x)) == Holds(e, AtBlocker(x)) {
      ReleasedResults(e.blockers, blockerId, b, x);
    }
    ReleasedResults(e.blockers, blockerId, b, blockerId);
  }

  /** What handling the first packet of the channel does besides assembling: nothing, unless it is the last
      frame of its transfer; then a buffer with exactly the transfer's bytes is handed over. */
  lemma DeliverEffect(max: pos, snd: Peer, rcv: Peer)
    requires rcv.inbox != [] && Owned(rcv.ep) && TransferInv(max, snd, rcv, rcv.inbox[0].multiblockId)
    ensures var e, e', id := rcv.ep, Handle(rcv.ep, rcv.inbox[0]), rcv.inbox[0].multiblockId;
            && Frozen(e, e') && e.next <= e'.next && e'.returned == e.returned
            && id in snd.sent && snd.sent[id].Sound()
            && var t, n := snd.sent[id], |FramesOf(max, id, snd.sent[id])|;
            if Done(rcv, id) + 1 < n then e'.blockers == e.blockers && e'.requests == e.requests
            else
              && Done(rcv, id) + 1 == n
              && var b := HandedBuffer(e, rcv.inbox[0]);
              && b.Some? && b.value < e'.next && Stored(e'.heap, b.value) == t.data
              && e'.blockers == (if t.blockerId != 0 then Release(e.blockers, t.blockerId, b) else e.blockers)
              && e'.requests == (if t.blockerId != 0 then e.requests else e.requests + [Handed(id, b)])
  {
    NextFrame(max, snd, rcv);
    var p, id := rcv.inbox[0], rcv.inbox[0].multiblockId;
    FrameDelivers(max, id, snd.sent[id], Done(rcv, id));
    HandleRefines(rcv.ep, p);
    HandedBufferAllocated(rcv.ep, p);
    AbsorbedAtId(ContentsOf(rcv.ep), p);
    hide FramesOf, RunOne, ContentsOf, Handle, AbsorbOne, Absorb, Owned, Only, Release, HandedBuffer;
  }

  lemma AbsorbedAtId(c: Contents, p: Packet)
    ensures Absorb(c, p).1 == AbsorbOne(At(c, p.multiblockId), p).1
  {
  }

  lemma HandedBufferAllocated(e: Endpoint, p: Packet)
    requires Owned(e)
    ensures HandedBuffer(e, p).Some? ==> HandedBuffer(e, p).value < Handle(e, p).next
  {
    InMapBounds(e);
  }

  /** A request that was handed over stays what it was, and is of another transfer than the frame now handled. */
  lemma RequestStays(max: pos, snd: Peer, rcv: Peer, i: nat)
    requires rcv.inbox != [] && Owned(rcv.ep) && TransferInv(max, snd, rcv, rcv.inbox[0].multiblockId)
    requires i < |rcv.ep.requests| && RequestInv(max, snd, rcv, i)
    ensures var rcv' := Acted(max, rcv, Deliver);
            i < |rcv'.ep.requests| && rcv'.ep.requests[i] == rcv.ep.requests[i] && RequestInv(max, snd, rcv', i)
    ensures rcv.ep.requests[i].id != rcv.inbox[0].multiblockId
  {
    hide Handle, Owned, FramesOf, TransferInv, Release, HandedBuffer, RunOne, ContentsOf, Only;
    NextFrame(max, snd, rcv);
    DeliverEffect(max, snd, rcv);
    assert Holds(rcv.ep, AtCallback(i)) == rcv.ep.requests[i].buffer;
    FrozenThere(rcv.ep, Acted(max, rcv, Deliver).ep, AtCallback(i));
  }

  lemma DeliverRequests(max: pos, snd: Peer, rcv: Peer)
    requires rcv.inbox != [] && Owned(rcv.ep) && RequestsInv(max, snd, rcv)
    requires TransferInv(max, snd, rcv, rcv.inbox[0].multiblockId)
    ensures RequestsInv(max, snd, Acted(max, rcv, Deliver))
    ensures rcv.ep.requests <= Acted(max, rcv, Deliver).ep.requests
  {
    hide Handle, Owned, FramesOf, TransferInv, Release, HandedBuffer, RunOne, ContentsOf, Only;
    DeliverEffect(max, snd, rcv);
    var rcv' := Acted(max, rcv, Deliver);
    var n := |rcv.ep.requests|;
    forall i | 0 <= i < n
      ensures i < |rcv'.ep.requests| && rcv'.ep.requests[i] == rcv.ep.requests[i] && RequestInv(max, snd, rcv', i)
      ensures rcv.ep.requests[i].id != rcv.inbox[0].multiblockId
    {
      RequestStays(max, snd, rcv, i);
    }
  }

  lemma DeliverAnswers(max: pos, snd: Peer, rcv: Peer, answers: iset<Answer>)
    requires rcv.inbox != [] && Owned(rcv.ep) && WaitingInv(rcv.ep, answers) && ReturnedInv(rcv.ep, answers)
    requires TransferInv(max, snd, rcv, rcv.inbox[0].multiblockId)
    requires forall a :: Answers(snd.sent, a) ==> a in answers
    ensures var e := Acted(max, rcv, Deliver).ep; WaitingInv(e, answers) && ReturnedInv(e, answers)
  {
    DeliverEffect(max, snd, rcv);
    var e, e', tid := rcv.ep, Acted(max, rcv, Deliver).ep, rcv.inbox[0].multiblockId;
    var b, blockerId := HandedBuffer(e, rcv.inbox[0]), snd.sent[tid].blockerId;
    if e'.blockers != e.blockers {
      ReleasedHolds(e, e', blockerId, b);
    }
    hide Handle, Owned, FramesOf, TransferInv, Release, HandedBuffer, Result, RequestInv;
    forall i | 0 <= i < |e.returned| && e.returned[i].buffer.Some?
      ensures Answer(e.returned[i].id, Stored(e'.heap, e.returned[i].buffer.value)) in answers
    {
      assert Holds(e, AtReturned(i)) == e.returned[i].buffer;
      FrozenThere(e, e', AtReturned(i));
    }
    forall id | Holds(e', AtBlocker(id)).Some?
      ensures Answer(id, Stored(e'.heap, Holds(e', AtBlocker(id)).value)) in answers
    {
      if Holds(e', AtBlocker(id)) == Holds(e, AtBlocker(id)) {
        FrozenThere(e, e', AtBlocker(id));
      } else {
        assert id == blockerId && Holds(e', AtBlocker(id)) == b;
        assert Answers(snd.sent, Answer(id, Stored(e'.heap, b.value))) by {
          assert snd.sent[tid].blockerId == id && snd.sent[tid].data == Stored(e'.heap, b.value);
        }
      }
    }
  }

  // ---- every step keeps the invariant ----

  /** An invariant of one direction looks at some fields only. */
  lemma SameDirection(max: pos, snd: Peer, rcv: Peer, snd': Peer, rcv': Peer)
    requires DirectionInv(max, snd, rcv)
    requires snd'.sent == snd.sent && snd'.jobs == snd.jobs
    requires rcv'.ep == rcv.ep && rcv'.inbox == rcv.inbox && rcv'.done == rcv.done
    ensures DirectionInv(max, snd', rcv')
  {
    forall id ensures TransferInv(max, snd', rcv', id) {
      assert TransferInv(max, snd, rcv, id);
    }
    SameRequests(max, snd, rcv, snd', rcv');
  }

  lemma SameRequests(max: pos, snd: Peer, rcv: Peer, snd': Peer, rcv': Peer)
    requires RequestsInv(max, snd, rcv) && snd'.sent == snd.sent && rcv'.done == rcv.done
    requires rcv'.ep.requests == rcv.ep.requests && rcv'.ep.next == rcv.ep.next && rcv'.ep.heap == rcv.ep.heap
    ensures RequestsInv(max, snd', rcv')
  {
    hide FramesOf;
    forall i | 0 <= i < |rcv.ep.requests| ensures RequestInv(max, snd', rcv', i) {
      assert RequestInv(max, snd, rcv, i);
    }
  }

  /** A step that leaves the buffers and the blocked callers alone. */
  lemma QuietEffect(me: Peer, me': Peer)
    requires me'.ep == me.ep && me.used <= me'.used && me'.sent.Keys <= me.sent.Keys + (me'.used - me.used)
    requires forall id :: id in me.sent ==> id in me'.sent && me'.sent[id] == me.sent[id]
    ensures Effect(me, me')
  {
    NothingMoved(me.ep);
    hide Kept, Ids;
  }

  lemma SendLocal(max: pos, me: Peer, a: Action)
    requires LocalInv(me) && Enabled(max, me, a) && (a.SendNormal? || a.SendRequest? || a.SendResponse?)
    ensures var me' := Acted(max, me, a);
            && LocalInv(me') && me'.ep == me.ep && me'.used == me.used + {a.id}
            && me'.sent == me.sent[a.id := TransferFor(max, a)]
  {
    BegunFields(max, me, a.id, TransferFor(max, a));
    hide Begun, Owned, Ids, TransferFor;
  }

  lemma SendKeeps(max: pos, me: Peer, other: Peer, a: Action, answers: iset<Answer>)
    requires PairInv(max, me, other, answers) && Enabled(max, me, a)
    requires a.SendNormal? || a.SendRequest? || a.SendResponse?
    ensures PairInv(max, Acted(max, me, a), other, answers) && Effect(me, Acted(max, me, a))
  {
    var t := TransferFor(max, a);
    var me1, me' := Begun(max, me, a.id, t), Acted(max, me, a);
    BegunFields(max, me, a.id, t);
    BegunTransfers(max, me, other, a.id, t);
    BegunRequests(max, me, other, a.id, t);
    SendLocal(max, me, a);
    hide Begun, TransferInv, RequestsInv, LocalInv, WaitingInv, ReturnedInv, Answers;
    SameDirection(max, me1, other, me', other);
    SameDirection(max, other, me, other, me');
    QuietEffect(me, me');
  }

  lemma EmitKeeps(max: pos, me: Peer, other: Peer, id: u64, answers: iset<Answer>)
    requires PairInv(max, me, other, answers) && Enabled(max, me, Emit(id))
    ensures PairInv(max, Acted(max, me, Emit(id)), Affected(me, other, Emit(id)), answers)
    ensures Effect(me, Acted(max, me, Emit(id)))
  {
    var me', other' := Acted(max, me, Emit(id)), Affected(me, other, Emit(id));
    EmitTransfers(max, me, other, id);
    hide TransferInv, RequestsInv, Owned, WaitingInv, ReturnedInv, Answers;
    SameRequests(max, me, other, me', other');
    SameDirection(max, other, me, other', me');
    QuietEffect(me, me');
  }

  lemma FailKeeps(max: pos, me: Peer, other: Peer, id: u64, answers: iset<Answer>)
    requires PairInv(max, me, other, answers) && Enabled(max, me, Fail(id))
    ensures PairInv(max, Acted(max, me, Fail(id)), other, answers) && Effect(me, Acted(max, me, Fail(id)))
  {
    var me' := Acted(max, me, Fail(id));
    FailTransfers(max, me, other, id);
    hide TransferInv, RequestsInv, Owned, WaitingInv, ReturnedInv, Answers;
    SameRequests(max, me, other, me', other);
    SameDirection(max, other, me, other, me');
    QuietEffect(me, me');
  }

  /** A step that changes only the list of blocked callers and the returned ones. */
  predicate ListStep(me: Peer, me': Peer) {
    && me'.sent == me.sent && me'.jobs == me.jobs && me'.inbox == me.inbox && me'.done == me.done
    && me'.used == me.used && me'.ep.heap == me.ep.heap && me'.ep.next == me.ep.next
    && me'.ep.requests == me.ep.requests && me'.ep.incoming == me.ep.incoming
  }

  /** The entries hold what they held, or nothing; a woken caller takes the content of its entry along. */
  ghost predicate ListMoves(e: Endpoint, e': Endpoint) {
    && (forall id :: Holds(e', AtBlocker(id)) == Holds(e, AtBlocker(id)) || Holds(e', AtBlocker(id)) == None)
    && (|| e'.returned == e.returned
        || exists id :: e'.returned == e.returned + [Handed(id, Holds(e, AtBlocker(id)))])
  }

  lemma ListAnswers(e: Endpoint, e': Endpoint, answers: iset<Answer>)
    requires WaitingInv(e, answers) && ReturnedInv(e, answers) && ListMoves(e, e') && e'.heap == e.heap
    ensures WaitingInv(e', answers) && ReturnedInv(e', answers)
  {
    hide Holds;
  }

  lemma ListTransfers(max: pos, snd: Peer, me: Peer, me': Peer)
    requires DirectionInv(max, snd, me) && ListStep(me, me')
    ensures DirectionInv(max, snd, me')
  {
    SameRequests(max, snd, me, snd, me');
    hide RequestsInv, FramesOf, Only, RunOne;
    assert ContentsOf(me'.ep) == ContentsOf(me.ep);
    hide ContentsOf;
    forall id ensures TransferInv(max, snd, me', id) {
      assert TransferInv(max, snd, me, id);
    }
  }

  lemma ListStepKeeps(max: pos, me: Peer, other: Peer, me': Peer, answers: iset<Answer>)
    requires PairInv(max, me, other, answers) && LocalInv(me') && ListStep(me, me') && ListMoves(me.ep, me'.ep)
    requires Ids(me'.ep.blockers) <= Ids(me.ep.blockers) + me.asking.Keys
    ensures PairInv(max, me', other, answers) && Effect(me, me')
  {
    ListAnswers(me.ep, me'.ep, answers);
    ListKept(me.ep, me'.ep);
    ListTransfers(max, other, me, me');
    SameDirection(max, me, other, me', other);
    hide DirectionInv, LocalInv, WaitingInv, ReturnedInv, Answers, Kept, Ids, ListMoves;
  }

  lemma BlockLocal(me: Peer, id: u64)
    requires LocalInv(me) && id in me.asking
    ensures var l := Block(me.ep.blockers, id, me.asking[id]);
            && LocalInv(me.(ep := me.ep.(blockers := l), asking := me.asking - {id}, blocked := me.blocked + {id}))
            && Ids(l) == Ids(me.ep.blockers) + {id}
  {
    assert id !in Ids(me.ep.blockers);
    BlockOwned(me.ep, id, me.asking[id]);
    AddIds(me.ep.blockers, Item(id, Blocked(me.asking[id], None)));
    hide Owned, Ids, AsMap, Result, Find;
  }

  lemma BlockedResults(l: BlockerList<nat>, id: u64, timeout: u64, x: u64)
    requires Distinct(l) && id !in Ids(l)
    ensures Result(Block(l, id, timeout), x) == Result(l, x)
  {
    AddIds(l, Item(id, Blocked(timeout, None)));
    AddRefines(l, Item(id, Blocked(timeout, None)));
    ResultIsData(l, x);
    ResultIsData(Block(l, id, timeout), x);
    hide Ids, AsMap, Result, Distinct;
  }

  lemma BlockKeeps(max: pos, me: Peer, other: Peer, id: u64, answers: iset<Answer>)
    requires PairInv(max, me, other, answers) && Enabled(max, me, BlockOn(id))
    ensures PairInv(max, Acted(max, me, BlockOn(id)), other, answers) && Effect(me, Acted(max, me, BlockOn(id)))
  {
    BlockLocal(me, id);
    var me' := Acted(max, me, BlockOn(id));
    assert Distinct(me.ep.blockers) && id !in Ids(me.ep.blockers);
    hide PairInv, LocalInv, Owned, Ids, AsMap, Result, Distinct, Block, Effect;
    forall x ensures Holds(me'.ep, AtBlocker(x)) == Holds(me.ep, AtBlocker(x)) {
      BlockedResults(me.ep.blockers, id, me.asking[id], x);
    }
    hide Holds;
    ListStepKeeps(max, me, other, me', answers);
  }

  lemma WakeLocal(me: Peer, id: u64)
    requires LocalInv(me) && id in me.blocked
    ensures LocalInv(me.(ep := Woken(me.ep, id), blocked := me.blocked - {id}))
    ensures Ids(Woken(me.ep, id).blockers) <= Ids(me.ep.blockers)
  {
    WokenOwned(me.ep, id);
    RemoveRefines(me.ep.blockers, id);
    hide Owned, Ids, Remove, AsMap, Result, Find;
  }

  lemma WakeKeeps(max: pos, me: Peer, other: Peer, id: u64, answers: iset<Answer>)
    requires PairInv(max, me, other, answers) && Enabled(max, me, Wake(id))
    ensures PairInv(max, Acted(max, me, Wake(id)), other, answers) && Effect(me, Acted(max, me, Wake(id)))
  {
    WakeLocal(me, id);
    var me' := Acted(max, me, Wake(id));
    assert Distinct(me.ep.blockers);
    hide PairInv, LocalInv, Owned, Ids, AsMap, Result, Remove, Distinct, Effect;
    forall x ensures Holds(me'.ep, AtBlocker(x)) == if x == id then None else Holds(me.ep, AtBlocker(x)) {
      RemovedResults(me.ep.blockers, id, x);
    }
    assert me'.ep.returned == me.ep.returned + [Handed(id, Holds(me.ep, AtBlocker(id)))];
    hide Woken, Holds;
    ListStepKeeps(max, me, other, me', answers);
  }

  lemma TimerLocal(me: Peer)
    requires LocalInv(me)
    ensures var l := Step(me.ep.blockers);
            LocalInv(me.(ep := me.ep.(blockers := l))) && Ids(l) <= Ids(me.ep.blockers)
  {
    StepOwned(me.ep);
    SteppedResults(me.ep.blockers, 0);
    hide Owned, Ids, Step, Result;
  }

  lemma TimerKeeps(max: pos, me: Peer, other: Peer, answers: iset<Answer>)
    requires PairInv(max, me, other, answers)
    ensures PairInv(max, Acted(max, me, TimerStep), other, answers) && Effect(me, Acted(max, me, TimerStep))
  {
    TimerLocal(me);
    var me' := Acted(max, me, TimerStep);
    assert Distinct(me.ep.blockers);
    hide PairInv, LocalInv, Owned, Ids, Result, Step, Distinct, Effect;
    forall x ensures Holds(me'.ep, AtBlocker(x)) == Holds(me.ep, AtBlocker(x)) || Holds(me'.ep, AtBlocker(x)) == None {
      SteppedResults(me.ep.blockers, x);
    }
    hide Holds;
    ListStepKeeps(max, me, other, me', answers);
  }

  lemma DeliverLists(max: pos, snd: Peer, me: Peer)
    requires Owned(me.ep) && me.inbox != [] && TransferInv(max, snd, me, me.inbox[0].multiblockId)
    ensures var e' := Handle(me.ep, me.inbox[0]);
            Frozen(me.ep, e') && Ids(e'.blockers) == Ids(me.ep.blockers) && e'.returned == me.ep.returned
  {
    assert Distinct(me.ep.blockers);
    hide *;
    DeliverEffect(max, snd, me);
    ReleaseRefines(me.ep.blockers, snd.sent[me.inbox[0].multiblockId].blockerId, HandedBuffer(me.ep, me.inbox[0]));
  }

  lemma DeliverLocal(max: pos, snd: Peer, me: Peer)
    requires LocalInv(me) && me.inbox != [] && TransferInv(max, snd, me, me.inbox[0].multiblockId)
    ensures LocalInv(Acted(max, me, Deliver)) && Frozen(me.ep, Acted(max, me, Deliver).ep)
    ensures Ids(Acted(max, me, Deliver).ep.blockers) == Ids(me.ep.blockers)
  {
    hide TransferInv, Owned, Handle, Ids, Frozen;
    HandleOwned(me.ep, me.inbox[0]);
    DeliverLists(max, snd, me);
  }

  lemma DeliverKeeps(max: pos, me: Peer, other: Peer, answers: iset<Answer>)
    requires PairInv(max, me, other, answers) && Enabled(max, me, Deliver)
    ensures PairInv(max, Acted(max, me, Deliver), other, answers) && Effect(me, Acted(max, me, Deliver))
  {
    var me' := Acted(max, me, Deliver);
    assert TransferInv(max, other, me, me.inbox[0].multiblockId);
    HandleKept(me.ep, me.inbox[0]);
    DeliverLocal(max, other, me);
    DeliverTransfers(max, other, me);
    DeliverRequests(max, other, me);
    DeliverAnswers(max, other, me, answers);
    hide TransferInv, RequestsInv, Owned, Handle, Ids, Frozen, Kept, WaitingInv, ReturnedInv, Answers;
    SameDirection(max, me, other, me', other);
  }

  /** Every step of a session keeps what holds between it, its peer and the callers of its process. */
  lemma ActorKeeps(max: pos, me: Peer, other: Peer, a: Action, answers: iset<Answer>)
    requires PairInv(max, me, other, answers) && Enabled(max, me, a)
    ensures PairInv(max, Acted(max, me, a), Affected(me, other, a), answers) && Effect(me, Acted(max, me, a))
  {
    hide PairInv, Acted, Effect;
    match a
    case SendNormal(_, _) => SendKeeps(max, me, other, a, answers);
    case SendRequest(_, _, _) => SendKeeps(max, me, other, a, answers);
    case SendResponse(_, _, _) => SendKeeps(max, me, other, a, answers);
    case Emit(id) => EmitKeeps(max, me, other, id, answers);
    case Fail(id) => FailKeeps(max, me, other, id, answers);
    case BlockOn(id) => BlockKeeps(max, me, other, id, answers);
    case Wake(id) => WakeKeeps(max, me, other, id, answers);
    case Deliver => DeliverKeeps(max, me, other, answers);
    case TimerStep => TimerKeeps(max, me, other, answers);
  }
}
