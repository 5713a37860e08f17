/** Requests and responses over whole runs: every session calls sendRequest, sendNormalMessage and sendResponse
    from any number of threads, at any time (src/session.cpp). */
module RequestRuns {
  import opened Bytes
  import opened SwapList
  import opened BlockedCallers
  import opened Fragmentation
  import opened Reassembly
  import opened DataProcessing
  import opened SharedBuffers
  import opened RequestSteps
  import opened RequestSystem
  import opened RequestTraces

  // ---- what it means ----

  /** The i-th sendRequest that came back on session e did so with bytes, and not because of a timeout or failure. */
  predicate HasReturned(sys: System, e: nat, i: nat) {
    Shaped(sys) && e < |sys.ends| && i < |sys.ends[e].returned| && sys.ends[e].returned[i].buffer.Some?
  }

  /** Its id, and its bytes as they are now. */
  function ReturnedWith(sys: System, e: nat, i: nat): Answer
    requires HasReturned(sys, e, i)
  {
    var r := sys.ends[e].returned[i];
    Answer(r.id, Stored(PeerAt(sys, e).ep.heap, r.buffer.value))
  }

  lemma ReturnedAnswered(max: pos, sys: System, e: nat, i: nat)
    requires Inv(max, sys) && HasReturned(sys, e, i)
    ensures var a := ReturnedWith(sys, e, i); a.id in sys.ends[e].sent && AnsweredIn(sys, sys.ends[e].process, a)
  {
    Unfolded(max, sys, e);
    hide Inv, DirectionInv, WaitingInv, Owned, AnsweredIn, Ids;
  }

  lemma RequestKnown(max: pos, sys: System, e: nat, i: nat, j: nat)
    requires Inv(max, sys) && e < |sys.ends| && i < |sys.ends[e].requests| && j < |sys.ends[e].requests|
    ensures var r, sent := sys.ends[e].requests[i], sys.ends[Other(e)].sent;
            && r.buffer.Some? && r.id in sent && sent[r.id].blockerId == 0
            && Stored(PeerAt(sys, e).ep.heap, r.buffer.value) == sent[r.id].data
            && (i != j ==> r.id != sys.ends[e].requests[j].id)
  {
    Unfolded(max, sys, e);
    hide Inv, LocalInv, WaitingInv, ReturnedInv, FramesOf;
    assert RequestInv(max, PeerAt(sys, Other(e)), PeerAt(sys, e), i);
  }

  /** Session q was called with sendResponse for the blocker id and with the bytes of this answer. */
  ghost predicate Responded(t: Trace, q: nat, a: Answer) {
    exists k :: 0 <= k < |t.moves| && t.moves[k].end == q && t.moves[k].action.SendResponse?
                && t.moves[k].action.blockerId == a.id && t.moves[k].action.data == a.bytes
  }

  lemma IdsNotZero(max: pos, sys: System, e: nat, id: u64)
    requires Inv(max, sys) && e < |sys.ends| && id in sys.ends[e].sent
    ensures id != 0
  {
    SessionFacts(max, sys, e);
    hide Inv, Owned, Ids, WaitingInv, ReturnedInv;
  }

  /** What is in the history of a session as an answer was passed to its sendResponse. */
  lemma AnswerWasPassed(max: pos, t: Trace, q: nat, a: Answer)
    requires IsRun(max, t) && q < |Final(t).ends| && Answers(Final(t).ends[q].sent, a) && a.id != 0
    ensures Responded(t, q, a)
  {
    var n, sent := |t.moves|, Final(t).ends[q].sent;
    var x :| x in sent && sent[x].blockerId == a.id && sent[x].data == a.bytes;
    assert Has(sent, x, a.bytes, a.id);
    hide IsRun, IsStep, Inv;
    SentIsPassed(max, t, n, q, x, a.bytes, a.id);
    var k :| 0 <= k < n && t.moves[k].end == q && Gives(t.moves[k].action, x, a.bytes, a.id);
    assert t.moves[k].action.SendResponse?;
  }

  /** Nothing is mixed or made up: in every run, every sendRequest returns with nothing or with exactly the bytes
      that the peer of some session of its process passed to sendResponse for that id; and at any later time the
      buffer still holds them. */
  lemma {:induction false} AnswersNeverMixed(max: pos, t: Trace, e: nat, i: nat)
    requires IsRun(max, t) && HasReturned(Final(t), e, i)
    ensures var sys, a := Final(t), ReturnedWith(Final(t), e, i);
            && Calling(t, |t.moves|, e, a.id)
            && (exists d :: 0 <= d < |sys.ends| && sys.ends[d].process == sys.ends[e].process
                            && Responded(t, Other(d), a))
            && AnsweredIn(sys, sys.ends[e].process, a)
  {
    var sys, a := Final(t), ReturnedWith(Final(t), e, i);
    assert |t.states| == |t.moves| + 1;
    hide Inv, IsRun, AnsweredIn, ReturnedWith, Calling, Responded;
    RunInv(max, t, |t.moves|);
    ReturnedAnswered(max, sys, e, i);
    IdsNotZero(max, sys, e, a.id);
    CallerCalled(max, t, e, i);
    AnswererCalled(max, t, e, a);
  }

  lemma AnswererCalled(max: pos, t: Trace, e: nat, a: Answer)
    requires IsRun(max, t) && Shaped(Final(t)) && e < |Final(t).ends| && a.id != 0
    requires AnsweredIn(Final(t), Final(t).ends[e].process, a)
    ensures var sys := Final(t);
            exists d :: 0 <= d < |sys.ends| && sys.ends[d].process == sys.ends[e].process && Responded(t, Other(d), a)
  {
    var sys := Final(t);
    hide Answers, Responded, IsRun;
    var d :| 0 <= d < |sys.ends| && sys.ends[d].process == sys.ends[e].process && Answers(sys.ends[Other(d)].sent, a);
    AnswerWasPassed(max, t, Other(d), a);
  }

  /** Who has returned from sendRequest did call it. */
  lemma CallerCalled(max: pos, t: Trace, e: nat, i: nat)
    requires IsRun(max, t) && Shaped(Final(t)) && e < |Final(t).ends| && i < |Final(t).ends[e].returned|
    ensures Calling(t, |t.moves|, e, Final(t).ends[e].returned[i].id)
  {
    hide IsStep, Initial, Calling, Asked, Refused;
    CallersAsked(max, t, |t.moves|, e);
    assert PeerAt(Final(t), e).ep.returned == Final(t).ends[e].returned;
  }

  /** A caller blocks with the timeout it passed to sendRequest, and nobody else's entry changes. */
  lemma {:induction false} CallerBlocks(max: pos, t: Trace, e: nat, id: u64)
    requires IsRun(max, t) && Shaped(Final(t)) && CanMove(max, Final(t), Move(e, BlockOn(id)))
    ensures e < |Final(t).ends| && id in Final(t).ends[e].asking
    ensures var sys, timeout := Final(t), Final(t).ends[e].asking[id];
            && Asked(t, |t.moves|, e, id, timeout)
            && var p, sys' := sys.ends[e].process, Stepped(max, sys, e, BlockOn(id));
            && p < |sys'.processes| && Distinct(sys'.processes[p].blockers)
            && AsMap(sys'.processes[p].blockers) == AsMap(sys.processes[p].blockers)[id := Blocked(timeout, None)]
  {
    var sys := Final(t);
    hide IsStep, Initial, Calling, Asked, Refused, AsMap, Inv, Distinct;
    RunInv(max, t, |t.moves|);
    CallersAsked(max, t, |t.moves|, e);
    var me := PeerAt(sys, e);
    NotYetBlocked(max, sys, e, id);
    AddRefines(me.ep.blockers, Item(id, Blocked(me.asking[id], None)));
  }

  lemma NotYetBlocked(max: pos, sys: System, e: nat, id: u64)
    requires Inv(max, sys) && e < |sys.ends| && id in PeerAt(sys, e).asking
    ensures id !in Ids(PeerAt(sys, e).ep.blockers) && Distinct(PeerAt(sys, e).ep.blockers)
  {
    SessionFacts(max, sys, e);
    hide Inv, PeerAt, Ids, WaitingInv, ReturnedInv;
  }

  /** The answer does get through, on whichever connection it comes: when the last frame of a response is handled
      by session e while a caller on session c of the same process still waits under its blocker id, that caller
      returns with exactly the bytes that the peer of e passed to sendResponse for that id. */
  lemma {:induction false} AnswerReturned(max: pos, t: Trace, e: nat, c: nat)
    requires IsRun(max, t) && Shaped(Final(t))
    requires var sys := Final(t);
             && e < |sys.ends| && c < |sys.ends| && sys.ends[c].process == sys.ends[e].process
             && sys.ends[e].inbox != [] && !sys.ends[e].inbox[0].Part? && sys.ends[e].inbox[0].blockerId != 0
             && sys.ends[e].inbox[0].blockerId in sys.ends[c].blocked
             && sys.ends[e].inbox[0].blockerId in Ids(sys.processes[sys.ends[e].process].blockers)
    ensures var sys := Final(t);
            var p, heard := sys.ends[e].inbox[0], Stepped(max, sys, e, Deliver);
            && Shaped(heard) && CanMove(max, heard, Move(c, Wake(p.blockerId)))
            && var woken, n := Stepped(max, heard, c, Wake(p.blockerId)), |sys.ends[c].returned|;
            && HasReturned(woken, c, n) && |woken.ends[c].returned| == n + 1
            && ReturnedWith(woken, c, n).id == p.blockerId && Responded(t, Other(e), ReturnedWith(woken, c, n))
  {
    var sys := Final(t);
    var p := sys.ends[e].inbox[0];
    assert |t.states| == |t.moves| + 1;
    hide IsRun, Inv, Responded, Ids;
    RunInv(max, t, |t.moves|);
    AnswerComesBack(max, sys, e, c);
    hide Stepped, CanMove;
    var woken := Stepped(max, Stepped(max, sys, e, Deliver), c, Wake(p.blockerId));
    AnswerWasPassed(max, t, Other(e), ReturnedWith(woken, c, |sys.ends[c].returned|));
  }

  lemma AnswerComesBack(max: pos, sys: System, e: nat, c: nat)
    requires Inv(max, sys) && e < |sys.ends| && c < |sys.ends| && sys.ends[c].process == sys.ends[e].process
    requires sys.ends[e].inbox != [] && !sys.ends[e].inbox[0].Part? && sys.ends[e].inbox[0].blockerId != 0
    requires sys.ends[e].inbox[0].blockerId in sys.ends[c].blocked
    requires sys.ends[e].inbox[0].blockerId in Ids(sys.processes[sys.ends[e].process].blockers)
    ensures var p, heard := sys.ends[e].inbox[0], Stepped(max, sys, e, Deliver);
            && Shaped(heard) && CanMove(max, heard, Move(c, Wake(p.blockerId)))
            && var woken, n := Stepped(max, heard, c, Wake(p.blockerId)), |sys.ends[c].returned|;
            && HasReturned(woken, c, n) && |woken.ends[c].returned| == n + 1
            && ReturnedWith(woken, c, n).id == p.blockerId
            && Answers(sys.ends[Other(e)].sent, ReturnedWith(woken, c, n))
  {
    var me, p := PeerAt(sys, e), sys.ends[e].inbox[0];
    PairAt(max, sys, e);
    AnswerReleased(max, me, PeerAt(sys, Other(e)), Responses(sys, sys.ends[e].process));
    hide Inv, PairInv, Handle, Result, Ids, Stored, Remove;
    var heard := Stepped(max, sys, e, Deliver);
    PeersAfter(max, sys, e, Deliver, c);
    PeersAfter(max, heard, c, Wake(p.blockerId), c);
  }

  lemma AnswerReleased(max: pos, me: Peer, other: Peer, answers: iset<Answer>)
    requires PairInv(max, me, other, answers) && me.inbox != [] && !me.inbox[0].Part?
    requires me.inbox[0].blockerId != 0 && me.inbox[0].blockerId in Ids(me.ep.blockers)
    ensures var p, e := me.inbox[0], Handle(me.ep, me.inbox[0]);
            && e.returned == me.ep.returned && Result(e.blockers, p.blockerId).Some?
            && p.multiblockId in other.sent && other.sent[p.multiblockId].blockerId == p.blockerId
            && Stored(e.heap, Result(e.blockers, p.blockerId).value) == other.sent[p.multiblockId].data
  {
    var p := me.inbox[0];
    assert TransferInv(max, other, me, p.multiblockId) && Owned(me.ep) && Distinct(me.ep.blockers);
    hide *;
    LastFrame(max, other, me);
    DeliverEffect(max, other, me);
    ReleaseRefines(me.ep.blockers, p.blockerId, HandedBuffer(me.ep, p));
  }

  /** A finish, or a single block, is the last frame of its transfer and carries the transfer's blocker id. */
  lemma LastFrame(max: pos, snd: Peer, rcv: Peer)
    requires rcv.inbox != [] && !rcv.inbox[0].Part? && TransferInv(max, snd, rcv, rcv.inbox[0].multiblockId)
    ensures var p, id := rcv.inbox[0], rcv.inbox[0].multiblockId;
            && id in snd.sent && snd.sent[id].Sound() && p.blockerId == snd.sent[id].blockerId
            && Done(rcv, id) + 1 == |FramesOf(max, id, snd.sent[id])|
  {
    NextFrame(max, snd, rcv);
    var id := rcv.inbox[0].multiblockId;
    var t, k := snd.sent[id], Done(rcv, id);
    if !t.single {
      hide FramesOf, Only, RunOne, ContentsOf, Done;
      FrameAt(max, id, t, PartCount(max, |t.data|));
      FrameAt(max, id, t, k);
    }
  }

  /** Every payload that reaches the request callback of a session is what its peer was called with under that id,
      in a request, in a normal message, or in a response for nobody; and it does so at most once per id. */
  lemma {:induction false} RequestsDelivered(max: pos, t: Trace, e: nat, i: nat, j: nat)
    requires IsRun(max, t) && Shaped(Final(t))
    requires var sys := Final(t); e < |sys.ends| && i < |sys.ends[e].requests| && j < |sys.ends[e].requests|
    ensures var sys := Final(t);
            var r := sys.ends[e].requests[i];
            && r.buffer.Some?
            && Passed(t, |t.moves|, Other(e), r.id, Stored(PeerAt(sys, e).ep.heap, r.buffer.value), 0)
            && (i != j ==> r.id != sys.ends[e].requests[j].id)
  {
    var sys := Final(t);
    var r := sys.ends[e].requests[i];
    hide Inv, Initial, Shaped, PeerAt, Stored, IsStep, Passed;
    RunInv(max, t, |t.moves|);
    RequestKnown(max, sys, e, i, j);
    SentIsPassed(max, t, |t.moves|, Other(e), r.id, Stored(PeerAt(sys, e).ep.heap, r.buffer.value), 0);
  }

  /** At every moment every received buffer is in at most one place of its process: one incoming map of one
      session, one blocked caller's entry, one callback, one returned request. */
  lemma {:induction false} OneOwner(max: pos, t: Trace, d: nat, at: Place, e: nat, at': Place)
    requires IsRun(max, t) && Shaped(Final(t))
    requires var sys := Final(t);
             && d < |sys.ends| && e < |sys.ends| && sys.ends[d].process == sys.ends[e].process
             && (at != at' || (d != e && !at.AtBlocker?))
             && Holds(PeerAt(sys, d).ep, at).Some?
    ensures Holds(PeerAt(Final(t), d).ep, at) != Holds(PeerAt(Final(t), e).ep, at')
  {
    hide Inv, Initial, PeerAt, Holds, IsStep;
    RunInv(max, t, |t.moves|);
    OwnedOnce(max, Final(t), d, at, e, at');
  }

  lemma OwnedOnce(max: pos, sys: System, d: nat, at: Place, e: nat, at': Place)
    requires Inv(max, sys) && d < |sys.ends| && e < |sys.ends| && sys.ends[d].process == sys.ends[e].process
    requires at != at' || (d != e && !at.AtBlocker?)
    requires Holds(PeerAt(sys, d).ep, at).Some?
    ensures Holds(PeerAt(sys, d).ep, at) != Holds(PeerAt(sys, e).ep, at')
  {
    SessionFacts(max, sys, d);
    SessionFacts(max, sys, e);
    var p, q := PeerAt(sys, d).ep, PeerAt(sys, e).ep;
    if d != e {
      NeighbourFacts(max, sys, d, e);
    }
    hide Inv, PeerAt, WaitingInv, ReturnedInv, Ids, Result;
    if at.AtBlocker? {
      assert Holds(p, at) == Holds(q, at);
      OwnedAt(q, at, at');
    } else if d == e || at'.AtBlocker? {
      assert at'.AtBlocker? ==> Holds(p, at') == Holds(q, at');
      OwnedAt(p, at, at');
    }
  }

  /** The states of a run are all of the same shape. */
  lemma RunShaped(max: pos, t: Trace)
    requires IsRun(max, t)
    ensures Shaped(Final(t))
  {
    hide Inv, Initial, Shaped, IsStep;
    RunInv(max, t, |t.moves|);
    IsShaped(max, Final(t));
  }
}
