/** Which session's peer an answer comes from: any session of the process can bring one, because callers are
    released by id alone (src/handler/message_blocker_handler.cpp); the right one does if responses name only
    requests that their own session was given. */
module AnswerOrigin {
  import opened Bytes
  import opened Wire
  import opened SwapList
  import opened BlockedCallers
  import opened Fragmentation
  import opened Reassembly
  import opened DataProcessing
  import opened SharedBuffers
  import opened RequestSteps
  import opened RequestRuns
  import opened RequestSystem
  import opened RequestTraces

  // ---- answers can cross ----

  /** A caller on session 0, its peer on session 1, and session 2 of the caller's process with a peer on session 3
      in a third process. */
  const TRIANGLE := System([NEW_PROCESS, NEW_PROCESS, NEW_PROCESS], [NewEnd(0), NewEnd(1), NewEnd(0), NewEnd(2)])

  function After(max: pos, sys: System, m: Move): (sys': System)
    requires Shaped(sys) && CanMove(max, sys, m)
    ensures Shaped(sys')
  {
    StaysShaped(max, sys, m);
    Stepped(max, sys, m.end, m.action)
  }

  /** Nothing has happened yet between sessions 2 and 3, and session 1 has sent and heard nothing. */
  predicate OthersIdle(sys: System) {
    && Shaped(sys) && |sys.processes| == 3 && |sys.ends| == 4
    && sys.ends[0].process == 0 && sys.ends[1].process == 1
    && sys.processes[2] == NEW_PROCESS && sys.ends[2] == NewEnd(0) && sys.ends[3] == NewEnd(2)
    && sys.ends[1].sent == map[] && sys.ends[1].requests == []
  }

  lemma CrossAsked(max: pos, sys: System, id: u64, timeout: u64)
    requires sys == TRIANGLE && id != 0
    ensures CanMove(max, sys, Move(0, SendRequest(id, [], timeout)))
    ensures var asked := After(max, sys, Move(0, SendRequest(id, [], timeout)));
            && OthersIdle(asked) && asked.processes[0] == NEW_PROCESS.(used := {id})
            && asked.ends[0].jobs == map[id := [Single(id, 0, [])]] && asked.ends[0].asking == map[id := timeout]
            && asked.ends[0].blocked == {} && asked.ends[0].returned == []
  {
  }

  lemma CrossEmitted(max: pos, sys: System, id: u64, timeout: u64)
    requires OthersIdle(sys) && sys.processes[0] == NEW_PROCESS.(used := {id})
    requires sys.ends[0].jobs == map[id := [Single(id, 0, [])]] && sys.ends[0].asking == map[id := timeout]
    requires sys.ends[0].blocked == {} && sys.ends[0].returned == []
    ensures CanMove(max, sys, Move(0, Emit(id)))
    ensures var gone := After(max, sys, Move(0, Emit(id)));
            && OthersIdle(gone) && gone.processes[0] == NEW_PROCESS.(used := {id})
            && id !in gone.ends[0].jobs && gone.ends[0].asking == map[id := timeout]
            && gone.ends[0].blocked == {} && gone.ends[0].returned == []
  {
  }

  /** The caller waits, its process otherwise untouched. */
  predicate CallerWaits(sys: System, id: u64, timeout: u64) {
    && OthersIdle(sys) && sys.processes[0] == Process(0, map[], [Item(id, Blocked(timeout, None))], {id})
    && sys.ends[0].blocked == {id} && sys.ends[0].returned == []
  }

  lemma CrossBlocked(max: pos, sys: System, id: u64, timeout: u64)
    requires OthersIdle(sys) && sys.processes[0] == NEW_PROCESS.(used := {id})
    requires id !in sys.ends[0].jobs && sys.ends[0].asking == map[id := timeout]
    requires sys.ends[0].blocked == {} && sys.ends[0].returned == []
    ensures CanMove(max, sys, Move(0, BlockOn(id)))
    ensures CallerWaits(After(max, sys, Move(0, BlockOn(id))), id, timeout)
  {
    var l: BlockerList<nat> := [Item(id, Blocked(timeout, None))];
    assert [] + l == l;
  }

  /** The foreign answer is under way on the other connection, in its first stage or its second. */
  predicate ForeignAnswer(sys: System, id: u64, timeout: u64, x: u64, bytes: seq<byte>) {
    && Shaped(sys) && |sys.processes| == 3 && |sys.ends| == 4
    && sys.ends[0].process == 0 && sys.ends[1].process == 1 && sys.ends[2].process == 0 && sys.ends[3].process == 2
    && sys.processes[0] == Process(0, map[], [Item(id, Blocked(timeout, None))], {id})
    && sys.ends[0].blocked == {id} && sys.ends[0].returned == []
    && sys.ends[1].sent == map[] && sys.ends[1].requests == [] && sys.ends[3].requests == []
    && sys.ends[2].requests == [] && sys.ends[2].incoming == map[]
    && (|| (sys.ends[2].inbox == [] && sys.ends[3].jobs == map[x := [Single(x, id, bytes)]])
        || sys.ends[2].inbox == [Single(x, id, bytes)])
  }

  lemma CrossAnswered(max: pos, sys: System, id: u64, timeout: u64, x: u64, bytes: seq<byte>)
    requires CallerWaits(sys, id, timeout) && x != 0 && |bytes| < max && |bytes| <= 0xffff_ffff_ffff_ffff
    ensures CanMove(max, sys, Move(3, SendResponse(x, bytes, id)))
    ensures var sent := After(max, sys, Move(3, SendResponse(x, bytes, id)));
            ForeignAnswer(sent, id, timeout, x, bytes) && sent.ends[2].inbox == []
  {
  }

  lemma CrossSent(max: pos, sys: System, id: u64, timeout: u64, x: u64, bytes: seq<byte>)
    requires ForeignAnswer(sys, id, timeout, x, bytes) && sys.ends[2].inbox == []
    ensures CanMove(max, sys, Move(3, Emit(x)))
    ensures var gone := After(max, sys, Move(3, Emit(x)));
            ForeignAnswer(gone, id, timeout, x, bytes) && gone.ends[2].inbox == [Single(x, id, bytes)]
  {
    assert [] + [Single(x, id, bytes)] == [Single(x, id, bytes)];
  }

  lemma CrossHeard(max: pos, sys: System, id: u64, timeout: u64, x: u64, bytes: seq<byte>)
    requires ForeignAnswer(sys, id, timeout, x, bytes) && sys.ends[2].inbox == [Single(x, id, bytes)] && id != 0
    ensures CanMove(max, sys, Move(2, Deliver))
    ensures var heard := After(max, sys, Move(2, Deliver));
            && |heard.processes| == 3 && |heard.ends| == 4 && heard.ends[0] == sys.ends[0]
            && heard.processes[0] == Process(1, map[0 := bytes], [Item(id, Blocked(timeout, Some(0)))], {id})
            && heard.ends[1] == sys.ends[1] && heard.ends[3] == sys.ends[3]
  {
    var l: BlockerList<nat> := [Item(id, Blocked(timeout, None))];
    assert Find(l, id) == 0;
    assert l[0 := Item(id, Blocked(timeout, Some(0)))] == [Item(id, Blocked(timeout, Some(0)))];
  }

  lemma CrossWoken(max: pos, sys: System, id: u64, timeout: u64, bytes: seq<byte>)
    requires Shaped(sys) && |sys.processes| == 3 && |sys.ends| == 4 && sys.ends[0].process == 0
    requires sys.processes[0] == Process(1, map[0 := bytes], [Item(id, Blocked(timeout, Some(0)))], {id})
    requires sys.ends[0].blocked == {id} && sys.ends[0].returned == []
    ensures CanMove(max, sys, Move(0, Wake(id)))
    ensures var woken := After(max, sys, Move(0, Wake(id)));
            && |woken.processes| == 3 && |woken.ends| == 4 && woken.ends[0].returned == [Handed(id, Some(0))]
            && woken.processes[0].heap == map[0 := bytes]
            && woken.ends[1] == sys.ends[1] && woken.ends[3] == sys.ends[3]
  {
    assert Find(sys.processes[0].blockers, id) == 0;
    assert [] + [Handed(id, Some(0))] == [Handed(id, Some(0))];
  }

  /** Session 0 has returned with the foreign bytes; session 1 has heard and sent nothing. */
  predicate Crossed(sys: System, id: u64, bytes: seq<byte>) {
    && |sys.ends| == 4 && |sys.processes| == 3
    && sys.ends[0].returned == [Handed(id, Some(0))] && Stored(sys.processes[0].heap, 0) == bytes
    && sys.ends[1].sent == map[] && sys.ends[1].requests == [] && sys.ends[3].requests == []
  }

  lemma AfterRun(max: pos, t: Trace, m: Move) returns (t': Trace)
    requires IsRun(max, t) && Shaped(Final(t)) && CanMove(max, Final(t), m)
    ensures t' == Extended(t, m, After(max, Final(t), m))
    ensures IsRun(max, t') && Final(t') == After(max, Final(t), m) && Shaped(Final(t'))
  {
    hide CanMove, Stepped, Initial;
    t' := Extended(t, m, After(max, Final(t), m));
    ExtendedRun(max, t, m, After(max, Final(t), m));
  }

  lemma CrossesOnceWaiting(max: pos, t3: Trace, id: u64, timeout: u64, x: u64, bytes: seq<byte>) returns (t: Trace)
    requires IsRun(max, t3) && CallerWaits(Final(t3), id, timeout)
    requires id != 0 && x != 0 && |bytes| < max && |bytes| <= 0xffff_ffff_ffff_ffff
    ensures IsRun(max, t) && Crossed(Final(t), id, bytes)
    ensures t.states[0] == t3.states[0]
    ensures t.moves == t3.moves + [Move(3, SendResponse(x, bytes, id))] + [Move(3, Emit(x))] + [Move(2, Deliver)]
                     + [Move(0, Wake(id))]
  {
    assert t3.states != [];
    hide CanMove, After, IsRun, IsStep;
    CrossAnswered(max, Final(t3), id, timeout, x, bytes);
    var t4 := AfterRun(max, t3, Move(3, SendResponse(x, bytes, id)));
    CrossSent(max, Final(t4), id, timeout, x, bytes);
    var t5 := AfterRun(max, t4, Move(3, Emit(x)));
    CrossHeard(max, Final(t5), id, timeout, x, bytes);
    var t6 := AfterRun(max, t5, Move(2, Deliver));
    CrossWoken(max, Final(t6), id, timeout, bytes);
    t := AfterRun(max, t6, Move(0, Wake(id)));
  }

  /** Releasing looks at the id alone, so answers can cross: the peer of another session answers the id, and the
      caller returns with its bytes, although its own peer has not even heard the request. */
  lemma AnswerCrosses(max: pos, id: u64, timeout: u64, x: u64, bytes: seq<byte>) returns (t: Trace)
    requires id != 0 && x != 0 && |bytes| < max && |bytes| <= 0xffff_ffff_ffff_ffff
    ensures IsRun(max, t) && t.states[0] == TRIANGLE && Crossed(Final(t), id, bytes)
    ensures t.moves == [Move(0, SendRequest(id, [], timeout))] + [Move(0, Emit(id))] + [Move(0, BlockOn(id))]
                     + [Move(3, SendResponse(x, bytes, id))] + [Move(3, Emit(x))] + [Move(2, Deliver)]
                     + [Move(0, Wake(id))]
  {
    var t0 := Trace([TRIANGLE], []);
    assert IsRun(max, t0) && Shaped(TRIANGLE);
    hide CanMove, After, IsRun, IsStep, Crossed;
    CrossAsked(max, TRIANGLE, id, timeout);
    var t1 := AfterRun(max, t0, Move(0, SendRequest(id, [], timeout)));
    assert t1.moves == [Move(0, SendRequest(id, [], timeout))];
    CrossEmitted(max, Final(t1), id, timeout);
    var t2 := AfterRun(max, t1, Move(0, Emit(id)));
    CrossBlocked(max, Final(t2), id, timeout);
    var t3 := AfterRun(max, t2, Move(0, BlockOn(id)));
    t := CrossesOnceWaiting(max, t3, id, timeout, x, bytes);
  }

  // ---- whose answer it is ----

  /** The request callback of the session has been called with this id. */
  ghost predicate Heard(requests: seq<Handed>, id: u64) { exists i :: 0 <= i < |requests| && requests[i].id == id }

  /** sendResponse is called with an id that the request callback of the same session was given: what the
      application knows, and can check, before the call. */
  ghost predicate Proper(sys: System, m: Move)
    requires m.end < |sys.ends|
  {
    m.action.SendResponse? && m.action.blockerId != 0 ==> Heard(sys.ends[m.end].requests, m.action.blockerId)
  }

  ghost predicate AllProper(t: Trace)
    requires |t.states| == |t.moves| + 1
  {
    forall k {:trigger t.moves[k]} :: 0 <= k < |t.moves| && t.moves[k].end < |t.states[k].ends| ==>
      Proper(t.states[k], t.moves[k])
  }

  lemma ExtendedProper(t: Trace, m: Move, sys: System)
    requires |t.states| == |t.moves| + 1 && AllProper(t) && (m.end < |Final(t).ends| ==> Proper(Final(t), m))
    ensures AllProper(Extended(t, m, sys))
  {
    hide Proper;
    var t' := Extended(t, m, sys);
    forall k | 0 <= k < |t'.moves| && t'.moves[k].end < |t'.states[k].ends| ensures Proper(t'.states[k], t'.moves[k]) {
      if k < |t.moves| {
        assert t'.moves[k] == t.moves[k];
      }
    }
  }

  ghost predicate HeardFirst(requests: seq<Handed>, sent: map<u64, Transfer>) {
    forall x :: x in sent && sent[x].blockerId != 0 ==> Heard(requests, sent[x].blockerId)
  }

  ghost predicate AllHeardFirst(sys: System) {
    forall e :: 0 <= e < |sys.ends| ==> HeardFirst(sys.ends[e].requests, sys.ends[e].sent)
  }

  lemma HeardMore(requests: seq<Handed>, more: seq<Handed>, sent: map<u64, Transfer>)
    requires requests <= more && HeardFirst(requests, sent)
    ensures HeardFirst(more, sent)
  {
    forall x | x in sent && sent[x].blockerId != 0 ensures Heard(more, sent[x].blockerId) {
      var i :| 0 <= i < |requests| && requests[i].id == sent[x].blockerId;
      assert more[i] == requests[i];
    }
  }

  lemma HeardStep(max: pos, sys: System, m: Move)
    requires Inv(max, sys) && CanMove(max, sys, m) && Proper(sys, m) && AllHeardFirst(sys)
    ensures Shaped(Stepped(max, sys, m.end, m.action)) && AllHeardFirst(Stepped(max, sys, m.end, m.action))
  {
    var sys', me := Stepped(max, sys, m.end, m.action), PeerAt(sys, m.end);
    ActorAfter(max, sys, m.end, m.action);
    ActedSent(max, me, m.action);
    PeersAfter(max, sys, m.end, m.action, m.end);
    hide Inv, Stepped, Acted, Responses, PairInv, Frozen, Kept, Ids;
    forall e | 0 <= e < |sys.ends| ensures HeardFirst(sys'.ends[e].requests, sys'.ends[e].sent) {
      assert HeardFirst(sys.ends[e].requests, sys.ends[e].sent);
      if e == m.end {
        HeardMore(sys.ends[e].requests, sys'.ends[e].requests, sys.ends[e].sent);
        if m.action.SendResponse? && m.action.blockerId != 0 {
          var i :| 0 <= i < |sys.ends[e].requests| && sys.ends[e].requests[i].id == m.action.blockerId;
          assert sys'.ends[e].requests[i].id == m.action.blockerId;
        }
      } else {
        OtherPeer(max, sys, m.end, m.action, e);
      }
    }
  }

  lemma {:induction false} RunHeard(max: pos, t: Trace, k: nat)
    requires IsRun(max, t) && AllProper(t) && k < |t.states|
    ensures AllHeardFirst(t.states[k])
    decreases k
  {
    if k > 0 {
      RunHeard(max, t, k - 1);
      RunInv(max, t, k - 1);
      var m := t.moves[k - 1];
      hide Inv, Stepped, Enabled, AllHeardFirst, Initial, Proper;
      assert IsStep(max, t.states[k - 1], m, t.states[k]);
      assert Proper(t.states[k - 1], m);
      HeardStep(max, t.states[k - 1], m);
    }
  }

  /** What a session heard was sent by its peer, so no other session of the peer's process uses that id. */
  lemma HeardFromPeer(max: pos, sys: System, q: nat, id: u64, e: nat)
    requires Inv(max, sys) && q < |sys.ends| && Heard(sys.ends[q].requests, id)
    requires e < |sys.ends| && id in sys.ends[e].sent && sys.ends[e].process == sys.ends[Other(q)].process
    ensures Other(q) == e
  {
    Unfolded(max, sys, q);
    var i :| 0 <= i < |sys.ends[q].requests| && sys.ends[q].requests[i].id == id;
    assert RequestInv(max, PeerAt(sys, Other(q)), PeerAt(sys, q), i);
    if Other(q) != e {
      NeighbourFacts(max, sys, Other(q), e);
    }
  }

  lemma HeardAnswer(requests: seq<Handed>, sent: map<u64, Transfer>, a: Answer)
    requires HeardFirst(requests, sent) && Answers(sent, a) && a.id != 0
    ensures Heard(requests, a.id)
  {
    hide Heard;
  }

  lemma OwnPeerFrom(max: pos, sys: System, e: nat, a: Answer, d: nat)
    requires Inv(max, sys) && AllHeardFirst(sys) && e < |sys.ends| && a.id in sys.ends[e].sent
    requires d < |sys.ends| && sys.ends[d].process == sys.ends[e].process && Answers(sys.ends[Other(d)].sent, a)
    ensures d == e
  {
    var q := Other(d);
    assert Other(q) == d && q < |sys.ends|;
    assert HeardFirst(sys.ends[q].requests, sys.ends[q].sent);
    hide Inv, Answers, Heard, HeardFirst, AllHeardFirst, Other;
    IdsNotZero(max, sys, e, a.id);
    HeardAnswer(sys.ends[q].requests, sys.ends[q].sent, a);
    HeardFromPeer(max, sys, q, a.id, e);
  }

  lemma OwnPeerAnswered(max: pos, sys: System, e: nat, i: nat)
    requires Inv(max, sys) && AllHeardFirst(sys) && HasReturned(sys, e, i)
    ensures Answers(sys.ends[Other(e)].sent, ReturnedWith(sys, e, i))
  {
    ReturnedAnswered(max, sys, e, i);
    var a := ReturnedWith(sys, e, i);
    assert Shaped(sys);
    hide Inv, Answers, AllHeardFirst, Stored;
    var d :| 0 <= d < |sys.ends| && sys.ends[d].process == sys.ends[e].process && Answers(sys.ends[Other(d)].sent, a);
    OwnPeerFrom(max, sys, e, a, d);
  }

  /** Main result: if every sendResponse names a request its own session was given, every sendRequest returns with
      nothing or with exactly the bytes that the peer of its own connection passed to sendResponse for that id. */
  lemma {:induction false} AnswersFromOwnPeer(max: pos, t: Trace, e: nat, i: nat)
    requires IsRun(max, t) && AllProper(t) && HasReturned(Final(t), e, i)
    ensures Responded(t, Other(e), ReturnedWith(Final(t), e, i))
    ensures Answers(Final(t).ends[Other(e)].sent, ReturnedWith(Final(t), e, i))
  {
    assert |t.states| == |t.moves| + 1;
    hide Inv, IsRun, IsStep, AllHeardFirst, Initial, Proper, Answers, ReturnedWith, Responded;
    RunInv(max, t, |t.moves|);
    RunHeard(max, t, |t.moves|);
    OwnPeerAnswered(max, Final(t), e, i);
    ReturnedAnswered(max, Final(t), e, i);
    IdsNotZero(max, Final(t), e, ReturnedWith(Final(t), e, i).id);
    AnswerWasPassed(max, t, Other(e), ReturnedWith(Final(t), e, i));
  }

  lemma OwnPeer(max: pos, sys: System, e: nat, id: u64, q: nat)
    requires Inv(max, sys) && e < |sys.ends| && q < |sys.ends| && sys.ends[Other(q)].process == sys.ends[e].process
    requires id in sys.ends[e].sent && Heard(sys.ends[Other(e)].requests, id)
    ensures Heard(sys.ends[q].requests, id) <==> q == Other(e)
  {
    hide Inv, Heard;
    assert Other(Other(q)) == q;
    if Heard(sys.ends[q].requests, id) {
      HeardFromPeer(max, sys, q, id, e);
    }
  }

  /** The condition tells the sessions apart exactly: of all sessions that could answer a caller of session e, the
      one whose callback was given the request is the peer of e. */
  lemma {:induction false} OwnPeerExactly(max: pos, t: Trace, e: nat, id: u64, q: nat)
    requires IsRun(max, t) && Shaped(Final(t))
    requires var sys := Final(t);
             && e < |sys.ends| && q < |sys.ends| && sys.ends[Other(q)].process == sys.ends[e].process
             && id in sys.ends[e].sent && Heard(sys.ends[Other(e)].requests, id)
    ensures Heard(Final(t).ends[q].requests, id) <==> q == Other(e)
  {
    hide Inv, IsStep, Initial, Heard;
    RunInv(max, t, |t.moves|);
    OwnPeer(max, Final(t), e, id, q);
  }
}
