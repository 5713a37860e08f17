/** Whole runs of the request system, and what their calls were: every payload under way, and every caller that
    waits or has returned, goes back to one call with exactly its arguments (src/session.cpp). */
module RequestTraces {
  import opened Bytes
  import opened SwapList
  import opened BlockedCallers
  import opened Fragmentation
  import opened Reassembly
  import opened DataProcessing
  import opened RequestSteps
  import opened RequestSystem

  // ---- whole runs ----

  /** One step: which session acts, and how. */
  datatype Move = Move(end: nat, action: Action)

  predicate CanMove(max: pos, sys: System, m: Move)
    requires Shaped(sys)
  {
    m.end < |sys.ends| && Enabled(max, PeerAt(sys, m.end), m.action)
  }

  lemma StaysShaped(max: pos, sys: System, m: Move)
    requires Shaped(sys) && CanMove(max, sys, m)
    ensures Shaped(Stepped(max, sys, m.end, m.action))
  {
    PeersAfter(max, sys, m.end, m.action, m.end);
  }

  const NEW_PROCESS := Process(0, map[], [], {})

  function NewEnd(process: nat): End { End(process, map[], [], [], [], map[], map[], map[], map[], {}) }

  /** Any processes, with any connections, on which nothing has happened yet. */
  ghost predicate Initial(sys: System) {
    && Shaped(sys)
    && (forall k :: 0 <= k < |sys.processes| ==> sys.processes[k] == NEW_PROCESS)
    && (forall e :: 0 <= e < |sys.ends| ==> sys.ends[e] == NewEnd(sys.ends[e].process))
  }

  lemma NewPeer(max: pos, p: Peer, snd: Peer, answers: iset<Answer>)
    requires p == PeerOf(NEW_PROCESS, NewEnd(0)) && snd == p
    ensures LocalInv(p) && DirectionInv(max, snd, p) && WaitingInv(p.ep, answers) && ReturnedInv(p.ep, answers)
    ensures NothingCommon(p, snd)
  {
    hide FramesOf, RunOne;
    assert ContentsOf(p.ep) == map[];
    assert forall id :: Result<nat>([], id) == None;
  }

  lemma InitialInv(max: pos, sys: System)
    requires Initial(sys)
    ensures Inv(max, sys)
  {
    var idle := PeerOf(NEW_PROCESS, NewEnd(0));
    forall e | 0 <= e < |sys.ends| ensures PeerAt(sys, e) == idle {
    }
    hide PeerAt, LocalInv, DirectionInv, WaitingInv, ReturnedInv, NothingCommon, Responses;
    forall e | 0 <= e < |sys.ends| ensures SessionInv(max, sys, e) {
      NewPeer(max, idle, idle, Responses(sys, sys.ends[e].process));
    }
    NewPeer(max, idle, idle, iset{});
  }

  ghost predicate IsStep(max: pos, sys: System, m: Move, sys': System) {
    Shaped(sys) && CanMove(max, sys, m) && sys' == Stepped(max, sys, m.end, m.action)
  }

  /** The states a run goes through, and the moves between them. */
  datatype Trace = Trace(states: seq<System>, moves: seq<Move>)

  ghost predicate IsRun(max: pos, t: Trace) {
    && |t.states| == |t.moves| + 1 && Initial(t.states[0])
    && forall k {:trigger t.moves[k]} :: 0 <= k < |t.moves| ==> IsStep(max, t.states[k], t.moves[k], t.states[k + 1])
  }

  function Final(t: Trace): System
    requires t.states != []
  {
    t.states[|t.states| - 1]
  }

  function Extended(t: Trace, m: Move, sys: System): Trace { Trace(t.states + [sys], t.moves + [m]) }

  lemma ExtendedRun(max: pos, t: Trace, m: Move, sys: System)
    requires IsRun(max, t) && IsStep(max, Final(t), m, sys)
    ensures IsRun(max, Extended(t, m, sys)) && Final(Extended(t, m, sys)) == sys
  {
    hide IsStep, Initial;
    var t' := Extended(t, m, sys);
    forall k | 0 <= k < |t'.moves| ensures IsStep(max, t'.states[k], t'.moves[k], t'.states[k + 1]) {
      if k < |t.moves| {
        assert t'.moves[k] == t.moves[k];
      }
    }
  }

  /** The invariant holds in every state of every run. */
  lemma {:induction false} RunInv(max: pos, t: Trace, k: nat)
    requires IsRun(max, t) && k < |t.states|
    ensures Inv(max, t.states[k])
    decreases k
  {
    if k == 0 {
      InitialInv(max, t.states[0]);
    } else {
      RunInv(max, t, k - 1);
      var m := t.moves[k - 1];
      hide Inv, CanMove, Stepped, Initial;
      assert IsStep(max, t.states[k - 1], m, t.states[k]);
      MoveKeepsInv(max, t.states[k - 1], m, t.states[k]);
    }
  }

  lemma MoveKeepsInv(max: pos, sys: System, m: Move, sys': System)
    requires Inv(max, sys) && IsStep(max, sys, m, sys')
    ensures Inv(max, sys')
  {
    hide Inv, Stepped, Enabled;
    StepKeepsInv(max, sys, m.end, m.action);
  }

  lemma RunStep(max: pos, t: Trace, k: nat)
    requires IsRun(max, t) && 0 < k < |t.states|
    ensures IsStep(max, t.states[k - 1], t.moves[k - 1], t.states[k]) && Inv(max, t.states[k - 1])
  {
    RunInv(max, t, k - 1);
    hide Inv, Initial, IsStep;
    var m := t.moves[k - 1];
  }

  lemma Unfolded(max: pos, sys: System, e: nat)
    requires Inv(max, sys) && e < |sys.ends|
    ensures SessionInv(max, sys, e)
  {
  }

  lemma UsedFacts(max: pos, sys: System, e: nat)
    requires Inv(max, sys) && e < |sys.ends|
    ensures PeerAt(sys, e).sent.Keys <= PeerAt(sys, e).used && 0 !in PeerAt(sys, e).used
  {
    SessionFacts(max, sys, e);
    hide Inv, WaitingInv, ReturnedInv, Ids;
  }

  // ---- payloads go back to calls ----

  predicate IsSend(a: Action) { a.SendNormal? || a.SendRequest? || a.SendResponse? }

  /** The call passes this payload, to be sent under id, as the response for blockerId, or for none if that is 0. */
  predicate Gives(a: Action, id: u64, data: seq<byte>, blockerId: u64) {
    match a
    case SendNormal(x, bytes) => x == id && bytes == data && blockerId == 0
    case SendRequest(x, bytes, _) => x == id && bytes == data && blockerId == 0
    case SendResponse(x, bytes, b) => x == id && bytes == data && b == blockerId
    case _ => false
  }

  /** One of the first n calls of a run gave this payload to session e. */
  ghost predicate Passed(t: Trace, n: nat, e: nat, id: u64, data: seq<byte>, blockerId: u64)
    requires n <= |t.moves|
  {
    exists k :: 0 <= k < n && t.moves[k].end == e && Gives(t.moves[k].action, id, data, blockerId)
  }

  predicate Has(sent: map<u64, Transfer>, id: u64, data: seq<byte>, blockerId: u64) {
    id in sent && sent[id].data == data && sent[id].blockerId == blockerId
  }

  lemma ActedSent(max: pos, me: Peer, a: Action)
    requires Enabled(max, me, a)
    ensures IsSend(a) ==> a.id !in me.used
    ensures var sent := Acted(max, me, a).sent;
            if !IsSend(a) then sent == me.sent
            else
              && sent.Keys == me.sent.Keys + {a.id} && Gives(a, a.id, sent[a.id].data, sent[a.id].blockerId)
              && forall x :: x in me.sent && x != a.id ==> sent[x] == me.sent[x]
  {
    if IsSend(a) {
      BegunFields(max, me, a.id, TransferFor(max, a));
    }
    hide Begun, Handle, Woken, BlockedCallers.Step, Block;
  }

  lemma PassedNext(t: Trace, n: nat, e: nat, id: u64, data: seq<byte>, blockerId: u64)
    requires n < |t.moves|
    ensures Passed(t, n + 1, e, id, data, blockerId)
       <==> Passed(t, n, e, id, data, blockerId)
            || (t.moves[n].end == e && Gives(t.moves[n].action, id, data, blockerId))
  {
    hide Gives;
  }

  /** A step adds to what a session has sent the payload of its call, and nothing else. */
  lemma StepSent(max: pos, sys: System, m: Move, e: nat, id: u64, data: seq<byte>, blockerId: u64)
    requires Inv(max, sys) && CanMove(max, sys, m) && e < |sys.ends|
    ensures e < |Stepped(max, sys, m.end, m.action).ends|
    ensures Has(Stepped(max, sys, m.end, m.action).ends[e].sent, id, data, blockerId)
       <==> Has(sys.ends[e].sent, id, data, blockerId) || (m.end == e && Gives(m.action, id, data, blockerId))
  {
    var sys', me := Stepped(max, sys, m.end, m.action), PeerAt(sys, m.end);
    UsedFacts(max, sys, m.end);
    ActedSent(max, me, m.action);
    PeersAfter(max, sys, m.end, m.action, e);
    SentAt(sys, e);
    SentAt(sys', e);
    hide Inv, Stepped, Acted, PeerAt, Enabled, Ids;
  }

  /** What a session has sent so far are exactly the payloads passed to its calls, under their ids and for the
      blocker ids they were passed with. */
  lemma {:induction false} SentIsPassed(max: pos, t: Trace, n: nat, e: nat, id: u64, data: seq<byte>, blockerId: u64)
    requires IsRun(max, t) && n <= |t.moves| && e < |t.states[n].ends|
    ensures Has(t.states[n].ends[e].sent, id, data, blockerId) <==> Passed(t, n, e, id, data, blockerId)
    decreases n
  {
    hide Inv, IsStep, Gives, Passed, CanMove, Stepped;
    if n == 0 {
      NothingPassed(t, e, id, data, blockerId);
      assert Initial(t.states[0]);
    } else {
      RunStep(max, t, n);
      OneStep(max, t.states[n - 1], t.moves[n - 1], t.states[n]);
      SentIsPassed(max, t, n - 1, e, id, data, blockerId);
      StepSent(max, t.states[n - 1], t.moves[n - 1], e, id, data, blockerId);
      PassedNext(t, n - 1, e, id, data, blockerId);
    }
  }

  lemma NothingPassed(t: Trace, e: nat, id: u64, data: seq<byte>, blockerId: u64)
    ensures !Passed(t, 0, e, id, data, blockerId)
  {
  }

  lemma OneStep(max: pos, sys: System, m: Move, sys': System)
    requires IsStep(max, sys, m, sys')
    ensures Shaped(sys) && CanMove(max, sys, m) && sys' == Stepped(max, sys, m.end, m.action)
    ensures |sys'.ends| == |sys.ends|
  {
    PeersAfter(max, sys, m.end, m.action, m.end);
    hide Stepped;
  }

  // ---- callers go back to calls ----

  /** Session e called sendRequest with this id and timeout within the first n steps. */
  ghost predicate Asked(t: Trace, n: nat, e: nat, id: u64, timeout: u64)
    requires n <= |t.moves|
  {
    exists k :: 0 <= k < n && t.moves[k].end == e && t.moves[k].action.SendRequest?
                && t.moves[k].action.id == id && t.moves[k].action.timeout == timeout
  }

  /** The socket refused a frame of the payload that session e sends under this id. */
  ghost predicate Refused(t: Trace, n: nat, e: nat, id: u64)
    requires n <= |t.moves|
  {
    exists k :: 0 <= k < n && t.moves[k] == Move(e, Fail(id))
  }

  /** Somebody called sendRequest under this id, and no frame of the request was refused. */
  ghost predicate Calling(t: Trace, n: nat, e: nat, id: u64)
    requires n <= |t.moves|
  {
    !Refused(t, n, e, id) && exists timeout :: Asked(t, n, e, id, timeout)
  }

  /** Whoever is about to block, waits or has returned on session e did call, and its request is out. */
  ghost predicate CallersKnown(t: Trace, n: nat, e: nat, p: Peer)
    requires n <= |t.moves|
  {
    && (forall id :: Refused(t, n, e, id) ==> id in p.sent)
    && (forall id :: id in p.asking ==> Asked(t, n, e, id, p.asking[id]) && !Refused(t, n, e, id))
    && (forall id :: id in p.blocked ==> Calling(t, n, e, id) && id !in p.jobs)
    && (forall i :: 0 <= i < |p.ep.returned| ==>
          Calling(t, n, e, p.ep.returned[i].id) && p.ep.returned[i].id !in p.jobs)
  }

  lemma AskedNext(t: Trace, n: nat, e: nat, id: u64, timeout: u64)
    requires n < |t.moves|
    ensures Asked(t, n, e, id, timeout) ==> Asked(t, n + 1, e, id, timeout)
    ensures t.moves[n].end == e && t.moves[n].action.SendRequest? ==>
              Asked(t, n + 1, e, t.moves[n].action.id, t.moves[n].action.timeout)
  {
  }

  lemma RefusedNext(t: Trace, n: nat, e: nat, id: u64)
    requires n < |t.moves|
    ensures Refused(t, n + 1, e, id) <==> Refused(t, n, e, id) || t.moves[n] == Move(e, Fail(id))
  {
  }

  lemma CallingNext(t: Trace, n: nat, e: nat, id: u64)
    requires n < |t.moves| && Calling(t, n, e, id) && t.moves[n] != Move(e, Fail(id))
    ensures Calling(t, n + 1, e, id)
  {
    hide Asked, Refused;
    var timeout :| Asked(t, n, e, id, timeout);
    AskedNext(t, n, e, id, timeout);
    RefusedNext(t, n, e, id);
  }

  /** A move of another session, or one that leaves the callers alone. */
  lemma CallersSame(t: Trace, n: nat, e: nat, p: Peer, p': Peer)
    requires n < |t.moves| && CallersKnown(t, n, e, p) && (t.moves[n].end != e || !t.moves[n].action.Fail?)
    requires p.sent.Keys <= p'.sent.Keys && p'.blocked == p.blocked && p'.ep.returned == p.ep.returned
    requires forall id :: id in p'.asking ==>
               (id in p.asking && p'.asking[id] == p.asking[id])
               || (Asked(t, n + 1, e, id, p'.asking[id]) && id !in p.sent)
    requires forall id :: id in p'.jobs ==> id in p.jobs || id !in p.sent
    requires p.blocked <= p.sent.Keys && forall i :: 0 <= i < |p.ep.returned| ==> p.ep.returned[i].id in p.sent
    ensures CallersKnown(t, n + 1, e, p')
  {
    hide Asked, Refused, Calling;
    forall id ensures Refused(t, n + 1, e, id) <==> Refused(t, n, e, id) {
      RefusedNext(t, n, e, id);
    }
    forall id | id in p'.asking ensures Asked(t, n + 1, e, id, p'.asking[id]) && !Refused(t, n + 1, e, id) {
      AskedNext(t, n, e, id, p'.asking[id]);
    }
    forall id | id in p'.blocked ensures Calling(t, n + 1, e, id) && id !in p'.jobs {
      CallingNext(t, n, e, id);
    }
    forall i | 0 <= i < |p'.ep.returned|
      ensures Calling(t, n + 1, e, p'.ep.returned[i].id) && p'.ep.returned[i].id !in p'.jobs
    {
      CallingNext(t, n, e, p.ep.returned[i].id);
    }
  }

  lemma FailCallers(t: Trace, n: nat, e: nat, p: Peer, id: u64)
    requires n < |t.moves| && CallersKnown(t, n, e, p) && t.moves[n] == Move(e, Fail(id))
    requires id in p.jobs && id in p.sent
    ensures CallersKnown(t, n + 1, e, p.(jobs := p.jobs - {id}, asking := p.asking - {id}))
  {
    hide Asked, Refused, Calling;
    var p' := p.(jobs := p.jobs - {id}, asking := p.asking - {id});
    forall x ensures Refused(t, n + 1, e, x) <==> Refused(t, n, e, x) || x == id {
      RefusedNext(t, n, e, x);
    }
    forall x | x in p'.asking ensures Asked(t, n + 1, e, x, p'.asking[x]) {
      AskedNext(t, n, e, x, p'.asking[x]);
    }
    forall x | x in p'.blocked ensures Calling(t, n + 1, e, x) {
      CallingNext(t, n, e, x);
    }
    forall i | 0 <= i < |p'.ep.returned| ensures Calling(t, n + 1, e, p'.ep.returned[i].id) {
      CallingNext(t, n, e, p.ep.returned[i].id);
    }
  }

  /** A caller blocks, or wakes up. */
  lemma CallerMoves(t: Trace, n: nat, e: nat, p: Peer, id: u64, p': Peer)
    requires n < |t.moves| && CallersKnown(t, n, e, p) && !t.moves[n].action.Fail?
    requires p'.sent == p.sent && p'.jobs == p.jobs
    requires if t.moves[n] == Move(e, BlockOn(id)) then
               && id in p.asking && id !in p.jobs && p'.asking == p.asking - {id}
               && p'.blocked == p.blocked + {id} && p'.ep.returned == p.ep.returned
             else
               && id in p.blocked && p'.blocked == p.blocked - {id} && p'.asking == p.asking
               && |p'.ep.returned| == |p.ep.returned| + 1 && p'.ep.returned[|p.ep.returned|].id == id
               && p.ep.returned <= p'.ep.returned
    ensures CallersKnown(t, n + 1, e, p')
  {
    hide Asked, Refused;
    forall x ensures Refused(t, n + 1, e, x) <==> Refused(t, n, e, x) {
      RefusedNext(t, n, e, x);
    }
    forall x | x in p'.asking ensures Asked(t, n + 1, e, x, p'.asking[x]) {
      AskedNext(t, n, e, x, p'.asking[x]);
    }
    assert id in p.asking ==> Calling(t, n, e, id);
    hide Calling;
    forall x | x in p'.blocked ensures Calling(t, n + 1, e, x) {
      CallingNext(t, n, e, x);
    }
    forall i | 0 <= i < |p'.ep.returned|
      ensures Calling(t, n + 1, e, p'.ep.returned[i].id) && p'.ep.returned[i].id !in p'.jobs
    {
      if i < |p.ep.returned| {
        assert p'.ep.returned[i] == p.ep.returned[i];
      }
      CallingNext(t, n, e, p'.ep.returned[i].id);
    }
  }

  lemma ActedCallers(max: pos, me: Peer, a: Action)
    requires Enabled(max, me, a) && !a.Fail? && !a.BlockOn? && !a.Wake?
    ensures var me' := Acted(max, me, a);
            && me'.blocked == me.blocked && me'.ep.returned == me.ep.returned
            && me'.asking == (if a.SendRequest? then me.asking[a.id := a.timeout] else me.asking)
            && me'.jobs.Keys <= me.jobs.Keys + if IsSend(a) then {a.id} else {}
  {
    hide FramesOf, CodeFrames, Release, BlockedCallers.Step;
  }

  lemma CallersStep(max: pos, t: Trace, n: nat, e: nat, me: Peer)
    requires n < |t.moves| && t.moves[n].end == e && Enabled(max, me, t.moves[n].action)
    requires CallersKnown(t, n, e, me) && me.jobs.Keys <= me.sent.Keys <= me.used && me.blocked <= me.sent.Keys
    requires forall i :: 0 <= i < |me.ep.returned| ==> me.ep.returned[i].id in me.sent
    ensures CallersKnown(t, n + 1, e, Acted(max, me, t.moves[n].action))
  {
    hide Asked, Refused, Calling, CallersKnown, Handle, Remove, Block, Result, Begun;
    var a := t.moves[n].action;
    var me' := Acted(max, me, a);
    ActedSent(max, me, a);
    if a.Fail? {
      FailCallers(t, n, e, me, a.id);
    } else if a.BlockOn? || a.Wake? {
      CallerMoves(t, n, e, me, a.id, me');
    } else {
      ActedCallers(max, me, a);
      AskedNext(t, n, e, 0, 0);
      hide Acted;
      CallersSame(t, n, e, me, me');
    }
  }

  lemma JobsSent(max: pos, sys: System, e: nat)
    requires Inv(max, sys) && e < |sys.ends|
    ensures var p := PeerAt(sys, e);
            && p.jobs.Keys <= p.sent.Keys <= p.used && p.blocked <= p.sent.Keys
            && forall i :: 0 <= i < |p.ep.returned| ==> p.ep.returned[i].id in p.sent
  {
    PairAt(max, sys, e);
    var p, q := PeerAt(sys, e), PeerAt(sys, Other(e));
    hide Inv, PeerAt, WaitingInv, ReturnedInv, Owned, Ids, RequestsInv, FramesOf, Only, RunOne;
    forall id | id in p.jobs ensures id in p.sent {
      assert TransferInv(max, p, q, id);
    }
  }

  /** In every run: whoever waits or has returned called sendRequest under its id, and no frame of its request
      was refused; and who is about to block does so with the timeout of its call. */
  lemma {:induction false} CallersAsked(max: pos, t: Trace, n: nat, e: nat)
    requires IsRun(max, t) && n <= |t.moves| && Shaped(t.states[n]) && e < |t.states[n].ends|
    ensures CallersKnown(t, n, e, PeerAt(t.states[n], e))
    decreases n
  {
    hide Inv, IsStep, CanMove, CallersKnown, PeerAt, Stepped, Acted, Enabled;
    if n == 0 {
      assert Initial(t.states[0]);
      NoCallers(t, e);
    } else {
      RunStep(max, t, n);
      var sys, m := t.states[n - 1], t.moves[n - 1];
      OneStep(max, sys, m, t.states[n]);
      CallersAsked(max, t, n - 1, e);
      CallersAfter(max, t, n - 1, e);
    }
  }

  lemma NoCallers(t: Trace, e: nat)
    requires |t.states| == |t.moves| + 1 && Initial(t.states[0]) && e < |t.states[0].ends|
    ensures CallersKnown(t, 0, e, PeerAt(t.states[0], e))
  {
  }

  lemma CallersAfter(max: pos, t: Trace, n: nat, e: nat)
    requires n < |t.moves| && |t.states| == |t.moves| + 1
    requires Inv(max, t.states[n]) && CanMove(max, t.states[n], t.moves[n])
    requires t.states[n + 1] == Stepped(max, t.states[n], t.moves[n].end, t.moves[n].action)
    requires e < |t.states[n].ends| && CallersKnown(t, n, e, PeerAt(t.states[n], e))
    ensures Shaped(t.states[n + 1]) && e < |t.states[n + 1].ends|
    ensures CallersKnown(t, n + 1, e, PeerAt(t.states[n + 1], e))
  {
    var sys, m := t.states[n], t.moves[n];
    PeersAfter(max, sys, m.end, m.action, e);
    JobsSent(max, sys, e);
    hide Inv, CallersKnown, PeerAt, Stepped, Acted, Enabled;
    if m.end == e {
      CallersStep(max, t, n, e, PeerAt(sys, e));
    } else {
      OtherPeer(max, sys, m.end, m.action, e);
      CallersSame(t, n, e, PeerAt(sys, e), PeerAt(t.states[n + 1], e));
    }
  }
}
