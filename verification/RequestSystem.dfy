/** Any number of processes with any number of connections between them, and what each step of a session keeps.
    Sessions of one process share its buffers and its list of blocked callers (src/session.cpp,
    src/handler/message_blocker_handler.cpp, src/multiblock_io.cpp). */
module RequestSystem {
  import opened Bytes
  import opened Wire
  import opened SwapList
  import opened BlockedCallers
  import opened Fragmentation
  import opened Reassembly
  import opened DataProcessing
  import opened SharedBuffers
  import opened RequestSteps

  /** What the sessions of a process share; used is history. */
  datatype Process = Process(next: nat, heap: map<nat, seq<byte>>, blockers: BlockerList<nat>, used: set<u64>)

  /** What a session has for itself. */
  datatype End = End(process: nat, incoming: map<u64, nat>, requests: seq<Handed>, returned: seq<Handed>,
                     inbox: seq<Packet>, done: map<u64, nat>, sent: map<u64, Transfer>,
                     jobs: map<u64, seq<Packet>>, asking: map<u64, u64>, blocked: set<u64>)

  /** Ends 2 * i and 2 * i + 1 are the two sessions of connection i. */
  datatype System = System(processes: seq<Process>, ends: seq<End>)

  function Other(e: nat): (q: nat)
    ensures q != e && q / 2 == e / 2
  {
    if e % 2 == 0 then e + 1 else e - 1
  }

  predicate Shaped(sys: System) {
    && |sys.ends| % 2 == 0
    && forall e :: 0 <= e < |sys.ends| ==> sys.ends[e].process < |sys.processes|
  }

  function PeerOf(p: Process, e: End): Peer {
    Peer(Endpoint(p.next, p.heap, e.incoming, p.blockers, e.requests, e.returned),
         p.used, e.inbox, e.done, e.sent, e.jobs, e.asking, e.blocked)
  }

  function ProcessOf(me: Peer): Process { Process(me.ep.next, me.ep.heap, me.ep.blockers, me.used) }

  function EndOf(process: nat, me: Peer): End {
    End(process, me.ep.incoming, me.ep.requests, me.ep.returned,
        me.inbox, me.done, me.sent, me.jobs, me.asking, me.blocked)
  }

  /** Session e as it sees itself and its process. */
  function PeerAt(sys: System, e: nat): Peer
    requires Shaped(sys) && e < |sys.ends|
  {
    PeerOf(sys.processes[sys.ends[e].process], sys.ends[e])
  }

  /** One step of session e; a frame it emits goes to the session at the other end. */
  function Stepped(max: pos, sys: System, e: nat, a: Action): System
    requires Shaped(sys) && e < |sys.ends| && Enabled(max, PeerAt(sys, e), a)
  {
    var me, q, process := PeerAt(sys, e), Other(e), sys.ends[e].process;
    var me' := Acted(max, me, a);
    var ends := sys.ends[e := EndOf(process, me')];
    System(sys.processes[process := ProcessOf(me')],
           if a.Emit? then ends[q := ends[q].(inbox := ends[q].inbox + [me.jobs[a.id][0]])] else ends)
  }

  /** Another session after a step of a session of its process. */
  function SharedPeer(p: Peer, me: Peer): Peer { p.(ep := Sharing(p.ep, me.ep), used := me.used) }

  lemma PeersAfter(max: pos, sys: System, e: nat, a: Action, d: nat)
    requires Shaped(sys) && e < |sys.ends| && d < |sys.ends| && Enabled(max, PeerAt(sys, e), a)
    ensures var sys', me := Stepped(max, sys, e, a), PeerAt(sys, e);
            && Shaped(sys') && |sys'.ends| == |sys.ends| && |sys'.processes| == |sys.processes|
            && sys'.ends[d].process == sys.ends[d].process
            && var p := if d == Other(e) then Affected(me, PeerAt(sys, d), a) else PeerAt(sys, d);
            PeerAt(sys', d) == if d == e then Acted(max, me, a)
                               else if sys.ends[d].process == sys.ends[e].process
                               then SharedPeer(p, Acted(max, me, a)) else p
  {
    hide Acted, Enabled;
  }

  // ---- what holds in every reachable state ----

  /** Some session of the process has a peer that passed this answer to sendResponse. */
  ghost predicate AnsweredIn(sys: System, process: nat, a: Answer)
    requires Shaped(sys)
  {
    exists d :: 0 <= d < |sys.ends| && sys.ends[d].process == process && Answers(sys.ends[Other(d)].sent, a)
  }

  ghost function Responses(sys: System, process: nat): iset<Answer>
    requires Shaped(sys)
  {
    iset a | AnsweredIn(sys, process, a)
  }

  ghost predicate SessionInv(max: pos, sys: System, e: nat)
    requires Shaped(sys) && e < |sys.ends|
  {
    var p := PeerAt(sys, e);
    && LocalInv(p) && DirectionInv(max, PeerAt(sys, Other(e)), p)
    && WaitingInv(p.ep, Responses(sys, sys.ends[e].process))
    && ReturnedInv(p.ep, Responses(sys, sys.ends[e].process))
  }

  /** Two sessions of one process keep their buffers and their ids apart. */
  ghost predicate NothingCommon(p: Peer, q: Peer) {
    Apart(p.ep, q.ep) && p.sent.Keys !! q.sent.Keys
  }

  /** Different sessions of the same process. */
  predicate Neighbours(sys: System, d: nat, e: nat)
    requires d < |sys.ends| && e < |sys.ends|
  {
    d != e && sys.ends[d].process == sys.ends[e].process
  }

  ghost predicate Inv(max: pos, sys: System) {
    && Shaped(sys)
    && (forall e :: 0 <= e < |sys.ends| ==> SessionInv(max, sys, e))
    && (forall d, e :: 0 <= d < |sys.ends| && 0 <= e < |sys.ends| && Neighbours(sys, d, e) ==>
          NothingCommon(PeerAt(sys, d), PeerAt(sys, e)))
  }

  lemma PairAt(max: pos, sys: System, e: nat)
    requires Inv(max, sys) && e < |sys.ends|
    ensures PairInv(max, PeerAt(sys, e), PeerAt(sys, Other(e)), Responses(sys, sys.ends[e].process))
  {
    var q := Other(e);
    assert Other(q) == e;
    assert SessionInv(max, sys, e) && SessionInv(max, sys, q);
    hide DirectionInv, LocalInv, WaitingInv, ReturnedInv, Answers;
  }

  // ---- a step, seen from the other sessions ----

  /** Another session of the same process, after a step of me. */
  lemma BystanderKeeps(max: pos, snd: Peer, p: Peer, snd': Peer, me: Peer, me': Peer, answers: iset<Answer>)
    requires LocalInv(me) && LocalInv(me') && Effect(me, me') && WaitingInv(me'.ep, answers)
    requires LocalInv(p) && DirectionInv(max, snd, p) && ReturnedInv(p.ep, answers)
    requires SameProcess(me.ep, p.ep) && me.used == p.used && NothingCommon(me, p)
    requires snd'.sent == snd.sent && snd'.jobs == snd.jobs
    ensures var p' := SharedPeer(p, me');
            && LocalInv(p') && DirectionInv(max, snd', p')
            && WaitingInv(p'.ep, answers) && ReturnedInv(p'.ep, answers) && NothingCommon(me', p')
  {
    BystanderOwned(me.ep, me'.ep, p.ep);
    BystanderAnswers(p, me, me', answers);
    BystanderDirection(max, snd, p, snd', me, me');
    hide Owned, Kept, Frozen, Apart, DirectionInv, ReturnedInv, WaitingInv, Ids;
  }

  lemma BystanderAnswers(p: Peer, me: Peer, me': Peer, answers: iset<Answer>)
    requires Owned(p.ep) && SameProcess(me.ep, p.ep) && Apart(me.ep, p.ep) && Frozen(me.ep, me'.ep)
    requires WaitingInv(me'.ep, answers) && ReturnedInv(p.ep, answers)
    ensures WaitingInv(SharedPeer(p, me').ep, answers) && ReturnedInv(SharedPeer(p, me').ep, answers)
  {
    var q := SharedPeer(p, me').ep;
    hide Owned, Apart, Frozen, Result, Stored;
    forall i | 0 <= i < |q.returned| && q.returned[i].buffer.Some?
      ensures Answer(q.returned[i].id, Stored(q.heap, q.returned[i].buffer.value)) in answers
    {
      assert Holds(p.ep, AtReturned(i)) == q.returned[i].buffer;
      BystanderFrozen(me.ep, me'.ep, p.ep, AtReturned(i));
    }
  }

  lemma BystanderContents(e: Endpoint, e': Endpoint, q: Endpoint)
    requires Owned(q) && SameProcess(e, q) && Apart(e, q) && Frozen(e, e')
    ensures ContentsOf(Sharing(q, e')) == ContentsOf(q)
  {
    forall id | id in q.incoming ensures Stored(e'.heap, q.incoming[id]) == Stored(q.heap, q.incoming[id]) {
      assert Holds(q, InMap(id)) == Some(q.incoming[id]);
      BystanderFrozen(e, e', q, InMap(id));
    }
    hide Owned, Apart, Frozen, Stored, Holds;
  }

  lemma BystanderDirection(max: pos, snd: Peer, p: Peer, snd': Peer, me: Peer, me': Peer)
    requires Owned(p.ep) && SameProcess(me.ep, p.ep) && Apart(me.ep, p.ep)
    requires Frozen(me.ep, me'.ep) && Kept(me.ep, me'.ep)
    requires DirectionInv(max, snd, p) && snd'.sent == snd.sent && snd'.jobs == snd.jobs
    ensures DirectionInv(max, snd', SharedPeer(p, me'))
  {
    var p' := SharedPeer(p, me');
    KeptGrows(me.ep, me'.ep);
    BystanderContents(me.ep, me'.ep, p.ep);
    hide Owned, Apart, Frozen, Kept, ContentsOf, FramesOf, RunOne, Only, Stored;
    forall id ensures TransferInv(max, snd', p', id) {
      assert TransferInv(max, snd, p, id);
    }
    hide TransferInv;
    forall i | 0 <= i < |p'.ep.requests| ensures RequestInv(max, snd', p', i) {
      assert RequestInv(max, snd, p, i);
      assert Holds(p.ep, AtCallback(i)) == p.ep.requests[i].buffer;
      BystanderFrozen(me.ep, me'.ep, p.ep, AtCallback(i));
    }
  }

  /** Two other sessions, whatever their process now shares. */
  lemma OthersSeparate(p: Peer, q: Peer, p': Peer, q': Peer)
    requires NothingCommon(p, q) && p'.sent == p.sent && q'.sent == q.sent
    requires p'.ep.incoming == p.ep.incoming && p'.ep.requests == p.ep.requests && p'.ep.returned == p.ep.returned
    requires q'.ep.incoming == q.ep.incoming && q'.ep.requests == q.ep.requests && q'.ep.returned == q.ep.returned
    ensures NothingCommon(p', q')
  {
    hide Result;
    forall at: Place, at': Place | !at.AtBlocker? && !at'.AtBlocker? && Holds(p'.ep, at).Some?
      ensures Holds(p'.ep, at) != Holds(q'.ep, at')
    {
      assert Holds(p'.ep, at) == Holds(p.ep, at) && Holds(q'.ep, at') == Holds(q.ep, at');
    }
  }

  lemma MoreAnswers(e: Endpoint, answers: iset<Answer>, more: iset<Answer>)
    requires answers <= more
    ensures WaitingInv(e, answers) ==> WaitingInv(e, more)
    ensures ReturnedInv(e, answers) ==> ReturnedInv(e, more)
  {
    hide Holds, Stored;
  }

  lemma ResponsesGrow(sys: System, sys': System, process: nat)
    requires Shaped(sys) && Shaped(sys') && |sys'.ends| == |sys.ends|
    requires forall d :: 0 <= d < |sys.ends| ==> sys'.ends[d].process == sys.ends[d].process
    requires forall d, id :: 0 <= d < |sys.ends| && id in sys.ends[d].sent ==>
               id in sys'.ends[d].sent && sys'.ends[d].sent[id] == sys.ends[d].sent[id]
    ensures Responses(sys, process) <= Responses(sys', process)
  {
    forall a | a in Responses(sys, process) ensures a in Responses(sys', process) {
      var d :| 0 <= d < |sys.ends| && sys.ends[d].process == process && Answers(sys.ends[Other(d)].sent, a);
      var x :| x in sys.ends[Other(d)].sent && sys.ends[Other(d)].sent[x].blockerId == a.id
               && sys.ends[Other(d)].sent[x].data == a.bytes;
      assert x in sys'.ends[Other(d)].sent;
      assert Answers(sys'.ends[Other(d)].sent, a);
    }
  }

  // ---- every step keeps the invariant ----

  lemma SentAt(sys: System, d: nat)
    requires Shaped(sys) && d < |sys.ends|
    ensures PeerAt(sys, d).sent == sys.ends[d].sent
  {
  }

  /** What the step of session e does to itself, and which answers there are afterwards. */
  lemma ActorAfter(max: pos, sys: System, e: nat, a: Action)
    requires Inv(max, sys) && e < |sys.ends| && Enabled(max, PeerAt(sys, e), a)
    ensures var sys', me := Stepped(max, sys, e, a), PeerAt(sys, e);
            && Shaped(sys') && |sys'.ends| == |sys.ends|
            && PairInv(max, Acted(max, me, a), Affected(me, PeerAt(sys, Other(e)), a),
                       Responses(sys, sys.ends[e].process))
            && Effect(me, Acted(max, me, a))
            && forall process :: Responses(sys, process) <= Responses(sys', process)
  {
    var sys', me := Stepped(max, sys, e, a), PeerAt(sys, e);
    PairAt(max, sys, e);
    ActorKeeps(max, me, PeerAt(sys, Other(e)), a, Responses(sys, sys.ends[e].process));
    hide Inv, Stepped, Acted, Affected, PairInv, Enabled, Responses;
    PeersAfter(max, sys, e, a, e);
    forall d | 0 <= d < |sys.ends|
      ensures sys'.ends[d].process == sys.ends[d].process
      ensures forall id :: id in sys.ends[d].sent ==>
                id in sys'.ends[d].sent && sys'.ends[d].sent[id] == sys.ends[d].sent[id]
    {
      SentGrows(max, sys, e, a, d);
    }
    forall process ensures Responses(sys, process) <= Responses(sys', process) {
      ResponsesGrow(sys, sys', process);
    }
  }

  lemma SentGrows(max: pos, sys: System, e: nat, a: Action, d: nat)
    requires Shaped(sys) && e < |sys.ends| && d < |sys.ends| && Enabled(max, PeerAt(sys, e), a)
    requires Effect(PeerAt(sys, e), Acted(max, PeerAt(sys, e), a))
    ensures var sys' := Stepped(max, sys, e, a);
            && Shaped(sys') && |sys'.ends| == |sys.ends| && sys'.ends[d].process == sys.ends[d].process
            && (forall id :: id in sys.ends[d].sent ==>
                  id in sys'.ends[d].sent && sys'.ends[d].sent[id] == sys.ends[d].sent[id])
            && (d != e ==> sys'.ends[d].sent == sys.ends[d].sent)
  {
    PeersAfter(max, sys, e, a, d);
    var sys' := Stepped(max, sys, e, a);
    SentAt(sys, d);
    SentAt(sys', d);
    hide Stepped, Acted, PeerAt, Frozen, Kept, Ids;
  }

  /** Only the channel to the other end, and what the process shares, changes for the others. */
  lemma OtherPeer(max: pos, sys: System, e: nat, a: Action, d: nat)
    requires Shaped(sys) && e < |sys.ends| && d < |sys.ends| && d != e && Enabled(max, PeerAt(sys, e), a)
    ensures Shaped(Stepped(max, sys, e, a)) && d < |Stepped(max, sys, e, a).ends|
    ensures var p, p' := PeerAt(sys, d), PeerAt(Stepped(max, sys, e, a), d);
            && p'.sent == p.sent && p'.jobs == p.jobs && p'.ep.incoming == p.ep.incoming
            && p'.ep.requests == p.ep.requests && p'.ep.returned == p.ep.returned
  {
    PeersAfter(max, sys, e, a, d);
    hide Stepped, Acted, PeerAt;
  }

  lemma ActorSession(max: pos, sys: System, e: nat, a: Action)
    requires Inv(max, sys) && e < |sys.ends| && Enabled(max, PeerAt(sys, e), a)
    ensures Shaped(Stepped(max, sys, e, a)) && e < |Stepped(max, sys, e, a).ends|
    ensures SessionInv(max, Stepped(max, sys, e, a), e)
  {
    ActorAfter(max, sys, e, a);
    PeersAfter(max, sys, e, a, e);
    PeersAfter(max, sys, e, a, Other(e));
    var sys', me, q := Stepped(max, sys, e, a), PeerAt(sys, e), Other(e);
    hide Inv, Stepped, Acted, Affected, Enabled, Responses, PeerAt, LocalInv, DirectionInv, WaitingInv, ReturnedInv,
      Effect;
    SameDirection(max, Affected(me, PeerAt(sys, q), a), Acted(max, me, a), PeerAt(sys', q), PeerAt(sys', e));
    MoreAnswers(PeerAt(sys', e).ep, Responses(sys, sys.ends[e].process), Responses(sys', sys.ends[e].process));
  }

  /** What another session looks like once it has its new frame, before its process is touched. */
  lemma OtherDirection(max: pos, sys: System, e: nat, a: Action, d: nat)
    requires Inv(max, sys) && e < |sys.ends| && d < |sys.ends| && d != e && Enabled(max, PeerAt(sys, e), a)
    ensures var sys', me := Stepped(max, sys, e, a), PeerAt(sys, e);
            var p := if d == Other(e) then Affected(me, PeerAt(sys, d), a) else PeerAt(sys, d);
            && Shaped(sys') && |sys'.ends| == |sys.ends|
            && DirectionInv(max, PeerAt(sys', Other(d)), p)
  {
    ActorAfter(max, sys, e, a);
    var sys', me := Stepped(max, sys, e, a), PeerAt(sys, e);
    if d == Other(e) {
      assert Other(d) == e;
      PeersAfter(max, sys, e, a, e);
      hide Inv, Stepped, Acted, Enabled, Responses, PeerAt, LocalInv, DirectionInv, WaitingInv, ReturnedInv, Effect;
    } else {
      assert SessionInv(max, sys, d);
      assert Other(d) != e;
      OtherPeer(max, sys, e, a, Other(d));
      hide Inv, Stepped, Acted, Enabled, Responses, PeerAt, LocalInv, DirectionInv, WaitingInv, ReturnedInv, Effect;
      SameDirection(max, PeerAt(sys, Other(d)), PeerAt(sys, d), PeerAt(sys', Other(d)), PeerAt(sys, d));
    }
  }

  /** A frame that arrives in the channel changes nothing else. */
  lemma AffectedLocal(me: Peer, p: Peer, a: Action)
    requires a.Emit? ==> a.id in me.jobs && me.jobs[a.id] != []
    ensures var p' := Affected(me, p, a);
            && p'.ep == p.ep && p'.sent == p.sent && p'.used == p.used && (LocalInv(p) ==> LocalInv(p'))
            && (NothingCommon(me, p) ==> NothingCommon(me, p'))
  {
    hide Owned, Ids, Apart;
  }

  lemma IsShaped(max: pos, sys: System)
    requires Inv(max, sys)
    ensures Shaped(sys)
  {
  }

  lemma SessionFacts(max: pos, sys: System, d: nat)
    requires Inv(max, sys) && d < |sys.ends|
    ensures var p, answers := PeerAt(sys, d), Responses(sys, sys.ends[d].process);
            LocalInv(p) && WaitingInv(p.ep, answers) && ReturnedInv(p.ep, answers)
  {
    assert SessionInv(max, sys, d);
    hide PeerAt, LocalInv, DirectionInv, WaitingInv, ReturnedInv, Responses;
  }

  lemma NeighbourFacts(max: pos, sys: System, e: nat, d: nat)
    requires Inv(max, sys) && e < |sys.ends| && d < |sys.ends| && Neighbours(sys, e, d)
    ensures var me, p := PeerAt(sys, e), PeerAt(sys, d);
            NothingCommon(me, p) && SameProcess(me.ep, p.ep) && me.used == p.used
  {
    hide SessionInv, NothingCommon;
  }

  /** Another session of the process of the one that acts. */
  lemma NearSession(max: pos, sys: System, e: nat, a: Action, d: nat)
    requires Inv(max, sys) && e < |sys.ends| && d < |sys.ends| && Enabled(max, PeerAt(sys, e), a)
    requires Neighbours(sys, e, d)
    ensures Shaped(Stepped(max, sys, e, a)) && d < |Stepped(max, sys, e, a).ends|
    ensures SessionInv(max, Stepped(max, sys, e, a), d)
    ensures NothingCommon(PeerAt(Stepped(max, sys, e, a), e), PeerAt(Stepped(max, sys, e, a), d))
  {
    hide Inv, Stepped, Acted, Affected, Enabled, Responses, PeerAt, LocalInv, DirectionInv, WaitingInv, ReturnedInv,
      Effect, NothingCommon, SameProcess;
    IsShaped(max, sys);
    EnabledEmit(max, PeerAt(sys, e), a);
    ActorAfter(max, sys, e, a);
    OtherDirection(max, sys, e, a, d);
    PeersAfter(max, sys, e, a, d);
    PeersAfter(max, sys, e, a, e);
    var sys', me, process := Stepped(max, sys, e, a), PeerAt(sys, e), sys.ends[e].process;
    var p := if d == Other(e) then Affected(me, PeerAt(sys, d), a) else PeerAt(sys, d);
    SessionFacts(max, sys, e);
    SessionFacts(max, sys, d);
    NeighbourFacts(max, sys, e, d);
    AffectedLocal(me, PeerAt(sys, d), a);
    MoreAnswers(PeerAt(sys, d).ep, Responses(sys, process), Responses(sys', process));
    MoreAnswers(Acted(max, me, a).ep, Responses(sys, process), Responses(sys', process));
    BystanderKeeps(max, PeerAt(sys', Other(d)), p, PeerAt(sys', Other(d)), me, Acted(max, me, a),
                   Responses(sys', process));
  }

  lemma EnabledEmit(max: pos, me: Peer, a: Action)
    requires Enabled(max, me, a)
    ensures a.Emit? ==> a.id in me.jobs && me.jobs[a.id] != []
  {
  }

  /** A session of another process. */
  lemma FarSession(max: pos, sys: System, e: nat, a: Action, d: nat)
    requires Inv(max, sys) && e < |sys.ends| && d < |sys.ends| && Enabled(max, PeerAt(sys, e), a)
    requires sys.ends[d].process != sys.ends[e].process
    ensures Shaped(Stepped(max, sys, e, a)) && d < |Stepped(max, sys, e, a).ends|
    ensures SessionInv(max, Stepped(max, sys, e, a), d)
  {
    hide Inv, Stepped, Acted, Affected, Enabled, Responses, PeerAt, LocalInv, DirectionInv, WaitingInv, ReturnedInv,
      Effect, NothingCommon;
    IsShaped(max, sys);
    EnabledEmit(max, PeerAt(sys, e), a);
    ActorAfter(max, sys, e, a);
    OtherDirection(max, sys, e, a, d);
    PeersAfter(max, sys, e, a, d);
    var sys', me, process := Stepped(max, sys, e, a), PeerAt(sys, e), sys.ends[d].process;
    SessionFacts(max, sys, d);
    AffectedLocal(me, PeerAt(sys, d), a);
    MoreAnswers(PeerAt(sys, d).ep, Responses(sys, process), Responses(sys', process));
  }

  /** Two sessions of one process after a step, when neither of them acted. */
  lemma PairSeparate(max: pos, sys: System, e: nat, a: Action, d: nat, c: nat)
    requires Inv(max, sys) && e < |sys.ends| && Enabled(max, PeerAt(sys, e), a)
    requires c < |sys.ends| && d < |sys.ends| && d != e && c != e && Neighbours(sys, c, d)
    ensures Shaped(Stepped(max, sys, e, a)) && |Stepped(max, sys, e, a).ends| == |sys.ends|
    ensures NothingCommon(PeerAt(Stepped(max, sys, e, a), c), PeerAt(Stepped(max, sys, e, a), d))
  {
    hide Inv, Stepped, Acted, Enabled, PeerAt, NothingCommon, SameProcess;
    IsShaped(max, sys);
    PeersAfter(max, sys, e, a, e);
    NeighbourFacts(max, sys, c, d);
    OtherPeer(max, sys, e, a, c);
    OtherPeer(max, sys, e, a, d);
    var sys' := Stepped(max, sys, e, a);
    OthersSeparate(PeerAt(sys, c), PeerAt(sys, d), PeerAt(sys', c), PeerAt(sys', d));
  }

  lemma SeparateSymmetric(p: Peer, q: Peer)
    requires NothingCommon(p, q)
    ensures NothingCommon(q, p)
  {
    ApartSymmetric(p.ep, q.ep);
    hide Apart;
  }

  lemma StillSeparate(max: pos, sys: System, e: nat, a: Action, c: nat, d: nat)
    requires Inv(max, sys) && e < |sys.ends| && Enabled(max, PeerAt(sys, e), a)
    requires c < |sys.ends| && d < |sys.ends| && Neighbours(sys, c, d)
    ensures Shaped(Stepped(max, sys, e, a)) && |Stepped(max, sys, e, a).ends| == |sys.ends|
    ensures NothingCommon(PeerAt(Stepped(max, sys, e, a), c), PeerAt(Stepped(max, sys, e, a), d))
  {
    hide Inv, Stepped, Enabled, PeerAt, NothingCommon, SessionInv;
    IsShaped(max, sys);
    PeersAfter(max, sys, e, a, e);
    if c == e {
      NearSession(max, sys, e, a, d);
    } else if d == e {
      NearSession(max, sys, e, a, c);
      SeparateSymmetric(PeerAt(Stepped(max, sys, e, a), d), PeerAt(Stepped(max, sys, e, a), c));
    } else {
      PairSeparate(max, sys, e, a, d, c);
    }
  }

  lemma SessionKept(max: pos, sys: System, e: nat, a: Action, d: nat)
    requires Inv(max, sys) && e < |sys.ends| && d < |sys.ends| && Enabled(max, PeerAt(sys, e), a)
    ensures Shaped(Stepped(max, sys, e, a)) && d < |Stepped(max, sys, e, a).ends|
    ensures SessionInv(max, Stepped(max, sys, e, a), d)
  {
    hide Inv, Stepped, Enabled, PeerAt, NothingCommon, SessionInv;
    IsShaped(max, sys);
    if d == e {
      ActorSession(max, sys, e, a);
    } else if sys.ends[d].process == sys.ends[e].process {
      NearSession(max, sys, e, a, d);
    } else {
      FarSession(max, sys, e, a, d);
    }
  }

  /** Every step of every session keeps the invariant of the whole system. */
  lemma StepKeepsInv(max: pos, sys: System, e: nat, a: Action)
    requires Inv(max, sys) && e < |sys.ends| && Enabled(max, PeerAt(sys, e), a)
    ensures Inv(max, Stepped(max, sys, e, a))
  {
    hide Stepped, Enabled, PeerAt, NothingCommon, SessionInv;
    var sys' := Stepped(max, sys, e, a);
    PeersAfter(max, sys, e, a, e);
    forall d | 0 <= d < |sys.ends|
      ensures SessionInv(max, sys', d) && sys'.ends[d].process == sys.ends[d].process
    {
      SessionKept(max, sys, e, a, d);
      PeersAfter(max, sys, e, a, d);
    }
    forall c, d | 0 <= c < |sys.ends| && 0 <= d < |sys.ends| && Neighbours(sys', c, d)
      ensures NothingCommon(PeerAt(sys', c), PeerAt(sys', d))
    {
      StillSeparate(max, sys, e, a, c, d);
    }
  }
}
