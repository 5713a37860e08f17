/** Which messages are answered, and by which replies: the flag that makes a message pending, the handlers that
    answer, and the reply that takes the entry out again (src/messages_processing, src/session.cpp). */
module SessionReplies {
  import opened Bytes
  import opened Wire
  import opened SwapList
  import PendingReplies
  import opened SessionState
  import opened SessionRuns

  // ---- what is answered ----

  /** Some reply is the answer to m. */
  ghost predicate Answerable(m: Message) { exists r :: Answers(m, r) }

  /** The flag that makes a message pending is set on exactly the messages a handler answers, except the close
      message of somebody who does not wait for the answer. */
  lemma WantsReplyExactly(m: Message)
    ensures WantsReply(m.body) <==> Answerable(m) && !(m.body.CloseStart? && !m.body.replyExpected)
  {
    match m.body
    case InitStart(c, name) => assert Answers(m, Message(m.sessionId, m.messageId, InitReply(c, 0, name)));
    case CloseStart(_, _) => assert Answers(m, Message(m.sessionId, m.messageId, CloseReply(0)));
    case HeartbeatStart => assert Answers(m, Message(m.sessionId, m.messageId, HeartbeatReply));
    case Stream(_, r) => assert r ==> Answers(m, Message(m.sessionId, m.messageId, StreamReply));
    case Data(p) => assert p.Single? ==> Answers(m, Message(m.sessionId, m.messageId, SingleReply));
    case _ =>
  }

  /** The reply flag is set on exactly the messages that answer one. */
  lemma IsReplyExactly(r: Message)
    requires r.body.CloseReply? ==> r.body.closingId == 0
    ensures IsReply(r.body) <==> exists m :: Answers(m, r)
  {
    match r.body
    case InitReply(c, _, name) => assert Answers(Message(r.sessionId, r.messageId, InitStart(c, name)), r);
    case CloseReply(_) => assert Answers(Message(r.sessionId, r.messageId, CloseStart(0, true)), r);
    case HeartbeatReply => assert Answers(Message(r.sessionId, r.messageId, HeartbeatStart), r);
    case StreamReply => assert Answers(Message(r.sessionId, r.messageId, Stream([], true)), r);
    case SingleReply => assert Answers(Message(r.sessionId, r.messageId, Data(Single(0, 0, []))), r);
    case _ =>
  }

  /** The message carries the id of the session that handles it; an init message carries that of the client. */
  predicate Addressed(l: Local, m: Message) {
    m.sessionId == if m.body.InitStart? then m.body.clientSessionId else l.s.sessionId
  }

  lemma ReplyPut(l: Local, sessionId: u32, messageId: u32, body: Body)
    requires IsReply(body) && !WantsReply(body)
    ensures var r := Message(sessionId, messageId, body);
            SendMessage(l, r).out == if l.s.open then l.out + [r] else l.out
  {
  }

  /** Handling a message that can be answered puts exactly one frame on the channel, and that is its answer;
      handling any other puts nothing there. A closed socket takes no answer. */
  lemma {:induction false} AnswerSent(l: Local, m: Message)
    requires Addressed(l, m)
    ensures l.s.open && Answerable(m) ==> exists r :: Answers(m, r) && Received(l, m).out == l.out + [r]
    ensures !l.s.open || !Answerable(m) ==> Received(l, m).out == l.out
  {
    WantsReplyExactly(m);
    hide SendMessage, CompleteId, Remove, PendingReplies.Key;
    var l1 := ReplyNoted(l, m);
    match m.body
    case InitStart(c, name) =>
      var k := Increased16(l1.host.idCounter);
      var id := CompleteId(c, k);
      var l2 := l1.(host := Registered(l1.host.(idCounter := k), id, l1.self));
      ReplyPut(MadeReady(Connected(l2, id), id, name), c, m.messageId, InitReply(c, id, name));
      assert Answers(m, Message(c, m.messageId, InitReply(c, id, name)));
    case InitReply(_, _, _) =>
    case CloseStart(_, _) =>
      ReplyPut(l1, l1.s.sessionId, m.messageId, CloseReply(0));
      assert Answers(m, Message(l1.s.sessionId, m.messageId, CloseReply(0)));
    case CloseReply(_) =>
    case HeartbeatStart =>
      ReplyPut(l1, l1.s.sessionId, m.messageId, HeartbeatReply);
      assert Answers(m, Message(l1.s.sessionId, m.messageId, HeartbeatReply));
    case Stream(_, r) =>
      ReplyPut(l1.(s := Hearing(l1.s, m)), l1.s.sessionId, m.messageId, StreamReply);
      assert r ==> Answers(m, Message(l1.s.sessionId, m.messageId, StreamReply));
    case Data(p) =>
      ReplyPut(l1, l1.s.sessionId, m.messageId, SingleReply);
      assert p.Single? ==> Answers(m, Message(l1.s.sessionId, m.messageId, SingleReply));
    case _ =>
  }

  // ---- there and back ----

  /** The message an application call or the heartbeat sweep sends. */
  function BodyOf(a: Action): Body
    requires a.SendStream? || a.SendPacket? || a.Heartbeat?
  {
    match a
    case SendStream(_, _, payload, r) => Stream(payload, r)
    case SendPacket(_, _, p) => Data(p)
    case Heartbeat(_, _) => HeartbeatStart
  }

  predicate Quiet(sys: System, i: nat)
    requires i < |sys.conns|
  {
    sys.conns[i].toClient == [] && sys.conns[i].toServer == []
  }

  /** Whatever is sent to be answered, a heartbeat, a stream with reply or a single block, becomes pending; the peer
      answers it; and once the answer is handled the same keys are pending as before, on both sides. */
  lemma {:induction false} ReplyRound(max: nat, sys: System, a: Action)
    requires Inv(sys) && Enabled(sys, a) && (a.SendStream? || a.SendPacket? || a.Heartbeat?)
    requires WantsReply(BodyOf(a)) && (a.SendStream? ==> |a.payload| <= max)
    requires sys.conns[a.conn].client.state.SessionReady? && sys.conns[a.conn].server.state.SessionReady?
    requires Quiet(sys, a.conn)
    ensures var x, i, one := a.from, a.conn, Step(max, sys, a);
            && Enabled(one, Deliver(Other(x), i))
            && Ids(Proc(one, x).host.pending) != Ids(Proc(sys, x).host.pending)
            && var two := Step(max, one, Deliver(Other(x), i));
            && Enabled(two, Deliver(x, i))
            && Answers(Channel(one.conns[i], Other(x))[0], Channel(two.conns[i], x)[0])
            && var three := Step(max, two, Deliver(x, i));
            && Ids(Proc(three, x).host.pending) == Ids(Proc(sys, x).host.pending)
            && Proc(three, Other(x)).host == Proc(sys, Other(x)).host
            && |three.conns| == |sys.conns| && Quiet(three, i)
  {
    hide Inv, Delivered, Updated, Ids, WantsReply, Answers, Step, Quiet;
    var x, i, one := a.from, a.conn, Step(max, sys, a);
    StepKeepsInv(max, sys, a);
    RequestGone(max, sys, a);
    RequestHeard(max, one, x, i);
    var two := Step(max, one, Deliver(Other(x), i));
    StepKeepsInv(max, one, Deliver(Other(x), i));
    RequestAnswered(max, two, x, i, Channel(one.conns[i], Other(x))[0]);
  }

  lemma SentIs(max: nat, sys: System, a: Action)
    requires Enabled(sys, a) && (a.SendStream? || a.SendPacket? || a.Heartbeat?)
    requires (a.SendStream? ==> |a.payload| <= max) && Sess(sys.conns[a.conn], a.from).state.SessionReady?
    ensures Step(max, sys, a) == Updated(sys, a.from, a.conn, SendNew(LocalOf(sys, a.from, a.conn), BodyOf(a)))
  {
    hide SendNew, Updated;
  }

  lemma RequestGone(max: nat, sys: System, a: Action)
    requires Inv(sys) && Enabled(sys, a) && (a.SendStream? || a.SendPacket? || a.Heartbeat?)
    requires WantsReply(BodyOf(a)) && (a.SendStream? ==> |a.payload| <= max)
    requires Sess(sys.conns[a.conn], a.from).state.SessionReady? && Quiet(sys, a.conn)
    ensures var x, i, one := a.from, a.conn, Step(max, sys, a);
            var s := Sess(sys.conns[i], x);
            var m := Message(s.sessionId, s.counter + 1, BodyOf(a));
            && |one.conns| == |sys.conns| && Proc(one, Other(x)) == Proc(sys, Other(x))
            && Channel(one.conns[i], Other(x)) == [m] && Channel(one.conns[i], x) == []
            && Sess(one.conns[i], Other(x)) == Sess(sys.conns[i], Other(x))
            && Ids(Proc(one, x).host.pending) == Ids(Proc(sys, x).host.pending) + {KeyOf(m)}
            && KeyOf(m) !in Ids(Proc(sys, x).host.pending)
  {
    hide Inv, ConnInv, Ids, Distinct, PendingReplies.Key, Balanced, WantsReply, IsReply, SendNew, Step, Type, Updated;
    var x, i, body := a.from, a.conn, BodyOf(a);
    var s, pending := Sess(sys.conns[i], x), Proc(sys, x).host.pending;
    NoReply(a);
    SentIs(max, sys, a);
    hide Enabled, BodyOf;
    NotPending(sys, x, i);
    InvConn(sys, i);
    ReadyFacts(i, sys.conns[i], x);
    SendNewIs(LocalOf(sys, x, i), body);
    AddIds(pending, Item(PendingReplies.Key(s.sessionId, s.counter + 1),
                         PendingReplies.Pending(0.0, Type(body), i, false)));
    UpdatedIs(sys, x, i, SendNew(LocalOf(sys, x, i), body));
  }

  lemma NoReply(a: Action)
    requires a.SendStream? || a.SendPacket? || a.Heartbeat?
    ensures !IsReply(BodyOf(a))
  {
  }

  lemma UpdatedIs(sys: System, x: Side, i: nat, l: Local)
    requires i < |sys.conns| && Quiet(sys, i)
    ensures var next := Updated(sys, x, i, l);
            && |next.conns| == |sys.conns| && Proc(next, Other(x)) == Proc(sys, Other(x))
            && Proc(next, x).host == l.host && Sess(next.conns[i], Other(x)) == Sess(sys.conns[i], Other(x))
            && Channel(next.conns[i], Other(x)) == l.out && Channel(next.conns[i], x) == []
  {
    assert [] + l.out == l.out;
  }

  lemma HostUntouched(l: Local, m: Message)
    requires WantsReply(m.body) && !IsInit(m.body) && !m.body.CloseStart?
    ensures Received(l, m).host == l.host
  {
    hide Remove, PendingReplies.Key, PendingReplies.Added;
  }

  lemma RequestHeard(max: nat, sys: System, x: Side, i: nat)
    requires Inv(sys) && i < |sys.conns| && Sess(sys.conns[i], Other(x)).state.SessionReady?
    requires |Channel(sys.conns[i], Other(x))| == 1 && Channel(sys.conns[i], x) == []
    requires var b := Channel(sys.conns[i], Other(x))[0].body;
             WantsReply(b) && (b.Stream? || b.Data? || b.HeartbeatStart?)
    ensures Enabled(sys, Deliver(Other(x), i))
    ensures var two, m := Step(max, sys, Deliver(Other(x), i)), Channel(sys.conns[i], Other(x))[0];
            && |two.conns| == |sys.conns| && two.client.host == sys.client.host && two.server.host == sys.server.host
            && Channel(two.conns[i], Other(x)) == [] && |Channel(two.conns[i], x)| == 1
            && Answers(m, Channel(two.conns[i], x)[0])
  {
    var y, m := Other(x), Channel(sys.conns[i], Other(x))[0];
    InvConn(sys, i);
    ReadyFacts(i, sys.conns[i], y);
    HeadOf(i, sys.conns[i], y);
    hide Inv, ConnInv, Answers, WantsReply, Received, Travels;
    WantsReplyExactly(m);
    AnswerSent(LocalOf(sys, y, i), m);
    HostUntouched(LocalOf(sys, y, i), m);
  }

  lemma PlainReply(l: Local, m: Message, r: Message)
    requires Answers(m, r) && !IsInit(m.body) && !m.body.CloseStart?
    ensures IsReply(r.body) && Received(l, r).out == l.out && r.sessionId == m.sessionId && r.messageId == m.messageId
  {
    hide Remove, PendingReplies.Key;
  }

  lemma RequestAnswered(max: nat, sys: System, x: Side, i: nat, m: Message)
    requires Inv(sys) && i < |sys.conns| && Channel(sys.conns[i], Other(x)) == []
    requires |Channel(sys.conns[i], x)| == 1 && Answers(m, Channel(sys.conns[i], x)[0])
    requires !IsInit(m.body) && !m.body.CloseStart?
    ensures Enabled(sys, Deliver(x, i))
    ensures var three := Step(max, sys, Deliver(x, i));
            && |three.conns| == |sys.conns| && Proc(three, Other(x)) == Proc(sys, Other(x)) && Quiet(three, i)
            && Ids(Proc(three, x).host.pending) == Ids(Proc(sys, x).host.pending) - {KeyOf(m)}
  {
    var r := Channel(sys.conns[i], x)[0];
    PlainReply(LocalOf(sys, x, i), m, r);
    ReplyStruck(sys, x, i);
    hide Inv, Ids, PendingReplies.Key, Received, Answers;
  }

  // ---- every pending message has an answer ----

  /** Whoever handles the message, with an open socket and under its id, answers it. */
  ghost predicate GetsAnswer(m: Message) {
    forall l: Local :: l.s.open && Addressed(l, m) ==>
      exists r :: Answers(m, r) && Received(l, m).out == l.out + [r]
  }

  /** In every run each pending key is that of a message its process sent, which the session at the other end, as
      soon as it is ready, answers when it handles it: nothing waits for a reply that nobody would send. */
  lemma {:induction false} PendingAnswerable(max: nat, actions: seq<Action>, x: Side, key: u64)
    requires CanRun(max, INITIAL, actions) && key in Ids(Proc(Run(max, INITIAL, actions), x).host.pending)
    ensures var sys := Run(max, INITIAL, actions);
            exists i, k :: 0 <= i < |sys.conns| && 0 <= k < |Sess(sys.conns[i], x).log|
                           && PendingFor(sys, x, i, Sess(sys.conns[i], x).log[k], key)
  {
    var sys := Run(max, INITIAL, actions);
    ReplyConservation(max, actions, x);
    Reached(max, actions);
    hide Inv, Ids, Run, CanRun, Answers, GetsAnswer, KeyOf, WantsReply, PendingFor;
    var ss := Sessions(sys.conns, x);
    var i, k :| 0 <= i < |ss| && 0 <= k < |ss[i].log| && WantsReply(ss[i].log[k].body) && KeyOf(ss[i].log[k]) == key;
    SessionsAt(sys.conns, i, x);
    LoggedAnswerable(sys, x, i, k);
  }

  /** key belongs to m, sent by session i on side x and meant for the session at the other end. */
  ghost predicate PendingFor(sys: System, x: Side, i: nat, m: Message, key: u64)
    requires i < |sys.conns|
  {
    var peer := Sess(sys.conns[i], Other(x));
    && KeyOf(m) == key && GetsAnswer(m)
    && (if IsInit(m.body) then m.body.InitStart? && m.sessionId == m.body.clientSessionId
        else peer.created == 1 ==> m.sessionId == peer.sessionId)
  }

  lemma LoggedAnswerable(sys: System, x: Side, i: nat, k: nat)
    requires Inv(sys) && i < |sys.conns| && k < |Sess(sys.conns[i], x).log|
    requires WantsReply(Sess(sys.conns[i], x).log[k].body)
    ensures var m := Sess(sys.conns[i], x).log[k]; PendingFor(sys, x, i, m, KeyOf(m))
  {
    var m := Sess(sys.conns[i], x).log[k];
    InvConn(sys, i);
    assert SessionOk(x, Sess(sys.conns[i], x), sys.conns[i].server.sessionId);
    assert LogEntry(x, Sess(sys.conns[i], x), sys.conns[i].server.sessionId, k);
    hide Inv, SessionOk, OneWay, Answers, KeyOf, WantsReply, Received;
    WantsReplyExactly(m);
    forall l: Local | l.s.open && Addressed(l, m)
      ensures exists r :: Answers(m, r) && Received(l, m).out == l.out + [r]
    {
      AnswerSent(l, m);
    }
  }
}
