/** One session: its state machine, its message counter, the handshake and close handlers, and what they do to
    the registry and the pending list of the process (src/session.cpp, src/handler/session_handler.cpp,
    src/messages_processing/session_processing.h, heartbeat_processing.h). */
module SessionState {
  import opened Bytes
  import opened Wire
  import opened SwapList
  import opened PendingReplies
  import Parser

  const ID_WRAP: nat := 0x1_0000
  const COUNTER_WRAP: nat := 0x1_0000_0000

  /** The leaf states: entering CONNECTED enters its initial child SESSION_NOT_READY. */
  datatype State = NotConnected | SessionNotReady | SessionReady

  datatype Transition = Connect | Disconnect | StartSession | StopSession

  /** goToNextState: DISCONNECT is a transition of CONNECTED, hence of both its children. */
  function Next(s: State, t: Transition): Option<State> {
    match t
    case Connect => if s.NotConnected? then Some(SessionNotReady) else None
    case Disconnect => if s.NotConnected? then None else Some(NotConnected)
    case StartSession => if s.SessionNotReady? then Some(SessionReady) else None
    case StopSession => if s.SessionReady? then Some(SessionNotReady) else None
  }

  /** The fields of a session. open says whether its socket still takes frames. History: created and closed count
      the calls of the two callbacks, dropped the disconnects taken directly from SESSION_READY, log holds every
      message passed to sendMessage that is not a reply, and heard what the stream callback was called with. */
  datatype SessionView = SessionView(state: State, sessionId: u32, identifier: seq<byte>, initState: int,
                                     counter: u32, open: bool, created: nat, closed: nat, dropped: nat,
                                     log: seq<Message>, heard: seq<seq<byte>>)

  /** What all sessions of a process share. The registry maps ids to session numbers: a number is a pointer. */
  datatype Host = Host(registry: map<u32, nat>, idCounter: u16, pending: PendingList<nat>)

  /** A session within its process; out are the frames it puts on its channel. */
  datatype Local = Local(self: nat, s: SessionView, host: Host, out: seq<Message>)

  const NEW_SESSION := SessionView(NotConnected, 0, [], 0, 0, true, 0, 0, 0, [], [])

  /** As the state machine is set up: CONNECTED has two children, of which SESSION_NOT_READY is entered first. */
  lemma Transitions(s: State, t: Transition, u: State)
    ensures Next(s, t) == Some(u)
       <==> (s, t, u) in {(NotConnected, Connect, SessionNotReady), (SessionNotReady, StartSession, SessionReady),
                          (SessionReady, StopSession, SessionNotReady), (SessionNotReady, Disconnect, NotConnected),
                          (SessionReady, Disconnect, NotConnected)}
  {
  }

  // ---- the operations, as functions ----

  function Increased16(c: u16): u16 { (c + 1) % ID_WRAP }

  function Increased32(c: u32): u32 { (c + 1) % COUNTER_WRAP }

  /** std::map::insert: a registered id stays with its session. */
  function Registered(h: Host, id: u32, session: nat): Host {
    if id in h.registry then h else h.(registry := h.registry[id := session])
  }

  function Unregistered(h: Host, id: u32): Host { h.(registry := h.registry - {id}) }

  /** A message that wants a reply is queued as pending even when the socket then refuses the frame. */
  function SendMessage(l: Local, m: Message): Local {
    var pending := if WantsReply(m.body)
                   then Added(l.host.pending, Type(m.body), m.sessionId, m.messageId, l.self)
                   else l.host.pending;
    l.(host := l.host.(pending := pending),
       out := if l.s.open then l.out + [m] else l.out,
       s := if IsReply(m.body) then l.s else l.s.(log := l.s.log + [m]))
  }

  /** A message with the next message id. */
  function SendNew(l: Local, body: Body): Local {
    var c := Increased32(l.s.counter);
    SendMessage(l.(s := l.s.(counter := c)), Message(l.s.sessionId, c, body))
  }

  /** A reply goes out under the own session id and the message id of what it answers. */
  function SendReply(l: Local, messageId: u32, body: Body): Local {
    SendMessage(l, Message(l.s.sessionId, messageId, body))
  }

  function Connected(l: Local, sessionId: u32): Local {
    if l.s.state.NotConnected? then l.(s := l.s.(state := SessionNotReady, sessionId := sessionId))
    else InitFailed(l)
  }

  function InitFailed(l: Local): Local { l.(s := l.s.(initState := -1)) }

  function MadeReady(l: Local, sessionId: u32, identifier: seq<byte>): Local {
    if l.s.state.SessionNotReady? then
      l.(s := l.s.(state := SessionReady, sessionId := sessionId, identifier := identifier,
                   created := l.s.created + 1, initState := 1))
    else InitFailed(l)
  }

  function Disconnected(l: Local): Local {
    if l.s.state.NotConnected? then l
    else
      l.(s := l.s.(state := NotConnected, open := false,
                   dropped := l.s.dropped + if l.s.state.SessionReady? then 1 else 0))
  }

  function Ended(l: Local): Local {
    if l.s.state.SessionReady? then
      Disconnected(l.(s := l.s.(state := SessionNotReady, closed := l.s.closed + 1),
                      host := Unregistered(l.host, l.s.sessionId)))
    else l
  }

  function Closed(l: Local, replyExpected: bool): Local {
    if l.s.state.SessionReady? then
      var silenced := l.(host := l.host.(pending := MarkSession(l.host.pending, l.s.sessionId)));
      var sent := SendNew(silenced, CloseStart(0, replyExpected));
      if replyExpected then sent else Ended(sent)
    else l
  }

  function HeartbeatSent(l: Local): Local {
    if l.s.state.SessionReady? then SendNew(l, HeartbeatStart) else l
  }

  function StreamSent(max: nat, l: Local, payload: seq<byte>, replyExpected: bool): Local {
    if |payload| <= max && l.s.state.SessionReady? then SendNew(l, Stream(payload, replyExpected)) else l
  }

  function PacketSent(l: Local, p: Packet): Local { SendNew(l, Data(p)) }

  /** The id both sides end up with, in 32 bits. */
  function CompleteId(clientId: u32, serverId: u16): u32 { (clientId + serverId * ID_WRAP) % COUNTER_WRAP }

  /** startSession up to its wait for the answer. */
  function Started(l: Local, identifier: seq<byte>): Local {
    var id := Increased16(l.host.idCounter);
    var l1 := Connected(l.(host := l.host.(idCounter := id)), id);
    SendNew(l1.(host := Registered(l1.host, id, l1.self)), InitStart(id, identifier))
  }

  /** The connection cannot be made: an id is used up, and closing a session that is not ready does nothing. */
  function StartFailed(l: Local): Local {
    InitFailed(l.(host := l.host.(idCounter := Increased16(l.host.idCounter))))
  }

  function InitStartReceived(l: Local, messageId: u32, clientId: u32, identifier: seq<byte>): Local {
    var serverId := Increased16(l.host.idCounter);
    var id := CompleteId(clientId, serverId);
    var l1 := l.(host := Registered(l.host.(idCounter := serverId), id, l.self));
    var l2 := MadeReady(Connected(l1, id), id, identifier);
    SendMessage(l2, Message(clientId, messageId, InitReply(clientId, id, identifier)))
  }

  function InitReplyReceived(l: Local, clientId: u32, completeId: u32, identifier: seq<byte>): Local {
    MadeReady(l.(host := Registered(Unregistered(l.host, clientId), completeId, l.self)), completeId, identifier)
  }

  function CloseStartReceived(l: Local, messageId: u32, closingId: u32): Local {
    var l1 := SendReply(l, messageId, CloseReply(0));
    Ended(l1.(host := Unregistered(l1.host, closingId)))
  }

  function CloseReplyReceived(l: Local, closingId: u32): Local {
    Disconnected(l.(host := Unregistered(l.host, closingId)))
  }

  /** The stream callback gets the payload; then the reply, if one is wanted. */
  function StreamReceived(l: Local, messageId: u32, payload: seq<byte>, replyExpected: bool): Local {
    var l1 := l.(s := l.s.(heard := l.s.heard + [payload]));
    if replyExpected then SendReply(l1, messageId, StreamReply) else l1
  }

  /** A handled reply takes the entry it answers off the pending list first. */
  function ReplyNoted(l: Local, m: Message): Local {
    l.(host := l.host.(pending := Struck(l.host.pending, Parser.ReplyKey(m))))
  }

  function Dispatched(l: Local, m: Message): Local {
    match m.body
    case InitStart(clientId, identifier) => InitStartReceived(l, m.messageId, clientId, identifier)
    case InitReply(clientId, id, identifier) => InitReplyReceived(l, clientId, id, identifier)
    case CloseStart(closingId, _) => CloseStartReceived(l, m.messageId, closingId)
    case CloseReply(closingId) => CloseReplyReceived(l, closingId)
    case HeartbeatStart => SendReply(l, m.messageId, HeartbeatReply)
    case Stream(payload, replyExpected) => StreamReceived(l, m.messageId, payload, replyExpected)
    case Data(Single(_, _, _)) => SendReply(l, m.messageId, SingleReply)
    case _ => l
  }

  function Received(l: Local, m: Message): Local { Dispatched(ReplyNoted(l, m), m) }

  // ---- the classes ----

  /** src/handler/session_handler.h */
  class SessionHandler {
    var sessions: map<u32, nat>
    var sessionIdCounter: u16

    constructor ()
      ensures sessions == map[] && sessionIdCounter == 0
    {
      sessions, sessionIdCounter := map[], 0;
    }

    method AddSession(id: u32, session: nat)
      modifies this
      ensures sessions == (if id in old(sessions) then old(sessions) else old(sessions)[id := session])
      ensures sessionIdCounter == old(sessionIdCounter)
    {
      if id !in sessions {
        sessions := sessions[id := session];
      }
    }

    method RemoveSession(id: u32) returns (removed: Option<nat>)
      modifies this
      ensures sessions == old(sessions) - {id} && sessionIdCounter == old(sessionIdCounter)
      ensures removed == if id in old(sessions) then Some(old(sessions)[id]) else None
    {
      removed := None;
      if id in sessions {
        removed := Some(sessions[id]);
        sessions := sessions - {id};
      }
    }

    method IncreaseSessionIdCounter() returns (id: u16)
      modifies this
      ensures sessions == old(sessions)
      ensures id == sessionIdCounter == Increased16(old(sessionIdCounter))
    {
      sessionIdCounter := (sessionIdCounter + 1) % 0x1_0000;
      id := sessionIdCounter;
    }
  }

  /** src/session.cpp, with the handlers of the incoming session and heartbeat messages. */
  class Session {
    const self: nat
    const handler: SessionHandler
    const replies: ReplyHandler<nat>
    var state: State
    var sessionId: u32
    var identifier: seq<byte>
    var initState: int
    var messageIdCounter: u32
    var open: bool
    var created: nat
    var closed: nat
    ghost var dropped: nat
    ghost var log: seq<Message>
    var heard: seq<seq<byte>>
    var out: seq<Message>

    ghost function View(): Local
      reads this, handler, replies
    {
      Local(self,
            SessionView(state, sessionId, identifier, initState, messageIdCounter, open, created, closed, dropped, log,
                        heard),
            Host(handler.sessions, handler.sessionIdCounter, replies.messageList),
            out)
    }

    constructor (self: nat, handler: SessionHandler, replies: ReplyHandler<nat>)
      ensures this.self == self && this.handler == handler && this.replies == replies
      ensures View() == Local(self, NEW_SESSION,
                              Host(handler.sessions, handler.sessionIdCounter, replies.messageList), [])
    {
      this.self, this.handler, this.replies := self, handler, replies;
      state, sessionId, identifier, initState := NotConnected, 0, [], 0;
      messageIdCounter, open, created, closed := 0, true, 0, 0;
      out, heard := [], [];
      dropped, log := 0, [];
    }

    method GoToNextState(t: Transition) returns (moved: bool)
      modifies this`state
      ensures moved <==> Next(old(state), t).Some?
      ensures state == if moved then Next(old(state), t).value else old(state)
    {
      var next := Next(state, t);
      moved := next.Some?;
      if moved {
        state := next.value;
      }
    }

    method IncreaseMessageIdCounter() returns (id: u32)
      modifies this`messageIdCounter
      ensures id == messageIdCounter == Increased32(old(messageIdCounter))
    {
      messageIdCounter := (messageIdCounter + 1) % 0x1_0000_0000;
      id := messageIdCounter;
    }

    method Send(m: Message) returns (sent: bool)
      modifies this`log, this`out, replies
      ensures View() == SendMessage(old(View()), m) && (sent <==> open)
    {
      if HasFlag(Flags(m.body), FLAG_REPLY_REQUIRED) {
        replies.AddMessage(Type(m.body), m.sessionId, m.messageId, self);
      }
      if !HasFlag(Flags(m.body), FLAG_REPLY) {
        log := log + [m];
      }
      sent := open;
      if open {
        out := out + [m];
      }
    }

    method SendStart(body: Body) returns (sent: bool)
      modifies this`messageIdCounter, this`log, this`out, replies
      ensures View() == SendNew(old(View()), body) && (sent <==> open)
    {
      var id := IncreaseMessageIdCounter();
      sent := Send(Message(sessionId, id, body));
    }

    /** initOk says whether initConnection of the socket succeeds. */
    method ConnectiSession(id: u32, initOk: bool) returns (connected: bool)
      modifies this
      ensures View() == if initOk then Connected(old(View()), id) else InitFailed(old(View()))
      ensures connected <==> old(state).NotConnected? && initOk
    {
      if state == NotConnected {
        if !initOk {
          initState := -1;
          return false;
        }
        var _ := GoToNextState(Connect);
        sessionId := id;
        return true;
      }
      initState := -1;
      return false;
    }

    method MakeSessionReady(id: u32, name: seq<byte>) returns (ready: bool)
      modifies this
      ensures View() == MadeReady(old(View()), id, name) && (ready <==> old(state).SessionNotReady?)
    {
      ready := GoToNextState(StartSession);
      if ready {
        sessionId, identifier := id, name;
        created := created + 1;
        initState := 1;
      } else {
        initState := -1;
      }
    }

    /** closeOk says whether closeSocket succeeds. */
    method DisconnectSession(closeOk: bool) returns (disconnected: bool)
      modifies this
      ensures disconnected <==> !old(state).NotConnected? && closeOk
      ensures var gone := Disconnected(old(View()));
              View() == if closeOk then gone else gone.(s := gone.s.(open := old(open)))
    {
      if state == SessionReady {
        dropped := dropped + 1;
      }
      disconnected := GoToNextState(Disconnect);
      if disconnected {
        if !closeOk {
          return false;
        }
        open := false;
      }
    }

    method EndSession() returns (ended: bool)
      modifies this, handler
      ensures View() == Ended(old(View())) && (ended <==> old(state).SessionReady?)
    {
      ended := GoToNextState(StopSession);
      if ended {
        closed := closed + 1;
        var _ := handler.RemoveSession(sessionId);
        ended := DisconnectSession(true);
      }
    }

    method CloseSession(replyExpected: bool) returns (ok: bool)
      modifies this, handler, replies
      ensures View() == Closed(old(View()), replyExpected)
      ensures ok <==> old(state).SessionReady? && (replyExpected ==> old(open))
    {
      if state == SessionReady {
        replies.RemoveAllOfSession(sessionId);
        ok := SendStart(CloseStart(0, replyExpected));
        if !replyExpected {
          ok := EndSession();
        }
        return;
      }
      return false;
    }

    method SendHeartbeat() returns (ok: bool)
      modifies this, replies
      ensures View() == HeartbeatSent(old(View())) && (ok <==> state.SessionReady? && open)
    {
      ok := false;
      if state == SessionReady {
        ok := SendStart(HeartbeatStart);
      }
    }

    method SendStreamData(max: nat, payload: seq<byte>, replyExpected: bool) returns (ok: bool)
      modifies this, replies
      ensures View() == StreamSent(max, old(View()), payload, replyExpected)
      ensures ok <==> |payload| <= max && state.SessionReady? && open
    {
      if |payload| > max {
        return false;
      }
      if state == SessionReady {
        ok := SendStart(Stream(payload, replyExpected));
        return;
      }
      return false;
    }

    /** src/session_controller.cpp, up to the wait for the answer. */
    method Start(name: seq<byte>, initOk: bool) returns (started: bool)
      requires state.NotConnected?
      modifies this, handler, replies
      ensures started <==> |name| <= IDENTIFIER_SIZE && initOk
      ensures View() == if |name| > IDENTIFIER_SIZE then old(View())
                        else if initOk then Started(old(View()), name) else StartFailed(old(View()))
    {
      if |name| > IDENTIFIER_SIZE {
        return false;
      }
      var id := handler.IncreaseSessionIdCounter();
      started := ConnectiSession(id, initOk);
      if started {
        handler.AddSession(id, self);
        var _ := SendStart(InitStart(id, name));
        return;
      }
      var _ := CloseSession(false);
    }

    method ProcessSessionInitStart(messageId: u32, clientId: u32, name: seq<byte>)
      modifies this, handler, replies
      ensures View() == InitStartReceived(old(View()), messageId, clientId, name)
    {
      var serverId: int := handler.IncreaseSessionIdCounter();
      var id: u32 := (clientId + serverId * 0x10000) % 0x1_0000_0000;
      handler.AddSession(id, self);
      var _ := ConnectiSession(id, true);
      var _ := MakeSessionReady(id, name);
      var _ := Send(Message(clientId, messageId, InitReply(clientId, id, name)));
    }

    method ProcessSessionInitReply(clientId: u32, completeId: u32, name: seq<byte>)
      modifies this, handler
      ensures View() == InitReplyReceived(old(View()), clientId, completeId, name)
    {
      var _ := handler.RemoveSession(clientId);
      handler.AddSession(completeId, self);
      var _ := MakeSessionReady(completeId, name);
    }

    method ProcessSessionCloseStart(messageId: u32, closingId: u32)
      modifies this, handler, replies
      ensures View() == CloseStartReceived(old(View()), messageId, closingId)
    {
      var _ := Send(Message(sessionId, messageId, CloseReply(0)));
      var _ := handler.RemoveSession(closingId);
      var _ := EndSession();
    }

    method ProcessSessionCloseReply(closingId: u32)
      modifies this, handler
      ensures View() == CloseReplyReceived(old(View()), closingId)
    {
      var _ := handler.RemoveSession(closingId);
      var _ := DisconnectSession(true);
    }

    method ProcessDataStream(messageId: u32, payload: seq<byte>, replyExpected: bool)
      modifies this`heard, this`log, this`out, replies
      ensures View() == StreamReceived(old(View()), messageId, payload, replyExpected)
    {
      heard := heard + [payload];
      if replyExpected {
        var _ := Send(Message(sessionId, messageId, StreamReply));
      }
    }

    method ProcessMessage(m: Message)
      modifies this, handler, replies
      ensures View() == Received(old(View()), m)
    {
      if HasFlag(Flags(m.body), FLAG_REPLY) {
        var _ := replies.RemoveMessage(Key(m.sessionId, m.messageId));
      }
      match m.body {
        case InitStart(clientId, name) => ProcessSessionInitStart(m.messageId, clientId, name);
        case InitReply(clientId, id, name) => ProcessSessionInitReply(clientId, id, name);
        case CloseStart(closingId, _) => ProcessSessionCloseStart(m.messageId, closingId);
        case CloseReply(closingId) => ProcessSessionCloseReply(closingId);
        case HeartbeatStart => var _ := Send(Message(sessionId, m.messageId, HeartbeatReply));
        case Stream(payload, replyExpected) => ProcessDataStream(m.messageId, payload, replyExpected);
        case Data(packet) =>
          if packet.Single? {
            var _ := Send(Message(sessionId, m.messageId, SingleReply));
          }
        case _ =>
      }
    }
  }

  /** What handling a message strikes out is what the parser strikes out for its frame, whatever the padding. */
  lemma {:induction false} StruckOnce(l: Local, m: Message, pad: Padding, tail: seq<byte>)
    requires Valid(m.body) && PadFits(m.body, pad)
    ensures var o := Parser.NextMessage(Encode(m, pad) + tail);
            o.Handled? && o.message == Some(m) && ReplyNoted(l, m).host.pending == Struck(l.host.pending, o.answered)
  {
    hide Parser.NextMessage, Encode, Remove, Key;
    Parser.FrameHandled(m, pad, tail);
  }

  // ---- lifecycle, over every sequence of calls ----

  datatype Call =
    | CallStart(identifier: seq<byte>)
    | CallConnect(sessionId: u32)
    | CallReady(sessionId: u32, identifier: seq<byte>)
    | CallEnd
    | CallDisconnect
    | CallClose(replyExpected: bool)
    | CallHeartbeat
    | CallStream(payload: seq<byte>, wantsReply: bool)
    | CallPacket(packet: Packet)
    | CallReceive(message: Message)

  function Apply(max: nat, l: Local, c: Call): Local {
    match c
    case CallStart(identifier) => Started(l, identifier)
    case CallConnect(id) => Connected(l, id)
    case CallReady(id, identifier) => MadeReady(l, id, identifier)
    case CallEnd => Ended(l)
    case CallDisconnect => Disconnected(l)
    case CallClose(replyExpected) => Closed(l, replyExpected)
    case CallHeartbeat => HeartbeatSent(l)
    case CallStream(payload, wantsReply) => StreamSent(max, l, payload, wantsReply)
    case CallPacket(p) => PacketSent(l, p)
    case CallReceive(m) => Received(l, m)
  }

  function ApplyAll(max: nat, l: Local, cs: seq<Call>): Local
    decreases |cs|
  {
    if cs == [] then l else ApplyAll(max, Apply(max, l, cs[0]), cs[1..])
  }

  predicate Balanced(s: SessionView) {
    s.created == s.closed + s.dropped + if s.state.SessionReady? then 1 else 0
  }

  /** Sending changes neither the state nor the counts. */
  lemma SendKeepsState(l: Local, m: Message)
    ensures SendMessage(l, m).s == l.s.(log := SendMessage(l, m).s.log)
  {
    hide Added, Key, Type;
  }

  /** The calls that make a session ready, and those that are refused and mark the init as failed. */
  predicate InitOk(s: State, c: Call) {
    || (s.SessionNotReady? && (c.CallReady? || (c.CallReceive? && IsInit(c.message.body))))
    || (!s.SessionReady? && c.CallReceive? && c.message.body.InitStart?)
  }

  predicate InitRefused(s: State, c: Call) {
    || (!s.NotConnected? && (c.CallStart? || c.CallConnect?))
    || (!s.SessionNotReady? && (c.CallReady? || (c.CallReceive? && c.message.body.InitReply?)))
    || (s.SessionReady? && c.CallReceive? && c.message.body.InitStart?)
  }

  lemma ReceivedState(l: Local, m: Message)
    ensures Balanced(l.s) ==> Balanced(Received(l, m).s)
    ensures !l.s.state.SessionReady? ==>
              (Received(l, m).s.state.SessionReady?
               <==> m.body.InitStart? || (l.s.state.SessionNotReady? && m.body.InitReply?))
    ensures var s', c := Received(l, m).s, CallReceive(m);
            && s'.initState == (if InitOk(l.s.state, c) then 1
                                else if InitRefused(l.s.state, c) then -1 else l.s.initState)
            && s'.created == l.s.created + (if InitOk(l.s.state, c) then 1 else 0)
  {
    hide SendMessage, Remove, Key;
    var l1 := ReplyNoted(l, m);
    match m.body
    case InitStart(c, name) =>
      var k := Increased16(l1.host.idCounter);
      var id := CompleteId(c, k);
      var l2 := l1.(host := Registered(l1.host.(idCounter := k), id, l1.self));
      SendKeepsState(MadeReady(Connected(l2, id), id, name), Message(c, m.messageId, InitReply(c, id, name)));
    case InitReply(_, _, _) =>
    case CloseStart(_, _) => SendKeepsState(l1, Message(l1.s.sessionId, m.messageId, CloseReply(0)));
    case CloseReply(_) =>
    case HeartbeatStart => SendKeepsState(l1, Message(l1.s.sessionId, m.messageId, HeartbeatReply));
    case Stream(payload, _) =>
      SendKeepsState(l1.(s := l1.s.(heard := l1.s.heard + [payload])),
                     Message(l1.s.sessionId, m.messageId, StreamReply));
    case Data(_) => SendKeepsState(l1, Message(l1.s.sessionId, m.messageId, SingleReply));
    case _ =>
  }

  lemma ApplyBalanced(max: nat, l: Local, c: Call)
    requires Balanced(l.s)
    ensures Balanced(Apply(max, l, c).s)
  {
    if c.CallReceive? {
      ReceivedState(l, c.message);
      hide Received;
    } else {
      hide Received, Added, MarkSession, Key, Type;
    }
  }

  /** Whatever calls a session gets in whatever order: every create callback is matched by a close callback, by a
      disconnect straight out of SESSION_READY, or by the session being ready now. */
  lemma {:induction false} Lifecycle(max: nat, l: Local, cs: seq<Call>)
    requires Balanced(l.s)
    ensures Balanced(ApplyAll(max, l, cs).s)
    decreases |cs|
  {
    if cs != [] {
      ApplyBalanced(max, l, cs[0]);
      hide Apply, Balanced;
      Lifecycle(max, Apply(max, l, cs[0]), cs[1..]);
    }
  }

  /** A session becomes ready by the two handshake messages and by makeSessionReady alone; from anywhere but
      SESSION_NOT_READY only by the init message, which connects it first. */
  lemma EntersReady(max: nat, l: Local, c: Call)
    requires !l.s.state.SessionReady?
    ensures Apply(max, l, c).s.state.SessionReady?
       <==> || (l.s.state.SessionNotReady? && (c.CallReady? || (c.CallReceive? && IsInit(c.message.body))))
            || (c.CallReceive? && c.message.body.InitStart?)
  {
    if c.CallReceive? {
      ReceivedState(l, c.message);
      hide Received;
    } else {
      hide Received, Added, MarkSession, Key, Type;
    }
  }

  /** What startSession waits for: a call sets the init state to 1 exactly if it makes the session ready, which is
      when the create callback is called, to -1 exactly if it is refused, and leaves it alone otherwise. */
  lemma InitOutcome(max: nat, l: Local, c: Call)
    ensures var s' := Apply(max, l, c).s;
            && s'.initState == (if InitOk(l.s.state, c) then 1
                                else if InitRefused(l.s.state, c) then -1 else l.s.initState)
            && s'.created == l.s.created + (if InitOk(l.s.state, c) then 1 else 0)
  {
    if c.CallReceive? {
      ReceivedState(l, c.message);
      hide Received;
    } else {
      hide Received, Added, MarkSession, Key, Type;
    }
  }

  /** A start whose connection fails leaves the session unconnected and marked as failed, registers nothing, sends
      nothing and waits for nothing; the next start goes on with the next id. */
  lemma FailedStart(l: Local, identifier: seq<byte>)
    requires l.s.state.NotConnected?
    ensures var f := StartFailed(l);
            && f.s.state.NotConnected? && f.s.initState == -1 && f.s == l.s.(initState := -1) && f.out == l.out
            && f.host.registry == l.host.registry && f.host.pending == l.host.pending
            && Started(f, identifier).s.sessionId == (l.host.idCounter + 2) % 0x1_0000
  {
    hide Added, Key, Type;
  }

  /** A message that wants a reply is pending from sendMessage on, whether or not the socket takes it: one entry
      more, with its own key and timer 0. Any other message leaves the list alone. */
  lemma RefusedStillPends(l: Local, m: Message)
    ensures var l' := SendMessage(l, m);
            && l'.out == (if l.s.open then l.out + [m] else l.out)
            && (if WantsReply(m.body) then
                  && |l'.host.pending| == |l.host.pending| + 1 && l.host.pending <= l'.host.pending
                  && l'.host.pending[|l.host.pending|]
                     == Item(m.messageId * 0x1_0000_0000 + m.sessionId, Pending(0.0, Type(m.body), l.self, false))
                else l'.host.pending == l.host.pending)
  {
    hide WantsReply, Type;
  }

  /** 16 bits of client id below 16 bits of server id: nothing is lost, nothing clashes with a bare client id. */
  lemma CompleteIdInjective(c: u16, k: u16, c': u16, k': u16)
    ensures CompleteId(c, k) == CompleteId(c', k') <==> c == c' && k == k'
    ensures CompleteId(c, k) % ID_WRAP == c
    ensures k != 0 ==> CompleteId(c, k) >= ID_WRAP
  {
  }
}
