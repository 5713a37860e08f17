/** Whole runs of one client process and one server process with any number of connections between them: the
    handshake, heartbeats, streams, data frames, closing from both ends, and the reply timer, in any order. */
module SessionRuns {
  import opened Bytes
  import opened Wire
  import opened SwapList
  import opened PendingReplies
  import opened SessionState

  datatype Side = Client | Server

  function Other(x: Side): Side { if x.Client? then Server else Client }

  /** One connection: the session on each side, and the frames on their way to each side. History: name is the
      identifier given to startSession. */
  datatype Conn = Conn(client: SessionView, server: SessionView, toClient: seq<Message>, toServer: seq<Message>,
                       name: seq<byte>)

  /** History: the keys of the replies handled, and of the entries the timer took out. */
  datatype Process = Process(host: Host, answered: set<u64>, expired: set<u64>)

  datatype System = System(client: Process, server: Process, conns: seq<Conn>)

  const IDLE := Process(Host(map[], 0, []), {}, {})
  const INITIAL := System(IDLE, IDLE, [])

  datatype Action =
    | Start(name: seq<byte>)
    | Deliver(to: Side, conn: nat)
    | SendStream(from: Side, conn: nat, payload: seq<byte>, replyExpected: bool)
    | SendPacket(from: Side, conn: nat, packet: Packet)
    | Heartbeat(from: Side, conn: nat)
    | Close(from: Side, conn: nat, replyExpected: bool)
    | TimerStep(at: Side)

  function Sess(c: Conn, x: Side): SessionView { if x.Client? then c.client else c.server }

  /** The frames on their way to side x. */
  function Channel(c: Conn, x: Side): seq<Message> { if x.Client? then c.toClient else c.toServer }

  function Proc(sys: System, x: Side): Process { if x.Client? then sys.client else sys.server }

  function WithProc(sys: System, x: Side, p: Process): System {
    if x.Client? then sys.(client := p) else sys.(server := p)
  }

  /** Side x now has session s and the frames inbox still to come, and has sent out. */
  function Put(c: Conn, x: Side, s: SessionView, inbox: seq<Message>, out: seq<Message>): Conn {
    if x.Client? then c.(client := s, toClient := inbox, toServer := c.toServer + out)
    else c.(server := s, toServer := inbox, toClient := c.toClient + out)
  }

  predicate CanSend(s: SessionView) { s.counter + 1 < COUNTER_WRAP }

  /** No counter wraps around. A data frame goes out of a call whose guard found the session ready: for the first
      frame now, for the later frames of a multi-block transfer at some earlier time. */
  predicate Enabled(sys: System, a: Action) {
    match a
    case Start(name) => |name| <= IDENTIFIER_SIZE && sys.client.host.idCounter + 1 < ID_WRAP
    case Deliver(x, i) =>
      i < |sys.conns| && Channel(sys.conns[i], x) != []
      && (Channel(sys.conns[i], x)[0].body.InitStart? ==> Proc(sys, x).host.idCounter + 1 < ID_WRAP)
    case SendStream(x, i, _, _) => i < |sys.conns| && CanSend(Sess(sys.conns[i], x))
    case SendPacket(x, i, p) =>
      i < |sys.conns| && CanSend(Sess(sys.conns[i], x))
      && (if p.Single? then Sess(sys.conns[i], x).state.SessionReady? else Sess(sys.conns[i], x).created > 0)
    case Heartbeat(x, i) => i < |sys.conns| && CanSend(Sess(sys.conns[i], x))
    case Close(x, i, _) => i < |sys.conns| && CanSend(Sess(sys.conns[i], x))
    case TimerStep(_) => true
  }

  function LocalOf(sys: System, x: Side, i: nat): Local
    requires i < |sys.conns|
  {
    Local(i, Sess(sys.conns[i], x), Proc(sys, x).host, [])
  }

  /** The outcome of an operation of session i on side x. */
  function Updated(sys: System, x: Side, i: nat, l: Local): System
    requires i < |sys.conns|
  {
    WithProc(sys, x, Proc(sys, x).(host := l.host))
      .(conns := sys.conns[i := Put(sys.conns[i], x, l.s, Channel(sys.conns[i], x), l.out)])
  }

  function KeyOf(m: Message): u64 { Key(m.sessionId, m.messageId) }

  function Delivered(sys: System, x: Side, i: nat): System
    requires i < |sys.conns| && Channel(sys.conns[i], x) != []
  {
    var m := Channel(sys.conns[i], x)[0];
    var l := Received(LocalOf(sys, x, i), m);
    var p := Proc(sys, x);
    WithProc(sys, x, Process(l.host, if IsReply(m.body) then p.answered + {KeyOf(m)} else p.answered, p.expired))
      .(conns := sys.conns[i := Put(sys.conns[i], x, l.s, Channel(sys.conns[i], x)[1..], l.out)])
  }

  function Ticked(p: Process): Process {
    var pending := PendingReplies.Step(p.host.pending);
    p.(host := p.host.(pending := pending), expired := p.expired + (Ids(p.host.pending) - Ids(pending)))
  }

  function Step(max: nat, sys: System, a: Action): System
    requires Enabled(sys, a)
  {
    match a
    case Start(name) =>
      var l := Started(Local(|sys.conns|, NEW_SESSION, sys.client.host, []), name);
      sys.(client := sys.client.(host := l.host), conns := sys.conns + [Conn(l.s, NEW_SESSION, [], l.out, name)])
    case Deliver(x, i) => Delivered(sys, x, i)
    case SendStream(x, i, payload, r) => Updated(sys, x, i, StreamSent(max, LocalOf(sys, x, i), payload, r))
    case SendPacket(x, i, p) => Updated(sys, x, i, PacketSent(LocalOf(sys, x, i), p))
    case Heartbeat(x, i) => Updated(sys, x, i, HeartbeatSent(LocalOf(sys, x, i)))
    case Close(x, i, r) => Updated(sys, x, i, Closed(LocalOf(sys, x, i), r))
    case TimerStep(x) => WithProc(sys, x, Ticked(Proc(sys, x)))
  }

  // ---- one connection ----

  /** Has been ready and is not connected any more. */
  predicate Down(s: SessionView) { s.created == 1 && s.state.NotConnected? }

  predicate IsClose(b: Body) { b.CloseStart? || b.CloseReply? }

  ghost predicate HasClose(ms: seq<Message>) { exists k :: 0 <= k < |ms| && IsClose(ms[k].body) }

  ghost predicate NoInit(ms: seq<Message>) { forall k :: 0 <= k < |ms| ==> !IsInit(ms[k].body) }

  /** Reply r is the answer to message m. */
  predicate Answers(m: Message, r: Message) {
    && m.sessionId == r.sessionId && m.messageId == r.messageId
    && match r.body
       case InitReply(_, _, _) => m.body.InitStart?
       case CloseReply(id) => m.body.CloseStart? && id == 0
       case HeartbeatReply => m.body.HeartbeatStart?
       case StreamReply => m.body.Stream? && m.body.replyExpected
       case SingleReply => m.body.Data? && m.body.packet.Single?
       case _ => false
  }

  /** Side x (session s) may have sent entry k of its log: complete is the id both sides agreed on. */
  predicate LogEntry(x: Side, s: SessionView, complete: u32, k: nat)
    requires k < |s.log|
  {
    var m := s.log[k];
    && m.messageId == k + 1 && !IsReply(m.body)
    && (if IsInit(m.body) then x.Client? && k == 0 else m.sessionId == complete)
    && (m.body.CloseStart? ==> m.body.closingId == 0 && (m.body.replyExpected || Down(s)))
  }

  ghost predicate AskedToClose(s: SessionView) {
    exists k :: 0 <= k < |s.log| && s.log[k].body == CloseStart(0, true)
  }

  ghost predicate SessionOk(x: Side, s: SessionView, complete: u32) {
    && s.counter == |s.log| && s.initState == s.created <= 1 && Balanced(s)
    && (s.open <==> s.created == 0 || !s.state.NotConnected?)
    && (forall k :: 0 <= k < |s.log| ==> LogEntry(x, s, complete, k))
    && (s.dropped > 0 ==> AskedToClose(s))
  }

  /** A frame on its way from sx to sy: an entry of the sender's log, or the answer to one of the receiver's. */
  predicate Travels(sx: SessionView, sy: SessionView, m: Message) {
    if IsReply(m.body) then
      1 <= m.messageId <= |sy.log| && Answers(sy.log[m.messageId - 1], m) && (m.body.CloseReply? ==> Down(sx))
    else 1 <= m.messageId <= |sx.log| && sx.log[m.messageId - 1] == m
  }

  ghost predicate Flow(sx: SessionView, sy: SessionView, ms: seq<Message>) {
    forall k :: 0 <= k < |ms| ==> Travels(sx, sy, ms[k])
  }

  /** The channel from sx to sy: whoever went down has told the other side, unless that one is down as well. */
  ghost predicate OneWay(sx: SessionView, sy: SessionView, ms: seq<Message>) {
    && Flow(sx, sy, ms)
    && (Down(sx) && !Down(sy) ==> HasClose(ms))
  }

  function InitStartOf(i: nat, name: seq<byte>): Message
    requires i + 1 < ID_WRAP
  {
    Message(i + 1, 1, InitStart(i + 1, name))
  }

  function InitReplyOf(i: nat, c: Conn): Message
    requires i + 1 < ID_WRAP
  {
    Message(i + 1, 1, InitReply(i + 1, c.server.sessionId, c.name))
  }

  /** The three phases of the handshake. */
  ghost predicate Handshake(i: nat, c: Conn) {
    && i + 1 < ID_WRAP && c.client.log != [] && c.client.log[0] == InitStartOf(i, c.name)
    && (if c.server.created == 0 then
          && c.server == NEW_SESSION && c.client.created == 0
          && c.toServer == [InitStartOf(i, c.name)] && c.toClient == []
        else
          && c.server.sessionId % ID_WRAP == i + 1 && c.server.sessionId >= ID_WRAP && c.server.identifier == c.name
          && !c.server.state.SessionNotReady?)
    && (if c.client.created == 0 then
          && c.client.state.SessionNotReady? && c.client.sessionId == i + 1 && |c.client.log| == 1
          && (c.server.created == 1 ==>
                && c.toServer == [] && c.toClient != []
                && c.toClient[0] == InitReplyOf(i, c) && NoInit(c.toClient[1..]))
        else
          && c.server.created == 1 && !c.client.state.SessionNotReady?
          && c.client.sessionId == c.server.sessionId && c.client.identifier == c.name
          && NoInit(c.toServer) && NoInit(c.toClient))
  }

  ghost predicate ConnInv(i: nat, c: Conn) {
    && SessionOk(Client, c.client, c.server.sessionId) && SessionOk(Server, c.server, c.server.sessionId)
    && OneWay(c.client, c.server, c.toServer) && OneWay(c.server, c.client, c.toClient)
    && Handshake(i, c)
  }

  /** What a step of one session never takes back. */
  predicate Extends(s: SessionView, s': SessionView) {
    s.log <= s'.log && (Down(s) ==> Down(s'))
  }

  lemma FlowExtends(sx: SessionView, sy: SessionView, ms: seq<Message>, sx': SessionView, sy': SessionView)
    requires Flow(sx, sy, ms) && Extends(sx, sx') && Extends(sy, sy')
    ensures Flow(sx', sy', ms)
  {
    hide Answers, IsReply, Down;
    forall k | 0 <= k < |ms| ensures Travels(sx', sy', ms[k]) {
      assert Travels(sx, sy, ms[k]);
    }
  }

  lemma FlowAppend(sx: SessionView, sy: SessionView, ms: seq<Message>, out: seq<Message>)
    requires Flow(sx, sy, ms) && Flow(sx, sy, out)
    ensures Flow(sx, sy, ms + out)
  {
    hide Travels;
  }

  lemma CloseIn(ms: seq<Message>, out: seq<Message>)
    ensures HasClose(ms) || HasClose(out) ==> HasClose(ms + out)
  {
    hide IsClose;
    if HasClose(ms) {
      var k :| 0 <= k < |ms| && IsClose(ms[k].body);
      assert (ms + out)[k] == ms[k];
    } else if HasClose(out) {
      var k :| 0 <= k < |out| && IsClose(out[k].body);
      assert (ms + out)[|ms| + k] == out[k];
    }
  }

  lemma CloseBehind(ms: seq<Message>)
    requires HasClose(ms) && !IsClose(ms[0].body)
    ensures HasClose(ms[1..])
  {
    hide IsClose;
    var k :| 0 <= k < |ms| && IsClose(ms[k].body);
    assert ms[1..][k - 1] == ms[k];
  }

  /** Both channels after a step of side x. Either x stays up or stays down; or it goes down and says so, or
      goes down because the other side is down already. */
  lemma ChannelsKept(c: Conn, x: Side, s': SessionView, inbox: seq<Message>, out: seq<Message>)
    requires OneWay(c.client, c.server, c.toServer) && OneWay(c.server, c.client, c.toClient)
    requires Extends(Sess(c, x), s') && Flow(s', Sess(c, Other(x)), out)
    requires inbox == Channel(c, x)
          || (Channel(c, x) != [] && inbox == Channel(c, x)[1..]
              && (IsClose(Channel(c, x)[0].body) ==> Down(s')))
    requires Down(s') ==> Down(Sess(c, x)) || HasClose(out) || Down(Sess(c, Other(x)))
    ensures var c' := Put(c, x, s', inbox, out);
            OneWay(c'.client, c'.server, c'.toServer) && OneWay(c'.server, c'.client, c'.toClient)
  {
    hide Flow, HasClose, IsClose;
    var s, t := Sess(c, x), Sess(c, Other(x));
    var mine, theirs := Channel(c, x), Channel(c, Other(x));
    FlowExtends(s, t, theirs, s', t);
    FlowAppend(s', t, theirs, out);
    FlowExtends(t, s, mine, t, s');
    assert Flow(t, s', inbox) by { FlowTail(t, s', mine); }
    CloseIn(theirs, out);
    if inbox != mine && HasClose(mine) && !IsClose(mine[0].body) {
      CloseBehind(mine);
    }
  }

  lemma FlowTail(sx: SessionView, sy: SessionView, ms: seq<Message>)
    requires Flow(sx, sy, ms)
    ensures ms != [] ==> Travels(sx, sy, ms[0]) && Flow(sx, sy, ms[1..])
  {
    hide Travels;
  }

  /** A message with a new id, written into the log. */
  function Logged(s: SessionView, body: Body): SessionView
    requires CanSend(s)
  {
    s.(counter := s.counter + 1, log := s.log + [Message(s.sessionId, s.counter + 1, body)])
  }

  lemma LoggedOk(x: Side, s: SessionView, body: Body, s': SessionView, complete: u32)
    requires SessionOk(x, s, complete) && CanSend(s) && s.created == 1 && s.sessionId == complete
    requires !IsReply(body) && !IsInit(body)
    requires body.CloseStart? ==> body.closingId == 0 && (body.replyExpected || Down(s'))
    requires s'.log == Logged(s, body).log && s'.counter == s.counter + 1 && s'.dropped == s.dropped
    requires s'.created == 1 && s'.initState == s.initState && Balanced(s')
    requires (s'.open <==> !s'.state.NotConnected?) && (Down(s) ==> Down(s'))
    ensures SessionOk(x, s', complete)
  {
    hide IsReply, IsInit;
    forall k | 0 <= k < |s'.log| ensures LogEntry(x, s', complete, k) {
      if k < |s.log| {
        assert s'.log[k] == s.log[k];
        assert LogEntry(x, s, complete, k);
      }
    }
    if s.dropped > 0 {
      var k :| 0 <= k < |s.log| && s.log[k].body == CloseStart(0, true);
      assert s'.log[k] == s.log[k];
    }
  }

  /** The handshake phases do not mind anything that sessions do once they are ready. */
  lemma HandshakeKept(i: nat, c: Conn, x: Side, s': SessionView, inbox: seq<Message>, out: seq<Message>)
    requires Handshake(i, c) && Sess(c, x).created == 1 && s'.created == 1 && !s'.state.SessionNotReady?
    requires s'.sessionId == Sess(c, x).sessionId && s'.identifier == Sess(c, x).identifier
    requires Sess(c, x).log <= s'.log && NoInit(out)
    requires inbox == Channel(c, x) || (Channel(c, x) != [] && inbox == Channel(c, x)[1..])
    ensures Handshake(i, Put(c, x, s', inbox, out))
  {
    hide IsInit;
    var c' := Put(c, x, s', inbox, out);
    if c.client.created == 0 {
      assert (c.toClient + out)[1..] == c.toClient[1..] + out;
    }
  }

  /** A session that was ready sends a message of its own, and stays as it is. */
  lemma MessageKept(i: nat, c: Conn, x: Side, body: Body)
    requires ConnInv(i, c) && Sess(c, x).created == 1 && CanSend(Sess(c, x))
    requires !IsReply(body) && !IsInit(body) && (body.CloseStart? ==> body == CloseStart(0, true))
    ensures var s := Sess(c, x);
            var s' := Logged(s, body);
            ConnInv(i, Put(c, x, s', Channel(c, x), if s.open then [s'.log[|s.log|]] else []))
  {
    var s := Sess(c, x);
    var s' := Logged(s, body);
    LoggedOk(x, s, body, s', c.server.sessionId);
    hide SessionOk, OneWay, Handshake, IsReply, IsInit;
    var out := if s.open then [s'.log[|s.log|]] else [];
    assert Extends(s, s');
    MessageFlows(s', Sess(c, Other(x)), out);
    ChannelsKept(c, x, s', Channel(c, x), out);
    HandshakeKept(i, c, x, s', Channel(c, x), out);
  }

  lemma MessageFlows(sx: SessionView, sy: SessionView, out: seq<Message>)
    requires out == [] || (sx.log != [] && out == [sx.log[|sx.log| - 1]])
    requires out != [] ==> out[0].messageId == |sx.log| && !IsReply(out[0].body)
    ensures Flow(sx, sy, out)
  {
  }

  /** A ready session closes without waiting for a reply. */
  lemma CloseKept(i: nat, c: Conn, x: Side)
    requires ConnInv(i, c) && Sess(c, x).state.SessionReady? && CanSend(Sess(c, x))
    ensures var s := Sess(c, x);
            var s' := Gone(Logged(s, CloseStart(0, false))).(closed := s.closed + 1);
            ConnInv(i, Put(c, x, s', Channel(c, x), [s'.log[|s.log|]]))
  {
    var s := Sess(c, x);
    var s' := Gone(Logged(s, CloseStart(0, false))).(closed := s.closed + 1);
    var out := [s'.log[|s.log|]];
    LoggedOk(x, s, CloseStart(0, false), s', c.server.sessionId);
    assert HasClose(out) by { assert IsClose(out[0].body); }
    hide SessionOk, OneWay, Handshake, IsReply, IsInit, HasClose;
    MessageFlows(s', Sess(c, Other(x)), out);
    ChannelsKept(c, x, s', Channel(c, x), out);
    HandshakeKept(i, c, x, s', Channel(c, x), out);
  }

  function Gone(s: SessionView): SessionView { s.(state := NotConnected, open := false) }

  /** What a session that has been ready knows about the first frame on its way to it. */
  lemma HeadOf(i: nat, c: Conn, x: Side)
    requires ConnInv(i, c) && Channel(c, x) != [] && !IsInit(Channel(c, x)[0].body)
    ensures var m, s, t := Channel(c, x)[0], Sess(c, x), Sess(c, Other(x));
            && s.created == 1 && s.sessionId == c.server.sessionId && !s.state.SessionNotReady?
            && Travels(t, s, m)
            && (!IsReply(m.body) ==>
                  && m.sessionId == s.sessionId
                  && (m.body.CloseStart? ==> m.body.closingId == 0 && (m.body.replyExpected || Down(t))))
  {
    var m, s, t := Channel(c, x)[0], Sess(c, x), Sess(c, Other(x));
    FlowTail(t, s, Channel(c, x));
    if !IsReply(m.body) {
      assert LogEntry(Other(x), t, c.server.sessionId, m.messageId - 1);
    }
  }

  lemma ReplyTravels(sx: SessionView, sy: SessionView, m: Message, body: Body)
    requires Travels(sy, sx, m) && !IsReply(m.body) && m.sessionId == sx.sessionId
    requires Answers(m, Message(sx.sessionId, m.messageId, body)) && (body.CloseReply? ==> Down(sx))
    ensures Flow(sx, sy, [Message(sx.sessionId, m.messageId, body)])
  {
  }

  /** The stream callback may be called: nothing else about the session changes. */
  function Hearing(s: SessionView, m: Message): SessionView {
    if m.body.Stream? then s.(heard := s.heard + [m.body.payload]) else s
  }

  lemma HearingOk(x: Side, s: SessionView, m: Message, complete: u32)
    requires SessionOk(x, s, complete)
    ensures SessionOk(x, Hearing(s, m), complete)
  {
    forall k | 0 <= k < |s.log| ensures LogEntry(x, Hearing(s, m), complete, k) {
      assert LogEntry(x, s, complete, k);
    }
  }

  /** A session that was ready answers a frame that is neither handshake nor close. */
  lemma ReplyKept(i: nat, c: Conn, x: Side, body: Body)
    requires ConnInv(i, c) && Channel(c, x) != []
    requires var m := Channel(c, x)[0];
             && !IsInit(m.body) && !IsReply(m.body) && !IsClose(m.body) && !body.CloseReply? && !IsInit(body)
             && Answers(m, Message(m.sessionId, m.messageId, body))
    ensures var s := Sess(c, x);
            var r := Message(s.sessionId, Channel(c, x)[0].messageId, body);
            ConnInv(i, Put(c, x, Hearing(s, Channel(c, x)[0]), Channel(c, x)[1..], if s.open then [r] else []))
  {
    HeadOf(i, c, x);
    var s, m := Sess(c, x), Channel(c, x)[0];
    var s' := Hearing(s, m);
    var out := if s.open then [Message(s.sessionId, m.messageId, body)] else [];
    HearingOk(x, s, m, c.server.sessionId);
    hide SessionOk, OneWay, Handshake, IsInit, IsReply;
    ReplyTravels(s', Sess(c, Other(x)), m, body);
    ChannelsKept(c, x, s', Channel(c, x)[1..], out);
    HandshakeKept(i, c, x, s', Channel(c, x)[1..], out);
  }

  /** A frame that asks nothing of the session. */
  lemma SkipKept(i: nat, c: Conn, x: Side)
    requires ConnInv(i, c) && Channel(c, x) != []
    requires !IsInit(Channel(c, x)[0].body) && !IsClose(Channel(c, x)[0].body)
    ensures ConnInv(i, Put(c, x, Hearing(Sess(c, x), Channel(c, x)[0]), Channel(c, x)[1..], []))
  {
    HeadOf(i, c, x);
    var s := Sess(c, x);
    var s' := Hearing(s, Channel(c, x)[0]);
    HearingOk(x, s, Channel(c, x)[0], c.server.sessionId);
    hide SessionOk, OneWay, Handshake, IsInit, IsReply;
    ChannelsKept(c, x, s', Channel(c, x)[1..], []);
    HandshakeKept(i, c, x, s', Channel(c, x)[1..], []);
  }

  lemma DownOk(x: Side, s: SessionView, s': SessionView, complete: u32)
    requires SessionOk(x, s, complete) && s.state.SessionReady?
    requires s' == Gone(s).(closed := s.closed + 1)
          || (s' == Gone(s).(dropped := s.dropped + 1) && AskedToClose(s))
    ensures SessionOk(x, s', complete)
  {
    forall k | 0 <= k < |s'.log| ensures LogEntry(x, s', complete, k) {
      assert LogEntry(x, s, complete, k);
    }
  }

  lemma ConnParts(i: nat, c: Conn)
    requires ConnInv(i, c)
    ensures SessionOk(Client, c.client, c.server.sessionId) && SessionOk(Server, c.server, c.server.sessionId)
    ensures OneWay(c.client, c.server, c.toServer) && OneWay(c.server, c.client, c.toClient) && Handshake(i, c)
  {
    hide SessionOk, OneWay, Handshake;
  }

  /** A session that is ready and gets a close reply asked for it. */
  lemma CloseAsked(x: Side, s: SessionView, t: SessionView, m: Message, complete: u32)
    requires SessionOk(x, s, complete) && Travels(t, s, m) && m.body.CloseReply? && s.state.SessionReady?
    ensures AskedToClose(s)
  {
    var k := m.messageId - 1;
    assert LogEntry(x, s, complete, k);
    assert s.log[k].body == CloseStart(0, true);
  }

  /** What a close message finds: the receiver has been ready; a close reply was asked for, and comes from a side
      that is down. */
  lemma CloseFinds(i: nat, c: Conn, x: Side)
    requires ConnInv(i, c) && Channel(c, x) != [] && IsClose(Channel(c, x)[0].body)
    ensures var m, s, t := Channel(c, x)[0], Sess(c, x), Sess(c, Other(x));
            && s.created == 1 && !s.state.SessionNotReady? && s.open == s.state.SessionReady?
            && Travels(t, s, m) && (!IsReply(m.body) ==> m.sessionId == s.sessionId)
            && (m.body.CloseReply? ==> Down(t) && (s.state.SessionReady? ==> AskedToClose(s)))
  {
    hide ConnInv, OneWay, Handshake, AskedToClose;
    HeadOf(i, c, x);
    ConnParts(i, c);
    var m, s := Channel(c, x)[0], Sess(c, x);
    assert SessionOk(x, s, c.server.sessionId);
    if m.body.CloseReply? && s.state.SessionReady? {
      CloseAsked(x, s, Sess(c, Other(x)), m, c.server.sessionId);
    }
    hide Answers, LogEntry, Balanced;
  }

  lemma ConnWhole(i: nat, c: Conn, x: Side, s': SessionView, inbox: seq<Message>, out: seq<Message>)
    requires ConnInv(i, c)
    requires var c' := Put(c, x, s', inbox, out);
             && SessionOk(x, s', c.server.sessionId) && s'.sessionId == Sess(c, x).sessionId && Handshake(i, c')
             && OneWay(c'.client, c'.server, c'.toServer) && OneWay(c'.server, c'.client, c'.toClient)
    ensures ConnInv(i, Put(c, x, s', inbox, out))
  {
    ConnParts(i, c);
    hide SessionOk, OneWay, Handshake;
  }

  lemma CloseStartKept(i: nat, c: Conn, x: Side)
    requires ConnInv(i, c) && Channel(c, x) != [] && Channel(c, x)[0].body.CloseStart?
    ensures var s := Sess(c, x);
            var s' := if s.state.SessionReady? then Gone(s).(closed := s.closed + 1) else s;
            var r := Message(s.sessionId, Channel(c, x)[0].messageId, CloseReply(0));
            ConnInv(i, Put(c, x, s', Channel(c, x)[1..], if s.open then [r] else []))
  {
    hide ConnInv, SessionOk, OneWay, Handshake, HasClose, Flow, Put;
    CloseFinds(i, c, x);
    ConnParts(i, c);
    var s, m := Sess(c, x), Channel(c, x)[0];
    var s' := if s.state.SessionReady? then Gone(s).(closed := s.closed + 1) else s;
    var out := if s.open then [Message(s.sessionId, m.messageId, CloseReply(0))] else [];
    if s.state.SessionReady? {
      DownOk(x, s, s', c.server.sessionId);
      ReplyTravels(s', Sess(c, Other(x)), m, CloseReply(0));
      CloseOut(out[0]);
    } else {
      NoneFlow(s', Sess(c, Other(x)));
    }
    ChannelsKept(c, x, s', Channel(c, x)[1..], out);
    NoInitIn(out);
    HandshakeKept(i, c, x, s', Channel(c, x)[1..], out);
    ConnWhole(i, c, x, s', Channel(c, x)[1..], out);
  }

  lemma CloseOut(r: Message)
    requires IsClose(r.body)
    ensures HasClose([r])
  {
    assert IsClose([r][0].body);
  }

  lemma NoneFlow(sx: SessionView, sy: SessionView)
    ensures Flow(sx, sy, [])
  {
  }

  lemma NoInitIn(out: seq<Message>)
    requires out == [] || (|out| == 1 && !IsInit(out[0].body))
    ensures NoInit(out)
  {
  }

  lemma CloseReplyKept(i: nat, c: Conn, x: Side)
    requires ConnInv(i, c) && Channel(c, x) != [] && Channel(c, x)[0].body.CloseReply?
    ensures var s := Sess(c, x);
            var s' := if s.state.SessionReady? then Gone(s).(dropped := s.dropped + 1) else s;
            ConnInv(i, Put(c, x, s', Channel(c, x)[1..], []))
  {
    hide ConnInv, SessionOk, OneWay, Handshake, HasClose, Flow, Travels, Put, AskedToClose;
    CloseFinds(i, c, x);
    ConnParts(i, c);
    var s := Sess(c, x);
    var s' := if s.state.SessionReady? then Gone(s).(dropped := s.dropped + 1) else s;
    if s.state.SessionReady? {
      DownOk(x, s, s', c.server.sessionId);
    }
    NoneFlow(s', Sess(c, Other(x)));
    ChannelsKept(c, x, s', Channel(c, x)[1..], []);
    NoInitIn([]);
    HandshakeKept(i, c, x, s', Channel(c, x)[1..], []);
    ConnWhole(i, c, x, s', Channel(c, x)[1..], []);
  }

  // ---- the handshake ----

  lemma StartKept(i: nat, name: seq<byte>)
    requires i + 1 < ID_WRAP
    ensures var first := InitStartOf(i, name);
            var s := SessionView(SessionNotReady, i + 1, [], 0, 1, true, 0, 0, 0, [first], []);
            ConnInv(i, Conn(s, NEW_SESSION, [], [first], name))
  {
  }

  function ServerReady(i: nat, id: u32, name: seq<byte>): SessionView {
    SessionView(SessionReady, id, name, 1, 0, true, 1, 0, 0, [], [])
  }

  lemma InitStartKept(i: nat, c: Conn, id: u32)
    requires ConnInv(i, c) && c.server.created == 0 && id % ID_WRAP == i + 1 && id >= ID_WRAP
    ensures var s := ServerReady(i, id, c.name);
            ConnInv(i, Put(c, Server, s, [], [Message(i + 1, 1, InitReply(i + 1, id, c.name))]))
  {
    var s := ServerReady(i, id, c.name);
    var out := [Message(i + 1, 1, InitReply(i + 1, id, c.name))];
    var c' := Put(c, Server, s, [], out);
    assert SessionOk(Client, c'.client, id) by {
      assert LogEntry(Client, c.client, 0, 0);
    }
    assert out[1..] == [] && c.toClient + out == out;
  }

  lemma InitReplyKept(i: nat, c: Conn)
    requires ConnInv(i, c) && c.client.created == 0 && c.server.created == 1
    ensures var s := c.client.(state := SessionReady, sessionId := c.server.sessionId, identifier := c.name,
                               created := 1, initState := 1);
            ConnInv(i, Put(c, Client, s, c.toClient[1..], []))
  {
    var s := c.client.(state := SessionReady, sessionId := c.server.sessionId, identifier := c.name,
                       created := 1, initState := 1);
    var c' := Put(c, Client, s, c.toClient[1..], []);
    assert SessionOk(Client, s, c.server.sessionId) by {
      assert LogEntry(Client, c.client, c.server.sessionId, 0);
    }
    hide SessionOk;
    FlowTail(c.server, c.client, c.toClient);
    FlowExtends(c.server, c.client, c.toClient[1..], c.server, s);
    hide Flow;
    if Down(c.server) {
      CloseBehind(c.toClient);
    }
  }

  // ---- the steps, seen from one connection ----

  /** An init message only ever arrives where it is the first one expected. */
  lemma InitHead(i: nat, c: Conn, x: Side)
    requires ConnInv(i, c) && Channel(c, x) != [] && IsInit(Channel(c, x)[0].body)
    ensures if x.Server? then c.server.created == 0 && c.toServer == [InitStartOf(i, c.name)]
            else c.client.created == 0 && c.server.created == 1 && c.toClient[0] == InitReplyOf(i, c)
  {
    assert c.client.created <= 1 && c.server.created <= 1;
    hide SessionOk, OneWay;
  }

  lemma InitStartReceivedIs(i: nat, l: Local, name: seq<byte>)
    requires l.s == NEW_SESSION && l.out == [] && i + 1 < ID_WRAP
    ensures var l', id := Received(l, InitStartOf(i, name)), CompleteId(i + 1, Increased16(l.host.idCounter));
            && l'.s == ServerReady(i, id, name)
            && l'.out == [Message(i + 1, 1, InitReply(i + 1, id, name))]
  {
    hide CompleteId, Remove, Key, Registered;
  }

  lemma InitStartReceivedKept(i: nat, c: Conn, l: Local)
    requires ConnInv(i, c) && c.server.created == 0 && l.s == c.server && l.out == []
    requires l.host.idCounter + 1 < ID_WRAP
    ensures c.toServer != []
    ensures var l' := Received(l, c.toServer[0]);
            && ConnInv(i, Put(c, Server, l'.s, c.toServer[1..], l'.out))
            && l'.s.sessionId == CompleteId(i + 1, l.host.idCounter + 1)
  {
    hide SessionOk, OneWay, CompleteId, Received, Put;
    assert c.server == NEW_SESSION && i + 1 < ID_WRAP && c.toServer == [InitStartOf(i, c.name)];
    hide ConnInv, Handshake;
    var k: u16 := l.host.idCounter + 1;
    assert Increased16(l.host.idCounter) == k;
    CompleteIdInjective(i + 1, k, 0, 0);
    InitStartReceivedIs(i, l, c.name);
    InitStartKept(i, c, CompleteId(i + 1, k));
    assert c.toServer[1..] == [];
  }

  lemma InitReplyReceivedIs(i: nat, c: Conn, l: Local)
    requires i + 1 < ID_WRAP && l.s.state.SessionNotReady? && l.s.created == 0 && l.out == []
    ensures var l' := Received(l, InitReplyOf(i, c));
            && l'.s == l.s.(state := SessionReady, sessionId := c.server.sessionId, identifier := c.name,
                            created := 1, initState := 1)
            && l'.out == []
  {
    hide Remove, Key, Registered, Unregistered;
  }

  lemma InitReplyReceivedKept(i: nat, c: Conn, l: Local)
    requires ConnInv(i, c) && c.client.created == 0 && c.server.created == 1 && l.s == c.client && l.out == []
    ensures c.toClient != []
    ensures var l' := Received(l, c.toClient[0]);
            ConnInv(i, Put(c, Client, l'.s, c.toClient[1..], l'.out))
  {
    hide SessionOk, OneWay, Received, Put;
    assert i + 1 < ID_WRAP && c.client.state.SessionNotReady? && c.toClient[0] == InitReplyOf(i, c);
    hide ConnInv, Handshake;
    InitReplyReceivedIs(i, c, l);
    InitReplyKept(i, c);
  }

  lemma InitReceivedKept(i: nat, c: Conn, x: Side, l: Local)
    requires ConnInv(i, c) && Channel(c, x) != [] && l.s == Sess(c, x) && l.out == []
    requires IsInit(Channel(c, x)[0].body) && (x.Server? ==> l.host.idCounter + 1 < ID_WRAP)
    ensures var l' := Received(l, Channel(c, x)[0]);
            ConnInv(i, Put(c, x, l'.s, Channel(c, x)[1..], l'.out))
  {
    hide ConnInv, Received, CompleteId;
    InitHead(i, c, x);
    if x.Server? {
      InitStartReceivedKept(i, c, l);
    } else {
      InitReplyReceivedKept(i, c, l);
    }
  }

  /** Sending a reply leaves the session and the pending list as they are. */
  lemma SendReplyIs(l: Local, messageId: u32, body: Body)
    requires IsReply(body) && !WantsReply(body) && l.out == []
    ensures var r := Message(l.s.sessionId, messageId, body);
            SendReply(l, messageId, body) == l.(out := if l.s.open then [r] else [])
  {
  }

  lemma CloseReceivedIs(l: Local, m: Message)
    requires IsClose(m.body) && l.out == []
    requires !l.s.state.SessionNotReady?
    ensures var l', s := Received(l, m), l.s;
            if m.body.CloseStart? then
              && l'.s == (if s.state.SessionReady? then Gone(s).(closed := s.closed + 1) else s)
              && l'.out == (if s.open then [Message(s.sessionId, m.messageId, CloseReply(0))] else [])
            else
              && l'.s == (if s.state.SessionReady? then Gone(s).(dropped := s.dropped + 1) else s)
              && l'.out == []
  {
    SendReplyIs(ReplyNoted(l, m), m.messageId, CloseReply(0));
    hide SendReply, Remove, Key, Unregistered;
  }

  lemma CloseReceivedKept(i: nat, c: Conn, x: Side, l: Local)
    requires ConnInv(i, c) && Channel(c, x) != [] && l.s == Sess(c, x) && l.out == []
    requires IsClose(Channel(c, x)[0].body)
    ensures var l' := Received(l, Channel(c, x)[0]);
            ConnInv(i, Put(c, x, l'.s, Channel(c, x)[1..], l'.out))
  {
    hide ConnInv, Received, Put, Balanced, Travels;
    HeadOf(i, c, x);
    hide Sess, Channel;
    CloseReceivedIs(l, Channel(c, x)[0]);
    if Channel(c, x)[0].body.CloseStart? {
      CloseStartKept(i, c, x);
    } else {
      CloseReplyKept(i, c, x);
    }
  }

  lemma OtherReceivedKept(i: nat, c: Conn, x: Side, l: Local)
    requires ConnInv(i, c) && Channel(c, x) != [] && l.s == Sess(c, x) && l.out == []
    requires !IsInit(Channel(c, x)[0].body) && !IsClose(Channel(c, x)[0].body)
    ensures var l' := Received(l, Channel(c, x)[0]);
            ConnInv(i, Put(c, x, l'.s, Channel(c, x)[1..], l'.out))
  {
    hide ConnInv, Remove, Key, SendReply;
    var m, b := Channel(c, x)[0], Channel(c, x)[0].body;
    if b.HeartbeatStart? {
      SendReplyIs(l, m.messageId, HeartbeatReply);
      ReplyKept(i, c, x, HeartbeatReply);
    } else if b.Stream? && b.replyExpected {
      SendReplyIs(l.(s := Hearing(l.s, m)), m.messageId, StreamReply);
      ReplyKept(i, c, x, StreamReply);
    } else if b.Data? && b.packet.Single? {
      SendReplyIs(l, m.messageId, SingleReply);
      ReplyKept(i, c, x, SingleReply);
    } else {
      SkipKept(i, c, x);
    }
  }

  lemma ReceivedKept(i: nat, c: Conn, x: Side, l: Local)
    requires ConnInv(i, c) && Channel(c, x) != [] && l.s == Sess(c, x) && l.out == []
    requires Channel(c, x)[0].body.InitStart? ==> l.host.idCounter + 1 < ID_WRAP
    ensures var l' := Received(l, Channel(c, x)[0]);
            ConnInv(i, Put(c, x, l'.s, Channel(c, x)[1..], l'.out))
  {
    if IsInit(Channel(c, x)[0].body) {
      InitHead(i, c, x);
      hide ConnInv, Received;
      InitReceivedKept(i, c, x, l);
    } else {
      hide ConnInv, Received;
      if IsClose(Channel(c, x)[0].body) {
        CloseReceivedKept(i, c, x, l);
      } else {
        OtherReceivedKept(i, c, x, l);
      }
    }
  }

  // ---- the registry ----

  ghost function Sessions(conns: seq<Conn>, x: Side): (ss: seq<SessionView>)
    ensures |ss| == |conns|
  {
    seq(|conns|, i requires 0 <= i < |conns| => Sess(conns[i], x))
  }

  /** Connected, or forgotten in the registry by a disconnect that went round endSession. */
  predicate Listed(s: SessionView) { !s.state.NotConnected? || s.dropped == 1 }

  /** Every key is the id stored in the session it leads to, and every listed session is found under its id. */
  ghost predicate RegistryOk(registry: map<u32, nat>, ss: seq<SessionView>) {
    && (forall id :: id in registry ==>
          registry[id] < |ss| && Listed(ss[registry[id]]) && ss[registry[id]].sessionId == id)
    && (forall i :: 0 <= i < |ss| && Listed(ss[i]) ==>
          ss[i].sessionId in registry && registry[ss[i].sessionId] == i)
  }

  /** The low half of every id a connection uses is its own temporary client id. */
  ghost predicate IdsFit(ss: seq<SessionView>) {
    && (forall i :: 0 <= i < |ss| && Listed(ss[i]) ==> ss[i].sessionId % ID_WRAP == i + 1)
    && (forall i, k :: 0 <= i < |ss| && 0 <= k < |ss[i].log| ==>
          ss[i].log[k].sessionId % ID_WRAP == i + 1 && ss[i].log[k].messageId == k + 1)
  }

  lemma ConnIdsFit(i: nat, c: Conn, x: Side)
    requires ConnInv(i, c)
    ensures Listed(Sess(c, x)) ==> Sess(c, x).sessionId % ID_WRAP == i + 1
    ensures forall k :: 0 <= k < |Sess(c, x).log| ==>
              Sess(c, x).log[k].sessionId % ID_WRAP == i + 1 && Sess(c, x).log[k].messageId == k + 1
  {
    hide OneWay;
    forall k | 0 <= k < |Sess(c, x).log|
      ensures Sess(c, x).log[k].sessionId % ID_WRAP == i + 1 && Sess(c, x).log[k].messageId == k + 1
    {
      assert LogEntry(x, Sess(c, x), c.server.sessionId, k);
    }
  }

  lemma AllIdsFit(conns: seq<Conn>, x: Side)
    requires forall i :: 0 <= i < |conns| ==> ConnInv(i, conns[i])
    ensures IdsFit(Sessions(conns, x))
  {
    hide ConnInv;
    forall i | 0 <= i < |conns|
      ensures Listed(Sess(conns[i], x)) ==> Sess(conns[i], x).sessionId % ID_WRAP == i + 1
      ensures forall k :: 0 <= k < |Sess(conns[i], x).log| ==>
                Sess(conns[i], x).log[k].sessionId % ID_WRAP == i + 1 && Sess(conns[i], x).log[k].messageId == k + 1
    {
      ConnIdsFit(i, conns[i], x);
    }
  }

  /** What the registry must look like after session i changed from s to s'. */
  function Relisted(registry: map<u32, nat>, i: nat, s: SessionView, s': SessionView): map<u32, nat> {
    var without := if Listed(s) then registry - {s.sessionId} else registry;
    if Listed(s') then without[s'.sessionId := i] else without
  }

  lemma RegistryStep(registry: map<u32, nat>, ss: seq<SessionView>, i: nat, s': SessionView)
    requires RegistryOk(registry, ss) && i < |ss| && IdsFit(ss) && IdsFit(ss[i := s'])
    ensures RegistryOk(Relisted(registry, i, ss[i], s'), ss[i := s'])
  {
    var registry', ss' := Relisted(registry, i, ss[i], s'), ss[i := s'];
    hide Listed;
    forall id | id in registry'
      ensures registry'[id] < |ss'| && Listed(ss'[registry'[id]]) && ss'[registry'[id]].sessionId == id
    {
      if !(Listed(s') && id == s'.sessionId) {
        assert id in registry && registry[id] != i;
      }
    }
    forall j | 0 <= j < |ss'| && Listed(ss'[j])
      ensures ss'[j].sessionId in registry' && registry'[ss'[j].sessionId] == j
    {
      if j != i {
        assert ss'[j] == ss[j];
        assert Listed(ss[i]) ==> ss[i].sessionId % ID_WRAP == i + 1;
        assert ss'[i] == s' && (Listed(s') ==> s'.sessionId % ID_WRAP == i + 1);
      }
    }
  }

  // ---- the pending list ----

  /** The keys of everything sent by the sessions of one process, and of what they sent with the reply flag. */
  ghost function AllKeys(ss: seq<SessionView>): set<u64> {
    set i, k | 0 <= i < |ss| && 0 <= k < |ss[i].log| :: KeyOf(ss[i].log[k])
  }

  ghost function Awaited(ss: seq<SessionView>): set<u64> {
    set i, k | 0 <= i < |ss| && 0 <= k < |ss[i].log| && WantsReply(ss[i].log[k].body) :: KeyOf(ss[i].log[k])
  }

  ghost predicate PendingOk(p: Process, ss: seq<SessionView>) {
    && Distinct(p.host.pending) && InTime(p.host.pending)
    && Ids(p.host.pending) == Awaited(ss) - p.answered - p.expired
    && p.answered <= AllKeys(ss) && p.expired <= AllKeys(ss)
  }

  /** A new message of session i comes with a key never used before in its process. */
  lemma FreshKey(ss: seq<SessionView>, i: nat, m: Message)
    requires IdsFit(ss) && i < |ss| && m.sessionId % ID_WRAP == i + 1 && m.messageId == |ss[i].log| + 1
    ensures KeyOf(m) !in AllKeys(ss)
  {
    hide Key;
    if KeyOf(m) in AllKeys(ss) {
      var j, k :| 0 <= j < |ss| && 0 <= k < |ss[j].log| && KeyOf(ss[j].log[k]) == KeyOf(m);
      KeyInjective(m.sessionId, m.messageId, ss[j].log[k].sessionId, ss[j].log[k].messageId);
    }
  }

  lemma KeysLogged(ss: seq<SessionView>, i: nat, s': SessionView, m: Message)
    requires i < |ss| && s'.log == ss[i].log + [m]
    ensures AllKeys(ss[i := s']) == AllKeys(ss) + {KeyOf(m)}
    ensures Awaited(ss[i := s']) == Awaited(ss) + if WantsReply(m.body) then {KeyOf(m)} else {}
  {
    hide KeyOf, WantsReply;
    var ss' := ss[i := s'];
    assert forall j :: 0 <= j < |ss| && j != i ==> ss'[j] == ss[j];
    assert forall k :: 0 <= k < |ss[i].log| ==> s'.log[k] == ss[i].log[k];
    assert s'.log[|ss[i].log|] == m;
    assert KeyOf(m) in AllKeys(ss') by { assert ss'[i].log[|ss[i].log|] == m; }
    assert WantsReply(m.body) ==> KeyOf(m) in Awaited(ss') by { assert ss'[i].log[|ss[i].log|] == m; }
    forall j, k | 0 <= j < |ss| && 0 <= k < |ss[j].log|
      ensures KeyOf(ss[j].log[k]) in AllKeys(ss')
      ensures WantsReply(ss[j].log[k].body) ==> KeyOf(ss[j].log[k]) in Awaited(ss')
    {
      assert ss'[j].log[k] == ss[j].log[k];
    }
  }

  lemma KeysSame(ss: seq<SessionView>, i: nat, s': SessionView)
    requires i < |ss| && s'.log == ss[i].log
    ensures AllKeys(ss[i := s']) == AllKeys(ss) && Awaited(ss[i := s']) == Awaited(ss)
  {
    hide KeyOf, WantsReply;
    var ss' := ss[i := s'];
    assert forall j :: 0 <= j < |ss| ==> ss'[j].log == ss[j].log;
  }

  lemma PendingAdded(p: Process, ss: seq<SessionView>, i: nat, s': SessionView, m: Message, p': Process)
    requires PendingOk(p, ss) && IdsFit(ss) && i < |ss| && s'.log == ss[i].log + [m]
    requires m.sessionId % ID_WRAP == i + 1 && m.messageId == |ss[i].log| + 1
    requires p'.answered == p.answered && p'.expired == p.expired
    requires p'.host.pending == if WantsReply(m.body)
                                then Added(p.host.pending, Type(m.body), m.sessionId, m.messageId, i)
                                else p.host.pending
    ensures PendingOk(p', ss[i := s'])
  {
    FreshKey(ss, i, m);
    KeysLogged(ss, i, s', m);
    hide AllKeys, Awaited, WantsReply, Key, Ids;
    var e := Item(Key(m.sessionId, m.messageId), Pending(0.0, Type(m.body), i, false));
    assert KeyOf(m) !in Awaited(ss) by { AwaitedSent(ss); }
    if WantsReply(m.body) {
      AddIds(p.host.pending, e);
    }
  }

  lemma AwaitedSent(ss: seq<SessionView>)
    ensures Awaited(ss) <= AllKeys(ss)
  {
    hide KeyOf, WantsReply;
  }

  lemma PendingAnswered(p: Process, ss: seq<SessionView>, key: u64, p': Process)
    requires PendingOk(p, ss) && key in AllKeys(ss)
    requires p'.answered == p.answered + {key} && p'.expired == p.expired
    requires p'.host.pending == Remove(p.host.pending, key)
    ensures PendingOk(p', ss)
  {
    RemoveRefines(p.host.pending, key);
    RemovedTimers(p.host.pending, key);
    hide AllKeys, Awaited, InTime, Ids, Remove, Distinct;
  }

  lemma PendingTicked(p: Process, ss: seq<SessionView>)
    requires PendingOk(p, ss)
    ensures PendingOk(Ticked(p), ss)
  {
    StepKeeps(p.host.pending);
    AwaitedSent(ss);
    hide AllKeys, Awaited, InTime, Ids, PendingReplies.Step, Distinct;
  }

  lemma PendingMarked(p: Process, ss: seq<SessionView>, id: u32)
    requires PendingOk(p, ss)
    ensures PendingOk(p.(host := p.host.(pending := MarkSession(p.host.pending, id))), ss)
  {
    MarkRefines(p.host.pending, id);
    hide AllKeys, Awaited, Ids, Distinct;
  }

  // ---- the whole system ----

  ghost predicate SideOk(p: Process, ss: seq<SessionView>) {
    RegistryOk(p.host.registry, ss) && PendingOk(p, ss)
  }

  /** Server ids are handed out once. */
  ghost predicate ServerIds(idCounter: u16, ss: seq<SessionView>) {
    && (forall i :: 0 <= i < |ss| && ss[i].created == 1 ==> 1 <= ss[i].sessionId / ID_WRAP <= idCounter)
    && (forall i, j :: 0 <= i < j < |ss| && ss[i].created == 1 && ss[j].created == 1 ==>
          ss[i].sessionId / ID_WRAP != ss[j].sessionId / ID_WRAP)
  }

  ghost predicate Inv(sys: System) {
    && (forall i :: 0 <= i < |sys.conns| ==> ConnInv(i, sys.conns[i]))
    && SideOk(sys.client, Sessions(sys.conns, Client)) && SideOk(sys.server, Sessions(sys.conns, Server))
    && sys.client.host.idCounter == |sys.conns|
    && ServerIds(sys.server.host.idCounter, Sessions(sys.conns, Server))
  }

  lemma SessionsPut(conns: seq<Conn>, i: nat, c': Conn, x: Side)
    requires i < |conns|
    ensures Sessions(conns[i := c'], x) == Sessions(conns, x)[i := Sess(c', x)]
  {
  }

  /** A step of session i on side x keeps the invariant if it keeps its parts. */
  lemma Assembled(sys: System, x: Side, i: nat, c': Conn, p': Process)
    requires Inv(sys) && i < |sys.conns| && ConnInv(i, c') && Sess(c', Other(x)) == Sess(sys.conns[i], Other(x))
    requires SideOk(p', Sessions(sys.conns, x)[i := Sess(c', x)])
    requires x.Client? ==> p'.host.idCounter == sys.client.host.idCounter
    requires x.Server? ==> ServerIds(p'.host.idCounter, Sessions(sys.conns, x)[i := Sess(c', x)])
    ensures Inv(WithProc(sys, x, p').(conns := sys.conns[i := c']))
  {
    hide ConnInv, SideOk, ServerIds, Sessions;
    SessionsPut(sys.conns, i, c', x);
    SessionsPut(sys.conns, i, c', Other(x));
    var ss := Sessions(sys.conns, Other(x));
    assert ss[i] == Sess(sys.conns[i], Other(x)) by { SessionsAt(sys.conns, i, Other(x)); }
    assert ss[i := ss[i]] == ss;
  }

  lemma SessionsAt(conns: seq<Conn>, i: nat, x: Side)
    requires i < |conns|
    ensures Sessions(conns, x)[i] == Sess(conns[i], x)
  {
  }

  lemma ServerIdsSame(idCounter: u16, ss: seq<SessionView>, i: nat, s': SessionView)
    requires ServerIds(idCounter, ss) && i < |ss|
    requires s'.created == ss[i].created && s'.sessionId == ss[i].sessionId
    ensures ServerIds(idCounter, ss[i := s'])
  {
  }

  lemma ServerIdsNew(idCounter: u16, ss: seq<SessionView>, i: nat, s': SessionView)
    requires ServerIds(idCounter, ss) && i < |ss| && idCounter + 1 < ID_WRAP
    requires s'.sessionId / ID_WRAP == idCounter + 1
    ensures ServerIds(idCounter + 1, ss[i := s'])
  {
  }

  // ---- the registry, operation by operation ----

  /** Nobody else is registered under an id of connection i; 0 never is. */
  lemma IdTaken(registry: map<u32, nat>, ss: seq<SessionView>, i: nat, id: u32)
    requires RegistryOk(registry, ss) && IdsFit(ss) && i < |ss| && id in registry
    ensures id != 0
    ensures id % ID_WRAP == i + 1 ==> registry[id] == i && Listed(ss[i]) && ss[i].sessionId == id
  {
    hide Listed;
    var j := registry[id];
    assert Listed(ss[j]) && ss[j].sessionId == id;
  }

  lemma RegistrySame(registry: map<u32, nat>, ss: seq<SessionView>, i: nat, s': SessionView)
    requires RegistryOk(registry, ss) && i < |ss|
    requires Listed(s') == Listed(ss[i]) && s'.sessionId == ss[i].sessionId
    ensures RegistryOk(registry, ss[i := s'])
  {
    hide Listed;
  }

  lemma RegistryLeft(registry: map<u32, nat>, ss: seq<SessionView>, i: nat, s': SessionView)
    requires RegistryOk(registry, ss) && i < |ss| && IdsFit(ss) && IdsFit(ss[i := s'])
    requires Listed(ss[i]) && !Listed(s')
    ensures RegistryOk(registry - {ss[i].sessionId}, ss[i := s'])
  {
    hide RegistryOk, IdsFit, Listed;
    RegistryStep(registry, ss, i, s');
  }

  /** The id of session i changes, or it gets its first one. */
  lemma RegistryMoved(h: Host, ss: seq<SessionView>, i: nat, s': SessionView)
    requires RegistryOk(h.registry, ss) && i < |ss| && IdsFit(ss) && IdsFit(ss[i := s'])
    requires Listed(s') && s'.sessionId % ID_WRAP == i + 1 && (Listed(ss[i]) ==> ss[i].sessionId != s'.sessionId)
    ensures var h' := if Listed(ss[i]) then Unregistered(h, ss[i].sessionId) else h;
            RegistryOk(Registered(h', s'.sessionId, i).registry, ss[i := s'])
  {
    if s'.sessionId in h.registry {
      IdTaken(h.registry, ss, i, s'.sessionId);
      assert false;
    }
    hide RegistryOk, IdsFit, Listed;
    RegistryStep(h.registry, ss, i, s');
  }

  // ---- a frame is handled ----

  lemma ReplySentOnly(l: Local, m: Message)
    requires IsReply(m.body) && !WantsReply(m.body)
    ensures SendMessage(l, m).host == l.host && SendMessage(l, m).s == l.s
  {
  }

  /** Handling a frame touches the pending list only to strike out what a reply answers, and logs nothing. */
  lemma DispatchedPending(l: Local, m: Message)
    ensures var l' := Dispatched(l, m);
            && l'.host.pending == l.host.pending && l'.s.log == l.s.log
            && l'.host.idCounter == (if m.body.InitStart? then Increased16(l.host.idCounter) else l.host.idCounter)
  {
    hide SendMessage, CompleteId;
    match m.body
    case InitStart(c, name) =>
      var k := Increased16(l.host.idCounter);
      var id := CompleteId(c, k);
      var l1 := l.(host := Registered(l.host.(idCounter := k), id, l.self));
      ReplySentOnly(MadeReady(Connected(l1, id), id, name), Message(c, m.messageId, InitReply(c, id, name)));
    case InitReply(_, _, _) =>
    case CloseStart(_, _) => ReplySentOnly(l, Message(l.s.sessionId, m.messageId, CloseReply(0)));
    case CloseReply(_) =>
    case HeartbeatStart => ReplySentOnly(l, Message(l.s.sessionId, m.messageId, HeartbeatReply));
    case Stream(_, _) => ReplySentOnly(l.(s := Hearing(l.s, m)), Message(l.s.sessionId, m.messageId, StreamReply));
    case Data(_) => ReplySentOnly(l, Message(l.s.sessionId, m.messageId, SingleReply));
    case _ =>
  }

  lemma ReceivedPending(l: Local, m: Message)
    ensures var l' := Received(l, m);
            && l'.host.pending == (if IsReply(m.body) then Remove(l.host.pending, KeyOf(m)) else l.host.pending)
            && l'.s.log == l.s.log
            && l'.host.idCounter == (if m.body.InitStart? then Increased16(l.host.idCounter) else l.host.idCounter)
  {
    DispatchedPending(ReplyNoted(l, m), m);
    hide Remove, Key, Dispatched;
  }

  lemma InitStartRegisters(i: nat, l: Local, name: seq<byte>)
    requires i + 1 < ID_WRAP
    ensures Received(l, InitStartOf(i, name)).host.registry
         == Registered(l.host, CompleteId(i + 1, Increased16(l.host.idCounter)), l.self).registry
  {
    hide CompleteId, Remove, Key, Added;
  }

  lemma InitReplyRegisters(i: nat, c: Conn, l: Local)
    requires i + 1 < ID_WRAP
    ensures Received(l, InitReplyOf(i, c)).host.registry
         == Registered(Unregistered(l.host, i + 1), c.server.sessionId, l.self).registry
  {
    hide Remove, Key;
  }

  lemma InitRegistry(i: nat, c: Conn, x: Side, l: Local, ss: seq<SessionView>)
    requires ConnInv(i, c) && Channel(c, x) != [] && IsInit(Channel(c, x)[0].body)
    requires l.self == i && l.s == Sess(c, x) && l.out == [] && i < |ss| && ss[i] == l.s
    requires RegistryOk(l.host.registry, ss) && IdsFit(ss) && IdsFit(ss[i := Received(l, Channel(c, x)[0]).s])
    ensures RegistryOk(Received(l, Channel(c, x)[0]).host.registry, ss[i := Received(l, Channel(c, x)[0]).s])
  {
    hide RegistryOk, CompleteId, Received, SessionOk, OneWay, Registered, Unregistered;
    InitHead(i, c, x);
    assert Handshake(i, c);
    hide ConnInv;
    var l' := Received(l, Channel(c, x)[0]);
    if x.Server? {
      InitStartReceivedIs(i, l, c.name);
      InitStartRegisters(i, l, c.name);
    } else {
      InitReplyReceivedIs(i, c, l);
      InitReplyRegisters(i, c, l);
    }
    hide Handshake;
    assert ss[i := l'.s][i] == l'.s;
    RegistryMoved(l.host, ss, i, l'.s);
  }

  lemma CloseRegistry(i: nat, l: Local, m: Message, ss: seq<SessionView>)
    requires IsClose(m.body) && m.body.closingId == 0 && !l.s.state.SessionNotReady?
    requires l.s.created == 1 && Balanced(l.s)
    requires l.out == [] && i < |ss| && ss[i] == l.s
    requires RegistryOk(l.host.registry, ss) && IdsFit(ss) && IdsFit(ss[i := Received(l, m).s])
    ensures RegistryOk(Received(l, m).host.registry, ss[i := Received(l, m).s])
  {
    hide RegistryOk, IdsFit, Received;
    CloseReceivedIs(l, m);
    CloseUnregisters(l, m);
    if 0 in l.host.registry {
      IdTaken(l.host.registry, ss, i, 0);
    }
    assert l.host.registry - {0} == l.host.registry;
    if m.body.CloseStart? && l.s.state.SessionReady? {
      RegistryLeft(l.host.registry, ss, i, Received(l, m).s);
    } else {
      assert l.host.registry - {0} - {} == l.host.registry;
      RegistrySame(l.host.registry, ss, i, Received(l, m).s);
    }
  }

  lemma CloseHead(i: nat, c: Conn, x: Side)
    requires ConnInv(i, c) && Channel(c, x) != [] && IsClose(Channel(c, x)[0].body)
    ensures Channel(c, x)[0].body.closingId == 0 && Balanced(Sess(c, x))
    ensures Sess(c, x).created == 1 && !Sess(c, x).state.SessionNotReady?
  {
    HeadOf(i, c, x);
    assert SessionOk(x, Sess(c, x), c.server.sessionId);
    hide ConnInv, SessionOk;
  }

  lemma CloseUnregisters(l: Local, m: Message)
    requires IsClose(m.body) && m.body.closingId == 0
    ensures Received(l, m).host.registry
         == l.host.registry - {0} - if m.body.CloseStart? && l.s.state.SessionReady? then {l.s.sessionId} else {}
  {
    hide Remove, Key, Added;
    assert l.host.registry - {0} - {} == l.host.registry - {0};
  }

  lemma OtherRegistry(l: Local, m: Message)
    requires !IsClose(m.body) && !IsInit(m.body)
    ensures Received(l, m).host.registry == l.host.registry
    ensures Received(l, m).s == Hearing(l.s, m)
  {
    hide Remove, Key, Added;
  }

  lemma DeliverRegistry(i: nat, c: Conn, x: Side, l: Local, ss: seq<SessionView>)
    requires ConnInv(i, c) && Channel(c, x) != []
    requires l.self == i && l.s == Sess(c, x) && l.out == [] && i < |ss| && ss[i] == l.s
    requires RegistryOk(l.host.registry, ss) && IdsFit(ss) && IdsFit(ss[i := Received(l, Channel(c, x)[0]).s])
    ensures RegistryOk(Received(l, Channel(c, x)[0]).host.registry, ss[i := Received(l, Channel(c, x)[0]).s])
  {
    hide ConnInv, RegistryOk, IdsFit, Received;
    if IsInit(Channel(c, x)[0].body) {
      InitRegistry(i, c, x, l, ss);
    } else if IsClose(Channel(c, x)[0].body) {
      CloseHead(i, c, x);
      CloseRegistry(i, l, Channel(c, x)[0], ss);
    } else {
      OtherRegistry(l, Channel(c, x)[0]);
      RegistrySame(l.host.registry, ss, i, Hearing(l.s, Channel(c, x)[0]));
    }
  }

  /** A reply on its way to a session answers a message of that session: its key has been used there. */
  lemma ReplyKeyKnown(i: nat, c: Conn, x: Side, ss: seq<SessionView>)
    requires ConnInv(i, c) && Channel(c, x) != [] && IsReply(Channel(c, x)[0].body)
    requires i < |ss| && ss[i] == Sess(c, x)
    ensures KeyOf(Channel(c, x)[0]) in AllKeys(ss)
  {
    hide Key;
    var m := Channel(c, x)[0];
    FlowTail(Sess(c, Other(x)), Sess(c, x), Channel(c, x));
    assert KeyOf(ss[i].log[m.messageId - 1]) == KeyOf(m);
  }

  lemma PendingSame(p: Process, ss: seq<SessionView>, i: nat, s': SessionView, p': Process)
    requires PendingOk(p, ss) && i < |ss| && s'.log == ss[i].log
    requires p'.host.pending == p.host.pending && p'.answered == p.answered && p'.expired == p.expired
    ensures PendingOk(p', ss[i := s'])
  {
    KeysSame(ss, i, s');
    hide AllKeys, Awaited;
  }

  function ProcessAfter(p: Process, h: Host, m: Message): Process {
    Process(h, if IsReply(m.body) then p.answered + {KeyOf(m)} else p.answered, p.expired)
  }

  lemma DeliverPending(i: nat, c: Conn, x: Side, p: Process, l: Local, ss: seq<SessionView>)
    requires ConnInv(i, c) && Channel(c, x) != []
    requires l.s == Sess(c, x) && l.host == p.host && i < |ss| && ss[i] == l.s && PendingOk(p, ss)
    ensures var m := Channel(c, x)[0];
            var l' := Received(l, m);
            PendingOk(ProcessAfter(p, l'.host, m), ss[i := l'.s])
  {
    hide PendingOk, Received, ConnInv;
    var m := Channel(c, x)[0];
    var l' := Received(l, m);
    ReceivedPending(l, m);
    if IsReply(m.body) {
      ReplyKeyKnown(i, c, x, ss);
      var p1 := p.(host := p.host.(pending := l'.host.pending), answered := p.answered + {KeyOf(m)});
      PendingAnswered(p, ss, KeyOf(m), p1);
      PendingSame(p1, ss, i, l'.s, ProcessAfter(p, l'.host, m));
    } else {
      PendingSame(p, ss, i, l'.s, ProcessAfter(p, l'.host, m));
    }
  }

  lemma DeliverServerIds(i: nat, c: Conn, l: Local, ss: seq<SessionView>)
    requires ConnInv(i, c) && c.toServer != [] && l.s == c.server && i < |ss| && ss[i] == l.s && l.out == []
    requires ServerIds(l.host.idCounter, ss) && (c.toServer[0].body.InitStart? ==> l.host.idCounter + 1 < ID_WRAP)
    ensures var l' := Received(l, c.toServer[0]); ServerIds(l'.host.idCounter, ss[i := l'.s])
  {
    hide ServerIds, Received, ConnInv;
    var m := c.toServer[0];
    ReceivedPending(l, m);
    if IsInit(m.body) {
      InitHead(i, c, Server);
      InitStartReceivedKept(i, c, l);
      var k: u16 := l.host.idCounter + 1;
      assert i + 1 < ID_WRAP by { assert Handshake(i, c) by { ConnHandshake(i, c); } }
      UpperHalf(i + 1, k);
      ServerIdsNew(l.host.idCounter, ss, i, Received(l, m).s);
    } else {
      if IsClose(m.body) {
        HeadOf(i, c, Server);
        CloseReceivedIs(l, m);
      } else {
        OtherRegistry(l, m);
      }
      ServerIdsSame(l.host.idCounter, ss, i, Received(l, m).s);
    }
  }

  lemma ConnHandshake(i: nat, c: Conn)
    requires ConnInv(i, c)
    ensures Handshake(i, c)
  {
  }

  lemma UpperHalf(c: u16, k: u16)
    ensures CompleteId(c, k) / ID_WRAP == k
  {
  }

  lemma IdsFitPut(sys: System, x: Side, i: nat, c': Conn)
    requires Inv(sys) && i < |sys.conns| && ConnInv(i, c')
    ensures IdsFit(Sessions(sys.conns, x)) && IdsFit(Sessions(sys.conns, x)[i := Sess(c', x)])
  {
    hide ConnInv, SideOk, ServerIds, IdsFit, Sessions;
    AllIdsFit(sys.conns, x);
    AllIdsFit(sys.conns[i := c'], x);
    SessionsPut(sys.conns, i, c', x);
  }

  lemma PutSess(c: Conn, x: Side, s: SessionView, inbox: seq<Message>, out: seq<Message>)
    ensures Sess(Put(c, x, s, inbox, out), x) == s
    ensures Sess(Put(c, x, s, inbox, out), Other(x)) == Sess(c, Other(x))
  {
  }

  lemma DeliverKeeps(sys: System, x: Side, i: nat)
    requires Inv(sys) && Enabled(sys, Deliver(x, i))
    ensures Inv(Delivered(sys, x, i))
  {
    hide ConnInv, SideOk, ServerIds, Sessions, Received, PendingOk, RegistryOk, IdsFit, Put, Sess;
    var c, p, ss, l := sys.conns[i], Proc(sys, x), Sessions(sys.conns, x), LocalOf(sys, x, i);
    var m := Channel(c, x)[0];
    var l' := Received(l, m);
    var c' := Put(c, x, l'.s, Channel(c, x)[1..], l'.out);
    ReceivedKept(i, c, x, l);
    PutSess(c, x, l'.s, Channel(c, x)[1..], l'.out);
    IdsFitPut(sys, x, i, c');
    SessionsAt(sys.conns, i, x);
    SideParts(p, ss);
    DeliverRegistry(i, c, x, l, ss);
    DeliverPending(i, c, x, p, l, ss);
    SideWhole(ProcessAfter(p, l'.host, m), ss[i := l'.s]);
    ReceivedPending(l, m);
    if x.Server? {
      assert l.s == c.server by { ServerSess(c); }
      DeliverServerIds(i, c, l, ss);
    } else {
      ClientGetsNoStart(i, c);
    }
    Assembled(sys, x, i, c', ProcessAfter(p, l'.host, m));
  }

  lemma ServerSess(c: Conn)
    ensures Sess(c, Server) == c.server
  {
  }

  lemma ClientGetsNoStart(i: nat, c: Conn)
    requires ConnInv(i, c) && c.toClient != []
    ensures !c.toClient[0].body.InitStart?
  {
    if IsInit(c.toClient[0].body) {
      InitHead(i, c, Client);
    }
  }

  lemma SideParts(p: Process, ss: seq<SessionView>)
    requires SideOk(p, ss)
    ensures RegistryOk(p.host.registry, ss) && PendingOk(p, ss)
  {
  }

  lemma SideWhole(p: Process, ss: seq<SessionView>)
    requires RegistryOk(p.host.registry, ss) && PendingOk(p, ss)
    ensures SideOk(p, ss)
  {
  }

  // ---- a session sends, closes, starts ----

  lemma ReadyFacts(i: nat, c: Conn, x: Side)
    requires ConnInv(i, c)
    ensures var s := Sess(c, x);
            && s.counter == |s.log| && Balanced(s) && s.initState == s.created <= 1
            && (s.created == 1 ==> s.sessionId % ID_WRAP == i + 1 && !s.state.SessionNotReady?)
            && (s.state.SessionReady? ==> s.created == 1 && s.open && s.dropped == 0)
  {
    assert SessionOk(x, Sess(c, x), c.server.sessionId);
    hide OneWay;
  }

  lemma SendNewIs(l: Local, body: Body)
    requires CanSend(l.s) && !IsReply(body) && l.out == []
    ensures var s' := Logged(l.s, body);
            var m := s'.log[|l.s.log|];
            && m == Message(l.s.sessionId, l.s.counter + 1, body)
            && SendNew(l, body)
               == Local(l.self, s',
                        l.host.(pending := if WantsReply(body)
                                           then Added(l.host.pending, Type(body), m.sessionId, m.messageId, l.self)
                                           else l.host.pending),
                        if l.s.open then [m] else [])
  {
    hide Added, WantsReply, Type;
  }

  lemma MessageSide(p: Process, ss: seq<SessionView>, i: nat, body: Body, s': SessionView, h': Host)
    requires SideOk(p, ss) && IdsFit(ss) && i < |ss| && CanSend(ss[i]) && !IsReply(body)
    requires ss[i].counter == |ss[i].log| && ss[i].sessionId % ID_WRAP == i + 1
    requires s'.log == Logged(ss[i], body).log
    requires var l := SendNew(Local(i, ss[i], p.host, []), body);
             h'.pending == l.host.pending && RegistryOk(h'.registry, ss[i := s'])
    ensures SideOk(p.(host := h'), ss[i := s'])
  {
    SendNewIs(Local(i, ss[i], p.host, []), body);
    hide IdsFit, RegistryOk, PendingOk, SendNew;
    PendingAdded(p, ss, i, s', Message(ss[i].sessionId, ss[i].counter + 1, body), p.(host := h'));
  }

  lemma MessageKeeps(sys: System, x: Side, i: nat, body: Body)
    requires Inv(sys) && i < |sys.conns| && Sess(sys.conns[i], x).created == 1 && CanSend(Sess(sys.conns[i], x))
    requires !IsReply(body) && !IsInit(body) && (body.CloseStart? ==> body == CloseStart(0, true))
    ensures Inv(Updated(sys, x, i, SendNew(LocalOf(sys, x, i), body)))
  {
    hide ConnInv, ServerIds, Sessions, PendingOk, RegistryOk, IdsFit, Put, Sess, SendNew, IsReply, IsInit;
    var c, p, ss, l := sys.conns[i], Proc(sys, x), Sessions(sys.conns, x), LocalOf(sys, x, i);
    var l' := SendNew(l, body);
    var c' := Put(c, x, l'.s, Channel(c, x), l'.out);
    SendNewIs(l, body);
    ReadyFacts(i, c, x);
    MessageKept(i, c, x, body);
    PutSess(c, x, l'.s, Channel(c, x), l'.out);
    IdsFitPut(sys, x, i, c');
    SessionsAt(sys.conns, i, x);
    SideParts(p, ss);
    RegistrySame(p.host.registry, ss, i, l'.s);
    MessageSide(p, ss, i, body, l'.s, l'.host);
    hide SideOk;
    if x.Server? {
      ServerIdsSame(p.host.idCounter, ss, i, l'.s);
    }
    Assembled(sys, x, i, c', p.(host := l'.host));
  }

  /** A call whose guard fails changes nothing. */
  lemma NothingKeeps(sys: System, x: Side, i: nat)
    requires Inv(sys) && i < |sys.conns|
    ensures Inv(Updated(sys, x, i, LocalOf(sys, x, i)))
  {
    hide ConnInv, ServerIds, Sessions, SideOk;
    var c := sys.conns[i];
    assert c.toServer + [] == c.toServer && c.toClient + [] == c.toClient;
    assert sys.conns[i := c] == sys.conns;
  }

  function MarkedProc(p: Process, id: u32): Process {
    p.(host := p.host.(pending := MarkSession(p.host.pending, id)))
  }

  lemma MarkedKeeps(sys: System, x: Side, id: u32)
    requires Inv(sys)
    ensures Inv(WithProc(sys, x, MarkedProc(Proc(sys, x), id)))
  {
    hide ConnInv, ServerIds, Sessions, RegistryOk;
    PendingMarked(Proc(sys, x), Sessions(sys.conns, x), id);
    hide PendingOk, MarkSession;
  }

  lemma ClosedIs(l: Local)
    requires l.s.state.SessionReady? && CanSend(l.s) && l.s.open && l.out == []
    ensures var marked := l.(host := l.host.(pending := MarkSession(l.host.pending, l.s.sessionId)));
            var sent := SendNew(marked, CloseStart(0, false));
            && Closed(l, true) == SendNew(marked, CloseStart(0, true))
            && Closed(l, false) == Local(l.self, Gone(Logged(l.s, CloseStart(0, false))).(closed := l.s.closed + 1),
                                         Unregistered(sent.host, l.s.sessionId), sent.out)
  {
    var marked := l.(host := l.host.(pending := MarkSession(l.host.pending, l.s.sessionId)));
    SendNewIs(marked, CloseStart(0, false));
    hide MarkSession, SendNew;
  }

  lemma CloseKeeps(sys: System, x: Side, i: nat, replyExpected: bool)
    requires Inv(sys) && Enabled(sys, Close(x, i, replyExpected)) && Sess(sys.conns[i], x).state.SessionReady?
    ensures Inv(Updated(sys, x, i, Closed(LocalOf(sys, x, i), replyExpected)))
  {
    hide Inv, ConnInv, SendNew, MarkSession, Closed;
    var c, l := sys.conns[i], LocalOf(sys, x, i);
    assert ConnInv(i, c) by { InvConn(sys, i); }
    ReadyFacts(i, c, x);
    ClosedIs(l);
    var marked := WithProc(sys, x, MarkedProc(Proc(sys, x), l.s.sessionId));
    MarkedKeeps(sys, x, l.s.sessionId);
    if replyExpected {
      MessageKeeps(marked, x, i, CloseStart(0, true));
    } else {
      EndKeeps(marked, x, i);
    }
  }

  lemma InvConn(sys: System, i: nat)
    requires Inv(sys) && i < |sys.conns|
    ensures ConnInv(i, sys.conns[i])
  {
    hide ConnInv;
  }

  lemma EndKeeps(sys: System, x: Side, i: nat)
    requires Inv(sys) && i < |sys.conns| && CanSend(Sess(sys.conns[i], x)) && Sess(sys.conns[i], x).state.SessionReady?
    ensures var l := LocalOf(sys, x, i);
            var sent := SendNew(l, CloseStart(0, false));
            Inv(Updated(sys, x, i, Local(l.self, Gone(Logged(l.s, CloseStart(0, false))).(closed := l.s.closed + 1),
                                         Unregistered(sent.host, l.s.sessionId), sent.out)))
  {
    hide ConnInv, ServerIds, Sessions, PendingOk, RegistryOk, IdsFit, Put, Sess, SendNew;
    var c, p, ss, l := sys.conns[i], Proc(sys, x), Sessions(sys.conns, x), LocalOf(sys, x, i);
    var sent := SendNew(l, CloseStart(0, false));
    var s' := Gone(Logged(l.s, CloseStart(0, false))).(closed := l.s.closed + 1);
    var h' := Unregistered(sent.host, l.s.sessionId);
    var c' := Put(c, x, s', Channel(c, x), sent.out);
    SendNewIs(l, CloseStart(0, false));
    ReadyFacts(i, c, x);
    CloseKept(i, c, x);
    PutSess(c, x, s', Channel(c, x), sent.out);
    IdsFitPut(sys, x, i, c');
    SessionsAt(sys.conns, i, x);
    SideParts(p, ss);
    RegistryLeft(p.host.registry, ss, i, s');
    MessageSide(p, ss, i, CloseStart(0, false), s', h');
    hide SideOk;
    if x.Server? {
      ServerIdsSame(p.host.idCounter, ss, i, s');
    }
    Assembled(sys, x, i, c', p.(host := h'));
  }

  function FirstSession(i: nat, name: seq<byte>): SessionView
    requires i + 1 < ID_WRAP
  {
    SessionView(SessionNotReady, i + 1, [], 0, 1, true, 0, 0, 0, [InitStartOf(i, name)], [])
  }

  lemma StartedIs(i: nat, h: Host, name: seq<byte>)
    requires h.idCounter == i && i + 1 < ID_WRAP
    ensures var l := Started(Local(i, NEW_SESSION, h, []), name);
            && l.s == FirstSession(i, name) && l.out == [InitStartOf(i, name)]
            && l.host.registry == Registered(h, i + 1, i).registry && l.host.idCounter == i + 1
            && l.host.pending == Added(h.pending, Type(InitStart(i + 1, name)), i + 1, 1, i)
  {
    hide Added;
  }

  lemma NewcomerSide(p: Process, ss: seq<SessionView>)
    requires SideOk(p, ss) && IdsFit(ss)
    ensures SideOk(p, ss + [NEW_SESSION]) && IdsFit(ss + [NEW_SESSION])
  {
    var ss' := ss + [NEW_SESSION];
    assert ss'[|ss|] == NEW_SESSION;
    forall i | 0 <= i < |ss| ensures ss'[i] == ss[i] {
    }
    assert AllKeys(ss') == AllKeys(ss) && Awaited(ss') == Awaited(ss) by { NewcomerKeys(ss); }
    hide AllKeys, Awaited, Listed;
  }

  lemma NewcomerKeys(ss: seq<SessionView>)
    ensures AllKeys(ss + [NEW_SESSION]) == AllKeys(ss) && Awaited(ss + [NEW_SESSION]) == Awaited(ss)
  {
    hide KeyOf, WantsReply;
    var ss' := ss + [NEW_SESSION];
    assert ss'[|ss|].log == [];
    forall i | 0 <= i < |ss| ensures ss'[i] == ss[i] {
    }
  }

  lemma StartSide(p: Process, ss: seq<SessionView>, name: seq<byte>)
    requires SideOk(p, ss) && IdsFit(ss) && p.host.idCounter == |ss| && |ss| + 1 < ID_WRAP
    requires IdsFit(ss + [FirstSession(|ss|, name)])
    ensures var l := Started(Local(|ss|, NEW_SESSION, p.host, []), name);
            SideOk(p.(host := l.host), ss + [FirstSession(|ss|, name)])
  {
    var i, s' := |ss|, FirstSession(|ss|, name);
    var l := Started(Local(i, NEW_SESSION, p.host, []), name);
    var ss1 := ss + [NEW_SESSION];
    NewcomerSide(p, ss);
    StartedIs(i, p.host, name);
    SideParts(p, ss1);
    assert ss1[i := s'] == ss + [s'];
    hide SideOk, IdsFit, RegistryOk, PendingOk, Started, Added;
    RegistryMoved(p.host, ss1, i, s');
    PendingAdded(p, ss1, i, s', InitStartOf(i, name), p.(host := l.host));
    SideWhole(p.(host := l.host), ss + [s']);
  }

  lemma StartKeeps(max: nat, sys: System, name: seq<byte>)
    requires Inv(sys) && Enabled(sys, Start(name))
    ensures Inv(Step(max, sys, Start(name)))
  {
    var n := |sys.conns|;
    var c := Conn(FirstSession(n, name), NEW_SESSION, [], [InitStartOf(n, name)], name);
    var conns' := sys.conns + [c];
    StartKept(n, name);
    StartedIs(n, sys.client.host, name);
    hide ConnInv, SideOk, ServerIds, IdsFit, Started;
    AllIdsFit(sys.conns, Client);
    AllIdsFit(sys.conns, Server);
    AllIdsFit(conns', Client);
    assert Sessions(conns', Client) == Sessions(sys.conns, Client) + [c.client];
    assert Sessions(conns', Server) == Sessions(sys.conns, Server) + [NEW_SESSION];
    hide Sessions;
    StartSide(sys.client, Sessions(sys.conns, Client), name);
    NewcomerSide(sys.server, Sessions(sys.conns, Server));
    ServerIdsNewcomer(sys.server.host.idCounter, Sessions(sys.conns, Server));
  }

  lemma ServerIdsNewcomer(idCounter: u16, ss: seq<SessionView>)
    requires ServerIds(idCounter, ss)
    ensures ServerIds(idCounter, ss + [NEW_SESSION])
  {
    var ss' := ss + [NEW_SESSION];
    assert forall i :: 0 <= i < |ss| ==> ss'[i] == ss[i];
  }

  lemma TimerKeeps(sys: System, x: Side)
    requires Inv(sys)
    ensures Inv(WithProc(sys, x, Ticked(Proc(sys, x))))
  {
    hide ConnInv, ServerIds, Sessions, RegistryOk;
    PendingTicked(Proc(sys, x), Sessions(sys.conns, x));
    hide PendingOk, PendingReplies.Step;
  }

  /** Every step keeps the invariant of the whole system. */
  lemma {:induction false} StepKeepsInv(max: nat, sys: System, a: Action)
    requires Inv(sys) && Enabled(sys, a)
    ensures Inv(Step(max, sys, a))
  {
    hide Inv, ConnInv, Updated, Delivered, SendNew, Ticked, Started;
    match a
    case Start(name) => StartKeeps(max, sys, name);
    case Deliver(x, i) => DeliverKeeps(sys, x, i);
    case SendStream(x, i, payload, r) =>
      InvConn(sys, i);
      ReadyFacts(i, sys.conns[i], x);
      if |payload| <= max && Sess(sys.conns[i], x).state.SessionReady? {
        MessageKeeps(sys, x, i, Stream(payload, r));
      } else {
        NothingKeeps(sys, x, i);
      }
    case SendPacket(x, i, p) =>
      InvConn(sys, i);
      ReadyFacts(i, sys.conns[i], x);
      MessageKeeps(sys, x, i, Data(p));
    case Heartbeat(x, i) =>
      InvConn(sys, i);
      ReadyFacts(i, sys.conns[i], x);
      if Sess(sys.conns[i], x).state.SessionReady? {
        MessageKeeps(sys, x, i, HeartbeatStart);
      } else {
        NothingKeeps(sys, x, i);
      }
    case Close(x, i, r) =>
      if Sess(sys.conns[i], x).state.SessionReady? {
        CloseKeeps(sys, x, i, r);
      } else {
        NothingKeeps(sys, x, i);
      }
    case TimerStep(x) => TimerKeeps(sys, x);
  }

  // ---- runs ----

  ghost predicate CanRun(max: nat, sys: System, actions: seq<Action>)
    decreases |actions|
  {
    actions != [] ==> Enabled(sys, actions[0]) && CanRun(max, Step(max, sys, actions[0]), actions[1..])
  }

  function Run(max: nat, sys: System, actions: seq<Action>): System
    requires CanRun(max, sys, actions)
    decreases |actions|
  {
    if actions == [] then sys else Run(max, Step(max, sys, actions[0]), actions[1..])
  }

  lemma {:induction false} RunKeepsInv(max: nat, sys: System, actions: seq<Action>)
    requires Inv(sys) && CanRun(max, sys, actions)
    ensures Inv(Run(max, sys, actions))
    decreases |actions|
  {
    hide Inv, Step, Enabled;
    if actions != [] {
      StepKeepsInv(max, sys, actions[0]);
      RunKeepsInv(max, Step(max, sys, actions[0]), actions[1..]);
    }
  }

  lemma InitialInv()
    ensures Inv(INITIAL)
  {
  }

  // ---- what this means: handshake ----

  lemma Reached(max: nat, actions: seq<Action>)
    requires CanRun(max, INITIAL, actions)
    ensures Inv(Run(max, INITIAL, actions))
  {
    InitialInv();
    RunKeepsInv(max, INITIAL, actions);
  }

  lemma ListedIsRegistered(sys: System, x: Side, i: nat)
    requires Inv(sys) && i < |sys.conns|
    ensures var registry, s := Proc(sys, x).host.registry, Sess(sys.conns[i], x);
            && (Listed(s) ==> s.sessionId in registry && registry[s.sessionId] == i)
            && (!Listed(s) ==> forall id :: id in registry ==> registry[id] != i)
  {
    hide ConnInv, PendingOk, Listed, ServerIds;
    SessionsAt(sys.conns, i, x);
    hide Sessions;
  }

  /** Agreement: whoever is ready on the client side, its server session has become ready before, with the same
      id and the identifier startSession was called with; the id is composed of the two halves, and each side
      that is ready is registered under it. */
  lemma {:induction false} Agreement(max: nat, actions: seq<Action>, i: nat)
    requires CanRun(max, INITIAL, actions) && i < |Run(max, INITIAL, actions).conns|
    ensures var sys := Run(max, INITIAL, actions);
            var c, id := sys.conns[i], sys.conns[i].server.sessionId;
            && (c.client.state.SessionReady? ==>
                  && c.server.created == 1 && c.client.sessionId == id && c.client.initState == 1
                  && c.client.identifier == c.server.identifier == c.name
                  && id in sys.client.host.registry && sys.client.host.registry[id] == i)
            && (c.server.state.SessionReady? ==>
                  && c.server.created == 1 && c.server.identifier == c.name
                  && id in sys.server.host.registry && sys.server.host.registry[id] == i)
            && (c.server.created == 1 ==> id / ID_WRAP >= 1 && id == (i + 1) + id / ID_WRAP * ID_WRAP)
  {
    Reached(max, actions);
    var sys := Run(max, INITIAL, actions);
    hide Run, CanRun;
    InvConn(sys, i);
    ListedIsRegistered(sys, Client, i);
    ListedIsRegistered(sys, Server, i);
    ReadyFacts(i, sys.conns[i], Client);
    ReadyFacts(i, sys.conns[i], Server);
    hide Inv, SessionOk, OneWay;
  }

  /** The two sessions of connection i are ready under this id and name, registered on both sides, and nothing is
      under way between them. */
  predicate Linked(sys: System, i: nat, id: u32, name: seq<byte>) {
    && i < |sys.conns|
    && var c := sys.conns[i];
    && c.client.state.SessionReady? && c.server.state.SessionReady? && c.client.initState == 1
    && c.client.sessionId == c.server.sessionId == id && c.client.identifier == c.server.identifier == name
    && c.toClient == [] && c.toServer == []
    && id in sys.client.host.registry && sys.client.host.registry[id] == i
    && id in sys.server.host.registry && sys.server.host.registry[id] == i
  }

  /** And the handshake does complete: two deliveries after startSession both sides are ready and registered,
      under the id composed of the two numbers handed out, and the wait of startSession is over. */
  lemma {:induction false} HandshakeCompletes(max: nat, sys: System, name: seq<byte>)
    requires Inv(sys) && Enabled(sys, Start(name)) && sys.server.host.idCounter + 1 < ID_WRAP
    ensures var n, one := |sys.conns|, Step(max, sys, Start(name));
            && Enabled(one, Deliver(Server, n))
            && var two := Step(max, one, Deliver(Server, n));
            && Enabled(two, Deliver(Client, n))
            && var three := Step(max, two, Deliver(Client, n));
            && |three.conns| == n + 1
            && Linked(three, n, CompleteId(n + 1, sys.server.host.idCounter + 1), name)
  {
    hide Inv, ConnInv, Delivered, CompleteId, Started;
    var n, one := |sys.conns|, Step(max, sys, Start(name));
    StepKeepsInv(max, sys, Start(name));
    HandshakeStarts(max, sys, name);
    StepKeepsInv(max, one, Deliver(Server, n));
    HandshakeHeard(one, n, name);
    var two := Step(max, one, Deliver(Server, n));
    StepKeepsInv(max, two, Deliver(Client, n));
    HandshakeAnswered(two, n);
    var three := Step(max, two, Deliver(Client, n));
    ListedIsRegistered(three, Client, n);
    ListedIsRegistered(three, Server, n);
  }

  lemma HandshakeStarts(max: nat, sys: System, name: seq<byte>)
    requires Inv(sys) && Enabled(sys, Start(name))
    ensures var n, one := |sys.conns|, Step(max, sys, Start(name));
            && n + 1 < ID_WRAP && |one.conns| == n + 1 && one.server == sys.server
            && one.conns[n] == Conn(FirstSession(n, name), NEW_SESSION, [], [InitStartOf(n, name)], name)
  {
    StartedIs(|sys.conns|, sys.client.host, name);
    hide ConnInv, Started;
  }

  lemma HandshakeHeard(sys: System, n: nat, name: seq<byte>)
    requires n < |sys.conns| && n + 1 < ID_WRAP && sys.server.host.idCounter + 1 < ID_WRAP
    requires sys.conns[n] == Conn(FirstSession(n, name), NEW_SESSION, [], [InitStartOf(n, name)], name)
    ensures var two, id := Delivered(sys, Server, n), CompleteId(n + 1, sys.server.host.idCounter + 1);
            && |two.conns| == |sys.conns|
            && two.conns[n].client == FirstSession(n, name) && two.conns[n].server == ServerReady(n, id, name)
            && two.conns[n].toServer == [] && two.conns[n].name == name
            && two.conns[n].toClient == [InitReplyOf(n, two.conns[n])]
  {
    hide Received, CompleteId;
    InitStartReceivedIs(n, LocalOf(sys, Server, n), name);
  }

  lemma HandshakeAnswered(sys: System, n: nat)
    requires n < |sys.conns| && n + 1 < ID_WRAP && sys.conns[n].toServer == []
    requires sys.conns[n].client == FirstSession(n, sys.conns[n].name)
    requires sys.conns[n].toClient == [InitReplyOf(n, sys.conns[n])]
    ensures var c, c' := sys.conns[n], Delivered(sys, Client, n).conns[n];
            && |Delivered(sys, Client, n).conns| == |sys.conns|
            && c'.server == c.server && c'.toServer == [] && c'.toClient == []
            && c'.client.state.SessionReady? && c'.client.sessionId == c.server.sessionId && c'.client.initState == 1
            && c'.client.identifier == c.name
  {
    hide Received;
    InitReplyReceivedIs(n, sys.conns[n], LocalOf(sys, Client, n));
  }

  /** Ids agreed on are pairwise different, already in their server half, and none is a temporary client id. */
  lemma {:induction false} IdsDistinct(max: nat, actions: seq<Action>, i: nat, j: nat)
    requires CanRun(max, INITIAL, actions)
    requires i < |Run(max, INITIAL, actions).conns| && j < |Run(max, INITIAL, actions).conns|
    ensures var conns := Run(max, INITIAL, actions).conns;
            var s, t := conns[i].server, conns[j].server;
            && (s.created == 1 ==> s.sessionId >= ID_WRAP && |conns| < ID_WRAP)
            && (i != j && s.created == 1 && t.created == 1 ==>
                  s.sessionId != t.sessionId && s.sessionId / ID_WRAP != t.sessionId / ID_WRAP)
  {
    Reached(max, actions);
    var sys := Run(max, INITIAL, actions);
    hide Run, CanRun;
    InvConn(sys, i);
    SessionsAt(sys.conns, i, Server);
    SessionsAt(sys.conns, j, Server);
    hide SideOk, SessionOk, OneWay, Sessions;
    var ss := Sessions(sys.conns, Server);
    assert ServerIds(sys.server.host.idCounter, ss);
    assert ss[i] == sys.conns[i].server && ss[j] == sys.conns[j].server;
  }

  /** In every reachable state a registry key is the id stored in the session it leads to, and a session is
      registered exactly if it is connected or was dropped without endSession. */
  lemma {:induction false} RegistryCoherent(max: nat, actions: seq<Action>, x: Side)
    requires CanRun(max, INITIAL, actions)
    ensures var sys := Run(max, INITIAL, actions);
            var registry := Proc(sys, x).host.registry;
            && 0 !in registry
            && (forall id :: id in registry ==>
                  registry[id] < |sys.conns| && Sess(sys.conns[registry[id]], x).sessionId == id)
            && (forall i :: 0 <= i < |sys.conns| ==>
                  (Listed(Sess(sys.conns[i], x)) <==> exists id :: id in registry && registry[id] == i))
  {
    Reached(max, actions);
    var sys := Run(max, INITIAL, actions);
    hide Run, CanRun;
    var registry := Proc(sys, x).host.registry;
    forall i | 0 <= i < |sys.conns|
      ensures Listed(Sess(sys.conns[i], x)) <==> exists id :: id in registry && registry[id] == i
    {
      ListedIsRegistered(sys, x, i);
      hide Inv, Listed;
    }
    AllIdsFit(sys.conns, x);
    hide ConnInv, PendingOk, Listed, ServerIds;
    var ss := Sessions(sys.conns, x);
    forall id | id in registry
      ensures id != 0 && registry[id] < |sys.conns| && Sess(sys.conns[registry[id]], x).sessionId == id
    {
      SessionsAt(sys.conns, registry[id], x);
      assert ss[registry[id]].sessionId % ID_WRAP == registry[id] + 1;
    }
  }

  /** No heartbeat and no application data is ever handled by a session that has not become ready. */
  lemma {:induction false} NothingBeforeReady(max: nat, actions: seq<Action>, x: Side, i: nat)
    requires CanRun(max, INITIAL, actions) && i < |Run(max, INITIAL, actions).conns|
    requires Channel(Run(max, INITIAL, actions).conns[i], x) != []
    ensures var c := Run(max, INITIAL, actions).conns[i];
            !IsInit(Channel(c, x)[0].body) <==> Sess(c, x).created == 1
  {
    Reached(max, actions);
    var sys := Run(max, INITIAL, actions);
    hide Run, CanRun;
    InvConn(sys, i);
    var c := sys.conns[i];
    hide Inv;
    if !IsInit(Channel(c, x)[0].body) {
      HeadOf(i, c, x);
    } else {
      InitHead(i, c, x);
    }
    hide ConnInv;
  }

  // ---- replies ----

  /** The pending list is exactly what was sent with the reply flag, less what was answered, less what the timer
      took out; every entry once. */
  lemma {:induction false} ReplyConservation(max: nat, actions: seq<Action>, x: Side)
    requires CanRun(max, INITIAL, actions)
    ensures var sys := Run(max, INITIAL, actions);
            var p := Proc(sys, x);
            && Distinct(p.host.pending) && |p.host.pending| == |Ids(p.host.pending)|
            && Ids(p.host.pending) == Awaited(Sessions(sys.conns, x)) - p.answered - p.expired
  {
    Reached(max, actions);
    var sys := Run(max, INITIAL, actions);
    hide Run, CanRun, ConnInv, RegistryOk, ServerIds;
    DistinctCount(Proc(sys, x).host.pending);
  }

  /** A reply that arrives answers one message its session sent, the only one ever sent by that process under its
      key; handling it strikes out that entry and no other. */
  lemma {:induction false} ReplyStrikesItsOwn(max: nat, actions: seq<Action>, x: Side, i: nat)
    requires CanRun(max, INITIAL, actions) && i < |Run(max, INITIAL, actions).conns|
    requires Channel(Run(max, INITIAL, actions).conns[i], x) != []
    requires IsReply(Channel(Run(max, INITIAL, actions).conns[i], x)[0].body)
    ensures var sys := Run(max, INITIAL, actions);
            var r, ss := Channel(sys.conns[i], x)[0], Sessions(sys.conns, x);
            && 1 <= r.messageId <= |ss[i].log| && Answers(ss[i].log[r.messageId - 1], r)
            && KeyOf(ss[i].log[r.messageId - 1]) == KeyOf(r)
            && (forall j, k :: 0 <= j < |ss| && 0 <= k < |ss[j].log| && KeyOf(ss[j].log[k]) == KeyOf(r) ==>
                  j == i && k == r.messageId - 1)
            && Ids(Proc(Delivered(sys, x, i), x).host.pending) == Ids(Proc(sys, x).host.pending) - {KeyOf(r)}
  {
    hide *;
    Reached(max, actions);
    var sys := Run(max, INITIAL, actions);
    ReplyTarget(sys, x, i);
    ReplyKeyUnique(sys, x, i);
    ReplyStruck(sys, x, i);
  }

  lemma ReplyKeyUnique(sys: System, x: Side, i: nat)
    requires Inv(sys) && i < |sys.conns| && Channel(sys.conns[i], x) != [] && IsReply(Channel(sys.conns[i], x)[0].body)
    ensures var r, ss := Channel(sys.conns[i], x)[0], Sessions(sys.conns, x);
            forall j, k :: 0 <= j < |ss| && 0 <= k < |ss[j].log| && KeyOf(ss[j].log[k]) == KeyOf(r) ==>
              j == i && k == r.messageId - 1
  {
    var r, ss := Channel(sys.conns[i], x)[0], Sessions(sys.conns, x);
    AllIdsFit(sys.conns, x);
    hide Inv, Key, Answers, Sessions;
    ReplyTarget(sys, x, i);
    assert r.sessionId % ID_WRAP == i + 1;
    forall j, k | 0 <= j < |ss| && 0 <= k < |ss[j].log| && KeyOf(ss[j].log[k]) == KeyOf(r)
      ensures j == i && k == r.messageId - 1
    {
      KeyInjective(ss[j].log[k].sessionId, ss[j].log[k].messageId, r.sessionId, r.messageId);
    }
  }

  lemma ReplyStruck(sys: System, x: Side, i: nat)
    requires Inv(sys) && i < |sys.conns| && Channel(sys.conns[i], x) != [] && IsReply(Channel(sys.conns[i], x)[0].body)
    ensures var r := Channel(sys.conns[i], x)[0];
            Ids(Proc(Delivered(sys, x, i), x).host.pending) == Ids(Proc(sys, x).host.pending) - {KeyOf(r)}
  {
    var r := Channel(sys.conns[i], x)[0];
    assert Distinct(Proc(sys, x).host.pending) by { SideParts(Proc(sys, x), Sessions(sys.conns, x)); }
    hide Inv, KeyOf, Received, Sessions, Ids, Remove, Distinct;
    ReceivedPending(LocalOf(sys, x, i), r);
    RemoveRefines(Proc(sys, x).host.pending, KeyOf(r));
  }

  lemma ReplyTarget(sys: System, x: Side, i: nat)
    requires Inv(sys) && i < |sys.conns| && Channel(sys.conns[i], x) != [] && IsReply(Channel(sys.conns[i], x)[0].body)
    ensures var r, ss := Channel(sys.conns[i], x)[0], Sessions(sys.conns, x);
            && 1 <= r.messageId <= |ss[i].log| && Answers(ss[i].log[r.messageId - 1], r)
            && ss[i].log[r.messageId - 1].sessionId == r.sessionId
            && KeyOf(ss[i].log[r.messageId - 1]) == KeyOf(r)
  {
    hide Key, SideOk, ServerIds;
    var c := sys.conns[i];
    InvConn(sys, i);
    FlowTail(Sess(c, Other(x)), Sess(c, x), Channel(c, x));
    SessionsAt(sys.conns, i, x);
  }

  lemma NotPending(sys: System, x: Side, i: nat)
    requires Inv(sys) && i < |sys.conns| && Sess(sys.conns[i], x).state.SessionReady? && CanSend(Sess(sys.conns[i], x))
    ensures var s := Sess(sys.conns[i], x);
            && Distinct(Proc(sys, x).host.pending)
            && Key(s.sessionId, s.counter + 1) !in Ids(Proc(sys, x).host.pending)
  {
    var s, ss := Sess(sys.conns[i], x), Sessions(sys.conns, x);
    InvConn(sys, i);
    ReadyFacts(i, sys.conns[i], x);
    AllIdsFit(sys.conns, x);
    SessionsAt(sys.conns, i, x);
    AwaitedSent(ss);
    hide ConnInv, RegistryOk, ServerIds, IdsFit, Sessions, AllKeys, Awaited, Ids, Key;
    FreshKey(ss, i, Message(s.sessionId, s.counter + 1, HeartbeatStart));
  }

  // ---- closing ----

  /** Close convergence: once one side is down and no close message is on its way any more, both are down. Each
      has called its close callback exactly once and is out of the registry, unless a close reply dropped it;
      that happens only to a side that asked for the reply. */
  lemma {:induction false} CloseConverges(max: nat, actions: seq<Action>, i: nat, x: Side)
    requires CanRun(max, INITIAL, actions) && i < |Run(max, INITIAL, actions).conns|
    requires var c := Run(max, INITIAL, actions).conns[i];
             && (Down(c.client) || Down(c.server)) && !HasClose(c.toClient) && !HasClose(c.toServer)
    ensures var sys := Run(max, INITIAL, actions);
            var s := Sess(sys.conns[i], x);
            var listed := exists id :: id in Proc(sys, x).host.registry && Proc(sys, x).host.registry[id] == i;
            && s.state.NotConnected? && s.created == 1 && s.closed + s.dropped == 1
            && (s.closed == 1 <==> !listed)
            && (!AskedToClose(s) ==> s.closed == 1 && !listed)
  {
    Reached(max, actions);
    var sys := Run(max, INITIAL, actions);
    hide Run, CanRun;
    InvConn(sys, i);
    ListedIsRegistered(sys, x, i);
    ReadyFacts(i, sys.conns[i], x);
    assert SessionOk(x, Sess(sys.conns[i], x), sys.conns[i].server.sessionId);
    hide Inv, Handshake, HasClose, Flow;
  }

  /** Closing a quiet connection, start to end, from either side: the peer always ends properly; the closer does
      if and only if it did not ask for a reply. */
  lemma {:induction false} LoneClose(max: nat, sys: System, x: Side, i: nat, replyExpected: bool)
    requires Inv(sys) && Enabled(sys, Close(x, i, replyExpected))
    requires sys.conns[i].client.state.SessionReady? && sys.conns[i].server.state.SessionReady?
    requires sys.conns[i].toClient == [] && sys.conns[i].toServer == []
    ensures var one := Step(max, sys, Close(x, i, replyExpected));
            && Enabled(one, Deliver(Other(x), i))
            && var two := Step(max, one, Deliver(Other(x), i));
            && Enabled(two, Deliver(x, i))
            && var three := Step(max, two, Deliver(x, i));
            && i < |three.conns|
            && Down(three.conns[i].client) && Down(three.conns[i].server)
            && three.conns[i].toClient == [] && three.conns[i].toServer == []
            && Sess(three.conns[i], Other(x)).closed == 1
            && (Sess(three.conns[i], x).closed == 1 <==> !replyExpected)
            && var registry := Proc(three, x).host.registry;
            (replyExpected <==> exists id :: id in registry && registry[id] == i)
  {
    hide Inv, ConnInv, Delivered, Updated, Closed;
    var a := Close(x, i, replyExpected);
    var one := Step(max, sys, a);
    StepKeepsInv(max, sys, a);
    LoneCloseSent(max, sys, x, i, replyExpected);
    LoneCloseHeard(one, x, i);
    var two := Step(max, one, Deliver(Other(x), i));
    StepKeepsInv(max, one, Deliver(Other(x), i));
    LoneCloseAnswered(two, x, i);
    var three := Step(max, two, Deliver(x, i));
    StepKeepsInv(max, two, Deliver(x, i));
    ListedIsRegistered(three, x, i);
    InvConn(three, i);
    ReadyFacts(i, three.conns[i], x);
    ReadyFacts(i, three.conns[i], Other(x));
  }

  /** A single frame of body b, or none, is on its way to x, and nothing to the other side. */
  predicate OnlyFrame(c: Conn, x: Side, b: Body) {
    |Channel(c, x)| == 1 && Channel(c, x)[0].body == b && Channel(c, Other(x)) == []
  }

  lemma LoneCloseSent(max: nat, sys: System, x: Side, i: nat, r: bool)
    requires Inv(sys) && Enabled(sys, Close(x, i, r))
    requires sys.conns[i].client.state.SessionReady? && sys.conns[i].server.state.SessionReady?
    requires sys.conns[i].toClient == [] && sys.conns[i].toServer == []
    ensures var one := Step(max, sys, Close(x, i, r));
            && |one.conns| == |sys.conns| && OnlyFrame(one.conns[i], Other(x), CloseStart(0, r))
            && Sess(one.conns[i], Other(x)).state.SessionReady?
            && Sess(one.conns[i], x).dropped == 0
            && (if r then Sess(one.conns[i], x).state.SessionReady? else Down(Sess(one.conns[i], x)))
  {
    hide Inv, ConnInv, Balanced, Closed;
    InvConn(sys, i);
    ReadyFacts(i, sys.conns[i], x);
    ClosedSession(LocalOf(sys, x, i), r);
    var l := Closed(LocalOf(sys, x, i), r);
    assert Step(max, sys, Close(x, i, r)) == Updated(sys, x, i, l);
    hide Step, LocalOf, Enabled;
  }

  lemma ClosedSession(l: Local, r: bool)
    requires l.s.state.SessionReady? && CanSend(l.s) && l.s.open && l.out == []
    ensures var s' := Logged(l.s, CloseStart(0, r));
            && Closed(l, r).s == (if r then s' else Gone(s').(closed := l.s.closed + 1))
            && Closed(l, r).out == [Message(l.s.sessionId, l.s.counter + 1, CloseStart(0, r))]
  {
    ClosedIs(l);
    var marked := l.(host := l.host.(pending := MarkSession(l.host.pending, l.s.sessionId)));
    SendNewIs(marked, CloseStart(0, r));
    hide Closed, SendNew, MarkSession, Added, Unregistered;
  }

  lemma LoneCloseHeard(sys: System, x: Side, i: nat)
    requires Inv(sys) && i < |sys.conns| && Sess(sys.conns[i], Other(x)).state.SessionReady?
    requires |Channel(sys.conns[i], Other(x))| == 1 && Channel(sys.conns[i], Other(x))[0].body.CloseStart?
    requires Channel(sys.conns[i], x) == []
    ensures var two := Delivered(sys, Other(x), i);
            && |two.conns| == |sys.conns| && OnlyFrame(two.conns[i], x, CloseReply(0))
            && Down(Sess(two.conns[i], Other(x))) && Sess(two.conns[i], Other(x)).dropped == 0
            && Sess(two.conns[i], x) == Sess(sys.conns[i], x)
  {
    hide Inv, ConnInv, Balanced;
    InvConn(sys, i);
    ReadyFacts(i, sys.conns[i], Other(x));
    CloseReceivedIs(LocalOf(sys, Other(x), i), Channel(sys.conns[i], Other(x))[0]);
    hide Received;
  }

  lemma LoneCloseAnswered(sys: System, x: Side, i: nat)
    requires Inv(sys) && i < |sys.conns| && OnlyFrame(sys.conns[i], x, CloseReply(0))
    ensures var s, three := Sess(sys.conns[i], x), Delivered(sys, x, i);
            && |three.conns| == |sys.conns|
            && Channel(three.conns[i], x) == [] && Channel(three.conns[i], Other(x)) == []
            && Sess(three.conns[i], Other(x)) == Sess(sys.conns[i], Other(x))
            && Sess(three.conns[i], x)
               == if s.state.SessionReady? then Gone(s).(dropped := s.dropped + 1) else s
  {
    InvConn(sys, i);
    CloseHead(i, sys.conns[i], x);
    hide Inv, ConnInv;
    CloseReceivedIs(LocalOf(sys, x, i), Channel(sys.conns[i], x)[0]);
    hide Received;
  }
}
