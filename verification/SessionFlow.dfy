/** What travels on the channels of SessionRuns besides replies, from the call that passed it in to the handler of
    the other side (src/session.cpp, src/messages_processing/stream_data_processing.h). */
module SessionFlow {
  import opened Bytes
  import opened Wire
  import opened SwapList
  import opened SessionState
  import opened SessionRuns
  import PendingReplies

  // ---- one step ----

  /** The bodies of the messages that are no replies, in order. */
  function Own(ms: seq<Message>): seq<Body> {
    if ms == [] then [] else (if IsReply(ms[0].body) then [] else [ms[0].body]) + Own(ms[1..])
  }

  /** Those under way to side x of connection i. */
  function UnderWay(sys: System, i: nat, x: Side): seq<Body> {
    if i < |sys.conns| then Own(Channel(sys.conns[i], x)) else []
  }

  /** What a call passes to a session with an open socket. */
  function Passes(max: nat, s: SessionView, a: Action): seq<Body> {
    match a
    case SendStream(_, _, payload, r) => if |payload| <= max && s.state.SessionReady? then [Stream(payload, r)] else []
    case SendPacket(_, _, p) => [Data(p)]
    case Heartbeat(_, _) => if s.state.SessionReady? then [HeartbeatStart] else []
    case Close(_, _, r) => if s.state.SessionReady? then [CloseStart(0, r)] else []
    case _ => []
  }

  /** What a step has the other side send to side x of connection i, taken from the arguments of the call. A ready
      session has an open socket (ReadyFacts); only the last frames of a transfer can meet a closed one. */
  function Passed(max: nat, sys: System, a: Action, i: nat, x: Side): seq<Body> {
    if a.Start? then
      if x.Server? && i == |sys.conns| && sys.client.host.idCounter + 1 < ID_WRAP
      then [InitStart(sys.client.host.idCounter + 1, a.name)] else []
    else if a.Deliver? || a.TimerStep? then []
    else if a.conn == i < |sys.conns| && a.from == Other(x) && Sess(sys.conns[i], a.from).open
    then Passes(max, Sess(sys.conns[i], a.from), a)
    else []
  }

  /** What side x of connection i handles in a step. */
  function Handled(sys: System, a: Action, i: nat, x: Side): seq<Body>
    requires Enabled(sys, a)
  {
    if a == Deliver(x, i) then Own([Channel(sys.conns[i], x)[0]]) else []
  }

  lemma {:induction false} OwnAppend(a: seq<Message>, b: seq<Message>)
    ensures Own(a + b) == Own(a) + Own(b)
  {
    hide IsReply;
    if a == [] {
      assert a + b == b && [] + Own(b) == Own(b);
    } else {
      assert (a + b)[0] == a[0] && (a + b)[1..] == a[1..] + b;
      OwnAppend(a[1..], b);
      var head := if IsReply(a[0].body) then [] else [a[0].body];
      assert head + (Own(a[1..]) + Own(b)) == head + Own(a[1..]) + Own(b);
    }
  }

  lemma OwnOne(m: Message)
    ensures Own([m]) == if IsReply(m.body) then [] else [m.body]
    ensures Own([]) == []
  {
    assert [m][1..] == [];
  }

  lemma SentOut(l: Local, m: Message)
    ensures Own(SendMessage(l, m).out) == Own(l.out) + if l.s.open && !IsReply(m.body) then [m.body] else []
  {
    hide Own, IsReply;
    OwnAppend(l.out, [m]);
    OwnOne(m);
    assert Own(l.out) + [] == Own(l.out);
  }

  lemma SentNewOut(l: Local, body: Body)
    ensures Own(SendNew(l, body).out) == Own(l.out) + if l.s.open && !IsReply(body) then [body] else []
  {
    hide SendMessage, Own, IsReply;
    var c := Increased32(l.s.counter);
    SentOut(l.(s := l.s.(counter := c)), Message(l.s.sessionId, c, body));
  }

  /** Handling a frame sends nothing but replies. */
  lemma ReceivedOut(l: Local, m: Message)
    ensures Own(Received(l, m).out) == Own(l.out)
  {
    hide SendMessage, CompleteId, Remove, Own;
    var l1 := ReplyNoted(l, m);
    match m.body
    case InitStart(c, name) =>
      var k := Increased16(l1.host.idCounter);
      var id := CompleteId(c, k);
      var l2 := l1.(host := Registered(l1.host.(idCounter := k), id, l1.self));
      SentOut(MadeReady(Connected(l2, id), id, name), Message(c, m.messageId, InitReply(c, id, name)));
    case InitReply(_, _, _) =>
    case CloseStart(_, _) => SentOut(l1, Message(l1.s.sessionId, m.messageId, CloseReply(0)));
    case CloseReply(_) =>
    case HeartbeatStart => SentOut(l1, Message(l1.s.sessionId, m.messageId, HeartbeatReply));
    case Stream(_, _) => SentOut(l1.(s := Hearing(l1.s, m)), Message(l1.s.sessionId, m.messageId, StreamReply));
    case Data(_) => SentOut(l1, Message(l1.s.sessionId, m.messageId, SingleReply));
    case _ =>
  }

  lemma CloseOut(l: Local, r: bool)
    requires l.out == []
    ensures Own(Closed(l, r).out) == if l.s.state.SessionReady? && l.s.open then [CloseStart(0, r)] else []
  {
    hide SendNew, PendingReplies.MarkSession;
    assert Own([]) == [];
    SentNewOut(l.(host := l.host.(pending := PendingReplies.MarkSession(l.host.pending, l.s.sessionId))),
               CloseStart(0, r));
    hide Own;
  }

  lemma StreamOut(max: nat, l: Local, payload: seq<byte>, r: bool)
    requires l.out == []
    ensures Own(StreamSent(max, l, payload, r).out)
         == if |payload| <= max && l.s.state.SessionReady? && l.s.open then [Stream(payload, r)] else []
  {
    hide SendNew;
    assert Own([]) == [];
    SentNewOut(l, Stream(payload, r));
    hide Own;
  }

  /** A call of a session puts on its channel what it was passed, if the socket is open. */
  lemma CallOut(max: nat, sys: System, a: Action)
    requires Enabled(sys, a) && (a.SendStream? || a.SendPacket? || a.Heartbeat? || a.Close?)
    ensures var l := LocalOf(sys, a.from, a.conn);
            var want := if l.s.open then Passes(max, l.s, a) else [];
            && (a.SendStream? ==> Own(StreamSent(max, l, a.payload, a.replyExpected).out) == want)
            && (a.SendPacket? ==> Own(PacketSent(l, a.packet).out) == want)
            && (a.Heartbeat? ==> Own(HeartbeatSent(l).out) == want)
            && (a.Close? ==> Own(Closed(l, a.replyExpected).out) == want)
  {
    hide SendNew, Closed, StreamSent;
    var l := LocalOf(sys, a.from, a.conn);
    assert Own([]) == [];
    match a
    case SendStream(_, _, payload, r) => StreamOut(max, l, payload, r);
    case SendPacket(_, _, p) => SentNewOut(l, Data(p));
    case Heartbeat(_, _) => SentNewOut(l, HeartbeatStart);
    case Close(_, _, r) => CloseOut(l, r);
  }

  lemma PutChannel(c: Conn, y: Side, s: SessionView, inbox: seq<Message>, out: seq<Message>, x: Side)
    ensures Channel(Put(c, y, s, inbox, out), x) == if x == y then inbox else Channel(c, x) + out
  {
  }

  lemma UpdatedFlow(sys: System, y: Side, j: nat, l: Local, i: nat, x: Side)
    requires j < |sys.conns|
    ensures UnderWay(Updated(sys, y, j, l), i, x)
         == UnderWay(sys, i, x) + if i == j && x != y then Own(l.out) else []
  {
    hide Own;
    var c := sys.conns[j];
    PutChannel(c, y, l.s, Channel(c, y), l.out, x);
    OwnAppend(Channel(c, x), l.out);
    assert UnderWay(sys, i, x) + [] == UnderWay(sys, i, x);
  }

  lemma DeliveredFlow(sys: System, y: Side, j: nat, i: nat, x: Side)
    requires j < |sys.conns| && Channel(sys.conns[j], y) != []
    ensures (if x == y && i == j then Own([Channel(sys.conns[j], y)[0]]) else []) + UnderWay(Delivered(sys, y, j), i, x)
         == UnderWay(sys, i, x)
  {
    hide Own, Received;
    var c, m := sys.conns[j], Channel(sys.conns[j], y)[0];
    var l := Received(LocalOf(sys, y, j), m);
    ReceivedOut(LocalOf(sys, y, j), m);
    OwnOne(m);
    PutChannel(c, y, l.s, Channel(c, y)[1..], l.out, x);
    OwnAppend([m], Channel(c, y)[1..]);
    assert Channel(c, y) == [m] + Channel(c, y)[1..];
    OwnAppend(Channel(c, x), l.out);
    assert Own(Channel(c, x)) + [] == Own(Channel(c, x));
    assert [] + UnderWay(sys, i, x) == UnderWay(sys, i, x);
  }

  lemma StartConns(max: nat, sys: System, name: seq<byte>)
    requires Enabled(sys, Start(name))
    ensures var conns, n := Step(max, sys, Start(name)).conns, |sys.conns|;
            && |conns| == n + 1 && (forall j :: 0 <= j < n ==> conns[j] == sys.conns[j])
            && conns[n].toClient == [] && conns[n].client.heard == conns[n].server.heard == []
            && conns[n].toServer == Started(Local(n, NEW_SESSION, sys.client.host, []), name).out
  {
    hide PendingReplies.Added, Type;
  }

  lemma StartFlow(max: nat, sys: System, name: seq<byte>, i: nat, x: Side)
    requires Enabled(sys, Start(name))
    ensures UnderWay(Step(max, sys, Start(name)), i, x)
         == UnderWay(sys, i, x) + Passed(max, sys, Start(name), i, x)
  {
    StartConns(max, sys, name);
    NewOut(Local(|sys.conns|, NEW_SESSION, sys.client.host, []), name);
    assert Own([]) == [];
    hide Own, Started, Step;
    var none: seq<Body> := [];
    assert UnderWay(sys, i, x) + none == UnderWay(sys, i, x);
  }

  lemma NewOut(l: Local, name: seq<byte>)
    requires l.s == NEW_SESSION && l.out == [] && l.host.idCounter + 1 < ID_WRAP
    ensures Own(Started(l, name).out) == [InitStart(l.host.idCounter + 1, name)]
  {
    var id := Increased16(l.host.idCounter);
    var l1 := Connected(l.(host := l.host.(idCounter := id)), id);
    SentNewOut(l1.(host := Registered(l1.host, id, l1.self)), InitStart(id, name));
    hide SendNew;
    assert Own([]) == [];
  }

  lemma CallFlow(max: nat, sys: System, a: Action, i: nat, x: Side)
    requires Enabled(sys, a) && (a.SendStream? || a.SendPacket? || a.Heartbeat? || a.Close?)
    ensures UnderWay(Step(max, sys, a), i, x) == UnderWay(sys, i, x) + Passed(max, sys, a, i, x)
  {
    CallOut(max, sys, a);
    var l := LocalOf(sys, a.from, a.conn);
    hide Own, Updated, StreamSent, PacketSent, HeartbeatSent, Closed, Passes, UnderWay;
    match a
    case SendStream(y, j, payload, r) => UpdatedFlow(sys, y, j, StreamSent(max, l, payload, r), i, x);
    case SendPacket(y, j, p) => UpdatedFlow(sys, y, j, PacketSent(l, p), i, x);
    case Heartbeat(y, j) => UpdatedFlow(sys, y, j, HeartbeatSent(l), i, x);
    case Close(y, j, r) => UpdatedFlow(sys, y, j, Closed(l, r), i, x);
  }

  lemma TimerFlow(max: nat, sys: System, y: Side, i: nat, x: Side)
    ensures UnderWay(Step(max, sys, TimerStep(y)), i, x) == UnderWay(sys, i, x)
  {
    hide Own, Ticked;
  }

  /** Every channel is a queue of what was passed to it: in every step what a call passes joins the end, what is
      handled leaves the front, and nothing else changes, whatever replies travel in between. */
  lemma {:induction false} StepFlow(max: nat, sys: System, a: Action, i: nat, x: Side)
    requires Enabled(sys, a)
    ensures Handled(sys, a, i, x) + UnderWay(Step(max, sys, a), i, x)
         == UnderWay(sys, i, x) + Passed(max, sys, a, i, x)
  {
    var none: seq<Body> := [];
    var now, next := UnderWay(sys, i, x), UnderWay(Step(max, sys, a), i, x);
    assert now + none == now && none + next == next;
    if a.Deliver? {
      DeliveredFlow(sys, a.to, a.conn, i, x);
    } else if a.Start? {
      StartFlow(max, sys, a.name, i, x);
    } else if a.TimerStep? {
      TimerFlow(max, sys, a.at, i, x);
    } else {
      CallFlow(max, sys, a, i, x);
    }
    hide Own, UnderWay, Delivered, Started, Enabled, Passes;
  }

  /** The data packets among these messages. */
  function DataOf(bs: seq<Body>): seq<Packet> {
    if bs == [] then [] else (if bs[0].Data? then [bs[0].packet] else []) + DataOf(bs[1..])
  }

  lemma {:induction false} DataOfAppend(a: seq<Body>, b: seq<Body>)
    ensures DataOf(a + b) == DataOf(a) + DataOf(b)
  {
    if a == [] {
      assert a + b == b && [] + DataOf(b) == DataOf(b);
    } else {
      assert (a + b)[0] == a[0] && (a + b)[1..] == a[1..] + b;
      DataOfAppend(a[1..], b);
      var head := if a[0].Data? then [a[0].packet] else [];
      assert head + (DataOf(a[1..]) + DataOf(b)) == head + DataOf(a[1..]) + DataOf(b);
    }
  }

  lemma DataOfOne(b: Body)
    ensures DataOf([b]) == (if b.Data? then [b.packet] else []) && DataOf([]) == []
  {
    assert [b][1..] == [];
  }

  lemma {:induction false} PacketsAreData(ms: seq<Message>)
    ensures Packets(ms) == DataOf(Own(ms))
  {
    if ms != [] {
      PacketsAreData(ms[1..]);
      var head := Own(ms[..1]);
      assert ms[..1] == [ms[0]];
      OwnOne(ms[0]);
      DataOfOne(ms[0].body);
      DataOfAppend(head, Own(ms[1..]));
    }
  }

  /** The data frames of a run behave as the inboxes of RequestRuns do: of all steps only SendPacket by the other
      side puts a packet on the channel to a session, at its end, and only handling the first one takes one off,
      whatever handshake, heartbeat and close messages travel in between. */
  lemma {:induction false} DataFifo(max: nat, sys: System, a: Action, i: nat, x: Side)
    requires Enabled(sys, a) && i < |sys.conns|
    ensures i < |Step(max, sys, a).conns|
    ensures Packets(Channel(Step(max, sys, a).conns[i], x))
         == var was := Packets(Channel(sys.conns[i], x));
            if a.SendPacket? && a.conn == i && a.from == Other(x) then
              if Sess(sys.conns[i], a.from).open then was + [a.packet] else was
            else if a.Deliver? && a.conn == i && a.to == x then
              if Channel(sys.conns[i], x)[0].body.Data? then was[1..] else was
            else was
  {
    ConnsStay(max, sys, a);
    StepFlow(max, sys, a, i, x);
    hide Step;
    var next := Step(max, sys, a);
    PacketsAreData(Channel(sys.conns[i], x));
    PacketsAreData(Channel(next.conns[i], x));
    DataOfAppend(Handled(sys, a, i, x), UnderWay(next, i, x));
    DataOfAppend(UnderWay(sys, i, x), Passed(max, sys, a, i, x));
    DataPassed(max, sys, a, i, x);
    DataHandled(sys, a, i, x);
    hide Packets, DataOf, Own, Handled, Passed, UnderWay, Channel;
    DataStep(DataOf(Handled(sys, a, i, x)), DataOf(UnderWay(next, i, x)), DataOf(UnderWay(sys, i, x)),
             DataOf(Passed(max, sys, a, i, x)));
    assert UnderWay(sys, i, x) == Own(Channel(sys.conns[i], x)) by { UnderWayIs(sys, i, x); }
    assert UnderWay(next, i, x) == Own(Channel(next.conns[i], x)) by { UnderWayIs(next, i, x); }
  }

  lemma UnderWayIs(sys: System, i: nat, x: Side)
    requires i < |sys.conns|
    ensures UnderWay(sys, i, x) == Own(Channel(sys.conns[i], x))
  {
  }

  lemma ConnsStay(max: nat, sys: System, a: Action)
    requires Enabled(sys, a)
    ensures |sys.conns| <= |Step(max, sys, a).conns|
  {
    hide StreamSent, PacketSent, HeartbeatSent, Closed, Started, Received, Ticked;
  }

  lemma DataStep<T>(handled: seq<T>, next: seq<T>, was: seq<T>, passed: seq<T>)
    requires handled + next == was + passed && (handled == [] || passed == []) && |handled| <= 1
    ensures next == if handled == [] then was + passed else was[1..]
    ensures handled != [] ==> was != []
    ensures passed == [] && handled == [] ==> next == was
  {
    assert handled == [] ==> handled + next == next;
    assert passed == [] ==> was + passed == was;
    assert |handled| == 1 ==> (handled + next)[1..] == next;
  }

  lemma DataPassed(max: nat, sys: System, a: Action, i: nat, x: Side)
    requires Enabled(sys, a) && i < |sys.conns|
    ensures DataOf(Passed(max, sys, a, i, x))
         == if a.SendPacket? && a.conn == i && a.from == Other(x) && Sess(sys.conns[i], a.from).open then [a.packet]
            else []
  {
    var bs := Passed(max, sys, a, i, x);
    if bs != [] {
      assert bs == [bs[0]];
      DataOfOne(bs[0]);
    }
  }

  lemma DataHandled(sys: System, a: Action, i: nat, x: Side)
    requires Enabled(sys, a) && i < |sys.conns|
    ensures var ps := DataOf(Handled(sys, a, i, x));
            && |ps| <= 1
            && (ps != [] <==> a == Deliver(x, i) && Channel(sys.conns[i], x)[0].body.Data?)
  {
    var bs := Handled(sys, a, i, x);
    if a == Deliver(x, i) {
      OwnOne(Channel(sys.conns[i], x)[0]);
    }
    if bs != [] {
      assert bs == [bs[0]];
      DataOfOne(bs[0]);
    }
  }

  // ---- whole runs ----

  ghost function HandledIn(max: nat, sys: System, actions: seq<Action>, i: nat, x: Side): seq<Body>
    requires CanRun(max, sys, actions)
    decreases |actions|
  {
    if actions == [] then []
    else Handled(sys, actions[0], i, x) + HandledIn(max, Step(max, sys, actions[0]), actions[1..], i, x)
  }

  ghost function PassedIn(max: nat, sys: System, actions: seq<Action>, i: nat, x: Side): seq<Body>
    requires CanRun(max, sys, actions)
    decreases |actions|
  {
    if actions == [] then []
    else Passed(max, sys, actions[0], i, x) + PassedIn(max, Step(max, sys, actions[0]), actions[1..], i, x)
  }

  lemma Regroup<T>(h: seq<T>, rest: seq<T>, end: seq<T>, now: seq<T>, next: seq<T>, p: seq<T>, more: seq<T>)
    requires h + next == now + p && rest + end == next + more
    ensures (h + rest) + end == now + (p + more)
  {
    assert (h + rest) + end == h + (rest + end);
    assert h + (next + more) == (h + next) + more;
    assert (now + p) + more == now + (p + more);
  }

  /** Nothing is lost, doubled, changed or overtaken: over any run, what a session has handled followed by what is
      under way to it is what was under way before followed by exactly what the calls of its peer passed in. */
  lemma {:induction false} FlowConserved(max: nat, sys: System, actions: seq<Action>, i: nat, x: Side)
    requires CanRun(max, sys, actions)
    ensures HandledIn(max, sys, actions, i, x) + UnderWay(Run(max, sys, actions), i, x)
         == UnderWay(sys, i, x) + PassedIn(max, sys, actions, i, x)
    decreases |actions|
  {
    hide Step, Enabled, Handled, UnderWay, Passed;
    if actions == [] {
      assert [] + UnderWay(sys, i, x) == UnderWay(sys, i, x) + [];
    } else {
      var a, next := actions[0], Step(max, sys, actions[0]);
      StepFlow(max, sys, a, i, x);
      FlowConserved(max, next, actions[1..], i, x);
      Regroup(Handled(sys, a, i, x), HandledIn(max, next, actions[1..], i, x), UnderWay(Run(max, sys, actions), i, x),
              UnderWay(sys, i, x), UnderWay(next, i, x), Passed(max, sys, a, i, x),
              PassedIn(max, next, actions[1..], i, x));
    }
  }

  // ---- streams ----

  /** The payloads of the stream messages among these. */
  function StreamsOf(bs: seq<Body>): seq<seq<byte>> {
    if bs == [] then [] else (if bs[0].Stream? then [bs[0].payload] else []) + StreamsOf(bs[1..])
  }

  lemma {:induction false} StreamsOfAppend(a: seq<Body>, b: seq<Body>)
    ensures StreamsOf(a + b) == StreamsOf(a) + StreamsOf(b)
  {
    if a == [] {
      assert a + b == b && [] + StreamsOf(b) == StreamsOf(b);
    } else {
      assert (a + b)[0] == a[0] && (a + b)[1..] == a[1..] + b;
      StreamsOfAppend(a[1..], b);
      var head := if a[0].Stream? then [a[0].payload] else [];
      assert head + (StreamsOf(a[1..]) + StreamsOf(b)) == head + StreamsOf(a[1..]) + StreamsOf(b);
    }
  }

  function HeardBy(sys: System, i: nat, x: Side): seq<seq<byte>> {
    if i < |sys.conns| then Sess(sys.conns[i], x).heard else []
  }

  lemma SendKeepsHeard(l: Local, m: Message)
    ensures SendMessage(l, m).s.heard == l.s.heard
  {
    hide PendingReplies.Added, PendingReplies.Key, Type;
  }

  lemma ReceivedHeard(l: Local, m: Message)
    ensures Received(l, m).s.heard == l.s.heard + StreamsOf([m.body])
  {
    hide SendMessage, CompleteId, Remove;
    var l1 := ReplyNoted(l, m);
    assert [m.body][1..] == [] && l.s.heard + [] == l.s.heard;
    match m.body
    case InitStart(c, name) =>
      var k := Increased16(l1.host.idCounter);
      var id := CompleteId(c, k);
      var l2 := l1.(host := Registered(l1.host.(idCounter := k), id, l1.self));
      SendKeepsHeard(MadeReady(Connected(l2, id), id, name), Message(c, m.messageId, InitReply(c, id, name)));
    case InitReply(_, _, _) =>
    case CloseStart(_, _) => SendKeepsHeard(l1, Message(l1.s.sessionId, m.messageId, CloseReply(0)));
    case CloseReply(_) =>
    case HeartbeatStart => SendKeepsHeard(l1, Message(l1.s.sessionId, m.messageId, HeartbeatReply));
    case Stream(_, _) => SendKeepsHeard(l1.(s := Hearing(l1.s, m)), Message(l1.s.sessionId, m.messageId, StreamReply));
    case Data(_) => SendKeepsHeard(l1, Message(l1.s.sessionId, m.messageId, SingleReply));
    case _ =>
  }

  lemma CallHeard(max: nat, sys: System, a: Action)
    requires Enabled(sys, a) && (a.SendStream? || a.SendPacket? || a.Heartbeat? || a.Close?)
    ensures var l := LocalOf(sys, a.from, a.conn);
            && (a.SendStream? ==> StreamSent(max, l, a.payload, a.replyExpected).s.heard == l.s.heard)
            && (a.SendPacket? ==> PacketSent(l, a.packet).s.heard == l.s.heard)
            && (a.Heartbeat? ==> HeartbeatSent(l).s.heard == l.s.heard)
            && (a.Close? ==> Closed(l, a.replyExpected).s.heard == l.s.heard)
  {
    hide PendingReplies.MarkSession, PendingReplies.Added, Type;
  }

  lemma UpdatedHeard(sys: System, y: Side, j: nat, l: Local, i: nat, x: Side)
    requires j < |sys.conns| && l.s.heard == Sess(sys.conns[j], y).heard
    ensures HeardBy(Updated(sys, y, j, l), i, x) == HeardBy(sys, i, x)
  {
  }

  lemma DeliveredHeard(sys: System, y: Side, j: nat, i: nat, x: Side)
    requires j < |sys.conns| && Channel(sys.conns[j], y) != []
    ensures HeardBy(Delivered(sys, y, j), i, x)
         == HeardBy(sys, i, x)
            + if x == y && i == j then StreamsOf([Channel(sys.conns[j], y)[0].body]) else []
  {
    ReceivedHeard(LocalOf(sys, y, j), Channel(sys.conns[j], y)[0]);
    hide Received, StreamsOf;
    assert HeardBy(sys, i, x) + [] == HeardBy(sys, i, x);
  }

  lemma StartHeard(max: nat, sys: System, name: seq<byte>, i: nat, x: Side)
    requires Enabled(sys, Start(name))
    ensures HeardBy(Step(max, sys, Start(name)), i, x) == HeardBy(sys, i, x)
  {
    StartConns(max, sys, name);
    hide Step;
  }

  lemma HandledStreams(sys: System, a: Action, i: nat, x: Side)
    requires Enabled(sys, a)
    ensures StreamsOf(Handled(sys, a, i, x))
         == if a == Deliver(x, i) then StreamsOf([Channel(sys.conns[i], x)[0].body]) else []
  {
    if a == Deliver(x, i) {
      var m := Channel(sys.conns[i], x)[0];
      OwnOne(m);
      assert [m.body][1..] == [];
    }
  }

  /** The stream callback of a session is called for the stream messages it handles, with their payloads. */
  lemma StepHeard(max: nat, sys: System, a: Action, i: nat, x: Side)
    requires Enabled(sys, a)
    ensures HeardBy(Step(max, sys, a), i, x) == HeardBy(sys, i, x) + StreamsOf(Handled(sys, a, i, x))
  {
    HandledStreams(sys, a, i, x);
    assert HeardBy(sys, i, x) + [] == HeardBy(sys, i, x);
    hide StreamSent, PacketSent, HeartbeatSent, Closed, Ticked, Updated, Delivered, StreamsOf, Handled;
    match a
    case Start(name) => StartHeard(max, sys, name, i, x);
    case TimerStep(_) =>
    case Deliver(y, j) => DeliveredHeard(sys, y, j, i, x);
    case SendStream(y, j, payload, r) =>
      CallHeard(max, sys, a);
      UpdatedHeard(sys, y, j, StreamSent(max, LocalOf(sys, y, j), payload, r), i, x);
    case SendPacket(y, j, p) =>
      CallHeard(max, sys, a);
      UpdatedHeard(sys, y, j, PacketSent(LocalOf(sys, y, j), p), i, x);
    case Heartbeat(y, j) =>
      CallHeard(max, sys, a);
      UpdatedHeard(sys, y, j, HeartbeatSent(LocalOf(sys, y, j)), i, x);
    case Close(y, j, r) =>
      CallHeard(max, sys, a);
      UpdatedHeard(sys, y, j, Closed(LocalOf(sys, y, j), r), i, x);
  }

  lemma {:induction false} RunHeard(max: nat, sys: System, actions: seq<Action>, i: nat, x: Side)
    requires CanRun(max, sys, actions)
    ensures HeardBy(Run(max, sys, actions), i, x)
         == HeardBy(sys, i, x) + StreamsOf(HandledIn(max, sys, actions, i, x))
    decreases |actions|
  {
    hide Step, Enabled, Handled, HeardBy;
    if actions == [] {
      assert StreamsOf([]) == [] && HeardBy(sys, i, x) + [] == HeardBy(sys, i, x);
    } else {
      var a, next := actions[0], Step(max, sys, actions[0]);
      hide StreamsOf;
      StepHeard(max, sys, a, i, x);
      RunHeard(max, next, actions[1..], i, x);
      StreamsOfAppend(Handled(sys, a, i, x), HandledIn(max, next, actions[1..], i, x));
    }
  }

  /** Main result: in every run the stream callback of a session has been called with exactly the payloads passed
      to the stream calls of its peer that found the session ready and the payload within the limit, each once, in
      order and byte for byte; those still to come are the ones under way. */
  lemma {:induction false} StreamsArrive(max: nat, actions: seq<Action>, i: nat, x: Side)
    requires CanRun(max, INITIAL, actions)
    ensures var sys := Run(max, INITIAL, actions);
            HeardBy(sys, i, x) + StreamsOf(UnderWay(sys, i, x)) == StreamsOf(PassedIn(max, INITIAL, actions, i, x))
  {
    var sys := Run(max, INITIAL, actions);
    RunHeard(max, INITIAL, actions, i, x);
    FlowConserved(max, INITIAL, actions, i, x);
    NothingYet(i, x);
    hide Run, CanRun, HandledIn, PassedIn, StreamsOf, UnderWay, HeardBy;
    var handled := HandledIn(max, INITIAL, actions, i, x);
    StreamsOfAppend(handled, UnderWay(sys, i, x));
    NothingBefore(PassedIn(max, INITIAL, actions, i, x));
    NothingBefore(StreamsOf(handled));
  }

  lemma NothingYet(i: nat, x: Side)
    ensures UnderWay(INITIAL, i, x) == [] && HeardBy(INITIAL, i, x) == []
  {
  }

  lemma NothingBefore<T>(s: seq<T>)
    ensures [] + s == s
  {
  }
}
