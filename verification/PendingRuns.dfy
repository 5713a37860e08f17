/** The pending list of a process over whole runs of SessionRuns: which events of the list each step is, and what
    that means for a message nobody answers (src/session.cpp, src/handler/reply_handler.cpp). */
module PendingRuns {
  import opened Bytes
  import opened Wire
  import opened SwapList
  import opened SessionState
  import opened SessionRuns
  import PendingReplies

  type Events = seq<PendingReplies.Event<nat>>

  function PendingOf(sys: System, x: Side): PendingReplies.PendingList<nat> { Proc(sys, x).host.pending }

  lemma PendingIs(sys: System, x: Side)
    ensures PendingOf(sys, x) == Proc(sys, x).host.pending
  {
  }

  // ---- the events of a step ----

  /** Session i, with view s, sends a message of this type with its next message id. */
  function Adds(s: SessionView, i: nat, kind: byte): PendingReplies.Event<nat>
    requires CanSend(s)
  {
    PendingReplies.Called(PendingReplies.Add(kind, s.sessionId, s.counter + 1, i))
  }

  /** What a step does to the pending list of side x: heartbeats, streams with reply, single blocks, init and close
      messages with reply are added, a close silences its session first, a handled reply removes one key. */
  function EventsOf(max: nat, sys: System, a: Action, x: Side): Events
    requires Enabled(sys, a)
  {
    match a
    case Start(_) =>
      if x.Client?
      then [PendingReplies.Called(PendingReplies.Add(1, sys.client.host.idCounter + 1, 1, |sys.conns|))] else []
    case Deliver(y, i) =>
      var m := Channel(sys.conns[i], y)[0];
      if y == x && IsReply(m.body) then [PendingReplies.Called(PendingReplies.RemoveKey(KeyOf(m)))] else []
    case SendStream(y, i, payload, r) =>
      var s := Sess(sys.conns[i], y);
      if y == x && r && |payload| <= max && s.state.SessionReady? then [Adds(s, i, 4)] else []
    case SendPacket(y, i, p) => if y == x && p.Single? then [Adds(Sess(sys.conns[i], y), i, 5)] else []
    case Heartbeat(y, i) =>
      var s := Sess(sys.conns[i], y);
      if y == x && s.state.SessionReady? then [Adds(s, i, 2)] else []
    case Close(y, i, r) =>
      var s := Sess(sys.conns[i], y);
      if y == x && s.state.SessionReady?
      then [PendingReplies.Called(PendingReplies.MarkAll(s.sessionId))] + if r then [Adds(s, i, 1)] else [] else []
    case TimerStep(y) => if y == x then [PendingReplies.Tick] else []
  }

  lemma NoEvent(l: PendingReplies.PendingList<nat>)
    ensures PendingReplies.Run(l, []) == l
  {
  }

  lemma OneEvent(l: PendingReplies.PendingList<nat>, e: PendingReplies.Event<nat>)
    ensures PendingReplies.Run(l, [e]) == PendingReplies.After(l, e)
  {
    assert [e][1..] == [];
  }

  lemma {:induction false} EventsAppend(l: PendingReplies.PendingList<nat>, es: Events, fs: Events)
    ensures PendingReplies.Run(l, es + fs) == PendingReplies.Run(PendingReplies.Run(l, es), fs)
    decreases |es|
  {
    hide PendingReplies.After;
    if es == [] {
      assert es + fs == fs;
    } else {
      assert (es + fs)[1..] == es[1..] + fs;
      EventsAppend(PendingReplies.After(l, es[0]), es[1..], fs);
    }
  }

  /** A message of session i, sent with its next id. */
  lemma SentEvents(sys: System, x: Side, i: nat, body: Body)
    requires i < |sys.conns| && CanSend(Sess(sys.conns[i], x)) && !IsReply(body)
    ensures PendingOf(Updated(sys, x, i, SendNew(LocalOf(sys, x, i), body)), x)
         == PendingReplies.Run(PendingOf(sys, x),
                               if WantsReply(body) then [Adds(Sess(sys.conns[i], x), i, Type(body))] else [])
  {
    SendNewIs(LocalOf(sys, x, i), body);
    OneEvent(PendingOf(sys, x), Adds(Sess(sys.conns[i], x), i, Type(body)));
    NoEvent(PendingOf(sys, x));
    hide PendingReplies.Run, SendNew, WantsReply, Type, IsReply;
  }

  lemma OtherSide(max: nat, sys: System, a: Action, x: Side)
    requires Enabled(sys, a)
    requires if a.Start? then x.Server? else x != (if a.Deliver? then a.to else if a.TimerStep? then a.at else a.from)
    ensures PendingOf(Step(max, sys, a), x) == PendingReplies.Run(PendingOf(sys, x), EventsOf(max, sys, a, x))
  {
    hide StreamSent, PacketSent, HeartbeatSent, Closed, Started, Ticked, Received, PendingReplies.Run;
    NoEvent(PendingOf(sys, x));
  }

  lemma CloseEvents(max: nat, sys: System, x: Side, i: nat, r: bool)
    requires Enabled(sys, Close(x, i, r)) && Sess(sys.conns[i], x).state.SessionReady?
    ensures PendingOf(Step(max, sys, Close(x, i, r)), x)
         == PendingReplies.Run(PendingOf(sys, x), EventsOf(max, sys, Close(x, i, r), x))
  {
    var l, s := LocalOf(sys, x, i), Sess(sys.conns[i], x);
    var mark := PendingReplies.Called(PendingReplies.MarkAll(s.sessionId));
    var adds: Events := if r then [Adds(s, i, 1)] else [];
    var marked := l.(host := l.host.(pending := PendingReplies.MarkSession(l.host.pending, s.sessionId)));
    SendNewIs(marked, CloseStart(0, r));
    OneEvent(PendingOf(sys, x), mark);
    EventsAppend(PendingOf(sys, x), [mark], adds);
    OneEvent(marked.host.pending, Adds(s, i, 1));
    NoEvent(marked.host.pending);
    hide PendingReplies.Run, SendNew, PendingReplies.MarkSession, PendingReplies.Added, Unregistered;
  }

  lemma StartEvents(max: nat, sys: System, name: seq<byte>)
    requires Enabled(sys, Start(name)) && sys.client.host.idCounter == |sys.conns|
    ensures PendingOf(Step(max, sys, Start(name)), Client)
         == PendingReplies.Run(PendingOf(sys, Client), EventsOf(max, sys, Start(name), Client))
  {
    StartedIs(|sys.conns|, sys.client.host, name);
    OneEvent(PendingOf(sys, Client), EventsOf(max, sys, Start(name), Client)[0]);
    hide PendingReplies.Run, Started, PendingReplies.Added;
  }

  lemma DeliverEvents(max: nat, sys: System, x: Side, i: nat)
    requires Enabled(sys, Deliver(x, i))
    ensures PendingOf(Step(max, sys, Deliver(x, i)), x)
         == PendingReplies.Run(PendingOf(sys, x), EventsOf(max, sys, Deliver(x, i), x))
  {
    var m := Channel(sys.conns[i], x)[0];
    ReceivedPending(LocalOf(sys, x, i), m);
    OneEvent(PendingOf(sys, x), PendingReplies.Called(PendingReplies.RemoveKey(KeyOf(m))));
    NoEvent(PendingOf(sys, x));
    hide PendingReplies.Run, Received, KeyOf, Remove, IsReply;
  }

  /** Every step of the system is these events of the pending list, and nothing else. */
  lemma {:induction false} StepEvents(max: nat, sys: System, a: Action, x: Side)
    requires Enabled(sys, a) && sys.client.host.idCounter == |sys.conns|
    ensures PendingOf(Step(max, sys, a), x) == PendingReplies.Run(PendingOf(sys, x), EventsOf(max, sys, a, x))
  {
    hide Updated, SendNew, PendingReplies.Run, Delivered, Started, PendingReplies.Step, Closed;
    NoEvent(PendingOf(sys, x));
    match a
    case Start(name) => if x.Client? { StartEvents(max, sys, name); } else { OtherSide(max, sys, a, x); }
    case Deliver(y, i) => if y == x { DeliverEvents(max, sys, x, i); } else { OtherSide(max, sys, a, x); }
    case SendStream(y, i, payload, r) =>
      if y == x {
        SentEvents(sys, x, i, Stream(payload, r));
        Unchanged(sys, x, i);
      } else {
        OtherSide(max, sys, a, x);
      }
    case SendPacket(y, i, p) => if y == x { SentEvents(sys, x, i, Data(p)); } else { OtherSide(max, sys, a, x); }
    case Heartbeat(y, i) =>
      if y == x {
        SentEvents(sys, x, i, HeartbeatStart);
        Unchanged(sys, x, i);
      } else {
        OtherSide(max, sys, a, x);
      }
    case Close(y, i, r) =>
      if y != x {
        OtherSide(max, sys, a, x);
      } else if Sess(sys.conns[i], x).state.SessionReady? {
        CloseEvents(max, sys, x, i, r);
      } else {
        CloseRefused(sys, x, i, r);
        Unchanged(sys, x, i);
      }
    case TimerStep(y) =>
      if y == x {
        OneEvent(PendingOf(sys, x), PendingReplies.Tick);
      } else {
        OtherSide(max, sys, a, x);
      }
  }

  lemma CloseRefused(sys: System, x: Side, i: nat, r: bool)
    requires i < |sys.conns| && !Sess(sys.conns[i], x).state.SessionReady?
    ensures Closed(LocalOf(sys, x, i), r) == LocalOf(sys, x, i)
  {
  }

  lemma Unchanged(sys: System, x: Side, i: nat)
    requires i < |sys.conns|
    ensures PendingOf(Updated(sys, x, i, LocalOf(sys, x, i)), x) == PendingOf(sys, x)
  {
  }

  // ---- closing silences ----

  /** The session's entries silenced, another one behind them or not. */
  lemma MarkedEntries(l: PendingReplies.PendingList<nat>, own: u32, adds: PendingReplies.PendingList<nat>)
    requires Distinct(l) && (adds == [] || (|adds| == 1 && adds[0].id !in Ids(l)))
    ensures var l' := PendingReplies.MarkSession(l, own) + adds;
            forall key :: key in Ids(l) ==>
              && key in Ids(l')
              && AsMap(l')[key] == if key % 0x1_0000_0000 == own then AsMap(l)[key].(ignored := true) else AsMap(l)[key]
  {
    var marked := PendingReplies.MarkSession(l, own);
    PendingReplies.MarkRefines(l, own);
    hide Ids, AsMap, Distinct, PendingReplies.MarkSession;
    if adds == [] {
      assert marked + adds == marked;
    } else {
      assert adds == [adds[0]];
      AddIds(marked, adds[0]);
      AddRefines(marked, adds[0]);
    }
  }

  /** Closing silences the entries of its own session, and no others; they stay until they are answered or their
      time is up. */
  lemma {:induction false} CloseSilences(max: nat, sys: System, x: Side, i: nat, r: bool)
    requires Inv(sys) && Enabled(sys, Close(x, i, r)) && Sess(sys.conns[i], x).state.SessionReady?
    ensures var l, own := PendingOf(sys, x), Sess(sys.conns[i], x).sessionId;
            var l' := PendingOf(Step(max, sys, Close(x, i, r)), x);
            forall key :: key in Ids(l) ==>
              && key in Ids(l')
              && AsMap(l')[key] == if key % 0x1_0000_0000 == own then AsMap(l)[key].(ignored := true) else AsMap(l)[key]
  {
    var l, s := PendingOf(sys, x), Sess(sys.conns[i], x);
    assert CanSend(s);
    hide *;
    assert l == Proc(sys, x).host.pending by { PendingIs(sys, x); }
    NotPending(sys, x, i);
    CloseLeaves(max, sys, x, i, r);
    MarkedEntries(l, s.sessionId, CloseEntry(s, i, r));
  }

  /** The entry of the close message, if it asks for a reply. */
  function CloseEntry(s: SessionView, i: nat, r: bool): PendingReplies.PendingList<nat>
    requires CanSend(s)
  {
    if r then [Item(PendingReplies.Key(s.sessionId, s.counter + 1), PendingReplies.Pending(0.0, 1, i, false))] else []
  }

  lemma CloseLeaves(max: nat, sys: System, x: Side, i: nat, r: bool)
    requires Enabled(sys, Close(x, i, r)) && Sess(sys.conns[i], x).state.SessionReady?
    ensures var s := Sess(sys.conns[i], x);
            PendingOf(Step(max, sys, Close(x, i, r)), x)
            == PendingReplies.MarkSession(PendingOf(sys, x), s.sessionId) + CloseEntry(s, i, r)
  {
    var s, l := Sess(sys.conns[i], x), PendingOf(sys, x);
    var mark := PendingReplies.Called(PendingReplies.MarkAll(s.sessionId));
    var adds: Events := if r then [Adds(s, i, 1)] else [];
    CloseEvents(max, sys, x, i, r);
    OneEvent(l, mark);
    EventsAppend(l, [mark], adds);
    OneEvent(PendingReplies.MarkSession(l, s.sessionId), Adds(s, i, 1));
    NoEvent(PendingReplies.MarkSession(l, s.sessionId));
    hide PendingReplies.Run, PendingReplies.MarkSession, Step, PendingReplies.Key;
    assert PendingReplies.MarkSession(l, s.sessionId) + [] == PendingReplies.MarkSession(l, s.sessionId);
  }

  // ---- whole runs ----

  ghost function EventsIn(max: nat, sys: System, actions: seq<Action>, x: Side): Events
    requires CanRun(max, sys, actions)
    decreases |actions|
  {
    if actions == [] then []
    else EventsOf(max, sys, actions[0], x) + EventsIn(max, Step(max, sys, actions[0]), actions[1..], x)
  }

  lemma CountOk(sys: System)
    requires Inv(sys)
    ensures sys.client.host.idCounter == |sys.conns|
  {
    hide ConnInv, SideOk, ServerIds;
  }

  /** Over any run the pending list of a process is what the events of its steps make of it. */
  lemma {:induction false} RunEvents(max: nat, sys: System, actions: seq<Action>, x: Side)
    requires Inv(sys) && CanRun(max, sys, actions)
    ensures PendingOf(Run(max, sys, actions), x)
         == PendingReplies.Run(PendingOf(sys, x), EventsIn(max, sys, actions, x))
    decreases |actions|
  {
    hide Inv, Step, Enabled, EventsOf, PendingReplies.Run, PendingOf;
    if actions == [] {
      NoEvent(PendingOf(sys, x));
    } else {
      var next := Step(max, sys, actions[0]);
      CountOk(sys);
      StepEvents(max, sys, actions[0], x);
      StepKeepsInv(max, sys, actions[0]);
      RunEvents(max, next, actions[1..], x);
      EventsAppend(PendingOf(sys, x), EventsOf(max, sys, actions[0], x), EventsIn(max, next, actions[1..], x));
    }
  }

  /** The timer steps of side x in a run. */
  function TimerSteps(actions: seq<Action>, x: Side): nat {
    if actions == [] then 0 else (if actions[0] == TimerStep(x) then 1 else 0) + TimerSteps(actions[1..], x)
  }

  lemma TicksOf(max: nat, sys: System, a: Action, x: Side)
    requires Enabled(sys, a)
    ensures PendingReplies.Ticks(EventsOf(max, sys, a, x)) == if a == TimerStep(x) then 1 else 0
  {
    var es := EventsOf(max, sys, a, x);
    hide KeyOf;
    if |es| == 2 {
      assert es == [es[0]] + [es[1]];
      TicksAppend([es[0]], [es[1]]);
      OneTick(es[1]);
    }
    if es != [] {
      assert |es| == 1 ==> es == [es[0]];
      OneTick(es[0]);
    } else {
      NoTicks();
    }
    hide PendingReplies.Ticks;
  }

  lemma OneTick(e: PendingReplies.Event<nat>)
    ensures PendingReplies.Ticks([e]) == if e.Tick? then 1 else 0
  {
    assert [e][1..] == [];
  }

  lemma {:induction false} TicksAppend(es: Events, fs: Events)
    ensures PendingReplies.Ticks(es + fs) == PendingReplies.Ticks(es) + PendingReplies.Ticks(fs)
    decreases |es|
  {
    if es == [] {
      assert es + fs == fs;
    } else {
      assert (es + fs)[1..] == es[1..] + fs;
      TicksAppend(es[1..], fs);
    }
  }

  lemma {:induction false} TicksAre(max: nat, sys: System, actions: seq<Action>, x: Side)
    requires CanRun(max, sys, actions)
    ensures PendingReplies.Ticks(EventsIn(max, sys, actions, x)) == TimerSteps(actions, x)
    decreases |actions|
  {
    hide Step, Enabled, EventsOf, PendingReplies.Ticks;
    if actions == [] {
      NoTicks();
    } else {
      var next := Step(max, sys, actions[0]);
      TicksOf(max, sys, actions[0], x);
      TicksAre(max, next, actions[1..], x);
      TicksAppend(EventsOf(max, sys, actions[0], x), EventsIn(max, next, actions[1..], x));
    }
  }

  lemma NoTicks()
    ensures PendingReplies.Ticks<nat>([]) == 0
  {
  }

  // ---- a message that nobody answers ----

  /** The key of the pending message that the frame handled in this step answers on side x, if it answers one. */
  function Answering(sys: System, a: Action, x: Side): Option<u64>
    requires Enabled(sys, a)
  {
    if a.Deliver? && a.to == x && IsReply(Channel(sys.conns[a.conn], x)[0].body)
    then Some(KeyOf(Channel(sys.conns[a.conn], x)[0])) else None
  }

  /** No reply with this key is handled by side x. */
  ghost predicate Unanswered(max: nat, sys: System, actions: seq<Action>, x: Side, key: u64)
    requires CanRun(max, sys, actions)
    decreases |actions|
  {
    actions != [] ==>
      && Answering(sys, actions[0], x) != Some(key)
      && Unanswered(max, Step(max, sys, actions[0]), actions[1..], x, key)
  }

  /** Side x has sent a message with this key. */
  ghost predicate Seen(sys: System, x: Side, key: u64) { key in AllKeys(Sessions(sys.conns, x)) }

  /** It is pending, or its time was up. */
  ghost predicate Waited(sys: System, x: Side, key: u64) {
    key in Ids(PendingOf(sys, x)) || key in Proc(sys, x).expired
  }

  lemma WaitedSeen(sys: System, x: Side)
    requires Inv(sys)
    ensures Ids(PendingOf(sys, x)) <= AllKeys(Sessions(sys.conns, x))
    ensures Proc(sys, x).expired <= AllKeys(Sessions(sys.conns, x))
  {
    SideParts(Proc(sys, x), Sessions(sys.conns, x));
    AwaitedSent(Sessions(sys.conns, x));
    hide Inv, AllKeys, Awaited, Ids, Sessions, RegistryOk;
  }

  lemma PendingList(sys: System, x: Side)
    requires Inv(sys)
    ensures Distinct(PendingOf(sys, x)) && PendingReplies.InTime(PendingOf(sys, x))
  {
    SideParts(Proc(sys, x), Sessions(sys.conns, x));
    hide Inv, AllKeys, Awaited, Ids, Sessions, RegistryOk, Distinct, PendingReplies.InTime;
  }

  /** The next message of a session has a key that is neither known nor pending. */
  lemma NextKeyFresh(sys: System, x: Side, i: nat)
    requires Inv(sys) && i < |sys.conns| && Sess(sys.conns[i], x).created == 1 && CanSend(Sess(sys.conns[i], x))
    ensures var s := Sess(sys.conns[i], x);
            var key := PendingReplies.Key(s.sessionId, s.counter + 1);
            !Seen(sys, x, key) && key !in Ids(PendingOf(sys, x))
  {
    var s, ss := Sess(sys.conns[i], x), Sessions(sys.conns, x);
    InvConn(sys, i);
    ReadyFacts(i, sys.conns[i], x);
    AllIdsFit(sys.conns, x);
    SessionsAt(sys.conns, i, x);
    hide Inv, ConnInv, IdsFit, Sessions, AllKeys, PendingReplies.Key, Balanced, PendingOf;
    FreshKey(ss, i, Message(s.sessionId, s.counter + 1, HeartbeatStart));
    WaitedSeen(sys, x);
  }

  lemma StartKeyFresh(sys: System)
    requires Inv(sys) && |sys.conns| + 1 < ID_WRAP
    ensures var key := PendingReplies.Key(|sys.conns| + 1, 1);
            !Seen(sys, Client, key) && key !in Ids(PendingOf(sys, Client))
  {
    var ss := Sessions(sys.conns, Client);
    AllIdsFit(sys.conns, Client);
    SideParts(Proc(sys, Client), ss);
    hide Inv, ConnInv, Sessions, PendingReplies.Key, Balanced, PendingOf;
    NewcomerKeys(ss);
    NewcomerFits(ss);
    hide IdsFit, AllKeys;
    FreshKey(ss + [NEW_SESSION], |ss|, Message(|ss| + 1, 1, HeartbeatStart));
    WaitedSeen(sys, Client);
  }

  lemma NewcomerFits(ss: seq<SessionView>)
    requires IdsFit(ss)
    ensures IdsFit(ss + [NEW_SESSION])
  {
    var ss' := ss + [NEW_SESSION];
    assert ss'[|ss|] == NEW_SESSION;
    forall i | 0 <= i < |ss| ensures ss'[i] == ss[i] {
    }
  }

  /** Every message a step adds is new. */
  lemma AddedFresh(max: nat, sys: System, a: Action, x: Side, j: nat)
    requires Inv(sys) && Enabled(sys, a) && j < |EventsOf(max, sys, a, x)|
    requires EventsOf(max, sys, a, x)[j].Called? && EventsOf(max, sys, a, x)[j].call.Add?
    ensures var c := EventsOf(max, sys, a, x)[j].call;
            var key := PendingReplies.Key(c.sessionId, c.messageId);
            !Seen(sys, x, key) && key !in Ids(PendingOf(sys, x))
  {
    hide Inv, Seen, Ids, PendingOf, PendingReplies.Key, KeyOf, IsReply;
    CountOk(sys);
    match a
    case Start(_) => StartKeyFresh(sys);
    case SendStream(y, i, _, _) => ReadyCreated(sys, y, i); NextKeyFresh(sys, y, i);
    case SendPacket(y, i, _) => ReadyCreated(sys, y, i); NextKeyFresh(sys, y, i);
    case Heartbeat(y, i) => ReadyCreated(sys, y, i); NextKeyFresh(sys, y, i);
    case Close(y, i, _) => ReadyCreated(sys, y, i); NextKeyFresh(sys, y, i);
    case _ =>
  }

  lemma ReadyCreated(sys: System, x: Side, i: nat)
    requires Inv(sys) && i < |sys.conns|
    ensures Sess(sys.conns[i], x).state.SessionReady? ==> Sess(sys.conns[i], x).created == 1
  {
    InvConn(sys, i);
    ReadyFacts(i, sys.conns[i], x);
    hide Inv, ConnInv, Balanced;
  }

  lemma ExpiredGrows(max: nat, sys: System, a: Action, x: Side)
    requires Enabled(sys, a)
    ensures Proc(sys, x).expired <= Proc(Step(max, sys, a), x).expired
    ensures a == TimerStep(x) ==>
              Ids(PendingOf(sys, x)) <= Ids(PendingOf(Step(max, sys, a), x)) + Proc(Step(max, sys, a), x).expired
  {
    hide StreamSent, PacketSent, HeartbeatSent, Closed, Started, Received, Ids, PendingReplies.Step;
  }

  lemma UndisturbedOne(l: PendingReplies.PendingList<nat>, e: PendingReplies.Event<nat>, key: u64)
    ensures PendingReplies.Undisturbed(l, [e], key)
       <==> (e.Called? && e.call.Add? ==>
               var k := PendingReplies.Key(e.call.sessionId, e.call.messageId); k !in Ids(l) && k != key)
            && (e.Called? && e.call.RemoveKey? ==> e.call.key != key)
  {
    var none := [e][1..];
    assert none == [];
  }

  lemma {:induction false} UndisturbedAppend(l: PendingReplies.PendingList<nat>, es: Events, fs: Events, key: u64)
    requires PendingReplies.Undisturbed(l, es, key) && PendingReplies.Undisturbed(PendingReplies.Run(l, es), fs, key)
    ensures PendingReplies.Undisturbed(l, es + fs, key)
    decreases |es|
  {
    hide PendingReplies.After;
    if es == [] {
      assert es + fs == fs;
    } else {
      assert (es + fs)[0] == es[0] && (es + fs)[1..] == es[1..] + fs;
      UndisturbedAppend(PendingReplies.After(l, es[0]), es[1..], fs, key);
    }
  }

  lemma CallKeeps(l: PendingReplies.PendingList<nat>, e: PendingReplies.Event<nat>, key: u64)
    requires Distinct(l) && PendingReplies.InTime(l) && PendingReplies.Undisturbed(l, [e], key) && e.Called?
    ensures Distinct(PendingReplies.After(l, e)) && PendingReplies.InTime(PendingReplies.After(l, e))
    ensures key in Ids(PendingReplies.After(l, e)) <==> key in Ids(l)
  {
    UndisturbedOne(l, e, key);
    PendingReplies.CallKeepsEntry(l, e.call, key);
    hide Ids, Distinct, PendingReplies.InTime, PendingReplies.OnList, PendingReplies.Key;
  }

  /** A step is at most one event, or a session silenced and its close message added. */
  lemma EventsShape(max: nat, sys: System, a: Action, x: Side)
    requires Enabled(sys, a)
    ensures var es := EventsOf(max, sys, a, x);
            && |es| <= 2
            && (|es| == 2 ==> es[0].Called? && es[0].call.MarkAll? && es[1].Called? && es[1].call.Add?)
            && (|es| == 1 && es[0].Called? && es[0].call.RemoveKey? ==> Answering(sys, a, x) == Some(es[0].call.key))
            && (|es| == 1 && es[0].Tick? ==> a == TimerStep(x))
  {
    hide KeyOf, IsReply;
  }

  /** The messages added by these events are new, and none has this key. */
  ghost predicate FreshAdds(l: PendingReplies.PendingList<nat>, es: Events, key: u64) {
    forall j :: 0 <= j < |es| && es[j].Called? && es[j].call.Add? ==>
      var k := PendingReplies.Key(es[j].call.sessionId, es[j].call.messageId); k !in Ids(l) && k != key
  }

  lemma AllFresh(max: nat, sys: System, a: Action, x: Side, key: u64)
    requires Inv(sys) && Enabled(sys, a) && Waited(sys, x, key)
    ensures FreshAdds(PendingOf(sys, x), EventsOf(max, sys, a, x), key)
  {
    hide Inv, Enabled, EventsOf, Ids, AllKeys, PendingReplies.Key, PendingOf, Sessions;
    var es := EventsOf(max, sys, a, x);
    WaitedSeen(sys, x);
    forall j | 0 <= j < |es| && es[j].Called? && es[j].call.Add?
      ensures var k := PendingReplies.Key(es[j].call.sessionId, es[j].call.messageId);
              k !in Ids(PendingOf(sys, x)) && k != key
    {
      AddedFresh(max, sys, a, x, j);
    }
  }

  lemma TwoUndisturbed(l: PendingReplies.PendingList<nat>, es: Events, key: u64)
    requires Distinct(l) && FreshAdds(l, es, key) && |es| == 2
    requires es[0].Called? && es[0].call.MarkAll? && es[1].Called? && es[1].call.Add?
    ensures PendingReplies.Undisturbed(l, es, key)
  {
    hide Ids, PendingReplies.Key, Distinct, PendingReplies.MarkSession;
    PendingReplies.MarkRefines(l, es[0].call.sessionId);
    UndisturbedOne(l, es[0], key);
    OneEvent(l, es[0]);
    UndisturbedOne(PendingReplies.MarkSession(l, es[0].call.sessionId), es[1], key);
    UndisturbedAppend(l, [es[0]], [es[1]], key);
    assert es == [es[0]] + [es[1]];
  }

  /** Only one event of a step can disturb a key, and it does so only by answering it. */
  lemma StepUndisturbed(max: nat, sys: System, a: Action, x: Side, key: u64)
    requires Inv(sys) && Enabled(sys, a) && Waited(sys, x, key)
    requires Answering(sys, a, x) != Some(key)
    ensures PendingReplies.Undisturbed(PendingOf(sys, x), EventsOf(max, sys, a, x), key)
  {
    hide Inv, Enabled, EventsOf, Ids, PendingReplies.Key, PendingOf, Distinct, PendingReplies.InTime, Waited, FreshAdds,
      PendingReplies.Undisturbed;
    var l, es := PendingOf(sys, x), EventsOf(max, sys, a, x);
    AllFresh(max, sys, a, x, key);
    PendingList(sys, x);
    EventsShape(max, sys, a, x);
    if es == [] {
      NothingDisturbs(l, key);
    } else if |es| == 1 {
      OneUndisturbed(l, es, key);
    } else {
      TwoUndisturbed(l, es, key);
    }
  }

  lemma OneUndisturbed(l: PendingReplies.PendingList<nat>, es: Events, key: u64)
    requires FreshAdds(l, es, key) && |es| == 1
    requires es[0].Called? && es[0].call.RemoveKey? ==> es[0].call.key != key
    ensures PendingReplies.Undisturbed(l, es, key)
  {
    assert es == [es[0]];
    UndisturbedOne(l, es[0], key);
  }

  lemma NothingDisturbs(l: PendingReplies.PendingList<nat>, key: u64)
    ensures PendingReplies.Undisturbed(l, [], key)
  {
  }

  lemma StepWaited(max: nat, sys: System, a: Action, x: Side, key: u64)
    requires Inv(sys) && Enabled(sys, a) && Waited(sys, x, key)
    requires Answering(sys, a, x) != Some(key)
    ensures Waited(Step(max, sys, a), x, key)
  {
    hide Inv, Enabled, EventsOf, Step, Ids, PendingOf, Distinct, PendingReplies.InTime, PendingReplies.Run,
      PendingReplies.Undisturbed, Answering, Proc;
    var l, es := PendingOf(sys, x), EventsOf(max, sys, a, x);
    StepUndisturbed(max, sys, a, x, key);
    CountOk(sys);
    StepEvents(max, sys, a, x);
    ExpiredGrows(max, sys, a, x);
    EventsShape(max, sys, a, x);
    PendingList(sys, x);
    if es == [] {
      NoEvent(l);
    } else if |es| == 1 {
      assert es == [es[0]];
      OneEvent(l, es[0]);
      if es[0].Called? {
        CallKeeps(l, es[0], key);
      }
    } else {
      assert es == [es[0], es[1]];
      TwoEvents(l, es[0], es[1], key);
    }
  }

  lemma TwoEvents(l: PendingReplies.PendingList<nat>, e: PendingReplies.Event<nat>, f: PendingReplies.Event<nat>,
                  key: u64)
    requires Distinct(l) && PendingReplies.InTime(l) && e.Called? && f.Called?
    requires PendingReplies.Undisturbed(l, [e, f], key)
    ensures key in Ids(PendingReplies.Run(l, [e, f])) <==> key in Ids(l)
  {
    var l1 := PendingReplies.After(l, e);
    assert [e, f][1..] == [f];
    UndisturbedOne(l, e, key);
    CallKeeps(l, e, key);
    CallKeeps(l1, f, key);
    OneEvent(l1, f);
    hide Ids, Distinct, PendingReplies.InTime, PendingReplies.After;
  }

  lemma {:induction false} RunUndisturbed(max: nat, sys: System, actions: seq<Action>, x: Side, key: u64)
    requires Inv(sys) && CanRun(max, sys, actions) && Waited(sys, x, key) && Unanswered(max, sys, actions, x, key)
    ensures PendingReplies.Undisturbed(PendingOf(sys, x), EventsIn(max, sys, actions, x), key)
    decreases |actions|
  {
    hide Inv, Step, Enabled, EventsOf, PendingReplies.Run, PendingReplies.Undisturbed, Waited, PendingOf;
    if actions == [] {
      NothingDisturbs(PendingOf(sys, x), key);
    } else {
      var a, next := actions[0], Step(max, sys, actions[0]);
      CountOk(sys);
      StepEvents(max, sys, a, x);
      StepUndisturbed(max, sys, a, x, key);
      StepWaited(max, sys, a, x, key);
      StepKeepsInv(max, sys, a);
      RunUndisturbed(max, next, actions[1..], x, key);
      UndisturbedAppend(PendingOf(sys, x), EventsOf(max, sys, a, x), EventsIn(max, next, actions[1..], x), key);
    }
  }

  /** A key that an event makes pending belongs to an entry whose timer stands at 0. */
  lemma AddedTimer(l: PendingReplies.PendingList<nat>, e: PendingReplies.Event<nat>, key: u64)
    requires Distinct(l) && PendingReplies.InTime(l) && key !in Ids(l)
    requires e.Called? && e.call.Add? ==> PendingReplies.Key(e.call.sessionId, e.call.messageId) !in Ids(l)
    ensures key in Ids(PendingReplies.After(l, e)) ==> AsMap(PendingReplies.After(l, e))[key].timer == 0.0
  {
    hide Ids, Distinct, PendingReplies.InTime, PendingReplies.Key, AsMap, Remove, PendingReplies.MarkSession;
    match e
    case Tick => PendingReplies.StepKeeps(l);
    case Called(Add(_, sessionId, messageId, session)) =>
      var item := Item(PendingReplies.Key(sessionId, messageId),
                       PendingReplies.Pending(0.0, e.call.kind, session, false));
      AddIds(l, item);
      AddRefines(l, item);
    case Called(RemoveKey(k)) => RemoveRefines(l, k);
    case Called(MarkAll(sessionId)) => PendingReplies.MarkRefines(l, sessionId);
  }

  lemma NewlyPending(max: nat, sys: System, a: Action, x: Side, key: u64)
    requires Inv(sys) && Enabled(sys, a)
    requires key !in Ids(PendingOf(sys, x)) && key in Ids(PendingOf(Step(max, sys, a), x))
    ensures AsMap(PendingOf(Step(max, sys, a), x))[key].timer == 0.0
  {
    var l, es := PendingOf(sys, x), EventsOf(max, sys, a, x);
    forall j | 0 <= j < |es| && es[j].Called? && es[j].call.Add?
      ensures PendingReplies.Key(es[j].call.sessionId, es[j].call.messageId) !in Ids(l)
    {
      AddedFresh(max, sys, a, x, j);
    }
    CountOk(sys);
    StepEvents(max, sys, a, x);
    EventsShape(max, sys, a, x);
    PendingList(sys, x);
    NoEvent(l);
    hide Inv, Enabled, EventsOf, Step, Ids, PendingOf, Distinct, PendingReplies.InTime, PendingReplies.Run, AsMap;
    if |es| == 1 {
      assert es == [es[0]];
      OneEvent(l, es[0]);
      AddedTimer(l, es[0], key);
    } else if |es| == 2 {
      NewlyPendingTwo(l, es[0], es[1], key);
    }
  }

  lemma NewlyPendingTwo(l: PendingReplies.PendingList<nat>, e: PendingReplies.Event<nat>,
                        f: PendingReplies.Event<nat>, key: u64)
    requires Distinct(l) && PendingReplies.InTime(l) && key !in Ids(l)
    requires e.Called? && e.call.MarkAll? && f.Called? && f.call.Add?
    requires PendingReplies.Key(f.call.sessionId, f.call.messageId) !in Ids(l)
    requires key in Ids(PendingReplies.Run(l, [e, f]))
    ensures AsMap(PendingReplies.Run(l, [e, f]))[key].timer == 0.0
  {
    var l1 := PendingReplies.After(l, e);
    assert [e, f][1..] == [f];
    PendingReplies.MarkRefines(l, e.call.sessionId);
    PendingReplies.MarkedTimers(l, e.call.sessionId);
    OneEvent(l1, f);
    hide Ids, Distinct, PendingReplies.InTime, AsMap, PendingReplies.MarkSession, PendingReplies.Key;
    AddedTimer(l1, f, key);
  }

  /** Main result: over every run, with anything else sent, answered, silenced and timed out on any connection, a
      message that nobody answers is still pending after one timer step of its process, and is gone after 2 + r,
      where r counts the other entries that ran out meanwhile. */
  lemma {:induction false} UnansweredStay(max: nat, sys: System, a: Action, actions: seq<Action>, x: Side, key: u64)
    requires Inv(sys) && Enabled(sys, a) && CanRun(max, Step(max, sys, a), actions)
    requires key !in Ids(PendingOf(sys, x)) && key in Ids(PendingOf(Step(max, sys, a), x))
    requires Unanswered(max, Step(max, sys, a), actions, x, key)
    ensures var sent, n := Step(max, sys, a), TimerSteps(actions, x);
            var others := PendingReplies.OthersExpired(PendingOf(sent, x), EventsIn(max, sent, actions, x), key);
            && (n <= 1 ==> key in Ids(PendingOf(Run(max, sent, actions), x)))
            && (n >= 2 + others ==> key !in Ids(PendingOf(Run(max, sent, actions), x)))
  {
    var sent := Step(max, sys, a);
    NewlyPending(max, sys, a, x, key);
    StepKeepsInv(max, sys, a);
    hide Inv, Enabled, Step, Ids, PendingOf, Run, PendingReplies.Run, Distinct, PendingReplies.InTime, AsMap, EventsIn,
      PendingReplies.OthersExpired, PendingReplies.Ticks, TimerSteps, PendingReplies.Undisturbed, CanRun, Unanswered;
    PendingList(sent, x);
    RunEvents(max, sent, actions, x);
    RunUndisturbed(max, sent, actions, x, key);
    TicksAre(max, sent, actions, x);
    PendingReplies.StayBound(PendingOf(sent, x), EventsIn(max, sent, actions, x), key);
  }
}
