/** Requests and responses over byte streams: the channels of RequestRuns replaced by lines of bytes, on which
    frames of any kind travel and from which chunks of any size arrive (src/session.cpp, src/callbacks.h). */
module ByteRuns {
  import opened Bytes
  import opened Wire
  import opened Fragmentation
  import opened DataProcessing
  import opened RequestSteps
  import opened RequestRuns
  import opened RequestSystem
  import opened RequestTraces
  import opened AnswerOrigin
  import Parser

  /** The bytes on their way to a session: those in its receive buffer, and those behind them. */
  datatype Line = Line(ring: seq<byte>, flight: seq<byte>)

  /** The inboxes of sys are not used. */
  datatype Wired = Wired(sys: System, lines: seq<Line>)

  datatype WireMove =
    | Act(end: nat, action: Action)                                             // neither Emit nor Deliver
    | EmitData(end: nat, id: u64, sessionId: u32, messageId: u32, pad: Padding) // the next frame of a thread
    | EmitOther(end: nat, frame: Parser.Framed)                                 // handshake, heartbeat, reply, stream
    | Arrive(end: nat, count: nat)

  function WithInbox(sys: System, e: nat, inbox: seq<Packet>): System
    requires e < |sys.ends|
  {
    sys.(ends := sys.ends[e := sys.ends[e].(inbox := inbox)])
  }

  predicate WireShaped(w: Wired) { Shaped(w.sys) && |w.lines| == |w.sys.ends| }

  function NextFrame(w: Wired, e: nat, id: u64, sessionId: u32, messageId: u32, pad: Padding): Parser.Framed
    requires e < |w.sys.ends| && id in w.sys.ends[e].jobs && w.sys.ends[e].jobs[id] != []
  {
    Parser.Framed(Message(sessionId, messageId, Data(w.sys.ends[e].jobs[id][0])), pad)
  }

  predicate Sendable(f: Parser.Framed) { Valid(f.message.body) && PadFits(f.message.body, f.pad) }

  predicate CanWire(max: pos, w: Wired, m: WireMove)
    requires WireShaped(w)
  {
    && m.end < |w.sys.ends|
    && match m
       case Act(e, a) => !a.Emit? && !a.Deliver? && Enabled(max, PeerAt(w.sys, e), a)
       case EmitData(e, id, sessionId, messageId, pad) =>
         && Enabled(max, PeerAt(w.sys, e), Emit(id))
         && Sendable(NextFrame(w, e, id, sessionId, messageId, pad))
       case EmitOther(_, f) => !f.message.body.Data? && Sendable(f)
       case Arrive(e, n) => n <= |w.lines[e].flight|
  }

  /** A session handles data packets one after the other. */
  function HandleAll(max: pos, sys: System, e: nat, ps: seq<Packet>): (sys': System)
    requires Shaped(sys) && e < |sys.ends|
    ensures Shaped(sys') && |sys'.ends| == |sys.ends|
    decreases |ps|
  {
    if ps == [] then sys
    else
      var one := WithInbox(sys, e, [ps[0]]);
      PeersAfter(max, one, e, Deliver, e);
      HandleAll(max, Stepped(max, one, e, Deliver), e, ps[1..])
  }

  function Put(w: Wired, e: nat, f: Parser.Framed): seq<Line>
    requires WireShaped(w) && e < |w.sys.ends| && Sendable(f)
  {
    var q := Other(e);
    w.lines[q := w.lines[q].(flight := w.lines[q].flight + Encode(f.message, f.pad))]
  }

  function WireStepped(max: pos, w: Wired, m: WireMove): Wired
    requires WireShaped(w) && CanWire(max, w, m)
  {
    match m
    case Act(e, a) => w.(sys := Stepped(max, w.sys, e, a))
    case EmitData(e, id, sessionId, messageId, pad) =>
      PeersAfter(max, w.sys, e, Emit(id), e);
      Wired(WithInbox(Stepped(max, w.sys, e, Emit(id)), Other(e), []),
            Put(w, e, NextFrame(w, e, id, sessionId, messageId, pad)))
    case EmitOther(e, f) => w.(lines := Put(w, e, f))
    case Arrive(e, n) =>
      var d := Parser.Drain(w.lines[e].ring + w.lines[e].flight[..n]);
      Wired(HandleAll(max, w.sys, e, Packets(d.messages)),
            w.lines[e := Line(d.rest, w.lines[e].flight[n..])])
  }

  // ---- the lines carry frames, the inboxes their data packets ----

  function SetInboxes(sys: System, boxes: seq<seq<Packet>>): (sys': System)
    requires |boxes| == |sys.ends|
    ensures |sys'.ends| == |sys.ends|
  {
    sys.(ends := seq(|sys.ends|, e requires 0 <= e < |sys.ends| => sys.ends[e].(inbox := boxes[e])))
  }

  ghost function Boxes(frames: seq<seq<Parser.Framed>>): (boxes: seq<seq<Packet>>)
    ensures |boxes| == |frames|
  {
    seq(|frames|, e requires 0 <= e < |frames| => Packets(Parser.Messages(frames[e])))
  }

  ghost predicate LineHolds(l: Line, fs: seq<Parser.Framed>) {
    Parser.WellFormed(fs) && l.ring + l.flight == Parser.ByteStream(fs)
  }

  /** sys is w seen without bytes: each line holds frames, and each inbox the data packets among them. */
  ghost predicate Simulates(w: Wired, frames: seq<seq<Parser.Framed>>, sys: System) {
    && WireShaped(w) && |frames| == |w.lines| && Shaped(sys) && |sys.ends| == |w.sys.ends|
    && (forall e :: 0 <= e < |frames| ==> LineHolds(w.lines[e], frames[e]))
    && sys == SetInboxes(w.sys, Boxes(frames))
  }

  lemma {:induction false} StreamAppend(fs: seq<Parser.Framed>, gs: seq<Parser.Framed>)
    requires Parser.WellFormed(fs) && Parser.WellFormed(gs)
    ensures Parser.WellFormed(fs + gs)
    ensures Parser.ByteStream(fs + gs) == Parser.ByteStream(fs) + Parser.ByteStream(gs)
    ensures Parser.Messages(fs + gs) == Parser.Messages(fs) + Parser.Messages(gs)
  {
    hide *;
    if fs == [] {
      Parser.NoBytes();
      NoMessages();
      assert fs + gs == gs;
      assert [] + Parser.ByteStream(gs) == Parser.ByteStream(gs);
      assert [] + Parser.Messages(gs) == Parser.Messages(gs);
    } else {
      var f, more := fs[0], fs[1..];
      Parser.HeadFits(fs);
      StreamAppend(more, gs);
      Parser.StreamStep(f, more + gs);
      Parser.StreamStep(f, more);
      assert [f] + more == fs && [f] + (more + gs) == fs + gs;
      Parser.Joined(Encode(f.message, f.pad), Parser.ByteStream(more), Parser.ByteStream(gs));
      Parser.Joined([f.message], Parser.Messages(more), Parser.Messages(gs));
    }
  }

  lemma NoMessages()
    ensures Parser.Messages([]) == []
  {
  }

  /** A frame put on a line. */
  lemma LinePut(l: Line, fs: seq<Parser.Framed>, f: Parser.Framed)
    requires LineHolds(l, fs) && Sendable(f)
    ensures LineHolds(l.(flight := l.flight + Encode(f.message, f.pad)), fs + [f])
    ensures Packets(Parser.Messages(fs + [f]))
         == Packets(Parser.Messages(fs)) + if f.message.body.Data? then [f.message.body.packet] else []
  {
    hide Valid, PadFits, Encode, Parser.WellFormed, Parser.ByteStream;
    Parser.NoBytes();
    Parser.StreamStep(f, []);
    assert [f] + [] == [f] && Encode(f.message, f.pad) + [] == Encode(f.message, f.pad);
    StreamAppend(fs, [f]);
    PacketsAppend(Parser.Messages(fs), Parser.Messages([f]));
    assert Parser.Messages([f]) == [f.message] && [f.message][1..] == [];
    assert l.ring + (l.flight + Encode(f.message, f.pad)) == l.ring + l.flight + Encode(f.message, f.pad);
  }

  lemma HoldsFrames(l: Line, fs: seq<Parser.Framed>)
    requires LineHolds(l, fs)
    ensures Parser.WellFormed(fs)
  {
  }

  /** The frames still on a line when n more bytes have arrived. */
  ghost function FramesLeft(l: Line, fs: seq<Parser.Framed>, n: nat): seq<Parser.Framed>
    requires LineHolds(l, fs)
  {
    hide *;
    HoldsFrames(l, fs);
    Parser.CompleteIsPrefix(fs, |l.ring| + n);
    fs[|Parser.Complete(fs, |l.ring| + n)|..]
  }

  /** Bytes arrive: the complete frames leave the line, the rest stays. */
  lemma LineArrives(l: Line, fs: seq<Parser.Framed>, n: nat)
    requires LineHolds(l, fs) && n <= |l.flight|
    ensures var d, more := Parser.Drain(l.ring + l.flight[..n]), FramesLeft(l, fs, n);
            && LineHolds(Line(d.rest, l.flight[n..]), more)
            && Packets(Parser.Messages(fs)) == Packets(d.messages) + Packets(Parser.Messages(more))
  {
    hide Parser.Drain, Parser.Complete, Parser.ByteStream, Parser.WellFormed, Parser.Messages, Packets;
    var all, k := Parser.ByteStream(fs), |l.ring| + n;
    var done := Parser.Complete(fs, k);
    Parser.CompleteIsPrefix(fs, k);
    Parser.DrainPrefix(fs, k);
    Tails(fs, |done|);
    assert fs[..|done|] == done;
    var more := fs[|done|..];
    StreamAppend(done, more);
    assert done + more == fs;
    PacketsAppend(Parser.Messages(done), Parser.Messages(more));
    assert all[..k] == l.ring + l.flight[..n] && all[k..] == l.flight[n..];
    Cut(all, Parser.ByteStream(done), Parser.ByteStream(more), k);
  }

  lemma Cut(all: seq<byte>, a: seq<byte>, b: seq<byte>, k: nat)
    requires all == a + b && |a| <= k <= |all|
    ensures all[|a|..k] + all[k..] == b
  {
  }

  lemma Tails(fs: seq<Parser.Framed>, k: nat)
    requires Parser.WellFormed(fs) && k <= |fs|
    ensures Parser.WellFormed(fs[..k]) && Parser.WellFormed(fs[k..])
  {
    hide Valid, PadFits;
  }

  // ---- steps of sessions do not look at other inboxes ----

  lemma ActedInbox(max: pos, me: Peer, a: Action, inbox: seq<Packet>)
    requires Enabled(max, me, a) && !a.Deliver?
    ensures Enabled(max, me.(inbox := inbox), a)
    ensures Acted(max, me.(inbox := inbox), a) == Acted(max, me, a).(inbox := inbox)
  {
    hide Woken, OffsetsFit, BlockedCallers.Block, BlockedCallers.Step;
  }

  lemma HandledInbox(max: pos, me: Peer, p: Packet, rest: seq<Packet>)
    ensures Acted(max, me.(inbox := [p] + rest), Deliver) == Acted(max, me.(inbox := [p]), Deliver).(inbox := rest)
  {
    hide Handle;
    assert ([p] + rest)[1..] == rest && [p][1..] == [];
  }

  lemma PeerInbox(sys: System, boxes: seq<seq<Packet>>, e: nat)
    requires Shaped(sys) && |boxes| == |sys.ends| && e < |sys.ends|
    ensures Shaped(SetInboxes(sys, boxes))
    ensures PeerAt(SetInboxes(sys, boxes), e) == PeerAt(sys, e).(inbox := boxes[e])
    ensures SetInboxes(sys, boxes).ends[e].process == sys.ends[e].process
  {
  }

  /** A call, a wake-up or a timer step. */
  lemma ActSimulated(max: pos, sys: System, boxes: seq<seq<Packet>>, e: nat, a: Action)
    requires Shaped(sys) && |boxes| == |sys.ends| && e < |sys.ends|
    requires Enabled(max, PeerAt(sys, e), a) && !a.Emit? && !a.Deliver?
    ensures Shaped(SetInboxes(sys, boxes)) && Enabled(max, PeerAt(SetInboxes(sys, boxes), e), a)
    ensures |Stepped(max, sys, e, a).ends| == |sys.ends|
    ensures Stepped(max, SetInboxes(sys, boxes), e, a) == SetInboxes(Stepped(max, sys, e, a), boxes)
  {
    PeerInbox(sys, boxes, e);
    ActedInbox(max, PeerAt(sys, e), a, boxes[e]);
    hide Acted, Enabled, PeerAt;
    var one, two := Stepped(max, SetInboxes(sys, boxes), e, a), SetInboxes(Stepped(max, sys, e, a), boxes);
    assert one.ends == two.ends;
  }

  /** A frame put on a line is a packet put into an inbox. */
  lemma EmitSimulated(max: pos, sys: System, boxes: seq<seq<Packet>>, e: nat, id: u64)
    requires Shaped(sys) && |boxes| == |sys.ends| && e < |sys.ends| && Enabled(max, PeerAt(sys, e), Emit(id))
    ensures Shaped(SetInboxes(sys, boxes)) && Enabled(max, PeerAt(SetInboxes(sys, boxes), e), Emit(id))
    ensures var q, p := Other(e), sys.ends[e].jobs[id][0];
            && |Stepped(max, sys, e, Emit(id)).ends| == |sys.ends|
            && Stepped(max, SetInboxes(sys, boxes), e, Emit(id))
               == SetInboxes(WithInbox(Stepped(max, sys, e, Emit(id)), q, []), boxes[q := boxes[q] + [p]])
  {
    var a, q := Emit(id), Other(e);
    PeerInbox(sys, boxes, e);
    ActedInbox(max, PeerAt(sys, e), a, boxes[e]);
    hide Acted;
    var one := Stepped(max, SetInboxes(sys, boxes), e, a);
    var two := SetInboxes(WithInbox(Stepped(max, sys, e, a), q, []), boxes[q := boxes[q] + [sys.ends[e].jobs[id][0]]]);
    assert one.ends == two.ends;
  }

  /** Handling one packet, with others behind it. */
  lemma DeliverSimulated(max: pos, sys: System, boxes: seq<seq<Packet>>, e: nat, p: Packet, rest: seq<Packet>)
    requires Shaped(sys) && |boxes| == |sys.ends| && e < |sys.ends| && boxes[e] == [p] + rest
    ensures Shaped(SetInboxes(sys, boxes)) && Enabled(max, PeerAt(SetInboxes(sys, boxes), e), Deliver)
    ensures Shaped(WithInbox(sys, e, [p])) && Enabled(max, PeerAt(WithInbox(sys, e, [p]), e), Deliver)
    ensures var handled := Stepped(max, WithInbox(sys, e, [p]), e, Deliver);
            && |handled.ends| == |sys.ends| && Shaped(handled)
            && Stepped(max, SetInboxes(sys, boxes), e, Deliver) == SetInboxes(handled, boxes[e := rest])
  {
    PeerInbox(sys, boxes, e);
    var alone := WithInbox(sys, e, [p]);
    assert PeerAt(alone, e) == PeerAt(sys, e).(inbox := [p]);
    HandledInbox(max, PeerAt(sys, e), p, rest);
    PeersAfter(max, alone, e, Deliver, e);
    hide Acted, PeerAt;
    var one := Stepped(max, SetInboxes(sys, boxes), e, Deliver);
    var two := SetInboxes(Stepped(max, alone, e, Deliver), boxes[e := rest]);
    assert one.ends == two.ends;
  }

  /** The moves that are calls, wake-ups and timer steps, not frames going out or coming in. */
  function Calls(ms: seq<Move>): seq<Move> {
    if ms == [] then []
    else Calls(ms[..|ms| - 1])
         + if ms[|ms| - 1].action.Emit? || ms[|ms| - 1].action.Deliver? then [] else [ms[|ms| - 1]]
  }

  function WireCalls(ms: seq<WireMove>): seq<Move> {
    if ms == [] then []
    else WireCalls(ms[..|ms| - 1])
         + if ms[|ms| - 1].Act? then [Move(ms[|ms| - 1].end, ms[|ms| - 1].action)] else []
  }

  lemma Grown(max: pos, t: Trace, m: Move, sys: System) returns (t': Trace)
    requires IsRun(max, t) && IsStep(max, Final(t), m, sys)
    ensures IsRun(max, t') && Final(t') == sys
    ensures Calls(t'.moves) == Calls(t.moves) + if m.action.Emit? || m.action.Deliver? then [] else [m]
    ensures AllProper(t) && Proper(Final(t), m) ==> AllProper(t')
  {
    t' := Extended(t, m, sys);
    assert t'.moves[..|t.moves|] == t.moves;
    ExtendedRun(max, t, m, sys);
    hide Proper;
    if AllProper(t) && Proper(Final(t), m) {
      ExtendedProper(t, m, sys);
    }
  }

  /** Handling the packets of a chunk, one after the other. */
  lemma {:induction false} DeliveriesSimulated(max: pos, t: Trace, sys: System, boxes: seq<seq<Packet>>, e: nat,
                                               ps: seq<Packet>, rest: seq<Packet>)
    returns (t': Trace)
    requires Shaped(sys) && |boxes| == |sys.ends| && e < |sys.ends| && boxes[e] == ps + rest
    requires IsRun(max, t) && Final(t) == SetInboxes(sys, boxes)
    ensures IsRun(max, t') && Final(t') == SetInboxes(HandleAll(max, sys, e, ps), boxes[e := rest])
    ensures Calls(t'.moves) == Calls(t.moves)
    ensures AllProper(t) ==> AllProper(t')
    decreases |ps|
  {
    hide IsRun, AllProper, Stepped, Enabled, SetInboxes, Calls;
    if ps == [] {
      assert [] + rest == rest && boxes[e := rest] == boxes;
      t' := t;
    } else {
      var p, more := ps[0], ps[1..];
      assert ps + rest == [p] + (more + rest);
      DeliverSimulated(max, sys, boxes, e, p, more + rest);
      PeerInbox(sys, boxes, e);
      var handled := Stepped(max, WithInbox(sys, e, [p]), e, Deliver);
      var boxes' := boxes[e := more + rest];
      var t1 := Grown(max, t, Move(e, Deliver), SetInboxes(handled, boxes'));
      t' := DeliveriesSimulated(max, t1, handled, boxes', e, more, rest);
      assert boxes'[e := rest] == boxes[e := rest];
    }
  }

  // ---- a step on bytes is a few steps on packets ----

  /** sendResponse is called for requests of the same session only, as in RequestRuns. */
  ghost predicate ProperWire(w: Wired, m: WireMove)
    requires m.end < |w.sys.ends|
  {
    m.Act? ==> Proper(w.sys, Move(m.end, m.action))
  }

  /** The frames on the lines after a step. */
  ghost function FramesAfter(max: pos, w: Wired, frames: seq<seq<Parser.Framed>>, m: WireMove): seq<seq<Parser.Framed>>
    requires WireShaped(w) && CanWire(max, w, m) && |frames| == |w.lines| && !m.Arrive?
  {
    match m
    case Act(_, _) => frames
    case EmitData(e, id, sessionId, messageId, pad) =>
      frames[Other(e) := frames[Other(e)] + [NextFrame(w, e, id, sessionId, messageId, pad)]]
    case EmitOther(e, f) => frames[Other(e) := frames[Other(e)] + [f]]
  }

  lemma SameProper(sys: System, boxes: seq<seq<Packet>>, m: Move)
    requires |boxes| == |sys.ends| && m.end < |sys.ends|
    ensures Proper(SetInboxes(sys, boxes), m) == Proper(sys, m)
  {
    hide Heard;
  }

  lemma BoxesAt(frames: seq<seq<Parser.Framed>>, e: nat, fs: seq<Parser.Framed>)
    requires e < |frames|
    ensures Boxes(frames)[e] == Packets(Parser.Messages(frames[e]))
    ensures Boxes(frames[e := fs]) == Boxes(frames)[e := Packets(Parser.Messages(fs))]
  {
    hide Packets, Parser.Messages;
  }

  lemma ActWire(max: pos, w: Wired, frames: seq<seq<Parser.Framed>>, sys: System, e: nat, a: Action)
    requires Simulates(w, frames, sys) && CanWire(max, w, Act(e, a))
    ensures Shaped(sys) && CanMove(max, sys, Move(e, a)) && (ProperWire(w, Act(e, a)) ==> Proper(sys, Move(e, a)))
    ensures Simulates(WireStepped(max, w, Act(e, a)), frames, Stepped(max, sys, e, a))
  {
    hide LineHolds, Boxes, Stepped, SetInboxes, Enabled, Proper;
    ActSimulated(max, w.sys, Boxes(frames), e, a);
    PeersAfter(max, w.sys, e, a, e);
    PeersAfter(max, sys, e, a, e);
    SameProper(w.sys, Boxes(frames), Move(e, a));
  }

  lemma EmitWire(max: pos, w: Wired, frames: seq<seq<Parser.Framed>>, sys: System, m: WireMove)
    requires Simulates(w, frames, sys) && CanWire(max, w, m) && m.EmitData?
    ensures Shaped(sys) && CanMove(max, sys, Move(m.end, Emit(m.id)))
    ensures Simulates(WireStepped(max, w, m), FramesAfter(max, w, frames, m), Stepped(max, sys, m.end, Emit(m.id)))
  {
    hide LineHolds, Boxes, Stepped, SetInboxes, Sendable, Encode;
    var e, q, f := m.end, Other(m.end), NextFrame(w, m.end, m.id, m.sessionId, m.messageId, m.pad);
    EmitSimulated(max, w.sys, Boxes(frames), e, m.id);
    LinePut(w.lines[q], frames[q], f);
    BoxesAt(frames, q, frames[q] + [f]);
    PeersAfter(max, w.sys, e, Emit(m.id), e);
    PeersAfter(max, sys, e, Emit(m.id), e);
  }

  lemma OtherWire(max: pos, w: Wired, frames: seq<seq<Parser.Framed>>, sys: System, m: WireMove)
    requires Simulates(w, frames, sys) && CanWire(max, w, m) && m.EmitOther?
    ensures Simulates(WireStepped(max, w, m), FramesAfter(max, w, frames, m), sys)
  {
    hide LineHolds, Boxes, SetInboxes, Sendable, Encode;
    var q := Other(m.end);
    LinePut(w.lines[q], frames[q], m.frame);
    BoxesAt(frames, q, frames[q] + [m.frame]);
    assert Packets(Parser.Messages(frames[q])) + [] == Packets(Parser.Messages(frames[q]));
    assert Boxes(frames)[q := Boxes(frames)[q]] == Boxes(frames);
  }

  /** A chunk arrives: ps are the packets of its complete frames, rest those of the frames behind them. */
  lemma ArriveWire(max: pos, w: Wired, frames: seq<seq<Parser.Framed>>, e: nat, n: nat, ps: seq<Packet>)
    returns (rest: seq<Packet>, frames': seq<seq<Parser.Framed>>)
    requires WireShaped(w) && |frames| == |w.lines| && CanWire(max, w, Arrive(e, n))
    requires forall d :: 0 <= d < |frames| ==> LineHolds(w.lines[d], frames[d])
    requires ps == Packets(Parser.Drain(w.lines[e].ring + w.lines[e].flight[..n]).messages)
    ensures Boxes(frames)[e] == ps + rest
    ensures Simulates(WireStepped(max, w, Arrive(e, n)), frames',
                      SetInboxes(HandleAll(max, w.sys, e, ps), Boxes(frames)[e := rest]))
  {
    hide LineHolds, Boxes, SetInboxes, Parser.Drain, FramesLeft, HandleAll, Packets, Parser.Messages;
    LineArrives(w.lines[e], frames[e], n);
    var more := FramesLeft(w.lines[e], frames[e], n);
    rest, frames' := Packets(Parser.Messages(more)), frames[e := more];
    BoxesAt(frames, e, more);
    ArrivedShaped(max, w, frames, e, ps, rest);
  }

  lemma ArrivedShaped(max: pos, w: Wired, frames: seq<seq<Parser.Framed>>, e: nat, ps: seq<Packet>, rest: seq<Packet>)
    requires WireShaped(w) && |frames| == |w.lines| && e < |frames|
    ensures Shaped(SetInboxes(HandleAll(max, w.sys, e, ps), Boxes(frames)[e := rest]))
  {
    hide HandleAll, Boxes;
    PeerInbox(HandleAll(max, w.sys, e, ps), Boxes(frames)[e := rest], e);
  }

  lemma RunSize(max: pos, t: Trace)
    requires IsRun(max, t)
    ensures |t.states| == |t.moves| + 1
  {
  }

  /** t' is t with one more step on bytes. */
  ghost predicate Grew(max: pos, w: Wired, t: Trace, m: WireMove, t': Trace, frames': seq<seq<Parser.Framed>>)
    requires WireShaped(w) && CanWire(max, w, m)
  {
    && IsRun(max, t') && Simulates(WireStepped(max, w, m), frames', Final(t'))
    && Calls(t'.moves) == Calls(t.moves) + (if m.Act? then [Move(m.end, m.action)] else [])
    && (|t.states| == |t.moves| + 1 && AllProper(t) && ProperWire(w, m) ==> AllProper(t'))
  }

  lemma ActGrows(max: pos, w: Wired, frames: seq<seq<Parser.Framed>>, t: Trace, m: WireMove)
    returns (t': Trace, frames': seq<seq<Parser.Framed>>)
    requires WireShaped(w) && CanWire(max, w, m)
    requires IsRun(max, t) && Simulates(w, frames, Final(t)) && m.Act?
    ensures Grew(max, w, t, m, t', frames')
  {
    assert t.states != [] && |t.states| == |t.moves| + 1;
    SimulatedShapes(w, frames, Final(t));
    WireInBounds(max, w, m);
    hide IsRun, WireStepped, AllProper, CanWire, LineHolds, SetInboxes, Boxes, CanMove, Stepped, Heard, Calls;
    ActWire(max, w, frames, Final(t), m.end, m.action);
    t' := Grown(max, t, Move(m.end, m.action), Stepped(max, Final(t), m.end, m.action));
    frames' := FramesAfter(max, w, frames, m);
  }

  lemma EmitGrows(max: pos, w: Wired, frames: seq<seq<Parser.Framed>>, t: Trace, m: WireMove)
    returns (t': Trace, frames': seq<seq<Parser.Framed>>)
    requires WireShaped(w) && CanWire(max, w, m)
    requires IsRun(max, t) && Simulates(w, frames, Final(t)) && m.EmitData?
    ensures Grew(max, w, t, m, t', frames')
  {
    assert t.states != [] && |t.states| == |t.moves| + 1;
    SimulatedShapes(w, frames, Final(t));
    WireInBounds(max, w, m);
    hide IsRun, WireStepped, AllProper, CanWire, LineHolds, SetInboxes, Boxes, CanMove, Stepped, Heard, Calls,
      FramesAfter;
    EmitWire(max, w, frames, Final(t), m);
    t' := Grown(max, t, Move(m.end, Emit(m.id)), Stepped(max, Final(t), m.end, Emit(m.id)));
    frames' := FramesAfter(max, w, frames, m);
  }

  /** A chunk arrives: what its packets do without bytes. */
  lemma ArriveSeen(max: pos, w: Wired, frames: seq<seq<Parser.Framed>>, sys: System, m: WireMove)
    returns (ps: seq<Packet>, rest: seq<Packet>, frames': seq<seq<Parser.Framed>>)
    requires Simulates(w, frames, sys) && CanWire(max, w, m) && m.Arrive?
    ensures Shaped(w.sys) && m.end < |w.sys.ends| == |frames| && Boxes(frames)[m.end] == ps + rest
    ensures sys == SetInboxes(w.sys, Boxes(frames))
    ensures Simulates(WireStepped(max, w, m), frames',
                      SetInboxes(HandleAll(max, w.sys, m.end, ps), Boxes(frames)[m.end := rest]))
  {
    SimulatedShapes(w, frames, sys);
    SimulatedLines(w, frames, sys);
    ArriveBounds(max, w, m);
    hide WireStepped, LineHolds, SetInboxes, Boxes, Parser.Drain, Packets, HandleAll, Simulates, CanWire;
    var e, n := m.end, m.count;
    assert m == Arrive(e, n);
    ps := Packets(Parser.Drain(w.lines[e].ring + w.lines[e].flight[..n]).messages);
    rest, frames' := ArriveWire(max, w, frames, e, n, ps);
  }

  lemma ArriveGrows(max: pos, w: Wired, frames: seq<seq<Parser.Framed>>, t: Trace, m: WireMove)
    returns (t': Trace, frames': seq<seq<Parser.Framed>>)
    requires WireShaped(w) && CanWire(max, w, m)
    requires IsRun(max, t) && Simulates(w, frames, Final(t)) && m.Arrive?
    ensures Grew(max, w, t, m, t', frames')
  {
    RunSize(max, t);
    hide IsRun, WireStepped, AllProper, SetInboxes, Boxes, Calls, HandleAll, Simulates, ProperWire, CanWire, WireShaped;
    var ps, rest;
    ps, rest, frames' := ArriveSeen(max, w, frames, Final(t), m);
    t' := DeliveriesSimulated(max, t, w.sys, Boxes(frames), m.end, ps, rest);
    assert Calls(t.moves) + [] == Calls(t.moves);
  }

  lemma SimulatedLines(w: Wired, frames: seq<seq<Parser.Framed>>, sys: System)
    requires Simulates(w, frames, sys)
    ensures forall d :: 0 <= d < |frames| ==> LineHolds(w.lines[d], frames[d])
  {
    hide LineHolds, Boxes, SetInboxes;
  }

  lemma ArriveBounds(max: pos, w: Wired, m: WireMove)
    requires WireShaped(w) && CanWire(max, w, m) && m.Arrive?
    ensures m.end < |w.sys.ends| && m.count <= |w.lines[m.end].flight|
  {
  }

  lemma OtherGrows(max: pos, w: Wired, frames: seq<seq<Parser.Framed>>, t: Trace, m: WireMove)
    returns (t': Trace, frames': seq<seq<Parser.Framed>>)
    requires WireShaped(w) && CanWire(max, w, m)
    requires IsRun(max, t) && Simulates(w, frames, Final(t)) && m.EmitOther?
    ensures Grew(max, w, t, m, t', frames')
  {
    SimulatedShapes(w, frames, Final(t));
    hide IsRun, WireStepped, AllProper, CanWire, LineHolds, SetInboxes, Boxes, Calls, FramesAfter;
    OtherWire(max, w, frames, Final(t), m);
    t', frames' := t, FramesAfter(max, w, frames, m);
  }

  // ---- whole runs ----

  ghost predicate IsWireStep(max: pos, w: Wired, m: WireMove, w': Wired) {
    WireShaped(w) && CanWire(max, w, m) && w' == WireStepped(max, w, m)
  }

  datatype WireTrace = WireTrace(states: seq<Wired>, moves: seq<WireMove>)

  ghost predicate WireInitial(w: Wired) {
    WireShaped(w) && Initial(w.sys) && forall e :: 0 <= e < |w.lines| ==> w.lines[e] == Line([], [])
  }

  ghost predicate IsWireRun(max: pos, t: WireTrace) {
    && |t.states| == |t.moves| + 1 && WireInitial(t.states[0])
    && forall k {:trigger t.moves[k]} :: 0 <= k < |t.moves| ==>
         IsWireStep(max, t.states[k], t.moves[k], t.states[k + 1])
  }

  ghost predicate AllProperWire(t: WireTrace)
    requires |t.states| == |t.moves| + 1
  {
    forall k {:trigger t.moves[k]} :: 0 <= k < |t.moves| && t.moves[k].end < |t.states[k].sys.ends| ==>
      ProperWire(t.states[k], t.moves[k])
  }

  lemma InitialSimulates(max: pos, w: Wired) returns (t: Trace, frames: seq<seq<Parser.Framed>>)
    requires WireInitial(w)
    ensures IsRun(max, t) && AllProper(t) && Simulates(w, frames, Final(t)) && Calls(t.moves) == []
  {
    frames := seq(|w.lines|, e => []);
    assert Parser.Messages([]) == [] && Packets([]) == [];
    assert SetInboxes(w.sys, Boxes(frames)).ends == w.sys.ends;
    t := Trace([w.sys], []);
  }

  /** A run on bytes does what some run on packets does, with exactly the same calls in the same order. */
  lemma {:induction false} WireRunSimulated(max: pos, wt: WireTrace, k: nat)
    returns (t: Trace, frames: seq<seq<Parser.Framed>>)
    requires IsWireRun(max, wt) && k < |wt.states|
    ensures IsRun(max, t) && Simulates(wt.states[k], frames, Final(t))
    ensures Calls(t.moves) == WireCalls(wt.moves[..k])
    ensures AllProperWire(wt) ==> AllProper(t)
    decreases k
  {
    hide Calls, IsRun, AllProper, Simulates, WireInitial, CanWire, WireStepped, ProperWire;
    if k == 0 {
      t, frames := InitialSimulates(max, wt.states[0]);
    } else {
      var w, m := wt.states[k - 1], wt.moves[k - 1];
      assert IsWireStep(max, w, m, wt.states[k]);
      var t1, frames1 := WireRunSimulated(max, wt, k - 1);
      WireInBounds(max, w, m);
      RunSize(max, t1);
      t, frames := WireGrown(max, w, frames1, t1, m);
      assert AllProperWire(wt) ==> ProperWire(w, m);
      assert wt.moves[..k][..k - 1] == wt.moves[..k - 1] && wt.moves[..k][k - 1] == m;
    }
  }

  lemma WireInBounds(max: pos, w: Wired, m: WireMove)
    requires WireShaped(w) && CanWire(max, w, m)
    ensures m.end < |w.sys.ends| && (m.Act? ==> !m.action.Emit? && !m.action.Deliver?)
  {
  }

  lemma WireGrown(max: pos, w: Wired, frames: seq<seq<Parser.Framed>>, t: Trace, m: WireMove)
    returns (t': Trace, frames': seq<seq<Parser.Framed>>)
    requires WireShaped(w) && CanWire(max, w, m) && IsRun(max, t) && Simulates(w, frames, Final(t))
    ensures Grew(max, w, t, m, t', frames')
  {
    hide *;
    match m
    case Act(_, _) => t', frames' := ActGrows(max, w, frames, t, m);
    case EmitData(_, _, _, _, _) => t', frames' := EmitGrows(max, w, frames, t, m);
    case EmitOther(_, _) => t', frames' := OtherGrows(max, w, frames, t, m);
    case Arrive(_, _) => t', frames' := ArriveGrows(max, w, frames, t, m);
  }

  lemma SameFields(w: Wired, frames: seq<seq<Parser.Framed>>, sys: System, e: nat)
    requires Simulates(w, frames, sys) && e < |w.sys.ends|
    ensures sys.processes == w.sys.processes && sys.ends[e] == w.sys.ends[e].(inbox := sys.ends[e].inbox)
  {
    hide LineHolds, Boxes;
  }

  lemma SimulatedShapes(w: Wired, frames: seq<seq<Parser.Framed>>, sys: System)
    requires Simulates(w, frames, sys)
    ensures WireShaped(w) && |frames| == |w.lines| && Shaped(sys) && |sys.ends| == |w.sys.ends|
    ensures sys == SetInboxes(w.sys, Boxes(frames))
  {
  }

  /** Returned answers look the same with and without bytes. */
  lemma SameReturned(w: Wired, frames: seq<seq<Parser.Framed>>, sys: System, e: nat, i: nat)
    requires Simulates(w, frames, sys) && HasReturned(w.sys, e, i)
    ensures HasReturned(sys, e, i) && ReturnedWith(sys, e, i) == ReturnedWith(w.sys, e, i)
  {
    hide Simulates, Stored;
    SimulatedShapes(w, frames, sys);
    SameFields(w, frames, sys, e);
  }

  lemma {:induction false} CallsAre(ms: seq<Move>, m: Move)
    ensures m in Calls(ms) <==> m in ms && !m.action.Emit? && !m.action.Deliver?
    decreases |ms|
  {
    if ms != [] {
      CallsAre(ms[..|ms| - 1], m);
      assert ms == ms[..|ms| - 1] + [ms[|ms| - 1]];
    }
  }

  lemma {:induction false} WireCallsAre(ms: seq<WireMove>, m: Move)
    ensures m in WireCalls(ms) <==> Act(m.end, m.action) in ms
    decreases |ms|
  {
    if ms != [] {
      WireCallsAre(ms[..|ms| - 1], m);
      assert ms == ms[..|ms| - 1] + [ms[|ms| - 1]];
    }
  }

  /** On the byte lines: session q was called with sendResponse for this answer. */
  ghost predicate RespondedWire(wt: WireTrace, q: nat, a: Answer) {
    exists k :: 0 <= k < |wt.moves| && wt.moves[k].Act? && wt.moves[k].end == q && wt.moves[k].action.SendResponse?
                && wt.moves[k].action.blockerId == a.id && wt.moves[k].action.data == a.bytes
  }

  /** Session e called sendRequest under this id, and the socket took every frame of it. */
  ghost predicate CallingWire(wt: WireTrace, e: nat, id: u64) {
    && Act(e, Fail(id)) !in wt.moves
    && exists k :: 0 <= k < |wt.moves| && wt.moves[k].Act? && wt.moves[k].end == e && wt.moves[k].action.SendRequest?
                   && wt.moves[k].action.id == id
  }

  lemma RespondedThere(t: Trace, wt: WireTrace, q: nat, a: Answer)
    requires Calls(t.moves) == WireCalls(wt.moves) && Responded(t, q, a)
    ensures RespondedWire(wt, q, a)
  {
    var k :| 0 <= k < |t.moves| && t.moves[k].end == q && t.moves[k].action.SendResponse?
             && t.moves[k].action.blockerId == a.id && t.moves[k].action.data == a.bytes;
    CallsAre(t.moves, t.moves[k]);
    WireCallsAre(wt.moves, t.moves[k]);
  }

  lemma CallingThere(t: Trace, wt: WireTrace, e: nat, id: u64)
    requires Calls(t.moves) == WireCalls(wt.moves) && Calling(t, |t.moves|, e, id)
    ensures CallingWire(wt, e, id)
  {
    var timeout :| Asked(t, |t.moves|, e, id, timeout);
    var k :| 0 <= k < |t.moves| && t.moves[k].end == e && t.moves[k].action.SendRequest?
             && t.moves[k].action.id == id && t.moves[k].action.timeout == timeout;
    CallsAre(t.moves, t.moves[k]);
    WireCallsAre(wt.moves, t.moves[k]);
    CallsAre(t.moves, Move(e, Fail(id)));
    WireCallsAre(wt.moves, Move(e, Fail(id)));
  }

  function LastWired(t: WireTrace): Wired
    requires t.states != []
  {
    t.states[|t.states| - 1]
  }

  /** Some session of the process has a peer that was called with sendResponse for this answer. */
  ghost predicate RespondedIn(wt: WireTrace, sys: System, process: nat, a: Answer) {
    exists d :: 0 <= d < |sys.ends| && sys.ends[d].process == process && RespondedWire(wt, Other(d), a)
  }

  lemma AnsweredThere(t: Trace, wt: WireTrace, sys: System, packets: System, e: nat, a: Answer)
    requires Calls(t.moves) == WireCalls(wt.moves) && e < |sys.ends| == |packets.ends|
    requires forall d :: 0 <= d < |sys.ends| ==> packets.ends[d].process == sys.ends[d].process
    requires exists d :: 0 <= d < |packets.ends| && packets.ends[d].process == packets.ends[e].process
                         && Responded(t, Other(d), a)
    ensures RespondedIn(wt, sys, sys.ends[e].process, a)
  {
    hide Responded, RespondedWire, Calls, WireCalls;
    var d :| 0 <= d < |packets.ends| && packets.ends[d].process == packets.ends[e].process
             && Responded(t, Other(d), a);
    RespondedThere(t, wt, Other(d), a);
  }

  lemma SameProcesses(w: Wired, frames: seq<seq<Parser.Framed>>, sys: System)
    requires Simulates(w, frames, sys)
    ensures |sys.ends| == |w.sys.ends|
    ensures forall d :: 0 <= d < |w.sys.ends| ==> sys.ends[d].process == w.sys.ends[d].process
  {
    hide LineHolds, Boxes;
  }

  /** Main result: the guarantees of RequestRuns hold on byte streams, with any padding bytes, cut into chunks
      anywhere and mixed with any other messages: what sendRequest returns with was passed to sendResponse for
      that id, and by the peer of its own connection if responses name only requests of their own session. */
  lemma {:induction false} AnswersOnTheWire(max: pos, wt: WireTrace, e: nat, i: nat)
    requires IsWireRun(max, wt) && HasReturned(LastWired(wt).sys, e, i)
    ensures var sys, a := LastWired(wt).sys, ReturnedWith(LastWired(wt).sys, e, i);
            && CallingWire(wt, e, a.id) && RespondedIn(wt, sys, sys.ends[e].process, a)
            && (AllProperWire(wt) ==> RespondedWire(wt, Other(e), a))
  {
    assert wt.states != [] && |wt.states| == |wt.moves| + 1;
    hide IsWireRun, IsRun, AllProper, AllProperWire, Simulates, AnsweredIn, Answers, ReturnedWith, HasReturned, Calls,
      WireCalls, CallingWire, RespondedIn, RespondedWire, Calling, Responded;
    var t, frames := WireRunSimulated(max, wt, |wt.moves|);
    assert wt.moves[..|wt.moves|] == wt.moves;
    SameReturned(LastWired(wt), frames, Final(t), e, i);
    SameProcesses(LastWired(wt), frames, Final(t));
    PacketAnswers(max, t, wt, LastWired(wt).sys, e, i);
  }

  lemma PacketAnswers(max: pos, t: Trace, wt: WireTrace, sys: System, e: nat, i: nat)
    requires IsRun(max, t) && HasReturned(Final(t), e, i) && Calls(t.moves) == WireCalls(wt.moves)
    requires e < |sys.ends| == |Final(t).ends|
    requires forall d :: 0 <= d < |sys.ends| ==> Final(t).ends[d].process == sys.ends[d].process
    ensures var a := ReturnedWith(Final(t), e, i);
            && CallingWire(wt, e, a.id) && RespondedIn(wt, sys, sys.ends[e].process, a)
            && (|t.states| == |t.moves| + 1 && AllProper(t) ==> RespondedWire(wt, Other(e), a))
  {
    assert |t.states| == |t.moves| + 1;
    var a := ReturnedWith(Final(t), e, i);
    hide IsRun, AllProper, AnsweredIn, Answers, ReturnedWith, HasReturned, Calls, WireCalls, CallingWire, RespondedIn,
      RespondedWire, Calling, Responded;
    AnswersNeverMixed(max, t, e, i);
    CallingThere(t, wt, e, a.id);
    AnsweredThere(t, wt, sys, Final(t), e, a);
    if AllProper(t) {
      AnswersFromOwnPeer(max, t, e, i);
      RespondedThere(t, wt, Other(e), a);
    }
  }
}
