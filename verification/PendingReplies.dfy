/** Messages waiting for a reply, and their timeout (src/handler/reply_handler.cpp). */
module PendingReplies {
  import opened Bytes
  import opened SwapList

  const TIMEOUT: real := 2.0

  /** One entry of the list; S stands for the session pointer. */
  datatype Pending<+S> = Pending(timer: real, kind: byte, session: S, ignored: bool)

  type PendingList<+S> = seq<Item<Pending<S>>>

  /** (messageId << 32) + sessionId, in 64 bits. */
  function Key(sessionId: u32, messageId: u32): u64 {
    messageId * 0x1_0000_0000 + sessionId
  }

  /** The packed key loses nothing: its low half is the session id the marking loop compares with. */
  lemma KeyInjective(s1: u32, m1: u32, s2: u32, m2: u32)
    ensures Key(s1, m1) == Key(s2, m2) <==> s1 == s2 && m1 == m2
    ensures Key(s1, m1) % 0x1_0000_0000 == s1
  {
    if Key(s1, m1) == Key(s2, m2) {
      assert (m1 - m2) * 0x1_0000_0000 == s2 - s1;
    }
  }

  function Added<S>(l: PendingList<S>, kind: byte, sessionId: u32, messageId: u32, session: S): PendingList<S> {
    l + [Item(Key(sessionId, messageId), Pending(0.0, kind, session, false))]
  }

  /** What is left of the list when a frame answers the message with this key, or none. */
  function Struck<S>(l: PendingList<S>, answered: Option<u64>): PendingList<S> {
    if answered.Some? then Remove(l, answered.value) else l
  }

  function StruckAll<S>(l: PendingList<S>, answered: seq<u64>): PendingList<S>
    decreases |answered|
  {
    if answered == [] then l else StruckAll(Remove(l, answered[0]), answered[1..])
  }

  function Marked<S>(p: Item<Pending<S>>, sessionId: u32): Item<Pending<S>> {
    if p.id % 0x1_0000_0000 == sessionId then p.(value := p.value.(ignored := true)) else p
  }

  function MarkSession<S>(l: PendingList<S>, sessionId: u32): (r: PendingList<S>)
    ensures |r| == |l|
  {
    seq(|l|, i requires 0 <= i < |l| => Marked(l[i], sessionId))
  }

  function Ticked<S>(p: Item<Pending<S>>): Item<Pending<S>> {
    p.(value := p.value.(timer := p.value.timer + 1.0))
  }

  /** One pass of the timer loop from index i: it stops at the first entry that runs out. */
  function StepFrom<S>(l: PendingList<S>, i: nat): PendingList<S>
    decreases |l| - i
  {
    if i >= |l| then l
    else
      var l' := l[i := Ticked(l[i])];
      if l'[i].value.timer >= TIMEOUT then Remove(l', l'[i].id) else StepFrom(l', i + 1)
  }

  function Step<S>(l: PendingList<S>): PendingList<S> { StepFrom(l, 0) }

  /** The list of src/handler/reply_handler.h with the operations of its class. */
  class ReplyHandler<S(==)> {
    var messageList: PendingList<S>

    constructor ()
      ensures messageList == []
    {
      messageList := [];
    }

    method AddMessage(kind: byte, sessionId: u32, messageId: u32, session: S)
      modifies this
      ensures messageList == Added(old(messageList), kind, sessionId, messageId, session)
    {
      messageList := messageList + [Item(Key(sessionId, messageId), Pending(0.0, kind, session, false))];
    }

    method RemoveMessage(key: u64) returns (found: bool)
      modifies this
      ensures messageList == Remove(old(messageList), key)
      ensures found <==> key in Ids(old(messageList))
    {
      var i := 0;
      while i < |messageList|
        invariant i <= |messageList| && messageList == old(messageList)
        invariant i <= Find(messageList, key)
      {
        if messageList[i].id == key {
          FindFirst(messageList, key, i);
          FoundIffIn(messageList, key);
          var last := |messageList| - 1;
          if |messageList| > 1 {
            messageList := messageList[i := messageList[last]][last := messageList[i]];
            messageList := messageList[..last];
          } else {
            messageList := [];
          }
          return true;
        }
        i := i + 1;
      }
      FoundIffIn(messageList, key);
      return false;
    }

    method RemoveAllOfSession(sessionId: u32)
      modifies this
      ensures messageList == MarkSession(old(messageList), sessionId)
    {
      var i := 0;
      while i < |messageList|
        invariant i <= |messageList| == |old(messageList)|
        invariant forall j :: 0 <= j < i ==> messageList[j] == Marked(old(messageList)[j], sessionId)
        invariant forall j :: i <= j < |messageList| ==> messageList[j] == old(messageList)[j]
      {
        if messageList[i].id % 0x1_0000_0000 == sessionId {
          messageList := messageList[i := messageList[i].(value := messageList[i].value.(ignored := true))];
        }
        i := i + 1;
      }
    }

    method MakeTimerStep()
      modifies this
      ensures messageList == Step(old(messageList))
    {
      var i := 0;
      while i < |messageList|
        invariant StepFrom(messageList, i) == Step(old(messageList))
        decreases |messageList| - i
      {
        var temp := messageList[i];
        messageList := messageList[i := temp.(value := temp.value.(timer := temp.value.timer + 1.0))];
        if messageList[i].value.timer >= TIMEOUT {
          var _ := RemoveMessage(messageList[i].id);
          return;
        }
        i := i + 1;
      }
    }
  }

  // ---- what the list means ----

  /** removeAllOfSession silences exactly the entries of that session, and keeps every key. */
  lemma MarkRefines<S>(l: PendingList<S>, sessionId: u32)
    requires Distinct(l)
    ensures Distinct(MarkSession(l, sessionId)) && Ids(MarkSession(l, sessionId)) == Ids(l)
    ensures forall id :: id in Ids(l) ==>
              AsMap(MarkSession(l, sessionId))[id]
              == if id % 0x1_0000_0000 == sessionId then AsMap(l)[id].(ignored := true) else AsMap(l)[id]
  {
    hide Find;
    var l' := MarkSession(l, sessionId);
    assert forall j :: 0 <= j < |l| ==> l'[j].id == l[j].id;
    forall id | id in Ids(l)
      ensures AsMap(l')[id] == if id % 0x1_0000_0000 == sessionId then AsMap(l)[id].(ignored := true) else AsMap(l)[id]
    {
      var j :| 0 <= j < |l| && l[j].id == id;
      FindAt(l, j);
      FindAt(l', j);
    }
  }

  datatype ListCall<+S> =
    | Add(kind: byte, sessionId: u32, messageId: u32, session: S)
    | RemoveKey(key: u64)
    | MarkAll(sessionId: u32)

  function OnList<S>(l: PendingList<S>, c: ListCall<S>): PendingList<S> {
    match c
    case Add(kind, sessionId, messageId, session) => Added(l, kind, sessionId, messageId, session)
    case RemoveKey(key) => Remove(l, key)
    case MarkAll(sessionId) => MarkSession(l, sessionId)
  }

  /** The same calls on a finite map. */
  function OnMap<S>(m: map<u64, Pending<S>>, c: ListCall<S>): map<u64, Pending<S>> {
    match c
    case Add(kind, sessionId, messageId, session) => m[Key(sessionId, messageId) := Pending(0.0, kind, session, false)]
    case RemoveKey(key) => m - {key}
    case MarkAll(sessionId) =>
      map id | id in m :: if id % 0x1_0000_0000 == sessionId then m[id].(ignored := true) else m[id]
  }

  function ListAfter<S>(l: PendingList<S>, cs: seq<ListCall<S>>): PendingList<S>
    decreases |cs|
  {
    if cs == [] then l else ListAfter(OnList(l, cs[0]), cs[1..])
  }

  function MapAfter<S>(m: map<u64, Pending<S>>, cs: seq<ListCall<S>>): map<u64, Pending<S>>
    decreases |cs|
  {
    if cs == [] then m else MapAfter(OnMap(m, cs[0]), cs[1..])
  }

  /** No message is added while one with the same ids is still pending. */
  predicate FreshKeys<S>(m: map<u64, Pending<S>>, cs: seq<ListCall<S>>)
    decreases |cs|
  {
    cs != [] ==>
      && (cs[0].Add? ==> Key(cs[0].sessionId, cs[0].messageId) !in m)
      && FreshKeys(OnMap(m, cs[0]), cs[1..])
  }

  lemma MarkAllRefines<S>(l: PendingList<S>, sessionId: u32)
    requires Distinct(l)
    ensures Distinct(MarkSession(l, sessionId))
    ensures AsMap(MarkSession(l, sessionId)) == OnMap(AsMap(l), MarkAll(sessionId))
  {
    MarkRefines(l, sessionId);
    hide AsMap, Ids, MarkSession, Distinct;
    assert AsMap(MarkSession(l, sessionId)).Keys == OnMap(AsMap(l), MarkAll(sessionId)).Keys;
  }

  lemma CallRefines<S>(l: PendingList<S>, c: ListCall<S>)
    requires Distinct(l) && (c.Add? ==> Key(c.sessionId, c.messageId) !in AsMap(l))
    ensures Distinct(OnList(l, c)) && AsMap(OnList(l, c)) == OnMap(AsMap(l), c)
  {
    hide AsMap, Ids, Distinct, Find, Remove, MarkSession;
    match c
    case Add(kind, sessionId, messageId, session) =>
      AddRefines(l, Item(Key(sessionId, messageId), Pending(0.0, kind, session, false)));
    case RemoveKey(key) => RemoveRefines(l, key);
    case MarkAll(sessionId) => MarkAllRefines(l, sessionId);
  }

  /** Under every sequence of calls the unordered vector is the finite map from keys to entries. */
  lemma {:induction false} ListIsMap<S>(l: PendingList<S>, cs: seq<ListCall<S>>)
    requires Distinct(l) && FreshKeys(AsMap(l), cs)
    ensures Distinct(ListAfter(l, cs)) && AsMap(ListAfter(l, cs)) == MapAfter(AsMap(l), cs)
    decreases |cs|
  {
    hide AsMap, Distinct, OnList, OnMap;
    if cs != [] {
      CallRefines(l, cs[0]);
      ListIsMap(OnList(l, cs[0]), cs[1..]);
    }
  }

  /** Between two steps every stored timer is below the timeout. */
  ghost predicate InTime<S>(l: PendingList<S>) {
    forall i :: 0 <= i < |l| ==> 0.0 <= l[i].value.timer < TIMEOUT
  }

  /** Index of the first entry the next step takes out, or the length of the list. */
  function FirstDue<S>(l: PendingList<S>): (i: nat)
    ensures i <= |l| && (i < |l| ==> l[i].value.timer + 1.0 >= TIMEOUT)
    ensures forall j :: 0 <= j < i ==> l[j].value.timer + 1.0 < TIMEOUT
  {
    if l == [] then 0
    else if l[0].value.timer + 1.0 >= TIMEOUT then 0
    else
      var i := FirstDue(l[1..]);
      assert forall j :: 1 <= j <= i ==> l[j] == l[1..][j - 1];
      1 + i
  }

  /** The entries before index n ticked, the others as they were. */
  function TickedUpTo<S>(l: PendingList<S>, n: nat): (r: PendingList<S>)
    ensures |r| == |l|
  {
    seq(|l|, i requires 0 <= i < |l| => if i < n then Ticked(l[i]) else l[i])
  }

  lemma TickedIds<S>(l: PendingList<S>, n: nat)
    ensures Distinct(l) <==> Distinct(TickedUpTo(l, n))
    ensures Ids(TickedUpTo(l, n)) == Ids(l)
  {
    assert forall i :: 0 <= i < |l| ==> TickedUpTo(l, n)[i].id == l[i].id;
  }

  lemma {:induction false} StepFromShape<S>(l: PendingList<S>, i: nat)
    requires Distinct(l) && i <= FirstDue(l)
    ensures var due := FirstDue(l);
            StepFrom(TickedUpTo(l, i), i)
            == if due < |l| then SwapOut(TickedUpTo(l, due + 1), due) else TickedUpTo(l, |l|)
    decreases |l| - i
  {
    hide Find, SwapOut, FirstDue;
    var due, t := FirstDue(l), TickedUpTo(l, i);
    if i < |l| {
      var t' := t[i := Ticked(t[i])];
      assert t' == TickedUpTo(l, i + 1);
      if i < due {
        StepFromShape(l, i + 1);
      } else {
        TickedIds(l, i + 1);
        FindAt(t', i);
      }
    }
  }

  /** Closed form of a timer step: without a due entry all tick; otherwise the entries before the first due
      one tick, that one goes, the last entry takes its place, and the rest waits. */
  lemma StepShape<S>(l: PendingList<S>)
    requires Distinct(l)
    ensures var due := FirstDue(l);
            Step(l) == if due < |l| then SwapOut(TickedUpTo(l, due + 1), due) else TickedUpTo(l, |l|)
  {
    assert TickedUpTo(l, 0) == l;
    StepFromShape(l, 0);
  }

  /** A step keeps the keys distinct and every timer below the timeout, and takes out at most one entry. */
  lemma StepKeeps<S>(l: PendingList<S>)
    requires Distinct(l) && InTime(l)
    ensures Distinct(Step(l)) && InTime(Step(l))
    ensures Ids(Step(l)) == Ids(l) - (if FirstDue(l) < |l| then {l[FirstDue(l)].id} else {})
    ensures |l| - 1 <= |Step(l)| <= |l|
  {
    StepShape(l);
    var due := FirstDue(l);
    if due < |l| {
      TickedIds(l, due + 1);
      var t := TickedUpTo(l, due + 1);
      SwapOutIds(t, due);
      forall j | 0 <= j < |l| - 1 ensures 0.0 <= Step(l)[j].value.timer < TIMEOUT {
        SwapOutAt(t, due, j);
      }
    } else {
      TickedIds(l, |l|);
    }
  }

  /** Where the entry at index j is after a step that does not take it out. */
  function NextIndex<S>(l: PendingList<S>, j: nat): (k: nat)
    requires j < |l|
    ensures k <= j
  {
    if FirstDue(l) < j == |l| - 1 then FirstDue(l) else j
  }

  lemma DueLeaves<S>(l: PendingList<S>)
    requires Distinct(l) && InTime(l) && FirstDue(l) < |l|
    ensures l[FirstDue(l)].id !in Ids(Step(l))
  {
    hide Step, FirstDue, InTime, Distinct, Ids;
    StepKeeps(l);
  }

  lemma StaysAt<S>(l: PendingList<S>, j: nat)
    requires Distinct(l) && j < |l| && FirstDue(l) != j
    ensures var k := NextIndex(l, j);
            k < |Step(l)| && Step(l)[k] == if j < FirstDue(l) then Ticked(l[j]) else l[j]
  {
    hide Step, SwapOut, FirstDue, Distinct, Ticked;
    StepShape(l);
    var due := FirstDue(l);
    if due < |l| {
      SwapOutAt(TickedUpTo(l, due + 1), due, NextIndex(l, j));
    }
  }

  /** No entry moves backwards, and none is passed over for nothing: a step ticks the entry at index j,
      or removes it, or removes one before it. */
  lemma StepProgress<S>(l: PendingList<S>, j: nat)
    requires Distinct(l) && InTime(l) && j < |l|
    ensures FirstDue(l) == j ==> l[j].id !in Ids(Step(l))
    ensures FirstDue(l) != j ==>
              var k := NextIndex(l, j);
              && k <= j && k < |Step(l)|
              && Step(l)[k] == (if j < FirstDue(l) then Ticked(l[j]) else l[j])
    ensures FirstDue(l) < j ==> l[FirstDue(l)].id !in Ids(Step(l))
  {
    hide Step, FirstDue, InTime, Distinct, Ids, NextIndex, Ticked;
    if FirstDue(l) < |l| {
      DueLeaves(l);
    }
    if FirstDue(l) != j {
      StaysAt(l, j);
    }
  }

  // ---- whole runs: calls and timer steps in any order ----

  datatype Event<+S> = Called(call: ListCall<S>) | Tick

  function After<S>(l: PendingList<S>, e: Event<S>): PendingList<S> {
    match e
    case Called(c) => OnList(l, c)
    case Tick => Step(l)
  }

  function Run<S>(l: PendingList<S>, es: seq<Event<S>>): PendingList<S>
    decreases |es|
  {
    if es == [] then l else Run(After(l, es[0]), es[1..])
  }

  function Ticks<S>(es: seq<Event<S>>): nat {
    if es == [] then 0 else (if es[0].Tick? then 1 else 0) + Ticks(es[1..])
  }

  ghost predicate AllDue<S>(l: PendingList<S>) {
    forall i :: 0 <= i < |l| ==> l[i].value.timer + 1.0 >= TIMEOUT
  }

  ghost function StepsLeft<S>(l: PendingList<S>): nat {
    |l| + if AllDue(l) then 0 else 1
  }

  lemma StepsLeftDrops<S>(l: PendingList<S>)
    requires Distinct(l) && InTime(l) && l != []
    ensures StepsLeft(Step(l)) < StepsLeft(l)
  {
    StepShape(l);
    var due := FirstDue(l);
    if due == |l| {
      assert !AllDue(l) by { assert l[0].value.timer + 1.0 < TIMEOUT; }
      assert AllDue(Step(l));
    } else if AllDue(l) {
      assert due == 0;
      forall j | 0 <= j < |l| - 1 ensures Step(l)[j].value.timer + 1.0 >= TIMEOUT {
        SwapOutAt(TickedUpTo(l, 1), 0, j);
      }
    }
  }

  /** Removing an entry leaves the timers of the others as they are. */
  lemma RemovedTimers<S>(l: PendingList<S>, key: u64)
    requires Distinct(l)
    ensures Distinct(Remove(l, key))
    ensures InTime(l) ==> InTime(Remove(l, key))
    ensures StepsLeft(Remove(l, key)) <= StepsLeft(l)
  {
    RemoveRefines(l, key);
    hide AsMap, Distinct, Ids;
    var i := Find(l, key);
    if i < |l| {
      forall j | 0 <= j < |l| - 1
        ensures Remove(l, key)[j].value.timer == l[if j == i then |l| - 1 else j].value.timer
      {
        SwapOutAt(l, i, j);
      }
    }
  }

  lemma MarkedTimers<S>(l: PendingList<S>, sessionId: u32)
    requires Distinct(l)
    ensures Distinct(MarkSession(l, sessionId))
    ensures InTime(l) ==> InTime(MarkSession(l, sessionId))
    ensures StepsLeft(MarkSession(l, sessionId)) == StepsLeft(l)
  {
    MarkRefines(l, sessionId);
    hide AsMap, Distinct, Ids, Find;
    var l' := MarkSession(l, sessionId);
    assert forall j :: 0 <= j < |l| ==> l'[j].value.timer == l[j].value.timer;
    if AllDue(l') {
      forall j | 0 <= j < |l| ensures l[j].value.timer + 1.0 >= TIMEOUT {
        assert l'[j].value.timer + 1.0 >= TIMEOUT;
      }
    }
  }

  ghost predicate NoAdditions<S>(es: seq<Event<S>>) {
    forall i :: 0 <= i < |es| && es[i].Called? ==> !es[i].call.Add?
  }

  /** One event without an addition: nothing comes closer to its end by less than a timer step brings it. */
  lemma AfterDrains<S>(l: PendingList<S>, e: Event<S>)
    requires Distinct(l) && InTime(l) && (e.Called? ==> !e.call.Add?)
    ensures Distinct(After(l, e)) && InTime(After(l, e))
    ensures StepsLeft(After(l, e)) <= StepsLeft(l)
    ensures e.Tick? ==> StepsLeft(After(l, e)) == 0 || StepsLeft(After(l, e)) < StepsLeft(l)
  {
    hide Step, Remove, MarkSession, InTime, Distinct, StepsLeft;
    match e
    case Tick =>
      StepKeeps(l);
      if l != [] {
        StepsLeftDrops(l);
      } else {
        NothingLeft<S>();
      }
    case Called(RemoveKey(key)) => RemovedTimers(l, key);
    case Called(MarkAll(sessionId)) => MarkedTimers(l, sessionId);
  }

  lemma NothingLeft<S>()
    ensures Step<S>([]) == [] && StepsLeft<S>([]) == 0
  {
  }

  lemma EmptyIsDrained<S>(l: PendingList<S>)
    ensures StepsLeft(l) == 0 ==> l == []
  {
  }

  /** Without new messages n pending entries are gone after at most n + 1 steps, early break or not, whatever is
      answered or silenced in between. */
  lemma {:induction false} DrainBound<S>(l: PendingList<S>, es: seq<Event<S>>)
    requires Distinct(l) && InTime(l) && NoAdditions(es) && StepsLeft(l) <= Ticks(es)
    ensures Run(l, es) == []
    decreases |es|
  {
    hide Distinct, InTime, After, StepsLeft;
    if es == [] {
      EmptyIsDrained(l);
    } else {
      AfterDrains(l, es[0]);
      DrainBound(After(l, es[0]), es[1..]);
    }
  }

  lemma {:induction false} DrainWithin<S>(l: PendingList<S>, es: seq<Event<S>>)
    requires Distinct(l) && InTime(l) && NoAdditions(es) && |l| + 1 <= Ticks(es)
    ensures Run(l, es) == []
  {
    DrainBound(l, es);
  }

  // ---- the stay of one entry, with anything else going on ----

  /** New messages come with keys not in the list, and nobody answers or sends again under key. */
  ghost predicate Undisturbed<S>(l: PendingList<S>, es: seq<Event<S>>, key: u64)
    decreases |es|
  {
    es != [] ==>
      && (es[0].Called? && es[0].call.Add? ==>
            var k := Key(es[0].call.sessionId, es[0].call.messageId); k !in Ids(l) && k != key)
      && (es[0].Called? && es[0].call.RemoveKey? ==> es[0].call.key != key)
      && Undisturbed(After(l, es[0]), es[1..], key)
  }

  /** How many entries other than key run out in the timer steps of a run. */
  ghost function OthersExpired<S>(l: PendingList<S>, es: seq<Event<S>>, key: u64): int
    decreases |es|
  {
    if es == [] then 0
    else
      var l' := After(l, es[0]);
      (if es[0].Tick? then |l| - |l'| - (if key in Ids(l) && key !in Ids(l') then 1 else 0) else 0)
      + OthersExpired(l', es[1..], key)
  }

  /** A timer step ticks the entry, takes it out because its time is up, or takes out another one. */
  lemma TickOutcome<S>(l: PendingList<S>, key: u64)
    requires Distinct(l) && InTime(l) && key in Ids(l)
    ensures Distinct(Step(l)) && InTime(Step(l)) && |l| - 1 <= |Step(l)| <= |l|
    ensures key !in Ids(Step(l)) ==> AsMap(l)[key].timer + 1.0 >= TIMEOUT && |Step(l)| == |l| - 1
    ensures key in Ids(Step(l)) ==>
              || AsMap(Step(l))[key].timer == AsMap(l)[key].timer + 1.0
              || (AsMap(Step(l))[key].timer == AsMap(l)[key].timer && |Step(l)| == |l| - 1)
  {
    StepKeeps(l);
    DistinctCount(l);
    DistinctCount(Step(l));
    FoundIffIn(l, key);
    var j := Find(l, key);
    FindAt(l, j);
    var due := FirstDue(l);
    hide Find, AsMap, Step, InTime, Ids, Distinct, FirstDue;
    StepProgress(l, j);
    if due != j {
      FindAt(Step(l), NextIndex(l, j));
    }
    if due < |l| {
      StepRemoves(l);
    }
  }

  lemma StepRemoves<S>(l: PendingList<S>)
    requires Distinct(l) && FirstDue(l) < |l|
    ensures |Step(l)| == |l| - 1
  {
    hide FirstDue, Step, SwapOut, Distinct;
    StepShape(l);
  }

  lemma CallKeepsEntry<S>(l: PendingList<S>, c: ListCall<S>, key: u64)
    requires Distinct(l) && InTime(l)
    requires c.Add? ==> Key(c.sessionId, c.messageId) !in Ids(l) && Key(c.sessionId, c.messageId) != key
    requires c.RemoveKey? ==> c.key != key
    ensures Distinct(OnList(l, c)) && InTime(OnList(l, c))
    ensures key in Ids(OnList(l, c)) <==> key in Ids(l)
    ensures key in Ids(l) ==> AsMap(OnList(l, c))[key].timer == AsMap(l)[key].timer
  {
    hide AsMap, Ids, Distinct, Find, Remove, MarkSession, Key;
    match c
    case Add(kind, sessionId, messageId, session) =>
      AddIds(l, Item(Key(sessionId, messageId), Pending(0.0, kind, session, false)));
      AddRefines(l, Item(Key(sessionId, messageId), Pending(0.0, kind, session, false)));
    case RemoveKey(k) =>
      RemoveRefines(l, k);
      RemovedTimers(l, k);
    case MarkAll(sessionId) =>
      MarkRefines(l, sessionId);
      MarkedTimers(l, sessionId);
  }

  lemma {:induction false} StaysGone<S>(l: PendingList<S>, es: seq<Event<S>>, key: u64)
    requires Distinct(l) && InTime(l) && Undisturbed(l, es, key) && key !in Ids(l)
    ensures key !in Ids(Run(l, es))
    decreases |es|
  {
    if es != [] {
      if es[0].Tick? {
        StepKeeps(l);
      } else {
        CallKeepsEntry(l, es[0].call, key);
      }
      hide Ids, Distinct, InTime, OnList, Step;
      StaysGone(After(l, es[0]), es[1..], key);
    }
  }

  /** An unanswered entry with timer t leaves at a timer step that brings t to the timeout; and with r other
      entries running out meanwhile it is gone once that many more steps have passed. */
  lemma {:induction false} StayBound<S>(l: PendingList<S>, es: seq<Event<S>>, key: u64)
    requires Distinct(l) && InTime(l) && Undisturbed(l, es, key) && key in Ids(l)
    ensures key !in Ids(Run(l, es)) ==> AsMap(l)[key].timer + Ticks(es) as real >= TIMEOUT
    ensures key in Ids(Run(l, es)) ==>
              AsMap(l)[key].timer + (Ticks(es) - OthersExpired(l, es, key)) as real < TIMEOUT
    decreases |es|
  {
    if es == [] {
      EntryInTime(l, key);
    } else {
      var l', rest := After(l, es[0]), es[1..];
      if es[0].Tick? {
        TickOutcome(l, key);
      } else {
        CallKeepsEntry(l, es[0].call, key);
      }
      hide Find, AsMap, Ids, Distinct, InTime, OnList, Step;
      if key in Ids(l') {
        StayBound(l', rest, key);
      } else {
        StaysGone(l', rest, key);
      }
    }
  }

  lemma EntryInTime<S>(l: PendingList<S>, key: u64)
    requires Distinct(l) && InTime(l) && key in Ids(l)
    ensures AsMap(l)[key].timer < TIMEOUT
  {
    FoundIffIn(l, key);
    FindAt(l, Find(l, key));
  }

  lemma NewEntry<S>(l: PendingList<S>, c: ListCall<S>)
    requires Distinct(l) && InTime(l) && c.Add? && Key(c.sessionId, c.messageId) !in Ids(l)
    ensures var l', key := OnList(l, c), Key(c.sessionId, c.messageId);
            Distinct(l') && InTime(l') && key in Ids(l') && AsMap(l')[key].timer == 0.0
  {
    var e := Item(Key(c.sessionId, c.messageId), Pending(0.0, c.kind, c.session, false));
    AddIds(l, e);
    AddRefines(l, e);
    hide AsMap, Ids, Distinct, Key;
  }

  /** In timer steps: a message that was just sent, and is not answered, is still pending after one step, leaves
      at the second at the earliest, and is gone after step 2 + r, where r other entries run out meanwhile. */
  lemma {:induction false} NewStay<S>(l: PendingList<S>, c: ListCall<S>, es: seq<Event<S>>)
    requires Distinct(l) && InTime(l) && c.Add? && Key(c.sessionId, c.messageId) !in Ids(l)
    requires Undisturbed(OnList(l, c), es, Key(c.sessionId, c.messageId))
    ensures var l', key := OnList(l, c), Key(c.sessionId, c.messageId);
            && (Ticks(es) <= 1 ==> key in Ids(Run(l', es)))
            && (Ticks(es) >= 2 + OthersExpired(l', es, key) ==> key !in Ids(Run(l', es)))
  {
    NewEntry(l, c);
    hide OnList, Key, Ids, Distinct, InTime, Run, Ticks, OthersExpired, AsMap;
    StayBound(OnList(l, c), es, Key(c.sessionId, c.messageId));
  }
}
