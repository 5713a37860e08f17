/** Callers blocked until their response arrives (src/handler/message_blocker_handler.cpp). */
module BlockedCallers {
  import opened Bytes
  import opened SwapList

  /** One blocked caller; D stands for the pointer to the response buffer. */
  datatype Blocked<+D> = Blocked(timer: u64, data: Option<D>)

  type BlockerList<+D> = seq<Item<Blocked<D>>>

  function Block<D>(l: BlockerList<D>, id: u64, timeout: u64): BlockerList<D> {
    l + [Item(id, Blocked(timeout, None))]
  }

  function Release<D>(l: BlockerList<D>, id: u64, data: Option<D>): (r: BlockerList<D>)
    ensures |r| == |l|
  {
    var i := Find(l, id);
    if i < |l| then l[i := l[i].(value := l[i].value.(data := data))] else l
  }

  /** What a woken caller takes out of its entry. */
  function Result<D>(l: BlockerList<D>, id: u64): Option<D> {
    var i := Find(l, id);
    if i < |l| then l[i].value.data else None
  }

  /** 64-bit countdown: a timeout of 0 wraps around. */
  function Ticked<D>(b: Blocked<D>): Blocked<D> {
    b.(timer := if b.timer == 0 then 0xffff_ffff_ffff_ffff else b.timer - 1)
  }

  /** The timer loop from index i: an expired entry is swapped out, and the index moves on past the entry
      that took its place. */
  function StepFrom<D>(l: BlockerList<D>, i: nat): BlockerList<D>
    decreases |l| - i
  {
    if i >= |l| then l
    else
      var l' := l[i := Item(l[i].id, Ticked(l[i].value))];
      if l'[i].value.timer == 0
      then StepFrom(Release(Remove(l', l'[i].id), l'[i].id, None), i + 1)
      else StepFrom(l', i + 1)
  }

  function Step<D>(l: BlockerList<D>): BlockerList<D> { StepFrom(l, 0) }

  /** The list of src/handler/message_blocker_handler.h. blockMessage is its two atomic halves: queueing the
      caller, and what the caller does once it is awake. */
  class MessageBlockerHandler<D(==)> {
    var messageList: BlockerList<D>

    constructor ()
      ensures messageList == []
    {
      messageList := [];
    }

    method QueueCaller(blockerId: u64, blockerTimeout: u64)
      modifies this
      ensures messageList == Block(old(messageList), blockerId, blockerTimeout)
    {
      messageList := messageList + [Item(blockerId, Blocked(blockerTimeout, None))];
    }

    method ReleaseMessage(blockerId: u64, data: Option<D>) returns (found: bool)
      modifies this
      ensures messageList == Release(old(messageList), blockerId, data)
      ensures found <==> blockerId in Ids(old(messageList))
    {
      var i := 0;
      while i < |messageList|
        invariant i <= |messageList| && messageList == old(messageList)
        invariant i <= Find(messageList, blockerId)
      {
        if messageList[i].id == blockerId {
          FindFirst(messageList, blockerId, i);
          FoundIffIn(messageList, blockerId);
          messageList := messageList[i := messageList[i].(value := messageList[i].value.(data := data))];
          return true;
        }
        i := i + 1;
      }
      FoundIffIn(messageList, blockerId);
      return false;
    }

    method RemoveMessage(blockerId: u64) returns (result: Option<D>)
      modifies this
      ensures messageList == Remove(old(messageList), blockerId)
      ensures result == Result(old(messageList), blockerId)
    {
      var i := 0;
      while i < |messageList|
        invariant i <= |messageList| && messageList == old(messageList)
        invariant i <= Find(messageList, blockerId)
      {
        if messageList[i].id == blockerId {
          FindFirst(messageList, blockerId, i);
          FoundIffIn(messageList, blockerId);
          result := messageList[i].value.data;
          var last := |messageList| - 1;
          if |messageList| > 1 {
            messageList := messageList[i := messageList[last]][last := messageList[i]];
            messageList := messageList[..last];
          } else {
            messageList := [];
          }
          return;
        }
        i := i + 1;
      }
      FoundIffIn(messageList, blockerId);
      return None;
    }

    method MakeTimerStep()
      modifies this
      ensures messageList == Step(old(messageList))
    {
      hide Find, Remove, Release, Distinct, Ids;
      var i := 0;
      while i < |messageList|
        invariant StepFrom(messageList, i) == Step(old(messageList))
        decreases |messageList| - i
      {
        var temp := messageList[i];
        var timer: u64 := if temp.value.timer == 0 then 0xffff_ffff_ffff_ffff else temp.value.timer - 1;
        messageList := messageList[i := temp.(value := temp.value.(timer := timer))];
        if timer == 0 {
          var _ := RemoveMessage(temp.id);
          var _ := ReleaseMessage(temp.id, None);
        }
        i := i + 1;
      }
    }
  }

  // ---- what the list means ----

  /** A response reaches exactly the caller blocked under its id, and leaves every other entry alone. */
  lemma {:induction false} ReleaseRefines<D>(l: BlockerList<D>, id: u64, data: Option<D>)
    requires Distinct(l)
    ensures Distinct(Release(l, id, data)) && Ids(Release(l, id, data)) == Ids(l)
    ensures AsMap(Release(l, id, data))
         == if id in Ids(l) then AsMap(l)[id := AsMap(l)[id].(data := data)] else AsMap(l)
    ensures Result(Release(l, id, data), id) == if id in Ids(l) then data else None
  {
    FoundIffIn(l, id);
    var i := Find(l, id);
    if i < |l| {
      FindAt(l, i);
      var v := l[i].value.(data := data);
      UpdateIds(l, i, v);
      UpdateRefines(l, i, v);
      FindAt(l[i := Item(l[i].id, v)], i);
    }
  }

  /** The wake-up after a timeout finds nobody: the entry is already gone. */
  lemma TimeoutWakesNobody<D>(l: BlockerList<D>, id: u64)
    requires Distinct(l)
    ensures Release(Remove(l, id), id, None) == Remove(l, id)
  {
    RemoveRefines(l, id);
    FoundIffIn(Remove(l, id), id);
  }

  /** Where an entry may be after the timer loop ran from index i. */
  ghost predicate EntryOutcome<D>(l: BlockerList<D>, i: nat, l': BlockerList<D>, id: u64)
    requires id in Ids(l)
  {
    var late := i <= Find(l, id);
    if id !in Ids(l') then late && AsMap(l)[id].timer == 1
    else
      || (AsMap(l')[id] == AsMap(l)[id] && (late ==> |l'| < |l|))
      || (late && AsMap(l')[id] == Ticked(AsMap(l)[id]) && AsMap(l)[id].timer != 1)
  }

  function TickAt<D>(l: BlockerList<D>, i: nat): (r: BlockerList<D>)
    requires i < |l|
    ensures |r| == |l|
  {
    l[i := Item(l[i].id, Ticked(l[i].value))]
  }

  lemma TickAtEffect<D>(l: BlockerList<D>, i: nat, id: u64)
    requires Distinct(l) && i < |l| && id in Ids(l)
    ensures var l' := TickAt(l, i);
            && Distinct(l') && Ids(l') == Ids(l) && Find(l', id) == Find(l, id)
            && AsMap(l')[id] == if id == l[i].id then Ticked(AsMap(l)[id]) else AsMap(l)[id]
  {
    hide Find;
    UpdateIds(l, i, Ticked(l[i].value));
    UpdateRefines(l, i, Ticked(l[i].value));
    FindAt(l, i);
    var j := Find(l, id);
    FoundIffIn(l, id);
    FindAt(TickAt(l, i), j);
  }

  lemma ExpireEffect<D>(l: BlockerList<D>, i: nat, id: u64)
    requires Distinct(l) && i < |l| && id in Ids(l) && id != l[i].id
    ensures var r := SwapOut(l, i);
            && Distinct(r) && id in Ids(r) && AsMap(r)[id] == AsMap(l)[id]
            && Find(r, id) == if Find(l, id) == |l| - 1 then i else Find(l, id)
  {
    hide Find;
    SwapOutIds(l, i);
    SwapOutRefines(l, i);
    var j := Find(l, id);
    FoundIffIn(l, id);
    var k := if j == |l| - 1 then i else j;
    SwapOutAt(l, i, k);
    FindAt(SwapOut(l, i), k);
  }

  lemma ExpireIsSwapOut<D>(l: BlockerList<D>, i: nat)
    requires Distinct(l) && i < |l|
    ensures Release(Remove(l, l[i].id), l[i].id, None) == SwapOut(l, i)
    ensures Distinct(SwapOut(l, i)) && Ids(SwapOut(l, i)) == Ids(l) - {l[i].id}
  {
    TimeoutWakesNobody(l, l[i].id);
    FindAt(l, i);
    SwapOutIds(l, i);
  }

  lemma {:induction false} StepFromKeeps<D>(l: BlockerList<D>, i: nat)
    requires Distinct(l)
    ensures Distinct(StepFrom(l, i)) && Ids(StepFrom(l, i)) <= Ids(l) && |StepFrom(l, i)| <= |l|
    decreases |l| - i
  {
    if i < |l| {
      hide Find, Remove, Release, SwapOut;
      var l' := TickAt(l, i);
      UpdateIds(l, i, Ticked(l[i].value));
      if l'[i].value.timer == 0 {
        ExpireIsSwapOut(l', i);
        StepFromKeeps(SwapOut(l', i), i + 1);
      } else {
        StepFromKeeps(l', i + 1);
      }
    }
  }

  lemma OutcomeTicked<D>(l: BlockerList<D>, i: nat, final: BlockerList<D>, id: u64)
    requires Distinct(l) && id in Ids(l) && i < |l| && Ticked(l[i].value).timer != 0
    requires id in Ids(TickAt(l, i)) && EntryOutcome(TickAt(l, i), i + 1, final, id)
    ensures EntryOutcome(l, i, final, id)
  {
    TickAtEffect(l, i, id);
    FindAt(l, i);
    FoundIffIn(l, id);
    hide Find, AsMap, Ids, Distinct, TickAt;
  }

  lemma OutcomeExpired<D>(l: BlockerList<D>, i: nat, final: BlockerList<D>, id: u64)
    requires Distinct(l) && id in Ids(l) && i < |l| && Ticked(l[i].value).timer == 0
    requires Distinct(SwapOut(TickAt(l, i), i)) && id != l[i].id && |final| < |l|
    requires id in Ids(SwapOut(TickAt(l, i), i)) && EntryOutcome(SwapOut(TickAt(l, i), i), i + 1, final, id)
    ensures EntryOutcome(l, i, final, id)
  {
    TickAtEffect(l, i, id);
    ExpireEffect(TickAt(l, i), i, id);
    FoundIffIn(l, id);
    hide Find, AsMap, Ids, Distinct, SwapOut;
  }

  lemma OutcomeUntouched<D>(l: BlockerList<D>, i: nat, id: u64)
    requires id in Ids(l) && |l| <= i
    ensures EntryOutcome(l, i, StepFrom(l, i), id)
  {
    FoundIffIn(l, id);
  }

  lemma OutcomeGone<D>(l: BlockerList<D>, i: nat, final: BlockerList<D>)
    requires Distinct(l) && i < |l| && Ticked(l[i].value).timer == 0
    requires l[i].id in Ids(l) && l[i].id !in Ids(final)
    ensures EntryOutcome(l, i, final, l[i].id)
  {
    FindAt(l, i);
  }

  lemma StepFromUnfold<D>(l: BlockerList<D>, i: nat)
    requires Distinct(l) && i < |l|
    ensures var l' := TickAt(l, i);
            && Distinct(l') && Ids(l') == Ids(l) && l[i].id in Ids(l)
            && (Ticked(l[i].value).timer != 0 ==> StepFrom(l, i) == StepFrom(l', i + 1))
            && (Ticked(l[i].value).timer == 0 ==>
                  && Distinct(SwapOut(l', i)) && Ids(SwapOut(l', i)) == Ids(l) - {l[i].id}
                  && StepFrom(l, i) == StepFrom(SwapOut(l', i), i + 1))
  {
    hide Find, Remove, Release, SwapOut, Distinct;
    UpdateIds(l, i, Ticked(l[i].value));
    ExpireIsSwapOut(TickAt(l, i), i);
  }

  /** The unfolding as one entry sees it. */
  lemma UnfoldFor<D>(l: BlockerList<D>, i: nat, id: u64)
    requires Distinct(l) && i < |l| && id in Ids(l)
    ensures var l' := TickAt(l, i);
            if Ticked(l[i].value).timer != 0 then
              StepFrom(l, i) == StepFrom(l', i + 1) && Distinct(l') && id in Ids(l')
            else
              && StepFrom(l, i) == StepFrom(SwapOut(l', i), i + 1) && |StepFrom(l, i)| < |l|
              && Distinct(SwapOut(l', i)) && (id != l[i].id ==> id in Ids(SwapOut(l', i)))
              && l[i].id !in Ids(StepFrom(l, i))
  {
    hide *;
    StepFromUnfold(l, i);
    if Ticked(l[i].value).timer == 0 {
      StepFromKeeps(SwapOut(TickAt(l, i), i), i + 1);
    }
  }

  /** One timer step does exactly one of three things to an entry: count it down, take it out when its count
      reaches 0, or leave it as it is because it was swapped into the place of an entry that ran out. */
  lemma {:induction false} StepOutcome<D>(l: BlockerList<D>, i: nat, id: u64)
    requires Distinct(l) && id in Ids(l)
    ensures EntryOutcome(l, i, StepFrom(l, i), id)
    decreases |l| - i
  {
    if i >= |l| {
      OutcomeUntouched(l, i, id);
    } else {
      hide *;
      UnfoldFor(l, i, id);
      var l' := TickAt(l, i);
      if Ticked(l[i].value).timer != 0 {
        StepOutcome(l', i + 1, id);
        OutcomeTicked(l, i, StepFrom(l, i), id);
      } else if id != l[i].id {
        StepOutcome(SwapOut(l', i), i + 1, id);
        OutcomeExpired(l, i, StepFrom(l, i), id);
      } else {
        OutcomeGone(l, i, StepFrom(l, i));
      }
    }
  }

  // ---- timeouts over whole runs ----

  datatype Event<+D> =
    | Blocks(id: u64, timeout: u64)
    | Releases(id: u64, data: Option<D>)
    | Wakes(id: u64)
    | Tick

  function Apply<D>(l: BlockerList<D>, e: Event<D>): BlockerList<D> {
    match e
    case Blocks(id, timeout) => Block(l, id, timeout)
    case Releases(id, data) => Release(l, id, data)
    case Wakes(id) => Remove(l, id)
    case Tick => Step(l)
  }

  function Run<D>(l: BlockerList<D>, es: seq<Event<D>>): BlockerList<D>
    decreases |es|
  {
    if es == [] then l else Run(Apply(l, es[0]), es[1..])
  }

  /** The same calls on a finite map from blocker ids to entries. */
  function OnMap<D>(m: map<u64, Blocked<D>>, e: Event<D>): map<u64, Blocked<D>>
    requires !e.Tick?
  {
    match e
    case Blocks(id, timeout) => m[id := Blocked(timeout, None)]
    case Releases(id, data) => if id in m then m[id := m[id].(data := data)] else m
    case Wakes(id) => m - {id}
  }

  function MapAfter<D>(m: map<u64, Blocked<D>>, es: seq<Event<D>>): map<u64, Blocked<D>>
    requires Between(m, es)
    decreases |es|
  {
    if es == [] then m else MapAfter(OnMap(m, es[0]), es[1..])
  }

  /** Calls between two timer steps; nobody blocks under an id somebody is still blocked under. */
  predicate Between<D>(m: map<u64, Blocked<D>>, es: seq<Event<D>>)
    decreases |es|
  {
    es != [] ==>
      !es[0].Tick? && (es[0].Blocks? ==> es[0].id !in m) && Between(OnMap(m, es[0]), es[1..])
  }

  lemma CallRefines<D>(l: BlockerList<D>, e: Event<D>)
    requires Distinct(l) && !e.Tick? && (e.Blocks? ==> e.id !in AsMap(l))
    ensures Distinct(Apply(l, e)) && AsMap(Apply(l, e)) == OnMap(AsMap(l), e)
  {
    match e
    case Blocks(id, timeout) => AddRefines(l, Item(id, Blocked(timeout, None)));
    case Releases(id, data) => ReleaseRefines(l, id, data);
    case Wakes(id) => RemoveRefines(l, id);
  }

  /** Under every sequence of calls the unordered vector is the finite map from blocker ids to entries. */
  lemma {:induction false} ListIsMap<D>(l: BlockerList<D>, es: seq<Event<D>>)
    requires Distinct(l) && Between(AsMap(l), es)
    ensures Distinct(Run(l, es)) && AsMap(Run(l, es)) == MapAfter(AsMap(l), es)
    decreases |es|
  {
    hide AsMap, Distinct, Apply, OnMap;
    if es != [] {
      CallRefines(l, es[0]);
      ListIsMap(Apply(l, es[0]), es[1..]);
    }
  }

  function Ticks<D>(es: seq<Event<D>>): nat {
    if es == [] then 0 else (if es[0].Tick? then 1 else 0) + Ticks(es[1..])
  }

  /** New callers come with ids not in the list, and nobody else blocks or wakes under id. */
  ghost predicate Undisturbed<D>(l: BlockerList<D>, es: seq<Event<D>>, id: u64)
    decreases |es|
  {
    es != [] ==>
      && (es[0].Blocks? ==> es[0].id !in Ids(l) && es[0].id != id)
      && (es[0].Wakes? ==> es[0].id != id)
      && Undisturbed(Apply(l, es[0]), es[1..], id)
  }

  /** How many entries other than id run out in the timer steps of a run. */
  ghost function OthersExpired<D>(l: BlockerList<D>, es: seq<Event<D>>, id: u64): int
    decreases |es|
  {
    if es == [] then 0
    else
      var l' := Apply(l, es[0]);
      (if es[0].Tick? then |l| - |l'| - (if id in Ids(l) && id !in Ids(l') then 1 else 0) else 0)
      + OthersExpired(l', es[1..], id)
  }

  lemma ApplyKeeps<D>(l: BlockerList<D>, e: Event<D>, id: u64)
    requires Distinct(l)
    requires e.Blocks? ==> e.id !in Ids(l) && e.id != id
    requires e.Wakes? ==> e.id != id
    ensures Distinct(Apply(l, e))
    ensures id !in Ids(l) ==> id !in Ids(Apply(l, e))
    ensures !e.Tick? && id in Ids(l) ==>
              id in Ids(Apply(l, e)) && AsMap(Apply(l, e))[id].timer == AsMap(l)[id].timer
  {
    hide Find, Remove, Release, StepFrom, AsMap, Ids;
    match e
    case Blocks(x, timeout) =>
      AddIds(l, Item(x, Blocked(timeout, None)));
      AddRefines(l, Item(x, Blocked(timeout, None)));
    case Releases(x, data) => ReleaseRefines(l, x, data);
    case Wakes(x) => RemoveRefines(l, x);
    case Tick => StepFromKeeps(l, 0);
  }

  lemma {:induction false} StaysGone<D>(l: BlockerList<D>, es: seq<Event<D>>, id: u64)
    requires Distinct(l) && Undisturbed(l, es, id) && id !in Ids(l)
    ensures id !in Ids(Run(l, es))
    decreases |es|
  {
    if es != [] {
      ApplyKeeps(l, es[0], id);
      StaysGone(Apply(l, es[0]), es[1..], id);
    }
  }

  lemma StepCount<D>(l: BlockerList<D>, id: u64)
    requires Distinct(l)
    ensures Distinct(Step(l)) && Ids(Step(l)) <= Ids(l)
    ensures id in Ids(l) && id !in Ids(Step(l)) ==> |Step(l)| < |l|
    ensures |Step(l)| <= |l|
  {
    StepFromKeeps(l, 0);
    DistinctCount(l);
    DistinctCount(Step(l));
    if id in Ids(l) && id !in Ids(Step(l)) {
      Shrinks(Ids(Step(l)), Ids(l), id);
    }
  }

  lemma Shrinks(a: set<u64>, b: set<u64>, x: u64)
    requires a <= b && x in b && x !in a
    ensures |a| < |b|
  {
    Cardinality(a, b - {x});
  }

  lemma Cardinality(a: set<u64>, b: set<u64>)
    requires a <= b
    ensures |a| <= |b|
  {
    if a != {} {
      var x :| x in a;
      Cardinality(a - {x}, b - {x});
    }
  }

  /** How many timer steps a caller waits: the 64-bit count of 0 wraps around and starts from 2^64. */
  function Patience(timer: u64): nat { if timer == 0 then 0x1_0000_0000_0000_0000 else timer }

  lemma TickSeen<D>(l: BlockerList<D>, id: u64)
    requires Distinct(l) && id in Ids(l)
    ensures id !in Ids(Step(l)) ==> Patience(AsMap(l)[id].timer) == 1
    ensures id in Ids(Step(l)) ==>
              var was, now := Patience(AsMap(l)[id].timer), Patience(AsMap(Step(l))[id].timer);
              (now == was && |Step(l)| < |l|) || (now == was - 1 && was > 1)
  {
    StepOutcome(l, 0, id);
    hide AsMap, Ids, Distinct, StepFrom;
  }

  /** A caller blocked with timeout T is taken out no earlier than the T-th timer step, and no later than step
      T + r, where r counts the other entries that ran out meanwhile; a timeout of 0 is one of 2^64. */
  lemma {:induction false} TimeoutBound<D>(l: BlockerList<D>, es: seq<Event<D>>, id: u64)
    requires Distinct(l) && Undisturbed(l, es, id) && id in Ids(l)
    ensures 0 <= OthersExpired(l, es, id)
    ensures id !in Ids(Run(l, es)) ==> Patience(AsMap(l)[id].timer) <= Ticks(es)
    ensures id in Ids(Run(l, es)) ==> Ticks(es) < Patience(AsMap(l)[id].timer) + OthersExpired(l, es, id)
    decreases |es|
  {
    if es != [] {
      var l', rest := Apply(l, es[0]), es[1..];
      ApplyKeeps(l, es[0], id);
      if es[0].Tick? {
        StepCount(l, id);
        TickSeen(l, id);
      }
      hide Find, Remove, Release, StepFrom, AsMap, Ids, Distinct, Block, Patience;
      if id in Ids(l') {
        TimeoutBound(l', rest, id);
      } else {
        StaysGone(l', rest, id);
        OthersNonNegative(l', rest, id);
      }
    }
  }

  lemma {:induction false} OthersNonNegative<D>(l: BlockerList<D>, es: seq<Event<D>>, id: u64)
    requires Distinct(l) && Undisturbed(l, es, id)
    ensures 0 <= OthersExpired(l, es, id)
    decreases |es|
  {
    if es != [] {
      ApplyKeeps(l, es[0], id);
      if es[0].Tick? {
        StepCount(l, id);
      }
      OthersNonNegative(Apply(l, es[0]), es[1..], id);
    }
  }
}
