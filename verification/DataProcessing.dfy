/** What arriving data packets do to a process: buffers are allocated, filled, and handed to a blocked caller
    or to the request callback (src/multiblock_io.cpp, src/messages_processing/singleblock_data_processing.h,
    src/messages_processing/multiblock_data_processing.h). Buffers are numbered; a number is a pointer. */
module DataProcessing {
  import opened Bytes
  import opened Wire
  import opened SwapList
  import opened BlockedCallers
  import opened Reassembly

  /** A buffer pointer given away under an id. */
  datatype Handed = Handed(id: u64, buffer: Option<nat>)

  /** next is the first number not yet allocated; requests and returned record what the request callback got
      and what the blocked callers returned with. */
  datatype Endpoint = Endpoint(next: nat, heap: map<nat, seq<byte>>, incoming: map<u64, nat>,
                               blockers: BlockerList<nat>, requests: seq<Handed>, returned: seq<Handed>)

  function Stored(heap: map<nat, seq<byte>>, p: nat): seq<byte> { if p in heap then heap[p] else [] }

  function Incoming(e: Endpoint, id: u64): Option<nat> { if id in e.incoming then Some(e.incoming[id]) else None }

  /** new DataBuffer, holding content. */
  function Allocated(e: Endpoint, content: seq<byte>): Endpoint {
    e.(next := e.next + 1, heap := e.heap[e.next := content])
  }

  /** std::map::insert: an entry that is there stays, and the new buffer is lost. */
  function Created(e: Endpoint, id: u64): Endpoint {
    var e' := Allocated(e, []);
    if id in e.incoming then e' else e'.(incoming := e.incoming[id := e.next])
  }

  function Written(e: Endpoint, id: u64, data: seq<byte>): Endpoint {
    if id in e.incoming then e.(heap := e.heap[e.incoming[id] := Stored(e.heap, e.incoming[id]) + data]) else e
  }

  function HandedOver(e: Endpoint, id: u64, blockerId: u64, buffer: Option<nat>): Endpoint {
    if blockerId != 0 then e.(blockers := Release(e.blockers, blockerId, buffer))
    else e.(requests := e.requests + [Handed(id, buffer)])
  }

  function Dropped(e: Endpoint, id: u64): Endpoint { e.(incoming := e.incoming - {id}) }

  function Handle(e: Endpoint, p: Packet): Endpoint {
    match p
    case Single(id, blockerId, payload) => HandedOver(Allocated(e, payload), id, blockerId, Some(e.next))
    case Part(id, _, _, partId, payload) => Written(if partId == 0 then Created(e, id) else e, id, payload)
    case Finish(id, blockerId) => HandedOver(Dropped(e, id), id, blockerId, Incoming(e, id))
  }

  /** The caller blocked under id is awake: it leaves the list and returns with what its entry holds. */
  function Woken(e: Endpoint, id: u64): Endpoint {
    e.(blockers := Remove(e.blockers, id), returned := e.returned + [Handed(id, Result(e.blockers, id))])
  }

  // ---- the classes ----

  class BufferHeap {
    var next: nat
    var bytes: map<nat, seq<byte>>

    constructor ()
      ensures next == 0 && bytes == map[]
    {
      next, bytes := 0, map[];
    }

    method New(content: seq<byte>) returns (p: nat)
      modifies this
      ensures p == old(next) && next == old(next) + 1 && bytes == old(bytes)[p := content]
    {
      p := next;
      next := next + 1;
      bytes := bytes[p := content];
    }

    method AddData(p: nat, data: seq<byte>)
      modifies this
      ensures next == old(next) && bytes == old(bytes)[p := Stored(old(bytes), p) + data]
    {
      bytes := bytes[p := Stored(bytes, p) + data];
    }
  }

  /** Incoming half of src/multiblock_io.h. */
  class MultiblockIO {
    const heap: BufferHeap
    var incomingBuffer: map<u64, nat>

    constructor (heap: BufferHeap)
      ensures this.heap == heap && incomingBuffer == map[]
    {
      this.heap := heap;
      incomingBuffer := map[];
    }

    /** inMemory says whether there is memory for the buffer. */
    method CreateIncomingBuffer(multiblockId: u64, inMemory: bool) returns (ok: bool)
      modifies this, heap
      ensures ok == inMemory
      ensures if !ok then incomingBuffer == old(incomingBuffer) && heap.next == old(heap.next)
                          && heap.bytes == old(heap.bytes)
              else heap.next == old(heap.next) + 1 && heap.bytes == old(heap.bytes)[old(heap.next) := []]
      ensures ok ==> incomingBuffer == if multiblockId in old(incomingBuffer) then old(incomingBuffer)
                                       else old(incomingBuffer)[multiblockId := old(heap.next)]
    {
      if !inMemory {
        return false;
      }
      var buffer := heap.New([]);
      if multiblockId !in incomingBuffer {
        incomingBuffer := incomingBuffer[multiblockId := buffer];
      }
      return true;
    }

    method GetIncomingBuffer(multiblockId: u64) returns (buffer: Option<nat>)
      ensures buffer == if multiblockId in incomingBuffer then Some(incomingBuffer[multiblockId]) else None
    {
      if multiblockId in incomingBuffer {
        return Some(incomingBuffer[multiblockId]);
      }
      return None;
    }

    method WriteIntoIncomingBuffer(multiblockId: u64, data: seq<byte>) returns (result: bool)
      modifies heap
      ensures result <==> multiblockId in incomingBuffer
      ensures heap.next == old(heap.next)
      ensures heap.bytes == if !result then old(heap.bytes)
                            else old(heap.bytes)[incomingBuffer[multiblockId]
                                                 := Stored(old(heap.bytes), incomingBuffer[multiblockId]) + data]
    {
      result := false;
      if multiblockId in incomingBuffer {
        heap.AddData(incomingBuffer[multiblockId], data);
        result := true;
      }
    }

    method RemoveMultiblockBuffer(multiblockId: u64) returns (found: bool)
      modifies this
      ensures found <==> multiblockId in old(incomingBuffer)
      ensures incomingBuffer == old(incomingBuffer) - {multiblockId}
    {
      found := multiblockId in incomingBuffer;
      if found {
        incomingBuffer := incomingBuffer - {multiblockId};
      }
    }
  }

  /** The data handlers of one process, with the callers it blocks. */
  class DataHandlers {
    const heap: BufferHeap
    const multiblockIo: MultiblockIO
    const blockerHandler: MessageBlockerHandler<nat>
    var requests: seq<Handed>
    var returned: seq<Handed>

    ghost predicate Valid()
      reads this
    {
      multiblockIo.heap == heap
    }

    ghost function View(): Endpoint
      reads this, heap, multiblockIo, blockerHandler
    {
      Endpoint(heap.next, heap.bytes, multiblockIo.incomingBuffer, blockerHandler.messageList, requests, returned)
    }

    constructor ()
      ensures Valid() && View() == Endpoint(0, map[], map[], [], [], [])
      ensures fresh(heap) && fresh(multiblockIo) && fresh(blockerHandler)
    {
      var buffers := new BufferHeap();
      heap := buffers;
      multiblockIo := new MultiblockIO(buffers);
      blockerHandler := new MessageBlockerHandler();
      requests, returned := [], [];
    }

    method HandOver(id: u64, flags: byte, blockerId: u64, buffer: Option<nat>)
      requires Valid() && (HasFlag(flags, FLAG_RESPONSE) <==> blockerId != 0)
      modifies this, blockerHandler
      ensures View() == HandedOver(old(View()), id, blockerId, buffer)
    {
      if HasFlag(flags, FLAG_RESPONSE) {
        var _ := blockerHandler.ReleaseMessage(blockerId, buffer);
      } else {
        requests := requests + [Handed(id, buffer)];
      }
    }

    method ProcessDataSingleBlock(p: Packet)
      requires Valid() && p.Single?
      modifies this, heap, multiblockIo, blockerHandler
      ensures View() == Handle(old(View()), p)
    {
      var buffer := heap.New(p.payload);
      HandOver(p.multiblockId, Flags(Data(p)), p.blockerId, Some(buffer));
    }

    method ProcessDataMultiblock(p: Packet)
      requires Valid() && p.Part?
      modifies this, heap, multiblockIo, blockerHandler
      ensures View() == Handle(old(View()), p)
    {
      if p.partId == 0 {
        var _ := multiblockIo.CreateIncomingBuffer(p.multiblockId, true);
      }
      var _ := multiblockIo.WriteIntoIncomingBuffer(p.multiblockId, p.payload);
    }

    method ProcessDataMultiFinish(p: Packet)
      requires Valid() && p.Finish?
      modifies this, heap, multiblockIo, blockerHandler
      ensures View() == Handle(old(View()), p)
    {
      var buffer := multiblockIo.GetIncomingBuffer(p.multiblockId);
      HandOver(p.multiblockId, Flags(Data(p)), p.blockerId, buffer);
      var _ := multiblockIo.RemoveMultiblockBuffer(p.multiblockId);
    }

    /** The second half of blockMessage: the caller under id woke up. */
    method WakeCaller(id: u64) returns (result: Option<nat>)
      requires Valid()
      modifies this, blockerHandler
      ensures View() == Woken(old(View()), id) && result == Result(old(View()).blockers, id)
    {
      result := blockerHandler.RemoveMessage(id);
      returned := returned + [Handed(id, result)];
    }
  }

  // ---- who holds a buffer ----

  datatype Place = InMap(id: u64) | AtBlocker(id: u64) | AtCallback(index: nat) | AtReturned(index: nat)

  /** The buffer a place holds, if any. */
  function Holds(e: Endpoint, at: Place): Option<nat> {
    match at
    case InMap(id) => Incoming(e, id)
    case AtBlocker(id) => Result(e.blockers, id)
    case AtCallback(i) => if i < |e.requests| then e.requests[i].buffer else None
    case AtReturned(i) => if i < |e.returned| then e.returned[i].buffer else None
  }

  /** Every buffer is in at most one place, and is an allocated one. */
  ghost predicate Owned(e: Endpoint) {
    && Distinct(e.blockers)
    && (forall at :: Holds(e, at).Some? ==> Holds(e, at).value < e.next)
    && (forall at, at' :: at != at' && Holds(e, at).Some? ==> Holds(e, at) != Holds(e, at'))
  }

  /** Passing buffer p to one place, when no other place keeps it; the others keep what they hold or lose it. */
  lemma Given(e: Endpoint, e': Endpoint, to: Place, p: Option<nat>)
    requires Owned(e) && Distinct(e'.blockers) && e.next <= e'.next
    requires forall at :: at != to ==> Holds(e', at) == Holds(e, at) || Holds(e', at) == None
    requires Holds(e', to) == p || Holds(e', to) == None
    requires p.Some? ==> p.value < e'.next && forall at :: at != to ==> Holds(e', at) != p
    ensures Owned(e')
  {
    hide Holds;
    forall at, at' | at != at' && Holds(e', at).Some?
      ensures Holds(e', at) != Holds(e', at') && Holds(e', at).value < e'.next
    {
      if at != to {
        assert Holds(e, at) == Holds(e', at);
      }
      if at' != to && Holds(e', at').Some? {
        assert Holds(e, at') == Holds(e', at');
      }
    }
  }

  lemma ReleasedResults(l: BlockerList<nat>, id: u64, data: Option<nat>, other: u64)
    requires Distinct(l)
    ensures Distinct(Release(l, id, data))
    ensures other != id ==> Result(Release(l, id, data), other) == Result(l, other)
    ensures Result(Release(l, id, data), id) == data || Result(Release(l, id, data), id) == None
  {
    ReleaseRefines(l, id, data);
    ResultIsData(l, other);
    ResultIsData(Release(l, id, data), other);
  }

  lemma ResultIsData(l: BlockerList<nat>, id: u64)
    requires Distinct(l)
    ensures Result(l, id) == if id in Ids(l) then AsMap(l)[id].data else None
  {
    FoundIffIn(l, id);
  }

  lemma HandedOverOwned(e: Endpoint, id: u64, blockerId: u64, p: Option<nat>)
    requires Owned(e) && (p.Some? ==> p.value < e.next && forall at :: Holds(e, at) != p)
    ensures Owned(HandedOver(e, id, blockerId, p))
  {
    hide Release, Result;
    var e' := HandedOver(e, id, blockerId, p);
    if blockerId != 0 {
      forall at | at != AtBlocker(blockerId) ensures Holds(e', at) == Holds(e, at) {
        if at.AtBlocker? {
          ReleasedResults(e.blockers, blockerId, p, at.id);
        }
      }
      ReleasedResults(e.blockers, blockerId, p, blockerId);
      Given(e, e', AtBlocker(blockerId), p);
    } else {
      Given(e, e', AtCallback(|e.requests|), p);
    }
  }

  /** Ownership survives every packet: a delivered buffer is never in the map any more, so cleaning up the map
      never touches it, and no two consumers ever share one. */
  lemma HandleOwned(e: Endpoint, p: Packet)
    requires Owned(e)
    ensures Owned(Handle(e, p))
  {
    hide Result, Release;
    match p
    case Single(id, blockerId, payload) =>
      var e' := Allocated(e, payload);
      Given(e, e', InMap(0), Holds(e, InMap(0)));
      HandedOverOwned(e', id, blockerId, Some(e.next));
    case Part(id, _, _, partId, payload) =>
      var e1 := if partId == 0 then Created(e, id) else e;
      Given(e, e1, InMap(id), if partId == 0 && id !in e.incoming then Some(e.next) else Holds(e, InMap(id)));
      Given(e1, Written(e1, id, payload), InMap(id), Holds(e1, InMap(id)));
    case Finish(id, blockerId) =>
      var e' := Dropped(e, id);
      Given(e, e', InMap(id), None);
      assert Holds(e, InMap(id)) == Incoming(e, id);
      HandedOverOwned(e', id, blockerId, Incoming(e, id));
  }

  lemma BlockOwned(e: Endpoint, id: u64, timeout: u64)
    requires Owned(e) && id !in Ids(e.blockers)
    ensures Owned(e.(blockers := Block(e.blockers, id, timeout)))
  {
    var l' := Block(e.blockers, id, timeout);
    AddIds(e.blockers, Item(id, Blocked(timeout, None)));
    AddRefines(e.blockers, Item(id, Blocked(timeout, None)));
    hide Result, Block;
    var e' := e.(blockers := l');
    forall at | at != AtBlocker(id) ensures Holds(e', at) == Holds(e, at) {
      if at.AtBlocker? {
        ResultIsData(e.blockers, at.id);
        ResultIsData(l', at.id);
      }
    }
    ResultIsData(l', id);
    Given(e, e', AtBlocker(id), None);
  }

  lemma RemovedResults(l: BlockerList<nat>, id: u64, other: u64)
    requires Distinct(l)
    ensures Distinct(Remove(l, id)) && Result(Remove(l, id), other) == if other == id then None else Result(l, other)
  {
    RemoveRefines(l, id);
    ResultIsData(l, other);
    ResultIsData(Remove(l, id), other);
  }

  lemma WokenOwned(e: Endpoint, id: u64)
    requires Owned(e)
    ensures Owned(Woken(e, id))
  {
    hide Result, Remove;
    var e' := Woken(e, id);
    forall at: Place ensures at != AtReturned(|e.returned|) ==>
                        Holds(e', at) == if at == AtBlocker(id) then None else Holds(e, at)
    {
      if at.AtBlocker? {
        RemovedResults(e.blockers, id, at.id);
      }
    }
    RemovedResults(e.blockers, id, id);
    assert Holds(e, AtBlocker(id)) == Result(e.blockers, id);
    Given(e, e', AtReturned(|e.returned|), Result(e.blockers, id));
  }

  lemma SteppedResults(l: BlockerList<nat>, id: u64)
    requires Distinct(l)
    ensures Distinct(Step(l)) && Ids(Step(l)) <= Ids(l)
    ensures Result(Step(l), id) == Result(l, id) || Result(Step(l), id) == None
  {
    StepFromKeeps(l, 0);
    ResultIsData(l, id);
    ResultIsData(Step(l), id);
    if id in Ids(l) {
      StepOutcome(l, 0, id);
    }
  }

  lemma StepOwned(e: Endpoint)
    requires Owned(e)
    ensures Owned(e.(blockers := Step(e.blockers)))
  {
    hide Result, Step;
    var e' := e.(blockers := Step(e.blockers));
    forall at: Place ensures Holds(e', at) == Holds(e, at) || Holds(e', at) == None {
      if at.AtBlocker? {
        SteppedResults(e.blockers, at.id);
      }
    }
    SteppedResults(e.blockers, 0);
    Given(e, e', AtBlocker(0), Holds(e', AtBlocker(0)));
  }

  // ---- the heap of buffers refines the growing sequences ----

  /** The bytes assembled so far, by multiblock id. */
  function ContentsOf(e: Endpoint): Contents {
    map id | id in e.incoming :: Stored(e.heap, e.incoming[id])
  }

  /** No buffer outside the incoming map changes: what was handed over keeps its bytes. */
  ghost predicate Frozen(e: Endpoint, e': Endpoint) {
    forall r: nat :: r < e.next && (forall id :: id in e.incoming ==> e.incoming[id] != r)
              ==> Stored(e'.heap, r) == Stored(e.heap, r)
  }

  /** The buffer a packet hands over, if it hands one over. */
  function HandedBuffer(e: Endpoint, p: Packet): Option<nat> {
    match p
    case Single(_, _, _) => Some(e.next)
    case Part(_, _, _, _, _) => None
    case Finish(id, _) => Incoming(e, id)
  }

  /** Writing through pointers into a shared heap amounts to updating one value per id, because no two ids
      share a buffer; and what is handed over holds exactly the bytes of the value. */
  lemma {:induction false} HandleRefines(e: Endpoint, p: Packet)
    requires Owned(e)
    ensures ContentsOf(Handle(e, p)) == Absorb(ContentsOf(e), p).0
    ensures Frozen(e, Handle(e, p)) && e.next <= Handle(e, p).next
    ensures var ds := Absorb(ContentsOf(e), p).1;
            if ds == [] then
              Handle(e, p).blockers == e.blockers && Handle(e, p).requests == e.requests
            else
              && |ds| == 1 && !p.Part?
              && ds[0] == Delivery(p.multiblockId, p.blockerId,
                                   if HandedBuffer(e, p) == None then None
                                   else Some(Stored(Handle(e, p).heap, HandedBuffer(e, p).value)))
              && Handle(e, p).blockers
                 == (if p.blockerId != 0 then Release(e.blockers, p.blockerId, HandedBuffer(e, p)) else e.blockers)
              && Handle(e, p).requests
                 == (if p.blockerId != 0 then e.requests else e.requests + [Handed(p.multiblockId, HandedBuffer(e, p))])
    ensures Handle(e, p).returned == e.returned
  {
    hide Result, Release, Owned;
    InMapBounds(e);
    match p
    case Single(_, _, _) => SingleRefines(e, p);
    case Part(_, _, _, _, _) => PartRefines(e, p);
    case Finish(id, _) => FinishRefines(e, p);
  }

  lemma FinishRefines(e: Endpoint, p: Packet)
    requires Owned(e) && p.Finish?
    ensures ContentsOf(Handle(e, p)) == ContentsOf(e) - {p.multiblockId}
    ensures Frozen(e, Handle(e, p)) && Handle(e, p).heap == e.heap
  {
  }

  lemma SingleRefines(e: Endpoint, p: Packet)
    requires Owned(e) && p.Single?
    ensures ContentsOf(Handle(e, p)) == Absorb(ContentsOf(e), p).0 && Frozen(e, Handle(e, p))
  {
    hide Result, Release;
    InMapBounds(e);
    var c, id := ContentsOf(e), p.multiblockId;
    assert Put(c, id, At(c, id)) == c;
    assert ContentsOf(Handle(e, p)) == c;
  }

  /** Different ids, different buffers, all allocated. */
  ghost predicate Separate(e: Endpoint) {
    && (forall id :: id in e.incoming ==> e.incoming[id] < e.next)
    && (forall x, y :: x in e.incoming && y in e.incoming && x != y ==> e.incoming[x] != e.incoming[y])
  }

  lemma CreatedSeparate(e: Endpoint, id: u64)
    requires Separate(e)
    ensures Separate(Created(e, id)) && Frozen(e, Created(e, id))
  {
    var e' := Created(e, id);
    forall x, y | x in e'.incoming && y in e'.incoming && x != y ensures e'.incoming[x] != e'.incoming[y] {
    }
  }

  lemma CreatedContents(e: Endpoint, id: u64)
    requires Separate(e)
    ensures ContentsOf(Created(e, id)) == if id in e.incoming then ContentsOf(e) else ContentsOf(e)[id := []]
  {
    var e' := Created(e, id);
    ContentsAre(e);
    ContentsAre(e');
    hide ContentsOf;
    var want := if id in e.incoming then ContentsOf(e) else ContentsOf(e)[id := []];
    assert ContentsOf(e').Keys == want.Keys;
    forall x | x in want ensures ContentsOf(e')[x] == want[x] {
      if x in e.incoming {
        assert e.incoming[x] != e.next;
      }
    }
  }

  lemma ContentsAre(e: Endpoint)
    ensures ContentsOf(e).Keys == e.incoming.Keys
    ensures forall id :: id in e.incoming ==> ContentsOf(e)[id] == Stored(e.heap, e.incoming[id])
  {
  }

  lemma WrittenContents(e: Endpoint, id: u64, data: seq<byte>)
    requires Separate(e)
    ensures Frozen(e, Written(e, id, data))
    ensures ContentsOf(Written(e, id, data))
         == if id in e.incoming then ContentsOf(e)[id := ContentsOf(e)[id] + data] else ContentsOf(e)
  {
  }

  lemma PartAbsorbed(c: Contents, p: Packet)
    requires p.Part?
    ensures var id := p.multiblockId;
            var c1 := if p.partId == 0 && id !in c then c[id := []] else c;
            Absorb(c, p) == (if id in c1 then c1[id := c1[id] + p.payload] else c1, [])
  {
    var id := p.multiblockId;
    assert [] + p.payload == p.payload;
    if id !in c {
      if p.partId != 0 {
        assert c - {id} == c;
      } else {
        assert c[id := []][id := p.payload] == c[id := p.payload];
      }
    }
  }

  lemma PartRefines(e: Endpoint, p: Packet)
    requires Owned(e) && p.Part?
    ensures ContentsOf(Handle(e, p)) == Absorb(ContentsOf(e), p).0 && Frozen(e, Handle(e, p))
  {
    InMapBounds(e);
    hide ContentsOf, Absorb, Created, Written, Owned;
    var id := p.multiblockId;
    var e1 := if p.partId == 0 then Created(e, id) else e;
    ContentsAre(e);
    ContentsAre(e1);
    CreatedSeparate(e, id);
    CreatedContents(e, id);
    WrittenContents(e1, id, p.payload);
    PartAbsorbed(ContentsOf(e), p);
    FrozenTwice(e, id, p);
  }

  lemma FrozenTwice(e: Endpoint, id: u64, p: Packet)
    requires Separate(e) && p.Part? && p.multiblockId == id
    ensures Frozen(e, Handle(e, p))
  {
  }

  lemma InMapBounds(e: Endpoint)
    requires Owned(e)
    ensures Separate(e)
  {
    forall id | id in e.incoming ensures e.incoming[id] < e.next {
      assert Holds(e, InMap(id)) == Some(e.incoming[id]);
    }
    forall id, id' | id in e.incoming && id' in e.incoming && id != id' ensures e.incoming[id] != e.incoming[id'] {
      assert Holds(e, InMap(id)) == Some(e.incoming[id]) && Holds(e, InMap(id')) == Some(e.incoming[id']);
    }
  }
}
