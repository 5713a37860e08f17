/** Several sessions of one process share its buffers and its blocked callers: what a step of one of them leaves
    alone (src/multiblock_io.cpp, src/handler/message_blocker_handler.cpp). */
module SharedBuffers {
  import opened Bytes
  import opened Wire
  import opened SwapList
  import opened BlockedCallers
  import opened DataProcessing

  // ---- what a step may put where ----

  ghost predicate Held(e: Endpoint, b: nat) { exists at :: Holds(e, at) == Some(b) }

  /** Whatever is held after a step was held before, or has been allocated by it. */
  ghost predicate Kept(e: Endpoint, e': Endpoint) {
    && e.next <= e'.next
    && forall at :: Holds(e', at).Some? ==> e.next <= Holds(e', at).value || Held(e, Holds(e', at).value)
  }

  /** All places but one hold what they held, or nothing; that one holds p, or nothing. */
  lemma KeptByGiving(e: Endpoint, mid: Endpoint, e': Endpoint, to: Place, p: Option<nat>)
    requires Kept(e, mid) && e.next <= e'.next
    requires forall at :: at != to ==> Holds(e', at) == Holds(mid, at) || Holds(e', at) == None
    requires Holds(e', to) == p || Holds(e', to) == None
    requires p.Some? ==> e.next <= p.value || Held(e, p.value)
    ensures Kept(e, e')
  {
    hide Holds, Held;
    forall at | Holds(e', at).Some? ensures e.next <= Holds(e', at).value || Held(e, Holds(e', at).value) {
      if at != to {
        assert Holds(e', at) == Holds(mid, at);
      }
    }
  }

  lemma NothingMoved(e: Endpoint)
    ensures Kept(e, e)
  {
    hide Holds;
  }

  lemma HandedOverKept(e: Endpoint, mid: Endpoint, id: u64, blockerId: u64, p: Option<nat>)
    requires Distinct(mid.blockers) && Kept(e, mid)
    requires p.Some? ==> e.next <= p.value || Held(e, p.value)
    ensures Kept(e, HandedOver(mid, id, blockerId, p))
  {
    hide Release, Result, Kept, Held;
    var e' := HandedOver(mid, id, blockerId, p);
    assert e.next <= e'.next by { assert Kept(e, mid) && e.next <= mid.next by { KeptGrows(e, mid); } }
    if blockerId != 0 {
      forall at | at != AtBlocker(blockerId) ensures Holds(e', at) == Holds(mid, at) {
        if at.AtBlocker? {
          ReleasedResults(mid.blockers, blockerId, p, at.id);
        }
      }
      ReleasedResults(mid.blockers, blockerId, p, blockerId);
      KeptByGiving(e, mid, e', AtBlocker(blockerId), p);
    } else {
      KeptByGiving(e, mid, e', AtCallback(|mid.requests|), p);
    }
  }

  lemma KeptGrows(e: Endpoint, e': Endpoint)
    requires Kept(e, e')
    ensures e.next <= e'.next
  {
  }

  lemma HandleKept(e: Endpoint, p: Packet)
    requires Owned(e)
    ensures Kept(e, Handle(e, p))
  {
    hide Result, Release, Kept, Held;
    NothingMoved(e);
    match p
    case Single(id, blockerId, payload) =>
      var e' := Allocated(e, payload);
      HeldThere(e, InMap(0));
      KeptByGiving(e, e, e', InMap(0), Holds(e, InMap(0)));
      HandedOverKept(e, e', id, blockerId, Some(e.next));
    case Part(id, _, _, partId, payload) =>
      var e1 := if partId == 0 then Created(e, id) else e;
      var b := if partId == 0 && id !in e.incoming then Some(e.next) else Holds(e, InMap(id));
      HeldThere(e, InMap(id));
      KeptByGiving(e, e, e1, InMap(id), b);
      KeptByGiving(e, e1, Written(e1, id, payload), InMap(id), b);
    case Finish(id, blockerId) =>
      var e' := Dropped(e, id);
      KeptByGiving(e, e, e', InMap(id), None);
      HeldThere(e, InMap(id));
      HandedOverKept(e, e', id, blockerId, Incoming(e, id));
  }

  lemma HeldThere(e: Endpoint, at: Place)
    ensures Holds(e, at).Some? ==> Held(e, Holds(e, at).value)
  {
  }

  /** A step that only changes the blocker list and the returned callers. */
  lemma ListKept(e: Endpoint, e': Endpoint)
    requires e'.next == e.next && e'.incoming == e.incoming && e'.requests == e.requests
    requires forall id :: Holds(e', AtBlocker(id)) == Holds(e, AtBlocker(id)) || Holds(e', AtBlocker(id)) == None
    requires e'.returned == e.returned
          || exists id :: e'.returned == e.returned + [Handed(id, Holds(e, AtBlocker(id)))]
    ensures Kept(e, e')
  {
    hide Result, Held;
    forall at | Holds(e', at).Some? ensures Held(e, Holds(e', at).value) {
      if at.AtReturned? && at.index == |e.returned| {
        var id :| e'.returned == e.returned + [Handed(id, Holds(e, AtBlocker(id)))];
        HeldThere(e, AtBlocker(id));
      } else {
        assert Holds(e', at) == Holds(e, at);
        HeldThere(e, at);
      }
    }
  }

  // ---- several sessions of one process ----

  /** q is another session of the process of e: they share the buffers and the list of blocked callers. */
  predicate SameProcess(e: Endpoint, q: Endpoint) {
    e.next == q.next && e.heap == q.heap && e.blockers == q.blockers
  }

  /** q after a step of e. */
  function Sharing(q: Endpoint, e: Endpoint): Endpoint {
    q.(next := e.next, heap := e.heap, blockers := e.blockers)
  }

  /** The incoming maps, callbacks and returned requests of two sessions have no buffer in common. */
  ghost predicate Apart(e: Endpoint, q: Endpoint) {
    forall at: Place, at': Place :: !at.AtBlocker? && !at'.AtBlocker? && Holds(e, at).Some? ==>
      Holds(e, at) != Holds(q, at')
  }

  lemma ApartSymmetric(e: Endpoint, q: Endpoint)
    requires Apart(e, q)
    ensures Apart(q, e)
  {
    hide Holds;
  }

  lemma SharedHolds(q: Endpoint, e: Endpoint, at: Place)
    ensures Holds(Sharing(q, e), at) == if at.AtBlocker? then Holds(e, at) else Holds(q, at)
  {
    hide Result;
  }

  /** What e holds after its step is not held privately by another session of its process. */
  lemma StillApart(e: Endpoint, e': Endpoint, q: Endpoint, at: Place, at': Place)
    requires Owned(e) && Owned(q) && SameProcess(e, q) && Apart(e, q) && Kept(e, e')
    requires Holds(e', at).Some? && !at'.AtBlocker?
    ensures Holds(e', at) != Holds(q, at')
  {
    var b := Holds(e', at).value;
    if b < e.next {
      var at0 :| Holds(e, at0) == Some(b);
      if at0.AtBlocker? {
        assert Holds(e, at0) == Holds(q, at0);
      }
    }
    hide Holds;
  }

  lemma OwnedAt(e: Endpoint, at: Place, at': Place)
    requires Owned(e) && Holds(e, at).Some?
    ensures Holds(e, at).value < e.next && (at != at' ==> Holds(e, at) != Holds(e, at'))
  {
    hide Holds;
  }

  lemma SharingOwned(e: Endpoint, e': Endpoint, q: Endpoint, at: Place, at': Place)
    requires Owned(e) && Owned(q) && SameProcess(e, q) && Apart(e, q) && Owned(e') && Kept(e, e')
    requires at != at' && Holds(Sharing(q, e'), at).Some?
    ensures Holds(Sharing(q, e'), at) != Holds(Sharing(q, e'), at')
    ensures Holds(Sharing(q, e'), at).value < e'.next
  {
    hide Holds, Owned, Apart, Sharing;
    KeptGrows(e, e');
    SharedHolds(q, e', at);
    SharedHolds(q, e', at');
    if at.AtBlocker? {
      OwnedAt(e', at, at');
      if !at'.AtBlocker? {
        StillApart(e, e', q, at, at');
      }
    } else {
      OwnedAt(q, at, at');
      if at'.AtBlocker? && Holds(e', at').Some? {
        StillApart(e, e', q, at', at);
      }
    }
  }

  /** A step of one session keeps every buffer of the other sessions in one place. */
  lemma BystanderOwned(e: Endpoint, e': Endpoint, q: Endpoint)
    requires Owned(e) && Owned(q) && SameProcess(e, q) && Apart(e, q)
    requires Owned(e') && Kept(e, e')
    ensures Owned(Sharing(q, e')) && Apart(e', Sharing(q, e'))
  {
    var q' := Sharing(q, e');
    assert Owned(q') by {
      forall at | Holds(q', at).Some? ensures Holds(q', at).value < q'.next {
        SharingOwned(e, e', q, at, if at == InMap(0) then InMap(1) else InMap(0));
      }
      forall at, at' | at != at' && Holds(q', at).Some? ensures Holds(q', at) != Holds(q', at') {
        SharingOwned(e, e', q, at, at');
      }
      hide Holds;
    }
    hide Holds, Owned, Kept;
    forall at: Place, at': Place | !at.AtBlocker? && !at'.AtBlocker? && Holds(e', at).Some?
      ensures Holds(e', at) != Holds(q', at')
    {
      SharedHolds(q, e', at');
      StillApart(e, e', q, at, at');
    }
  }

  /** And it leaves the bytes of their buffers alone. */
  lemma BystanderFrozen(e: Endpoint, e': Endpoint, q: Endpoint, at: Place)
    requires Owned(q) && SameProcess(e, q) && Apart(e, q) && Frozen(e, e')
    requires !at.AtBlocker? && Holds(q, at).Some?
    ensures Stored(e'.heap, Holds(q, at).value) == Stored(e.heap, Holds(q, at).value)
  {
    hide Result;
    var b := Holds(q, at).value;
    forall id | id in e.incoming ensures e.incoming[id] != b {
      assert Holds(e, InMap(id)) == Some(e.incoming[id]);
    }
    assert b < e.next;
  }
}
