/** Unordered vectors of keyed entries, removed from by swapping the last entry into the gap: the
    container behind both the pending-reply list and the list of blocked callers. */
module SwapList {
  import opened Bytes

  datatype Item<+V> = Item(id: u64, value: V)

  /** Index of the first entry with the given id, or the length of the list. */
  function Find<V>(l: seq<Item<V>>, id: u64): (i: nat)
    ensures i <= |l| && (i < |l| ==> l[i].id == id)
  {
    if l == [] then 0 else if l[0].id == id then 0 else 1 + Find(l[1..], id)
  }

  lemma FindFirst<V>(l: seq<Item<V>>, id: u64, i: nat)
    requires i < |l| && l[i].id == id
    ensures Find(l, id) <= i
  {
    if l[0].id != id {
      FindFirst(l[1..], id, i - 1);
    }
  }

  /** Swap with the last entry, then pop. */
  function SwapOut<T>(l: seq<T>, i: nat): (r: seq<T>)
    requires i < |l|
    ensures |r| == |l| - 1
  {
    if |l| > 1 then l[i := l[|l| - 1]][|l| - 1 := l[i]][..|l| - 1] else []
  }

  function Remove<V>(l: seq<Item<V>>, id: u64): (r: seq<Item<V>>)
    ensures |r| <= |l|
  {
    if Find(l, id) < |l| then SwapOut(l, Find(l, id)) else l
  }

  ghost predicate Distinct<V>(l: seq<Item<V>>) {
    forall i, j :: 0 <= i < j < |l| ==> l[i].id != l[j].id
  }

  function Ids<V>(l: seq<Item<V>>): set<u64> { set i | 0 <= i < |l| :: l[i].id }

  lemma FoundIffIn<V>(l: seq<Item<V>>, id: u64)
    ensures Find(l, id) < |l| <==> id in Ids(l)
  {
    if id in Ids(l) {
      var i :| 0 <= i < |l| && l[i].id == id;
      FindFirst(l, id, i);
    }
  }

  /** The finite map a list of distinct entries stands for. */
  ghost function AsMap<V>(l: seq<Item<V>>): (m: map<u64, V>)
    ensures m.Keys == Ids(l)
  {
    map id | id in Ids(l) :: (FoundIffIn(l, id); l[Find(l, id)].value)
  }

  lemma FindAt<V>(l: seq<Item<V>>, i: nat)
    requires Distinct(l) && i < |l|
    ensures Find(l, l[i].id) == i && l[i].id in Ids(l) && AsMap(l)[l[i].id] == l[i].value
  {
    FindFirst(l, l[i].id, i);
  }

  /** The map is determined by the entries, in whatever order. */
  lemma MapOf<V>(l: seq<Item<V>>, m: map<u64, V>)
    requires Distinct(l) && m.Keys == Ids(l)
    requires forall i :: 0 <= i < |l| ==> m[l[i].id] == l[i].value
    ensures AsMap(l) == m
  {
    forall id | id in m ensures AsMap(l)[id] == m[id] {
      FoundIffIn(l, id);
      assert l[Find(l, id)].id == id;
    }
  }

  lemma AddIds<V>(l: seq<Item<V>>, e: Item<V>)
    requires Distinct(l) && e.id !in Ids(l)
    ensures Distinct(l + [e]) && Ids(l + [e]) == Ids(l) + {e.id}
  {
    var l' := l + [e];
    assert l'[|l|] == e;
    forall i | 0 <= i < |l| ensures l'[i] == l[i] && l[i].id in Ids(l) {
    }
    forall id | id in Ids(l) ensures id in Ids(l') {
      var i :| 0 <= i < |l| && l[i].id == id;
      assert l'[i].id == id;
    }
  }

  lemma AddRefines<V>(l: seq<Item<V>>, e: Item<V>)
    requires Distinct(l) && e.id !in Ids(l)
    ensures Distinct(l + [e]) && AsMap(l + [e]) == AsMap(l)[e.id := e.value]
  {
    hide Find, AsMap, Ids;
    AddIds(l, e);
    var l', m := l + [e], AsMap(l)[e.id := e.value];
    forall i | 0 <= i <= |l| ensures l'[i].id in m && m[l'[i].id] == l'[i].value {
      if i < |l| {
        FindAt(l, i);
      }
    }
    MapOf(l', m);
  }

  /** Where every entry of the list is after one is swapped out: in place, or moved forward into the gap. */
  lemma SwapOutAt<V>(l: seq<Item<V>>, i: nat, j: nat)
    requires i < |l| && j < |l| - 1
    ensures SwapOut(l, i)[j] == if j == i then l[|l| - 1] else l[j]
  {
  }

  lemma SwapOutIds<V>(l: seq<Item<V>>, i: nat)
    requires Distinct(l) && i < |l|
    ensures Distinct(SwapOut(l, i)) && Ids(SwapOut(l, i)) == Ids(l) - {l[i].id}
  {
    var l', n := SwapOut(l, i), |l| - 1;
    forall j, k | 0 <= j < k < n ensures l'[j].id != l'[k].id {
      SwapOutAt(l, i, j);
      SwapOutAt(l, i, k);
    }
    forall id | id in Ids(l) && id != l[i].id ensures id in Ids(l') {
      FoundIffIn(l, id);
      var j := Find(l, id);
      var k := if j == n then i else j;
      SwapOutAt(l, i, k);
      assert l'[k].id == id;
    }
    forall id | id in Ids(l') ensures id in Ids(l) - {l[i].id} {
      var j :| 0 <= j < n && l'[j].id == id;
      SwapOutAt(l, i, j);
      assert l[if j == i then n else j].id == id;
    }
  }

  lemma SwapOutRefines<V>(l: seq<Item<V>>, i: nat)
    requires Distinct(l) && i < |l|
    ensures AsMap(SwapOut(l, i)) == AsMap(l) - {l[i].id}
  {
    hide Find;
    SwapOutIds(l, i);
    var l', n := SwapOut(l, i), |l| - 1;
    forall j | 0 <= j < n ensures (AsMap(l) - {l[i].id})[l'[j].id] == l'[j].value {
      SwapOutAt(l, i, j);
      FindAt(l, if j == i then n else j);
    }
    MapOf(l', AsMap(l) - {l[i].id});
  }

  /** Removing by id is removal from the finite map, and of nothing else. */
  lemma RemoveRefines<V>(l: seq<Item<V>>, id: u64)
    requires Distinct(l)
    ensures Distinct(Remove(l, id)) && AsMap(Remove(l, id)) == AsMap(l) - {id}
    ensures Ids(Remove(l, id)) == Ids(l) - {id}
    ensures |Remove(l, id)| == |l| - if id in Ids(l) then 1 else 0
  {
    FoundIffIn(l, id);
    var i := Find(l, id);
    if i < |l| {
      SwapOutIds(l, i);
      SwapOutRefines(l, i);
    }
  }

  lemma UpdateIds<V>(l: seq<Item<V>>, i: nat, v: V)
    requires Distinct(l) && i < |l|
    ensures Distinct(l[i := Item(l[i].id, v)]) && Ids(l[i := Item(l[i].id, v)]) == Ids(l)
  {
    var l' := l[i := Item(l[i].id, v)];
    assert forall j :: 0 <= j < |l| ==> l'[j].id == l[j].id;
  }

  /** Replacing the value of one entry in place. */
  lemma UpdateRefines<V>(l: seq<Item<V>>, i: nat, v: V)
    requires Distinct(l) && i < |l|
    ensures Distinct(l[i := Item(l[i].id, v)])
    ensures AsMap(l[i := Item(l[i].id, v)]) == AsMap(l)[l[i].id := v]
  {
    hide Find, AsMap, Ids;
    UpdateIds(l, i, v);
    FindAt(l, i);
    var l', m := l[i := Item(l[i].id, v)], AsMap(l)[l[i].id := v];
    forall j | 0 <= j < |l| ensures l'[j].id in m && m[l'[j].id] == l'[j].value {
      FindAt(l, j);
    }
    MapOf(l', m);
  }

  lemma DistinctCount<V>(l: seq<Item<V>>)
    requires Distinct(l)
    ensures |Ids(l)| == |l|
    decreases |l|
  {
    if l != [] {
      SwapOutIds(l, |l| - 1);
      DistinctCount(SwapOut(l, |l| - 1));
    } else {
      assert Ids(l) == {};
    }
  }
}
