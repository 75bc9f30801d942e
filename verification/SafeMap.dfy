/**
 SafeMap and its iterator.  An iterator carries a copy of the map taken when it was made and steps by
 looking its current key up in that copy.
 */
module SafeMaps {
  // ---------------------------------------------------------------- ordered keys

  lemma NonEmpty(s: set<int>)
    requires s != {}
    ensures exists k :: k in s
  {
    assert (forall k :: k !in s) ==> s == {};
  }

  ghost predicate IsMin(s: set<int>, k: int) {
    k in s && forall j | j in s :: k <= j
  }

  lemma MinExists(s: set<int>)
    requires s != {}
    ensures exists k :: IsMin(s, k)
  {
    NonEmpty(s);
    var x :| x in s;
    var r := s - {x};
    assert forall j | j in s :: j == x || j in r;
    if r == {} {
      assert IsMin(s, x);
    } else {
      MinExists(r);
      var y :| IsMin(r, y);
      assert IsMin(s, if x < y then x else y);
    }
  }

  /** The least element: *begin() of a std::map with these keys. */
  ghost function Least(s: set<int>): (k: int)
    requires s != {}
    ensures k in s && forall j | j in s :: k <= j
  {
    MinExists(s);
    var k :| k in s && forall j | j in s :: k <= j;
    k
  }

  ghost function Above(s: set<int>, k: int): set<int> {
    set j | j in s && j > k
  }

  ghost function From(s: set<int>, k: int): set<int> {
    set j | j in s && j >= k
  }

  /** The position a std::map iterator on k moves to. */
  predicate IsNext(s: set<int>, k: int, next: int) {
    next in s && k < next && forall j | j in s && k < j :: next <= j
  }

  lemma NextExists(s: set<int>, k: int)
    requires exists j :: j in s && j > k
    ensures Above(s, k) != {} && IsNext(s, k, Least(Above(s, k)))
    ensures forall n | IsNext(s, k, n) :: n == Least(Above(s, k))
  {
    var j :| j in s && j > k;
    assert j in Above(s, k);
    var n := Least(Above(s, k));
    assert forall i | i in s && k < i :: i in Above(s, k);
  }

  /** The keys in ascending order. */
  ghost function Ascending(s: set<int>): seq<int> {
    if s == {} then [] else [Least(s)] + Ascending(s - {Least(s)})
  }

  lemma AscendingMembers(s: set<int>, k: int)
    ensures k in Ascending(s) <==> k in s
  {
    if s != {} {
      AscendingMembers(s - {Least(s)}, k);
    }
  }

  lemma {:induction false} AscendingOrder(s: set<int>, i: nat, j: nat)
    requires i < j < |Ascending(s)|
    ensures Ascending(s)[i] < Ascending(s)[j]
  {
    var r := s - {Least(s)};
    var a := Ascending(s);
    assert a == [Least(s)] + Ascending(r);
    AscendingMembers(r, a[j]);
    assert a[j] == Ascending(r)[j - 1] && a[j] in Ascending(r);
    if i > 0 {
      AscendingOrder(r, i - 1, j - 1);
    }
  }

  /** Ascending lists every key exactly once, in strictly ascending order. */
  lemma AscendingSpec(s: set<int>)
    ensures forall k :: k in Ascending(s) <==> k in s
    ensures forall i, j | 0 <= i < j < |Ascending(s)| :: Ascending(s)[i] < Ascending(s)[j]
  {
    forall k ensures k in Ascending(s) <==> k in s {
      AscendingMembers(s, k);
    }
    forall i, j | 0 <= i < j < |Ascending(s)| ensures Ascending(s)[i] < Ascending(s)[j] {
      AscendingOrder(s, i, j);
    }
  }

  /** One step of a traversal: the key itself, then the keys from its successor on. */
  lemma AscendingStep(s: set<int>, k: int)
    requires k in s
    ensures Ascending(From(s, k)) == [k] + if Above(s, k) == {} then [] else Ascending(From(s, Least(Above(s, k))))
  {
    assert k in From(s, k);
    assert Least(From(s, k)) == k;
    assert From(s, k) - {k} == Above(s, k);
    if Above(s, k) != {} {
      assert Above(s, k) == From(s, Least(Above(s, k)));
    }
  }

  /** Keys with their values in m. */
  ghost function Pairs<V>(m: map<int, V>, ks: seq<int>): seq<(int, V)>
    requires forall i | 0 <= i < |ks| :: ks[i] in m
  {
    if ks == [] then [] else [(ks[0], m[ks[0]])] + Pairs(m, ks[1..])
  }

  // ---------------------------------------------------------------- the iterator

  class Iter<V(0)> {
    var isEnd: bool
    var first: int
    var second: V
    var tempMap: map<int, V>
    var oldSelf: Iter?<V>

    /** The iterator stands on an entry of its snapshot, or at the end. */
    ghost predicate Valid()
      reads this, oldSelf
    {
      && (!isEnd ==> first in tempMap && second == tempMap[first])
      && (oldSelf != null ==> oldSelf.oldSelf == null && oldSelf != this)
    }

    /** WDItr(): end(). */
    constructor End()
      ensures isEnd && tempMap == map[] && oldSelf == null
    {
      isEnd, tempMap, oldSelf := true, map[], null;
    }

    /** WDItr(t_map). */
    constructor Over(m: map<int, V>)
      ensures isEnd && tempMap == m && oldSelf == null
    {
      isEnd, tempMap, oldSelf := true, m, null;
    }

    /** The copy of a saved predecessor, which has none itself. */
    constructor CopySaved(it: Iter<V>)
      ensures isEnd == it.isEnd && first == it.first && second == it.second && tempMap == it.tempMap && oldSelf == null
    {
      first, second, isEnd, tempMap, oldSelf := it.first, it.second, it.isEnd, it.tempMap, null;
    }

    /** WDItr(val): the position, the snapshot and a copy of the saved predecessor. */
    constructor Copy(it: Iter<V>)
      requires it.Valid()
      ensures Valid() && isEnd == it.isEnd && first == it.first && second == it.second && tempMap == it.tempMap
      ensures oldSelf == null <==> it.oldSelf == null
      ensures oldSelf != null ==>
          fresh(oldSelf) && oldSelf.first == it.oldSelf.first && oldSelf.isEnd == it.oldSelf.isEnd
          && oldSelf.second == it.oldSelf.second && oldSelf.tempMap == it.oldSelf.tempMap
    {
      first, second, isEnd, tempMap, oldSelf := it.first, it.second, it.isEnd, it.tempMap, null;
      if it.oldSelf != null {
        oldSelf := new Iter<V>.CopySaved(it.oldSelf);
      }
    }

    /** operator==. */
    predicate Equals(it: Iter<V>)
      reads this, it
    {
      (isEnd && it.isEnd) || (isEnd == it.isEnd && first == it.first)
    }

    /** ++it: to the next greater key of the snapshot; at the last key, or off it, to the end. */
    method Increment()
      requires Valid()
      modifies this`isEnd, this`first, this`second
      ensures Valid()
      ensures var above := Above(tempMap.Keys, old(first));
              if old(first) in tempMap && above != {}
              then !isEnd && first == Least(above)
              else isEnd && first == old(first)
    {
      if first !in tempMap || forall j | j in tempMap.Keys :: j <= first {
        assert first in tempMap ==> Above(tempMap.Keys, first) == {};
        isEnd := true;
      } else {
        NextExists(tempMap.Keys, first);
        var next: int :| IsNext(tempMap.Keys, first, next);
        isEnd := false;
        first := next;
        second := tempMap[next];
      }
    }

    /** it++: saves a copy of the old position, steps, and returns the copy. */
    method PostIncrement() returns (old': Iter<V>)
      requires Valid()
      modifies this
      ensures Valid() && oldSelf == old' && fresh(old') && tempMap == old(tempMap)
      ensures old'.isEnd == old(isEnd) && old'.first == old(first) && old'.second == old(second)
          && old'.tempMap == tempMap
      ensures var above := Above(tempMap.Keys, old(first));
              if old(first) in tempMap && above != {}
              then !isEnd && first == Least(above)
              else isEnd && first == old(first)
    {
      oldSelf := null;
      oldSelf := new Iter<V>.Copy(this);
      Increment();
      return oldSelf;
    }
  }

  // ---------------------------------------------------------------- the map

  class SafeMap<V(0)> {
    var wdmap: map<int, V>

    constructor ()
      ensures wdmap == map[]
    {
      wdmap := map[];
    }

    method Begin() returns (it: Iter<V>)
      ensures fresh(it) && it.Valid() && it.tempMap == wdmap && it.oldSelf == null
      ensures if wdmap == map[] then it.isEnd else !it.isEnd && it.first == Least(wdmap.Keys)
    {
      it := new Iter<V>.Over(wdmap);
      if wdmap != map[] {
        assert wdmap.Keys == {} ==> wdmap == map[];
        MinExists(wdmap.Keys);
        var k: int :| k in wdmap.Keys && forall j | j in wdmap.Keys :: k <= j;
        it.isEnd := false;
        it.first := k;
        it.second := wdmap[k];
      }
    }

    method End() returns (it: Iter<V>)
      ensures fresh(it) && it.isEnd && it.oldSelf == null
    {
      it := new Iter<V>.End();
    }

    method Find(key: int) returns (it: Iter<V>)
      ensures fresh(it) && it.Valid() && it.tempMap == wdmap && it.oldSelf == null
      ensures if key in wdmap then !it.isEnd && it.first == key else it.isEnd
    {
      it := new Iter<V>.Over(wdmap);
      if key in wdmap {
        it.isEnd := false;
        it.first := key;
        it.second := wdmap[key];
      }
    }

    /** insert keeps the value of a key that is present. */
    method Insert(key: int, val: V)
      modifies this
      ensures wdmap == if key in old(wdmap) then old(wdmap) else old(wdmap)[key := val]
    {
      if key !in wdmap {
        wdmap := wdmap[key := val];
      }
    }

    method Update(key: int, val: V) returns (ret: bool)
      modifies this
      ensures ret == (key in old(wdmap))
      ensures wdmap == if ret then old(wdmap)[key := val] else old(wdmap)
    {
      ret := false;
      if key in wdmap {
        wdmap := wdmap[key := val];
        ret := true;
      }
    }

    method Erase(key: int)
      modifies this
      ensures wdmap == old(wdmap) - {key}
    {
      wdmap := wdmap - {key};
    }

    /** operator[]: an absent key is inserted with the default value V(). */
    method Index(key: int, dflt: V) returns (val: V)
      modifies this
      ensures wdmap == if key in old(wdmap) then old(wdmap) else old(wdmap)[key := dflt]
      ensures val == wdmap[key]
    {
      if key !in wdmap {
        wdmap := wdmap[key := dflt];
      }
      val := wdmap[key];
    }

    /** Calls of other threads, one after the other. */
    method Apply(calls: seq<Call<V>>)
      modifies this
      ensures wdmap == Applied(old(wdmap), calls)
    {
      assert calls[..0] == [];
      for i := 0 to |calls|
        invariant wdmap == Applied(old(wdmap), calls[..i])
      {
        assert calls[..i + 1][..i] == calls[..i];
        match calls[i] {
          case InsertCall(k, v) => Insert(k, v);
          case UpdateCall(k, v) => var _ := Update(k, v);
          case EraseCall(k) => Erase(k);
          case IndexCall(k, dflt) => var _ := Index(k, dflt);
        }
      }
      assert calls[..|calls|] == calls;
    }
  }

  datatype Call<V> =
    | InsertCall(k: int, v: V)
    | UpdateCall(k: int, v: V)
    | EraseCall(k: int)
    | IndexCall(k: int, dflt: V)

  /** The map after the calls. */
  ghost function Applied<V>(m: map<int, V>, calls: seq<Call<V>>): map<int, V> {
    if calls == [] then m
    else
      var n := Applied(m, calls[..|calls| - 1]);
      match calls[|calls| - 1]
      case InsertCall(k, v) => if k in n then n else n[k := v]
      case UpdateCall(k, v) => if k in n then n[k := v] else n
      case EraseCall(k) => n - {k}
      case IndexCall(k, dflt) => if k in n then n else n[k := dflt]
  }

  // ---------------------------------------------------------------- traversal

  ghost function ListFrom(s: set<int>, k: int): (l: seq<int>)
    ensures forall i | 0 <= i < |l| :: l[i] in s
  {
    AscendingSpec(From(s, k));
    var l := Ascending(From(s, k));
    assert forall i | 0 <= i < |l| :: l[i] in l;
    l
  }

  /** The entries of m with keys from k on, in ascending order of keys. */
  ghost function EntriesFrom<V>(m: map<int, V>, k: int): seq<(int, V)> {
    Pairs(m, ListFrom(m.Keys, k))
  }

  /** What an iterator over m still has to visit. */
  ghost function Remaining<V>(m: map<int, V>, isEnd: bool, first: int): seq<(int, V)> {
    if isEnd then [] else EntriesFrom(m, first)
  }

  lemma RemainingStep<V>(m: map<int, V>, k: int)
    requires k in m
    ensures var above := Above(m.Keys, k);
            EntriesFrom(m, k) == [(k, m[k])] + if above == {} then [] else EntriesFrom(m, Least(above))
  {
    AscendingStep(m.Keys, k);
    var above, l := Above(m.Keys, k), ListFrom(m.Keys, k);
    var rest := if above == {} then [] else ListFrom(m.Keys, Least(above));
    assert l == [k] + rest;
    assert l[0] == k && l[1..] == rest;
    assert Pairs(m, l) == [(k, m[k])] + Pairs(m, l[1..]);
  }

  /** The rest of a traversal, with either increment form, while anything may happen to the map. */
  method Traverse<V(0)>(m: SafeMap<V>, it: Iter<V>, prefix: bool) returns (visited: seq<(int, V)>)
    requires it.Valid() && it.oldSelf == null
    modifies m, it
    ensures visited == Remaining(old(it.tempMap), old(it.isEnd), old(it.first))
  {
    visited := [];
    var end := m.End();
    ghost var snapshot := it.tempMap;
    ghost var all := Remaining(snapshot, it.isEnd, it.first);
    assert [] + all == all;
    while !it.Equals(end)
      invariant it.Valid() && it.tempMap == snapshot && end.isEnd && fresh(end)
      invariant it.oldSelf == null || fresh(it.oldSelf)
      invariant visited + Remaining(snapshot, it.isEnd, it.first) == all
      decreases |Remaining(snapshot, it.isEnd, it.first)|
    {
      RemainingStep(snapshot, it.first);
      ghost var before, rest := visited, Remaining(snapshot, it.isEnd, it.first);
      visited := visited + [(it.first, it.second)];
      var calls: seq<Call<V>> := *;  // other threads insert, update, erase and index
      m.Apply(calls);
      if prefix {
        it.Increment();
      } else {
        var _ := it.PostIncrement();
      }
      assert before + rest == visited + rest[1..];
      assert rest[1..] == Remaining(snapshot, it.isEnd, it.first);
    }
  }

  /** for(it = begin(); it != end(); ++it): the snapshot's entries, every key once, ascending. */
  method TraverseAll<V(0)>(m: SafeMap<V>, prefix: bool) returns (visited: seq<(int, V)>)
    modifies m
    ensures Lists(visited, old(m.wdmap), old(m.wdmap.Keys))
  {
    var it := m.Begin();
    ghost var snapshot := m.wdmap;
    visited := Traverse(m, it, prefix);
    if snapshot != map[] {
      var k := Least(snapshot.Keys);
      assert From(snapshot.Keys, k) == snapshot.Keys;
      EntriesList(snapshot, k);
    }
  }

  /** The same from find(key): the keys from key on when it is present, nothing otherwise. */
  method TraverseFrom<V(0)>(m: SafeMap<V>, key: int, prefix: bool) returns (visited: seq<(int, V)>)
    modifies m
    ensures Lists(visited, old(m.wdmap), if key in old(m.wdmap) then From(old(m.wdmap.Keys), key) else {})
  {
    var it := m.Find(key);
    ghost var snapshot := m.wdmap;
    visited := Traverse(m, it, prefix);
    if key in snapshot {
      EntriesList(snapshot, key);
    }
  }

  /** visited lists exactly the keys ks, each once, in ascending order, with their values in m. */
  ghost predicate Lists<V>(visited: seq<(int, V)>, m: map<int, V>, ks: set<int>) {
    && (forall i | 0 <= i < |visited| :: visited[i].0 in ks && visited[i].0 in m && visited[i].1 == m[visited[i].0])
    && (forall k | k in ks :: exists i :: 0 <= i < |visited| && visited[i].0 == k)
    && (forall i, j | 0 <= i < j < |visited| :: visited[i].0 < visited[j].0)
  }

  lemma {:induction false} PairsAt<V>(m: map<int, V>, ks: seq<int>)
    requires forall i | 0 <= i < |ks| :: ks[i] in m
    ensures |Pairs(m, ks)| == |ks| && forall i | 0 <= i < |ks| :: Pairs(m, ks)[i] == (ks[i], m[ks[i]])
  {
    if ks != [] {
      PairsAt(m, ks[1..]);
    }
  }

  lemma EntriesList<V>(m: map<int, V>, k: int)
    ensures Lists(EntriesFrom(m, k), m, From(m.Keys, k))
  {
    var l, ks := ListFrom(m.Keys, k), From(m.Keys, k);
    PairsAt(m, l);
    AscendingSpec(ks);
    forall i | 0 <= i < |l| ensures l[i] in ks {
      assert l[i] in l;
    }
    forall j | j in ks ensures exists i :: 0 <= i < |EntriesFrom(m, k)| && EntriesFrom(m, k)[i].0 == j {
      var i :| 0 <= i < |l| && l[i] == j;
      assert EntriesFrom(m, k)[i].0 == j;
    }
  }
}
