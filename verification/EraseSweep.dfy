/**
 erase_msg_timer: the two-phase sweep over the delete list.  The loop pops from the list it is
 bounded by and pushes kept ids back on it, so how far it gets depends on what it removes.
 */
module EraseSweep {
  import opened Prelude
  import opened ClientSteps

  /** The erase flag of every entry in the receive map. */
  type Flags = map<int, Flag>

  /** The effect of the visits made so far in one sweep. */
  datatype Visits = Visits(flags: Flags, kept: seq<int>, marked: set<int>, erased: set<int>)

  /** One visit: drop an absent id, erase an EXEC entry, turn STATE into EXEC and keep the id. */
  function Visit(v: Visits, k: int): Visits {
    if k !in v.flags then v
    else if v.flags[k].EraseExec? then v.(flags := v.flags - {k}, erased := v.erased + {k})
    else if v.flags[k].EraseState? then v.(flags := v.flags[k := EraseExec], kept := v.kept + [k],
      marked := v.marked + {k})
    else v.(kept := v.kept + [k])
  }

  /** The visits of the ids ks, in order, starting from the flags f. */
  function VisitAll(f: Flags, ks: seq<int>): (v: Visits)
    ensures |v.kept| <= |ks|
  {
    if ks == [] then Visits(f, [], {}, {}) else Visit(VisitAll(f, ks[..|ks| - 1]), Last(ks))
  }

  /** The length of the delete list after i visits. */
  function LengthAfter(f: Flags, l: seq<int>, i: nat): nat
    requires i <= |l|
  {
    |l| - i + |VisitAll(f, l[..i]).kept|
  }

  /** How many ids a sweep visits: it stops at the first i not below the length it re-reads. */
  function Count(f: Flags, l: seq<int>, i: nat): (m: nat)
    requires i <= |l|
    ensures i <= m <= |l| && m >= LengthAfter(f, l, m)
    ensures forall j | i <= j < m :: j < LengthAfter(f, l, j)
    decreases |l| - i
  {
    if i < LengthAfter(f, l, i) then Count(f, l, i + 1) else i
  }

  function SweepCount(f: Flags, l: seq<int>): nat {
    Count(f, l, 0)
  }

  function SweepVisits(f: Flags, l: seq<int>): Visits {
    VisitAll(f, l[..SweepCount(f, l)])
  }

  function SweepList(f: Flags, l: seq<int>): seq<int> {
    l[SweepCount(f, l)..] + SweepVisits(f, l).kept
  }

  class ClientLoop {
    var delReqIds: seq<int>
    var flags: Flags

    constructor (ids: seq<int>, f: Flags)
      ensures delReqIds == ids && flags == f
    {
      delReqIds, flags := ids, f;
    }

    /** The sweep as the source runs it. */
    method EraseMsgTimer()
      modifies this
      ensures delReqIds == SweepList(old(flags), old(delReqIds))
      ensures flags == SweepVisits(old(flags), old(delReqIds)).flags
    {
      ghost var f, l := flags, delReqIds;
      assert l[..0] == [] && l[0..] + [] == l;
      var i := 0;
      while i < |delReqIds|
        invariant i <= |l| && SweepCount(f, l) == Count(f, l, i)
        invariant delReqIds == l[i..] + VisitAll(f, l[..i]).kept
        invariant flags == VisitAll(f, l[..i]).flags
        decreases |l| - i
      {
        Turn(f, l, i, delReqIds);
        var reqid := delReqIds[0];
        delReqIds := delReqIds[1..];
        if reqid in flags {
          if flags[reqid].EraseExec? {
            flags := flags - {reqid};
          } else {
            if flags[reqid].EraseState? {
              flags := flags[reqid := EraseExec];
            }
            delReqIds := delReqIds + [reqid];
          }
        }
        i := i + 1;
      }
    }
  }

  lemma VisitNext(f: Flags, l: seq<int>, i: nat)
    requires i < |l|
    ensures VisitAll(f, l[..i + 1]) == Visit(VisitAll(f, l[..i]), l[i])
    ensures l[i..] == [l[i]] + l[i + 1..]
  {
    assert l[..i + 1][..i] == l[..i];
  }

  /** One turn of the loop: the front of the list is the next unvisited id. */
  lemma Turn(f: Flags, l: seq<int>, i: nat, list: seq<int>)
    requires i <= |l| && list == l[i..] + VisitAll(f, l[..i]).kept && i < |list|
    ensures i < |l| && Count(f, l, i) == Count(f, l, i + 1)
    ensures var v := VisitAll(f, l[..i]);
            && list[0] == l[i] && list[1..] == l[i + 1..] + v.kept
            && list[1..] + [l[i]] == l[i + 1..] + (v.kept + [l[i]])
            && VisitAll(f, l[..i + 1]) == Visit(v, l[i])
  {
    assert |list| == LengthAfter(f, l, i);
    VisitNext(f, l, i);
    ListNext(l[i + 1..], l[i], VisitAll(f, l[..i]).kept);
  }

  lemma ListNext(a: seq<int>, k: int, kept: seq<int>)
    ensures ([k] + a + kept)[0] == k && ([k] + a + kept)[1..] == a + kept && a + kept + [k] == a + (kept + [k])
  {
  }

  // ---------------------------------------------------------------- how far a sweep gets

  /** Despite its shrinking bound a sweep visits at least half of the list, and the whole list
      when nothing is removed. */
  lemma VisitsHalf(f: Flags, l: seq<int>)
    ensures |l| <= 2 * SweepCount(f, l)
    ensures |SweepVisits(f, l).kept| == SweepCount(f, l) ==> SweepCount(f, l) == |l|
  {
  }

  // ---------------------------------------------------------------- marking and erasing

  /** Id k occurs at two of the first n positions. */
  ghost predicate Twice(l: seq<int>, n: nat, k: int)
    requires n <= |l|
  {
    exists i, j :: 0 <= i < j < n && l[i] == k && l[j] == k
  }

  /** What n visits did to id k. */
  lemma {:induction false} VisitsOf(f: Flags, l: seq<int>, n: nat, k: int)
    requires n <= |l|
    ensures var v := VisitAll(f, l[..n]);
            && (k in v.marked <==> k in l[..n] && k in f && f[k].EraseState?)
            && (k in v.erased <==> k in f && k in l[..n] && (f[k].EraseExec? || (f[k].EraseState? && Twice(l, n, k))))
            && (k in v.flags <==> k in f && k !in v.erased)
            && (k in v.flags ==> v.flags[k] == if k in v.marked then EraseExec else f[k])
  {
    if n > 0 {
      VisitsOf(f, l, n - 1, k);
      VisitNext(f, l, n - 1);
      assert l[..n] == l[..n - 1] + [l[n - 1]];
      assert Twice(l, n, k) <==> Twice(l, n - 1, k) || (l[n - 1] == k && k in l[..n - 1]) by {
        TwiceNext(l, n, k);
      }
    }
  }

  lemma TwiceNext(l: seq<int>, n: nat, k: int)
    requires 0 < n <= |l|
    ensures Twice(l, n, k) <==> Twice(l, n - 1, k) || (l[n - 1] == k && k in l[..n - 1])
  {
    if Twice(l, n, k) {
      var i, j :| 0 <= i < j < n && l[i] == k && l[j] == k;
      assert l[..n - 1][i] == k;
    }
    if l[n - 1] == k && k in l[..n - 1] {
      var i :| 0 <= i < n - 1 && l[..n - 1][i] == k;
      assert 0 <= i < n - 1 < n && l[i] == k && l[n - 1] == k;
    }
    if Twice(l, n - 1, k) {
      var i, j :| 0 <= i < j < n - 1 && l[i] == k && l[j] == k;
      assert 0 <= i < j < n;
    }
  }

  /** A sweep marks an entry and erases it too exactly when its id, flagged CT_ERASE_STATE, is queued
      twice among the ids the sweep visits. */
  lemma MarkedAndErased(f: Flags, l: seq<int>, k: int)
    ensures var v := SweepVisits(f, l);
            k in v.marked && k in v.erased <==> k in f && f[k].EraseState? && Twice(l, SweepCount(f, l), k)
  {
    var n := SweepCount(f, l);
    VisitsOf(f, l, n, k);
    if Twice(l, n, k) {
      var i, j :| 0 <= i < j < n && l[i] == k && l[j] == k;
      assert l[..n][i] == k;
    }
  }

  /** With distinct ids a sweep never erases what it marked: erasing waits for the next sweep. */
  lemma PhasesApart(f: Flags, l: seq<int>)
    requires Distinct(l)
    ensures SweepVisits(f, l).marked !! SweepVisits(f, l).erased
  {
    forall k | k in SweepVisits(f, l).marked ensures k !in SweepVisits(f, l).erased {
      MarkedAndErased(f, l, k);
    }
  }

  // ---------------------------------------------------------------- the list drains

  /** Visits an id still needs: two when flagged STATE, one when flagged EXEC or absent. */
  function Weight(f: Flags, k: int): nat {
    if k in f && f[k].EraseState? then 2 else 1
  }

  function Potential(f: Flags, l: seq<int>): (p: nat)
    ensures |l| <= p <= 2 * |l|
  {
    if l == [] then 0 else Potential(f, l[..|l| - 1]) + Weight(f, Last(l))
  }

  /** Every queued id that is still present was flagged, as read() does before it queues. */
  ghost predicate Flagged(f: Flags, l: seq<int>) {
    forall k | k in l && k in f :: !f[k].NoFlag?
  }

  lemma {:induction false} PotentialConcat(f: Flags, a: seq<int>, b: seq<int>)
    ensures Potential(f, a + b) == Potential(f, a) + Potential(f, b)
  {
    if b == [] {
      assert a + b == a;
    } else {
      assert (a + b)[..|a + b| - 1] == a + b[..|b| - 1];
      PotentialConcat(f, a, b[..|b| - 1]);
    }
  }

  lemma {:induction false} PotentialSame(f: Flags, g: Flags, l: seq<int>)
    requires forall k | k in l :: Weight(f, k) == Weight(g, k)
    ensures Potential(f, l) == Potential(g, l)
  {
    if l != [] {
      PotentialSame(f, g, l[..|l| - 1]);
    }
  }

  lemma {:induction false} PotentialOnes(f: Flags, l: seq<int>)
    requires forall k | k in l :: Weight(f, k) == 1
    ensures Potential(f, l) == |l|
  {
    if l != [] {
      PotentialOnes(f, l[..|l| - 1]);
    }
  }

  /** The kept ids are the visited STATE ids, each once. */
  lemma {:induction false} KeptOf(f: Flags, l: seq<int>, n: nat)
    requires n <= |l| && Distinct(l) && Flagged(f, l)
    ensures var kept := VisitAll(f, l[..n]).kept;
            && Distinct(kept) && |kept| + n == Potential(f, l[..n])
            && forall k :: k in kept <==> k in l[..n] && k in f && f[k].EraseState?
  {
    if n > 0 {
      var k := l[n - 1];
      KeptOf(f, l, n - 1);
      VisitNext(f, l, n - 1);
      VisitsOf(f, l, n - 1, k);
      assert l[..n] == l[..n - 1] + [k];
      assert k !in l[..n - 1];
    }
  }

  lemma Fresh(l: seq<int>, n: nat, k: int)
    requires n <= |l| && Distinct(l)
    ensures k in l[n..] ==> k !in l[..n]
    ensures !Twice(l, n, k)
  {
  }

  /** What a sweep leaves of each id: unvisited ids as they were, kept ids flagged EXEC, others gone. */
  lemma SweepIds(f: Flags, l: seq<int>, k: int)
    requires Distinct(l) && Flagged(f, l)
    ensures var m, v := SweepCount(f, l), SweepVisits(f, l);
            && (k in l[m..] ==> Weight(v.flags, k) == Weight(f, k) && (k in v.flags ==> k in f && v.flags[k] == f[k]))
            && (k in v.kept ==> k in l[..m] && k in v.flags && v.flags[k].EraseExec?)
            && (k in v.flags ==> k in f)
            && (k in l[..m] && k !in v.kept ==> k !in v.flags)
  {
    var m := SweepCount(f, l);
    KeptOf(f, l, m);
    VisitsOf(f, l, m, k);
    Fresh(l, m, k);
    assert k in l[..m] ==> k in l;
  }

  lemma SweepShape(f: Flags, l: seq<int>)
    requires Distinct(l) && Flagged(f, l)
    ensures var f', l' := SweepVisits(f, l).flags, SweepList(f, l);
            && Distinct(l') && Flagged(f', l')
            && (forall k | k in l && k !in l' :: k !in f')
            && (forall k | k in l' :: k in l)
            && (forall k | k in f' :: k in f)
  {
    var m, v, l' := SweepCount(f, l), SweepVisits(f, l), SweepList(f, l);
    KeptOf(f, l, m);
    assert l == l[..m] + l[m..];
    forall k
      ensures k in l' <==> k in l[m..] || k in v.kept
      ensures k in l <==> k in l[m..] || k in l[..m]
      ensures k in l[m..] ==> k !in v.kept && (k in v.flags ==> k in f && v.flags[k] == f[k])
      ensures k in v.kept ==> k in l[..m] && k in v.flags && v.flags[k].EraseExec?
      ensures k in v.flags ==> k in f
      ensures k in l[..m] && k !in v.kept ==> k !in v.flags
    {
      SweepIds(f, l, k);
      Fresh(l, m, k);
    }
    Joined(l[m..], v.kept);
  }

  lemma Joined(a: seq<int>, b: seq<int>)
    requires Distinct(a) && Distinct(b) && forall k | k in a :: k !in b
    ensures Distinct(a + b)
  {
    forall i, j | 0 <= i < j < |a + b| ensures (a + b)[i] != (a + b)[j] {
      if i < |a| <= j {
        assert a[i] in a && b[j - |a|] in b;
      }
    }
  }

  /** One sweep lowers the potential by exactly the number of its visits. */
  lemma SweepPotential(f: Flags, l: seq<int>)
    requires Distinct(l) && Flagged(f, l)
    ensures Potential(SweepVisits(f, l).flags, SweepList(f, l)) + SweepCount(f, l) == Potential(f, l)
  {
    var m, v := SweepCount(f, l), SweepVisits(f, l);
    KeptOf(f, l, m);
    forall k
      ensures k in l[m..] ==> Weight(v.flags, k) == Weight(f, k)
      ensures k in v.kept ==> Weight(v.flags, k) == 1
    {
      SweepIds(f, l, k);
    }
    assert l == l[..m] + l[m..];
    PotentialConcat(f, l[..m], l[m..]);
    PotentialConcat(v.flags, l[m..], v.kept);
    PotentialSame(f, v.flags, l[m..]);
    PotentialOnes(v.flags, v.kept);
  }

  // ---------------------------------------------------------------- ids queued more than once

  lemma {:induction false} PotentialFalls(f: Flags, g: Flags, l: seq<int>)
    requires forall k | k in l :: Weight(g, k) <= Weight(f, k)
    ensures Potential(g, l) <= Potential(f, l)
  {
    if l != [] {
      PotentialFalls(f, g, l[..|l| - 1]);
    }
  }

  /** One visit, of the front of [k] + rest: the potential falls, and an id that leaves the list has left the map. */
  lemma VisitFalls(v: Visits, k: int, rest: seq<int>)
    requires Flagged(v.flags, [k] + rest)
    ensures var v' := Visit(v, k);
            var back := if k in v.flags && v.flags[k].EraseState? then [k] else [];
            && v'.kept == v.kept + back && Flagged(v'.flags, rest + back)
            && Potential(v'.flags, rest + back) + 1 <= Potential(v.flags, [k] + rest)
            && (k in rest + back || k !in v'.flags)
            && forall j | j in v'.flags :: j in v.flags
  {
    var v' := Visit(v, k);
    var back := if k in v.flags && v.flags[k].EraseState? then [k] else [];
    assert k in [k] + rest;
    assert forall j | j in rest + back :: j in [k] + rest;
    PotentialFalls(v.flags, v'.flags, rest);
    PotentialConcat(v'.flags, rest, back);
    PotentialConcat(v.flags, [k], rest);
    assert [k][..0] == [];
    assert v.kept + [] == v.kept;
  }

  /** n visits have turned f, l into g, m: the potential fell by at least n, and an id that left the list
      has left the map. */
  ghost predicate Fallen(f: Flags, l: seq<int>, g: Flags, m: seq<int>, n: nat) {
    && Flagged(g, m) && Potential(g, m) + n <= Potential(f, l)
    && (forall k | k in l && k !in m :: k !in g)
    && (forall k | k in g :: k in f)
  }

  lemma FallenNext(f: Flags, l: seq<int>, v: Visits, k: int, rest: seq<int>, n: nat)
    requires Fallen(f, l, v.flags, [k] + rest, n)
    ensures var back := if k in v.flags && v.flags[k].EraseState? then [k] else [];
            Visit(v, k).kept == v.kept + back && Fallen(f, l, Visit(v, k).flags, rest + back, n + 1)
  {
    var back := if k in v.flags && v.flags[k].EraseState? then [k] else [];
    VisitFalls(v, k, rest);
    forall j | j in l && j !in rest + back ensures j !in Visit(v, k).flags {
      assert j in [k] + rest ==> j == k || j in rest;
    }
  }

  lemma ListMoves(a: seq<int>, k: int, kept: seq<int>, back: seq<int>)
    ensures [k] + a + kept == [k] + (a + kept) && a + (kept + back) == a + kept + back
  {
  }

  lemma {:induction false} VisitsFall(f: Flags, l: seq<int>, n: nat)
    requires n <= |l| && Flagged(f, l)
    ensures Fallen(f, l, VisitAll(f, l[..n]).flags, l[n..] + VisitAll(f, l[..n]).kept, n)
  {
    if n == 0 {
      assert l[0..] + [] == l;
    } else {
      var v, k := VisitAll(f, l[..n - 1]), l[n - 1];
      VisitsFall(f, l, n - 1);
      VisitNext(f, l, n - 1);
      var rest := l[n..] + v.kept;
      var back := if k in v.flags && v.flags[k].EraseState? then [k] else [];
      ListMoves(l[n..], k, v.kept, back);
      FallenNext(f, l, v, k, rest, n - 1);
    }
  }

  /** A sweep lowers the potential by at least the number of its visits, hence to at most three quarters,
      also when ids are queued more than once. */
  lemma SweepShrinks(f: Flags, l: seq<int>)
    requires Flagged(f, l)
    ensures Potential(SweepVisits(f, l).flags, SweepList(f, l)) + SweepCount(f, l) <= Potential(f, l)
    ensures 4 * Potential(SweepVisits(f, l).flags, SweepList(f, l)) <= 3 * Potential(f, l)
  {
    VisitsFall(f, l, SweepCount(f, l));
    VisitsHalf(f, l);
  }

  /** The receive map and the delete list after n sweeps with no read in between. */
  function Sweeps(f: Flags, l: seq<int>, n: nat): (Flags, seq<int>) {
    if n == 0 then (f, l)
    else var (f', l') := Sweeps(f, l, n - 1); (SweepVisits(f', l').flags, SweepList(f', l'))
  }

  /** p cut n times to three quarters, rounded down. */
  function Cut(p: nat, n: nat): nat {
    if n == 0 then p else Cut(p, n - 1) * 3 / 4
  }

  /** The cuts reach zero after at most p of them. */
  lemma {:induction false} CutVanishes(p: nat, n: nat)
    ensures Cut(p, n) <= if n <= p then p - n else 0
  {
    if n > 0 {
      CutVanishes(p, n - 1);
    }
  }

  lemma {:induction false} SweepsShrink(f: Flags, l: seq<int>, n: nat)
    requires Flagged(f, l)
    ensures var (f', l') := Sweeps(f, l, n);
            && Flagged(f', l') && Potential(f', l') <= Cut(Potential(f, l), n)
            && (forall k | k in l && k !in l' :: k !in f')
  {
    if n > 0 {
      var (f', l') := Sweeps(f, l, n - 1);
      SweepsShrink(f, l, n - 1);
      VisitsFall(f', l', SweepCount(f', l'));
      SweepShrinks(f', l');
    }
  }

  /** With no new reads the sweeps that cut the potential to zero, at most two for every queued id, empty
      the delete list and erase every entry that was on it. */
  lemma SweepsDrain(f: Flags, l: seq<int>, n: nat)
    requires Flagged(f, l) && (Cut(Potential(f, l), n) == 0 || n >= 2 * |l|)
    ensures var (f', l') := Sweeps(f, l, n); l' == [] && forall k | k in l :: k !in f'
  {
    SweepsShrink(f, l, n);
    CutVanishes(Potential(f, l), n);
  }
}
