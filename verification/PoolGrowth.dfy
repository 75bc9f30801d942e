/**
 add_link and set_c_max_num of the pool: the limit is checked before the lock is taken, the set, the list
 and the counter are updated one after the other under it.
 */
module PoolGrowth {
  import opened Prelude

  type Tid = nat
  /** The hash key of an endpoint. */
  type Key = int

  datatype Pc =
    | Idle
    | Passed(k: Key)     // cur_client_index > client_max_num was false; the lock comes next
    | Listing(k: Key)    // locked, k was new in link_set_poll; client_list.push_back comes next
    | Counting(k: Key)   // ++cur_client_index comes next

  datatype Pool = Pool(
    cur: int,
    max: int,
    keys: set<Key>,
    list: seq<Key>,
    owner: Option<Tid>,
    pcs: map<Tid, Pc>)

  datatype Label =
    | AddLink(t: Tid, k: Key)
    | Act(t: Tid)
    | SetMax(v: int)

  predicate Enabled(s: Pool, l: Label) {
    match l
    case AddLink(t, _) => t in s.pcs && s.pcs[t].Idle?
    case Act(t) => t in s.pcs && !s.pcs[t].Idle? && (s.pcs[t].Passed? ==> s.owner.None?)
    case SetMax(_) => true
  }

  function At(s: Pool, t: Tid, pc: Pc): Pool {
    s.(pcs := s.pcs[t := pc])
  }

  function Next(s: Pool, l: Label): Pool
    requires Enabled(s, l)
  {
    match l
    case AddLink(t, k) => if s.cur > s.max then s else At(s, t, Passed(k))
    case Act(t) =>
      (match s.pcs[t]
       case Idle => s
       case Passed(k) =>
         if k in s.keys then At(s, t, Idle)
         else At(s, t, Listing(k)).(keys := s.keys + {k}, owner := Some(t))
       case Listing(k) => At(s, t, Counting(k)).(list := s.list + [k])
       case Counting(k) => At(s, t, Idle).(cur := s.cur + 1, owner := None))
    // client_list.size() < v compares unsigned: a negative v passes
    case SetMax(v) => if v < 0 || |s.list| < v then s.(max := v) else s
  }

  ghost predicate Init(s: Pool) {
    s.cur == 0 && s.max == 10 && s.keys == {} && s.list == [] && s.owner.None?
      && forall t | t in s.pcs :: s.pcs[t].Idle?
  }

  function After(s0: Pool, ls: seq<Label>): Option<Pool> {
    if ls == [] then Some(s0)
    else
      var s := After(s0, ls[..|ls| - 1]);
      if s.Some? && Enabled(s.value, Last(ls)) then Some(Next(s.value, Last(ls))) else None
  }

  // ---------------------------------------------------------------- list, set and counter

  ghost predicate ListingNow(s: Pool) {
    s.owner.Some? && s.owner.value in s.pcs && s.pcs[s.owner.value].Listing?
  }

  ghost predicate CountingNow(s: Pool) {
    s.owner.Some? && s.owner.value in s.pcs && s.pcs[s.owner.value].Counting?
  }

  /** The set holds the listed keys and the one being listed; the counter lags by the one being counted. */
  ghost predicate InStep(s: Pool) {
    && (forall t | t in s.pcs :: (s.pcs[t].Listing? || s.pcs[t].Counting?) <==> s.owner == Some(t))
    && (s.owner.Some? ==> s.owner.value in s.pcs)
    && Distinct(s.list)
    && (forall k :: k in s.keys <==> k in s.list || (ListingNow(s) && k == s.pcs[s.owner.value].k))
    && (ListingNow(s) ==> s.pcs[s.owner.value].k !in s.list)
    && |s.list| == s.cur + B2I(CountingNow(s))
    && |s.keys| == |s.list| + B2I(ListingNow(s))
  }

  lemma InStepNext(s: Pool, l: Label)
    requires InStep(s) && Enabled(s, l)
    ensures InStep(Next(s, l)) && s.list <= Next(s, l).list
  {
    if l.Act? {
      assert (s.pcs[l.t].Listing? || s.pcs[l.t].Counting?) <==> s.owner == Some(l.t);
      if s.pcs[l.t].Passed? {
      } else if s.pcs[l.t].Listing? {
      } else {
      }
    }
  }

  // ---------------------------------------------------------------- the limit

  /** Threads past the check that have not yet counted their link. */
  ghost function Past(s: Pool): set<Tid> {
    set t | t in s.pcs && !s.pcs[t].Idle?
  }

  ghost predicate Bounded(s: Pool) {
    s.cur + |Past(s)| <= s.max + |s.pcs|
  }

  lemma PastAll(s: Pool)
    ensures Past(s) <= s.pcs.Keys && |Past(s)| <= |s.pcs|
  {
    Subset(Past(s), s.pcs.Keys);
  }

  lemma {:induction false} Subset(a: set<Tid>, b: set<Tid>)
    requires a <= b
    ensures |a| <= |b|
  {
    assert b == a + (b - a);
  }

  /** Passing the check adds the thread, counting a link or finding its key taken removes it. */
  lemma PastNext(s: Pool, l: Label)
    requires Enabled(s, l) && !l.SetMax?
    ensures var s' := Next(s, l);
            && s'.pcs.Keys == s.pcs.Keys && s'.max == s.max
            && (l.AddLink? ==> s'.cur == s.cur && (s.cur > s.max ==> s' == s))
            && (l.Act? && !s'.pcs[l.t].Idle? ==> Past(s') == Past(s) && s'.cur == s.cur)
            && (l.Act? && s'.pcs[l.t].Idle? ==> Past(s') == Past(s) - {l.t} && l.t in Past(s) && s'.cur <= s.cur + 1)
  {
    if l.Act? {
      if s.pcs[l.t].Passed? {
      } else if s.pcs[l.t].Listing? {
      } else {
      }
    }
  }

  lemma BoundedNext(s: Pool, l: Label)
    requires |s.list| >= s.cur && Bounded(s) && Enabled(s, l) && (l.SetMax? ==> l.v >= 0)
    ensures Bounded(Next(s, l))
  {
    var s' := Next(s, l);
    PastAll(s);
    PastAll(s');
    if l.SetMax? {
      assert Past(s') == Past(s);
    } else {
      PastNext(s, l);
    }
  }

  ghost predicate NonNegative(ls: seq<Label>) {
    forall i | 0 <= i < |ls| && ls[i].SetMax? :: ls[i].v >= 0
  }

  lemma {:induction false} RunInStep(s0: Pool, ls: seq<Label>)
    requires Init(s0) && After(s0, ls).Some?
    ensures InStep(After(s0, ls).value) && |After(s0, ls).value.pcs| == |s0.pcs|
  {
    if ls != [] {
      RunInStep(s0, ls[..|ls| - 1]);
      InStepNext(After(s0, ls[..|ls| - 1]).value, Last(ls));
      assert After(s0, ls).value.pcs.Keys == After(s0, ls[..|ls| - 1]).value.pcs.Keys;
    }
  }

  /** With T threads the pool never holds more than client_max_num + T links, those in the making included. */
  lemma {:induction false} RunBounded(s0: Pool, ls: seq<Label>)
    requires Init(s0) && After(s0, ls).Some? && NonNegative(ls)
    ensures var s := After(s0, ls).value; s.cur + |Past(s)| <= s.max + |s0.pcs|
  {
    RunInStep(s0, ls);
    if ls == [] {
      assert Past(s0) == {};
    } else {
      RunBounded(s0, ls[..|ls| - 1]);
      RunInStep(s0, ls[..|ls| - 1]);
      BoundedNext(After(s0, ls[..|ls| - 1]).value, Last(ls));
    }
  }

  /** At rest the counter is the length of the list and the size of the key set. */
  lemma RestExact(s0: Pool, ls: seq<Label>)
    requires Init(s0) && After(s0, ls).Some? && After(s0, ls).value.owner.None?
    ensures var s := After(s0, ls).value;
            && s.cur == |s.list| == |s.keys| && Distinct(s.list)
            && forall k :: k in s.keys <==> k in s.list
  {
    RunInStep(s0, ls);
  }

  lemma {:induction false} ListGrows(s0: Pool, ls: seq<Label>, n: nat)
    requires Init(s0) && After(s0, ls).Some? && n <= |ls|
    ensures After(s0, ls[..n]).Some? && After(s0, ls[..n]).value.list <= After(s0, ls).value.list
  {
    if n == |ls| {
      assert ls[..n] == ls;
    } else {
      ListGrows(s0, ls[..|ls| - 1], n);
      assert ls[..|ls| - 1][..n] == ls[..n];
      RunInStep(s0, ls[..|ls| - 1]);
      InStepNext(After(s0, ls[..|ls| - 1]).value, Last(ls));
    }
  }

  /** A handle index returned at any time names the same client ever after. */
  lemma HandleStable(s0: Pool, ls: seq<Label>, n: nat, i: nat)
    requires Init(s0) && After(s0, ls).Some? && n <= |ls|
    requires After(s0, ls[..n]).Some? && i < |After(s0, ls[..n]).value.list|
    ensures i < |After(s0, ls).value.list| && After(s0, ls).value.list[i] == After(s0, ls[..n]).value.list[i]
  {
    ListGrows(s0, ls, n);
  }

  /** An endpoint whose key is listed never gets a link of its own: no later link has that key, and a thread that
      has passed the check with it leaves the pool as it is. */
  lemma NeverLinkedAgain(s0: Pool, ls: seq<Label>, n: nat, k: Key)
    requires Init(s0) && After(s0, ls).Some? && n <= |ls|
    requires After(s0, ls[..n]).Some? && k in After(s0, ls[..n]).value.list
    ensures var m, s := After(s0, ls[..n]).value, After(s0, ls).value;
            && k in s.keys && (forall i | |m.list| <= i < |s.list| :: s.list[i] != k)
            && forall t | Enabled(s, Act(t)) && s.pcs[t] == Passed(k) :: Next(s, Act(t)) == At(s, t, Idle)
  {
    ListGrows(s0, ls, n);
    RunInStep(s0, ls);
    var m, s := After(s0, ls[..n]).value, After(s0, ls).value;
    var j :| 0 <= j < |m.list| && m.list[j] == k;
    assert s.list[j] == k;
  }

  // ---------------------------------------------------------------- when the limit is kept

  /** Links made and in the making stay within limit plus d. */
  ghost predicate Within(s: Pool, d: nat) {
    s.cur + |Past(s)| <= s.max + d
  }

  /** The step leaves room: a check that passes finds less than limit plus d, an accepted new limit at most that. */
  ghost predicate LeavesRoom(s: Pool, l: Label, d: nat) {
    && (l.AddLink? && s.cur <= s.max ==> s.cur + |Past(s)| < s.max + d)
    && (l.SetMax? && (l.v < 0 || |s.list| < l.v) ==> s.cur + |Past(s)| <= l.v + d)
  }

  ghost predicate AlwaysWithin(s0: Pool, ls: seq<Label>, d: nat)
    decreases |ls|
  {
    && (ls != [] ==> AlwaysWithin(s0, ls[..|ls| - 1], d))
    && (After(s0, ls).Some? ==> Within(After(s0, ls).value, d))
  }

  ghost predicate RoomRun(s0: Pool, ls: seq<Label>, d: nat)
    decreases |ls|
  {
    ls != [] ==>
      && RoomRun(s0, ls[..|ls| - 1], d)
      && (After(s0, ls[..|ls| - 1]).Some? ==> LeavesRoom(After(s0, ls[..|ls| - 1]).value, Last(ls), d))
  }

  lemma RoomNext(s: Pool, l: Label, d: nat)
    requires Enabled(s, l) && Within(s, d)
    ensures Within(Next(s, l), d) <==> LeavesRoom(s, l, d)
  {
    var s' := Next(s, l);
    if l.SetMax? {
      assert Past(s') == Past(s);
    } else {
      PastNext(s, l);
      if l.AddLink? && s.cur <= s.max {
        assert Past(s') == Past(s) + {l.t};
      }
    }
  }

  /** The limit is exceeded by at most d throughout a run if and only if every check that passes finds less than
      limit plus d links made and in the making, and every accepted new limit leaves them within it plus d. */
  lemma {:induction false} LimitExactly(s0: Pool, ls: seq<Label>, d: nat)
    requires Init(s0) && After(s0, ls).Some?
    ensures AlwaysWithin(s0, ls, d) <==> RoomRun(s0, ls, d)
  {
    if ls == [] {
      assert Past(s0) == {};
    } else {
      LimitExactly(s0, ls[..|ls| - 1], d);
      if AlwaysWithin(s0, ls[..|ls| - 1], d) {
        RoomNext(After(s0, ls[..|ls| - 1]).value, Last(ls), d);
      }
    }
  }

  /** Every check that passes does so with no other thread past it. */
  ghost predicate AloneRun(s0: Pool, ls: seq<Label>)
    decreases |ls|
  {
    ls != [] ==>
      && AloneRun(s0, ls[..|ls| - 1])
      && (After(s0, ls[..|ls| - 1]).Some? ==> Alone(After(s0, ls[..|ls| - 1]).value, Last(ls)))
  }

  ghost predicate Alone(s: Pool, l: Label) {
    l.AddLink? && s.cur <= s.max ==> Past(s) == {}
  }

  lemma AloneNext(s: Pool, l: Label)
    requires Enabled(s, l) && Alone(s, l) && |s.list| >= s.cur && (l.SetMax? ==> l.v >= 0)
    requires |Past(s)| <= 1 && Within(s, 1)
    ensures |Past(Next(s, l))| <= 1 && Within(Next(s, l), 1)
  {
    RoomNext(s, l, 1);
    var s' := Next(s, l);
    if l.SetMax? {
      assert Past(s') == Past(s);
    } else {
      PastNext(s, l);
      if l.AddLink? && s.cur <= s.max {
        assert Past(s') == {l.t};
      }
    }
  }

  /** Checks that pass alone still let the pool go one above the limit, and no further. */
  lemma {:induction false} AloneBounded(s0: Pool, ls: seq<Label>)
    requires Init(s0) && After(s0, ls).Some? && NonNegative(ls) && AloneRun(s0, ls)
    ensures var s := After(s0, ls).value; |Past(s)| <= 1 && s.cur + |Past(s)| <= s.max + 1
  {
    if ls == [] {
      assert Past(s0) == {};
    } else {
      AloneBounded(s0, ls[..|ls| - 1]);
      RunInStep(s0, ls[..|ls| - 1]);
      AloneNext(After(s0, ls[..|ls| - 1]).value, Last(ls));
    }
  }

  // ---------------------------------------------------------------- both bounds are reached

  /** The labels ls, none of which sets a negative limit, lead from s0 to s. */
  ghost predicate Reaches(s0: Pool, ls: seq<Label>, s: Pool) {
    After(s0, ls) == Some(s) && NonNegative(ls)
  }

  lemma Snoc(s0: Pool, ls: seq<Label>, s: Pool, l: Label)
    requires Reaches(s0, ls, s) && Enabled(s, l) && (l.SetMax? ==> l.v >= 0)
    ensures Reaches(s0, ls + [l], Next(s, l))
    ensures AloneRun(s0, ls) && Alone(s, l) ==> AloneRun(s0, ls + [l])
  {
    assert (ls + [l])[..|ls + [l]| - 1] == ls;
  }

  /** The pool once t, past the check, has added the new key k. */
  function Linked(m: Pool, t: Tid, k: Key): Pool {
    Pool(m.cur + 1, m.max, m.keys + {k}, m.list + [k], None, m.pcs[t := Idle])
  }

  lemma LinkRun(s0: Pool, ls: seq<Label>, s: Pool, t: Tid, k: Key) returns (ls': seq<Label>)
    requires Reaches(s0, ls, s) && t in s.pcs && s.pcs[t] == Passed(k) && s.owner.None? && k !in s.keys
    ensures Reaches(s0, ls', Linked(s, t, k)) && (AloneRun(s0, ls) ==> AloneRun(s0, ls'))
  {
    Snoc(s0, ls, s, Act(t));
    var s1 := s.(pcs := s.pcs[t := Listing(k)], keys := s.keys + {k}, owner := Some(t));
    Snoc(s0, ls + [Act(t)], s1, Act(t));
    var s2 := s1.(pcs := s.pcs[t := Counting(k)], list := s.list + [k]);
    assert s1.pcs[t := Counting(k)] == s2.pcs;
    Snoc(s0, ls + [Act(t)] + [Act(t)], s2, Act(t));
    assert s2.pcs[t := Idle] == s.pcs[t := Idle];
    ls' := ls + [Act(t)] + [Act(t)] + [Act(t)];
  }

  ghost predicate Resting(s: Pool) {
    s.owner.None? && forall t | t in s.pcs :: s.pcs[t].Idle?
  }

  /** One thread alone takes an empty pool with limit v to any number of links up to one above it. */
  lemma {:induction false} Grows(s0: Pool, v: nat, t: Tid, n: nat) returns (ls: seq<Label>, s: Pool)
    requires Init(s0) && v >= 1 && t in s0.pcs && n <= v + 1
    ensures Reaches(s0, ls, s) && AloneRun(s0, ls) && Resting(s) && s.pcs == s0.pcs && s.cur == n && s.max == v
    ensures forall k | k in s.keys :: k < n
  {
    if n == 0 {
      Starts(s0, v);
      ls, s := [SetMax(v)], s0.(max := v);
    } else {
      var m;
      ls, m := Grows(s0, v, t, n - 1);
      ls := GrowsOne(s0, ls, m, t, n - 1);
      s := m.(cur := n, keys := m.keys + {n - 1}, list := m.list + [n - 1]);
    }
  }

  lemma Starts(s0: Pool, v: nat)
    requires Init(s0) && v >= 1
    ensures Reaches(s0, [SetMax(v)], s0.(max := v)) && AloneRun(s0, [SetMax(v)])
  {
    Snoc(s0, [], s0, SetMax(v));
    assert [] + [SetMax(v)] == [SetMax(v)];
  }

  lemma GrowsOne(s0: Pool, ls: seq<Label>, m: Pool, t: Tid, k: Key) returns (ls': seq<Label>)
    requires Reaches(s0, ls, m) && AloneRun(s0, ls) && Resting(m) && t in m.pcs && m.cur <= m.max && k !in m.keys
    ensures Reaches(s0, ls', m.(cur := m.cur + 1, keys := m.keys + {k}, list := m.list + [k])) && AloneRun(s0, ls')
  {
    assert Past(m) == {};
    Snoc(s0, ls, m, AddLink(t, k));
    var p := m.(pcs := m.pcs[t := Passed(k)]);
    ls' := LinkRun(s0, ls + [AddLink(t, k)], p, t, k);
    assert p.pcs[t := Idle] == m.pcs;
  }

  /** AloneBounded is tight: one thread alone overshoots every limit by one. */
  lemma AloneReached(s0: Pool, v: nat, t: Tid) returns (ls: seq<Label>)
    requires Init(s0) && v >= 1 && t in s0.pcs
    ensures After(s0, ls).Some? && NonNegative(ls) && AloneRun(s0, ls)
    ensures After(s0, ls).value.max == v && After(s0, ls).value.cur == v + 1
  {
    var s;
    ls, s := Grows(s0, v, t, v + 1);
  }

  /** Threads todo of s have passed the check, each with a key of its own from base on. */
  ghost function AllPassed(s: Pool, todo: set<Tid>, base: int): map<Tid, Pc> {
    map t | t in s.pcs :: if t in todo then Passed(base + t) else s.pcs[t]
  }

  lemma {:induction false} PassAll(s0: Pool, ls: seq<Label>, s: Pool, todo: set<Tid>, base: int)
    returns (ls': seq<Label>)
    requires Reaches(s0, ls, s) && s.cur <= s.max && todo <= s.pcs.Keys && forall t | t in todo :: s.pcs[t].Idle?
    ensures Reaches(s0, ls', s.(pcs := AllPassed(s, todo, base)))
    decreases todo
  {
    if t :| t in todo {
      ls' := PassAll(s0, ls, s, todo - {t}, base);
      var m := s.(pcs := AllPassed(s, todo - {t}, base));
      Snoc(s0, ls', m, AddLink(t, base + t));
      assert m.pcs[t := Passed(base + t)] == AllPassed(s, todo, base);
      ls' := ls' + [AddLink(t, base + t)];
    } else {
      ls' := ls;
      assert AllPassed(s, todo, base) == s.pcs;
    }
  }

  /** ... and each of them links. */
  lemma {:induction false} LinkAll(s0: Pool, ls: seq<Label>, s: Pool, todo: set<Tid>, base: int)
    returns (ls': seq<Label>, s': Pool)
    requires Reaches(s0, ls, s) && s.owner.None? && todo <= s.pcs.Keys
    requires forall t | t in todo :: s.pcs[t] == Passed(base + t) && base + t !in s.keys
    ensures Reaches(s0, ls', s') && s'.cur == s.cur + |todo| && s'.max == s.max
    decreases todo
  {
    if t :| t in todo {
      var ls1 := LinkRun(s0, ls, s, t, base + t);
      ls', s' := LinkAll(s0, ls1, Linked(s, t, base + t), todo - {t}, base);
    } else {
      ls', s' := ls, s;
      assert todo == {};
    }
  }

  /** RunBounded is tight: T threads that pass the check together take the pool from its limit to limit plus T. */
  lemma LimitOvershot(s0: Pool, v: nat, t: Tid) returns (ls: seq<Label>)
    requires Init(s0) && v >= 1 && t in s0.pcs
    ensures After(s0, ls).Some? && NonNegative(ls)
    ensures After(s0, ls).value.max == v && After(s0, ls).value.cur == v + |s0.pcs|
  {
    var s, s';
    ls, s := Grows(s0, v, t, v);
    ls := PassAll(s0, ls, s, s0.pcs.Keys, v);
    var m := s.(pcs := AllPassed(s, s0.pcs.Keys, v));
    ls, s' := LinkAll(s0, ls, m, s0.pcs.Keys, v);
    assert |s0.pcs.Keys| == |s0.pcs|;
  }

  /** set_c_max_num(v) with a negative v is accepted, and no link is added while it stands. */
  lemma NegativeLimit(s: Pool, v: int, t: Tid, k: Key)
    requires v < 0 && s.cur >= 0 && Enabled(s, AddLink(t, k))
    ensures Next(s, SetMax(v)).max == v && Next(Next(s, SetMax(v)), AddLink(t, k)) == Next(s, SetMax(v))
  {
  }
}
