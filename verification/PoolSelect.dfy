/** get_client_index: round-robin selection with wrap over the clients of the pool. */
module PoolSelect {
  import opened Prelude

  /** The client visited e steps after select_index s. */
  function Slot(s: nat, e: nat, n: nat): nat
    requires n > 0
  {
    (s + e) % n
  }

  /** What one call does: from select_index s over the clients open it returns index and leaves s'. */
  ghost predicate Selected(open: seq<bool>, s: nat, index: int, s': nat) {
    if open == [] then index == -1 && s' == s
    else
      var n, d := |open|, s' - s - 1;
      && 0 <= d < n && index == Slot(s, d, n)
      && (forall e | 0 <= e < d :: !open[Slot(s, e, n)])
      && (open[index] || d == n - 1)
  }

  class ClientPool {
    var open: seq<bool>       // is_open() of each client; cur_client_index is their number
    var selectIndex: nat

    constructor (clients: seq<bool>)
      ensures open == clients && selectIndex == 0
    {
      open, selectIndex := clients, 0;
    }

    /** The last client visited is returned; the loop ends early at an open one. */
    method GetClientIndex() returns (index: int)
      modifies this`selectIndex
      ensures Selected(open, old(selectIndex), index, selectIndex)
    {
      index := -1;
      var i := 0;
      while i < |open|
        invariant i <= |open| && selectIndex == old(selectIndex) + i
        invariant i > 0 ==> index == Slot(old(selectIndex), i - 1, |open|)
        invariant i == 0 ==> index == -1
        invariant forall e | 0 <= e < i :: !open[Slot(old(selectIndex), e, |open|)]
      {
        index := selectIndex % |open|;
        selectIndex := selectIndex + 1;
        if open[index] {
          return;
        }
        i := i + 1;
      }
    }
  }

  // ---------------------------------------------------------------- division by the number of clients

  lemma DivMod(x: int, n: nat, q: int, r: int)
    requires n > 0 && x == n * q + r && 0 <= r < n
    ensures x / n == q && x % n == r
  {
    Multiple(n, q - x / n);
    assert n * (q - x / n) == n * q - n * (x / n);
  }

  lemma Multiple(n: nat, k: int)
    requires n > 0
    ensures k >= 1 ==> n * k >= n
    ensures k <= 0 ==> n * k <= 0
    ensures k <= -1 ==> n * k + n <= 0
  {
  }

  /** Within n consecutive visits no client comes up twice. */
  lemma VisitsOnce(s: nat, d: nat, e: nat, n: nat)
    requires d < e < n
    ensures Slot(s, d, n) != Slot(s, e, n)
  {
    var p, q := (s + d) / n, (s + e) / n;
    Multiple(n, q - p);
    assert n * (q - p) == n * q - n * p;
  }

  /** How far client j is from select_index s. */
  function Distance(s: nat, j: nat, n: nat): (e: nat)
    requires j < n
    ensures e < n
  {
    if j >= s % n then j - s % n else j - s % n + n
  }

  /** ... and every client comes up. */
  lemma Reaches(s: nat, j: nat, n: nat)
    requires j < n
    ensures Slot(s, Distance(s, j, n), n) == j
  {
    var q, e := s / n, Distance(s, j, n);
    if j >= s % n {
      DivMod(s + e, n, q, j);
    } else {
      assert n * (q + 1) == n * q + n;
      DivMod(s + e, n, q + 1, j);
    }
  }

  /** Whenever some client is open the call returns an open one, the first in cyclic order; it returns -1
      only for the empty pool. */
  lemma FindsOpen(open: seq<bool>, s: nat, index: int, s': nat)
    requires Selected(open, s, index, s')
    ensures index == -1 <==> open == []
    ensures true in open ==> 0 <= index < |open| && open[index] && Slot(s, s' - s - 1, |open|) == index
    ensures true in open ==> forall j | 0 <= j < |open| && open[j] :: s' - s - 1 <= Distance(s, j, |open|)
  {
    if true in open {
      forall j | 0 <= j < |open| && open[j] ensures s' - s - 1 <= Distance(s, j, |open|) {
        Reaches(s, j, |open|);
      }
      var j :| 0 <= j < |open| && open[j];
      Reaches(s, j, |open|);
    }
  }

  // ---------------------------------------------------------------- fair shares

  /** The calls in order, from select_index s to s'. */
  ghost predicate Calls(open: seq<bool>, s: nat, picks: seq<int>, s': nat)
    decreases |picks|
  {
    if picks == [] then s' == s
    else exists m: nat :: Calls(open, s, picks[..|picks| - 1], m) && Selected(open, m, Last(picks), s')
  }

  function Times(picks: seq<int>, j: int): nat {
    if picks == [] then 0 else Times(picks[..|picks| - 1], j) + if Last(picks) == j then 1 else 0
  }

  ghost predicate AllOpen(open: seq<bool>) {
    open != [] && forall i | 0 <= i < |open| :: open[i]
  }

  lemma {:induction false} CallsAdvance(open: seq<bool>, s: nat, picks: seq<int>, s': nat)
    requires AllOpen(open) && Calls(open, s, picks, s')
    ensures s' == s + |picks|
    ensures picks != [] ==> Last(picks) == (s + |picks| - 1) % |open| && Calls(open, s, picks[..|picks| - 1], s' - 1)
  {
    if picks != [] {
      var m: nat :| Calls(open, s, picks[..|picks| - 1], m) && Selected(open, m, Last(picks), s');
      CallsAdvance(open, s, picks[..|picks| - 1], m);
      assert open[Slot(m, 0, |open|)];
    }
  }

  /** Every n-th count closes a round. */
  lemma DivStep(x: nat, n: nat)
    requires n > 0
    ensures (x + 1) / n == x / n + if (x + 1) % n == 0 then 1 else 0
  {
    var q, r := x / n, x % n;
    if r == n - 1 {
      assert n * (q + 1) == n * q + n;
      DivMod(x + 1, n, q + 1, 0);
    } else {
      DivMod(x + 1, n, q, r + 1);
    }
  }

  /** The i-th call picks client j exactly when i is Distance(s, j) modulo n. */
  lemma PicksWhen(s: nat, i: nat, j: nat, n: nat)
    requires j < n
    ensures (s + i) % n == j <==> (i + 1 + (n - 1 - Distance(s, j, n))) % n == 0
  {
    var e := Distance(s, j, n);
    Reaches(s, j, n);
    var p, q := (s + e) / n, (s + i) / n;
    var a := i - e;
    if (s + i) % n == j {
      assert a + n == n * (q - p + 1) + 0;
      DivMod(a + n, n, q - p + 1, 0);
    }
    if (a + n) % n == 0 {
      var c := (a + n) / n;
      assert s + i == n * (p + c - 1) + j;
      DivMod(s + i, n, p + c - 1, j);
    }
  }

  lemma {:induction false} TimesExact(open: seq<bool>, s: nat, picks: seq<int>, s': nat, j: nat)
    requires AllOpen(open) && Calls(open, s, picks, s') && j < |open|
    ensures Times(picks, j) == (|picks| + (|open| - 1 - Distance(s, j, |open|))) / |open|
    decreases |picks|
  {
    var n, c := |open|, |open| - 1 - Distance(s, j, |open|);
    CallsAdvance(open, s, picks, s');
    if picks == [] {
      DivMod(c, n, 0, c);
    } else {
      TimesExact(open, s, picks[..|picks| - 1], s' - 1, j);
      PicksWhen(s, |picks| - 1, j, n);
      DivStep(|picks| - 1 + c, n);
    }
  }

  /** Over k calls with every client open each client is picked floor(k/n) or ceil(k/n) times. */
  lemma FairShare(open: seq<bool>, s: nat, picks: seq<int>, s': nat, j: nat)
    requires AllOpen(open) && Calls(open, s, picks, s') && j < |open|
    ensures |picks| / |open| <= Times(picks, j) <= (|picks| + |open| - 1) / |open|
  {
    TimesExact(open, s, picks, s', j);
    var c := |open| - 1 - Distance(s, j, |open|);
    DivMonotone(|picks|, |picks| + c, |open|);
    DivMonotone(|picks| + c, |picks| + |open| - 1, |open|);
  }

  lemma DivMonotone(a: nat, b: nat, n: nat)
    requires n > 0 && a <= b
    ensures a / n <= b / n
  {
    Multiple(n, b / n - a / n);
    assert n * (b / n - a / n) == n * (b / n) - n * (a / n);
  }
}
