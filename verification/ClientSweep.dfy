/**
 The sweep of the client machine, left alone, is the sweep of EraseSweep; and every run within the
 contract keeps the delete list as that sweep needs it.
 */
module ClientSweep {
  import opened Prelude
  import opened ClientSteps
  import opened ClientErase
  import opened ClientMap
  import opened ClientRuns
  import opened ClientFlags
  import EraseSweep

  // ---------------------------------------------------------------- one visit, step by step

  /** The erase flags of the entries in the receive map. */
  ghost function FlagsOf(s: State): EraseSweep.Flags {
    map k | k in s.recv && Deref(s, k).Some? :: s.objs[Deref(s, k).value].flag
  }

  /** No null pointer hides behind a queued id, and every pointer carries its own id. */
  ghost predicate Clean(s: State) {
    && MapCoherent(s) && !s.crashed
    && forall k | k in s.delq && k in s.recv :: s.recv[k].Some?
  }

  ghost function Fresh(f: EraseSweep.Flags): EraseSweep.Visits {
    EraseSweep.Visits(f, [], {}, {})
  }

  /** What a visit of k by the machine must leave: the next turn of the loop, and Visit's effect. */
  ghost predicate Visited(s: State, k: int, s': State, i: nat)
    requires s.delq != []
  {
    var v := EraseSweep.Visit(Fresh(FlagsOf(s)), k);
    && s'.io == SweepTest(i + 1) && Clean(s') && s'.pcs == s.pcs && s'.pusher == s.pusher
    && s'.delq == s.delq[1..] + v.kept && FlagsOf(s') == v.flags
  }

  /** Id k is the front of the list, and nothing hides behind the list. */
  ghost predicate Front(s: State, k: int) {
    s.delq != [] && s.delq[0] == k && Clean(s)
  }

  lemma AbsentVisit(s: State, k: int, i: nat)
    requires Front(s, k) && k !in s.recv
    ensures Visited(s, k, s.(io := SweepTest(i + 1), delq := s.delq[1..]), i)
  {
    var s' := s.(io := SweepTest(i + 1), delq := s.delq[1..]);
    assert FlagsOf(s') == FlagsOf(s);
    assert s.delq[1..] + [] == s.delq[1..];
    assert forall j | j in s'.delq :: j in s.delq;
  }

  lemma EraseVisit(s: State, k: int, i: nat)
    requires Front(s, k) && k in FlagsOf(s) && FlagsOf(s)[k].EraseExec?
    ensures Visited(s, k, ErasedBy(s.(io := SweepErase(i, k), delq := s.delq[1..]), i, k), i)
  {
    var s' := ErasedBy(s.(io := SweepErase(i, k), delq := s.delq[1..]), i, k);
    assert FlagsOf(s') == FlagsOf(s) - {k};
    assert s.delq[1..] + [] == s.delq[1..];
    assert forall j | j in s'.delq :: j in s.delq;
  }

  lemma MarkVisit(s: State, k: int, i: nat)
    requires Front(s, k) && k in FlagsOf(s) && FlagsOf(s)[k].EraseState?
    ensures Visited(s, k, MarkedBack(s.(io := SweepState(i, k), delq := s.delq[1..]), i, k, Deref(s, k).value), i)
  {
    var o := Deref(s, k).value;
    var s' := MarkedBack(s.(io := SweepState(i, k), delq := s.delq[1..]), i, k, o);
    MarkFlags(s, s', k, o);
    assert forall j | j in s'.delq :: j in s.delq;
  }

  lemma MarkFlags(s: State, s': State, k: int, o: Obj)
    requires MapCoherent(s) && Deref(s, k) == Some(o) && s'.recv == s.recv
    requires s'.objs == s.objs[o := s.objs[o].(flag := EraseExec)]
    ensures FlagsOf(s') == FlagsOf(s)[k := EraseExec] && MapCoherent(s')
  {
    forall j | j in s.recv && Deref(s, j).Some? ensures j != k ==> Deref(s, j).value != o {
      assert Names(s.objs, s.recv[j].value, j) && Names(s.objs, s.recv[k].value, k);
    }
  }

  lemma KeepVisit(s: State, k: int, i: nat)
    requires Front(s, k) && k in FlagsOf(s) && FlagsOf(s)[k].NoFlag?
    ensures Visited(s, k, s.(io := SweepTest(i + 1), delq := s.delq[1..] + [k]), i)
  {
    var s' := s.(io := SweepTest(i + 1), delq := s.delq[1..] + [k]);
    assert FlagsOf(s') == FlagsOf(s);
    assert forall j | j in s'.delq :: j in s.delq;
  }

  ghost predicate AtTest(s: State, i: nat) {
    s.io == SweepTest(i) && i < |s.delq| && Clean(s) && s.pusher.None?
  }

  /** From the loop test of turn i the machine makes the visit of EraseSweep and comes to turn i + 1. */
  lemma OneVisit(s: State, i: nat) returns (n: nat, s': State)
    requires AtTest(s, i)
    ensures Leads(s, Ios(n), s') && Visited(s, s.delq[0], s', i)
  {
    var k := s.delq[0];
    if k !in s.recv {
      n, s' := 3, s.(io := SweepTest(i + 1), delq := s.delq[1..]);
      AbsentVisitRun(s, i, k);
      AbsentVisit(s, k, i);
    } else {
      n, s' := PresentVisit(s, i);
    }
  }

  lemma PresentVisit(s: State, i: nat) returns (n: nat, s': State)
    requires AtTest(s, i) && s.delq[0] in s.recv
    ensures Leads(s, Ios(n), s') && Visited(s, s.delq[0], s', i)
  {
    var k := s.delq[0];
    assert k in s.delq && Names(s.objs, s.recv[k].value, k);
    var o := s.recv[k].value;
    if FlagsOf(s)[k].EraseExec? {
      n, s' := 5, ErasedBy(s.(io := SweepErase(i, k), delq := s.delq[1..]), i, k);
      EraseVisitRun(s, i, k, o);
      EraseVisit(s, k, i);
    } else if FlagsOf(s)[k].EraseState? {
      n, s' := 7, MarkedBack(s.(io := SweepState(i, k), delq := s.delq[1..]), i, k, o);
      MarkVisitRun(s, i, k, o);
      MarkVisit(s, k, i);
    } else {
      n, s' := 6, s.(io := SweepTest(i + 1), delq := s.delq[1..] + [k]);
      KeepVisitRun(s, i, k, o);
      KeepVisit(s, k, i);
    }
  }

  // ---------------------------------------------------------------- whole sweeps

  lemma VisitFresh(v: EraseSweep.Visits, k: int)
    ensures EraseSweep.Visit(v, k).flags == EraseSweep.Visit(Fresh(v.flags), k).flags
    ensures EraseSweep.Visit(v, k).kept == v.kept + EraseSweep.Visit(Fresh(v.flags), k).kept
  {
  }

  /** After i turns the machine is where EraseSweep's loop is. */
  ghost predicate InTurn(s: State, f: EraseSweep.Flags, l: seq<int>, i: nat) {
    && i <= |l| && Clean(s) && s.pusher.None? && s.io == SweepTest(i)
    && s.delq == l[i..] + EraseSweep.VisitAll(f, l[..i]).kept
    && FlagsOf(s) == EraseSweep.VisitAll(f, l[..i]).flags
  }

  /** The machine has done the sweep of EraseSweep. */
  ghost predicate Swept(s: State, f: EraseSweep.Flags, l: seq<int>) {
    && s.io.IoFree? && Clean(s)
    && s.delq == EraseSweep.SweepList(f, l) && FlagsOf(s) == EraseSweep.SweepVisits(f, l).flags
  }

  lemma TurnNext(s: State, f: EraseSweep.Flags, l: seq<int>, i: nat, s': State)
    requires InTurn(s, f, l, i) && i < |l| && s.delq != [] && Visited(s, s.delq[0], s', i)
    ensures InTurn(s', f, l, i + 1)
  {
    var v := EraseSweep.VisitAll(f, l[..i]);
    EraseSweep.VisitNext(f, l, i);
    assert s.delq[0] == l[i];
    VisitFresh(v, l[i]);
    assert s.delq[1..] == l[i + 1..] + v.kept;
  }

  /** The first turns, none of which is the last. */
  lemma Unfinished(s: State, f: EraseSweep.Flags, l: seq<int>, i: nat)
    requires InTurn(s, f, l, i) && i < EraseSweep.SweepCount(f, l)
    ensures i < |l| && i < |s.delq|
  {
    assert |s.delq| == EraseSweep.LengthAfter(f, l, i);
  }

  lemma OneTurn(s: State, f: EraseSweep.Flags, l: seq<int>, i: nat) returns (n: nat, s': State)
    requires InTurn(s, f, l, i) && i < EraseSweep.SweepCount(f, l)
    ensures Leads(s, Ios(n), s') && InTurn(s', f, l, i + 1) && s'.pcs == s.pcs
  {
    Unfinished(s, f, l, i);
    n, s' := OneVisit(s, i);
    TurnNext(s, f, l, i, s');
  }

  lemma {:induction false} Turns(s: State, f: EraseSweep.Flags, l: seq<int>, i: nat) returns (n: nat, s': State)
    requires InTurn(s, f, l, 0) && i <= EraseSweep.SweepCount(f, l)
    ensures Leads(s, Ios(n), s') && InTurn(s', f, l, i) && s'.pcs == s.pcs
  {
    if i == 0 {
      IoNone(s);
      n, s' := 0, s;
    } else {
      n, s' := Turns(s, f, l, i - 1);
      n, s' := TurnOn(s, n, s', f, l, i - 1);
    }
  }

  lemma TurnOn(s: State, m: nat, v: State, f: EraseSweep.Flags, l: seq<int>, i: nat) returns (n: nat, s': State)
    requires Leads(s, Ios(m), v) && InTurn(v, f, l, i) && v.pcs == s.pcs && i < EraseSweep.SweepCount(f, l)
    ensures Leads(s, Ios(n), s') && InTurn(s', f, l, i + 1) && s'.pcs == s.pcs
  {
    var r;
    r, s' := OneTurn(v, f, l, i);
    IosOn(s, m, v, r, s');
    n := m + r;
  }

  lemma SweepStops(s: State, f: EraseSweep.Flags, l: seq<int>, i: nat) returns (s': State)
    requires InTurn(s, f, l, i) && i == EraseSweep.SweepCount(f, l)
    ensures Leads(s, Ios(1), s') && Swept(s', f, l) && s'.pcs == s.pcs
  {
    assert |s.delq| == EraseSweep.LengthAfter(f, l, i);
    SweepEnds(s, i);
    s' := s.(io := IoFree);
    assert FlagsOf(s') == FlagsOf(s);
  }

  /** Left alone, with no read half queued, the sweep of the machine is the sweep of EraseSweep. */
  lemma MachineSweep(s: State) returns (n: nat, s': State)
    requires Clean(s) && s.pusher.None? && s.io == SweepTest(0)
    ensures Leads(s, Ios(n), s') && Swept(s', FlagsOf(s), s.delq) && s'.pcs == s.pcs
  {
    var f, l := FlagsOf(s), s.delq;
    assert l[..0] == [] && l[0..] + [] == l;
    var m, v := Turns(s, f, l, EraseSweep.SweepCount(f, l));
    s' := SweepStops(v, f, l, EraseSweep.SweepCount(f, l));
    IosOn(s, m, v, 1, s');
    n := m + 1;
  }

  /** A run within the contract leaves list and flags as the sweep needs them. */
  lemma RunReady(s0: State, ls: seq<Label>)
    requires Init(s0) && After(s0, ls).Some? && OnceRun(s0, ls) && !After(s0, ls).value.crashed
    ensures var s := After(s0, ls).value;
            Clean(s) && Distinct(s.delq) && EraseSweep.Flagged(FlagsOf(s), s.delq)
  {
    RunSound(s0, ls);
    var s := After(s0, ls).value;
    forall k | k in s.delq ensures HasFlag(s, k) {
      assert PhaseIs(s, k, Deleting);
    }
  }
}
