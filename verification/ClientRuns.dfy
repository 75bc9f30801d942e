/** Runs of the client machine: how they compose, the contract along a run, and the stretches that the
    concrete runs of the other modules are made of. */
module ClientRuns {
  import opened Prelude
  import opened ClientSteps
  import opened ClientMap

  // ---------------------------------------------------------------- runs compose

  lemma {:induction false} AfterConcat(s: State, ls: seq<Label>, more: seq<Label>)
    requires After(s, ls).Some?
    ensures After(s, ls + more) == After(After(s, ls).value, more)
    decreases |more|
  {
    if more == [] {
      assert ls + more == ls;
    } else {
      assert (ls + more)[..|ls + more| - 1] == ls + more[..|more| - 1];
      AfterConcat(s, ls, more[..|more| - 1]);
    }
  }

  /** Along ls every read is of an id that write() returned and that was not read before. */
  ghost predicate OnceRun(s0: State, ls: seq<Label>)
    decreases |ls|
  {
    ls != [] ==>
      && OnceRun(s0, ls[..|ls| - 1])
      && (After(s0, ls[..|ls| - 1]).Some? ==> ReadsOnce(After(s0, ls[..|ls| - 1]).value, Last(ls)))
  }

  lemma {:induction false} OnceConcat(s: State, ls: seq<Label>, more: seq<Label>)
    requires OnceRun(s, ls) && After(s, ls).Some? && OnceRun(After(s, ls).value, more)
    ensures OnceRun(s, ls + more)
    decreases |more|
  {
    if more == [] {
      assert ls + more == ls;
    } else {
      assert (ls + more)[..|ls + more| - 1] == ls + more[..|more| - 1];
      OnceConcat(s, ls, more[..|more| - 1]);
      AfterConcat(s, ls, more[..|more| - 1]);
    }
  }

  ghost predicate NoReads(ls: seq<Label>) {
    forall i | 0 <= i < |ls| :: !ls[i].BeginRead?
  }

  lemma {:induction false} NoReadsOnce(s: State, ls: seq<Label>)
    requires NoReads(ls)
    ensures OnceRun(s, ls)
    decreases |ls|
  {
    if ls != [] {
      NoReadsOnce(s, ls[..|ls| - 1]);
    }
  }

  /** The labels ls lead from s to s' within the contract. */
  ghost predicate Leads(s: State, ls: seq<Label>, s': State) {
    After(s, ls) == Some(s') && OnceRun(s, ls)
  }

  lemma LeadsOn(s: State, ls: seq<Label>, m: State, more: seq<Label>, s': State)
    requires Leads(s, ls, m) && Leads(m, more, s')
    ensures Leads(s, ls + more, s')
  {
    AfterConcat(s, ls, more);
    OnceConcat(s, ls, more);
  }

  lemma One(s: State, l: Label)
    requires Enabled(s, l) && ReadsOnce(s, l)
    ensures Leads(s, [l], Step(s, l))
  {
    assert [l][..0] == [];
  }

  // ---------------------------------------------------------------- a whole write()

  function WriteAll(t: Tid): seq<Label> {
    [BeginWrite(t), App(t), App(t), App(t), App(t)]
  }

  function Registered(s: State): State {
    s.(nextId := s.nextId + 1, objs := s.objs + [Entry(s.nextId, Waiting, NoFlag, Armed)],
       recv := s.recv[s.nextId := Some(|s.objs|)], phase := s.phase[s.nextId := Written])
  }

  ghost predicate Idle(s: State, t: Tid) {
    t in s.pcs && s.pcs[t].AppIdle? && !s.crashed
  }

  /** ... with the entry made and not yet in the map. */
  function Made(s: State, t: Tid): State {
    s.(nextId := s.nextId + 1, objs := s.objs + [Entry(s.nextId, Waiting, NoFlag, Unset)],
       pcs := s.pcs[t := WriteSlot(s.nextId, |s.objs|)], phase := s.phase[s.nextId := Making])
  }

  /** ... with the entry in the map and no timer yet. */
  function Stored(s: State, t: Tid): State {
    Made(s, t).(pcs := s.pcs[t := WriteArm(s.nextId, |s.objs|)], recv := s.recv[s.nextId := Some(|s.objs|)])
  }

  lemma MakeRun(s: State, t: Tid)
    requires Idle(s, t)
    ensures Leads(s, [BeginWrite(t), App(t)], Made(s, t))
  {
    var s1 := Step(s, BeginWrite(t));
    One(s, BeginWrite(t));
    One(s1, App(t));
    assert s1.pcs[t := WriteSlot(s.nextId, |s.objs|)] == Made(s, t).pcs;
    LeadsOn(s, [BeginWrite(t)], s1, [App(t)], Made(s, t));
    assert [BeginWrite(t)] + [App(t)] == [BeginWrite(t), App(t)];
  }

  lemma StoreRun(s: State, t: Tid)
    requires Idle(s, t) && s.nextId !in s.recv
    ensures Leads(Made(s, t), [App(t), App(t)], Stored(s, t))
  {
    var m := Made(s, t);
    var m1 := m.(pcs := s.pcs[t := WriteStore(s.nextId, |s.objs|)], recv := s.recv[s.nextId := None]);
    assert m.pcs[t := WriteStore(s.nextId, |s.objs|)] == m1.pcs;
    One(m, App(t));
    One(m1, App(t));
    assert m1.pcs[t := WriteArm(s.nextId, |s.objs|)] == Stored(s, t).pcs
      && m1.recv[s.nextId := Some(|s.objs|)] == Stored(s, t).recv;
    LeadsOn(m, [App(t)], m1, [App(t)], Stored(s, t));
    assert [App(t)] + [App(t)] == [App(t), App(t)];
  }

  lemma ArmRun(s: State, t: Tid)
    requires Idle(s, t)
    ensures Leads(Stored(s, t), [App(t)], Registered(s))
  {
    var m := Stored(s, t);
    One(m, App(t));
    assert m.pcs[t := AppIdle] == s.pcs && m.phase[s.nextId := Written] == s.phase[s.nextId := Written];
    assert m.objs[|s.objs| := m.objs[|s.objs|].(timer := Armed)] == Registered(s).objs;
  }

  lemma WriteRun(s: State, t: Tid)
    requires Idle(s, t) && s.nextId !in s.recv
    ensures Leads(s, WriteAll(t), Registered(s))
  {
    MakeRun(s, t);
    StoreRun(s, t);
    ArmRun(s, t);
    LeadsOn(s, [BeginWrite(t), App(t)], Made(s, t), [App(t), App(t)], Stored(s, t));
    LeadsOn(s, [BeginWrite(t), App(t)] + [App(t), App(t)], Stored(s, t), [App(t)], Registered(s));
    assert [BeginWrite(t), App(t)] + [App(t), App(t)] + [App(t)] == WriteAll(t);
  }

  // ---------------------------------------------------------------- a timeout

  function Timeout(o: Obj): seq<Label> {
    [TimerExpires(o), TimeoutRuns(o), Io]
  }

  function Expired(s: State, o: Obj): State
    requires o < |s.objs|
  {
    s.(objs := s.objs[o := s.objs[o].(timer := Spent, status := TimedOut)])
  }

  lemma TimeoutRun(s: State, o: Obj)
    requires o < |s.objs| && s.objs[o].timer.Armed? && s.io.IoFree? && !s.crashed
    ensures Leads(s, Timeout(o), Expired(s, o))
  {
    var s1 := SetTimer(s, o, Fired);
    One(s, TimerExpires(o));
    var s2 := SetTimer(s, o, Spent).(io := SetStatus(o, TimedOut));
    One(s1, TimeoutRuns(o));
    assert SetTimer(s1, o, Spent).objs == s2.objs;
    One(s2, Io);
    assert Step(s2, Io).objs == Expired(s, o).objs;
    LeadsOn(s, [TimerExpires(o)], s1, [TimeoutRuns(o)], s2);
    LeadsOn(s, [TimerExpires(o)] + [TimeoutRuns(o)], s2, [Io], Expired(s, o));
    assert [TimerExpires(o)] + [TimeoutRuns(o)] + [Io] == Timeout(o);
  }

  /** The first request is written and times out. */
  lemma FirstAnswered(s0: State, t: Tid)
    requires Init(s0) && t in s0.pcs
    ensures Leads(s0, WriteAll(t) + Timeout(0), Expired(Registered(s0), 0))
    ensures Expired(Registered(s0), 0).objs == [Entry(1, TimedOut, NoFlag, Spent)]
  {
    WriteRun(s0, t);
    TimeoutRun(Registered(s0), 0);
    LeadsOn(s0, WriteAll(t), Registered(s0), Timeout(0), Expired(Registered(s0), 0));
  }

  // ---------------------------------------------------------------- a whole read()

  /** read(k) up to the point where its push is counted and not linked. */
  function ReadHalf(t: Tid, k: int): seq<Label> {
    [BeginRead(t, k), App(t), App(t), App(t), App(t), App(t)]
  }

  /** Thread t can read id k without waiting. */
  ghost predicate Answered(s: State, t: Tid, k: int, o: Obj) {
    && Idle(s, t) && s.pusher.None? && PhaseIs(s, k, Written) && k in s.recv && s.recv[k] == Some(o)
    && o < |s.objs| && s.objs[o].reqId == k && !s.objs[o].status.Waiting?
  }

  function HalfQueued(s: State, t: Tid, k: int, o: Obj): State
    requires o < |s.objs|
  {
    SetFlag(s, o, EraseState).(pusher := Some(t), pcs := s.pcs[t := ReadLink(k, o, k)], log := s.log + [Saw(k)],
      phase := s.phase[k := Asked])
  }

  /** ... up to the test of the status. */
  function AtPoll(s: State, t: Tid, k: int, o: Obj): State {
    s.(pcs := s.pcs[t := ReadPoll(k, Some(o))], phase := s.phase[k := Asked])
  }

  lemma FindRun(s: State, t: Tid, k: int, o: Obj)
    requires Answered(s, t, k, o)
    ensures Leads(s, [BeginRead(t, k), App(t), App(t)], AtPoll(s, t, k, o))
  {
    var s1 := Step(s, BeginRead(t, k));
    One(s, BeginRead(t, k));
    var s2 := AtPoll(s, t, k, o).(pcs := s.pcs[t := ReadGet(k)]);
    assert s1.pcs[t := ReadGet(k)] == s2.pcs;
    One(s1, App(t));
    assert s2.pcs[t := ReadPoll(k, Some(o))] == AtPoll(s, t, k, o).pcs;
    One(s2, App(t));
    LeadsOn(s, [BeginRead(t, k)], s1, [App(t)], s2);
    LeadsOn(s, [BeginRead(t, k)] + [App(t)], s2, [App(t)], AtPoll(s, t, k, o));
    assert [BeginRead(t, k)] + [App(t)] + [App(t)] == [BeginRead(t, k), App(t), App(t)];
  }

  lemma FlagRun(s: State, t: Tid, k: int, o: Obj)
    requires Answered(s, t, k, o)
    ensures Leads(AtPoll(s, t, k, o), [App(t), App(t), App(t)], HalfQueued(s, t, k, o))
  {
    var s3 := AtPoll(s, t, k, o);
    var s4 := s3.(pcs := s.pcs[t := ReadFlag(k, o)], log := s.log + [Saw(k)]);
    assert s3.pcs[t := ReadFlag(k, o)] == s4.pcs;
    One(s3, App(t));
    var s5 := SetFlag(s4, o, EraseState).(pcs := s.pcs[t := ReadCount(k, o)]);
    assert s4.pcs[t := ReadCount(k, o)] == s5.pcs;
    One(s4, App(t));
    assert s5.pcs[t := ReadLink(k, o, k)] == HalfQueued(s, t, k, o).pcs;
    One(s5, App(t));
    LeadsOn(s3, [App(t)], s4, [App(t)], s5);
    LeadsOn(s3, [App(t)] + [App(t)], s5, [App(t)], HalfQueued(s, t, k, o));
    assert [App(t)] + [App(t)] + [App(t)] == [App(t), App(t), App(t)];
  }

  lemma ReadHalfRun(s: State, t: Tid, k: int, o: Obj)
    requires Answered(s, t, k, o)
    ensures Leads(s, ReadHalf(t, k), HalfQueued(s, t, k, o))
  {
    FindRun(s, t, k, o);
    FlagRun(s, t, k, o);
    LeadsOn(s, [BeginRead(t, k), App(t), App(t)], AtPoll(s, t, k, o), [App(t), App(t), App(t)], HalfQueued(s, t, k, o));
    assert [BeginRead(t, k), App(t), App(t)] + [App(t), App(t), App(t)] == ReadHalf(t, k);
  }

  function ReadAll(t: Tid, k: int): seq<Label> {
    ReadHalf(t, k) + [App(t)]
  }

  function Queueing(s: State, k: int, o: Obj): State
    requires o < |s.objs|
  {
    SetFlag(s, o, EraseState).(delq := s.delq + [k], log := s.log + [Saw(k), Queued(k)],
      phase := s.phase[k := Deleting])
  }

  lemma ReadRun(s: State, t: Tid, k: int, o: Obj)
    requires Answered(s, t, k, o)
    ensures Leads(s, ReadAll(t, k), Queueing(s, k, o))
  {
    ReadHalfRun(s, t, k, o);
    var m, ls := HalfQueued(s, t, k, o), [App(t)];
    One(m, App(t));
    assert m.pcs[t := AppIdle] == s.pcs && m.phase[k := Deleting] == s.phase[k := Deleting];
    assert m.log + [Queued(k)] == s.log + [Saw(k), Queued(k)];
    LeadsOn(s, ReadHalf(t, k), m, ls, Queueing(s, k, o));
  }

  // ---------------------------------------------------------------- visits of a sweep

  /** Steps of the io thread. */
  function Ios(n: nat): seq<Label> {
    seq(n, _ => Io)
  }

  lemma IosAdd(m: nat, n: nat)
    ensures Ios(m) + Ios(n) == Ios(m + n)
  {
  }

  lemma IoNone(s: State)
    ensures Leads(s, Ios(0), s)
  {
    assert Ios(0) == [];
  }

  lemma IoOnce(s: State)
    requires Enabled(s, Io)
    ensures Leads(s, Ios(1), Step(s, Io))
  {
    One(s, Io);
    assert Ios(1) == [Io];
  }

  lemma IosOn(s: State, m: nat, s1: State, n: nat, s2: State)
    requires Leads(s, Ios(m), s1) && Leads(s1, Ios(n), s2)
    ensures Leads(s, Ios(m + n), s2)
  {
    LeadsOn(s, Ios(m), s1, Ios(n), s2);
    IosAdd(m, n);
  }

  /** The loop test, the pop, the find and the first flag test. */
  lemma VisitBegins(s: State, i: nat, k: int, o: Obj)
    requires s.io == SweepTest(i) && i < |s.delq| && s.delq[0] == k && !s.crashed
    requires k in s.recv && s.recv[k] == Some(o) && o < |s.objs|
    ensures var io := if s.objs[o].flag.EraseExec? then SweepErase(i, k) else SweepState(i, k);
            Leads(s, Ios(4), s.(io := io, delq := s.delq[1..]))
  {
    PopBegins(s, i);
    var s2 := s.(io := SweepFind(i, k), delq := s.delq[1..]);
    var s3 := s2.(io := SweepExec(i, k));
    IoOnce(s2);
    IoOnce(s3);
    IosOn(s, 2, s2, 1, s3);
    IosOn(s, 3, s3, 1, Step(s3, Io));
  }

  lemma PopBegins(s: State, i: nat)
    requires s.io == SweepTest(i) && i < |s.delq| && !s.crashed
    ensures Leads(s, Ios(2), s.(io := SweepFind(i, s.delq[0]), delq := s.delq[1..]))
  {
    var s1 := s.(io := SweepPop(i));
    IoOnce(s);
    IoOnce(s1);
    IosOn(s, 1, s1, 1, Step(s1, Io));
  }

  /** Id k, whose entry is o, is marked and put back. */
  function MarkedBack(s: State, i: nat, k: int, o: Obj): State
    requires o < |s.objs|
  {
    Log(SetFlag(s, o, EraseExec), Marked(k)).(io := SweepTest(i + 1), delq := s.delq + [k])
  }

  /** The second flag test, the mark and the push. */
  lemma VisitMarks(s: State, i: nat, k: int, o: Obj)
    requires s.io == SweepState(i, k) && s.pusher.None? && !s.crashed
    requires k in s.recv && s.recv[k] == Some(o) && o < |s.objs| && s.objs[o].flag.EraseState?
    ensures Leads(s, Ios(3), MarkedBack(s, i, k, o))
  {
    var s1 := s.(io := SweepMark(i, k));
    IoOnce(s);
    var s2 := Log(SetFlag(s, o, EraseExec), Marked(k)).(io := SweepPush(i, k));
    IoOnce(s1);
    IoOnce(s2);
    IosOn(s, 1, s1, 1, s2);
    IosOn(s, 2, s2, 1, Step(s2, Io));
  }

  /** Visits from the loop test on: of an id that has left the map, ... */
  lemma AbsentVisitRun(s: State, i: nat, k: int)
    requires s.io == SweepTest(i) && i < |s.delq| && s.delq[0] == k && !s.crashed && k !in s.recv
    ensures Leads(s, Ios(3), s.(io := SweepTest(i + 1), delq := s.delq[1..]))
  {
    PopBegins(s, i);
    var m := s.(io := SweepFind(i, k), delq := s.delq[1..]);
    IoOnce(m);
    IosOn(s, 2, m, 1, s.(io := SweepTest(i + 1), delq := s.delq[1..]));
  }

  /** Id k is erased. */
  function ErasedBy(s: State, i: nat, k: int): State {
    Log(s, Erased(k)).(io := SweepTest(i + 1), recv := s.recv - {k}, phase := s.phase[k := Gone])
  }

  lemma VisitErases(s: State, i: nat, k: int)
    requires s.io == SweepErase(i, k) && !s.crashed
    ensures Leads(s, Ios(1), ErasedBy(s, i, k))
  {
    IoOnce(s);
  }

  /** ... of an id flagged CT_ERASE_EXEC, ... */
  lemma EraseVisitRun(s: State, i: nat, k: int, o: Obj)
    requires s.io == SweepTest(i) && i < |s.delq| && s.delq[0] == k && !s.crashed
    requires k in s.recv && s.recv[k] == Some(o) && o < |s.objs| && s.objs[o].flag.EraseExec?
    ensures Leads(s, Ios(5), ErasedBy(s.(io := SweepErase(i, k), delq := s.delq[1..]), i, k))
  {
    VisitBegins(s, i, k, o);
    var m := s.(io := SweepErase(i, k), delq := s.delq[1..]);
    VisitErases(m, i, k);
    IosOn(s, 4, m, 1, ErasedBy(m, i, k));
  }

  /** ... flagged CT_ERASE_STATE, ... */
  lemma MarkVisitRun(s: State, i: nat, k: int, o: Obj)
    requires s.io == SweepTest(i) && i < |s.delq| && s.delq[0] == k && !s.crashed && s.pusher.None?
    requires k in s.recv && s.recv[k] == Some(o) && o < |s.objs| && s.objs[o].flag.EraseState?
    ensures Leads(s, Ios(7), MarkedBack(s.(io := SweepState(i, k), delq := s.delq[1..]), i, k, o))
  {
    VisitBegins(s, i, k, o);
    var m := s.(io := SweepState(i, k), delq := s.delq[1..]);
    VisitMarks(m, i, k, o);
    IosOn(s, 4, m, 3, MarkedBack(m, i, k, o));
  }

  lemma VisitKeeps(s: State, i: nat, k: int, o: Obj)
    requires s.io == SweepState(i, k) && !s.crashed && s.pusher.None?
    requires k in s.recv && s.recv[k] == Some(o) && o < |s.objs| && s.objs[o].flag.NoFlag?
    ensures Leads(s, Ios(2), s.(io := SweepTest(i + 1), delq := s.delq + [k]))
  {
    IoOnce(s);
    var p := s.(io := SweepPush(i, k));
    IoOnce(p);
    IosOn(s, 1, p, 1, s.(io := SweepTest(i + 1), delq := s.delq + [k]));
  }

  /** ... and of an id not flagged at all. */
  lemma KeepVisitRun(s: State, i: nat, k: int, o: Obj)
    requires s.io == SweepTest(i) && i < |s.delq| && s.delq[0] == k && !s.crashed && s.pusher.None?
    requires k in s.recv && s.recv[k] == Some(o) && o < |s.objs| && s.objs[o].flag.NoFlag?
    ensures Leads(s, Ios(6), s.(io := SweepTest(i + 1), delq := s.delq[1..] + [k]))
  {
    VisitBegins(s, i, k, o);
    var m := s.(io := SweepState(i, k), delq := s.delq[1..]);
    VisitKeeps(m, i, k, o);
    IosOn(s, 4, m, 2, s.(io := SweepTest(i + 1), delq := s.delq[1..] + [k]));
  }

  lemma SweepEnds(s: State, i: nat)
    requires s.io == SweepTest(i) && i >= Size(s) && !s.crashed
    ensures Leads(s, Ios(1), s.(io := IoFree))
  {
    IoOnce(s);
  }
}
