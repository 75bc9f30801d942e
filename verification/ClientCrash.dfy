/** When the client machine can crash: the exact steps, the conditions that exclude them, and runs that meet them. */
module ClientCrash {
  import opened Prelude
  import opened ClientSteps
  import opened ClientFrames
  import opened ClientErase
  import opened ClientMap
  import opened ClientRuns

  // ---------------------------------------------------------------- the crashes

  /** handle_read_header is about to dereference the entry of an id whose writer has inserted the null
      pointer and not yet assigned the entry. */
  ghost predicate NullHead(s: State) {
    s.io.HeadSet? && exists t :: Storing(s, t, s.io.k)
  }

  /** The sweep is about to pop for a read that was counted by size() and is not linked yet. */
  ghost predicate HalfPop(s: State) {
    s.io == SweepPop(0) && s.delq == [] && s.pusher.Some?
  }

  lemma HandlerCrash(s: State)
    requires IsHandler(s.io) && IoCoherent(s) && HandlerOk(s) && !s.crashed
    requires !s.io.SetStatus? ==> var r := Lookup(s, s.io.k); r.Some? ==> Names(s.objs, r.value, s.io.k)
    ensures HandlerStep(s).crashed <==> s.io.HeadSet? && s.recv[s.io.k].None?
  {
    if s.io.HeadFind? {
    } else if s.io.HeadSet? {
    } else if s.io.HeadRead? {
    } else {
    }
  }

  lemma SweepCrash(s: State)
    requires !IsHandler(s.io) && IoCoherent(s) && !s.crashed
    requires Held(s.io).Some? ==> var k := Held(s.io).value; Present(s, k) && Names(s.objs, s.recv[k].value, k)
    ensures SweepStep(s).crashed <==> HalfPop(s)
  {
    if s.io.SweepTest? {
    } else if s.io.SweepPop? {
    } else if s.io.SweepFind? {
    } else if s.io.SweepExec? {
    } else if s.io.SweepErase? {
    } else if s.io.SweepState? {
    } else if s.io.SweepMark? {
    } else {
    }
  }

  /** A step crashes exactly in two situations: handle_read_header dereferences the null pointer of an
      unfinished insertion, or the sweep pops on the strength of a push that is counted and not linked. */
  lemma CrashExactly(s: State, l: Label)
    requires Owned(s) && Coherent(s) && Enabled(s, l)
    ensures Step(s, l).crashed <==> l.Io? && (NullHead(s) || HalfPop(s))
  {
    if l.Io? {
      if IsHandler(s.io) {
        HandlerCrash(s);
        NullsStored(s);
      } else {
        assert Held(s.io).Some? ==> IdOk(s, Held(s.io).value);
        SweepCrash(s);
      }
    } else if l.App? {
      assert PcOk(s, s.pcs[l.t]) && PcCoherent(s.objs, s.pcs[l.t]);
      if IsRead(s.pcs[l.t]) {
        ReadMove(s, l.t);
      } else {
        WriteMove(s, l.t);
      }
    }
  }

  /** The null pointers in the map are those of writers inside the insertion. */
  lemma NullsStored(s: State)
    requires Owned(s)
    ensures forall k | k in s.recv :: s.recv[k].None? <==> exists t :: Storing(s, t, k)
  {
    forall k | k in s.recv ensures s.recv[k].None? <==> exists t :: Storing(s, t, k) {
      if t :| Storing(s, t, k) {
        assert PcOk(s, s.pcs[t]);
      }
    }
  }

  // ---------------------------------------------------------------- runs within the contract

  lemma {:induction false} RunOwned(s0: State, ls: seq<Label>)
    requires Init(s0) && After(s0, ls).Some? && OnceRun(s0, ls)
    ensures Owned(After(s0, ls).value) && Coherent(After(s0, ls).value)
  {
    RunHistory(s0, ls);
    if ls != [] {
      var ls' := ls[..|ls| - 1];
      RunOwned(s0, ls');
      OwnedStep(After(s0, ls').value, Last(ls));
    }
  }

  /** Every pointer in the map carries its own key, or is the null of a writer inside the insertion. */
  lemma MapPointers(s0: State, ls: seq<Label>, k: int)
    requires Init(s0) && After(s0, ls).Some? && OnceRun(s0, ls) && k in After(s0, ls).value.recv
    ensures var s := After(s0, ls).value;
            && (s.recv[k].Some? ==> Names(s.objs, s.recv[k].value, k))
            && (s.recv[k].None? <==> exists t :: Storing(s, t, k))
  {
    RunOwned(s0, ls);
    NullsStored(After(s0, ls).value);
  }

  lemma RunCrash(s0: State, ls: seq<Label>, l: Label)
    requires Init(s0) && After(s0, ls).Some? && OnceRun(s0, ls) && Enabled(After(s0, ls).value, l)
    ensures var s := After(s0, ls).value;
            Step(s, l).crashed <==> l.Io? && (NullHead(s) || HalfPop(s))
  {
    RunOwned(s0, ls);
    CrashExactly(After(s0, ls).value, l);
  }

  /** Within the contract no operator[] of a read ever inserts a default. */
  lemma NoDefaultStep(s: State, l: Label, k: int)
    requires Owned(s) && Enabled(s, l) && Defaulted(k) in Step(s, l).log
    ensures Defaulted(k) in s.log
  {
    if l.App? {
      assert PcOk(s, s.pcs[l.t]);
      AppLogs(s, l.t);
    } else if l.Io? {
      IoLogs(s);
    }
  }

  lemma AppLogs(s: State, t: Tid)
    requires t in s.pcs && PcOk(s, s.pcs[t])
    ensures forall k | Defaulted(k) in AppStep(s, t).log :: Defaulted(k) in s.log
  {
    if s.pcs[t].ReadFind? {
    } else if s.pcs[t].ReadGet? {
    } else if s.pcs[t].ReadPoll? {
    } else if s.pcs[t].ReadFlag? {
    } else if s.pcs[t].ReadCount? {
    } else if s.pcs[t].ReadLink? {
    } else if s.pcs[t].WriteMake? {
    } else if s.pcs[t].WriteSlot? {
    } else if s.pcs[t].WriteStore? {
    } else if s.pcs[t].WriteArm? {
    } else {
    }
  }

  lemma IoLogs(s: State)
    ensures forall k | Defaulted(k) in IoStep(s).log :: Defaulted(k) in s.log
  {
    if s.io.HeadFind? {
    } else if s.io.HeadSet? {
    } else if s.io.HeadRead? {
    } else if s.io.SetStatus? {
    } else if s.io.SweepTest? {
    } else if s.io.SweepPop? {
    } else if s.io.SweepFind? {
    } else if s.io.SweepPush? {
    } else if s.io.SweepExec? {
    } else if s.io.SweepErase? {
    } else if s.io.SweepState? {
    } else if s.io.SweepMark? {
    } else {
    }
  }

  lemma {:induction false} NoDefaultInsert(s0: State, ls: seq<Label>, k: int)
    requires Init(s0) && After(s0, ls).Some? && OnceRun(s0, ls)
    ensures Defaulted(k) !in After(s0, ls).value.log
  {
    if ls != [] {
      var ls' := ls[..|ls| - 1];
      NoDefaultInsert(s0, ls', k);
      RunOwned(s0, ls');
      if Defaulted(k) in After(s0, ls).value.log {
        NoDefaultStep(After(s0, ls').value, Last(ls), k);
      }
    }
  }

  // ---------------------------------------------------------------- replies after registration

  /** Some write() has allocated id k and not yet assigned its map entry. */
  ghost predicate Registering(s: State, t: Tid, k: int) {
    t in s.pcs && (s.pcs[t].WriteMake? || s.pcs[t].WriteSlot? || s.pcs[t].WriteStore?) && s.pcs[t].k == k
  }

  /** A reply head arrives only for an id that was allocated and whose map entry was assigned. */
  ghost predicate RepliesRegistered(s: State, l: Label) {
    l.HeadArrives? ==> l.k < s.nextId && forall t :: !Registering(s, t, l.k)
  }

  ghost predicate HeadOk(s: State) {
    s.io.HeadFind? || s.io.HeadSet? ==> s.io.k < s.nextId && forall t :: !Registering(s, t, s.io.k)
  }

  lemma RegisteringStep(s: State, l: Label, t: Tid, k: int)
    requires Enabled(s, l) && Registering(Step(s, l), t, k) && k < s.nextId
    ensures Registering(s, t, k)
  {
    if l.App? {
      AppFrame(s, l.t);
      if IsRead(s.pcs[l.t]) {
      } else {
      }
    } else if l.Io? {
      IoFrame(s);
    }
  }

  lemma HeadIo(s: State, l: Label)
    requires Enabled(s, l) && (Step(s, l).io.HeadFind? || Step(s, l).io.HeadSet?)
    ensures s.nextId <= Step(s, l).nextId
    ensures l == HeadArrives(Step(s, l).io.k) || ((s.io.HeadFind? || s.io.HeadSet?) && Step(s, l).io.k == s.io.k)
  {
    if l.App? {
      AppFrame(s, l.t);
    } else if l.Io? {
      IoFrame(s);
      IoGoes(s);
    }
  }

  lemma HeadOkStep(s: State, l: Label)
    requires Enabled(s, l) && HeadOk(s) && RepliesRegistered(s, l)
    ensures HeadOk(Step(s, l))
  {
    var s' := Step(s, l);
    if s'.io.HeadFind? || s'.io.HeadSet? {
      HeadIo(s, l);
      forall t ensures !Registering(s', t, s'.io.k) {
        if Registering(s', t, s'.io.k) {
          RegisteringStep(s, l, t, s'.io.k);
        }
      }
    }
  }

  ghost predicate RegisteredRun(s0: State, ls: seq<Label>)
    decreases |ls|
  {
    ls != [] ==>
      && RegisteredRun(s0, ls[..|ls| - 1])
      && (After(s0, ls[..|ls| - 1]).Some? ==> RepliesRegistered(After(s0, ls[..|ls| - 1]).value, Last(ls)))
  }

  /** No sweep makes its first test on an empty list while a read is half queued. */
  ghost predicate TestsLinked(s: State, l: Label) {
    l.Io? && s.io == SweepTest(0) && s.delq == [] ==> s.pusher.None?
  }

  ghost predicate LinkedRun(s0: State, ls: seq<Label>)
    decreases |ls|
  {
    ls != [] ==>
      && LinkedRun(s0, ls[..|ls| - 1])
      && (After(s0, ls[..|ls| - 1]).Some? ==> TestsLinked(After(s0, ls[..|ls| - 1]).value, Last(ls)))
  }

  ghost predicate PopOk(s: State) {
    s.io.SweepPop? ==> s.delq != []
  }

  lemma PopOkStep(s: State, l: Label)
    requires Enabled(s, l) && Coherent(s) && PopOk(s) && TestsLinked(s, l)
    ensures PopOk(Step(s, l))
  {
    if l.App? {
      AppIds(s, l.t);
    } else if l.Io? {
      IoGoes(s);
    }
  }

  /** Reads once per returned id, replies only after registration, no sweep begun on an empty list beside a
      half-queued read: no run crashes. */
  lemma {:induction false} NeverCrashes(s0: State, ls: seq<Label>)
    requires Init(s0) && After(s0, ls).Some? && OnceRun(s0, ls) && RegisteredRun(s0, ls) && LinkedRun(s0, ls)
    ensures HeadOk(After(s0, ls).value) && PopOk(After(s0, ls).value) && !After(s0, ls).value.crashed
  {
    if ls != [] {
      var ls' := ls[..|ls| - 1];
      var s := After(s0, ls').value;
      NeverCrashes(s0, ls');
      RunOwned(s0, ls');
      CrashExactly(s, Last(ls));
      HeadOkStep(s, Last(ls));
      PopOkStep(s, Last(ls));
      NoStoring(s);
    }
  }

  lemma NoStoring(s: State)
    requires HeadOk(s)
    ensures !NullHead(s)
  {
    if s.io.HeadSet? {
      forall t ensures !Storing(s, t, s.io.k) {
        assert !Registering(s, t, s.io.k);
      }
    }
  }

  // ---------------------------------------------------------------- each condition is needed

  /** The labels of a reply that overtakes the registration of the first request. */
  function EarlyReply(t: Tid): seq<Label> {
    [BeginWrite(t), App(t)] + [App(t)] + [HeadArrives(1), Io, Io]
  }

  /** Without the second condition the crash is real: the message is queued for sending before its
      receive entry is assigned, and a reply in between meets the null pointer. */
  lemma EarlyReplyCrashes(s0: State, t: Tid)
    requires Init(s0) && t in s0.pcs
    ensures After(s0, EarlyReply(t)).Some? && After(s0, EarlyReply(t)).value.crashed
    ensures OnceRun(s0, EarlyReply(t)) && LinkedRun(s0, EarlyReply(t))
  {
    NoSweeps(s0, EarlyReply(t));
    MakeRun(s0, t);
    var m := Made(s0, t);
    One(m, App(t));
    var m1 := Step(m, App(t));
    LeadsOn(s0, [BeginWrite(t), App(t)], m, [App(t)], m1);
    var s' := HeadMeetsNull(m1);
    LeadsOn(s0, [BeginWrite(t), App(t)] + [App(t)], m1, [HeadArrives(1), Io, Io], s');
  }

  /** Without sweeps the io thread is never at a loop test. */
  lemma {:induction false} NoSweeps(s0: State, ls: seq<Label>)
    requires Init(s0) && forall i | 0 <= i < |ls| :: !ls[i].SweepBegins?
    ensures LinkedRun(s0, ls)
    ensures After(s0, ls).Some? ==> After(s0, ls).value.io.IoFree? || IsHandler(After(s0, ls).value.io)
    decreases |ls|
  {
    if ls != [] {
      NoSweeps(s0, ls[..|ls| - 1]);
      if After(s0, ls).Some? {
        NoSweepStep(After(s0, ls[..|ls| - 1]).value, Last(ls));
      }
    }
  }

  lemma NoSweepStep(s: State, l: Label)
    requires Enabled(s, l) && !l.SweepBegins? && (s.io.IoFree? || IsHandler(s.io))
    ensures Step(s, l).io.IoFree? || IsHandler(Step(s, l).io)
  {
    if l.App? {
      AppFrame(s, l.t);
    } else if l.Io? {
      IoGoes(s);
    }
  }

  /** A reply head for an id whose pointer is null crashes in two steps of its handler. */
  lemma HeadMeetsNull(s: State) returns (s': State)
    requires 1 in s.recv && s.recv[1].None? && s.io.IoFree? && s.reading.None? && !s.crashed
    ensures Leads(s, [HeadArrives(1), Io, Io], s') && s'.crashed
  {
    One(s, HeadArrives(1));
    var s1 := s.(io := HeadFind(1));
    One(s1, Io);
    var s2 := s.(io := HeadSet(1));
    One(s2, Io);
    s' := Crash(s2);
    LeadsOn(s, [HeadArrives(1)], s1, [Io], s2);
    LeadsOn(s, [HeadArrives(1)] + [Io], s2, [Io], s');
    assert [HeadArrives(1)] + [Io] + [Io] == [HeadArrives(1), Io, Io];
  }

  /** The labels of a sweep that begins while the first read is between ++size_ and the link. */
  function EarlySweep(t: Tid): seq<Label> {
    WriteAll(t) + Timeout(0) + ReadHalf(t, 1) + [SweepBegins, Io, Io]
  }

  /** Without the third condition the other crash is real: size() says one, and pop finds nothing linked. */
  lemma HalfPopCrashes(s0: State, t: Tid)
    requires Init(s0) && t in s0.pcs
    ensures After(s0, EarlySweep(t)).Some? && After(s0, EarlySweep(t)).value.crashed
    ensures OnceRun(s0, EarlySweep(t)) && RegisteredRun(s0, EarlySweep(t))
  {
    var m := HalfReached(s0, t);
    var s' := SweepMeetsHalf(m);
    LeadsOn(s0, WriteAll(t) + Timeout(0) + ReadHalf(t, 1), m, [SweepBegins, Io, Io], s');
    SweepHeads(s0, t);
  }

  lemma SweepHeads(s0: State, t: Tid)
    ensures RegisteredRun(s0, EarlySweep(t))
  {
    var ls := EarlySweep(t);
    forall i | 0 <= i < |ls| ensures !ls[i].HeadArrives? {
      assert ls[i] in WriteAll(t) || ls[i] in Timeout(0) || ls[i] in ReadHalf(t, 1) || ls[i] in [SweepBegins, Io, Io];
    }
    NoHeads(s0, ls);
  }

  lemma HalfReached(s0: State, t: Tid) returns (s: State)
    requires Init(s0) && t in s0.pcs
    ensures Leads(s0, WriteAll(t) + Timeout(0) + ReadHalf(t, 1), s)
    ensures s.io.IoFree? && s.delq == [] && s.pusher.Some? && !s.crashed
  {
    FirstAnswered(s0, t);
    var m := Expired(Registered(s0), 0);
    ReadHalfRun(m, t, 1, 0);
    s := HalfQueued(m, t, 1, 0);
    LeadsOn(s0, WriteAll(t) + Timeout(0), m, ReadHalf(t, 1), s);
  }

  lemma SweepMeetsHalf(s: State) returns (s': State)
    requires s.io.IoFree? && s.delq == [] && s.pusher.Some? && !s.crashed
    ensures Leads(s, [SweepBegins, Io, Io], s') && s'.crashed
  {
    One(s, SweepBegins);
    var s1 := s.(io := SweepTest(0));
    One(s1, Io);
    var s2 := s.(io := SweepPop(0));
    One(s2, Io);
    s' := Crash(s2);
    LeadsOn(s, [SweepBegins], s1, [Io], s2);
    LeadsOn(s, [SweepBegins] + [Io], s2, [Io], s');
    assert [SweepBegins] + [Io] + [Io] == [SweepBegins, Io, Io];
  }

  lemma {:induction false} NoHeads(s0: State, ls: seq<Label>)
    requires forall i | 0 <= i < |ls| :: !ls[i].HeadArrives?
    ensures RegisteredRun(s0, ls)
    decreases |ls|
  {
    if ls != [] {
      NoHeads(s0, ls[..|ls| - 1]);
    }
  }
}
