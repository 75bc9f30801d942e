/**
 Marking and erasing in one sweep.  A read that queues while a sweep runs lets its loop come round to an
 id it has marked itself.  Within the contract an erased id was marked by the same sweep exactly when the
 visit number is not below the length of the list at the sweep's start.
 */
module ClientTurns {
  import opened Prelude
  import opened ClientSteps
  import opened ClientFrames
  import opened ClientErase
  import opened ClientMap
  import opened ClientRuns
  import opened ClientFlags

  // ---------------------------------------------------------------- the story of the running sweep

  /** The list when the last sweep began, the ids it has marked, and the reads that were between counting
      and linking at its start or have counted their push since. */
  datatype Story = Story(start: seq<int>, marked: set<int>, arrived: nat)

  ghost function Tell(h: Story, s: State, l: Label): Story {
    if l.SweepBegins? then Story(s.delq, {}, B2I(s.pusher.Some?))
    else if l.Io? && s.io.SweepMark? then h.(marked := h.marked + {s.io.k})
    else if l.App? && l.t in s.pcs && s.pcs[l.t].ReadCount? then h.(arrived := h.arrived + 1)
    else h
  }

  ghost function StoryOf(s0: State, ls: seq<Label>): Story {
    if ls == [] then Story([], {}, 0)
    else
      var m, h := After(s0, ls[..|ls| - 1]), StoryOf(s0, ls[..|ls| - 1]);
      if m.Some? then Tell(h, m.value, Last(ls)) else h
  }

  // ---------------------------------------------------------------- counting

  /** Ids popped so far. */
  ghost function Popped(io: IoPc): nat
    requires InSweep(io)
  {
    if Held(io).Some? then io.i + 1 else io.i
  }

  /** List, hand and half-done push hold at most the ids there were and those that arrived, and what was
      popped comes back at the end. */
  ghost predicate Counts(s: State, h: Story) {
    InSweep(s.io) ==>
      && |s.delq| + Popped(s.io) >= |h.start|
      && Size(s) + B2I(Held(s.io).Some?) <= |h.start| + h.arrived
      && (!s.io.SweepTest? ==> s.io.i < |h.start| + h.arrived)
  }

  /** What an application step does to the list and its lock. */
  lemma AppQueues(s: State, t: Tid)
    requires Enabled(s, App(t)) && LockCoherent(s)
    ensures var s' := AppStep(s, t);
            if s.pcs[t].ReadLink? then s'.delq == s.delq + [s.pcs[t].id] && s'.pusher.None? && s.pusher.Some?
            else s'.delq == s.delq && if s.pcs[t].ReadCount? then Size(s') <= Size(s) + 1 else s'.pusher == s.pusher
  {
    var pc := s.pcs[t];
    if pc.ReadFind? {
    } else if pc.ReadGet? {
    } else if pc.ReadPoll? {
    } else if pc.ReadFlag? {
    } else if pc.ReadCount? {
    } else if pc.ReadLink? {
      assert s.pusher == Some(t);
    } else if pc.WriteMake? {
    } else if pc.WriteSlot? {
    } else if pc.WriteStore? {
    } else {
    }
  }

  lemma LoopCounts(s: State, h: Story)
    requires Counts(s, h) && !IsHandler(s.io) && !IsEntryTest(s.io) && !s.io.IoFree? && !IoBlocked(s)
    requires s.io.SweepPop? ==> s.io.i < Size(s)
    requires s.io.SweepFind? ==> s.io.k in s.recv
    ensures Counts(LoopStep(s), h)
  {
    if s.io.SweepTest? {
    } else if s.io.SweepPop? {
    } else if s.io.SweepFind? {
    } else {
    }
  }

  lemma EntryCounts(s: State, h: Story)
    requires Counts(s, h) && IsEntryTest(s.io)
    ensures Counts(EntryStep(s), Tell(h, s, Io))
  {
    if s.io.SweepExec? {
    } else if s.io.SweepErase? {
    } else if s.io.SweepState? {
    } else {
    }
  }

  lemma CountsStep(s: State, l: Label, h: Story)
    requires Sound(s) && Enabled(s, l) && Counts(s, h)
    ensures Counts(Step(s, l), Tell(h, s, l))
  {
    if l.Io? {
      assert Held(s.io).Some? ==> IdOk(s, Held(s.io).value);
      if IsHandler(s.io) {
        IoGoes(s);
      } else if IsEntryTest(s.io) {
        EntryCounts(s, h);
      } else {
        LoopCounts(s, h);
      }
    } else {
      OthersCount(s, l, h);
    }
  }

  lemma OthersCount(s: State, l: Label, h: Story)
    requires LockCoherent(s) && Enabled(s, l) && Counts(s, h) && !l.Io?
    ensures Counts(Step(s, l), Tell(h, s, l))
  {
    StaysIo(s, l);
    if l.App? {
      AppQueues(s, l.t);
    } else {
      assert Step(s, l).delq == s.delq && Step(s, l).pusher == s.pusher;
    }
  }

  // ---------------------------------------------------------------- who was marked

  /** Id k was marked by this sweep, or not yet by any. */
  ghost predicate Fresh(s: State, h: Story, k: int) {
    k in h.marked || Waits(s, k, EraseState)
  }

  /** The ids of the starting list come first, unmarked by this sweep; behind them are the ids that it marked
      or that were read since. */
  ghost predicate ListPlaced(s: State, h: Story) {
    InSweep(s.io) ==>
      forall p | 0 <= p < |s.delq| ::
        if p + Popped(s.io) < |h.start| then s.delq[p] !in h.marked else Fresh(s, h, s.delq[p])
  }

  ghost predicate HandPlaced(s: State, h: Story) {
    Held(s.io).Some? ==>
      if s.io.SweepPush? then s.io.k in h.marked
      else if s.io.i < |h.start| then s.io.k !in h.marked
      else Fresh(s, h, s.io.k)
  }

  lemma FreshStep(s: State, l: Label, h: Story, k: int)
    requires Sound(s) && Enabled(s, l) && ReadsOnce(s, l) && !l.SweepBegins? && Fresh(s, h, k)
    requires !(l.Io? && s.io.SweepErase? && s.io.k == k)
    ensures Fresh(Step(s, l), Tell(h, s, l), k)
  {
    if k !in Tell(h, s, l).marked {
      Leaves(s, l, k, EraseState);
    }
  }

  /** The sweep stays where it is; the list is kept, or a read puts its id behind it. */
  lemma OthersPlaced(s: State, l: Label, h: Story)
    requires Sound(s) && Enabled(s, l) && ReadsOnce(s, l) && !l.Io?
    requires Counts(s, h) && ListPlaced(s, h) && HandPlaced(s, h) && InSweep(s.io)
    ensures ListPlaced(Step(s, l), Tell(h, s, l)) && HandPlaced(Step(s, l), Tell(h, s, l))
  {
    var s' := Step(s, l);
    StaysIo(s, l);
    if l.App? {
      AppQueues(s, l.t);
    } else {
      assert s'.delq == s.delq;
    }
    forall p | 0 <= p < |s'.delq|
      ensures if p + Popped(s.io) < |h.start| then s'.delq[p] !in h.marked else Fresh(s', Tell(h, s, l), s'.delq[p])
    {
      if p == |s.delq| {
        Arrives(s, l.t);
      } else if p + Popped(s.io) >= |h.start| {
        FreshStep(s, l, h, s.delq[p]);
      }
    }
    if Held(s.io).Some? && !s.io.SweepPush? && s.io.i >= |h.start| {
      FreshStep(s, l, h, s.io.k);
    }
  }

  /** A read queues its id flagged CT_ERASE_STATE. */
  lemma Arrives(s: State, t: Tid)
    requires Sound(s) && Enabled(s, App(t)) && s.pcs[t].ReadLink?
    ensures Waits(Step(s, App(t)), s.pcs[t].id, EraseState)
  {
    assert PcOk(s, s.pcs[t]) && PcCoherent(s.objs, s.pcs[t]);
    ReaderFlag(s, App(t), t);
  }

  /** The loop's own steps shift the list and the hand together. */
  lemma LoopPlaced(s: State, h: Story)
    requires Counts(s, h) && ListPlaced(s, h) && HandPlaced(s, h)
    requires (s.io.SweepPop? && s.delq != []) || s.io.SweepPush?
    ensures ListPlaced(IoStep(s), h) && HandPlaced(IoStep(s), h)
  {
    var s' := IoStep(s);
    if s.io.SweepPop? {
      assert s' == s.(io := SweepFind(s.io.i, s.delq[0]), delq := s.delq[1..]);
      forall p | 0 <= p < |s'.delq|
        ensures if p + Popped(s'.io) < |h.start| then s'.delq[p] !in h.marked else Fresh(s', h, s'.delq[p])
      {
        assert s'.delq[p] == s.delq[p + 1];
        assert Fresh(s, h, s.delq[p + 1]) ==> Fresh(s', h, s.delq[p + 1]);
      }
      assert Fresh(s, h, s.delq[0]) ==> Fresh(s', h, s.delq[0]);
    } else {
      assert s' == s.(io := SweepTest(s.io.i + 1), delq := s.delq + [s.io.k]);
      forall p | 0 <= p < |s'.delq|
        ensures if p + Popped(s'.io) < |h.start| then s'.delq[p] !in h.marked else Fresh(s', h, s'.delq[p])
      {
        if p < |s.delq| {
          assert Fresh(s, h, s.delq[p]) ==> Fresh(s', h, s.delq[p]);
        }
      }
    }
  }

  /** The loop test and the tests of the held id. */
  lemma TestsPlaced(s: State, h: Story)
    requires Sound(s) && ListPlaced(s, h) && HandPlaced(s, h)
    requires s.io.SweepTest? || s.io.SweepFind? || s.io.SweepExec? || s.io.SweepState?
    ensures ListPlaced(IoStep(s), h) && HandPlaced(IoStep(s), h)
  {
    var s' := IoStep(s);
    if s.io.SweepTest? {
      assert s' == s.(io := if s.io.i < Size(s) then SweepPop(s.io.i) else IoFree);
    } else {
      assert PhaseIs(s, s.io.k, Deleting);
      SweepTurns(s);
    }
    assert forall k | Fresh(s, h, k) :: Fresh(s', h, k);
  }

  /** The mark puts the held id among the marked, the erase lets it go. */
  lemma EndsPlaced(s: State, h: Story)
    requires Sound(s) && Enabled(s, Io) && ListPlaced(s, h) && HandPlaced(s, h) && (s.io.SweepMark? || s.io.SweepErase?)
    ensures ListPlaced(IoStep(s), Tell(h, s, Io)) && HandPlaced(IoStep(s), Tell(h, s, Io))
  {
    var s', h' := IoStep(s), Tell(h, s, Io);
    EndTurns(s);
    forall p | 0 <= p < |s'.delq|
      ensures if p + Popped(s'.io) < |h'.start| then s'.delq[p] !in h'.marked else Fresh(s', h', s'.delq[p])
    {
      assert s.delq[p] != s.io.k;
      if Fresh(s, h, s.delq[p]) {
        FreshStep(s, Io, h, s.delq[p]);
      }
    }
  }

  lemma EndTurns(s: State)
    requires Sound(s) && (s.io.SweepMark? || s.io.SweepErase?)
    ensures IoStep(s).io == (if s.io.SweepMark? then SweepPush(s.io.i, s.io.k) else SweepTest(s.io.i + 1))
        && IoStep(s).delq == s.delq
  {
    if s.io.SweepMark? {
      MarkStep(s);
    } else {
    }
  }

  // ---------------------------------------------------------------- whole runs

  ghost predicate Placed(s: State, h: Story) {
    Counts(s, h) && ListPlaced(s, h) && HandPlaced(s, h)
  }

  lemma NoSweep(s: State, h: Story)
    requires !InSweep(s.io)
    ensures ListPlaced(s, h) && HandPlaced(s, h)
  {
  }

  lemma IoPlaced(s: State, h: Story)
    requires Sound(s) && Enabled(s, Io) && Placed(s, h)
    ensures ListPlaced(IoStep(s), Tell(h, s, Io)) && HandPlaced(IoStep(s), Tell(h, s, Io))
  {
    if IsHandler(s.io) {
      IoGoes(s);
      NoSweep(IoStep(s), h);
    } else if s.io.SweepMark? || s.io.SweepErase? {
      EndsPlaced(s, h);
    } else if s.io.SweepPush? || (s.io.SweepPop? && s.delq != []) {
      LoopPlaced(s, h);
    } else if s.io.SweepPop? {
      assert IoStep(s) == Crash(s);
    } else {
      TestsPlaced(s, h);
    }
  }

  lemma PlacedStep(s: State, l: Label, h: Story)
    requires Sound(s) && Enabled(s, l) && ReadsOnce(s, l) && Placed(s, h)
    ensures Placed(Step(s, l), Tell(h, s, l))
  {
    CountsStep(s, l, h);
    if l.Io? {
      IoPlaced(s, h);
    } else if InSweep(s.io) {
      OthersPlaced(s, l, h);
    } else {
      StartPlaced(s, l, h);
    }
  }

  lemma StartPlaced(s: State, l: Label, h: Story)
    requires Enabled(s, l) && !l.Io? && !InSweep(s.io)
    ensures ListPlaced(Step(s, l), Tell(h, s, l)) && HandPlaced(Step(s, l), Tell(h, s, l))
  {
    StaysIo(s, l);
    if !l.SweepBegins? {
      assert !InSweep(Step(s, l).io);
      NoSweep(Step(s, l), Tell(h, s, l));
    }
  }

  lemma {:induction false} RunPlaced(s0: State, ls: seq<Label>)
    requires Init(s0) && After(s0, ls).Some? && OnceRun(s0, ls)
    ensures Sound(After(s0, ls).value) && Placed(After(s0, ls).value, StoryOf(s0, ls))
  {
    RunSound(s0, ls);
    if ls != [] {
      RunPlaced(s0, ls[..|ls| - 1]);
      PlacedStep(After(s0, ls[..|ls| - 1]).value, Last(ls), StoryOf(s0, ls[..|ls| - 1]));
    }
  }

  /** Over every run within the contract: the id that visit i of a sweep erases was marked by the same sweep if
      and only if the list held no more than i ids when the sweep began; and then a read was queueing meanwhile. */
  lemma MarkedInThisSweep(s0: State, ls: seq<Label>)
    requires Init(s0) && After(s0, ls).Some? && OnceRun(s0, ls) && After(s0, ls).value.io.SweepErase?
    ensures var io, h := After(s0, ls).value.io, StoryOf(s0, ls);
            && (io.k in h.marked <==> io.i >= |h.start|)
            && (io.k in h.marked ==> h.arrived > 0)
  {
    RunPlaced(s0, ls);
  }

  // ---------------------------------------------------------------- a run

  /** Two requests are written and time out, and the first is read. */
  function FirstRead(t: Tid): seq<Label> {
    WriteAll(t) + WriteAll(t) + Timeout(0) + Timeout(1) + ReadAll(t, 1)
  }

  function TwoExpired(s0: State): State
    requires |s0.objs| == 0
  {
    Expired(Expired(Registered(Registered(s0)), 0), 1)
  }

  lemma TwoExpire(s0: State, t: Tid)
    requires Init(s0) && t in s0.pcs
    ensures Leads(s0, WriteAll(t) + WriteAll(t) + Timeout(0) + Timeout(1), TwoExpired(s0))
    ensures TwoExpired(s0).objs == [Entry(1, TimedOut, NoFlag, Spent), Entry(2, TimedOut, NoFlag, Spent)]
  {
    var s1 := Registered(s0);
    WriteRun(s0, t);
    var s2 := Registered(s1);
    WriteRun(s1, t);
    LeadsOn(s0, WriteAll(t), s1, WriteAll(t), s2);
    var s3 := Expired(s2, 0);
    TimeoutRun(s2, 0);
    LeadsOn(s0, WriteAll(t) + WriteAll(t), s2, Timeout(0), s3);
    TimeoutRun(s3, 1);
    LeadsOn(s0, WriteAll(t) + WriteAll(t) + Timeout(0), s3, Timeout(1), Expired(s3, 1));
  }

  /** ... the sweep marks id 1, a read of id 2 queues, and the sweep comes round to id 1. */
  function Round(t: Tid): seq<Label> {
    Ios(4) + Ios(3) + ReadAll(t, 2) + Ios(4)
  }

  /** Both answered, id 1 read. */
  ghost predicate OneRead(s: State, t: Tid) {
    && Idle(s, t) && s.io == SweepTest(0) && s.delq == [1] && s.pusher.None? && PhaseIs(s, 2, Written)
    && 1 in s.recv && s.recv[1] == Some(0) && 2 in s.recv && s.recv[2] == Some(1) && |s.objs| == 2
    && s.objs[0].flag.EraseState? && s.objs[1].reqId == 2 && !s.objs[1].status.Waiting?
  }

  /** ... in the sweep's hand. */
  function OneHeld(s: State): State {
    s.(io := SweepState(0, 1), delq := [])
  }

  lemma RoundOpens(s: State, t: Tid)
    requires OneRead(s, t)
    ensures Leads(s, Ios(4), OneHeld(s))
  {
    assert s.delq[1..] == [];
    VisitBegins(s, 0, 1, 0);
  }

  lemma RoundHalf(s: State, t: Tid)
    requires OneRead(s, t)
    ensures Leads(s, Ios(4) + Ios(3), MarkedBack(OneHeld(s), 0, 1, 0))
  {
    RoundOpens(s, t);
    VisitMarks(OneHeld(s), 0, 1, 0);
    LeadsOn(s, Ios(4), OneHeld(s), Ios(3), MarkedBack(OneHeld(s), 0, 1, 0));
  }

  lemma RoundRun(s: State, t: Tid) returns (s': State)
    requires OneRead(s, t)
    ensures Leads(s, Round(t), s') && s'.io == SweepErase(1, 1)
  {
    RoundHalf(s, t);
    var m := MarkedBack(OneHeld(s), 0, 1, 0);
    ReadRun(m, t, 2, 1);
    var r := Queueing(m, 2, 1);
    LeadsOn(s, Ios(4) + Ios(3), m, ReadAll(t, 2), r);
    VisitBegins(r, 1, 1, 0);
    s' := r.(io := SweepErase(1, 1), delq := r.delq[1..]);
    LeadsOn(s, Ios(4) + Ios(3) + ReadAll(t, 2), r, Ios(4), s');
  }

  lemma {:induction false} StartKept(s0: State, ls: seq<Label>, more: seq<Label>)
    requires forall i | 0 <= i < |more| :: !more[i].SweepBegins?
    ensures StoryOf(s0, ls + more).start == StoryOf(s0, ls).start
    decreases |more|
  {
    if more == [] {
      assert ls + more == ls;
    } else {
      assert (ls + more)[..|ls + more| - 1] == ls + more[..|more| - 1];
      StartKept(s0, ls, more[..|more| - 1]);
    }
  }

  lemma StartIs(s0: State, ls: seq<Label>)
    requires After(s0, ls).Some?
    ensures StoryOf(s0, ls + [SweepBegins]).start == After(s0, ls).value.delq
  {
    assert (ls + [SweepBegins])[..|ls|] == ls;
  }

  lemma RoundHasNoStart(t: Tid)
    ensures forall i | 0 <= i < |Round(t)| :: !Round(t)[i].SweepBegins?
  {
    var ls := Round(t);
    forall i | 0 <= i < |ls| ensures !ls[i].SweepBegins? {
      assert ls[i] in Ios(4) || ls[i] in Ios(3) || ls[i] in ReadHalf(t, 2);
    }
  }

  lemma ReadBegins(s0: State, t: Tid) returns (s: State)
    requires Init(s0) && t in s0.pcs
    ensures Leads(s0, FirstRead(t), s.(io := IoFree)) && Leads(s0, FirstRead(t) + [SweepBegins], s) && OneRead(s, t)
  {
    TwoExpire(s0, t);
    var m := TwoExpired(s0);
    ReadRun(m, t, 1, 0);
    var r := Queueing(m, 1, 0);
    LeadsOn(s0, WriteAll(t) + WriteAll(t) + Timeout(0) + Timeout(1), m, ReadAll(t, 1), r);
    s := r.(io := SweepTest(0));
    One(r, SweepBegins);
    LeadsOn(s0, FirstRead(t), r, [SweepBegins], s);
  }

  /** From the start state, within the contract: a sweep that began with id 1 alone is about to erase it,
      having marked it itself, because a read of id 2 queued meanwhile. */
  lemma ErasesItsOwnMark(s0: State, t: Tid)
    requires Init(s0) && t in s0.pcs
    ensures var ls := FirstRead(t) + [SweepBegins] + Round(t);
            && After(s0, ls).Some? && OnceRun(s0, ls) && After(s0, ls).value.io == SweepErase(1, 1)
            && StoryOf(s0, ls).start == [1] && 1 in StoryOf(s0, ls).marked
  {
    var s := ReadBegins(s0, t);
    StartIs(s0, FirstRead(t));
    var s' := RoundRun(s, t);
    LeadsOn(s0, FirstRead(t) + [SweepBegins], s, Round(t), s');
    RoundHasNoStart(t);
    StartKept(s0, FirstRead(t) + [SweepBegins], Round(t));
    MarkedInThisSweep(s0, FirstRead(t) + [SweepBegins] + Round(t));
  }
}
