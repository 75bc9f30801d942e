/**
 What runs within the contract keep for the sweep: nobody but the sweep touches a queued id, and every
 queued id is flagged.
 */
module ClientFlags {
  import opened Prelude
  import opened ClientSteps
  import opened ClientFrames
  import opened ClientErase
  import opened ClientMap
  import opened ClientRuns
  import opened ClientCrash

  /** Entry o has flag f. */
  ghost predicate EntryFlag(s: State, o: Obj, f: Flag) {
    o < |s.objs| && s.objs[o].flag == f
  }

  /** The entry of id k has flag f. */
  ghost predicate FlagIs(s: State, k: int, f: Flag) {
    Present(s, k) && EntryFlag(s, s.recv[k].value, f)
  }

  // ---------------------------------------------------------------- who changes a flag

  lemma OtherFlag(s: State, l: Label, o: Obj)
    requires Enabled(s, l) && o < |s.objs| && !l.App? && !l.Io?
    ensures EntryFlag(Step(s, l), o, s.objs[o].flag)
  {
  }

  // ---------------------------------------------------------------- queued ids are left alone

  /** Id k waits to be erased and its entry has flag f. */
  ghost predicate Waits(s: State, k: int, f: Flag) {
    PhaseIs(s, k, Deleting) && FlagIs(s, k, f)
  }

  lemma AppLeaves(s: State, t: Tid, k: int, f: Flag)
    requires Owned(s) && Coherent(s) && Enabled(s, App(t)) && Waits(s, k, f)
    ensures Waits(AppStep(s, t), k, f)
  {
    assert PcOk(s, s.pcs[t]) && PcCoherent(s.objs, s.pcs[t]) && Names(s.objs, s.recv[k].value, k);
    if IsRead(s.pcs[t]) {
      ReadMove(s, t);
    } else {
      WriteMove(s, t);
    }
    assert SameAt(s, AppStep(s, t), k);
    AppTouches(s, t, s.recv[k].value);
  }

  /** The sweep is dealing with id k, in a step that changes it. */
  ghost predicate Changes(s: State, l: Label, k: int) {
    l.Io? && (s.io.SweepMark? || s.io.SweepErase?) && s.io.k == k
  }

  lemma IoLeaves(s: State, k: int, f: Flag)
    requires Owned(s) && Coherent(s) && Enabled(s, Io) && Waits(s, k, f) && !Changes(s, Io, k)
    ensures Waits(IoStep(s), k, f)
  {
    assert Names(s.objs, s.recv[k].value, k);
    if s.io.SweepErase? {
    } else {
      IoMove(s, Io);
      if s.io.SweepMark? && Deref(s, s.io.k).Some? {
        assert Names(s.objs, s.recv[s.io.k].value, s.io.k);
      }
    }
    IoTouches(s, s.recv[k].value);
  }

  /** No step but the sweep's mark or erase of k changes an id that is being deleted. */
  lemma Leaves(s: State, l: Label, k: int, f: Flag)
    requires Owned(s) && Coherent(s) && Enabled(s, l) && ReadsOnce(s, l)
    requires Waits(s, k, f) && !Changes(s, l, k)
    ensures Waits(Step(s, l), k, f)
  {
    if l.App? {
      AppLeaves(s, l.t, k, f);
    } else if l.Io? {
      IoLeaves(s, k, f);
    } else {
      OtherFlag(s, l, s.recv[k].value);
      if l.BeginWrite? || l.BeginRead? {
      } else {
        IoMove(s, l);
      }
    }
  }

  // ---------------------------------------------------------------- queued ids are flagged

  /** The io thread runs erase_msg_timer. */
  ghost predicate InSweep(io: IoPc) {
    !io.IoFree? && !IsHandler(io)
  }

  ghost predicate HasFlag(s: State, k: int) {
    FlagIs(s, k, EraseState) || FlagIs(s, k, EraseExec)
  }

  /** Readers about to queue have flagged their entry CT_ERASE_STATE. */
  ghost predicate ReadersSet(s: State) {
    forall t | t in s.pcs && (s.pcs[t].ReadCount? || s.pcs[t].ReadLink?) :: EntryFlag(s, s.pcs[t].o, EraseState)
  }

  /** Every id being deleted has its entry flagged. */
  ghost predicate DeletingSet(s: State) {
    forall k | PhaseIs(s, k, Deleting) :: HasFlag(s, k)
  }

  /** Where the sweep stands with the id it holds says what its flag is. */
  ghost predicate HeldSet(s: State) {
    && (s.io.SweepErase? || s.io.SweepPush? ==> FlagIs(s, s.io.k, EraseExec))
    && (s.io.SweepState? || s.io.SweepMark? ==> FlagIs(s, s.io.k, EraseState))
  }

  ghost predicate FlagsSet(s: State) {
    ReadersSet(s) && DeletingSet(s) && HeldSet(s)
  }

  lemma ReaderFlag(s: State, l: Label, t: Tid)
    requires Owned(s) && Coherent(s) && Enabled(s, l) && t in s.pcs && (s.pcs[t].ReadCount? || s.pcs[t].ReadLink?)
    requires EntryFlag(s, s.pcs[t].o, EraseState)
    ensures EntryFlag(Step(s, l), s.pcs[t].o, EraseState)
  {
    var o := s.pcs[t].o;
    assert PcOk(s, s.pcs[t]) && PcCoherent(s.objs, s.pcs[t]);
    if l.App? {
      if s.pcs[l.t].ReadFlag? && s.pcs[l.t].o == o {
        assert PcCoherent(s.objs, s.pcs[l.t]);
      } else {
        AppTouches(s, l.t, o);
      }
    } else if l.Io? {
      assert s.io.SweepMark? ==> PhaseIs(s, s.io.k, Deleting);
      assert s.io.SweepMark? && Deref(s, s.io.k).Some? ==> Names(s.objs, s.recv[s.io.k].value, s.io.k);
      IoTouches(s, o);
    } else {
      OtherFlag(s, l, o);
    }
  }

  /** The readers after a step: those before it, and one that has just set its flag. */
  lemma ReadersStep(s: State, l: Label)
    requires Owned(s) && Coherent(s) && Enabled(s, l) && ReadersSet(s)
    ensures ReadersSet(Step(s, l))
  {
    var s' := Step(s, l);
    forall t | t in s'.pcs && (s'.pcs[t].ReadCount? || s'.pcs[t].ReadLink?)
      ensures EntryFlag(s', s'.pcs[t].o, EraseState) {
      ReaderWas(s, l, t);
      if s.pcs[t].ReadCount? || s.pcs[t].ReadLink? {
        ReaderFlag(s, l, t);
      }
    }
  }

  lemma ReaderWas(s: State, l: Label, t: Tid)
    requires Enabled(s, l) && (l.App? ==> PcCoherent(s.objs, s.pcs[l.t]))
    requires t in Step(s, l).pcs && (Step(s, l).pcs[t].ReadCount? || Step(s, l).pcs[t].ReadLink?)
    ensures t in s.pcs
    ensures ((s.pcs[t].ReadCount? || s.pcs[t].ReadLink?) && s.pcs[t].o == Step(s, l).pcs[t].o)
            || EntryFlag(Step(s, l), Step(s, l).pcs[t].o, EraseState)
  {
    if l.App? {
      AppFrame(s, l.t);
      if t == l.t {
        OwnFlag(s, t);
      }
    } else if l.Io? {
      IoFrame(s);
    }
  }

  lemma OwnFlag(s: State, t: Tid)
    requires t in s.pcs && PcCoherent(s.objs, s.pcs[t])
    requires t in AppStep(s, t).pcs && (AppStep(s, t).pcs[t].ReadCount? || AppStep(s, t).pcs[t].ReadLink?)
    ensures ((s.pcs[t].ReadCount? || s.pcs[t].ReadLink?) && s.pcs[t].o == AppStep(s, t).pcs[t].o)
            || EntryFlag(AppStep(s, t), AppStep(s, t).pcs[t].o, EraseState)
  {
    var pc := s.pcs[t];
    if pc.ReadFind? {
    } else if pc.ReadGet? {
    } else if pc.ReadPoll? {
    } else if pc.ReadFlag? {
    } else if pc.ReadCount? {
    } else if pc.ReadLink? {
    } else if pc.WriteMake? {
    } else if pc.WriteSlot? {
    } else if pc.WriteStore? {
    } else if pc.WriteArm? {
    } else {
    }
  }

  lemma MarkStep(s: State)
    requires Coherent(s) && s.io.SweepMark? && FlagIs(s, s.io.k, EraseState)
    ensures IoStep(s) == Log(SetFlag(s, s.recv[s.io.k].value, EraseExec), Marked(s.io.k)).(io := SweepPush(s.io.i,
        s.io.k))
    ensures FlagIs(IoStep(s), s.io.k, EraseExec)
  {
  }

  /** An id starts being deleted only when its reader links it. */
  lemma StartsDeleting(s: State, l: Label, k: int)
    requires Owned(s) && Coherent(s) && Enabled(s, l) && ReadsOnce(s, l)
    requires PhaseIs(Step(s, l), k, Deleting) && !PhaseIs(s, k, Deleting)
    ensures l.App? && s.pcs[l.t].ReadLink? && s.pcs[l.t].k == k && Step(s, l).recv == s.recv
  {
    if l.App? {
      assert PcOk(s, s.pcs[l.t]) && PcCoherent(s.objs, s.pcs[l.t]);
      AppDeletes(s, l.t, k);
    } else if l.BeginWrite? || l.BeginRead? {
    } else if l.Io? && s.io.SweepErase? {
    } else {
      IoMove(s, l);
    }
  }

  lemma AppDeletes(s: State, t: Tid, k: int)
    requires t in s.pcs && PcCoherent(s.objs, s.pcs[t]) && PhaseIs(AppStep(s, t), k, Deleting)
        && !PhaseIs(s, k, Deleting)
    ensures s.pcs[t].ReadLink? && s.pcs[t].k == k && AppStep(s, t).recv == s.recv
  {
    var pc := s.pcs[t];
    if pc.ReadFind? {
    } else if pc.ReadGet? {
    } else if pc.ReadPoll? {
    } else if pc.ReadFlag? {
    } else if pc.ReadCount? {
    } else if pc.ReadLink? {
    } else if pc.WriteMake? {
    } else if pc.WriteSlot? {
    } else if pc.WriteStore? {
    } else if pc.WriteArm? {
    } else {
    }
  }

  lemma DeletingStep(s: State, l: Label)
    requires Owned(s) && Coherent(s) && Enabled(s, l) && ReadsOnce(s, l) && FlagsSet(s)
    ensures DeletingSet(Step(s, l))
  {
    var s' := Step(s, l);
    forall k | PhaseIs(s', k, Deleting) ensures HasFlag(s', k) {
      if !PhaseIs(s, k, Deleting) {
        StartsDeleting(s, l, k);
        assert PcOk(s, s.pcs[l.t]);
        ReaderFlag(s, l, l.t);
      } else if !Changes(s, l, k) {
        if FlagIs(s, k, EraseState) {
          Leaves(s, l, k, EraseState);
        } else {
          Leaves(s, l, k, EraseExec);
        }
      } else if s.io.SweepMark? {
        MarkStep(s);
      }
    }
  }

  /** What the sweep does next with the id it holds. */
  lemma SweepTurns(s: State)
    requires (s.io.SweepFind? || s.io.SweepExec? || s.io.SweepState?) && HasFlag(s, s.io.k)
    requires s.io.SweepState? ==> FlagIs(s, s.io.k, EraseState)
    ensures var s' := IoStep(s);
            && s'.objs == s.objs && s'.recv == s.recv && s'.delq == s.delq && s'.phase == s.phase
            && Held(s'.io) == Held(s.io) && InSweep(s'.io) && s'.io.i == s.io.i && !s'.io.SweepPush?
            && HeldSet(s')
  {
    if s.io.SweepFind? {
    } else if s.io.SweepExec? {
    } else {
    }
  }

  /** The other steps of the io thread end with no id in a state that says what its flag is. */
  lemma OtherTurns(s: State)
    requires !s.io.SweepFind? && !IsEntryTest(s.io)
    ensures HeldSet(IoStep(s)) || IoStep(s) == s
  {
    if s.io.HeadFind? {
    } else if s.io.HeadSet? {
    } else if s.io.HeadRead? {
    } else if s.io.SetStatus? {
    } else if s.io.SweepTest? {
    } else if s.io.SweepPop? {
    } else if s.io.SweepPush? {
    } else {
    }
  }

  lemma HeldStep(s: State, l: Label)
    requires Owned(s) && Coherent(s) && Enabled(s, l) && ReadsOnce(s, l) && FlagsSet(s)
    ensures HeldSet(Step(s, l))
  {
    var s' := Step(s, l);
    if l.Io? {
      if s.io.SweepMark? {
        MarkStep(s);
      } else if s.io.SweepErase? {
      } else if s.io.SweepFind? || IsEntryTest(s.io) {
        assert PhaseIs(s, s.io.k, Deleting);
        SweepTurns(s);
      } else {
        OtherTurns(s);
      }
    } else {
      StaysIo(s, l);
      if s'.io.SweepErase? || s'.io.SweepPush? {
        Leaves(s, l, s.io.k, EraseExec);
      } else if s'.io.SweepState? || s'.io.SweepMark? {
        Leaves(s, l, s.io.k, EraseState);
      }
    }
  }

  /** Only its own steps move a sweep. */
  lemma StaysIo(s: State, l: Label)
    requires Enabled(s, l) && !l.Io?
    ensures Step(s, l).io == s.io || (s.io.IoFree? && (IsHandler(Step(s, l).io) || Step(s, l).io == SweepTest(0)))
  {
    if l.App? {
      AppFrame(s, l.t);
    }
  }

  lemma FlagsSetStep(s: State, l: Label)
    requires Owned(s) && Coherent(s) && Enabled(s, l) && ReadsOnce(s, l) && FlagsSet(s)
    ensures FlagsSet(Step(s, l))
  {
    ReadersStep(s, l);
    DeletingStep(s, l);
    HeldStep(s, l);
  }

  // ---------------------------------------------------------------- whole runs

  /** Everything that runs within the contract keep. */
  ghost predicate Sound(s: State) {
    Owned(s) && Coherent(s) && FlagsSet(s)
  }

  lemma SoundStep(s: State, l: Label)
    requires Sound(s) && Enabled(s, l) && ReadsOnce(s, l)
    ensures Sound(Step(s, l))
  {
    OwnedStep(s, l);
    CoherentStep(s, l);
    FlagsSetStep(s, l);
  }

  lemma {:induction false} RunSound(s0: State, ls: seq<Label>)
    requires Init(s0) && After(s0, ls).Some? && OnceRun(s0, ls)
    ensures Sound(After(s0, ls).value)
  {
    RunOwned(s0, ls);
    if ls != [] {
      RunSound(s0, ls[..|ls| - 1]);
      FlagsSetStep(After(s0, ls[..|ls| - 1]).value, Last(ls));
    }
  }
}
