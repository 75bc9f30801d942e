/** Every registered request reaches a terminal status or still has its timeout pending. */
module ClientTimers {
  import opened Prelude
  import opened ClientSteps
  import opened ClientFrames
  import opened ClientErase

  ghost predicate Terminal(e: Entry) {
    !e.status.Waiting?
  }

  /** A write() that has made entry o and not yet armed its timer. */
  ghost predicate Writes(pc: AppPc, o: Obj) {
    (pc.WriteSlot? || pc.WriteStore? || pc.WriteArm?) && pc.o == o
  }

  /** The io thread is between cancelling o's timer and writing its status. */
  ghost predicate Setting(io: IoPc, o: Obj) {
    io.SetStatus? && io.o == o
  }

  ghost predicate TimerOk(s: State, o: Obj)
    requires o < |s.objs|
  {
    s.objs[o].timer.Cancelled? || s.objs[o].timer.Spent? ==> Terminal(s.objs[o]) || Setting(s.io, o)
  }

  ghost predicate TimersOk(s: State) {
    forall o: Obj | o < |s.objs| :: TimerOk(s, o)
  }

  ghost predicate Arming(s: State, t: Tid, k: int, o: Obj) {
    t in s.pcs && s.pcs[t] == WriteArm(k, o)
  }

  /** A registered entry without a timer belongs to a newMsgBuf that has not completed. */
  ghost predicate Armed(s: State) {
    forall k | k in s.recv && s.recv[k].Some? && s.recv[k].value < |s.objs| && s.objs[s.recv[k].value].timer.Unset? ::
      exists t :: Arming(s, t, k, s.recv[k].value)
  }

  /** What one step does to the entry o. */
  ghost predicate EntryMove(s: State, s': State, o: Obj)
    requires o < |s.objs|
  {
    && o < |s'.objs|
    && (Terminal(s.objs[o]) ==> Terminal(s'.objs[o]))
    && (!s.objs[o].timer.Unset? ==> !s'.objs[o].timer.Unset?)
    && (TimerOk(s, o) ==> TimerOk(s', o))
  }

  lemma AppEntry(s: State, t: Tid, o: Obj)
    requires t in s.pcs && o < |s.objs|
    ensures EntryMove(s, AppStep(s, t), o)
  {
    AppFrame(s, t);
    AppTouches(s, t, o);
  }

  lemma EventEntry(s: State, l: Label, o: Obj)
    requires Enabled(s, l) && o < |s.objs| && !l.App? && !l.Io?
    ensures EntryMove(s, Step(s, l), o)
  {
    match l
    case BeginWrite(t) =>
    case BeginRead(t, k) =>
    case HeadArrives(_) =>
    case BodyDone(_) =>
    case BodyDropped =>
    case TimerExpires(_) =>
    case TimeoutRuns(_) =>
    case AbortRuns(_) =>
    case SweepBegins =>
  }

  /** No step leaves the terminal statuses, disarms an entry or loses its timeout. */
  lemma StepEntry(s: State, l: Label, o: Obj)
    requires Enabled(s, l) && o < |s.objs| && IoCoherent(s)
    ensures EntryMove(s, Step(s, l), o)
  {
    if l.App? {
      AppEntry(s, l.t, o);
    } else if !l.Io? {
      EventEntry(s, l, o);
    } else {
      IoTouches(s, o);
    }
  }

  lemma NewEntries(s: State, l: Label, o: Obj)
    requires Enabled(s, l) && |s.objs| <= o < |Step(s, l).objs|
    ensures Step(s, l).objs[o].timer.Unset?
  {
    if l.App? {
      AppFrame(s, l.t);
    } else if l.Io? {
      IoFrame(s);
    }
  }

  /** A pointer in the map after the step was there before, or its writer has just stored it. */
  lemma StoredBy(s: State, l: Label, k: int)
    requires Enabled(s, l) && k in Step(s, l).recv && Step(s, l).recv[k].Some?
    ensures (k in s.recv && s.recv[k] == Step(s, l).recv[k])
            || (l.App? && Arming(Step(s, l), l.t, k, Step(s, l).recv[k].value))
  {
    if l.App? {
      AppStores(s, l.t, k);
    } else if l.Io? && !s.io.SweepErase? {
      IoFrame(s);
    }
  }

  lemma AppStores(s: State, t: Tid, k: int)
    requires t in s.pcs && k in AppStep(s, t).recv && AppStep(s, t).recv[k].Some?
    ensures (k in s.recv && s.recv[k] == AppStep(s, t).recv[k])
            || Arming(AppStep(s, t), t, k, AppStep(s, t).recv[k].value)
  {
    if s.pcs[t].ReadFind? {
    } else if s.pcs[t].ReadGet? {
    } else if s.pcs[t].ReadPoll? {
    } else if s.pcs[t].ReadFlag? {
    } else if s.pcs[t].ReadCount? {
    } else if s.pcs[t].ReadLink? {
    } else if s.pcs[t].WriteMake? {
    } else if s.pcs[t].WriteSlot? {
    } else if s.pcs[t].WriteStore? {
    } else if s.pcs[t].WriteArm? {
    } else {
    }
  }

  lemma ArmingStep(s: State, l: Label, t: Tid, k: int, o: Obj)
    requires Enabled(s, l) && Arming(s, t, k, o) && o < |s.objs|
    ensures Arming(Step(s, l), t, k, o) || (o < |Step(s, l).objs| && !Step(s, l).objs[o].timer.Unset?)
  {
    if l.App? {
      AppFrame(s, l.t);
    } else if l.Io? {
      IoFrame(s);
    }
  }

  lemma TimersStep(s: State, l: Label)
    requires Coherent(s) && TimersOk(s) && Armed(s) && Enabled(s, l)
    ensures TimersOk(Step(s, l)) && Armed(Step(s, l))
  {
    var s' := Step(s, l);
    forall o: Obj | o < |s'.objs| ensures TimerOk(s', o) {
      if o < |s.objs| {
        StepEntry(s, l, o);
      } else {
        NewEntries(s, l, o);
      }
    }
    forall k | k in s'.recv && s'.recv[k].Some? && s'.recv[k].value < |s'.objs|
      && s'.objs[s'.recv[k].value].timer.Unset?
      ensures exists t :: Arming(s', t, k, s'.recv[k].value)
    {
      var o := s'.recv[k].value;
      StoredBy(s, l, k);
      if k in s.recv && s.recv[k] == Some(o) {
        assert Names(s.objs, o, k);
        StepEntry(s, l, o);
        var t :| Arming(s, t, k, o);
        ArmingStep(s, l, t, k, o);
      }
    }
  }

  lemma {:induction false} RunTimers(s0: State, ls: seq<Label>)
    requires Init(s0) && After(s0, ls).Some?
    ensures TimersOk(After(s0, ls).value) && Armed(After(s0, ls).value)
  {
    if ls != [] {
      var ls' := ls[..|ls| - 1];
      RunTimers(s0, ls');
      RunHistory(s0, ls');
      TimersStep(After(s0, ls').value, Last(ls));
    }
  }

  /** Once newMsgBuf has returned for the entry of id k, its status is terminal, its timeout is pending
      (running or about to be handled), or the io thread is writing its terminal status. */
  lemma TerminalOrPending(s0: State, ls: seq<Label>, k: int)
    requires Init(s0) && After(s0, ls).Some?
    requires var s := After(s0, ls).value;
             k in s.recv && s.recv[k].Some? && forall t :: !Arming(s, t, k, s.recv[k].value)
    ensures var s := After(s0, ls).value;
            var o := s.recv[k].value;
            && o < |s.objs|
            && (Terminal(s.objs[o]) || s.objs[o].timer.Armed? || s.objs[o].timer.Fired? || Setting(s.io, o))
  {
    RunTimers(s0, ls);
    RunHistory(s0, ls);
    var s := After(s0, ls).value;
    assert Names(s.objs, s.recv[k].value, k);
    assert TimerOk(s, s.recv[k].value);
  }

  /** Terminal is for ever, along every continuation of every run. */
  lemma {:induction false} TerminalAbsorbing(s0: State, ls: seq<Label>, more: seq<Label>, o: Obj)
    requires Init(s0) && After(s0, ls).Some? && After(After(s0, ls).value, more).Some?
    requires o < |After(s0, ls).value.objs| && Terminal(After(s0, ls).value.objs[o])
    ensures var s' := After(After(s0, ls).value, more).value; o < |s'.objs| && Terminal(s'.objs[o])
    decreases |more|
  {
    RunHistory(s0, ls);
    CoherentRun(After(s0, ls).value, more);
    if more != [] {
      var more' := more[..|more| - 1];
      TerminalAbsorbing(s0, ls, more', o);
      CoherentRun(After(s0, ls).value, more');
      StepEntry(After(After(s0, ls).value, more').value, Last(more), o);
    }
  }

  lemma {:induction false} CoherentRun(s: State, ls: seq<Label>)
    requires Coherent(s) && After(s, ls).Some?
    ensures Coherent(After(s, ls).value)
  {
    if ls != [] {
      CoherentRun(s, ls[..|ls| - 1]);
      CoherentStep(After(s, ls[..|ls| - 1]).value, Last(ls));
    }
  }
}
