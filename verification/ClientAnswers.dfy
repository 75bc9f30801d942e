/**
 A response is read and erased only once it is there: over every run, whoever is past the polling loop of
 read(), whatever is flagged and whatever a sweep erases has a terminal status.
 */
module ClientAnswers {
  import opened Prelude
  import opened ClientSteps
  import opened ClientFrames
  import opened ClientErase
  import opened ClientTimers
  import opened ClientMap
  import opened ClientCrash

  // ---------------------------------------------------------------- the polling loop

  /** A thread that polls a live entry leaves its loop if and only if the status is terminal, and then it has
      seen it; otherwise nothing changes. */
  lemma PollExactly(s: State, t: Tid, k: int, o: Obj)
    requires Enabled(s, App(t)) && s.pcs[t] == ReadPoll(k, Some(o)) && o < |s.objs|
    ensures var s' := Step(s, App(t));
            && t in s'.pcs && (s'.pcs[t] != s.pcs[t] <==> Terminal(s.objs[o]))
            && (Terminal(s.objs[o]) ==> s'.pcs[t] == ReadFlag(k, o) && s'.log == s.log + [Saw(k)])
            && (!Terminal(s.objs[o]) ==> s' == s)
  {
  }

  /** A read of an id that is not in the map returns at once; of one that is, it goes on to poll its entry. */
  lemma FindExactly(s: State, t: Tid, k: int)
    requires Enabled(s, App(t)) && s.pcs[t] == ReadFind(k)
    ensures var s' := Step(s, App(t));
            && t in s'.pcs && (k !in s.recv ==> s'.pcs[t] == AppIdle)
            && (k in s.recv ==> s'.pcs[t] == ReadGet(k) && Enabled(s', App(t)) && t in Step(s', App(t)).pcs
                                && Step(s', App(t)).pcs[t] == ReadPoll(k, s.recv[k]))
  {
  }

  // ---------------------------------------------------------------- every id is stored once

  /** A writer that has not stored its entry is the only one for its id, and nothing is stored there yet. */
  ghost predicate Sole(s: State) {
    && (forall k | Present(s, k) :: k < s.nextId)
    && (forall t, k | Registering(s, t, k) :: k < s.nextId && !Present(s, k))
    && (forall t, u, k | Registering(s, t, k) && Registering(s, u, k) :: t == u)
  }

  lemma RegisteringWas(s: State, l: Label, t: Tid, k: int)
    requires Enabled(s, l) && Registering(Step(s, l), t, k)
    ensures Registering(s, t, k) || (l == BeginWrite(t) && k == s.nextId)
  {
    if l.App? {
      AppFrame(s, l.t);
      if t == l.t {
        OwnRegistering(s, t, k);
      }
    } else if l.Io? {
      IoFrame(s);
    }
  }

  lemma OwnRegistering(s: State, t: Tid, k: int)
    requires t in s.pcs && Registering(AppStep(s, t), t, k)
    ensures Registering(s, t, k) && AppStep(s, t).recv.Keys >= s.recv.Keys
    ensures forall j | Present(AppStep(s, t), j) :: Present(s, j)
  {
    var pc := s.pcs[t];
    if pc.ReadFind? {
    } else if pc.ReadGet? {
    } else if pc.ReadPoll? {
    } else if pc.ReadFlag? {
    } else if pc.ReadCount? {
    } else if pc.ReadLink? {
    } else if pc.WriteMake? {
    } else if pc.WriteSlot? {
    } else if pc.WriteStore? {
    } else if pc.WriteArm? {
    } else {
    }
  }

  /** A stored id was stored before, or its writer has just stored it. */
  lemma PresentWas(s: State, l: Label, k: int)
    requires Enabled(s, l) && Present(Step(s, l), k)
    ensures (Present(s, k) && s.recv[k] == Step(s, l).recv[k])
            || (l.App? && Registering(s, l.t, k) && !Registering(Step(s, l), l.t, k))
  {
    StoredBy(s, l, k);
    if l.App? && Arming(Step(s, l), l.t, k, Step(s, l).recv[k].value) {
      ArmingWas(s, l.t, k);
    }
  }

  lemma ArmingWas(s: State, t: Tid, k: int)
    requires t in s.pcs && Present(AppStep(s, t), k) && Arming(AppStep(s, t), t, k, AppStep(s, t).recv[k].value)
    ensures (Registering(s, t, k) && !Registering(AppStep(s, t), t, k)) || AppStep(s, t).recv == s.recv
  {
    var pc := s.pcs[t];
    if pc.ReadFind? {
    } else if pc.ReadGet? {
    } else if pc.ReadPoll? {
    } else if pc.ReadFlag? {
    } else if pc.ReadCount? {
    } else if pc.ReadLink? {
    } else if pc.WriteMake? {
    } else if pc.WriteSlot? {
    } else if pc.WriteStore? {
    } else if pc.WriteArm? {
    } else {
    }
  }

  lemma NextIdGrows(s: State, l: Label)
    requires Enabled(s, l)
    ensures s.nextId <= Step(s, l).nextId && (l.BeginWrite? ==> Step(s, l).nextId == s.nextId + 1)
  {
    if l.App? {
      AppFrame(s, l.t);
    } else if l.Io? {
      IoFrame(s);
    }
  }

  lemma SoleStep(s: State, l: Label)
    requires Sole(s) && Enabled(s, l)
    ensures Sole(Step(s, l))
  {
    var s' := Step(s, l);
    NextIdGrows(s, l);
    forall k | Present(s', k) ensures k < s'.nextId {
      PresentWas(s, l, k);
    }
    forall t, k | Registering(s', t, k) ensures k < s'.nextId && !Present(s', k) {
      RegisteringWas(s, l, t, k);
      if Present(s', k) {
        PresentWas(s, l, k);
      }
    }
    forall t, u, k | Registering(s', t, k) && Registering(s', u, k) ensures t == u {
      RegisteringWas(s, l, t, k);
      RegisteringWas(s, l, u, k);
    }
  }

  // ---------------------------------------------------------------- terminal statuses

  ghost predicate PastLoop(pc: AppPc) {
    pc.ReadFlag? || pc.ReadCount? || pc.ReadLink?
  }

  ghost predicate TerminalAt(s: State, o: Obj) {
    o < |s.objs| && Terminal(s.objs[o])
  }

  ghost predicate FlaggedAt(s: State, o: Obj) {
    o < |s.objs| && !s.objs[o].flag.NoFlag?
  }

  /** Readers past their loop and flagged entries are terminal; what the sweep is about to mark or erase is
      stored and flagged. */
  ghost predicate Answered(s: State) {
    && (forall t | t in s.pcs && PastLoop(s.pcs[t]) :: TerminalAt(s, s.pcs[t].o))
    && (forall o | FlaggedAt(s, o) :: TerminalAt(s, o))
    && (s.io.SweepMark? || s.io.SweepErase? ==> Present(s, s.io.k) && FlaggedAt(s, s.recv[s.io.k].value))
  }

  lemma TerminalStays(s: State, l: Label, o: Obj)
    requires Enabled(s, l) && IoCoherent(s) && TerminalAt(s, o)
    ensures TerminalAt(Step(s, l), o)
  {
    StepEntry(s, l, o);
  }

  /** A flagged entry was flagged before, or a reader past its loop or a marking sweep has just flagged it. */
  lemma FlaggedWas(s: State, l: Label, o: Obj)
    requires Enabled(s, l) && FlaggedAt(Step(s, l), o)
    ensures FlaggedAt(s, o) || (l.App? && s.pcs[l.t].ReadFlag? && s.pcs[l.t].o == o)
            || (l.Io? && s.io.SweepMark? && Deref(s, s.io.k) == Some(o))
  {
    if l.App? {
      AppFrame(s, l.t);
      if o < |s.objs| {
        AppTouches(s, l.t, o);
      }
    } else if l.Io? {
      IoFrame(s);
      if o < |s.objs| {
        IoTouches(s, o);
      }
    }
  }

  lemma FlaggedStays(s: State, l: Label, o: Obj)
    requires Enabled(s, l) && FlaggedAt(s, o)
    ensures FlaggedAt(Step(s, l), o)
  {
    if l.App? {
      AppTouches(s, l.t, o);
    } else if l.Io? {
      IoTouches(s, o);
    }
  }

  lemma FlagsAnswered(s: State, l: Label)
    requires Coherent(s) && Answered(s) && Enabled(s, l)
    ensures forall o | FlaggedAt(Step(s, l), o) :: TerminalAt(Step(s, l), o)
  {
    forall o | FlaggedAt(Step(s, l), o) ensures TerminalAt(Step(s, l), o) {
      FlaggedWas(s, l, o);
      TerminalStays(s, l, o);
    }
  }

  /** A reader past its loop was there before, or has just seen a terminal status. */
  lemma PastLoopWas(s: State, t: Tid)
    requires t in s.pcs && t in AppStep(s, t).pcs
    ensures var pc, pc' := s.pcs[t], AppStep(s, t).pcs[t];
            PastLoop(pc') ==> (PastLoop(pc) && pc.o == pc'.o) || TerminalAt(s, pc'.o)
  {
    var pc := s.pcs[t];
    if pc.ReadFind? {
    } else if pc.ReadGet? {
    } else if pc.ReadPoll? {
    } else if pc.ReadFlag? {
    } else if pc.ReadCount? {
    } else if pc.ReadLink? {
    } else if pc.WriteMake? {
    } else if pc.WriteSlot? {
    } else if pc.WriteStore? {
    } else if pc.WriteArm? {
    } else {
    }
  }

  lemma ReadersAnswered(s: State, l: Label)
    requires Coherent(s) && Answered(s) && Enabled(s, l)
    ensures forall t | t in Step(s, l).pcs && PastLoop(Step(s, l).pcs[t]) :: TerminalAt(Step(s, l), Step(s, l).pcs[t].o)
  {
    var s' := Step(s, l);
    if l.App? {
      AppFrame(s, l.t);
    } else if l.Io? {
      IoFrame(s);
    }
    forall t | t in s'.pcs && PastLoop(s'.pcs[t]) ensures TerminalAt(s', s'.pcs[t].o) {
      if l.App? && t == l.t {
        PastLoopWas(s, t);
      }
      TerminalStays(s, l, s'.pcs[t].o);
    }
  }

  /** The sweep comes to its mark and its erase only from a test of the flag. */
  lemma SweepComes(s: State)
    requires !s.io.SweepExec? && !s.io.SweepState? && (s.io.SweepMark? ==> Deref(s, s.io.k).Some?)
    ensures !IoStep(s).io.SweepMark? && !IoStep(s).io.SweepErase?
  {
    if s.io.HeadFind? {
    } else if s.io.HeadSet? {
    } else if s.io.HeadRead? {
    } else if s.io.SetStatus? {
    } else if s.io.SweepTest? {
    } else if s.io.SweepPop? {
    } else if s.io.SweepFind? {
    } else if s.io.SweepPush? {
    } else if s.io.SweepErase? {
    } else if s.io.SweepMark? {
    } else {
    }
  }

  lemma SweepFinds(s: State)
    requires (s.io.SweepExec? || s.io.SweepState?) && (IoStep(s).io.SweepMark? || IoStep(s).io.SweepErase?)
    ensures var s' := IoStep(s); Present(s', s'.io.k) && FlaggedAt(s', s'.recv[s'.io.k].value)
  {
    if s.io.SweepExec? {
    } else {
    }
  }

  lemma PresentStays(s: State, l: Label, k: int)
    requires Sole(s) && Enabled(s, l) && !l.Io? && Present(s, k)
    ensures Present(Step(s, l), k) && Step(s, l).recv[k] == s.recv[k]
  {
    if l.App? {
      AppKeepsPointer(s, l.t, k);
    }
  }

  lemma AppKeepsPointer(s: State, t: Tid, k: int)
    requires t in s.pcs && Present(s, k) && !Registering(s, t, k)
    ensures Present(AppStep(s, t), k) && AppStep(s, t).recv[k] == s.recv[k]
  {
    var pc := s.pcs[t];
    if pc.ReadFind? {
    } else if pc.ReadGet? {
    } else if pc.ReadPoll? {
    } else if pc.ReadFlag? {
    } else if pc.ReadCount? {
    } else if pc.ReadLink? {
    } else if pc.WriteMake? {
    } else if pc.WriteSlot? {
    } else if pc.WriteStore? {
    } else if pc.WriteArm? {
    } else {
    }
  }

  lemma SweepAnswered(s: State, l: Label)
    requires Coherent(s) && Sole(s) && Answered(s) && Enabled(s, l)
    ensures var s' := Step(s, l);
            s'.io.SweepMark? || s'.io.SweepErase? ==> Present(s', s'.io.k) && FlaggedAt(s', s'.recv[s'.io.k].value)
  {
    var s' := Step(s, l);
    if s'.io.SweepMark? || s'.io.SweepErase? {
      if l.Io? {
        if s.io.SweepExec? || s.io.SweepState? {
          SweepFinds(s);
        } else {
          SweepComes(s);
        }
      } else {
        if l.App? {
          AppFrame(s, l.t);
        }
        PresentStays(s, l, s.io.k);
        FlaggedStays(s, l, s.recv[s.io.k].value);
      }
    }
  }

  // ---------------------------------------------------------------- whole runs

  lemma {:induction false} RunAnswered(s0: State, ls: seq<Label>)
    requires Init(s0) && After(s0, ls).Some?
    ensures Sole(After(s0, ls).value) && Answered(After(s0, ls).value)
  {
    if ls != [] {
      var s, l := After(s0, ls[..|ls| - 1]).value, Last(ls);
      RunAnswered(s0, ls[..|ls| - 1]);
      RunHistory(s0, ls[..|ls| - 1]);
      SoleStep(s, l);
      FlagsAnswered(s, l);
      ReadersAnswered(s, l);
      SweepAnswered(s, l);
    }
  }

  /** No response is erased unread: whichever step of whichever run takes id k out of the receive map, its entry
      has a terminal status, a read of k had seen one, then queued k, and then a sweep had marked it. */
  lemma NoUnreadErase(s0: State, ls: seq<Label>, l: Label, k: int)
    requires Init(s0) && After(s0, ls).Some? && Enabled(After(s0, ls).value, l)
    ensures var s, s' := After(s0, ls).value, Step(After(s0, ls).value, l);
            k in s.recv && k !in s'.recv ==>
              && Present(s, k) && TerminalAt(s, s.recv[k].value)
              && Doomed(s.log, k) && s'.log == s.log + [Erased(k)]
  {
    var s := After(s0, ls).value;
    RunHistory(s0, ls);
    RunAnswered(s0, ls);
    if k in s.recv && k !in Step(s, l).recv {
      RemovedByErase(s, l, k);
    }
  }
}
