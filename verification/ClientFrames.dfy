/** What one step of an application thread or of the io thread can change, for every program counter. */
module ClientFrames {
  import opened Prelude
  import opened ClientSteps

  /** An entry as it is made: waiting, not flagged, its timer not set. */
  ghost predicate IsNew(e: Entry) {
    e.status.Waiting? && e.flag.NoFlag? && e.timer.Unset?
  }

  /** At most one entry was made. */
  ghost predicate Added(s: State, s': State) {
    |s'.objs| == |s.objs| || (|s'.objs| == |s.objs| + 1 && IsNew(s'.objs[|s.objs|]))
  }

  /** Thread t moves; the io thread, the other threads and the id counter stay, and no key leaves the map. */
  lemma AppFrame(s: State, t: Tid)
    requires t in s.pcs
    ensures var s' := AppStep(s, t);
            && t in s'.pcs && s'.pcs == s.pcs[t := s'.pcs[t]]
            && s'.io == s.io && s'.reading == s.reading && s'.nextId == s.nextId
            && s.recv.Keys <= s'.recv.Keys && Added(s, s')
  {
    var pc := s.pcs[t];
    if pc.ReadFind? {
    } else if pc.ReadGet? {
    } else if pc.ReadPoll? {
      assert s.pcs[t := s.pcs[t]] == s.pcs;
    } else if pc.ReadFlag? {
    } else if pc.ReadCount? {
    } else if pc.ReadLink? {
    } else if pc.WriteMake? {
    } else if pc.WriteSlot? {
    } else if pc.WriteStore? {
    } else if pc.WriteArm? {
    } else {
      assert s.pcs[t := s.pcs[t]] == s.pcs;
    }
  }

  /** The io thread moved; threads, lock and id counter stayed, and only the sweep's erase changed the map. */
  ghost predicate IoFramed(s: State, s': State) {
    && s'.pcs == s.pcs && s'.pusher == s.pusher && s'.nextId == s.nextId
    && (!s.io.SweepErase? ==> s'.recv == s.recv) && Added(s, s')
  }

  lemma HandlerFrame(s: State)
    requires IsHandler(s.io)
    ensures IoFramed(s, HandlerStep(s))
  {
    if s.io.HeadFind? {
    } else if s.io.HeadSet? {
    } else if s.io.HeadRead? {
    } else {
    }
  }

  lemma LoopFrame(s: State)
    requires !IsHandler(s.io) && !IsEntryTest(s.io)
    ensures IoFramed(s, LoopStep(s))
  {
    if s.io.SweepTest? {
    } else if s.io.SweepPop? {
    } else if s.io.SweepFind? {
    } else if s.io.SweepPush? {
    } else {
    }
  }

  lemma EntryFrame(s: State)
    requires IsEntryTest(s.io)
    ensures IoFramed(s, EntryStep(s))
  {
    if s.io.SweepExec? {
    } else if s.io.SweepErase? {
    } else if s.io.SweepState? {
    } else {
    }
  }

  lemma IoFrame(s: State)
    ensures IoFramed(s, IoStep(s))
  {
    if IsHandler(s.io) {
      HandlerFrame(s);
    } else if IsEntryTest(s.io) {
      EntryFrame(s);
    } else {
      LoopFrame(s);
    }
  }

  /** Where the io thread can come to: a handler stays one until it ends, a sweep too. */
  lemma IoGoes(s: State)
    ensures var s' := IoStep(s);
            && (IsHandler(s.io) ==> s'.delq == s.delq && (s'.io.IoFree? || IsHandler(s'.io)))
            && (!IsHandler(s.io) ==> !IsHandler(s'.io))
            && (s'.io.HeadFind? || s'.io.HeadSet? ==> (s.io.HeadFind? || s.io.HeadSet?) && s'.io.k == s.io.k)
            && (s'.io.SweepPop? ==> s.io.SweepTest? || (s.io.SweepPop? && s' == Crash(s)))
  {
    if s.io.HeadFind? {
    } else if s.io.HeadSet? {
    } else if s.io.HeadRead? {
    } else if s.io.SetStatus? {
    } else if s.io.SweepTest? {
    } else if s.io.SweepPop? {
    } else if s.io.SweepFind? {
    } else if s.io.SweepPush? {
    } else if s.io.SweepExec? {
    } else if s.io.SweepErase? {
    } else if s.io.SweepState? {
    } else if s.io.SweepMark? {
    } else {
    }
  }

  /** A thread touches an entry only to arm its timer or to flag it. */
  lemma AppTouches(s: State, t: Tid, o: Obj)
    requires t in s.pcs && o < |s.objs|
    ensures var pc, s' := s.pcs[t], AppStep(s, t);
            && o < |s'.objs|
            && s'.objs[o].reqId == s.objs[o].reqId && s'.objs[o].status == s.objs[o].status
            && s'.objs[o].timer == (if pc.WriteArm? && pc.o == o then Armed else s.objs[o].timer)
            && s'.objs[o].flag == (if pc.ReadFlag? && pc.o == o then EraseState else s.objs[o].flag)
  {
    var pc := s.pcs[t];
    if pc.ReadFind? {
    } else if pc.ReadGet? {
    } else if pc.ReadPoll? {
    } else if pc.ReadFlag? {
    } else if pc.ReadCount? {
    } else if pc.ReadLink? {
    } else if pc.WriteMake? {
    } else if pc.WriteSlot? {
    } else if pc.WriteStore? {
    } else if pc.WriteArm? {
    } else {
    }
  }

  /** The io thread writes a status at the end of set_status, a flag when it marks, and never a timer. */
  ghost predicate IoTouched(s: State, s': State, o: Obj)
    requires o < |s.objs|
  {
    && o < |s'.objs| && s'.objs[o].timer == s.objs[o].timer
    && s'.objs[o].status == (if s.io.SetStatus? && s.io.o == o then s.io.v else s.objs[o].status)
    && s'.objs[o].flag == (if s.io.SweepMark? && Deref(s, s.io.k) == Some(o) then EraseExec else s.objs[o].flag)
  }

  lemma HandlerTouches(s: State, o: Obj)
    requires o < |s.objs| && IsHandler(s.io)
    ensures IoTouched(s, HandlerStep(s), o)
  {
    if s.io.HeadFind? {
    } else if s.io.HeadSet? {
    } else if s.io.HeadRead? {
    } else {
    }
  }

  lemma SweepTouches(s: State, o: Obj)
    requires o < |s.objs| && !IsHandler(s.io)
    ensures IoTouched(s, SweepStep(s), o)
  {
    if s.io.SweepTest? {
    } else if s.io.SweepPop? {
    } else if s.io.SweepFind? {
    } else if s.io.SweepPush? {
    } else if s.io.SweepExec? {
    } else if s.io.SweepErase? {
    } else if s.io.SweepState? {
    } else if s.io.SweepMark? {
    } else {
    }
  }

  lemma IoTouches(s: State, o: Obj)
    requires o < |s.objs|
    ensures IoTouched(s, IoStep(s), o)
  {
    if IsHandler(s.io) {
      HandlerTouches(s, o);
    } else {
      SweepTouches(s, o);
    }
  }
}
