/** CT_READ_OK is not sticky.  Exactly when a later step can still overwrite it, and a run that does. */
module ClientReadOk {
  import opened Prelude
  import opened ClientSteps
  import opened ClientFrames
  import opened ClientErase
  import opened ClientTimers
  import opened ClientMap
  import opened ClientRuns
  import opened ClientCrash
  import opened ClientRelease

  ghost predicate IsReadOk(s: State, o: Obj) {
    o < |s.objs| && s.objs[o].status.ReadOk?
  }

  // ---------------------------------------------------------------- one step

  /** A step takes CT_READ_OK away exactly when it is the write of another status at the end of set_status. */
  lemma LostExactly(s: State, l: Label, o: Obj)
    requires Enabled(s, l) && IsReadOk(s, o)
    ensures !IsReadOk(Step(s, l), o) <==> l.Io? && s.io.SetStatus? && s.io.o == o && !s.io.v.ReadOk?
  {
    if l.App? {
      AppTouches(s, l.t, o);
    } else if l.Io? {
      IoTouches(s, o);
    }
  }

  // ---------------------------------------------------------------- settled entries

  ghost predicate TimerPending(s: State, o: Obj) {
    o < |s.objs| && (s.objs[o].timer.Armed? || s.objs[o].timer.Fired?)
  }

  /** Nothing is left that could set a status of entry o: its timeout is not pending, no body is being read
      into it, no reply can find it in the map, its write() is over, no set_status of it is under way. */
  ghost predicate Settled(s: State, o: Obj) {
    && o < |s.objs| && !TimerPending(s, o) && s.reading != Some(o)
    && (forall k | k in s.recv :: s.recv[k] != Some(o))
    && (forall t | t in s.pcs :: !Writes(s.pcs[t], o))
    && (s.io.SetStatus? && s.io.o == o ==> s.io.v.ReadOk?)
  }

  lemma FindSettled(s: State, t: Tid, o: Obj)
    requires t in s.pcs && Settled(s, o) && (s.pcs[t].ReadFind? || s.pcs[t].ReadGet? || s.pcs[t].ReadPoll?)
    ensures Settled(ReadStep(s, t), o)
  {
    if s.pcs[t].ReadFind? {
    } else if s.pcs[t].ReadGet? {
    } else {
    }
  }

  lemma QueueSettled(s: State, t: Tid, o: Obj)
    requires t in s.pcs && Settled(s, o) && (s.pcs[t].ReadFlag? || s.pcs[t].ReadCount? || s.pcs[t].ReadLink?)
    ensures Settled(ReadStep(s, t), o)
  {
    if s.pcs[t].ReadFlag? {
    } else if s.pcs[t].ReadCount? {
    } else {
    }
  }

  lemma WriteSettled(s: State, t: Tid, o: Obj)
    requires t in s.pcs && Settled(s, o) && !IsRead(s.pcs[t])
    ensures Settled(WriteStep(s, t), o)
  {
    if s.pcs[t].WriteMake? {
    } else if s.pcs[t].WriteSlot? {
    } else if s.pcs[t].WriteStore? {
    } else if s.pcs[t].WriteArm? {
    } else {
    }
  }

  lemma HandlerSettled(s: State, o: Obj)
    requires Settled(s, o) && IsHandler(s.io)
    ensures Settled(HandlerStep(s), o)
  {
    if s.io.HeadFind? {
    } else if s.io.HeadSet? {
    } else if s.io.HeadRead? {
    } else {
    }
  }

  lemma LoopSettled(s: State, o: Obj)
    requires Settled(s, o) && !IsHandler(s.io) && !IsEntryTest(s.io)
    ensures Settled(LoopStep(s), o)
  {
    if s.io.SweepTest? {
    } else if s.io.SweepPop? {
    } else if s.io.SweepFind? {
    } else if s.io.SweepPush? {
    } else {
    }
  }

  lemma EntrySettled(s: State, o: Obj)
    requires Settled(s, o) && IsEntryTest(s.io)
    ensures Settled(EntryStep(s), o)
  {
    if s.io.SweepExec? {
    } else if s.io.SweepErase? {
    } else if s.io.SweepState? {
    } else {
    }
  }

  lemma EventSettled(s: State, l: Label, o: Obj)
    requires Enabled(s, l) && Settled(s, o) && !l.App? && !l.Io?
    ensures Settled(Step(s, l), o)
  {
    match l
    case BeginWrite(t) =>
    case BeginRead(t, k) =>
    case HeadArrives(_) =>
    case BodyDone(_) =>
    case BodyDropped =>
    case TimerExpires(_) =>
    case TimeoutRuns(_) =>
    case AbortRuns(_) =>
    case SweepBegins =>
  }

  lemma SettledStep(s: State, l: Label, o: Obj)
    requires Enabled(s, l) && Settled(s, o)
    ensures Settled(Step(s, l), o)
  {
    if l.App? {
      var pc := s.pcs[l.t];
      if pc.ReadFind? || pc.ReadGet? || pc.ReadPoll? {
        FindSettled(s, l.t, o);
      } else if IsRead(pc) {
        QueueSettled(s, l.t, o);
      } else {
        WriteSettled(s, l.t, o);
      }
    } else if !l.Io? {
      EventSettled(s, l, o);
    } else if IsHandler(s.io) {
      HandlerSettled(s, o);
    } else if IsEntryTest(s.io) {
      EntrySettled(s, o);
    } else {
      LoopSettled(s, o);
    }
  }

  /** A settled CT_READ_OK is for ever, whatever happens. */
  lemma {:induction false} SettledForEver(s: State, more: seq<Label>, o: Obj)
    requires Settled(s, o) && IsReadOk(s, o) && After(s, more).Some?
    ensures Settled(After(s, more).value, o) && IsReadOk(After(s, more).value, o)
    decreases |more|
  {
    if more != [] {
      var m := After(s, more[..|more| - 1]).value;
      SettledForEver(s, more[..|more| - 1], o);
      SettledStep(m, Last(more), o);
      LostExactly(m, Last(more), o);
    }
  }

  // ---------------------------------------------------------------- every other entry can lose it

  /** The labels `more` take CT_READ_OK away from entry o. */
  ghost predicate Loses(s: State, more: seq<Label>, o: Obj) {
    After(s, more).Some? && !IsReadOk(After(s, more).value, o)
  }

  ghost predicate Between(s: State, o: Obj) {
    Coherent(s) && s.io.IoFree? && !s.crashed && o < |s.objs|
  }

  lemma LoseTimer(s: State, o: Obj) returns (more: seq<Label>)
    requires Between(s, o) && TimerPending(s, o)
    ensures Loses(s, more, o)
  {
    if s.objs[o].timer.Armed? {
      more := Timeout(o);
      TimeoutRun(s, o);
    } else {
      more := [TimeoutRuns(o)] + [Io];
      var s1 := Step(s, TimeoutRuns(o));
      One(s, TimeoutRuns(o));
      One(s1, Io);
      LeadsOn(s, [TimeoutRuns(o)], s1, [Io], Step(s1, Io));
    }
  }

  lemma LoseBody(s: State, o: Obj) returns (more: seq<Label>)
    requires Between(s, o) && s.reading == Some(o)
    ensures Loses(s, more, o)
  {
    more := [BodyDone(false)] + [Io];
    var s1 := Step(s, BodyDone(false));
    One(s, BodyDone(false));
    One(s1, Io);
    LeadsOn(s, [BodyDone(false)], s1, [Io], Step(s1, Io));
  }

  function Reply(k: int): seq<Label> {
    [HeadArrives(k)] + [Io] + [Io] + [Io]
  }

  /** A reply head for k starts a read into its entry. */
  lemma HeadStarts(s: State, k: int, o: Obj)
    requires s.io.IoFree? && s.reading.None? && !s.crashed && k in s.recv && s.recv[k] == Some(o) && Names(s.objs, o, k)
    ensures Leads(s, Reply(k), s.(reading := Some(o)))
  {
    One(s, HeadArrives(k));
    var s1 := s.(io := HeadFind(k));
    One(s1, Io);
    var s2 := s.(io := HeadSet(k));
    One(s2, Io);
    var s3 := s.(io := HeadRead(k));
    assert s.objs[o := s.objs[o].(reqId := k)] == s.objs;
    One(s3, Io);
    LeadsOn(s, [HeadArrives(k)], s1, [Io], s2);
    LeadsOn(s, [HeadArrives(k)] + [Io], s2, [Io], s3);
    LeadsOn(s, [HeadArrives(k)] + [Io] + [Io], s3, [Io], s.(reading := Some(o)));
  }

  lemma LoseReply(s: State, k: int, o: Obj) returns (more: seq<Label>)
    requires Between(s, o) && s.reading.None? && k in s.recv && s.recv[k] == Some(o)
    ensures Loses(s, more, o)
  {
    HeadStarts(s, k, o);
    var m := s.(reading := Some(o));
    assert Coherent(m);
    var rest := LoseBody(m, o);
    AfterConcat(s, Reply(k), rest);
    more := Reply(k) + rest;
  }

  /** A reply that is being read for another entry is dropped first. */
  lemma LoseMapped(s: State, k: int, o: Obj) returns (more: seq<Label>)
    requires Between(s, o) && k in s.recv && s.recv[k] == Some(o)
    ensures Loses(s, more, o)
  {
    if s.reading.None? {
      more := LoseReply(s, k, o);
    } else {
      One(s, BodyDropped);
      var m := s.(reading := None);
      assert Coherent(m);
      var rest := LoseReply(m, k, o);
      AfterConcat(s, [BodyDropped], rest);
      more := [BodyDropped] + rest;
    }
  }

  /** The writer of o arms its timer at last. */
  lemma {:induction false} LoseWriter(s: State, t: Tid, o: Obj) returns (more: seq<Label>)
    requires Between(s, o) && t in s.pcs && Writes(s.pcs[t], o)
    ensures Loses(s, more, o)
    decreases if s.pcs[t].WriteArm? then 0 else if s.pcs[t].WriteStore? then 1 else 2
  {
    var m := Step(s, App(t));
    CoherentStep(s, App(t));
    One(s, App(t));
    var rest;
    if s.pcs[t].WriteArm? {
      rest := LoseTimer(m, o);
    } else {
      rest := LoseWriter(m, t, o);
    }
    AfterConcat(s, [App(t)], rest);
    more := [App(t)] + rest;
  }

  lemma Unsettled(s: State, o: Obj) returns (more: seq<Label>)
    requires Between(s, o) && !Settled(s, o)
    ensures Loses(s, more, o)
  {
    if TimerPending(s, o) {
      more := LoseTimer(s, o);
    } else if s.reading == Some(o) {
      more := LoseBody(s, o);
    } else if k :| k in s.recv && s.recv[k] == Some(o) {
      more := LoseMapped(s, k, o);
    } else {
      var t :| t in s.pcs && Writes(s.pcs[t], o);
      more := LoseWriter(s, t, o);
    }
  }

  /** Between two handlers of any run: an entry with CT_READ_OK can still lose it if and only if its timeout
      is pending, a body is being read into it, a reply can find it in the map, or its write() is not over. */
  lemma LosableExactly(s0: State, ls: seq<Label>, o: Obj)
    requires Init(s0) && After(s0, ls).Some?
    requires var s := After(s0, ls).value; s.io.IoFree? && !s.crashed && IsReadOk(s, o)
    ensures var s := After(s0, ls).value; (exists more :: Loses(s, more, o)) <==> !Settled(s, o)
  {
    var s := After(s0, ls).value;
    RunHistory(s0, ls);
    if Settled(s, o) {
      forall more | After(s, more).Some? ensures IsReadOk(After(s, more).value, o) {
        SettledForEver(s, more, o);
      }
    } else {
      var more := Unsettled(s, o);
    }
  }

  // ---------------------------------------------------------------- inside a handler

  /** A step of a handler that does not take CT_READ_OK away leaves it as losable as it was. */
  lemma HandlerUnsettled(s: State, o: Obj)
    requires Coherent(s) && IsHandler(s.io) && IsReadOk(s, o) && !Settled(s, o)
    ensures !IsReadOk(IoStep(s), o) || !Settled(IoStep(s), o)
  {
    IoFrame(s);
    IoTouches(s, o);
    var s' := IoStep(s);
    if s.reading == Some(o) {
      HandlerReading(s);
    } else if k :| k in s.recv && s.recv[k] == Some(o) {
      assert k in s'.recv && s'.recv[k] == Some(o);
    } else if t :| t in s.pcs && Writes(s.pcs[t], o) {
      assert t in s'.pcs && Writes(s'.pcs[t], o);
    }
  }

  lemma HandlerReading(s: State)
    requires IsHandler(s.io) && IoCoherent(s) && s.reading.Some?
    ensures IoStep(s).reading == s.reading
  {
    assert s.io.SetStatus?;
  }

  /** Between handlers or inside one that nothing holds up, CT_READ_OK of entry o is lost or losable. */
  ghost predicate Loose(s: State, o: Obj) {
    && Owned(s) && Coherent(s) && Calm(s) && !s.crashed && (s.io.IoFree? || IsHandler(s.io))
    && (!IsReadOk(s, o) || !Settled(s, o))
  }

  lemma HandlerNext(s: State, o: Obj)
    requires Loose(s, o) && IsReadOk(s, o) && IsHandler(s.io)
    ensures Enabled(s, Io) && Loose(Step(s, Io), o) && Rank(Step(s, Io)) < Rank(s)
  {
    CalmSafe(s);
    RankDrops(s);
    IoGoes(s);
    CalmIo(s);
    HandlerUnsettled(s, o);
    OwnedStep(s, Io);
    CoherentStep(s, Io);
  }

  /** The handler ends, and by then CT_READ_OK is lost or still losable. */
  lemma {:induction false} HandlerEnds(s: State, o: Obj) returns (more: seq<Label>, s': State)
    requires Loose(s, o)
    ensures Leads(s, more, s') && Loose(s', o) && (!IsReadOk(s', o) || s'.io.IoFree?)
    decreases Rank(s)
  {
    if !IsReadOk(s, o) || s.io.IoFree? {
      more, s' := [], s;
    } else {
      HandlerNext(s, o);
      One(s, Io);
      var rest;
      rest, s' := HandlerEnds(Step(s, Io), o);
      LeadsOn(s, [Io], Step(s, Io), rest, s');
      more := [Io] + rest;
    }
  }

  lemma LoseInHandler(s: State, o: Obj) returns (more: seq<Label>)
    requires Loose(s, o)
    ensures Loses(s, more, o)
  {
    var first, m := HandlerEnds(s, o);
    more := first;
    if IsReadOk(m, o) {
      var rest := Unsettled(m, o);
      AfterConcat(s, first, rest);
      more := first + rest;
    }
  }

  /** The same inside a handler, within the contract and with no insertion or push half done that it depends on. */
  lemma LosableInHandler(s0: State, ls: seq<Label>, o: Obj)
    requires Good(s0, ls) && Calm(End(s0, ls)) && IsHandler(End(s0, ls).io) && IsReadOk(End(s0, ls), o)
    ensures (exists more :: Loses(End(s0, ls), more, o)) <==> !Settled(End(s0, ls), o)
  {
    var s := End(s0, ls);
    if Settled(s, o) {
      forall more | After(s, more).Some? ensures IsReadOk(After(s, more).value, o) {
        SettledForEver(s, more, o);
      }
    } else {
      RunOwned(s0, ls);
      var more := LoseInHandler(s, o);
    }
  }

  // ---------------------------------------------------------------- a run

  /** The reply to the first request arrives after its timeout has expired and before the timeout's handler. */
  function LateReply(t: Tid): seq<Label> {
    WriteAll(t) + Reply(1) + ([TimerExpires(0)] + [BodyDone(true)] + [Io])
  }

  /** From the start state a run within the contract reads a reply and then loses it to the timeout. */
  lemma ReadOkOverwritten(s0: State, t: Tid) returns (s: State, s': State)
    requires Init(s0) && t in s0.pcs
    ensures Leads(s0, LateReply(t), s) && IsReadOk(s, 0)
    ensures Leads(s, [TimeoutRuns(0)] + [Io], s') && s'.objs[0].status.TimedOut?
  {
    WriteRun(s0, t);
    var m := Registered(s0);
    HeadStarts(m, 1, 0);
    var r := m.(reading := Some(0));
    s, s' := Overtaken(r);
    LeadsOn(s0, WriteAll(t), m, Reply(1), r);
    LeadsOn(s0, WriteAll(t) + Reply(1), r, [TimerExpires(0)] + [BodyDone(true)] + [Io], s);
  }

  lemma Overtaken(s: State) returns (s3: State, s5: State)
    requires s.objs == [Entry(1, Waiting, NoFlag, Armed)] && s.reading == Some(0) && s.io.IoFree? && !s.crashed
    ensures Leads(s, [TimerExpires(0)] + [BodyDone(true)] + [Io], s3) && IsReadOk(s3, 0)
    ensures Leads(s3, [TimeoutRuns(0)] + [Io], s5) && 0 < |s5.objs| && s5.objs[0].status.TimedOut?
  {
    var s1 := s.(objs := [Entry(1, Waiting, NoFlag, Fired)]);
    One(s, TimerExpires(0));
    assert s.objs[0 := Entry(1, Waiting, NoFlag, Fired)] == s1.objs;
    var s2 := s1.(reading := None, io := SetStatus(0, ReadOk));
    One(s1, BodyDone(true));
    s3 := s.(objs := [Entry(1, ReadOk, NoFlag, Fired)], reading := None);
    One(s2, Io);
    assert s2.objs[0 := Entry(1, ReadOk, NoFlag, Fired)] == s3.objs;
    LeadsOn(s, [TimerExpires(0)], s1, [BodyDone(true)], s2);
    LeadsOn(s, [TimerExpires(0)] + [BodyDone(true)], s2, [Io], s3);
    s5 := Overwrites(s3);
  }

  lemma Overwrites(s: State) returns (s': State)
    requires |s.objs| == 1 && s.objs[0].timer.Fired? && s.io.IoFree? && !s.crashed
    ensures Leads(s, [TimeoutRuns(0)] + [Io], s') && 0 < |s'.objs| && s'.objs[0].status.TimedOut?
  {
    var m := Step(s, TimeoutRuns(0));
    One(s, TimeoutRuns(0));
    One(m, Io);
    s' := Step(m, Io);
    LeadsOn(s, [TimeoutRuns(0)], m, [Io], s');
  }
}
