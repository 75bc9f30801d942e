/** No response is erased unread, over every run of the client machine. */
module ClientErase {
  import opened Prelude
  import opened ClientSteps
  import opened ClientFrames

  // ---------------------------------------------------------------- who carries which id

  /** An entry pointer held for id k names an entry with that id. */
  ghost predicate Names(objs: seq<Entry>, o: Obj, k: int) {
    o < |objs| && objs[o].reqId == k
  }

  ghost predicate PcCoherent(objs: seq<Entry>, pc: AppPc) {
    match pc
    case WriteSlot(k, o) => Names(objs, o, k)
    case WriteStore(k, o) => Names(objs, o, k)
    case WriteArm(k, o) => Names(objs, o, k)
    case ReadPoll(k, r) => r.Some? ==> Names(objs, r.value, k)
    case ReadFlag(k, o) => Names(objs, o, k)
    case ReadCount(k, o) => Names(objs, o, k)
    case ReadLink(k, o, id) => Names(objs, o, k) && id == k
    case _ => true
  }

  /** Every non-null pointer in the receive map carries its own key as req_id. */
  ghost predicate MapCoherent(s: State) {
    forall k | k in s.recv && s.recv[k].Some? :: Names(s.objs, s.recv[k].value, k)
  }

  ghost predicate IoCoherent(s: State) {
    && (s.reading.Some? ==> s.reading.value < |s.objs| && !s.io.HeadFind? && !s.io.HeadSet? && !s.io.HeadRead?)
    && (s.io.SetStatus? ==> s.io.o < |s.objs| && !s.io.v.Waiting?)
    && (s.io.SweepPop? ==> s.io.i < Size(s))
  }

  /** h_lock_ is held by the thread between counting and linking, if there is one. */
  ghost predicate LockCoherent(s: State) {
    forall t :: s.pusher == Some(t) <==> t in s.pcs && s.pcs[t].ReadLink?
  }

  ghost predicate Coherent(s: State) {
    MapCoherent(s) && IoCoherent(s) && LockCoherent(s) && forall t | t in s.pcs :: PcCoherent(s.objs, s.pcs[t])
  }

  /** Entries are only added, and none ever changes its id. */
  ghost predicate IdsKept(objs: seq<Entry>, objs': seq<Entry>) {
    |objs| <= |objs'| && forall o | 0 <= o < |objs| :: objs'[o].reqId == objs[o].reqId
  }

  /** The receive map is kept, loses keys, or gains one slot: null, or the entry made for that id. */
  ghost predicate RecvMove(s: State, s': State) {
    || (forall k | k in s'.recv :: k in s.recv && s'.recv[k] == s.recv[k])
    || (exists k {:trigger s.recv[k := None]} :: s'.recv == s.recv[k := None])
    || (exists k, o | Names(s'.objs, o, k) :: s'.recv == s.recv[k := Some(o)])
  }

  lemma AppIds(s: State, t: Tid)
    requires t in s.pcs && PcCoherent(s.objs, s.pcs[t])
    ensures IdsKept(s.objs, AppStep(s, t).objs)
    ensures AppStep(s, t).io == s.io && AppStep(s, t).reading == s.reading && s.delq <= AppStep(s, t).delq
    ensures Size(s) <= Size(AppStep(s, t))
    ensures t in AppStep(s, t).pcs && AppStep(s, t).pcs == s.pcs[t := AppStep(s, t).pcs[t]]
  {
    if IsRead(s.pcs[t]) {
      ReadIds(s, t);
    } else {
      WriteIds(s, t);
    }
  }

  lemma ReadIds(s: State, t: Tid)
    requires t in s.pcs && PcCoherent(s.objs, s.pcs[t]) && IsRead(s.pcs[t])
    ensures var s' := ReadStep(s, t);
            && IdsKept(s.objs, s'.objs) && s'.io == s.io && s'.reading == s.reading
            && s.delq <= s'.delq && Size(s) <= Size(s') && t in s'.pcs && s'.pcs == s.pcs[t := s'.pcs[t]]
  {
    if s.pcs[t].ReadFind? {
    } else if s.pcs[t].ReadGet? {
    } else if s.pcs[t].ReadPoll? {
    } else if s.pcs[t].ReadFlag? {
    } else if s.pcs[t].ReadCount? {
    } else {
    }
  }

  lemma WriteIds(s: State, t: Tid)
    requires t in s.pcs && PcCoherent(s.objs, s.pcs[t]) && !IsRead(s.pcs[t])
    ensures var s' := WriteStep(s, t);
            && IdsKept(s.objs, s'.objs) && s'.io == s.io && s'.reading == s.reading
            && s.delq == s'.delq && Size(s) == Size(s') && t in s'.pcs && s'.pcs == s.pcs[t := s'.pcs[t]]
  {
    if s.pcs[t].WriteMake? {
    } else if s.pcs[t].WriteSlot? {
    } else if s.pcs[t].WriteStore? {
    } else if s.pcs[t].WriteArm? {
    } else {
    }
  }

  lemma AppRecv(s: State, t: Tid)
    requires t in s.pcs && PcCoherent(s.objs, s.pcs[t])
    ensures RecvMove(s, AppStep(s, t))
  {
    var pc, s' := s.pcs[t], AppStep(s, t);
    if pc.WriteStore? {
      assert s'.recv == s.recv[pc.k := Some(pc.o)] && Names(s'.objs, pc.o, pc.k);
    } else if (pc.WriteSlot? || pc.ReadGet?) && pc.k !in s.recv {
      assert s'.recv == s.recv[pc.k := None];
    }
  }

  lemma WritePc(s: State, t: Tid)
    requires t in s.pcs && PcCoherent(s.objs, s.pcs[t]) && !IsRead(s.pcs[t])
    ensures t in AppStep(s, t).pcs && PcCoherent(AppStep(s, t).objs, AppStep(s, t).pcs[t])
  {
  }

  lemma ReadPc(s: State, t: Tid)
    requires t in s.pcs && PcCoherent(s.objs, s.pcs[t]) && IsRead(s.pcs[t])
    requires var r := Lookup(s, s.pcs[t].k); r.Some? ==> Names(s.objs, r.value, s.pcs[t].k)
    ensures t in AppStep(s, t).pcs && PcCoherent(AppStep(s, t).objs, AppStep(s, t).pcs[t])
  {
    if s.pcs[t].ReadFind? {
    } else if s.pcs[t].ReadGet? {
    } else if s.pcs[t].ReadPoll? {
    } else if s.pcs[t].ReadFlag? {
    } else if s.pcs[t].ReadCount? {
    } else {
    }
  }

  lemma AppPc(s: State, t: Tid)
    requires t in s.pcs && PcCoherent(s.objs, s.pcs[t]) && MapCoherent(s)
    ensures t in AppStep(s, t).pcs && PcCoherent(AppStep(s, t).objs, AppStep(s, t).pcs[t])
  {
    if IsRead(s.pcs[t]) {
      ReadPc(s, t);
    } else {
      WritePc(s, t);
    }
  }

  lemma AppLock(s: State, t: Tid)
    requires LockCoherent(s) && Enabled(s, App(t))
    ensures LockCoherent(AppStep(s, t))
  {
    if s.pcs[t].ReadFind? {
    } else if s.pcs[t].ReadGet? {
    } else if s.pcs[t].ReadPoll? {
    } else if s.pcs[t].ReadFlag? {
    } else if s.pcs[t].ReadCount? {
    } else if s.pcs[t].ReadLink? {
    } else if s.pcs[t].WriteMake? {
    } else if s.pcs[t].WriteSlot? {
    } else if s.pcs[t].WriteStore? {
    } else {
    }
  }

  lemma HandlerIds(s: State)
    requires IoCoherent(s) && IsHandler(s.io)
    requires !s.io.SetStatus? ==> var r := Lookup(s, s.io.k); r.Some? ==> Names(s.objs, r.value, s.io.k)
    ensures IdsKept(s.objs, IoStep(s).objs) && IoStep(s).pcs == s.pcs && IoStep(s).pusher == s.pusher
        && IoCoherent(IoStep(s))
  {
    assert s.io.HeadRead? ==> IoStep(s).objs == s.objs;
  }

  lemma SweepIds(s: State)
    requires !IsHandler(s.io)
    ensures IdsKept(s.objs, IoStep(s).objs)
  {
    if s.io.SweepTest? {
    } else if s.io.SweepPop? {
    } else if s.io.SweepFind? {
    } else if s.io.SweepPush? {
    } else if s.io.SweepExec? {
    } else if s.io.SweepErase? {
    } else if s.io.SweepState? {
    } else if s.io.SweepMark? {
    } else {
    }
  }

  lemma LoopIo(s: State)
    requires IoCoherent(s) && !IsHandler(s.io) && !IsEntryTest(s.io)
    ensures LoopStep(s).pcs == s.pcs && LoopStep(s).pusher == s.pusher && IoCoherent(LoopStep(s))
  {
    if s.io.SweepTest? {
    } else if s.io.SweepPop? {
    } else if s.io.SweepFind? {
    } else if s.io.SweepPush? {
    } else {
    }
  }

  lemma EntryIo(s: State)
    requires IoCoherent(s) && IsEntryTest(s.io)
    ensures EntryStep(s).pcs == s.pcs && EntryStep(s).pusher == s.pusher && IoCoherent(EntryStep(s))
  {
    if s.io.SweepExec? {
    } else if s.io.SweepErase? {
    } else if s.io.SweepState? {
    } else {
    }
  }

  lemma SweepIo(s: State)
    requires IoCoherent(s) && !IsHandler(s.io)
    ensures IoStep(s).pcs == s.pcs && IoStep(s).pusher == s.pusher && IoCoherent(IoStep(s))
  {
    if IsEntryTest(s.io) {
      EntryIo(s);
    } else {
      LoopIo(s);
    }
  }

  lemma IoIds(s: State)
    requires MapCoherent(s) && IoCoherent(s)
    ensures IdsKept(s.objs, IoStep(s).objs) && IoStep(s).pcs == s.pcs && IoStep(s).pusher == s.pusher
        && IoCoherent(IoStep(s))
  {
    if IsHandler(s.io) {
      HandlerIds(s);
    } else {
      SweepIds(s);
      SweepIo(s);
    }
  }

  lemma IoRecv(s: State)
    ensures RecvMove(s, IoStep(s))
  {
    if !s.io.SweepErase? {
      IoFrame(s);
    }
  }

  lemma Framed(s: State, s': State)
    requires MapCoherent(s) && IdsKept(s.objs, s'.objs) && RecvMove(s, s')
    ensures MapCoherent(s')
  {
  }

  lemma CoherentStep(s: State, l: Label)
    requires Coherent(s) && Enabled(s, l)
    ensures Coherent(Step(s, l)) && IdsKept(s.objs, Step(s, l).objs)
  {
    if l.App? {
      AppCoherent(s, l.t);
    } else if l.Io? {
      IoIds(s);
      IoRecv(s);
      Framed(s, Step(s, l));
      PcsFramed(s, Step(s, l));
    } else {
      EventCoherent(s, l);
    }
  }

  lemma PcsFramed(s: State, s': State)
    requires IdsKept(s.objs, s'.objs) && s'.pcs == s.pcs && forall t | t in s.pcs :: PcCoherent(s.objs, s.pcs[t])
    ensures forall t | t in s'.pcs :: PcCoherent(s'.objs, s'.pcs[t])
  {
  }

  lemma AppCoherent(s: State, t: Tid)
    requires Coherent(s) && Enabled(s, App(t))
    ensures Coherent(AppStep(s, t)) && IdsKept(s.objs, AppStep(s, t).objs)
  {
    AppIds(s, t);
    AppRecv(s, t);
    AppPc(s, t);
    AppLock(s, t);
    Framed(s, AppStep(s, t));
  }

  lemma EventCoherent(s: State, l: Label)
    requires Coherent(s) && Enabled(s, l) && !l.App? && !l.Io?
    ensures Coherent(Step(s, l)) && IdsKept(s.objs, Step(s, l).objs)
  {
    var s' := Step(s, l);
    assert s'.recv == s.recv && s'.pusher == s.pusher && IdsKept(s.objs, s'.objs);
    if l.BeginWrite? || l.BeginRead? {
    } else {
      PcsFramed(s, s');
    }
  }

  // ---------------------------------------------------------------- what came before

  /** Some read of id k saw a terminal status. */
  ghost predicate Seen(log: seq<Event>, k: int) {
    Saw(k) in log
  }

  /** ... and afterwards put k on the delete list. */
  ghost predicate Listed(log: seq<Event>, k: int) {
    exists j :: 0 <= j < |log| && log[j] == Queued(k) && Seen(log[..j], k)
  }

  /** ... and afterwards a sweep marked the entry CT_ERASE_EXEC. */
  ghost predicate Doomed(log: seq<Event>, k: int) {
    exists m :: 0 <= m < |log| && log[m] == Marked(k) && Listed(log[..m], k)
  }

  lemma LogGrows(log: seq<Event>, e: Event, k: int)
    ensures Seen(log, k) ==> Seen(log + [e], k)
    ensures Listed(log, k) ==> Listed(log + [e], k)
    ensures Doomed(log, k) ==> Doomed(log + [e], k)
    ensures Seen(log + [Saw(k)], k)
    ensures Seen(log, k) ==> Listed(log + [Queued(k)], k)
    ensures Listed(log, k) ==> Doomed(log + [Marked(k)], k)
  {
    forall j, f | 0 <= j < |log| ensures (log + [f])[..j] == log[..j] && (log + [f])[j] == log[j] {}
    forall f ensures (log + [f])[..|log|] == log && (log + [f])[|log|] == f {}
  }

  ghost predicate FlagOk(log: seq<Event>, e: Entry) {
    (e.flag != NoFlag ==> Seen(log, e.reqId)) && (e.flag == EraseExec ==> Doomed(log, e.reqId))
  }

  ghost predicate ReaderOk(log: seq<Event>, pc: AppPc) {
    pc.ReadFlag? || pc.ReadCount? || pc.ReadLink? ==> Seen(log, pc.k)
  }

  ghost predicate SweepOk(log: seq<Event>, io: IoPc) {
    && (io.SweepFind? || io.SweepExec? || io.SweepState? || io.SweepMark? || io.SweepPush? ==> Listed(log, io.k))
    && (io.SweepErase? ==> Doomed(log, io.k))
  }

  /** Every logged erasure came after a read, its queueing and a marking of the same id. */
  ghost predicate ErasedRead(log: seq<Event>) {
    forall e | 0 <= e < |log| && log[e].Erased? :: Doomed(log[..e], log[e].k)
  }

  ghost predicate History(s: State) {
    && (forall o | 0 <= o < |s.objs| :: FlagOk(s.log, s.objs[o]))
    && (forall k | k in s.delq :: Listed(s.log, k))
    && (forall t | t in s.pcs :: ReaderOk(s.log, s.pcs[t]))
    && SweepOk(s.log, s.io)
    && ErasedRead(s.log)
  }

  /** A logged event leaves what was established established. */
  lemma HistoryLogs(s: State, e: Event)
    requires History(s) && (e.Erased? ==> Doomed(s.log, e.k))
    ensures History(Log(s, e))
  {
    var s' := Log(s, e);
    forall k ensures Seen(s.log, k) ==> Seen(s'.log, k)
      ensures Listed(s.log, k) ==> Listed(s'.log, k)
      ensures Doomed(s.log, k) ==> Doomed(s'.log, k)
    {
      LogGrows(s.log, e, k);
    }
    forall i | 0 <= i < |s'.log| && s'.log[i].Erased? ensures Doomed(s'.log[..i], s'.log[i].k) {
      assert i < |s.log| ==> s'.log[..i] == s.log[..i];
      assert s'.log[..|s.log|] == s.log;
    }
  }

  lemma HistoryGet(s: State, t: Tid)
    requires t in s.pcs && History(s) && (s.pcs[t].ReadFind? || s.pcs[t].ReadGet?)
    ensures History(ReadStep(s, t))
  {
    if s.pcs[t].ReadGet? && s.pcs[t].k !in s.recv {
      HistoryLogs(s, Defaulted(s.pcs[t].k));
      assert ReadStep(s, t).log == s.log + [Defaulted(s.pcs[t].k)];
    }
  }

  lemma HistoryPoll(s: State, t: Tid)
    requires t in s.pcs && PcCoherent(s.objs, s.pcs[t]) && History(s) && s.pcs[t].ReadPoll?
    ensures History(ReadStep(s, t))
  {
    HistoryLogs(s, Saw(s.pcs[t].k));
    LogGrows(s.log, Saw(s.pcs[t].k), s.pcs[t].k);
    assert ReadStep(s, t).objs == s.objs;
  }

  lemma HistoryQueue(s: State, t: Tid)
    requires t in s.pcs && PcCoherent(s.objs, s.pcs[t]) && History(s)
        && (s.pcs[t].ReadFlag? || s.pcs[t].ReadCount? || s.pcs[t].ReadLink?)
    ensures History(ReadStep(s, t))
  {
    var k := s.pcs[t].k;
    assert ReaderOk(s.log, s.pcs[t]);
    if s.pcs[t].ReadLink? {
      HistoryLogs(s, Queued(k));
      LogGrows(s.log, Queued(k), k);
      HistoryLinked(Log(s, Queued(k)), t, k);
    } else if s.pcs[t].ReadFlag? {
    } else {
      assert ReadStep(s, t).objs == s.objs;
    }
  }

  lemma HistoryLinked(s: State, t: Tid, k: int)
    requires History(s) && Listed(s.log, k)
    ensures History(At(s, t, AppIdle).(delq := s.delq + [k], pusher := None, phase := s.phase[k := Deleting]))
  {
  }

  lemma HistoryWrite(s: State, t: Tid)
    requires t in s.pcs && History(s) && !IsRead(s.pcs[t])
    ensures History(WriteStep(s, t))
  {
    if s.pcs[t].WriteMake? {
    } else if s.pcs[t].WriteSlot? {
    } else if s.pcs[t].WriteStore? {
    } else if s.pcs[t].WriteArm? {
    } else {
    }
  }

  lemma HistoryHandler(s: State)
    requires History(s) && IsHandler(s.io)
    requires !s.io.SetStatus? ==> var r := Lookup(s, s.io.k); r.Some? ==> Names(s.objs, r.value, s.io.k)
    ensures History(HandlerStep(s))
  {
    if s.io.HeadRead? {
      assert HandlerStep(s).objs == s.objs;
    } else if s.io.HeadFind? {
    } else if s.io.HeadSet? {
    } else {
    }
  }

  lemma HistoryPop(s: State)
    requires History(s) && (s.io.SweepPop? || s.io.SweepPush?)
    ensures History(SweepStep(s))
  {
    if s.io.SweepPop? && |s.delq| > 0 {
      assert forall k | k in s.delq[1..] :: k in s.delq;
    }
  }

  lemma HistoryErase(s: State)
    requires History(s) && s.io.SweepErase?
    ensures History(SweepStep(s))
  {
    HistoryLogs(s, Erased(s.io.k));
  }

  lemma HistoryMark(s: State)
    requires History(s) && MapCoherent(s) && s.io.SweepMark?
    ensures History(SweepStep(s))
  {
    var k, r := s.io.k, Deref(s, s.io.k);
    if r.Some? {
      HistoryLogs(s, Marked(k));
      LogGrows(s.log, Marked(k), k);
      HistoryFlag(Log(s, Marked(k)), r.value, k);
    }
  }

  /** An entry of an id that is doomed may be flagged CT_ERASE_EXEC. */
  lemma HistoryFlag(s: State, o: Obj, k: int)
    requires History(s) && Names(s.objs, o, k) && Doomed(s.log, k) && Seen(s.log, k) && Listed(s.log, k)
    requires s.io.SweepMark? && s.io.k == k
    ensures History(SetFlag(s, o, EraseExec).(io := SweepPush(s.io.i, k)))
  {
  }

  lemma HistoryTest(s: State)
    requires History(s) && MapCoherent(s)
    requires s.io.SweepTest? || s.io.SweepFind? || s.io.SweepExec? || s.io.SweepState?
    ensures History(SweepStep(s))
  {
    if s.io.SweepTest? {
    } else if s.io.SweepFind? {
    } else if s.io.SweepExec? {
    } else {
    }
  }

  lemma HistoryStep(s: State, l: Label)
    requires Coherent(s) && History(s) && Enabled(s, l)
    ensures History(Step(s, l))
  {
    if l.App? {
      var pc := s.pcs[l.t];
      if pc.ReadFind? || pc.ReadGet? {
        HistoryGet(s, l.t);
      } else if pc.ReadPoll? {
        HistoryPoll(s, l.t);
      } else if IsRead(pc) {
        HistoryQueue(s, l.t);
      } else {
        HistoryWrite(s, l.t);
      }
    } else if l.Io? {
      if IsHandler(s.io) {
        HistoryHandler(s);
      } else if s.io.SweepPop? || s.io.SweepPush? {
        HistoryPop(s);
      } else if s.io.SweepErase? {
        HistoryErase(s);
      } else if s.io.SweepMark? {
        HistoryMark(s);
      } else {
        HistoryTest(s);
      }
    } else {
      HistoryOther(s, l);
    }
  }

  lemma HistoryOther(s: State, l: Label)
    requires History(s) && Enabled(s, l) && !l.App? && !l.Io?
    ensures History(Step(s, l))
  {
    match l
    case BeginWrite(t) =>
    case BeginRead(t, k) =>
    case HeadArrives(_) =>
    case BodyDone(_) =>
    case BodyDropped =>
    case TimerExpires(_) =>
    case TimeoutRuns(_) =>
    case AbortRuns(_) =>
    case SweepBegins =>
  }

  // ---------------------------------------------------------------- whole runs

  lemma {:induction false} RunHistory(s0: State, ls: seq<Label>)
    requires Init(s0) && After(s0, ls).Some?
    ensures Coherent(After(s0, ls).value) && History(After(s0, ls).value)
  {
    if ls != [] {
      var ls' := ls[..|ls| - 1];
      RunHistory(s0, ls');
      CoherentStep(After(s0, ls').value, Last(ls));
      HistoryStep(After(s0, ls').value, Last(ls));
    }
  }

  /** Only the erase of a sweep takes a key out of the receive map. */
  lemma RemovedByErase(s: State, l: Label, k: int)
    requires Enabled(s, l) && k in s.recv && k !in Step(s, l).recv
    ensures l.Io? && s.io.SweepErase? && s.io.k == k && Step(s, l).log == s.log + [Erased(k)]
  {
    if l.App? {
      AppFrame(s, l.t);
    } else if l.Io? && !s.io.SweepErase? {
      IoFrame(s);
    }
  }
}
