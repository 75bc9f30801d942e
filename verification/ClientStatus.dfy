/**
 Where a status comes from.  Over every run the status of an entry is the one its last event calls for, a
 timeout handler runs at most once for it, and a reply that was read in time keeps CT_READ_OK.
 */
module ClientStatus {
  import opened Prelude
  import opened ClientSteps
  import opened ClientFrames
  import opened ClientErase
  import opened ClientTimers

  // ---------------------------------------------------------------- the last event decides

  /** The event begins a set_status of entry o: its body was read, with or without an error, or it timed out. */
  ghost predicate Sets(s: State, l: Label, o: Obj) {
    (l.BodyDone? && s.reading == Some(o)) || l == TimeoutRuns(o)
  }

  /** CT_READ_OK for a body read without error, CT_ERROR for one with, CT_TIMEOUT for a timeout. */
  function StatusOf(l: Label): Status {
    if l.TimeoutRuns? then TimedOut else if l == BodyDone(true) then ReadOk else Failed
  }

  /** The last event of the run that set the status of entry o. */
  ghost function LastSet(s0: State, ls: seq<Label>, o: Obj): Option<Label> {
    if ls == [] then None
    else
      var m := After(s0, ls[..|ls| - 1]);
      if m.Some? && Sets(m.value, Last(ls), o) then Some(Last(ls)) else LastSet(s0, ls[..|ls| - 1], o)
  }

  /** The status of o is the one event b calls for, or is about to be. */
  ghost predicate Told(s: State, b: Option<Label>, o: Obj) {
    if Setting(s.io, o) then b.Some? && s.io.v == StatusOf(b.value)
    else if o < |s.objs| then s.objs[o].status == (if b.None? then Waiting else StatusOf(b.value))
    else b.None?
  }

  lemma SetsTold(s: State, l: Label, o: Obj)
    requires Enabled(s, l) && Sets(s, l, o)
    ensures Told(Step(s, l), Some(l), o)
  {
  }

  /** Another event leaves the status of o, and begins no set_status of it. */
  lemma EventTold(s: State, l: Label, b: Option<Label>, o: Obj)
    requires Enabled(s, l) && !l.App? && !l.Io? && !Sets(s, l, o) && Told(s, b, o)
    ensures Told(Step(s, l), b, o)
  {
    match l
    case BeginWrite(t) =>
    case BeginRead(t, k) =>
    case HeadArrives(_) =>
    case BodyDone(_) =>
    case BodyDropped =>
    case TimerExpires(_) =>
    case TimeoutRuns(_) =>
    case AbortRuns(_) =>
    case SweepBegins =>
  }

  lemma AppTold(s: State, t: Tid, b: Option<Label>, o: Obj)
    requires t in s.pcs && Told(s, b, o)
    ensures Told(AppStep(s, t), b, o)
  {
    AppFrame(s, t);
    if o < |s.objs| {
      AppTouches(s, t, o);
    }
  }

  lemma IoTold(s: State, b: Option<Label>, o: Obj)
    requires IoCoherent(s) && Told(s, b, o)
    ensures Told(IoStep(s), b, o)
  {
    IoFrame(s);
    StatusEnds(s);
    if o < |s.objs| {
      IoTouches(s, o);
    }
  }

  /** Only an event begins a set_status, and its next step ends it. */
  lemma StatusEnds(s: State)
    requires IoCoherent(s)
    ensures !IoStep(s).io.SetStatus?
  {
    if s.io.HeadFind? {
    } else if s.io.HeadSet? {
    } else if s.io.HeadRead? {
    } else if s.io.SetStatus? {
    } else if s.io.SweepTest? {
    } else if s.io.SweepPop? {
    } else if s.io.SweepFind? {
    } else if s.io.SweepPush? {
    } else if s.io.SweepExec? {
    } else if s.io.SweepErase? {
    } else if s.io.SweepState? {
    } else if s.io.SweepMark? {
    } else {
    }
  }

  /** Over every run, unless a set_status of it is under way, the status of an entry is the one that the last event
      for it calls for: CT_TIMEOUT exactly if that was its timeout, CT_READ_OK exactly if that was a body read
      without error, CT_ERROR exactly if with one, and none exactly if there was no event. */
  lemma {:induction false} StatusExactly(s0: State, ls: seq<Label>, o: Obj)
    requires Init(s0) && After(s0, ls).Some?
    ensures Told(After(s0, ls).value, LastSet(s0, ls, o), o)
  {
    if ls != [] {
      var s, l, b := After(s0, ls[..|ls| - 1]).value, Last(ls), LastSet(s0, ls[..|ls| - 1], o);
      StatusExactly(s0, ls[..|ls| - 1], o);
      RunHistory(s0, ls[..|ls| - 1]);
      if Sets(s, l, o) {
        SetsTold(s, l, o);
      } else if l.App? {
        AppTold(s, l.t, b, o);
      } else if l.Io? {
        IoTold(s, b, o);
      } else {
        EventTold(s, l, b, o);
      }
    }
  }

  // ---------------------------------------------------------------- one timeout handler

  ghost predicate WritesTo(s: State, t: Tid, o: Obj) {
    t in s.pcs && Writes(s.pcs[t], o)
  }

  /** Every entry that is being written is its writer's own, and its timer is not set. */
  ghost predicate Unarmed(s: State) {
    && (forall t, o: Obj | WritesTo(s, t, o) :: o < |s.objs| && s.objs[o].timer.Unset?)
    && (forall t, u, o | WritesTo(s, t, o) && WritesTo(s, u, o) :: t == u)
  }

  /** A writer has entry o as before, or has just made it; arming it was the last step. */
  lemma WritesWas(s: State, t: Tid, o: Obj)
    requires t in s.pcs && t in AppStep(s, t).pcs
    ensures WritesTo(AppStep(s, t), t, o) ==> WritesTo(s, t, o) || o == |s.objs| == |AppStep(s, t).objs| - 1
    ensures WritesTo(AppStep(s, t), t, o) && s.pcs[t].WriteArm? ==> o >= |s.objs|
  {
    var pc := s.pcs[t];
    if pc.ReadFind? {
    } else if pc.ReadGet? {
    } else if pc.ReadPoll? {
    } else if pc.ReadFlag? {
    } else if pc.ReadCount? {
    } else if pc.ReadLink? {
    } else if pc.WriteMake? {
    } else if pc.WriteSlot? {
    } else if pc.WriteStore? {
    } else if pc.WriteArm? {
    } else {
    }
  }

  lemma OthersWrite(s: State, l: Label, t: Tid, o: Obj)
    requires Enabled(s, l) && WritesTo(Step(s, l), t, o)
    ensures WritesTo(s, t, o) || (l == App(t) && o == |s.objs| == |Step(s, l).objs| - 1)
    ensures l == App(t) && s.pcs[t].WriteArm? ==> o >= |s.objs|
  {
    if l.App? {
      AppFrame(s, l.t);
      if t == l.t {
        WritesWas(s, t, o);
      }
    } else if l.Io? {
      IoFrame(s);
    }
  }

  /** An event changes a timer only if it is set, a thread only that of the entry it writes. */
  lemma UnsetStays(s: State, l: Label, o: Obj)
    requires Enabled(s, l) && o < |s.objs| && s.objs[o].timer.Unset?
    ensures o < |Step(s, l).objs|
    ensures Step(s, l).objs[o].timer.Unset? || (l.App? && s.pcs[l.t].WriteArm? && WritesTo(s, l.t, o))
  {
    if l.App? {
      AppTouches(s, l.t, o);
    } else if l.Io? {
      IoTouches(s, o);
    }
  }

  lemma EntriesGrow(s: State, l: Label)
    requires Enabled(s, l)
    ensures Added(s, Step(s, l))
  {
    if l.App? {
      AppFrame(s, l.t);
    } else if l.Io? {
      IoFrame(s);
    }
  }

  lemma UnarmedStep(s: State, l: Label)
    requires Unarmed(s) && Enabled(s, l)
    ensures Unarmed(Step(s, l))
  {
    var s' := Step(s, l);
    EntriesGrow(s, l);
    forall t, o: Obj | WritesTo(s', t, o) ensures o < |s'.objs| && s'.objs[o].timer.Unset? {
      OthersWrite(s, l, t, o);
      if o < |s.objs| {
        UnsetStays(s, l, o);
      }
    }
    forall t, u, o | WritesTo(s', t, o) && WritesTo(s', u, o) ensures t == u {
      OthersWrite(s, l, t, o);
      OthersWrite(s, l, u, o);
    }
  }

  /** The runs of set_timeout for entry o among the labels. */
  function Handlers(ls: seq<Label>, o: Obj): nat {
    if ls == [] then 0
    else Handlers(ls[..|ls| - 1], o) + if Last(ls) == TimeoutRuns(o) || Last(ls) == AbortRuns(o) then 1 else 0
  }

  ghost predicate Spent(s: State, o: Obj) {
    o < |s.objs| && s.objs[o].timer.Spent?
  }

  lemma SpentStep(s: State, l: Label, o: Obj)
    requires Unarmed(s) && Enabled(s, l)
    ensures Spent(Step(s, l), o) <==> Spent(s, o) || l == TimeoutRuns(o) || l == AbortRuns(o)
    ensures l == TimeoutRuns(o) || l == AbortRuns(o) ==> !Spent(s, o)
  {
    EntriesGrow(s, l);
    if o < |s.objs| {
      if l.App? {
        AppTouches(s, l.t, o);
        assert s.pcs[l.t].WriteArm? ==> WritesTo(s, l.t, s.pcs[l.t].o);
      } else if l.Io? {
        IoTouches(s, o);
      } else {
        EventSpends(s, l, o);
      }
    }
  }

  lemma EventSpends(s: State, l: Label, o: Obj)
    requires Enabled(s, l) && !l.App? && !l.Io? && o < |s.objs|
    ensures Spent(Step(s, l), o) <==> Spent(s, o) || l == TimeoutRuns(o) || l == AbortRuns(o)
    ensures l == TimeoutRuns(o) || l == AbortRuns(o) ==> !Spent(s, o)
  {
    match l
    case BeginWrite(t) =>
    case BeginRead(t, k) =>
    case HeadArrives(_) =>
    case BodyDone(_) =>
    case BodyDropped =>
    case TimerExpires(_) =>
    case TimeoutRuns(_) =>
    case AbortRuns(_) =>
    case SweepBegins =>
  }

  /** In every run the handler of an entry's timer runs at most once, and its timer is spent exactly if it did. */
  lemma {:induction false} HandledOnce(s0: State, ls: seq<Label>, o: Obj)
    requires Init(s0) && After(s0, ls).Some?
    ensures Unarmed(After(s0, ls).value) && Handlers(ls, o) == if Spent(After(s0, ls).value, o) then 1 else 0
  {
    if ls != [] {
      HandledOnce(s0, ls[..|ls| - 1], o);
      UnarmedStep(After(s0, ls[..|ls| - 1]).value, Last(ls));
      SpentStep(After(s0, ls[..|ls| - 1]).value, Last(ls), o);
    }
  }

  // ---------------------------------------------------------------- a reply read in time

  /** handle_read_msg: the status follows the outcome, a running timeout is cancelled, the rest stays. */
  lemma BodySets(s: State, ok: bool)
    requires Enabled(s, BodyDone(ok))
    ensures var o, s1 := s.reading.value, Step(s, BodyDone(ok));
            && Enabled(s1, Io) && Step(s1, Io).io.IoFree? && Step(s1, Io).reading.None?
            && |Step(s1, Io).objs| == |s.objs|
            && var e, e' := s.objs[o], Step(s1, Io).objs[o];
               && e'.status == (if ok then ReadOk else Failed) && e'.reqId == e.reqId && e'.flag == e.flag
               && (if e.timer.Armed? then e'.timer.Cancelled? else e'.timer == e.timer)
               && forall p | 0 <= p < |s.objs| && p != o :: Step(s1, Io).objs[p] == s.objs[p]
  {
  }

  ghost predicate InHead(io: IoPc, k: int) {
    (io.HeadFind? || io.HeadSet? || io.HeadRead?) && io.k == k
  }

  /** Entry o of id k was answered, and neither its timeout nor its writer nor a reply under way can change that. */
  ghost predicate Kept(s: State, o: Obj, k: int) {
    && Names(s.objs, o, k) && s.objs[o].status.ReadOk? && (s.objs[o].timer.Cancelled? || s.objs[o].timer.Spent?)
    && s.reading != Some(o) && !InHead(s.io, k) && !Setting(s.io, o)
  }

  lemma AppKept(s: State, t: Tid, o: Obj, k: int)
    requires Unarmed(s) && t in s.pcs && Kept(s, o, k)
    ensures Kept(AppStep(s, t), o, k)
  {
    AppFrame(s, t);
    AppTouches(s, t, o);
    assert s.pcs[t].WriteArm? ==> WritesTo(s, t, s.pcs[t].o);
  }

  /** What the io thread reads into next: the entry that the head named. */
  lemma IoReads(s: State)
    ensures var s' := IoStep(s);
            && (s'.reading == s.reading || (s.io.HeadFind? && s'.reading == Some(|s.objs|))
                || (s.io.HeadRead? && s'.reading == Deref(s, s.io.k)))
            && forall k | InHead(s'.io, k) :: InHead(s.io, k)
  {
    if s.io.HeadFind? {
    } else if s.io.HeadSet? {
    } else if s.io.HeadRead? {
    } else if s.io.SetStatus? {
    } else if s.io.SweepTest? {
    } else if s.io.SweepPop? {
    } else if s.io.SweepFind? {
    } else if s.io.SweepPush? {
    } else if s.io.SweepExec? {
    } else if s.io.SweepErase? {
    } else if s.io.SweepState? {
    } else if s.io.SweepMark? {
    } else {
    }
  }

  lemma IoKept(s: State, o: Obj, k: int)
    requires Coherent(s) && Kept(s, o, k) && Enabled(s, Io)
    ensures Kept(IoStep(s), o, k)
  {
    IoReads(s);
    IoTouches(s, o);
    StatusEnds(s);
    CoherentStep(s, Io);
    if s.io.HeadRead? && Deref(s, s.io.k).Some? {
      assert Names(s.objs, s.recv[s.io.k].value, s.io.k);
    }
  }

  lemma EventKept(s: State, l: Label, o: Obj, k: int)
    requires Kept(s, o, k) && Enabled(s, l) && !l.App? && !l.Io? && l != HeadArrives(k)
    ensures Kept(Step(s, l), o, k)
  {
    match l
    case BeginWrite(t) =>
    case BeginRead(t, j) =>
    case HeadArrives(_) =>
    case BodyDone(_) =>
    case BodyDropped =>
    case TimerExpires(_) =>
    case TimeoutRuns(_) =>
    case AbortRuns(_) =>
    case SweepBegins =>
  }

  lemma {:induction false} KeptRun(s: State, more: seq<Label>, o: Obj, k: int)
    requires Coherent(s) && Unarmed(s) && Kept(s, o, k) && After(s, more).Some? && HeadArrives(k) !in more
    ensures var s' := After(s, more).value; Coherent(s') && Unarmed(s') && Kept(s', o, k)
    decreases |more|
  {
    if more != [] {
      var m, l := After(s, more[..|more| - 1]).value, Last(more);
      KeptRun(s, more[..|more| - 1], o, k);
      CoherentStep(m, l);
      UnarmedStep(m, l);
      assert l in more;
      if l.App? {
        AppKept(m, l.t, o, k);
      } else if l.Io? {
        IoKept(m, o, k);
      } else {
        EventKept(m, l, o, k);
      }
    }
  }

  lemma BodyKeeps(s: State, o: Obj)
    requires Enabled(s, BodyDone(true)) && s.reading == Some(o) && s.objs[o].timer.Armed?
    ensures var s1 := Step(s, BodyDone(true)); Enabled(s1, Io) && Kept(Step(s1, Io), o, s.objs[o].reqId)
  {
    BodySets(s, true);
  }

  /** A reply whose body is read before its timeout expires gives CT_READ_OK, and along every continuation in which no
      further head for its id arrives that status stays. */
  lemma AnswerStays(s0: State, ls: seq<Label>, o: Obj, more: seq<Label>)
    requires Init(s0) && After(s0, ls).Some?
    requires var s := After(s0, ls).value;
             && Enabled(s, BodyDone(true)) && s.reading == Some(o) && s.objs[o].timer.Armed?
             && HeadArrives(s.objs[o].reqId) !in more
    ensures var s1 := Step(After(s0, ls).value, BodyDone(true));
            && Enabled(s1, Io) && o < |Step(s1, Io).objs| && Step(s1, Io).objs[o].status.ReadOk?
            && (After(Step(s1, Io), more).Some? ==>
                  var s' := After(Step(s1, Io), more).value; o < |s'.objs| && s'.objs[o].status.ReadOk?)
  {
    var s := After(s0, ls).value;
    var s1 := Step(s, BodyDone(true));
    RunHistory(s0, ls);
    HandledOnce(s0, ls, o);
    BodyKeeps(s, o);
    CoherentStep(s, BodyDone(true));
    CoherentStep(s1, Io);
    UnarmedStep(s, BodyDone(true));
    UnarmedStep(s1, Io);
    if After(Step(s1, Io), more).Some? {
      KeptRun(Step(s1, Io), more, o, s.objs[o].reqId);
    }
  }

  // ---------------------------------------------------------------- which entry a reply goes to

  /** A head for an id that is not in the map is read into a fresh entry of that id, which no map key names. */
  lemma HeadUnknown(s: State, k: int)
    requires Coherent(s) && Enabled(s, HeadArrives(k)) && k !in s.recv
    ensures var s1 := Step(s, HeadArrives(k));
            && Enabled(s1, Io) && Step(s1, Io).io.IoFree? && Step(s1, Io).reading == Some(|s.objs|)
            && Names(Step(s1, Io).objs, |s.objs|, k) && Step(s1, Io).recv == s.recv
            && forall j | j in s.recv :: s.recv[j] != Some(|s.objs|)
  {
    assert forall j | j in s.recv && s.recv[j].Some? :: Names(s.objs, s.recv[j].value, j);
  }

  /** The last head that arrived. */
  function LastHead(ls: seq<Label>): Option<int> {
    if ls == [] then None else if Last(ls).HeadArrives? then Some(Last(ls).k) else LastHead(ls[..|ls| - 1])
  }

  ghost predicate ReadsHead(s: State, h: Option<int>) {
    && (s.reading.Some? ==> h.Some? && Names(s.objs, s.reading.value, h.value))
    && forall k | InHead(s.io, k) :: h == Some(k)
  }

  /** Over every run the body being read goes to an entry with the id of the last head. */
  lemma {:induction false} BodyFollowsHead(s0: State, ls: seq<Label>)
    requires Init(s0) && After(s0, ls).Some?
    ensures ReadsHead(After(s0, ls).value, LastHead(ls))
  {
    if ls != [] {
      var s, l := After(s0, ls[..|ls| - 1]).value, Last(ls);
      BodyFollowsHead(s0, ls[..|ls| - 1]);
      RunHistory(s0, ls[..|ls| - 1]);
      ReadsHeadStep(s, l, LastHead(ls[..|ls| - 1]));
    }
  }

  lemma ReadsHeadStep(s: State, l: Label, h: Option<int>)
    requires Coherent(s) && Enabled(s, l) && ReadsHead(s, h)
    ensures ReadsHead(Step(s, l), if l.HeadArrives? then Some(l.k) else h)
  {
    CoherentStep(s, l);
    if l.App? {
      AppFrame(s, l.t);
    } else if l.Io? {
      IoReadsHead(s, h);
    }
  }

  lemma IoReadsHead(s: State, h: Option<int>)
    requires Coherent(s) && ReadsHead(s, h) && IdsKept(s.objs, IoStep(s).objs)
    ensures ReadsHead(IoStep(s), h)
  {
    IoReads(s);
    if s.io.HeadRead? && Deref(s, s.io.k).Some? {
      assert Names(s.objs, s.recv[s.io.k].value, s.io.k) && InHead(s.io, s.io.k);
    } else if s.io.HeadFind? {
      assert InHead(s.io, s.io.k);
      FreshNamed(s);
    }
  }

  lemma FreshNamed(s: State)
    requires s.io.HeadFind?
    ensures IoStep(s).reading == s.reading || Names(IoStep(s).objs, |s.objs|, s.io.k)
  {
    if s.io.k in s.recv {
    } else {
    }
  }
}
