/**
 The receive map under the contract of the API: an id is read at most once, after its write()
 returned.  Every id then walks Making, Written, Asked, Deleting, Gone, and every map pointer is its own
 entry or null inside its writer's insertion.
 */
module ClientMap {
  import opened Prelude
  import opened ClientSteps
  import opened ClientErase

  /** read(k) only for an id that write() returned and that was not read before. */
  ghost predicate ReadsOnce(s: State, l: Label) {
    l.BeginRead? ==> l.k in s.phase && s.phase[l.k].Written?
  }

  ghost predicate PhaseIs(s: State, k: int, p: Phase) {
    k in s.phase && s.phase[k] == p
  }

  /** Id k has a non-null pointer in the map. */
  ghost predicate Present(s: State, k: int) {
    k in s.recv && s.recv[k].Some?
  }

  /** The id a thread works on. */
  ghost function Key(pc: AppPc): Option<int> {
    if pc.AppIdle? then None else Some(pc.k)
  }

  ghost predicate PcOk(s: State, pc: AppPc) {
    match pc
    case AppIdle => true
    case WriteMake(k) => PhaseIs(s, k, Making) && k !in s.recv
    case WriteSlot(k, o) => PhaseIs(s, k, Making) && k !in s.recv
    case WriteStore(k, o) => PhaseIs(s, k, Making) && k in s.recv && s.recv[k].None?
    case WriteArm(k, o) => PhaseIs(s, k, Making) && k in s.recv && s.recv[k] == Some(o)
    case ReadFind(k) => PhaseIs(s, k, Asked) && Present(s, k)
    case ReadGet(k) => PhaseIs(s, k, Asked) && Present(s, k)
    case ReadPoll(k, r) => PhaseIs(s, k, Asked) && Present(s, k) && s.recv[k] == r
    case ReadFlag(k, o) => PhaseIs(s, k, Asked) && k in s.recv && s.recv[k] == Some(o)
    case ReadCount(k, o) => PhaseIs(s, k, Asked) && k in s.recv && s.recv[k] == Some(o)
    case ReadLink(k, o, id) => PhaseIs(s, k, Asked) && k in s.recv && s.recv[k] == Some(o)
  }

  ghost predicate KeysApart(s: State) {
    forall t, u | t in s.pcs && u in s.pcs && t != u && Key(s.pcs[t]).Some? :: Key(s.pcs[t]) != Key(s.pcs[u])
  }

  /** Thread t stands between the null insertion of id k and the assignment to it. */
  ghost predicate Storing(s: State, t: Tid, k: int) {
    t in s.pcs && s.pcs[t].WriteStore? && s.pcs[t].k == k
  }

  /** The phase of an id decides its place in the map. */
  ghost predicate IdOk(s: State, k: int)
    requires k in s.phase
  {
    match s.phase[k]
    case Making => true
    case Gone => k !in s.recv
    case _ => Present(s, k)
  }

  /** The id the sweep has popped and not yet dealt with. */
  ghost function Held(io: IoPc): Option<int> {
    if io.SweepFind? || io.SweepExec? || io.SweepErase? || io.SweepState? || io.SweepMark? || io.SweepPush?
    then Some(io.k) else None
  }

  ghost predicate ListOk(s: State) {
    && Distinct(s.delq)
    && (forall k | k in s.delq :: PhaseIs(s, k, Deleting))
    && (Held(s.io).Some? ==> PhaseIs(s, Held(s.io).value, Deleting) && Held(s.io).value !in s.delq)
  }

  ghost predicate HandlerOk(s: State) {
    (s.io.HeadSet? ==> s.io.k in s.recv) && (s.io.HeadRead? ==> Present(s, s.io.k))
  }

  ghost predicate NullsOwned(s: State) {
    forall k | k in s.recv && s.recv[k].None? :: exists t :: Storing(s, t, k)
  }

  ghost predicate IdsOk(s: State) {
    && s.nextId >= 1
    && (forall k :: k in s.phase <==> 1 <= k < s.nextId)
    && (forall k | k in s.phase :: IdOk(s, k))
    && (forall k | k in s.recv :: k in s.phase)
  }

  ghost predicate Owned(s: State) {
    && IdsOk(s)
    && (forall t | t in s.pcs :: PcOk(s, s.pcs[t]))
    && KeysApart(s)
    && ListOk(s)
    && HandlerOk(s)
    && NullsOwned(s)
  }

  // ---------------------------------------------------------------- one step of an application thread

  ghost predicate SameAt(s: State, s': State, k: int) {
    && (k in s'.recv <==> k in s.recv) && (k in s.recv && k in s'.recv ==> s'.recv[k] == s.recv[k])
    && (k in s'.phase <==> k in s.phase) && (k in s.phase && k in s'.phase ==> s'.phase[k] == s.phase[k])
  }

  /** Thread t moved and only its own id changed; it may have put that id on the delete list. */
  ghost predicate AppMove(s: State, s': State, t: Tid, k: int) {
    && t in s.pcs && t in s'.pcs && s'.pcs == s.pcs[t := s'.pcs[t]]
    && Key(s.pcs[t]) == Some(k) && (Key(s'.pcs[t]) == None || Key(s'.pcs[t]) == Some(k))
    && s'.nextId == s.nextId && s'.io == s.io
    && (forall j | j != k :: SameAt(s, s', j))
    && k in s.phase && k in s'.phase && IdOk(s', k) && PcOk(s', s'.pcs[t])
    && (k in s.recv ==> k in s'.recv) && (Present(s, k) ==> Present(s', k))
    && (k in s'.recv && s'.recv[k].None? ==> Storing(s', t, k))
    && (s'.delq == s.delq || (s'.delq == s.delq + [k] && PhaseIs(s, k, Asked) && PhaseIs(s', k, Deleting)))
    && !PhaseIs(s, k, Deleting)
  }

  lemma WriteMove(s: State, t: Tid)
    requires t in s.pcs && !IsRead(s.pcs[t]) && !s.pcs[t].AppIdle?
    requires PcOk(s, s.pcs[t]) && PcCoherent(s.objs, s.pcs[t])
    ensures AppMove(s, WriteStep(s, t), t, s.pcs[t].k) && !(WriteStep(s, t).crashed && !s.crashed)
  {
    var pc := s.pcs[t];
    if pc.WriteMake? {
    } else if pc.WriteSlot? {
    } else if pc.WriteStore? {
    } else {
    }
  }

  lemma ReadMove(s: State, t: Tid)
    requires t in s.pcs && IsRead(s.pcs[t])
    requires PcOk(s, s.pcs[t]) && PcCoherent(s.objs, s.pcs[t])
    ensures AppMove(s, ReadStep(s, t), t, s.pcs[t].k) && !(ReadStep(s, t).crashed && !s.crashed)
  {
    if s.pcs[t].ReadFind? {
    } else if s.pcs[t].ReadGet? {
    } else if s.pcs[t].ReadPoll? {
      assert s.pcs[t := s.pcs[t]] == s.pcs;
    } else if s.pcs[t].ReadFlag? {
    } else if s.pcs[t].ReadCount? {
    } else {
    }
  }

  lemma AppMoveOwned(s: State, s': State, t: Tid, k: int)
    requires Owned(s) && AppMove(s, s', t, k)
    ensures Owned(s')
  {
    forall u | u in s'.pcs ensures PcOk(s', s'.pcs[u]) {
      if u != t && !s.pcs[u].AppIdle? {
        assert SameAt(s, s', s.pcs[u].k);
      }
    }
    forall j
      ensures (j in s'.phase <==> j in s.phase) && (j in s'.phase ==> IdOk(s', j)) && (j in s'.recv ==> j in s.phase)
    {
      assert j != k ==> SameAt(s, s', j);
    }
    forall j | j in s'.recv && s'.recv[j].None? ensures exists u :: Storing(s', u, j) {
      if j != k {
        assert SameAt(s, s', j);
        var u :| Storing(s, u, j);
        assert Storing(s', u, j);
      }
    }
    AppMoveList(s, s', t, k);
  }

  lemma AppMoveList(s: State, s': State, t: Tid, k: int)
    requires ListOk(s) && HandlerOk(s) && AppMove(s, s', t, k)
    ensures ListOk(s') && HandlerOk(s')
  {
    assert k !in s.delq;
    forall j | j in s'.delq ensures PhaseIs(s', j, Deleting) {
      assert j != k ==> SameAt(s, s', j);
    }
    if Held(s.io).Some? {
      assert SameAt(s, s', Held(s.io).value);
    }
    if s.io.HeadSet? || s.io.HeadRead? {
      assert s.io.k != k ==> SameAt(s, s', s.io.k);
    }
  }

  // ---------------------------------------------------------------- one step of the io thread

  /** The io thread moved; ids and threads stayed. */
  ghost predicate IdsStay(s: State, s': State) {
    s'.recv == s.recv && s'.phase == s.phase && s'.pcs == s.pcs && s'.nextId == s.nextId
  }

  lemma IdsStayOwned(s: State, s': State)
    requires Owned(s) && IdsStay(s, s') && ListOk(s') && HandlerOk(s')
    ensures Owned(s')
  {
    forall t | t in s.pcs ensures PcOk(s', s.pcs[t]) {
      assert PcOk(s, s.pcs[t]);
    }
    forall k | k in s'.phase ensures IdOk(s', k) {
      assert IdOk(s, k);
    }
    forall k | k in s'.recv && s'.recv[k].None? ensures exists t :: Storing(s', t, k) {
      var t :| Storing(s, t, k);
      assert Storing(s', t, k);
    }
  }

  lemma HandlerMove(s: State)
    requires IsHandler(s.io) && ListOk(s) && HandlerOk(s)
    ensures IdsStay(s, HandlerStep(s)) && ListOk(HandlerStep(s)) && HandlerOk(HandlerStep(s))
  {
    if s.io.HeadFind? {
    } else if s.io.HeadSet? {
    } else if s.io.HeadRead? {
    } else {
    }
  }

  lemma EventMove(s: State, l: Label)
    requires Enabled(s, l) && ListOk(s) && HandlerOk(s)
    requires l.HeadArrives? || l.BodyDone? || l.BodyDropped? || l.TimerExpires? || l.TimeoutRuns? || l.AbortRuns?
        || l.SweepBegins?
    ensures IdsStay(s, Step(s, l)) && ListOk(Step(s, l)) && HandlerOk(Step(s, l))
  {
    assert Step(s, l).delq == s.delq;
  }

  lemma SweepListMove(s: State)
    requires (s.io.SweepPop? || s.io.SweepPush?) && ListOk(s) && HandlerOk(s)
    ensures IdsStay(s, SweepStep(s)) && ListOk(SweepStep(s)) && HandlerOk(SweepStep(s))
  {
    if s.io.SweepPop? && |s.delq| > 0 {
      assert forall k | k in s.delq[1..] :: k in s.delq;
      assert s.delq[0] in s.delq && s.delq[0] !in s.delq[1..];
    }
  }

  lemma SweepTestMove(s: State)
    requires s.io.SweepTest? || s.io.SweepFind? || s.io.SweepExec? || s.io.SweepState? || s.io.SweepMark?
        || s.io.IoFree?
    requires ListOk(s) && HandlerOk(s)
    ensures IdsStay(s, SweepStep(s)) && ListOk(SweepStep(s)) && HandlerOk(SweepStep(s))
  {
    if s.io.SweepTest? {
    } else if s.io.SweepFind? {
    } else if s.io.SweepExec? {
    } else if s.io.SweepState? {
    } else if s.io.SweepMark? {
    } else {
    }
  }

  lemma EraseOwned(s: State)
    requires Owned(s) && s.io.SweepErase?
    ensures Owned(SweepStep(s))
  {
    var s', k := SweepStep(s), s.io.k;
    assert forall j | j != k :: SameAt(s, s', j);
    forall u | u in s'.pcs ensures PcOk(s', s'.pcs[u]) {
      assert PcOk(s, s.pcs[u]);
    }
    forall j | j in s'.phase ensures IdOk(s', j) {
      assert IdOk(s, j);
    }
    forall j | j in s'.recv && s'.recv[j].None? ensures exists u :: Storing(s', u, j) {
      var u :| Storing(s, u, j);
      assert Storing(s', u, j);
    }
    assert forall j | j in s'.delq :: SameAt(s, s', j);
  }

  lemma BeginWriteOwned(s: State, t: Tid)
    requires Owned(s) && Enabled(s, BeginWrite(t))
    ensures Owned(Step(s, BeginWrite(t)))
  {
    var s', k := Step(s, BeginWrite(t)), s.nextId;
    assert k !in s.phase && k !in s.recv;
    assert forall j | j != k :: SameAt(s, s', j);
    forall u | u in s'.pcs ensures PcOk(s', s'.pcs[u]) {
      assert PcOk(s, s.pcs[u]);
    }
    forall j | j in s'.phase ensures IdOk(s', j) {
      assert j != k ==> IdOk(s, j);
    }
    forall j | j in s'.recv && s'.recv[j].None? ensures exists u :: Storing(s', u, j) {
      var u :| Storing(s, u, j);
      assert Storing(s', u, j);
    }
    assert forall j | j in s'.delq :: SameAt(s, s', j);
  }

  lemma BeginReadOwned(s: State, t: Tid, k: int)
    requires Owned(s) && Enabled(s, BeginRead(t, k)) && ReadsOnce(s, BeginRead(t, k))
    ensures Owned(Step(s, BeginRead(t, k)))
  {
    var s' := Step(s, BeginRead(t, k));
    assert IdOk(s, k);
    assert forall j | j != k :: SameAt(s, s', j);
    forall u | u in s'.pcs ensures PcOk(s', s'.pcs[u]) {
      assert PcOk(s, s.pcs[u]);
    }
    forall j | j in s'.phase ensures IdOk(s', j) {
      assert j != k ==> IdOk(s, j);
    }
    forall j | j in s'.recv && s'.recv[j].None? ensures exists u :: Storing(s', u, j) {
      var u :| Storing(s, u, j);
      assert Storing(s', u, j);
    }
    assert forall j | j in s'.delq :: SameAt(s, s', j);
  }

  /** Every step within the contract keeps the ownership discipline. */
  lemma OwnedStep(s: State, l: Label)
    requires Owned(s) && Coherent(s) && Enabled(s, l) && ReadsOnce(s, l)
    ensures Owned(Step(s, l))
  {
    if l.BeginWrite? {
      BeginWriteOwned(s, l.t);
    } else if l.BeginRead? {
      BeginReadOwned(s, l.t, l.k);
    } else if l.App? {
      if IsRead(s.pcs[l.t]) {
        ReadMove(s, l.t);
      } else {
        WriteMove(s, l.t);
      }
      AppMoveOwned(s, Step(s, l), l.t, s.pcs[l.t].k);
    } else if l.Io? && s.io.SweepErase? {
      EraseOwned(s);
    } else {
      IoMove(s, l);
      IdsStayOwned(s, Step(s, l));
    }
  }

  lemma IoMove(s: State, l: Label)
    requires Enabled(s, l) && ListOk(s) && HandlerOk(s)
    requires !l.BeginWrite? && !l.BeginRead? && !l.App? && !(l.Io? && s.io.SweepErase?)
    ensures IdsStay(s, Step(s, l)) && ListOk(Step(s, l)) && HandlerOk(Step(s, l))
  {
    if !l.Io? {
      EventMove(s, l);
    } else if IsHandler(s.io) {
      HandlerMove(s);
    } else if s.io.SweepPop? || s.io.SweepPush? {
      SweepListMove(s);
    } else {
      SweepTestMove(s);
    }
  }
}
