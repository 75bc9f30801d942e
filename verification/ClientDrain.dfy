/**
 Read entries drain.  Whatever writers, replies and timers do meanwhile, every visit of a sweep takes
 one off a potential of the queued ids, and a whole sweep makes enough visits to cut it to three quarters.
 */
module ClientDrain {
  import opened Prelude
  import opened ClientSteps
  import opened ClientFrames
  import opened ClientErase
  import opened ClientMap
  import opened ClientRuns
  import opened ClientFlags
  import opened ClientSweep
  import EraseSweep

  // ---------------------------------------------------------------- the potential of a state

  ghost function Weight(s: State, k: int): nat {
    EraseSweep.Weight(FlagsOf(s), k)
  }

  /** Visits still needed by the queued ids and the one the sweep holds. */
  ghost function Pot(s: State): nat {
    EraseSweep.Potential(FlagsOf(s), s.delq) + if Held(s.io).Some? then Weight(s, Held(s.io).value) else 0
  }

  /** Ids on the list or held by the sweep. */
  ghost function Len(s: State): nat {
    |s.delq| + if Held(s.io).Some? then 1 else 0
  }

  /** Visits of the running sweep that have taken their effect. */
  ghost function Done(io: IoPc): nat {
    if io.SweepTest? || io.SweepPop? || io.SweepFind? || io.SweepExec? || io.SweepErase? || io.SweepState?
      || io.SweepMark? then io.i
    else if io.SweepPush? then io.i + 1
    else 0
  }

  lemma WeightOf(s: State, k: int)
    ensures FlagIs(s, k, EraseState) ==> Weight(s, k) == 2
    ensures FlagIs(s, k, EraseExec) ==> Weight(s, k) == 1
  {
  }

  lemma PotLen(s: State)
    ensures Len(s) <= Pot(s) <= 2 * Len(s)
  {
  }

  lemma WeightKept(s: State, l: Label, k: int)
    requires Sound(s) && Enabled(s, l) && ReadsOnce(s, l) && PhaseIs(s, k, Deleting) && !Changes(s, l, k)
    ensures Weight(Step(s, l), k) == Weight(s, k)
  {
    WeightOf(s, k);
    WeightOf(Step(s, l), k);
    if FlagIs(s, k, EraseState) {
      Leaves(s, l, k, EraseState);
    } else {
      Leaves(s, l, k, EraseExec);
    }
  }

  /** No step changes what the ids on the list still need. */
  lemma ListKept(s: State, l: Label)
    requires Sound(s) && Enabled(s, l) && ReadsOnce(s, l)
    ensures EraseSweep.Potential(FlagsOf(Step(s, l)), s.delq) == EraseSweep.Potential(FlagsOf(s), s.delq)
  {
    forall k | k in s.delq ensures EraseSweep.Weight(FlagsOf(Step(s, l)), k) == EraseSweep.Weight(FlagsOf(s), k) {
      assert PhaseIs(s, k, Deleting) && (Held(s.io).Some? ==> Held(s.io).value != k);
      WeightKept(s, l, k);
    }
    EraseSweep.PotentialSame(FlagsOf(Step(s, l)), FlagsOf(s), s.delq);
  }

  lemma PotentialOne(f: EraseSweep.Flags, k: int)
    ensures EraseSweep.Potential(f, [k]) == EraseSweep.Weight(f, k)
  {
    assert [k][..0] == [];
  }

  // ---------------------------------------------------------------- one step without readers

  ghost predicate Quiet(s: State) {
    forall t | t in s.pcs :: !IsRead(s.pcs[t])
  }

  /** Potential and progress balance, and the list loses no more than the progress. */
  ghost predicate Balanced(s: State, s': State) {
    Pot(s') + Done(s'.io) == Pot(s) + Done(s.io) && Len(s') + Done(s'.io) >= Len(s) + Done(s.io)
  }

  lemma QuietStep(s: State, l: Label)
    requires Quiet(s) && Enabled(s, l) && !l.BeginRead?
    ensures Quiet(Step(s, l)) && (l.App? ==> Step(s, l).delq == s.delq)
  {
    if l.App? {
      AppFrame(s, l.t);
      WritesOnly(s, l.t);
    } else if l.Io? {
      IoFrame(s);
    }
  }

  lemma WritesOnly(s: State, t: Tid)
    requires t in s.pcs && !IsRead(s.pcs[t])
    ensures t in WriteStep(s, t).pcs && !IsRead(WriteStep(s, t).pcs[t]) && WriteStep(s, t).delq == s.delq
  {
    var pc := s.pcs[t];
    if pc.WriteMake? {
    } else if pc.WriteSlot? {
    } else if pc.WriteStore? {
    } else if pc.WriteArm? {
    } else {
    }
  }

  lemma QuietUnlocked(s: State)
    requires Quiet(s) && Coherent(s)
    ensures s.pusher.None? && Size(s) == |s.delq|
  {
    assert forall t :: s.pusher != Some(t);
  }

  /** Steps of others. */
  lemma OthersBalance(s: State, l: Label)
    requires Sound(s) && Quiet(s) && Enabled(s, l) && !l.BeginRead? && !l.Io?
    ensures Balanced(s, Step(s, l))
  {
    ListKept(s, l);
    QuietStep(s, l);
    StaysIo(s, l);
    assert Step(s, l).delq == s.delq;
    if Held(s.io).Some? {
      WeightKept(s, l, Held(s.io).value);
    }
  }

  lemma HandlerBalance(s: State)
    requires Sound(s) && Enabled(s, Io) && IsHandler(s.io)
    ensures Balanced(s, IoStep(s))
  {
    ListKept(s, Io);
    IoGoes(s);
    SameList(s, IoStep(s));
  }

  lemma SameList(s: State, s': State)
    requires s'.delq == s.delq && !InSweep(s.io) && !InSweep(s'.io)
    requires EraseSweep.Potential(FlagsOf(s'), s.delq) == EraseSweep.Potential(FlagsOf(s), s.delq)
    ensures Balanced(s, s')
  {
  }

  /** The loop's pop moves the front of the list into the sweep's hand. */
  lemma PopBalance(s: State)
    requires s.io.SweepPop? && s.delq != []
    ensures Balanced(s, IoStep(s))
  {
    var f, k := FlagsOf(s), s.delq[0];
    assert IoStep(s) == s.(io := SweepFind(s.io.i, k), delq := s.delq[1..]);
    assert FlagsOf(IoStep(s)) == f;
    assert s.delq == [k] + s.delq[1..];
    EraseSweep.PotentialConcat(f, [k], s.delq[1..]);
    PotentialOne(f, k);
  }

  /** Its push puts it back. */
  lemma PushBalance(s: State)
    requires s.io.SweepPush?
    ensures Balanced(s, IoStep(s))
  {
    var f, k := FlagsOf(s), s.io.k;
    assert IoStep(s) == s.(io := SweepTest(s.io.i + 1), delq := s.delq + [k]);
    assert FlagsOf(IoStep(s)) == f;
    EraseSweep.PotentialConcat(f, s.delq, [k]);
    PotentialOne(f, k);
  }

  lemma TestBalance(s: State)
    requires Sound(s) && Quiet(s) && s.io.SweepTest?
    ensures var s' := IoStep(s);
            && Pot(s') == Pot(s) && Len(s') == Len(s)
            && if s.io.i < |s.delq| then s'.io == SweepPop(s.io.i) else s'.io.IoFree?
  {
    QuietUnlocked(s);
    assert IoStep(s) == s.(io := if s.io.i < |s.delq| then SweepPop(s.io.i) else IoFree);
    assert FlagsOf(IoStep(s)) == FlagsOf(s);
  }

  /** The tests of the held id change nothing. */
  lemma HeldBalance(s: State)
    requires (s.io.SweepFind? || s.io.SweepExec? || s.io.SweepState?) && HasFlag(s, s.io.k)
    requires s.io.SweepState? ==> FlagIs(s, s.io.k, EraseState)
    ensures Balanced(s, IoStep(s))
  {
    SweepTurns(s);
    assert FlagsOf(IoStep(s)) == FlagsOf(s);
  }

  /** Marking takes one off the held id. */
  lemma MarkBalance(s: State)
    requires Sound(s) && Enabled(s, Io) && s.io.SweepMark?
    ensures Balanced(s, IoStep(s))
  {
    ListKept(s, Io);
    WeightOf(s, s.io.k);
    WeightOf(IoStep(s), s.io.k);
    MarkStep(s);
  }

  /** Erasing drops the last one. */
  lemma EraseBalance(s: State)
    requires Sound(s) && Enabled(s, Io) && s.io.SweepErase?
    ensures Balanced(s, IoStep(s))
  {
    ListKept(s, Io);
    WeightOf(s, s.io.k);
    var s' := IoStep(s);
    assert s'.io == SweepTest(s.io.i + 1) && s'.delq == s.delq;
  }

  lemma IoBalance(s: State)
    requires Sound(s) && Quiet(s) && Enabled(s, Io) && !s.io.SweepTest?
    ensures Balanced(s, IoStep(s))
  {
    if IsHandler(s.io) {
      HandlerBalance(s);
    } else if s.io.SweepPop? {
      QuietUnlocked(s);
      PopBalance(s);
    } else if s.io.SweepPush? {
      PushBalance(s);
    } else if s.io.SweepMark? {
      MarkBalance(s);
    } else if s.io.SweepErase? {
      EraseBalance(s);
    } else {
      assert PhaseIs(s, s.io.k, Deleting);
      HeldBalance(s);
    }
  }

  // ---------------------------------------------------------------- runs without readers

  /** The sweeps begun and completed so far, and the state in which the running one began. */
  datatype Progress = Progress(swept: nat, start: Option<State>)

  /** The loop test at which a sweep ends. */
  ghost predicate Completes(s: State, l: Label) {
    l.Io? && s.io.SweepTest? && s.io.i >= Size(s)
  }

  ghost function Advance(p: Progress, s: State, l: Label): Progress {
    if l.SweepBegins? then p.(start := Some(s))
    else if Completes(s, l) && p.start.Some? then Progress(p.swept + 1, None)
    else p
  }

  /** Counts the sweeps that begin and end within the labels more, taken from s. */
  ghost function ProgressOf(s: State, more: seq<Label>): Progress {
    if more == [] then Progress(0, None)
    else
      var m := After(s, more[..|more| - 1]);
      var p := ProgressOf(s, more[..|more| - 1]);
      if m.Some? then Advance(p, m.value, Last(more)) else p
  }

  /** The potential q has been cut once per completed sweep; the running sweep has done Done visits of it. */
  ghost predicate Shrunk(s: State, p: Progress, q: nat) {
    && Pot(s) <= EraseSweep.Cut(q, p.swept)
    && (p.start.Some? ==>
          var b := p.start.value;
          && InSweep(s.io) && Pot(b) <= EraseSweep.Cut(q, p.swept) && Pot(b) <= 2 * Len(b)
          && Pot(s) + Done(s.io) == Pot(b) && Len(s) + Done(s.io) >= Len(b))
  }

  /** A completed sweep has made at least half as many visits as there were ids. */
  lemma SweepCuts(pot: nat, done: nat, before: nat, len: nat, bound: nat)
    requires pot + done == before <= bound && before <= 2 * len && len <= 2 * done
    ensures pot <= bound * 3 / 4
  {
  }

  lemma ShrunkTest(s: State, p: Progress, q: nat)
    requires Sound(s) && Quiet(s) && Enabled(s, Io) && s.io.SweepTest? && Shrunk(s, p, q)
    ensures Shrunk(IoStep(s), Advance(p, s, Io), q)
  {
    QuietUnlocked(s);
    TestBalance(s);
    if s.io.i >= |s.delq| && p.start.Some? {
      var b := p.start.value;
      SweepCuts(Pot(s), s.io.i, Pot(b), Len(b), EraseSweep.Cut(q, p.swept));
    }
  }

  lemma ShrunkStep(s: State, l: Label, p: Progress, q: nat)
    requires Sound(s) && Quiet(s) && Enabled(s, l) && !l.BeginRead? && Shrunk(s, p, q)
    ensures Shrunk(Step(s, l), Advance(p, s, l), q)
  {
    if l.Io? && s.io.SweepTest? {
      ShrunkTest(s, p, q);
    } else if l.Io? {
      IoBalance(s);
      if InSweep(s.io) {
        StaysSweep(s);
      }
    } else {
      OthersBalance(s, l);
      StaysIo(s, l);
      PotLen(s);
    }
  }

  lemma StaysSweep(s: State)
    requires !s.io.SweepTest? && InSweep(s.io)
    ensures InSweep(IoStep(s).io) && Done(s.io) <= Done(IoStep(s).io)
  {
    if s.io.SweepPop? {
    } else if s.io.SweepFind? {
    } else if s.io.SweepPush? {
    } else if s.io.SweepExec? {
    } else if s.io.SweepErase? {
    } else if s.io.SweepState? {
    } else {
    }
  }

  lemma {:induction false} ShrunkRun(s: State, more: seq<Label>)
    requires Sound(s) && Quiet(s) && NoReads(more) && After(s, more).Some?
    ensures var s' := After(s, more).value; Sound(s') && Quiet(s') && Shrunk(s', ProgressOf(s, more), Pot(s))
    decreases |more|
  {
    if more != [] {
      var more', l := more[..|more| - 1], Last(more);
      var m := After(s, more').value;
      ShrunkRun(s, more');
      SoundStep(m, l);
      QuietStep(m, l);
      ShrunkStep(m, l, ProgressOf(s, more'), Pot(s));
    }
  }

  // ---------------------------------------------------------------- the fate of an id

  /** Id k is on the list or in the sweep's hand, or it has left the map for good. */
  ghost predicate Fated(s: State, k: int) {
    || (PhaseIs(s, k, Deleting) && (k in s.delq || Held(s.io) == Some(k)))
    || PhaseIs(s, k, Gone)
  }

  lemma IoFated(s: State, k: int)
    requires Fated(s, k) && (Held(s.io).Some? ==> Held(s.io).value in s.recv)
    ensures Fated(IoStep(s), k)
  {
    if s.io.HeadFind? {
    } else if s.io.HeadSet? {
    } else if s.io.HeadRead? {
    } else if s.io.SetStatus? {
    } else if s.io.SweepTest? {
    } else if s.io.SweepPop? {
      assert s.delq != [] ==> s.delq == [s.delq[0]] + s.delq[1..];
    } else if s.io.SweepFind? {
    } else if s.io.SweepPush? {
    } else if s.io.SweepExec? {
    } else if s.io.SweepErase? {
    } else if s.io.SweepState? {
    } else if s.io.SweepMark? {
    } else {
    }
  }

  lemma FatedStep(s: State, l: Label, k: int)
    requires Sound(s) && Enabled(s, l) && ReadsOnce(s, l) && Fated(s, k)
    ensures Fated(Step(s, l), k)
  {
    if l.Io? {
      assert Held(s.io).Some? ==> IdOk(s, Held(s.io).value);
      IoFated(s, k);
    } else if l.App? {
      assert PcOk(s, s.pcs[l.t]) && PcCoherent(s.objs, s.pcs[l.t]);
      AppFrame(s, l.t);
      AppIds(s, l.t);
      if IsRead(s.pcs[l.t]) {
        ReadMove(s, l.t);
      } else {
        WriteMove(s, l.t);
      }
      assert SameAt(s, AppStep(s, l.t), k);
    } else {
      StaysIo(s, l);
      assert Step(s, l).delq == s.delq;
    }
  }

  lemma {:induction false} FatedRun(s: State, more: seq<Label>, k: int)
    requires Sound(s) && NoReads(more) && After(s, more).Some? && Fated(s, k)
    ensures Sound(After(s, more).value) && Fated(After(s, more).value, k)
    decreases |more|
  {
    if more != [] {
      FatedRun(s, more[..|more| - 1], k);
      SoundStep(After(s, more[..|more| - 1]).value, Last(more));
      FatedStep(After(s, more[..|more| - 1]).value, Last(more), k);
    }
  }

  // ---------------------------------------------------------------- read entries drain

  /** From any state that a run within the contract reaches with no read in progress, along every continuation
      that begins no read: once the sweeps that began and ended within it cut the potential to zero, at most two
      for every queued id, the delete list is empty and every entry that was on it has left the map. */
  lemma ReadEntriesDrain(s0: State, ls: seq<Label>, more: seq<Label>)
    requires Init(s0) && After(s0, ls).Some? && OnceRun(s0, ls)
    requires After(After(s0, ls).value, more).Some? && NoReads(more) && Quiet(After(s0, ls).value)
    requires var s := After(s0, ls).value;
             var n := ProgressOf(s, more).swept;
             EraseSweep.Cut(Pot(s), n) == 0 || n >= 2 * Len(s)
    ensures var s, s' := After(s0, ls).value, After(After(s0, ls).value, more).value;
            && s'.delq == [] && Held(s'.io) == None
            && forall k | k in s.delq || Held(s.io) == Some(k) :: k !in s'.recv
  {
    var s := After(s0, ls).value;
    var s' := After(s, more).value;
    RunSound(s0, ls);
    ShrunkRun(s, more);
    PotLen(s);
    PotLen(s');
    EraseSweep.CutVanishes(Pot(s), ProgressOf(s, more).swept);
    forall k | k in s.delq || Held(s.io) == Some(k) ensures k !in s'.recv {
      FatedRun(s, more, k);
      assert IdOk(s', k);
    }
  }
}
