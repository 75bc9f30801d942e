/** The polling loop of read() can be released from every reachable state. */
module ClientRelease {
  import opened Prelude
  import opened ClientSteps
  import opened ClientFrames
  import opened ClientErase
  import opened ClientTimers
  import opened ClientMap
  import opened ClientRuns
  import opened ClientCrash

  /** A run within the contract that has not crashed. */
  ghost predicate Good(s0: State, ls: seq<Label>) {
    Init(s0) && After(s0, ls).Some? && OnceRun(s0, ls) && !After(s0, ls).value.crashed
  }

  ghost function End(s0: State, ls: seq<Label>): State
    requires Good(s0, ls)
  {
    After(s0, ls).value
  }

  /** The io thread handles a head whose id thread u is inserting. */
  ghost predicate Clashes(s: State, u: Tid) {
    (s.io.HeadFind? || s.io.HeadSet?) && Storing(s, u, s.io.k)
  }

  /** No push is half done and no insertion that the running handler depends on. */
  ghost predicate Calm(s: State) {
    s.pusher.None? && forall u :: !Clashes(s, u)
  }

  lemma Extend(s0: State, ls: seq<Label>, l: Label)
    requires Good(s0, ls) && Enabled(End(s0, ls), l) && !l.BeginRead?
    requires l.Io? ==> Calm(End(s0, ls))
    ensures Good(s0, ls + [l]) && End(s0, ls + [l]) == Step(End(s0, ls), l)
  {
    var s := End(s0, ls);
    RunOwned(s0, ls);
    CrashExactly(s, l);
    if l.Io? {
      CalmSafe(s);
    }
    assert (ls + [l])[..|ls + [l]| - 1] == ls;
  }

  /** A calm io thread does not crash. */
  lemma CalmSafe(s: State)
    requires Owned(s) && Coherent(s) && Calm(s) && !s.crashed && !s.io.IoFree?
    ensures Enabled(s, Io) && !Step(s, Io).crashed
  {
    CrashExactly(s, Io);
    if NullHead(s) {
      var u :| Storing(s, u, s.io.k);
      assert Clashes(s, u);
    }
  }

  lemma CalmIo(s: State)
    requires Calm(s)
    ensures Calm(IoStep(s))
  {
    IoGoes(s);
    IoFrame(s);
    forall u ensures !Clashes(IoStep(s), u) {
      assert !Clashes(s, u);
    }
  }

  // ---------------------------------------------------------------- half-done insertions end

  lemma LinkStep(s: State, u: Tid)
    requires Owned(s) && Coherent(s) && !s.crashed && s.pusher == Some(u)
    ensures Enabled(s, App(u)) && s.pcs[u].ReadLink?
    ensures var s' := Step(s, App(u));
            s'.pusher.None? && s'.io == s.io && s'.pcs == s.pcs[u := AppIdle]
  {
  }

  lemma StoreStep(s: State, u: Tid)
    requires Owned(s) && !s.crashed && s.pusher.None? && Clashes(s, u)
    ensures Enabled(s, App(u)) && s.pcs[u].WriteStore?
    ensures Step(s, App(u)).pcs == s.pcs[u := WriteArm(s.pcs[u].k, s.pcs[u].o)] && Calm(Step(s, App(u)))
  {
    var s' := Step(s, App(u));
    forall v ensures !Clashes(s', v) {
      assert v in s.pcs && v != u ==> Key(s.pcs[v]) != Key(s.pcs[u]);
    }
  }

  ghost predicate SamePc(s: State, s': State, t: Tid) {
    t in s.pcs && t in s'.pcs && s'.pcs[t] == s.pcs[t]
  }

  /** The half-done push is linked. */
  lemma UnblockPush(s0: State, ls: seq<Label>, t: Tid) returns (more: seq<Label>)
    requires Good(s0, ls) && t in End(s0, ls).pcs && End(s0, ls).pcs[t].ReadPoll?
    ensures Good(s0, ls + more) && End(s0, ls + more).pusher.None? && SamePc(End(s0, ls), End(s0, ls + more), t)
    ensures |more| <= 1 && forall l | l in more :: l.App? && End(s0, ls).pusher == Some(l.t)
    ensures forall u | Clashes(End(s0, ls + more), u) :: Clashes(End(s0, ls), u)
  {
    var s := End(s0, ls);
    RunOwned(s0, ls);
    if s.pusher.Some? {
      LinkStep(s, s.pusher.value);
      Extend(s0, ls, App(s.pusher.value));
      more := [App(s.pusher.value)];
    } else {
      more := [];
      assert ls + more == ls;
    }
  }

  /** The half-done insertion under the head being handled is completed. */
  lemma UnblockHead(s0: State, ls: seq<Label>, t: Tid) returns (more: seq<Label>)
    requires Good(s0, ls) && End(s0, ls).pusher.None? && t in End(s0, ls).pcs && End(s0, ls).pcs[t].ReadPoll?
    ensures Good(s0, ls + more) && Calm(End(s0, ls + more)) && SamePc(End(s0, ls), End(s0, ls + more), t)
    ensures |more| <= 1 && forall l | l in more :: l.App? && Clashes(End(s0, ls), l.t)
  {
    var s := End(s0, ls);
    RunOwned(s0, ls);
    if u :| Clashes(s, u) {
      StoreStep(s, u);
      Extend(s0, ls, App(u));
      more := [App(u)];
    } else {
      more := [];
      assert ls + more == ls;
    }
  }

  // ---------------------------------------------------------------- handlers end

  ghost function Left(n: nat, i: nat): nat {
    if n > i then n - i else 0
  }

  /** An upper bound on the steps the running handler still takes when left alone. */
  ghost function Rank(s: State): nat {
    match s.io
    case IoFree => 0
    case HeadFind(_) => 3
    case HeadSet(_) => 2
    case HeadRead(_) => 1
    case SetStatus(_, _) => 1
    case SweepTest(i) => 10 * Left(|s.delq|, i) + 9
    case SweepPop(i) => 10 * Left(|s.delq|, i) + 8
    case SweepFind(i, _) => 10 * Left(|s.delq|, i) + 17
    case SweepExec(i, _) => 10 * Left(|s.delq|, i) + 16
    case SweepState(i, _) => 10 * Left(|s.delq|, i) + 15
    case SweepMark(i, _) => 10 * Left(|s.delq|, i) + 14
    case SweepErase(i, _) => 10 * Left(|s.delq|, i) + 13
    case SweepPush(i, _) => 10 * Left(|s.delq|, i) + 13
  }

  lemma ListRankDrops(s: State)
    requires s.pusher.None?
    requires s.io.SweepTest? || (s.io.SweepPop?
        && s.io.i < |s.delq|) || s.io.SweepPush? || s.io.SweepErase? || s.io.SweepFind?
    ensures Rank(SweepStep(s)) < Rank(s)
  {
    if s.io.SweepTest? {
    } else if s.io.SweepPop? {
    } else if s.io.SweepPush? {
    } else if s.io.SweepErase? {
    } else {
    }
  }

  lemma FlagRankDrops(s: State)
    requires s.io.SweepExec? || s.io.SweepState? || s.io.SweepMark?
    requires !SweepStep(s).crashed
    ensures Rank(SweepStep(s)) < Rank(s)
  {
    assert SweepStep(s).delq == s.delq;
    if s.io.SweepExec? {
    } else if s.io.SweepState? {
    } else {
    }
  }

  lemma RankDrops(s: State)
    requires IoCoherent(s) && s.pusher.None? && !s.io.IoFree? && !IoStep(s).crashed
    ensures Rank(IoStep(s)) < Rank(s)
  {
    if s.io.SweepExec? || s.io.SweepState? || s.io.SweepMark? {
      FlagRankDrops(s);
    } else if !IsHandler(s.io) {
      ListRankDrops(s);
    }
  }

  lemma DrainStep(s0: State, ls: seq<Label>, o: Obj)
    requires Good(s0, ls) && Calm(End(s0, ls)) && !End(s0, ls).io.IoFree?
    requires o < |End(s0, ls).objs| && !End(s0, ls).objs[o].timer.Unset?
    ensures Good(s0, ls + [Io]) && Calm(End(s0, ls + [Io])) && End(s0, ls + [Io]).pcs == End(s0, ls).pcs
    ensures o < |End(s0, ls + [Io]).objs| && !End(s0, ls + [Io]).objs[o].timer.Unset?
    ensures Rank(End(s0, ls + [Io])) < Rank(End(s0, ls))
  {
    var s := End(s0, ls);
    RunHistory(s0, ls);
    Extend(s0, ls, Io);
    RankDrops(s);
    IoFrame(s);
    CalmIo(s);
    IoTouches(s, o);
  }

  /** Left alone, the io thread comes back from its handler without crashing or touching any thread. */
  lemma {:induction false} Drain(s0: State, ls: seq<Label>, o: Obj) returns (more: seq<Label>)
    requires Good(s0, ls) && Calm(End(s0, ls)) && o < |End(s0, ls).objs| && !End(s0, ls).objs[o].timer.Unset?
    ensures Good(s0, ls + more) && Calm(End(s0, ls + more))
    ensures End(s0, ls + more).io.IoFree? && End(s0, ls + more).pcs == End(s0, ls).pcs
    ensures o < |End(s0, ls + more).objs| && !End(s0, ls + more).objs[o].timer.Unset?
    ensures forall l | l in more :: l == Io
    decreases Rank(End(s0, ls))
  {
    if End(s0, ls).io.IoFree? {
      more := [];
      assert ls + [] == ls;
    } else {
      DrainStep(s0, ls, o);
      var rest := Drain(s0, ls + [Io], o);
      more := [Io] + rest;
      assert ls + more == ls + [Io] + rest;
    }
  }

  // ---------------------------------------------------------------- release

  /** The entry a read polls has its timer. */
  lemma PolledIsArmed(s0: State, ls: seq<Label>, t: Tid)
    requires Good(s0, ls) && t in End(s0, ls).pcs && End(s0, ls).pcs[t].ReadPoll?
    ensures var s := End(s0, ls);
            && s.pcs[t].r.Some? && s.pcs[t].r.value < |s.objs| && !s.objs[s.pcs[t].r.value].timer.Unset?
  {
    var s := End(s0, ls);
    RunOwned(s0, ls);
    RunTimers(s0, ls);
    var pc := s.pcs[t];
    assert PcOk(s, pc) && PcCoherent(s.objs, pc);
    forall u ensures !Arming(s, u, pc.k, pc.r.value) {
      assert u in s.pcs ==> PcOk(s, s.pcs[u]);
    }
  }

  /** A label of the io thread, of o's timer or of the reader t. */
  ghost predicate Own(l: Label, t: Tid, o: Obj) {
    l == Io || l == TimerExpires(o) || l == TimeoutRuns(o) || l == App(t)
  }

  /** Thread t polls entry o, whose timer was armed, while the io thread is free. */
  ghost predicate Polling(s: State, t: Tid, k: int, o: Obj) {
    && s.io.IoFree? && s.pusher.None? && t in s.pcs && s.pcs[t] == ReadPoll(k, Some(o))
    && o < |s.objs| && !s.objs[o].timer.Unset?
  }

  lemma PollSees(s: State, t: Tid, k: int, o: Obj)
    requires Polling(s, t, k, o) && Terminal(s.objs[o]) && !s.crashed
    ensures Enabled(s, App(t)) && t in Step(s, App(t)).pcs && Step(s, App(t)).pcs[t] == ReadFlag(k, o)
  {
  }

  lemma TimerFires(s: State, t: Tid, k: int, o: Obj)
    requires Polling(s, t, k, o) && s.objs[o].timer.Armed? && !s.crashed
    ensures Enabled(s, TimerExpires(o))
    ensures Polling(Step(s, TimerExpires(o)), t, k, o) && Step(s, TimerExpires(o)).objs[o].timer.Fired?
  {
  }

  lemma TimeoutLands(s: State, t: Tid, k: int, o: Obj)
    requires Polling(s, t, k, o) && s.objs[o].timer.Fired? && !s.crashed
    ensures Enabled(s, TimeoutRuns(o)) && Enabled(Step(s, TimeoutRuns(o)), Io)
    ensures Polling(Step(Step(s, TimeoutRuns(o)), Io), t, k, o)
    ensures Terminal(Step(Step(s, TimeoutRuns(o)), Io).objs[o])
  {
  }

  lemma ReleaseTerminal(s0: State, ls: seq<Label>, t: Tid, k: int, o: Obj)
    requires Good(s0, ls) && Polling(End(s0, ls), t, k, o) && Terminal(End(s0, ls).objs[o])
    ensures Good(s0, ls + [App(t)]) && t in End(s0, ls + [App(t)]).pcs
        && End(s0, ls + [App(t)]).pcs[t] == ReadFlag(k, o)
  {
    PollSees(End(s0, ls), t, k, o);
    Extend(s0, ls, App(t));
  }

  lemma ReleaseFired(s0: State, ls: seq<Label>, t: Tid, k: int, o: Obj) returns (ls': seq<Label>)
    requires Good(s0, ls) && Polling(End(s0, ls), t, k, o) && End(s0, ls).objs[o].timer.Fired?
    ensures ls' == ls + [TimeoutRuns(o), Io]
    ensures Good(s0, ls') && Polling(End(s0, ls'), t, k, o) && Terminal(End(s0, ls').objs[o])
  {
    TimeoutLands(End(s0, ls), t, k, o);
    Extend(s0, ls, TimeoutRuns(o));
    Extend(s0, ls + [TimeoutRuns(o)], Io);
    ls' := ls + [TimeoutRuns(o)] + [Io];
    assert ls' == ls + [TimeoutRuns(o), Io];
  }

  lemma ReleaseArmed(s0: State, ls: seq<Label>, t: Tid, k: int, o: Obj)
    requires Good(s0, ls) && Polling(End(s0, ls), t, k, o) && End(s0, ls).objs[o].timer.Armed?
    ensures var ls' := ls + [TimerExpires(o)];
            Good(s0, ls') && Polling(End(s0, ls'), t, k, o) && End(s0, ls').objs[o].timer.Fired?
  {
    TimerFires(End(s0, ls), t, k, o);
    Extend(s0, ls, TimerExpires(o));
  }

  lemma PollingTimer(s0: State, ls: seq<Label>, t: Tid, k: int, o: Obj)
    requires Good(s0, ls) && Polling(End(s0, ls), t, k, o)
    ensures var e := End(s0, ls).objs[o]; Terminal(e) || e.timer.Fired? || e.timer.Armed?
  {
    RunTimers(s0, ls);
    assert TimerOk(End(s0, ls), o);
  }

  /** With the io thread free: the timeout expires, its handler runs, the reader sees the status. */
  lemma ReleaseFree(s0: State, ls: seq<Label>, t: Tid, k: int, o: Obj) returns (more: seq<Label>)
    requires Good(s0, ls) && Polling(End(s0, ls), t, k, o)
    ensures Freed(s0, ls, more, t, k, o)
  {
    PollingTimer(s0, ls, t, k, o);
    more := [];
    var m := ls;
    if !Terminal(End(s0, m).objs[o]) && End(s0, m).objs[o].timer.Armed? {
      ReleaseArmed(s0, m, t, k, o);
      more, m := more + [TimerExpires(o)], m + [TimerExpires(o)];
    }
    if !Terminal(End(s0, m).objs[o]) {
      m := ReleaseFired(s0, m, t, k, o);
      more := more + [TimeoutRuns(o), Io];
    }
    ReleaseTerminal(s0, m, t, k, o);
    more := more + [App(t)];
    assert ls + more == m + [App(t)];
  }

  /** The labels `more`, of the io thread, o's timer and thread t only, bring t out of its loop. */
  ghost predicate Freed(s0: State, ls: seq<Label>, more: seq<Label>, t: Tid, k: int, o: Obj) {
    && Good(s0, ls + more)
    && t in End(s0, ls + more).pcs && End(s0, ls + more).pcs[t] == ReadFlag(k, o)
    && forall l | l in more :: Own(l, t, o)
  }

  /** From every state that a run within the contract reaches without crashing: after at most one step of the
      half-done push and at most one of the half-done insertion under the handled head, steps of the io thread,
      of the entry's timer and of the reader alone bring a polling read out of its loop. */
  lemma Release(s0: State, ls: seq<Label>, t: Tid)
    returns (o: Obj, push: seq<Label>, head: seq<Label>, rest: seq<Label>)
    requires Good(s0, ls) && t in End(s0, ls).pcs && End(s0, ls).pcs[t].ReadPoll?
    ensures End(s0, ls).pcs[t].r == Some(o)
    ensures |push| <= 1 && forall l | l in push :: l.App? && End(s0, ls).pusher == Some(l.t)
    ensures |head| <= 1 && forall l | l in head :: l.App? && Clashes(End(s0, ls), l.t)
    ensures Freed(s0, ls + push + head, rest, t, End(s0, ls).pcs[t].k, o)
  {
    push := UnblockPush(s0, ls, t);
    head := UnblockHead(s0, ls + push, t);
    var start, k := ls + push + head, End(s0, ls).pcs[t].k;
    PolledIsArmed(s0, start, t);
    o := End(s0, ls).pcs[t].r.value;
    var first := Drain(s0, start, o);
    var last := ReleaseFree(s0, start + first, t, k, o);
    rest := first + last;
    ReleaseJoins(s0, start, first, last, t, k, o);
  }

  lemma ReleaseJoins(s0: State, ls: seq<Label>, first: seq<Label>, last: seq<Label>, t: Tid, k: int, o: Obj)
    requires Freed(s0, ls + first, last, t, k, o) && forall l | l in first :: l == Io
    ensures Freed(s0, ls, first + last, t, k, o)
  {
    assert ls + (first + last) == ls + first + last;
  }
}
