/** What size_ tells: its exact value in every reachable state, and when it guards a pop. */
module SafeQueueSize {
  import opened Prelude
  import opened SafeQueueSteps
  import opened SafeQueueInvariant
  import opened SafeQueueFifo

  ghost function Queue(s0: State, ls: seq<Label>): seq<Value>
    requires Init(s0) && After(s0, ls).Some?
  {
    RunInv(s0, ls);
    Values(After(s0, ls).value.heap, ChainAfter(s0, ls))
  }

  /** size_ is the queue length, one more while a push is counted and not linked, one less while
      a pop is uncounted and not unlinked; so never negative, off by at most one, exact at rest. */
  lemma SizeExact(s0: State, ls: seq<Label>)
    requires Init(s0) && After(s0, ls).Some?
    ensures var s, n := After(s0, ls).value, |Queue(s0, ls)|;
            && s.size == n + B2I(Counted(s)) - B2I(Uncounted(s))
            && 0 <= s.size && n - 1 <= s.size <= n + 1
            && (s.pushOwner == None && s.popOwner == None ==> s.size == n)
  {
    RunInv(s0, ls);
    var s, chain := After(s0, ls).value, ChainAfter(s0, ls);
    if Uncounted(s) {
      assert ThreadOk(s, chain, s.popOwner.value);
    }
  }

  /** With no popper at work, a positive size_ means a value to pop exactly when no push is half done,
      or size_ exceeds the half-done push. */
  lemma SizeGuard(s0: State, ls: seq<Label>)
    requires Init(s0) && After(s0, ls).Some? && After(s0, ls).value.popOwner == None
    ensures var s := After(s0, ls).value; Queue(s0, ls) != [] <==> s.size > B2I(Counted(s))
  {
    RunInv(s0, ls);
  }

  /** tail_ names the last linked node, which is live, except between the link and the swing of one
      pusher; in particular whenever a pusher may enter. */
  lemma TailRestored(s0: State, ls: seq<Label>)
    requires Init(s0) && After(s0, ls).Some?
    ensures var s, chain := After(s0, ls).value, ChainAfter(s0, ls);
            && (s.pushOwner == None ==> !Swinging(s))
            && (!Swinging(s) ==>
                 chain != [] && s.tail == Last(chain) && s.tail in s.heap && s.heap[s.tail].next == NULL)
  {
    RunInv(s0, ls);
  }

  /** When every thread is idle the live nodes are exactly the chain from head_ to tail_. */
  lemma RestShape(s0: State, ls: seq<Label>)
    requires Init(s0) && After(s0, ls).Some?
    requires forall t | t in After(s0, ls).value.pcs :: After(s0, ls).value.pcs[t] == Idle
    ensures var s, chain := After(s0, ls).value, ChainAfter(s0, ls);
            RestOk(s.heap, s.head, s.tail, s.size, chain)
  {
    RunInv(s0, ls);
    var s, chain := After(s0, ls).value, ChainAfter(s0, ls);
    forall t | t in s.pcs ensures LocksOk(s, t) && Private(s.pcs[t]) == None {
      assert ThreadOk(s, chain, t);
    }
    assert forall a, t :: !Owns(s, t, a);
  }

  // ---------------------------------------------------------------- the sole consumer

  ghost predicate PopPc(pc: Pc) {
    pc.PopLock? || PopHolds(pc)
  }

  /** Thread c is the only one popping. */
  ghost predicate OnlyPopper(s: State, c: Tid) {
    c in s.pcs && forall t | t in s.pcs && t != c :: !PopPc(s.pcs[t])
  }

  /** Until thread c has passed its test there is a value for it. */
  ghost predicate Supplied(pc: Pc, chain: seq<Ref>, begun: bool) {
    && (!begun ==> !PopPc(pc) && |chain| > 1)
    && (pc.PopLock? || pc.PopLoadHead? || pc.PopTest? ==> |chain| > 1)
  }

  ghost predicate Guarded(s: State, chain: seq<Ref>, c: Tid, begun: bool) {
    s.status == Running && OnlyPopper(s, c) && Supplied(s.pcs[c], chain, begun)
  }

  lemma OnlyPopperStep(s: State, l: Label, c: Tid)
    requires OnlyPopper(s, c) && Enabled(s, l)
    requires l.BeginPop? ==> l.t == c
    ensures OnlyPopper(Step(s, l), c)
  {
    OthersStep(s, l);
  }

  lemma SuppliedStep(s: State, l: Label, chain: seq<Ref>, c: Tid, begun: bool)
    requires Shared(s, chain) && Enabled(s, l) && ThreadOk(s, chain, l.t)
    requires c in s.pcs && Supplied(s.pcs[c], chain, begun) && (l.t != c ==> !PopPc(s.pcs[l.t]))
    requires l.BeginPop? ==> l.t == c && !begun
    ensures c in Step(s, l).pcs && Step(s, l).status == Running
    ensures Supplied(Step(s, l).pcs[c], NextChain(s, l, chain), begun || l.BeginPop?)
  {
    OthersStep(s, l);
    StatusStep(s, l, chain);
  }

  ghost predicate OnePop(ls: seq<Label>, c: Tid) {
    && (forall i | 0 <= i < |ls| && ls[i].BeginPop? :: ls[i].t == c)
    && (forall i, j | 0 <= i < j < |ls| && ls[i].BeginPop? :: !ls[j].BeginPop?)
  }

  ghost predicate Begun(ls: seq<Label>) {
    exists i :: 0 <= i < |ls| && ls[i].BeginPop?
  }

  lemma {:induction false} GuardedRun(s: State, chain: seq<Ref>, c: Tid, ls: seq<Label>) returns (chain': seq<Ref>)
    requires Inv(s, chain) && Guarded(s, chain, c, false) && After(s, ls).Some? && OnePop(ls, c)
    ensures Inv(After(s, ls).value, chain') && Guarded(After(s, ls).value, chain', c, Begun(ls))
  {
    if ls == [] {
      chain' := chain;
    } else {
      var ls', l := ls[..|ls| - 1], Last(ls);
      var m := GuardedRun(s, chain, c, ls');
      var s' := After(s, ls').value;
      BegunSnoc(ls);
      chain' := NextChain(s', l, m);
      StepInv(s', l, m);
      OnlyPopperStep(s', l, c);
      SuppliedStep(s', l, m, c, Begun(ls'));
    }
  }

  lemma BegunSnoc(ls: seq<Label>)
    requires ls != []
    ensures Begun(ls) == (Begun(ls[..|ls| - 1]) || Last(ls).BeginPop?)
    ensures forall c | OnePop(ls, c) && Last(ls).BeginPop? :: !Begun(ls[..|ls| - 1]) && Last(ls).t == c
  {
    if Begun(ls[..|ls| - 1]) {
      var i :| 0 <= i < |ls| - 1 && ls[i].BeginPop?;
    }
  }

  /** `if(size()) pop()` by the only consumer: read positive while no push is half done, the pop
      it guards never meets the assert, however many pushers interleave with it. */
  lemma SoleConsumer(s0: State, ls: seq<Label>, c: Tid, more: seq<Label>)
    requires Init(s0) && After(s0, ls).Some?
    requires var s := After(s0, ls).value;
             && s.status == Running && c in s.pcs && (forall t | t in s.pcs :: !PopPc(s.pcs[t]))
             && s.size > B2I(Counted(s))
             && After(s, more).Some? && OnePop(more, c)
    ensures After(After(s0, ls).value, more).value.status == Running
  {
    RunInv(s0, ls);
    var s := After(s0, ls).value;
    assert s.popOwner.Some? ==> LocksOk(s, s.popOwner.value);
    var _ := GuardedRun(s, ChainAfter(s0, ls), c, more);
  }

  // ---------------------------------------------------------------- the guard can fail

  lemma StepTo(s0: State, ls: seq<Label>, m: State, l: Label)
    requires After(s0, ls) == Some(m) && Enabled(m, l)
    ensures After(s0, ls + [l]) == Some(Step(m, l))
  {
    assert (ls + [l])[..|ls + [l]| - 1] == ls;
  }

  /** The labels of a whole empty_ test by thread c. */
  function TryPop(c: Tid): seq<Label> {
    [BeginPop(c), Act(c, NULL), Act(c, NULL), Act(c, NULL)]
  }

  /** State s with thread c inside pop at pc. */
  function InPop(s: State, c: Tid, pc: Pc): State {
    s.(pcs := s.pcs[c := pc], popOwner := Some(c))
  }

  lemma PopEnters(s: State, c: Tid)
    requires s.status == Running && c in s.pcs && s.pcs[c] == Idle && s.popOwner == None
    ensures After(s, [BeginPop(c), Act(c, NULL)]) == Some(InPop(s, c, PopLoadHead))
  {
    StepTo(s, [], s, BeginPop(c));
    assert [] + [BeginPop(c)] == [BeginPop(c)];
    StepTo(s, [BeginPop(c)], At(s, c, PopLock), Act(c, NULL));
    assert [BeginPop(c)] + [Act(c, NULL)] == [BeginPop(c), Act(c, NULL)];
    assert s.pcs[c := PopLock][c := PopLoadHead] == s.pcs[c := PopLoadHead];
  }

  lemma PopReachesTest(s: State, c: Tid)
    requires s.status == Running && c in s.pcs && s.pcs[c] == Idle && s.popOwner == None
    ensures After(s, TryPop(c)[..3]) == Some(InPop(s, c, PopTest(s.head)))
  {
    PopEnters(s, c);
    StepTo(s, [BeginPop(c), Act(c, NULL)], InPop(s, c, PopLoadHead), Act(c, NULL));
    assert [BeginPop(c), Act(c, NULL)] + [Act(c, NULL)] == TryPop(c)[..3];
    assert s.pcs[c := PopLoadHead][c := PopTest(s.head)] == s.pcs[c := PopTest(s.head)];
  }

  /** The test decides: an empty chain aborts, a longer one lets the pop go on. */
  lemma TestRuns(s: State, c: Tid)
    requires s.status == Running && c in s.pcs && s.pcs[c] == Idle && s.popOwner == None && s.head in s.heap
    ensures var r := After(s, TryPop(c));
            && r.Some?
            && (s.heap[s.head].next == NULL ==> r.value.status == Aborted)
            && (s.heap[s.head].next != NULL ==> r.value == InPop(s, c, PopUncount))
  {
    PopReachesTest(s, c);
    StepTo(s, TryPop(c)[..3], InPop(s, c, PopTest(s.head)), Act(c, NULL));
    assert TryPop(c)[..3] + [Act(c, NULL)] == TryPop(c);
    assert s.pcs[c := PopTest(s.head)][c := PopUncount] == s.pcs[c := PopUncount];
  }

  /** The condition of SoleConsumer is exact: size() is positive and not above the half-done push
      only when the queue is empty, and then the pop it guards meets the assert. */
  lemma HalfPushAborts(s0: State, ls: seq<Label>, c: Tid)
    requires Init(s0) && After(s0, ls).Some?
    requires var s := After(s0, ls).value;
             && s.status == Running && c in s.pcs && s.pcs[c] == Idle && s.popOwner == None
             && 0 < s.size <= B2I(Counted(s))
    ensures var r := After(After(s0, ls).value, TryPop(c)); r.Some? && r.value.status == Aborted
  {
    RunInv(s0, ls);
    TestRuns(After(s0, ls).value, c);
  }

  /** Thread t pushes v into a fresh queue up to and including ++size_. */
  function HalfPush(t: Tid, v: Value, n: Ref): seq<Label> {
    [BeginPush(t, v), Act(t, n), Act(t, NULL), Act(t, NULL), Act(t, NULL), Act(t, NULL)]
  }

  /** Such states are reachable from every constructed queue. */
  lemma HalfPushReachable(s0: State, t: Tid, v: Value, n: Ref)
    requires Init(s0) && t in s0.pcs && n != NULL && n != s0.head
    ensures var r := After(s0, HalfPush(t, v, n));
            && r.Some? && r.value.status == Running && r.value.popOwner == None
            && r.value.size == 1 == B2I(Counted(r.value))
            && r.value.pcs == s0.pcs[t := PushLoadTail(v, n)]
            && r.value.heap == s0.heap[n := Node(v, NULL)] && r.value.head == r.value.tail == s0.head
  {
    var ls := HalfPush(t, v, n);
    StepTo(s0, [], s0, ls[0]);
    var s1 := Step(s0, ls[0]);
    StepTo(s0, ls[..1], s1, ls[1]);
    var s2 := Step(s1, ls[1]);
    assert ls[..1] + [ls[1]] == ls[..2];
    StepTo(s0, ls[..2], s2, ls[2]);
    var s3 := Step(s2, ls[2]);
    assert ls[..2] + [ls[2]] == ls[..3];
    StepTo(s0, ls[..3], s3, ls[3]);
    HalfPushLocks(s0, ls, Step(s3, ls[3]), t, v, n);
  }

  lemma HalfPushLocks(s0: State, ls: seq<Label>, s4: State, t: Tid, v: Value, n: Ref)
    requires ls == HalfPush(t, v, n) && After(s0, ls[..3] + [ls[3]]) == Some(s4)
    requires t in s0.pcs && s4.pcs == s0.pcs[t := PushLock(v, n)]
    requires s4.pushOwner == None && s4.popOwner == None && s4.size == 0 && s4.status == Running
    requires s4.heap == s0.heap[n := Node(v, NULL)] && s4.head == s4.tail == s0.head
    ensures var r := After(s0, ls);
            && r.Some? && r.value.status == Running && r.value.popOwner == None
            && r.value.size == 1 == B2I(Counted(r.value))
            && r.value.pcs == s0.pcs[t := PushLoadTail(v, n)]
            && r.value.heap == s0.heap[n := Node(v, NULL)] && r.value.head == r.value.tail == s0.head
  {
    assert ls[..3] + [ls[3]] == ls[..4];
    StepTo(s0, ls[..4], s4, ls[4]);
    assert ls[..4] + [ls[4]] == ls[..5];
    StepTo(s0, ls[..5], Step(s4, ls[4]), ls[5]);
    assert ls[..5] + [ls[5]] == ls;
  }

  // ---------------------------------------------------------------- the tail dangles

  lemma {:induction false} AfterConcat(s: State, a: seq<Label>, b: seq<Label>)
    requires After(s, a).Some?
    ensures After(s, a + b) == After(After(s, a).value, b)
    decreases |b|
  {
    if b == [] {
      assert a + b == a;
    } else {
      assert (a + b)[..|a + b| - 1] == a + b[..|b| - 1] && Last(a + b) == Last(b);
      AfterConcat(s, a, b[..|b| - 1]);
    }
  }

  lemma LinkRuns(s: State, t: Tid, v: Value, n: Ref)
    requires s.status == Running && t in s.pcs && s.pcs[t] == PushLoadTail(v, n) && s.tail in s.heap
    ensures var r := After(s, [Act(t, NULL), Act(t, NULL)]);
            && r.Some?
            && r.value == s.(pcs := s.pcs[t := PushSwing(v, n)], heap := s.heap[s.tail := s.heap[s.tail].(next := n)])
  {
    StepTo(s, [], s, Act(t, NULL));
    var s1 := Step(s, Act(t, NULL));
    StepTo(s, [Act(t, NULL)], s1, Act(t, NULL));
    assert s.pcs[t := PushLink(v, n, s.tail)][t := PushSwing(v, n)] == s.pcs[t := PushSwing(v, n)];
    assert [] + [Act(t, NULL)] == [Act(t, NULL)] && [Act(t, NULL)] + [Act(t, NULL)] == [Act(t, NULL), Act(t, NULL)];
  }

  /** The rest of a pop up to and including the delete. */
  function Unlink(c: Tid): seq<Label> {
    [Act(c, NULL), Act(c, NULL), Act(c, NULL), Act(c, NULL)]
  }

  lemma UnlinkLoads(s: State, c: Tid)
    requires s.status == Running && c in s.pcs && s.pcs[c] == PopUncount
    ensures After(s, Unlink(c)[..2]) == Some(s.(pcs := s.pcs[c := PopLoadNext(s.head)], size := s.size - 1))
  {
    var act := Act(c, NULL);
    StepTo(s, [], s, act);
    assert [] + [act] == [act] && [act] + [act] == Unlink(c)[..2];
    StepTo(s, [act], s.(pcs := s.pcs[c := PopLoadDead], size := s.size - 1), act);
    assert s.pcs[c := PopLoadDead][c := PopLoadNext(s.head)] == s.pcs[c := PopLoadNext(s.head)];
  }

  lemma UnlinkRuns(s: State, c: Tid)
    requires s.status == Running && c in s.pcs && s.pcs[c] == PopUncount && s.head in s.heap
    ensures var r := After(s, Unlink(c));
            r.Some? && r.value.status == Running && r.value.heap == s.heap - {s.head} && r.value.tail == s.tail
  {
    var act, tmp := Act(c, NULL), s.heap[s.head].next;
    UnlinkLoads(s, c);
    var s2 := s.(pcs := s.pcs[c := PopLoadNext(s.head)], size := s.size - 1);
    StepTo(s, Unlink(c)[..2], s2, act);
    assert Unlink(c)[..2] + [act] == Unlink(c)[..3] && Unlink(c)[..3] + [act] == Unlink(c);
    StepTo(s, Unlink(c)[..3], At(s2, c, PopDelete(s.head, tmp)), act);
  }

  /** The dangerous window is real: a popper frees the node tail_ still names. */
  lemma TailDangles(s0: State, t: Tid, c: Tid, v: Value, n: Ref)
    requires Init(s0) && t in s0.pcs && c in s0.pcs && t != c && n != NULL && n != s0.head
    ensures var r := After(s0, HalfPush(t, v, n) + [Act(t, NULL), Act(t, NULL)] + TryPop(c) + Unlink(c));
            r.Some? && r.value.status == Running && r.value.tail !in r.value.heap
  {
    var a, b := HalfPush(t, v, n), [Act(t, NULL), Act(t, NULL)];
    HalfPushReachable(s0, t, v, n);
    var s1 := After(s0, a).value;
    LinkRuns(s1, t, v, n);
    AfterConcat(s0, a, b);
    var s2 := After(s0, a + b).value;
    TestRuns(s2, c);
    AfterConcat(s0, a + b, TryPop(c));
    var s3 := After(s0, a + b + TryPop(c)).value;
    UnlinkRuns(s3, c);
    AfterConcat(s0, a + b + TryPop(c), Unlink(c));
  }
}
