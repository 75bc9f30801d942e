/**
 What every step of the queue machine keeps.  `chain` is the sequence of linked live nodes:
 the dummy first, then one node per queued value.
 */
module SafeQueueInvariant {
  import opened Prelude
  import opened SafeQueueSteps

  /** A linked list from chain[0] to its null-terminated last node. */
  ghost predicate ChainOk(heap: map<Ref, Node>, chain: seq<Ref>) {
    && chain != []
    && Distinct(chain)
    && (forall i | 0 <= i < |chain| :: chain[i] != NULL && chain[i] in heap)
    && (forall i | 0 <= i < |chain| - 1 :: heap[chain[i]].next == chain[i + 1])
    && heap[Last(chain)].next == NULL
  }

  /** A queue no thread is working on: the live nodes are the chain from head to tail, all counted. */
  ghost predicate RestOk(heap: map<Ref, Node>, head: Ref, tail: Ref, size: int, chain: seq<Ref>) {
    && ChainOk(heap, chain)
    && heap.Keys == (set a | a in chain)
    && head == chain[0] && tail == Last(chain)
    && size == |chain| - 1
  }

  /** The node a pusher has allocated and not yet linked. */
  ghost function Private(pc: Pc): Option<Ref> {
    match pc
    case PushVal(_, n) => Some(n)
    case PushNext(_, n) => Some(n)
    case PushLock(_, n) => Some(n)
    case PushCount(_, n) => Some(n)
    case PushLoadTail(_, n) => Some(n)
    case PushLink(_, n, _) => Some(n)
    case _ => None
  }

  /** A pusher has counted its node but not linked it. */
  ghost predicate Counted(s: State) {
    s.pushOwner.Some? && s.pushOwner.value in s.pcs
    && (s.pcs[s.pushOwner.value].PushLoadTail? || s.pcs[s.pushOwner.value].PushLink?)
  }

  /** A popper has uncounted its node but not deleted it. */
  ghost predicate Uncounted(s: State) {
    s.popOwner.Some? && s.popOwner.value in s.pcs
    && (s.pcs[s.popOwner.value].PopLoadDead? || s.pcs[s.popOwner.value].PopLoadNext?
      || s.pcs[s.popOwner.value].PopDelete?)
  }

  /** A pusher has linked its node but tail_ does not name it yet. */
  ghost predicate Swinging(s: State) {
    s.pushOwner.Some? && s.pushOwner.value in s.pcs && s.pcs[s.pushOwner.value].PushSwing?
  }

  /** A popper has deleted the old dummy but head_ still names it. */
  ghost predicate Moving(s: State) {
    s.popOwner.Some? && s.popOwner.value in s.pcs && s.pcs[s.popOwner.value].PopMove?
  }

  /** The node a pusher owns is live, off the chain and initialised as far as the pusher got. */
  ghost predicate PrivateOk(heap: map<Ref, Node>, chain: seq<Ref>, pc: Pc) {
    Private(pc).Some? ==>
      var n := Private(pc).value;
      && n in heap && n != NULL && n !in chain
      && (!pc.PushVal? ==> heap[n].val == pc.v)
      && heap[n].next == NULL
  }

  /** What the values a thread has loaded say about the chain. */
  ghost predicate LoadedOk(heap: map<Ref, Node>, chain: seq<Ref>, pc: Pc)
    requires ChainOk(heap, chain)
  {
    match pc
    case PushLink(_, _, last) => last == Last(chain)
    case PushSwing(_, n) => n == Last(chain)
    case PopTest(h) => h == chain[0]
    case PopUncount => |chain| > 1
    case PopLoadDead => |chain| > 1
    case PopLoadNext(h) => |chain| > 1 && h == chain[0]
    case PopDelete(h, tmp) => |chain| > 1 && h == chain[0] && tmp == chain[1]
    case PopMove(tmp) => tmp == chain[0]
    case PopLoadVal(h) => h == chain[0]
    case PopUnlock(v) => v == heap[chain[0]].val
    case _ => true
  }

  /** Thread t holds exactly the lock its program counter says. */
  ghost predicate LocksOk(s: State, t: Tid)
    requires t in s.pcs
  {
    && (PushHolds(s.pcs[t]) <==> s.pushOwner == Some(t))
    && (PopHolds(s.pcs[t]) <==> s.popOwner == Some(t))
  }

  ghost predicate ThreadOk(s: State, chain: seq<Ref>, t: Tid)
    requires t in s.pcs && ChainOk(s.heap, chain)
  {
    LocksOk(s, t) && PrivateOk(s.heap, chain, s.pcs[t]) && LoadedOk(s.heap, chain, s.pcs[t])
  }

  ghost predicate PrivatesApart(s: State) {
    forall t, u | t in s.pcs && u in s.pcs && t != u && Private(s.pcs[t]).Some? ::
      Private(s.pcs[t]) != Private(s.pcs[u])
  }

  ghost predicate Owns(s: State, t: Tid, a: Ref) {
    t in s.pcs && Private(s.pcs[t]) == Some(a)
  }

  /** No live node is unreachable: it is on the chain or some pusher is about to link it. */
  ghost predicate NoLeak(s: State, chain: seq<Ref>) {
    forall a | a in s.heap :: a in chain || exists t :: Owns(s, t, a)
  }

  ghost predicate OwnersOk(s: State) {
    && (s.pushOwner.Some? ==> s.pushOwner.value in s.pcs)
    && (s.popOwner.Some? ==> s.popOwner.value in s.pcs)
  }

  /** What head_, tail_ and size_ say about the chain. */
  ghost predicate Shared(s: State, chain: seq<Ref>) {
    && s.status != Faulted
    && ChainOk(s.heap, chain)
    && OwnersOk(s)
    && (!Moving(s) ==> s.head == chain[0])
    && (!Swinging(s) ==> s.tail == Last(chain))
    && s.size == |chain| - 1 + B2I(Counted(s)) - B2I(Uncounted(s))
  }

  ghost predicate Core(s: State, chain: seq<Ref>) {
    && Shared(s, chain)
    && (forall t | t in s.pcs :: ThreadOk(s, chain, t))
    && PrivatesApart(s)
  }

  ghost predicate Inv(s: State, chain: seq<Ref>) {
    Core(s, chain) && NoLeak(s, chain)
  }

  lemma InitInv(s: State)
    requires Init(s)
    ensures Inv(s, [s.head])
  {
  }

  /** The chain after the step: linking appends, deleting removes the first. */
  ghost function NextChain(s: State, l: Label, chain: seq<Ref>): seq<Ref> {
    if l.Act? && l.t in s.pcs && s.pcs[l.t].PushLink? then chain + [s.pcs[l.t].n]
    else if l.Act? && l.t in s.pcs && s.pcs[l.t].PopDelete? && chain != [] then chain[1..]
    else chain
  }

  lemma StepNoLeak(s: State, l: Label, chain: seq<Ref>)
    requires NoLeak(s, chain) && Enabled(s, l) && Shared(s, chain) && ThreadOk(s, chain, l.t)
    ensures NoLeak(Step(s, l), NextChain(s, l, chain))
  {
    var s', chain' := Step(s, l), NextChain(s, l, chain);
    forall a | a in s'.heap ensures a in chain' || exists t :: Owns(s', t, a) {
      if a in s.heap && a !in chain {
        var t :| Owns(s, t, a);
        assert t != l.t ==> Owns(s', t, a);
        assert t == l.t ==> Owns(s', t, a) || a in chain';
      } else if a !in s.heap {
        assert Owns(s', l.t, a);
      }
    }
  }

  /** A lock is kept, taken by t when free, or given back by t. */
  ghost predicate OwnerMove(before: Option<Tid>, after: Option<Tid>, t: Tid) {
    after == before || (before == None && after == Some(t)) || (before == Some(t) && after == None)
  }

  /** Thread t moved, memory stayed, and t kept its own part of the invariant. */
  ghost predicate Quiet(s: State, s': State, t: Tid, chain: seq<Ref>) {
    && t in s.pcs && t in s'.pcs && s'.pcs == s.pcs[t := s'.pcs[t]]
    && s'.heap == s.heap
    && OwnerMove(s.pushOwner, s'.pushOwner, t) && OwnerMove(s.popOwner, s'.popOwner, t)
    && Shared(s', chain)
    && ThreadOk(s', chain, t) && Private(s'.pcs[t]) == Private(s.pcs[t])
  }

  lemma QuietCore(s: State, s': State, t: Tid, chain: seq<Ref>)
    requires Core(s, chain) && Quiet(s, s', t, chain)
    ensures Core(s', chain)
  {
    forall u | u in s'.pcs ensures ThreadOk(s', chain, u) {
      assert ThreadOk(s, chain, u);
    }
  }

  /** Writing a node off the chain leaves the chain as it was. */
  lemma OffChainWrite(s: State, s': State, t: Tid, n: Ref, chain: seq<Ref>)
    requires Shared(s, chain) && n !in chain && n in s'.heap && s'.heap == s.heap[n := s'.heap[n]]
    requires t in s.pcs && t in s'.pcs && s' == At(s, t, s'.pcs[t]).(heap := s'.heap)
    requires s.pushOwner != Some(t) && s.popOwner != Some(t)
    ensures Shared(s', chain)
  {
  }

  /** A pusher without a lock writes its own node. */
  lemma PrivateWriteCore(s: State, s': State, t: Tid, n: Ref, chain: seq<Ref>)
    requires Core(s, chain) && n != NULL && n !in chain && n in s'.heap && s'.heap == s.heap[n := s'.heap[n]]
    requires t in s.pcs && t in s'.pcs && s' == At(s, t, s'.pcs[t]).(heap := s'.heap)
    requires s.pushOwner != Some(t) && s.popOwner != Some(t) && Private(s'.pcs[t]) == Some(n)
    requires Shared(s', chain) && ThreadOk(s', chain, t)
    requires forall u | u in s.pcs && u != t :: Private(s.pcs[u]) != Some(n)
    ensures Core(s', chain)
  {
    forall u | u in s'.pcs ensures ThreadOk(s', chain, u) {
      assert ThreadOk(s, chain, u);
    }
  }

  lemma PrivateStep(s: State, l: Label, n: Ref, chain: seq<Ref>)
    requires Shared(s, chain) && Enabled(s, l) && l.Act? && ThreadOk(s, chain, l.t)
    requires s.pcs[l.t].PushNew? || s.pcs[l.t].PushVal? || s.pcs[l.t].PushNext?
    requires n == if s.pcs[l.t].PushNew? then l.addr else s.pcs[l.t].n
    ensures n != NULL && n !in chain && Private(Step(s, l).pcs[l.t]) == Some(n)
    ensures Shared(Step(s, l), chain) && ThreadOk(Step(s, l), chain, l.t)
  {
    OffChainWrite(s, Step(s, l), l.t, n, chain);
  }

  lemma PrivateStepCore(s: State, l: Label, chain: seq<Ref>)
    requires Core(s, chain) && Enabled(s, l) && l.Act?
    requires s.pcs[l.t].PushNew? || s.pcs[l.t].PushVal? || s.pcs[l.t].PushNext?
    ensures Core(Step(s, l), chain)
  {
    var n := if s.pcs[l.t].PushNew? then l.addr else s.pcs[l.t].n;
    PrivateStep(s, l, n, chain);
    assert forall u | u in s.pcs && u != l.t :: Private(s.pcs[u]) != Some(n) by {
      forall u | u in s.pcs && u != l.t ensures Private(s.pcs[u]) != Some(n) {
        assert ThreadOk(s, chain, u);
      }
    }
    PrivateWriteCore(s, Step(s, l), l.t, n, chain);
  }

  /** tail_->next = node: the chain grows at its end. */
  lemma LinkCore(s: State, l: Label, chain: seq<Ref>)
    requires Core(s, chain) && Enabled(s, l) && l.Act? && s.pcs[l.t].PushLink?
    ensures Core(Step(s, l), NextChain(s, l, chain))
  {
    var s', chain' := Step(s, l), NextChain(s, l, chain);
    assert ThreadOk(s, chain, l.t);
    assert ChainOk(s'.heap, chain');
    forall u | u in s'.pcs ensures ThreadOk(s', chain', u) {
      assert ThreadOk(s, chain, u);
    }
  }

  /** delete node: the chain loses its dummy and the next node becomes the dummy. */
  lemma DeleteCore(s: State, l: Label, chain: seq<Ref>)
    requires Core(s, chain) && Enabled(s, l) && l.Act? && s.pcs[l.t].PopDelete?
    ensures Core(Step(s, l), NextChain(s, l, chain))
  {
    var s', chain' := Step(s, l), NextChain(s, l, chain);
    assert ThreadOk(s, chain, l.t);
    assert ChainOk(s'.heap, chain');
    forall u | u in s'.pcs ensures ThreadOk(s', chain', u) {
      assert ThreadOk(s, chain, u);
    }
  }

  lemma QuietPush(s: State, l: Label, chain: seq<Ref>)
    requires Shared(s, chain) && Enabled(s, l) && l.Act? && ThreadOk(s, chain, l.t)
    requires s.pcs[l.t].PushLock? || (PushHolds(s.pcs[l.t]) && !s.pcs[l.t].PushLink?)
    ensures Quiet(s, Step(s, l), l.t, chain)
  {
  }

  lemma QuietPop(s: State, l: Label, chain: seq<Ref>)
    requires Shared(s, chain) && Enabled(s, l) && l.Act? && ThreadOk(s, chain, l.t)
    requires s.pcs[l.t].PopLock? || (PopHolds(s.pcs[l.t]) && !s.pcs[l.t].PopDelete?)
    ensures Quiet(s, Step(s, l), l.t, chain)
  {
  }

  lemma QuietBegin(s: State, l: Label, chain: seq<Ref>)
    requires Shared(s, chain) && Enabled(s, l) && !l.Act? && ThreadOk(s, chain, l.t)
    ensures Quiet(s, Step(s, l), l.t, chain)
  {
  }

  lemma StepCore(s: State, l: Label, chain: seq<Ref>)
    requires Core(s, chain) && Enabled(s, l)
    ensures Core(Step(s, l), NextChain(s, l, chain))
  {
    var pc := s.pcs[l.t];
    if l.Act? && (pc.PushNew? || pc.PushVal? || pc.PushNext?) {
      PrivateStepCore(s, l, chain);
    } else if l.Act? && pc.PushLink? {
      LinkCore(s, l, chain);
    } else if l.Act? && pc.PopDelete? {
      DeleteCore(s, l, chain);
    } else {
      if !l.Act? {
        QuietBegin(s, l, chain);
      } else if pc.PushLock? || PushHolds(pc) {
        QuietPush(s, l, chain);
      } else {
        QuietPop(s, l, chain);
      }
      QuietCore(s, Step(s, l), l.t, chain);
    }
  }

  /** Every step keeps the invariant. */
  lemma StepInv(s: State, l: Label, chain: seq<Ref>)
    requires Inv(s, chain) && Enabled(s, l)
    ensures Inv(Step(s, l), NextChain(s, l, chain))
  {
    StepCore(s, l, chain);
    StepNoLeak(s, l, chain);
  }
}
