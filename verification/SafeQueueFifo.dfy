/**
 Refinement: every interleaving of the queue machine is a run of an atomic FIFO queue with
 the same calls and returns, and the values come out in the order they were linked.
 */
module SafeQueueFifo {
  import opened Prelude
  import opened SafeQueueSteps
  import opened SafeQueueInvariant

  // ---------------------------------------------------------------- the atomic queue

  datatype Op = NoOp | Pushing(v: Value) | Pushed | Popping | Popped(v: Value)

  datatype Fifo = Fifo(queue: seq<Value>, ops: map<Tid, Op>, aborted: bool)

  datatype Event =
    | CallPush(t: Tid, v: Value)
    | Enqueue(t: Tid, v: Value)
    | RetPush(t: Tid)
    | CallPop(t: Tid)
    | Dequeue(t: Tid, v: Value)
    | EmptyPop(t: Tid)
    | RetPop(t: Tid, v: Value)
    | Internal

  /** The atomic queue takes an event, or refuses it. */
  function FifoNext(a: Fifo, e: Event): Option<Fifo> {
    if a.aborted then None
    else if e.Internal? then Some(a)
    else if e.t !in a.ops then None
    else
      var op := a.ops[e.t];
      match e
      case CallPush(t, v) => if op == NoOp then Some(a.(ops := a.ops[t := Pushing(v)])) else None
      case Enqueue(t, v) =>
        if op == Pushing(v) then Some(Fifo(a.queue + [v], a.ops[t := Pushed], false)) else None
      case RetPush(t) => if op == Pushed then Some(a.(ops := a.ops[t := NoOp])) else None
      case CallPop(t) => if op == NoOp then Some(a.(ops := a.ops[t := Popping])) else None
      case Dequeue(t, v) =>
        if op == Popping && a.queue != [] && a.queue[0] == v
        then Some(Fifo(a.queue[1..], a.ops[t := Popped(v)], false)) else None
      case EmptyPop(t) => if op == Popping && a.queue == [] then Some(a.(aborted := true)) else None
      case RetPop(t, v) => if op == Popped(v) then Some(a.(ops := a.ops[t := NoOp])) else None
  }

  function FifoAfter(a0: Fifo, es: seq<Event>): Option<Fifo> {
    if es == [] then Some(a0)
    else
      var a := FifoAfter(a0, es[..|es| - 1]);
      if a.Some? then FifoNext(a.value, Last(es)) else None
  }

  // ---------------------------------------------------------------- abstraction

  function ValAt(heap: map<Ref, Node>, a: Ref): Value {
    if a in heap then heap[a].val else 0
  }

  /** The queued values: those of the chain behind its dummy. */
  ghost function Values(heap: map<Ref, Node>, chain: seq<Ref>): (q: seq<Value>)
    requires chain != []
    ensures |q| == |chain| - 1
  {
    seq(|chain| - 1, i requires 0 <= i < |chain| - 1 => ValAt(heap, chain[i + 1]))
  }

  function OpOf(heap: map<Ref, Node>, head: Ref, pc: Pc): Op {
    match pc
    case Idle => NoOp
    case PushSwing(_, _) => Pushed
    case PushUnlock(_) => Pushed
    case PopMove(tmp) => Popped(ValAt(heap, tmp))
    case PopLoadFront => Popped(ValAt(heap, head))
    case PopLoadVal(h) => Popped(ValAt(heap, h))
    case PopUnlock(v) => Popped(v)
    case _ => if IsPush(pc) then Pushing(pc.v) else Popping
  }

  ghost function Ops(s: State): map<Tid, Op> {
    map t | t in s.pcs :: OpOf(s.heap, s.head, s.pcs[t])
  }

  ghost function Abs(s: State, chain: seq<Ref>): Fifo
    requires chain != []
  {
    Fifo(Values(s.heap, chain), Ops(s), s.status == Aborted)
  }

  /** The event of the atomic queue that a memory action performs. */
  function EventOf(s: State, l: Label): Event
    requires Enabled(s, l)
  {
    match l
    case BeginPush(t, v) => CallPush(t, v)
    case BeginPop(t) => CallPop(t)
    case Act(t, _) =>
      match s.pcs[t]
      case PushLink(v, _, _) => Enqueue(t, v)
      case PushUnlock(_) => RetPush(t)
      case PopTest(h) => if h in s.heap && s.heap[h].next == NULL then EmptyPop(t) else Internal
      case PopDelete(_, tmp) => Dequeue(t, ValAt(s.heap, tmp))
      case PopUnlock(v) => RetPop(t, v)
      case _ => Internal
  }

  function Trace(s0: State, ls: seq<Label>): seq<Event> {
    if ls == [] then []
    else
      var m := After(s0, ls[..|ls| - 1]);
      Trace(s0, ls[..|ls| - 1])
      + if m.Some? && Enabled(m.value, Last(ls)) then [EventOf(m.value, Last(ls))] else []
  }

  /** The linked nodes after the labels ls. */
  ghost function ChainAfter(s0: State, ls: seq<Label>): seq<Ref> {
    if ls == [] then [s0.head]
    else
      var m := After(s0, ls[..|ls| - 1]);
      var c := ChainAfter(s0, ls[..|ls| - 1]);
      if m.Some? then NextChain(m.value, Last(ls), c) else c
  }

  // ---------------------------------------------------------------- one step

  ghost predicate IsPushStep(s: State, l: Label)
    requires Enabled(s, l)
  {
    !l.Act? || IsPush(s.pcs[l.t])
  }

  lemma PushValues(s: State, l: Label, chain: seq<Ref>)
    requires Shared(s, chain) && Enabled(s, l) && ThreadOk(s, chain, l.t) && IsPushStep(s, l)
    requires ChainOk(Step(s, l).heap, NextChain(s, l, chain))
    ensures QueueMove(Values(s.heap, chain), EventOf(s, l), Values(Step(s, l).heap, NextChain(s, l, chain)))
  {
  }

  lemma PopValues(s: State, l: Label, chain: seq<Ref>)
    requires Shared(s, chain) && Enabled(s, l) && ThreadOk(s, chain, l.t) && !IsPushStep(s, l)
    requires ChainOk(Step(s, l).heap, NextChain(s, l, chain))
    ensures QueueMove(Values(s.heap, chain), EventOf(s, l), Values(Step(s, l).heap, NextChain(s, l, chain)))
  {
    assert |chain| > 1 ==> s.heap[chain[0]].next == chain[0 + 1] != NULL;
    if s.pcs[l.t].PopTest? {
    } else if s.pcs[l.t].PopDelete? {
    } else {
      assert Step(s, l).heap == s.heap;
    }
  }

  lemma ValuesStep(s: State, l: Label, chain: seq<Ref>)
    requires Shared(s, chain) && Enabled(s, l) && ThreadOk(s, chain, l.t)
    requires ChainOk(Step(s, l).heap, NextChain(s, l, chain))
    ensures QueueMove(Values(s.heap, chain), EventOf(s, l), Values(Step(s, l).heap, NextChain(s, l, chain)))
  {
    if IsPushStep(s, l) {
      PushValues(s, l, chain);
    } else {
      PopValues(s, l, chain);
    }
  }

  lemma OpStep(s: State, l: Label, chain: seq<Ref>, u: Tid)
    requires Shared(s, chain) && Enabled(s, l) && ThreadOk(s, chain, l.t)
    requires u in s.pcs && u != l.t && ThreadOk(s, chain, u)
    ensures OpOf(Step(s, l).heap, Step(s, l).head, s.pcs[u]) == OpOf(s.heap, s.head, s.pcs[u])
  {
  }

  /** Thread t's operation moves from op to op' with event e. */
  ghost predicate OpMove(op: Op, e: Event, op': Op) {
    match e
    case CallPush(_, v) => op == NoOp && op' == Pushing(v)
    case Enqueue(_, v) => op == Pushing(v) && op' == Pushed
    case RetPush(_) => op == Pushed && op' == NoOp
    case CallPop(_) => op == NoOp && op' == Popping
    case Dequeue(_, v) => op == Popping && op' == Popped(v)
    case EmptyPop(_) => op == Popping && op' == op
    case RetPop(_, v) => op == Popped(v) && op' == NoOp
    case Internal => op' == op
  }

  /** The queue moves from q to q' with event e. */
  ghost predicate QueueMove(q: seq<Value>, e: Event, q': seq<Value>) {
    match e
    case Enqueue(_, v) => q' == q + [v]
    case Dequeue(_, v) => q != [] && v == q[0] && q' == q[1..]
    case EmptyPop(_) => q == [] && q' == q
    case _ => q' == q
  }

  lemma PushOpStep(s: State, l: Label, chain: seq<Ref>)
    requires Shared(s, chain) && Enabled(s, l) && ThreadOk(s, chain, l.t) && IsPushStep(s, l)
    ensures OpMove(OpOf(s.heap, s.head, s.pcs[l.t]), EventOf(s, l),
                   OpOf(Step(s, l).heap, Step(s, l).head, Step(s, l).pcs[l.t]))
  {
  }

  /** A popper past its dequeue. */
  ghost predicate Dequeued(pc: Pc) {
    pc.PopMove? || pc.PopLoadFront? || pc.PopLoadVal? || pc.PopUnlock?
  }

  lemma PopOpStep(s: State, l: Label, chain: seq<Ref>)
    requires Shared(s, chain) && Enabled(s, l) && ThreadOk(s, chain, l.t)
    requires !IsPushStep(s, l) && !Dequeued(s.pcs[l.t])
    ensures OpMove(OpOf(s.heap, s.head, s.pcs[l.t]), EventOf(s, l),
                   OpOf(Step(s, l).heap, Step(s, l).head, Step(s, l).pcs[l.t]))
  {
    if s.pcs[l.t].PopTest? {
    } else if s.pcs[l.t].PopDelete? {
    } else {
    }
  }

  lemma PoppedOpStep(s: State, l: Label, chain: seq<Ref>)
    requires Shared(s, chain) && Enabled(s, l) && ThreadOk(s, chain, l.t)
    requires !IsPushStep(s, l) && Dequeued(s.pcs[l.t])
    ensures OpMove(OpOf(s.heap, s.head, s.pcs[l.t]), EventOf(s, l),
                   OpOf(Step(s, l).heap, Step(s, l).head, Step(s, l).pcs[l.t]))
  {
    if s.pcs[l.t].PopMove? {
    } else if s.pcs[l.t].PopLoadFront? {
    } else {
    }
  }

  lemma OthersStep(s: State, l: Label)
    requires Enabled(s, l)
    ensures Step(s, l).pcs == s.pcs[l.t := Step(s, l).pcs[l.t]]
    ensures EventOf(s, l) != Internal ==> EventOf(s, l).t == l.t
  {
    if l.Act? {
      var pc := s.pcs[l.t];
      if pc.PushLink? || pc.PushUnlock? || pc.PopDelete? || pc.PopUnlock? {
      } else if pc.PopTest? {
      } else {
      }
    }
  }

  lemma StatusStep(s: State, l: Label, chain: seq<Ref>)
    requires Shared(s, chain) && Enabled(s, l) && ThreadOk(s, chain, l.t)
    ensures Step(s, l).status == if EventOf(s, l).EmptyPop? then Aborted else Running
    ensures EventOf(s, l).EmptyPop? ==> |chain| == 1
  {
    assert |chain| > 1 ==> s.heap[chain[0]].next == chain[0 + 1] != NULL;
  }

  lemma OwnOpStep(s: State, l: Label, chain: seq<Ref>)
    requires Shared(s, chain) && Enabled(s, l) && ThreadOk(s, chain, l.t)
    ensures OpMove(OpOf(s.heap, s.head, s.pcs[l.t]), EventOf(s, l),
                   OpOf(Step(s, l).heap, Step(s, l).head, Step(s, l).pcs[l.t]))
  {
    if IsPushStep(s, l) {
      PushOpStep(s, l, chain);
    } else if Dequeued(s.pcs[l.t]) {
      PoppedOpStep(s, l, chain);
    } else {
      PopOpStep(s, l, chain);
    }
  }

  lemma FifoMoves(a: Fifo, e: Event, a': Fifo, t: Tid)
    requires !a.aborted && t in a.ops && t in a'.ops && a'.ops == a.ops[t := a'.ops[t]]
    requires e != Internal ==> e.t == t
    requires OpMove(a.ops[t], e, a'.ops[t]) && QueueMove(a.queue, e, a'.queue)
    requires a'.aborted == e.EmptyPop?
    ensures FifoNext(a, e) == Some(a')
  {
    assert a.ops[t := a.ops[t]] == a.ops;
  }

  lemma OpsUpdate(s: State, s': State, t: Tid)
    requires t in s.pcs && t in s'.pcs && s'.pcs == s.pcs[t := s'.pcs[t]]
    requires forall u | u in s.pcs && u != t ::
               OpOf(s'.heap, s'.head, s.pcs[u]) == OpOf(s.heap, s.head, s.pcs[u])
    ensures Ops(s') == Ops(s)[t := Ops(s')[t]]
  {
  }

  lemma OpsStep(s: State, l: Label, chain: seq<Ref>)
    requires Core(s, chain) && Enabled(s, l)
    ensures l.t in Step(s, l).pcs && Ops(Step(s, l)) == Ops(s)[l.t := Ops(Step(s, l))[l.t]]
  {
    OthersStep(s, l);
    forall u | u in s.pcs && u != l.t
      ensures OpOf(Step(s, l).heap, Step(s, l).head, s.pcs[u]) == OpOf(s.heap, s.head, s.pcs[u])
    {
      OpStep(s, l, chain, u);
    }
    OpsUpdate(s, Step(s, l), l.t);
  }

  lemma AbsMoves(s: State, l: Label, chain: seq<Ref>)
    requires Shared(s, chain) && Enabled(s, l) && ThreadOk(s, chain, l.t)
    requires ChainOk(Step(s, l).heap, NextChain(s, l, chain)) && l.t in Step(s, l).pcs
    ensures var a, e, a' := Abs(s, chain), EventOf(s, l), Abs(Step(s, l), NextChain(s, l, chain));
            && (e != Internal ==> e.t == l.t)
            && OpMove(a.ops[l.t], e, a'.ops[l.t]) && QueueMove(a.queue, e, a'.queue)
            && a'.aborted == e.EmptyPop?
  {
    ValuesStep(s, l, chain);
    OwnOpStep(s, l, chain);
    StatusStep(s, l, chain);
    OthersStep(s, l);
  }

  /** Forward simulation: a memory action of the machine is the event EventOf of the atomic queue. */
  lemma StepRefines(s: State, l: Label, chain: seq<Ref>)
    requires Inv(s, chain) && Enabled(s, l)
    ensures Inv(Step(s, l), NextChain(s, l, chain))
    ensures FifoNext(Abs(s, chain), EventOf(s, l)) == Some(Abs(Step(s, l), NextChain(s, l, chain)))
  {
    StepInv(s, l, chain);
    OpsStep(s, l, chain);
    AbsMoves(s, l, chain);
    FifoMoves(Abs(s, chain), EventOf(s, l), Abs(Step(s, l), NextChain(s, l, chain)), l.t);
  }

  // ---------------------------------------------------------------- whole runs

  lemma {:induction false} RunInv(s0: State, ls: seq<Label>)
    requires Init(s0) && After(s0, ls).Some?
    ensures Inv(After(s0, ls).value, ChainAfter(s0, ls))
  {
    if ls == [] {
      InitInv(s0);
    } else {
      RunInv(s0, ls[..|ls| - 1]);
      StepInv(After(s0, ls[..|ls| - 1]).value, Last(ls), ChainAfter(s0, ls[..|ls| - 1]));
    }
  }

  ghost function InitFifo(s0: State): Fifo {
    Fifo([], map t | t in s0.pcs :: NoOp, false)
  }

  /** Linearizability: the events of any interleaving are a run of the atomic queue. */
  lemma {:induction false} RunRefines(s0: State, ls: seq<Label>)
    requires Init(s0) && After(s0, ls).Some?
    ensures ChainAfter(s0, ls) != []
    ensures FifoAfter(InitFifo(s0), Trace(s0, ls)) == Some(Abs(After(s0, ls).value, ChainAfter(s0, ls)))
  {
    RunInv(s0, ls);
    if ls == [] {
      assert Abs(s0, [s0.head]) == InitFifo(s0);
    } else {
      var ls' := ls[..|ls| - 1];
      RunRefines(s0, ls');
      RunInv(s0, ls');
      StepRefines(After(s0, ls').value, Last(ls), ChainAfter(s0, ls'));
      var es := Trace(s0, ls);
      assert es[..|es| - 1] == Trace(s0, ls');
    }
  }

  /** No step of any run uses a node that is not live; pop asserts only when the queue is empty. */
  lemma RunSafe(s0: State, ls: seq<Label>, l: Label)
    requires Init(s0) && After(s0, ls).Some? && Enabled(After(s0, ls).value, l)
    ensures Step(After(s0, ls).value, l).status != Faulted
    ensures ChainAfter(s0, ls) != []
    ensures Step(After(s0, ls).value, l).status == Aborted ==>
              Abs(After(s0, ls).value, ChainAfter(s0, ls)).queue == []
  {
    RunInv(s0, ls);
    StepRefines(After(s0, ls).value, l, ChainAfter(s0, ls));
    StatusStep(After(s0, ls).value, l, ChainAfter(s0, ls));
  }

  // ---------------------------------------------------------------- order and conservation

  /** Values linked by the events es, in link order. */
  function Linked(es: seq<Event>): seq<Value> {
    if es == [] then []
    else Linked(es[..|es| - 1]) + if Last(es).Enqueue? then [Last(es).v] else []
  }

  /** Values returned by pop in the events es, in return order. */
  function Returned(es: seq<Event>): seq<Value> {
    if es == [] then []
    else Returned(es[..|es| - 1]) + if Last(es).RetPop? then [Last(es).v] else []
  }

  /** The value a popper has taken and not yet returned. */
  ghost function InFlight(s: State): seq<Value> {
    if s.popOwner.Some? && s.popOwner.value in s.pcs && OpOf(s.heap, s.head, s.pcs[s.popOwner.value]).Popped?
    then [OpOf(s.heap, s.head, s.pcs[s.popOwner.value]).v] else []
  }

  /** A dequeue fills the empty flight, a return empties it, nothing else touches it. */
  ghost predicate FlightMove(f: seq<Value>, e: Event, f': seq<Value>) {
    match e
    case Dequeue(_, v) => f == [] && f' == [v]
    case RetPop(_, v) => f == [v] && f' == []
    case _ => f' == f
  }

  lemma InFlightStep(s: State, l: Label, chain: seq<Ref>)
    requires Core(s, chain) && Enabled(s, l)
    ensures FlightMove(InFlight(s), EventOf(s, l), InFlight(Step(s, l)))
  {
    assert ThreadOk(s, chain, l.t);
    OwnOpStep(s, l, chain);
    if s.popOwner.Some? && s.popOwner.value != l.t {
      OpStep(s, l, chain, s.popOwner.value);
    }
  }

  lemma FlowStep(es: seq<Event>, e: Event, f: seq<Value>, f': seq<Value>, q: seq<Value>, q': seq<Value>)
    requires Linked(es) == Returned(es) + f + q
    requires FlightMove(f, e, f') && QueueMove(q, e, q')
    ensures Linked(es + [e]) == Returned(es + [e]) + f' + q'
  {
    assert (es + [e])[..|es + [e]| - 1] == es;
  }

  /** Nothing lost, duplicated, invented or reordered: what was linked is what was returned,
      then the value in flight, then the queue. */
  lemma {:induction false} RunConserves(s0: State, ls: seq<Label>)
    requires Init(s0) && After(s0, ls).Some?
    ensures ChainAfter(s0, ls) != []
    ensures var s := After(s0, ls).value;
            Linked(Trace(s0, ls)) == Returned(Trace(s0, ls)) + InFlight(s) + Values(s.heap, ChainAfter(s0, ls))
  {
    RunInv(s0, ls);
    if ls != [] {
      var ls', l := ls[..|ls| - 1], Last(ls);
      var s, chain := After(s0, ls').value, ChainAfter(s0, ls');
      RunConserves(s0, ls');
      RunInv(s0, ls');
      ValuesStep(s, l, chain);
      InFlightStep(s, l, chain);
      FlowStep(Trace(s0, ls'), EventOf(s, l), InFlight(s), InFlight(Step(s, l)),
               Values(s.heap, chain), Values(Step(s, l).heap, NextChain(s, l, chain)));
    }
  }
}
