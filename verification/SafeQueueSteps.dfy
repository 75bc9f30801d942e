/**
 The two-lock linked queue as a machine that performs one memory action per step.
 Any number of threads may push and pop; a pusher holds h_lock_, a popper t_lock_, so one
 of each works on the chain at the same time.  Memory is a map from addresses to nodes:
 `new` may return any address that is not live, also one that was deleted before, and an
 access to an address that is not live moves the machine to `Faulted`.
 */
module SafeQueueSteps {
  import opened Prelude

  type Ref = nat
  type Tid = nat
  /** A request id of del_reqid_list, or the address behind an RPCStruct_ptr. */
  type Value = int

  const NULL: Ref := 0

  datatype Node = Node(val: Value, next: Ref)

  /** Where a thread stands; the comment names the memory action that comes next. */
  datatype Pc =
    | Idle
    | PushNew(v: Value)                    // new NODE()
    | PushVal(v: Value, n: Ref)            // node->val = val
    | PushNext(v: Value, n: Ref)           // node->next = nullptr
    | PushLock(v: Value, n: Ref)           // lock h_lock_
    | PushCount(v: Value, n: Ref)          // ++size_
    | PushLoadTail(v: Value, n: Ref)       // load tail_
    | PushLink(v: Value, n: Ref, last: Ref)// last->next = node
    | PushSwing(v: Value, n: Ref)          // tail_ = node
    | PushUnlock(v: Value)                 // unlock h_lock_, return
    | PopLock                              // lock t_lock_
    | PopLoadHead                          // empty_: load head_
    | PopTest(h: Ref)                      // empty_: h->next == nullptr
    | PopUncount                           // --size_
    | PopLoadDead                          // erase_: load head_
    | PopLoadNext(h: Ref)                  // erase_: tmp = h->next
    | PopDelete(h: Ref, tmp: Ref)          // erase_: delete h
    | PopMove(tmp: Ref)                    // head_ = tmp
    | PopLoadFront                         // load head_
    | PopLoadVal(h: Ref)                   // load h->val
    | PopUnlock(v: Value)                  // unlock t_lock_, return v

  /** `Aborted` is the assert(false) of pop on an empty queue; `Faulted` a use of dead memory. */
  datatype Status = Running | Aborted | Faulted

  datatype State = State(
    heap: map<Ref, Node>,
    head: Ref,
    tail: Ref,
    size: int,
    pushOwner: Option<Tid>,
    popOwner: Option<Tid>,
    pcs: map<Tid, Pc>,
    status: Status)

  datatype Label =
    | BeginPush(t: Tid, v: Value)
    | BeginPop(t: Tid)
    | Act(t: Tid, addr: Ref)   // addr is what `new` returns, ignored by other actions

  function At(s: State, t: Tid, pc: Pc): State {
    s.(pcs := s.pcs[t := pc])
  }

  function Fault(s: State): State {
    s.(status := Faulted)
  }

  predicate Enabled(s: State, l: Label) {
    && s.status == Running
    && l.t in s.pcs
    && match l
       case BeginPush(t, _) => s.pcs[t].Idle?
       case BeginPop(t) => s.pcs[t].Idle?
       case Act(t, addr) =>
         match s.pcs[t]
         case Idle => false
         case PushNew(_) => addr != NULL && addr !in s.heap
         case PushLock(_, _) => s.pushOwner.None?
         case PopLock => s.popOwner.None?
         case _ => true
  }

  /** One memory action of thread l.t. */
  function Step(s: State, l: Label): State
    requires Enabled(s, l)
  {
    match l
    case BeginPush(t, v) => At(s, t, PushNew(v))
    case BeginPop(t) => At(s, t, PopLock)
    case Act(t, addr) => if s.pcs[t].Idle? || IsPush(s.pcs[t]) then PushStep(s, t, addr) else PopStep(s, t)
  }

  predicate IsPush(pc: Pc) {
    pc.PushNew? || pc.PushVal? || pc.PushNext? || pc.PushLock? || PushHolds(pc)
  }

  function PushStep(s: State, t: Tid, addr: Ref): State
    requires t in s.pcs
  {
    match s.pcs[t]
    case PushNew(v) =>
      At(s, t, PushVal(v, addr)).(heap := s.heap[addr := Node(0, NULL)])
    case PushVal(v, n) =>
      if n !in s.heap then Fault(s) else
      At(s, t, PushNext(v, n)).(heap := s.heap[n := s.heap[n].(val := v)])
    case PushNext(v, n) =>
      if n !in s.heap then Fault(s) else
      At(s, t, PushLock(v, n)).(heap := s.heap[n := s.heap[n].(next := NULL)])
    case PushLock(v, n) => At(s, t, PushCount(v, n)).(pushOwner := Some(t))
    case PushCount(v, n) => At(s, t, PushLoadTail(v, n)).(size := s.size + 1)
    case PushLoadTail(v, n) => At(s, t, PushLink(v, n, s.tail))
    case PushLink(v, n, last) =>
      if last !in s.heap then Fault(s) else
      At(s, t, PushSwing(v, n)).(heap := s.heap[last := s.heap[last].(next := n)])
    case PushSwing(v, n) => At(s, t, PushUnlock(v)).(tail := n)
    case PushUnlock(v) => At(s, t, Idle).(pushOwner := None)
    case _ => s
  }

  function PopStep(s: State, t: Tid): State
    requires t in s.pcs
  {
    match s.pcs[t]
    case PopLock => At(s, t, PopLoadHead).(popOwner := Some(t))
    case PopLoadHead => At(s, t, PopTest(s.head))
    case PopTest(h) =>
      if h !in s.heap then Fault(s)
      else if s.heap[h].next == NULL then s.(status := Aborted)
      else At(s, t, PopUncount)
    case PopUncount => At(s, t, PopLoadDead).(size := s.size - 1)
    case PopLoadDead => At(s, t, PopLoadNext(s.head))
    case PopLoadNext(h) =>
      if h !in s.heap then Fault(s) else At(s, t, PopDelete(h, s.heap[h].next))
    case PopDelete(h, tmp) =>
      if h !in s.heap then Fault(s) else At(s, t, PopMove(tmp)).(heap := s.heap - {h})
    case PopMove(tmp) => At(s, t, PopLoadFront).(head := tmp)
    case PopLoadFront => At(s, t, PopLoadVal(s.head))
    case PopLoadVal(h) =>
      if h !in s.heap then Fault(s) else At(s, t, PopUnlock(s.heap[h].val))
    case PopUnlock(v) => At(s, t, Idle).(popOwner := None)
    case _ => s
  }

  predicate PushHolds(pc: Pc) {
    pc.PushCount? || pc.PushLoadTail? || pc.PushLink? || pc.PushSwing? || pc.PushUnlock?
  }

  predicate PopHolds(pc: Pc) {
    pc.PopLoadHead? || pc.PopTest? || pc.PopUncount? || pc.PopLoadDead? || pc.PopLoadNext?
    || pc.PopDelete? || pc.PopMove? || pc.PopLoadFront? || pc.PopLoadVal? || pc.PopUnlock?
  }

  /** The constructed queue: one dummy node at address d, every thread idle. */
  ghost predicate Init(s: State) {
    && s.head != NULL
    && s.heap == map[s.head := Node(0, NULL)]
    && s.tail == s.head
    && s.size == 0
    && s.pushOwner.None? && s.popOwner.None?
    && (forall t | t in s.pcs :: s.pcs[t] == Idle)
    && s.status == Running
  }

  /** The state that the labels ls lead to from s0, or None if one was not enabled where it was taken. */
  function After(s0: State, ls: seq<Label>): Option<State> {
    if ls == [] then Some(s0)
    else
      var m := After(s0, ls[..|ls| - 1]);
      if m.Some? && Enabled(m.value, Last(ls)) then Some(Step(m.value, Last(ls))) else None
  }
}
