/**
 The request lifecycle of client_loop as a machine: application threads run write() and read(),
 one io thread runs the handlers, and every access to shared data is one step.  `operator[]` of the
 receive map inserts a null pointer for an absent key before the assignment that follows it.  A read
 pushes on the delete list in two steps, as SafeQueue does: under h_lock_ it counts its node in size_
 and then links it, and the sweep sees size_ in between.  Ids do not wrap.
 */
module ClientSteps {
  import opened Prelude

  type Tid = nat
  /** An RPCStruct created for receiving, by order of creation. */
  type Obj = nat

  /** CT_UNKNOWN, CT_READ_OK, CT_TIMEOUT and CT_ERROR as values of RPCStruct::status. */
  datatype Status = Waiting | ReadOk | TimedOut | Failed

  datatype Flag = NoFlag | EraseState | EraseExec

  /** The asio timer of one RPCStruct.  Fired: expired, its handler is queued and can no longer be
      cancelled.  Cancelled: its handler is queued with an error. */
  datatype Timer = Unset | Armed | Fired | Cancelled | Spent

  datatype Entry = Entry(reqId: int, status: Status, flag: Flag, timer: Timer)

  datatype AppPc =
    | AppIdle
    | WriteMake(k: int)                    // new RPCStruct, head().req_id(k)
    | WriteSlot(k: int, o: Obj)            // recv_msg_map_[k]: insert null if absent
    | WriteStore(k: int, o: Obj)           // ... = recv
    | WriteArm(k: int, o: Obj)             // recv->do_init_timer, return k
    | ReadFind(k: int)                     // recv_msg_map_.find(reqid)
    | ReadGet(k: int)                      // res = recv_msg_map_[reqid]
    | ReadPoll(k: int, r: Option<Obj>)     // switch(res->get_status())
    | ReadFlag(k: int, o: Obj)             // res->erase_flag = CT_ERASE_STATE
    | ReadCount(k: int, o: Obj)            // del_reqid_list.push(res->head().req_id()): lock h_lock_, ++size_
    | ReadLink(k: int, o: Obj, id: int)    // ... link the node with value id, unlock, return res

  datatype IoPc =
    | IoFree
    | HeadFind(k: int)                     // handle_read_header: find(head->req_id())
    | HeadSet(k: int)                      // recv_msg_map_[k]->head(*head)
    | HeadRead(k: int)                     // do_read_msg(recv_msg_map_[k])
    | SetStatus(o: Obj, v: Status)         // set_status: the timer is cancelled, the status not yet written
    | SweepTest(i: nat)                    // i < del_reqid_list.size()
    | SweepPop(i: nat)                     // reqid = del_reqid_list.pop()
    | SweepFind(i: nat, k: int)            // find(reqid)
    | SweepExec(i: nat, k: int)            // erase_flag == CT_ERASE_EXEC
    | SweepErase(i: nat, k: int)           // erase(reqid)
    | SweepState(i: nat, k: int)           // erase_flag == CT_ERASE_STATE
    | SweepMark(i: nat, k: int)            // erase_flag = CT_ERASE_EXEC
    | SweepPush(i: nat, k: int)            // del_reqid_list.push(reqid)

  /** History: what happened to id k, in order. */
  datatype Event = Saw(k: int) | Queued(k: int) | Marked(k: int) | Erased(k: int) | Defaulted(k: int)

  /** History: the last thing that began for an id. */
  datatype Phase = Making | Written | Asked | Deleting | Gone

  datatype State = State(
    nextId: int,
    objs: seq<Entry>,
    recv: map<int, Option<Obj>>,
    delq: seq<int>,            // the ids linked in del_reqid_list
    pusher: Option<Tid>,       // the read whose push is counted and not linked; it holds h_lock_
    pcs: map<Tid, AppPc>,
    io: IoPc,
    reading: Option<Obj>,
    crashed: bool,
    log: seq<Event>,
    phase: map<int, Phase>)

  datatype Label =
    | BeginWrite(t: Tid)
    | BeginRead(t: Tid, k: int)
    | App(t: Tid)
    | HeadArrives(k: int)        // a reply head with this id was read
    | BodyDone(ok: bool)         // the body read ended, without or with an error
    | BodyDropped                // the body read ended after the socket was closed
    | TimerExpires(o: Obj)
    | TimeoutRuns(o: Obj)        // set_timeout without error
    | AbortRuns(o: Obj)          // set_timeout with operation_aborted
    | SweepBegins                // e_timer calls erase_msg_timer
    | Io                         // the next step of the running handler

  /** The next step waits for h_lock_. */
  predicate AppBlocked(s: State, pc: AppPc) {
    pc.ReadCount? && s.pusher.Some?
  }

  predicate IoBlocked(s: State) {
    s.io.SweepPush? && s.pusher.Some?
  }

  predicate Enabled(s: State, l: Label) {
    && !s.crashed
    && match l
       case BeginWrite(t) => t in s.pcs && s.pcs[t].AppIdle?
       case BeginRead(t, _) => t in s.pcs && s.pcs[t].AppIdle?
       case App(t) => t in s.pcs && !s.pcs[t].AppIdle? && !AppBlocked(s, s.pcs[t])
       case HeadArrives(_) => s.io.IoFree? && s.reading.None?
       case BodyDone(_) => s.io.IoFree? && s.reading.Some? && s.reading.value < |s.objs|
       case BodyDropped => s.io.IoFree? && s.reading.Some?
       case TimerExpires(o) => o < |s.objs| && s.objs[o].timer.Armed?
       case TimeoutRuns(o) => s.io.IoFree? && o < |s.objs| && s.objs[o].timer.Fired?
       case AbortRuns(o) => s.io.IoFree? && o < |s.objs| && s.objs[o].timer.Cancelled?
       case SweepBegins => s.io.IoFree?
       case Io => !s.io.IoFree? && !IoBlocked(s)
  }

  function Crash(s: State): State {
    s.(crashed := true)
  }

  function At(s: State, t: Tid, pc: AppPc): State {
    s.(pcs := s.pcs[t := pc])
  }

  function SetTimer(s: State, o: Obj, tm: Timer): State
    requires o < |s.objs|
  {
    s.(objs := s.objs[o := s.objs[o].(timer := tm)])
  }

  function SetFlag(s: State, o: Obj, f: Flag): State
    requires o < |s.objs|
  {
    s.(objs := s.objs[o := s.objs[o].(flag := f)])
  }

  function Log(s: State, e: Event): State {
    s.(log := s.log + [e])
  }

  /** The pointer `recv_msg_map_[k]` yields; an absent key is inserted with a null pointer. */
  function Lookup(s: State, k: int): Option<Obj> {
    if k in s.recv then s.recv[k] else None
  }

  /** The entry `recv_msg_map_[k]->` reaches, None when that dereferences null. */
  function Deref(s: State, k: int): (r: Option<Obj>)
    ensures r.Some? ==> k in s.recv && r == s.recv[k] && r.value < |s.objs|
  {
    if k in s.recv && s.recv[k].Some? && s.recv[k].value < |s.objs| then s.recv[k] else None
  }

  function Touch(s: State, k: int): State {
    if k in s.recv then s else Log(s, Defaulted(k)).(recv := s.recv[k := None])
  }

  /** del_reqid_list.size(). */
  function Size(s: State): nat {
    |s.delq| + if s.pusher.Some? then 1 else 0
  }

  function Step(s: State, l: Label): State
    requires Enabled(s, l)
  {
    match l
    case BeginWrite(t) =>
      At(s, t, WriteMake(s.nextId)).(nextId := s.nextId + 1, phase := s.phase[s.nextId := Making])
    case BeginRead(t, k) => At(s, t, ReadFind(k)).(phase := if k in s.phase then s.phase[k := Asked] else s.phase)
    case App(t) => AppStep(s, t)
    case HeadArrives(k) => s.(io := HeadFind(k))
    case BodyDone(ok) =>
      var o := s.reading.value;
      (if s.objs[o].timer.Armed? then SetTimer(s, o, Cancelled) else s)
      .(reading := None, io := SetStatus(o, if ok then ReadOk else Failed))
    case BodyDropped => s.(reading := None)
    case TimerExpires(o) => SetTimer(s, o, Fired)
    case TimeoutRuns(o) => SetTimer(s, o, Spent).(io := SetStatus(o, TimedOut))
    case AbortRuns(o) => SetTimer(s, o, Spent)
    case SweepBegins => s.(io := SweepTest(0))
    case Io => IoStep(s)
  }

  predicate IsRead(pc: AppPc) {
    pc.ReadFind? || pc.ReadGet? || pc.ReadPoll? || pc.ReadFlag? || pc.ReadCount? || pc.ReadLink?
  }

  function AppStep(s: State, t: Tid): State
    requires t in s.pcs
  {
    if IsRead(s.pcs[t]) then ReadStep(s, t) else WriteStep(s, t)
  }

  /** newMsgBuf, as far as the receive side goes. */
  function WriteStep(s: State, t: Tid): State
    requires t in s.pcs
  {
    match s.pcs[t]
    case WriteMake(k) =>
      At(s, t, WriteSlot(k, |s.objs|)).(objs := s.objs + [Entry(k, Waiting, NoFlag, Unset)])
    case WriteSlot(k, o) =>
      At(s, t, WriteStore(k, o)).(recv := if k in s.recv then s.recv else s.recv[k := None])
    case WriteStore(k, o) => At(s, t, WriteArm(k, o)).(recv := s.recv[k := Some(o)])
    case WriteArm(k, o) =>
      if o >= |s.objs| then Crash(s) else
      At(SetTimer(s, o, Armed), t, AppIdle).(phase := s.phase[k := Written])
    case _ => s
  }

  function ReadStep(s: State, t: Tid): State
    requires t in s.pcs
  {
    match s.pcs[t]
    case ReadFind(k) => At(s, t, if k in s.recv then ReadGet(k) else AppIdle)
    case ReadGet(k) => At(Touch(s, k), t, ReadPoll(k, Lookup(s, k)))
    case ReadPoll(k, r) =>
      if r.None? || r.value >= |s.objs| then Crash(s)
      else if s.objs[r.value].status.Waiting? then s
      else Log(At(s, t, ReadFlag(k, r.value)), Saw(k))
    case ReadFlag(k, o) =>
      if o >= |s.objs| then Crash(s) else At(SetFlag(s, o, EraseState), t, ReadCount(k, o))
    case ReadCount(k, o) =>
      if o >= |s.objs| then Crash(s) else At(s, t, ReadLink(k, o, s.objs[o].reqId)).(pusher := Some(t))
    case ReadLink(k, o, id) =>
      Log(At(s, t, AppIdle), Queued(id)).(delq := s.delq + [id], pusher := None, phase := s.phase[id := Deleting])
    case _ => s
  }

  predicate IsHandler(io: IoPc) {
    io.HeadFind? || io.HeadSet? || io.HeadRead? || io.SetStatus?
  }

  function IoStep(s: State): State {
    if IsHandler(s.io) then HandlerStep(s) else SweepStep(s)
  }

  /** handle_read_header, do_read_msg and the end of set_status. */
  function HandlerStep(s: State): State {
    match s.io
    case HeadFind(k) =>
      if k in s.recv then s.(io := HeadSet(k))
      else s.(io := IoFree, objs := s.objs + [Entry(k, Waiting, NoFlag, Unset)], reading := Some(|s.objs|))
    case HeadSet(k) =>
      var r := Deref(s, k);
      if r.None? then Crash(s)
      else s.(io := HeadRead(k), objs := s.objs[r.value := s.objs[r.value].(reqId := k)])
    case HeadRead(k) =>
      var r := Deref(s, k);
      if r.None? then Crash(s) else s.(io := IoFree, reading := r)
    case SetStatus(o, v) =>
      if o >= |s.objs| then Crash(s) else s.(io := IoFree, objs := s.objs[o := s.objs[o].(status := v)])
    case _ => s
  }

  predicate IsEntryTest(io: IoPc) {
    io.SweepExec? || io.SweepErase? || io.SweepState? || io.SweepMark?
  }

  /** The loop of erase_msg_timer. */
  function SweepStep(s: State): State {
    if IsEntryTest(s.io) then EntryStep(s) else LoopStep(s)
  }

  /** The loop's own steps: its test, pop, find and push. */
  function LoopStep(s: State): State {
    match s.io
    case SweepTest(i) => s.(io := if i < Size(s) then SweepPop(i) else IoFree)
    case SweepPop(i) =>
      if |s.delq| == 0 then Crash(s) else s.(io := SweepFind(i, s.delq[0]), delq := s.delq[1..])
    case SweepFind(i, k) => s.(io := if k in s.recv then SweepExec(i, k) else SweepTest(i + 1))
    case SweepPush(i, k) => s.(io := SweepTest(i + 1), delq := s.delq + [k])
    case _ => s
  }

  /** What the loop does to the entry it found. */
  function EntryStep(s: State): State {
    match s.io
    case SweepExec(i, k) =>
      var r := Deref(s, k);
      if r.None? then Crash(s)
      else s.(io := if s.objs[r.value].flag.EraseExec? then SweepErase(i, k) else SweepState(i, k))
    case SweepErase(i, k) =>
      Log(s, Erased(k)).(io := SweepTest(i + 1), recv := s.recv - {k}, phase := s.phase[k := Gone])
    case SweepState(i, k) =>
      var r := Deref(s, k);
      if r.None? then Crash(s)
      else s.(io := if s.objs[r.value].flag.EraseState? then SweepMark(i, k) else SweepPush(i, k))
    case SweepMark(i, k) =>
      var r := Deref(s, k);
      if r.None? then Crash(s)
      else Log(SetFlag(s, r.value, EraseExec), Marked(k)).(io := SweepPush(i, k))
    case _ => s
  }

  ghost predicate Init(s: State) {
    && s.nextId == 1 && s.objs == [] && s.recv == map[] && s.delq == [] && s.pusher.None?
    && (forall t | t in s.pcs :: s.pcs[t].AppIdle?)
    && s.io.IoFree? && s.reading.None? && !s.crashed && s.log == [] && s.phase == map[]
  }

  function After(s0: State, ls: seq<Label>): Option<State> {
    if ls == [] then Some(s0)
    else
      var m := After(s0, ls[..|ls| - 1]);
      if m.Some? && Enabled(m.value, Last(ls)) then Some(Step(m.value, Last(ls))) else None
  }
}
