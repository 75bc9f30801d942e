/**
 The server's session: its reply queue and the writes it starts.  `sent` lists the frames handed to
 async_write, in order; `owed` the replies the requests call for, in request order.
 */
module LinkSessions {
  import opened Prelude
  import opened Frames
  import opened RpcBuffer

  datatype Session = Session(queue: seq<Frame>, sent: seq<Frame>, outstanding: nat, underflow: bool, owed: seq<Frame>)

  /** What the callback returned: None is a null CallStruct (or no callback at all). */
  type CallResult = Option<Bytes>

  datatype Event =
    | Request(f: Frame, res: CallResult)   // handle_read_msg without error
    | WriteDone                            // handle_write without error
    | WriteFailed                          // handle_write with an error

  /** A non-empty callback result is sent under the request's id, anything else echoes the request. */
  function ReplyTo(f: Frame, res: CallResult): Frame {
    if res.Some? && |res.value| > 0 then Frame(f.reqId, META, res.value) else f
  }

  /** do_write starts a write of the front of the queue. */
  function StartWrite(s: Session): Session
    requires s.queue != []
  {
    s.(sent := s.sent + [s.queue[0]], outstanding := s.outstanding + 1)
  }

  function OnRequest(s: Session, f: Frame, res: CallResult): Session {
    StartWrite(s.(queue := s.queue + [ReplyTo(f, res)], owed := s.owed + [ReplyTo(f, res)]))
  }

  /** pop_front on an empty deque is recorded as underflow. */
  function OnWriteDone(s: Session): Session
    requires s.outstanding > 0
  {
    var o := s.(outstanding := s.outstanding - 1);
    if o.queue == [] then o.(underflow := true)
    else
      var p := o.(queue := o.queue[1..]);
      if p.queue == [] then p else StartWrite(p)
  }

  /** handle_write with an error only logs it. */
  function OnWriteFailed(s: Session): Session
    requires s.outstanding > 0
  {
    s.(outstanding := s.outstanding - 1)
  }

  predicate Enabled(s: Session, e: Event) {
    !s.underflow && (e.Request? || s.outstanding > 0)
  }

  function Next(s: Session, e: Event): Session
    requires Enabled(s, e)
  {
    match e
    case Request(f, res) => OnRequest(s, f, res)
    case WriteDone => OnWriteDone(s)
    case WriteFailed => OnWriteFailed(s)
  }

  const FRESH := Session([], [], 0, false, [])

  function After(es: seq<Event>): Option<Session> {
    if es == [] then Some(FRESH)
    else
      var s := After(es[..|es| - 1]);
      if s.Some? && Enabled(s.value, Last(es)) then Some(Next(s.value, Last(es))) else None
  }

  class LinkSession {
    var writeMsgs: seq<Frame>
    var sent: seq<Frame>
    var outstanding: nat
    var underflow: bool
    ghost var owed: seq<Frame>

    ghost function Snapshot(): Session
      reads this
    {
      Session(writeMsgs, sent, outstanding, underflow, owed)
    }

    constructor ()
      ensures Snapshot() == FRESH
    {
      writeMsgs, sent, outstanding, underflow, owed := [], [], 0, false, [];
    }

    method DoWrite()
      requires writeMsgs != []
      modifies this
      ensures Snapshot() == StartWrite(old(Snapshot()))
    {
      sent := sent + [writeMsgs[0]];
      outstanding := outstanding + 1;
    }

    /** reply.  One more reply is owed and one more write is started.  With nothing being written it is a write
        of that reply and the session stays in step; otherwise the front of the queue goes out once more. */
    method Reply(msg: Frame, res: CallResult)
      modifies this
      ensures owed == old(owed) + [ReplyTo(msg, res)] && outstanding == old(outstanding) + 1
      ensures old(InStep(Snapshot())) && old(outstanding) == 0 ==>
          InStep(Snapshot()) && sent == old(sent) + [ReplyTo(msg, res)]
      ensures old(writeMsgs) != [] ==> sent == old(sent) + [old(writeMsgs)[0]]
      ensures underflow == old(underflow) && |writeMsgs| == old(|writeMsgs|) + 1
      ensures Snapshot() == OnRequest(old(Snapshot()), msg, res)
    {
      if res.Some? && |res.value| > 0 {
        writeMsgs := writeMsgs + [Frame(msg.reqId, META, res.value)];
      } else {
        writeMsgs := writeMsgs + [msg];
      }
      owed := owed + [ReplyTo(msg, res)];
      if writeMsgs != [] {
        DoWrite();
      }
    }

    /** handle_write.  Without error a session in step stays in step, with nothing left to write, and an empty queue
        is popped exactly when it was empty before; with an error nothing is popped and nothing is started. */
    method HandleWrite(error: bool)
      requires outstanding > 0
      modifies this
      ensures !error && old(InStep(Snapshot())) ==> InStep(Snapshot()) && outstanding == 0 && sent == old(sent)
      ensures owed == old(owed) && (underflow <==> old(underflow) || (!error && old(writeMsgs) == []))
      ensures old(sent) <= sent && |sent| == old(|sent|) + B2I(!error && |old(writeMsgs)| >= 2)
      ensures |writeMsgs| == old(|writeMsgs|) - B2I(!error && old(writeMsgs) != [])
      ensures outstanding + 1 == old(outstanding) + |sent| - old(|sent|)
      ensures error ==> writeMsgs == old(writeMsgs)
      ensures Snapshot() == if error then OnWriteFailed(old(Snapshot())) else OnWriteDone(old(Snapshot()))
    {
      outstanding := outstanding - 1;
      if error {
        return;
      }
      if writeMsgs == [] {
        underflow := true;
      } else {
        writeMsgs := writeMsgs[1..];
        if writeMsgs != [] {
          DoWrite();
        }
      }
    }
  }

  // ---------------------------------------------------------------- one request at a time

  /** Every request arrives when no write is outstanding, and no write fails. */
  ghost predicate Paced(es: seq<Event>)
    decreases |es|
  {
    es != [] ==>
      && Paced(es[..|es| - 1]) && !Last(es).WriteFailed?
      && (Last(es).Request? && After(es[..|es| - 1]).Some? ==> After(es[..|es| - 1]).value.outstanding == 0)
  }

  /** The queue holds exactly the reply being written, and what was sent is what was owed. */
  ghost predicate InStep(s: Session) {
    && !s.underflow && s.sent == s.owed
    && s.outstanding == |s.queue| <= 1
    && (s.queue != [] ==> s.owed != [] && s.queue[0] == Last(s.owed))
  }

  /** Paced, a session emits exactly one frame per request, in order, never pops an empty queue. */
  lemma {:induction false} PacedInStep(es: seq<Event>)
    requires After(es).Some? && Paced(es)
    ensures InStep(After(es).value) && After(es).value.sent == Replies(es)
  {
    OwedIsReplies(es);
    if es != [] {
      PacedInStep(es[..|es| - 1]);
    }
  }

  /** The replies that the requests among es call for, in order. */
  function Replies(es: seq<Event>): seq<Frame> {
    if es == [] then []
    else Replies(es[..|es| - 1]) + if Last(es).Request? then [ReplyTo(Last(es).f, Last(es).res)] else []
  }

  lemma {:induction false} OwedIsReplies(es: seq<Event>)
    requires After(es).Some?
    ensures After(es).value.owed == Replies(es)
  {
    if es != [] {
      OwedIsReplies(es[..|es| - 1]);
    }
  }

  // ---------------------------------------------------------------- and only then

  /** Some frame sent is not the reply owed at its place. */
  ghost predicate Misplaced(s: Session) {
    exists i :: 0 <= i < |s.sent| && i < |s.owed| && s.sent[i] != s.owed[i]
  }

  lemma Grows(s: Session, e: Event)
    requires Enabled(s, e)
    ensures s.sent <= Next(s, e).sent && s.owed <= Next(s, e).owed
  {
  }

  lemma MisplacedStays(s: Session, e: Event)
    requires Enabled(s, e) && Misplaced(s)
    ensures Misplaced(Next(s, e))
  {
    Grows(s, e);
    var i :| 0 <= i < |s.sent| && i < |s.owed| && s.sent[i] != s.owed[i];
    assert Next(s, e).sent[i] == s.sent[i] && Next(s, e).owed[i] == s.owed[i];
  }

  /** A request that overtakes a write re-sends the reply being written in place of its own. */
  lemma Overtaking(s: Session, f: Frame, res: CallResult)
    requires InStep(s) && s.outstanding == 1 && ReplyTo(f, res) !in s.owed
    ensures Misplaced(OnRequest(s, f, res))
  {
    var s' := OnRequest(s, f, res);
    assert s'.sent[|s.owed|] == Last(s.owed) && s'.owed[|s.owed|] == ReplyTo(f, res);
  }

  lemma {:induction false} UnpacedMisplaced(es: seq<Event>)
    requires After(es).Some? && !Paced(es) && Distinct(Replies(es))
    requires forall i | 0 <= i < |es| :: !es[i].WriteFailed?
    ensures Misplaced(After(es).value)
  {
    var es', e := es[..|es| - 1], Last(es);
    var s := After(es').value;
    OwedIsReplies(es');
    assert forall i | 0 <= i < |Replies(es')| :: Replies(es)[i] == Replies(es')[i];
    if Paced(es') {
      PacedInStep(es');
      assert ReplyTo(e.f, e.res) !in s.owed by {
        assert Replies(es)[|Replies(es')|] == ReplyTo(e.f, e.res);
      }
      Overtaking(s, e.f, e.res);
    } else {
      UnpacedMisplaced(es');
      MisplacedStays(s, e);
    }
  }

  /** When no write fails and the replies differ, the frames on the socket are the owed replies in order
      exactly if no request arrived while a write was outstanding. */
  lemma FaithfulExactlyWhenPaced(es: seq<Event>)
    requires After(es).Some? && Distinct(Replies(es))
    requires forall i | 0 <= i < |es| :: !es[i].WriteFailed?
    ensures Paced(es) <==> After(es).value.sent <= Replies(es)
  {
    OwedIsReplies(es);
    if Paced(es) {
      PacedInStep(es);
    } else {
      UnpacedMisplaced(es);
    }
  }

  /** Two requests back to back: the first reply goes out twice, and the third completion pops an
      empty queue. */
  lemma PipelinedUnderflow(f: Frame, g: Frame)
    ensures var es := [Request(f, None)] + [Request(g, None)] + [WriteDone] + [WriteDone] + [WriteDone];
            && After(es).Some? && After(es).value.underflow && After(es).value.sent == [f, f, g]
  {
    var es := [Request(f, None)];
    var s := Session([f], [f], 1, false, [f]);
    Snoc([], FRESH, Request(f, None), s);
    assert [] + es == es;
    var s' := Session([f, g], [f, f], 2, false, [f, g]);
    Snoc(es, s, Request(g, None), s');
    es, s, s' := es + [Request(g, None)], s', Session([g], [f, f, g], 2, false, [f, g]);
    Snoc(es, s, WriteDone, s');
    es, s, s' := es + [WriteDone], s', Session([], [f, f, g], 1, false, [f, g]);
    Snoc(es, s, WriteDone, s');
    es, s, s' := es + [WriteDone], s', Session([], [f, f, g], 0, true, [f, g]);
    Snoc(es, s, WriteDone, s');
  }

  lemma Snoc(es: seq<Event>, s: Session, e: Event, s': Session)
    requires After(es) == Some(s) && Enabled(s, e) && Next(s, e) == s'
    ensures After(es + [e]) == Some(s')
  {
    assert (es + [e])[..|es + [e]| - 1] == es;
  }

  // ---------------------------------------------------------------- failed writes

  /** The writes among es that completed, without an error. */
  function Completed(es: seq<Event>): nat {
    if es == [] then 0 else Completed(es[..|es| - 1]) + if Last(es).WriteDone? then 1 else 0
  }

  /** ... and with one. */
  function FailedWrites(es: seq<Event>): nat {
    if es == [] then 0 else FailedWrites(es[..|es| - 1]) + if Last(es).WriteFailed? then 1 else 0
  }

  /** Replies are queued until a write completes; every write that was started has completed, has failed or is
      outstanding; and what was handed to the socket last is the front of the queue. */
  ghost predicate Balanced(s: Session, es: seq<Event>) {
    && (!s.underflow ==> |Replies(es)| == |s.queue| + Completed(es))
    && |s.sent| == s.outstanding + Completed(es) + FailedWrites(es)
    && (s.queue != [] ==> s.sent != [] && Last(s.sent) == s.queue[0])
  }

  lemma {:induction false} RunBalanced(es: seq<Event>)
    requires After(es).Some?
    ensures Balanced(After(es).value, es)
  {
    if es != [] {
      RunBalanced(es[..|es| - 1]);
    }
  }

  /** A failed write leaves its reply at the front: whatever request comes next sends that frame again. */
  lemma FailedResent(es: seq<Event>, f: Frame, res: CallResult)
    requires After(es).Some? && !After(es).value.underflow && After(es).value.outstanding > 0
    ensures var s := After(es).value;
            var r := After(es + [WriteFailed]);
            && r == Some(s.(outstanding := s.outstanding - 1)) && (Paced(es) ==> s.queue != [])
            && After(es + [WriteFailed] + [Request(f, res)]).Some?
            && (s.queue != [] ==>
                  && s.sent != []
                  && After(es + [WriteFailed] + [Request(f, res)]).value.sent == s.sent + [Last(s.sent)])
  {
    RunBalanced(es);
    if Paced(es) {
      PacedInStep(es);
    }
    var s := After(es).value;
    Snoc(es, s, WriteFailed, s.(outstanding := s.outstanding - 1));
    var m := s.(outstanding := s.outstanding - 1);
    Snoc(es + [WriteFailed], m, Request(f, res), OnRequest(m, f, res));
  }

  // ---------------------------------------------------------------- underflow

  function Dones(n: nat): seq<Event> {
    seq(n, _ => WriteDone)
  }

  /** More completions are to come than the queue has replies for. */
  ghost predicate Strained(s: Session) {
    s.outstanding >= |s.queue| && (|s.queue| >= 2 || s.outstanding > |s.queue|)
  }

  lemma DonesNext(es: seq<Event>, n: nat)
    ensures es + Dones(n + 1) == es + Dones(n) + [WriteDone]
    ensures es + Dones(n + 1) == es + [WriteDone] + Dones(n)
  {
  }

  lemma Strains(s: Session, e: Event)
    requires Strained(s) && Enabled(s, e) && !e.WriteFailed?
    ensures Strained(Next(s, e)) || Next(s, e).underflow
  {
  }

  /** Once a request has overtaken a write the session is strained for good, or has underflowed. */
  lemma {:induction false} UnpacedStrained(es: seq<Event>)
    requires After(es).Some? && !Paced(es) && forall i | 0 <= i < |es| :: !es[i].WriteFailed?
    ensures Strained(After(es).value) || After(es).value.underflow
  {
    var es' := es[..|es| - 1];
    if Paced(es') {
      PacedInStep(es');
    } else {
      UnpacedStrained(es');
      Strains(After(es').value, Last(es));
    }
  }

  /** A strained session underflows when its writes complete. */
  lemma {:induction false} StrainedUnderflows(es: seq<Event>) returns (n: nat)
    requires After(es).Some? && !After(es).value.underflow && Strained(After(es).value)
    ensures After(es + Dones(n)).Some? && After(es + Dones(n)).value.underflow
    decreases |After(es).value.queue| + After(es).value.outstanding
  {
    var s, es' := After(es).value, es + [WriteDone];
    assert es'[..|es'| - 1] == es;
    assert After(es') == Some(Next(s, WriteDone));
    if After(es').value.underflow {
      n := 1;
      DonesNext(es, 0);
      assert es' + Dones(0) == es';
    } else {
      Strains(s, WriteDone);
      var m := StrainedUnderflows(es');
      n := m + 1;
      DonesNext(es, m);
    }
  }

  lemma {:induction false} DonesPaced(es: seq<Event>, n: nat)
    requires Paced(es)
    ensures Paced(es + Dones(n))
  {
    if n == 0 {
      assert es + Dones(0) == es;
    } else {
      DonesPaced(es, n - 1);
      DonesNext(es, n - 1);
      assert (es + Dones(n))[..|es + Dones(n)| - 1] == es + Dones(n - 1);
    }
  }

  /** When no write has failed: letting the outstanding writes complete never pops an empty queue if and only if no
      request has arrived while a write was outstanding. */
  lemma UnderflowExactly(es: seq<Event>)
    requires After(es).Some? && forall i | 0 <= i < |es| :: !es[i].WriteFailed?
    ensures Paced(es) <==> forall n :: After(es + Dones(n)).Some? ==> !After(es + Dones(n)).value.underflow
  {
    if Paced(es) {
      forall n | After(es + Dones(n)).Some? ensures !After(es + Dones(n)).value.underflow {
        DonesPaced(es, n);
        PacedInStep(es + Dones(n));
      }
    } else {
      UnpacedStrained(es);
      assert es + Dones(0) == es;
      if !After(es).value.underflow {
        var n := StrainedUnderflows(es);
      }
    }
  }

  // ---------------------------------------------------------------- end to end

  /** The requests among es, in order. */
  function Requests(es: seq<Event>): seq<Frame> {
    if es == [] then []
    else Requests(es[..|es| - 1]) + if Last(es).Request? then [Last(es).f] else []
  }

  /** What the callback answered to them. */
  function Results(es: seq<Event>): seq<CallResult> {
    if es == [] then []
    else Results(es[..|es| - 1]) + if Last(es).Request? then [Last(es).res] else []
  }

  lemma {:induction false} RepliesAt(es: seq<Event>)
    ensures |Requests(es)| == |Results(es)| == |Replies(es)|
    ensures forall i | 0 <= i < |Replies(es)| :: Replies(es)[i] == ReplyTo(Requests(es)[i], Results(es)[i])
  {
    if es != [] {
      RepliesAt(es[..|es| - 1]);
    }
  }

  lemma SentReplies(fs: seq<Frame>, es: seq<Event>)
    requires After(es).Some? && Paced(es) && Requests(es) <= fs
    ensures var sent := After(es).value.sent;
            && sent == Replies(es) && |sent| == |Results(es)| <= |fs|
            && forall i | 0 <= i < |sent| :: sent[i] == ReplyTo(fs[i], Results(es)[i])
  {
    PacedInStep(es);
    RepliesAt(es);
  }

  lemma ReplyValid(f: Frame, res: CallResult)
    requires ValidFrame(f) && (res.Some? ==> |res.value| + 8 < 0x8000_0000)
    ensures ValidFrame(ReplyTo(f, res))
  {
  }

  /** Frame a goes out under the id of request f: with the callback's result r, or as f byte for byte. */
  ghost predicate Answers(f: Frame, r: CallResult, a: Frame)
    requires ValidFrame(f) && ValidFrame(a)
  {
    && a.reqId == f.reqId
    && (r.Some? && r.value != [] ==> a.meta == META && a.body == r.value)
    && (r.None? || r.value == [] ==> Encode(a) == Encode(f))
  }

  /** Frames fs go over the wire and are read by the server one at a time: at every moment, what the client reads
      from the bytes of the frames sent is one reply per request so far, in order, each under its request's id:
      the callback's result, or the request itself byte for byte. */
  lemma EndToEnd(fs: seq<Frame>, es: seq<Event>)
    requires ValidFrames(fs) && After(es).Some? && Paced(es) && Requests(es) <= Decode(EncodeAll(fs)).0
    requires forall r | r in Results(es) && r.Some? :: |r.value| + 8 < 0x8000_0000
    ensures var sent, rs := After(es).value.sent, Results(es);
            && ValidFrames(sent) && Decode(EncodeAll(sent)) == (Replies(es), [])
            && |sent| == |rs| <= |fs|
            && forall i | 0 <= i < |sent| :: Answers(fs[i], rs[i], sent[i])
  {
    RoundTrip(fs);
    SentReplies(fs, es);
    var sent, rs := After(es).value.sent, Results(es);
    forall i | 0 <= i < |sent| ensures ValidFrame(sent[i]) {
      assert rs[i] in rs;
      ReplyValid(fs[i], rs[i]);
    }
    RoundTrip(sent);
    AnswersEach(fs, rs, sent);
  }

  lemma AnswersEach(fs: seq<Frame>, rs: seq<CallResult>, sent: seq<Frame>)
    requires ValidFrames(fs) && ValidFrames(sent) && |sent| == |rs| <= |fs|
    requires forall i | 0 <= i < |sent| :: sent[i] == ReplyTo(fs[i], rs[i])
    ensures forall i | 0 <= i < |sent| :: Answers(fs[i], rs[i], sent[i])
  {
  }
}
