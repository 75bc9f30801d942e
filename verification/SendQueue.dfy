/**
 The client's send queue (CSQ_ON): write() pushes a message and then posts do_write; do_write and
 handle_write pop and start writes.  A push is two steps, as in SafeQueue: under h_lock_ it counts its node in
 size_ and then links it, and do_write sees size_ in between.  Writers also interleave between push and post.
 */
module SendQueue {
  import opened Prelude

  type Tid = nat
  /** A request message, by its id. */
  type Msg = int

  /** A push that is counted and not linked; its thread holds h_lock_. */
  datatype HalfPush = HalfPush(t: Tid, m: Msg)

  datatype Sender = Sender(
    queue: seq<Msg>,          // the messages linked in write_msg_queue_
    half: Option<HalfPush>,   // the push between ++size_ and the link
    posting: set<Tid>,        // writers between push and post
    posts: nat,               // posted do_write calls that have not run
    outstanding: nat,         // async_write calls that have not completed
    connected: bool,          // clietn_status == CT_CONN_OK
    crashed: bool,            // pop met its assert(false)
    pushed: seq<Msg>,         // history: linked, in order
    sent: seq<Msg>,           // history: handed to async_write, in order
    discarded: nat,           // history: posts that ran while not connected
    idle: nat,                // history: posts that ran connected and found the queue empty
    handled: nat)             // history: messages popped by handle_write

  datatype Label =
    | Count(t: Tid, m: Msg)           // newMsgBuf: write_msg_queue_.push: lock h_lock_, ++size_
    | Link(t: Tid)                    // ... link the node, unlock
    | Post(t: Tid)                    // io_service_.post(do_write)
    | RunPost                         // a posted do_write runs
    | WriteDone(open: bool)           // handle_write without error; open is what is_open() says
    | WriteFailed(open: bool)         // handle_write with an error
    | StatusChanges(connected: bool)  // connect, handle_connect, do_close

  predicate Enabled(s: Sender, l: Label) {
    && !s.crashed
    && match l
       case Count(t, _) => t !in s.posting && s.half.None?
       case Link(t) => s.half.Some? && s.half.value.t == t
       case Post(t) => t in s.posting
       case RunPost => s.posts > 0
       case WriteDone(_) => s.outstanding > 0
       case WriteFailed(_) => s.outstanding > 0
       case StatusChanges(_) => true
  }

  /** write_msg_queue_.size(). */
  function Size(s: Sender): nat {
    |s.queue| + if s.half.Some? then 1 else 0
  }

  /** do_write will pop for a push that is counted and not linked. */
  predicate Aborts(s: Sender) {
    s.connected && s.queue == [] && s.half.Some?
  }

  /** do_write: nothing unless connected with a positive size(); then pop the front and write it, or abort. */
  function DoWrite(s: Sender): Sender {
    if !s.connected || Size(s) == 0 then s
    else if s.queue == [] then s.(crashed := true)
    else s.(queue := s.queue[1..], sent := s.sent + [s.queue[0]], outstanding := s.outstanding + 1)
  }

  /** A step that aborts has no other effect. */
  function Next(s: Sender, l: Label): Sender
    requires Enabled(s, l)
  {
    match l
    case Count(t, m) => s.(half := Some(HalfPush(t, m)))
    case Link(t) =>
      var m := s.half.value.m;
      s.(half := None, queue := s.queue + [m], pushed := s.pushed + [m], posting := s.posting + {t})
    case Post(t) => s.(posting := s.posting - {t}, posts := s.posts + 1)
    case RunPost =>
      var r := s.(posts := s.posts - 1);
      if !s.connected then r.(discarded := r.discarded + 1)
      else if Size(s) == 0 then r.(idle := r.idle + 1)
      else if s.queue == [] then DoWrite(s)
      else DoWrite(r)
    case WriteDone(open) =>
      var r := s.(outstanding := s.outstanding - 1);
      if !open || !s.connected || Size(s) == 0 then r
      else if s.queue == [] then DoWrite(s)
      else DoWrite(r).(handled := r.handled + 1)
    case WriteFailed(open) =>
      var r := s.(outstanding := s.outstanding - 1);
      if open then r.(connected := false) else r
    case StatusChanges(c) => s.(connected := c)
  }

  const FRESH := Sender([], None, {}, 0, 0, false, false, [], [], 0, 0, 0)

  function After(ls: seq<Label>): Option<Sender> {
    if ls == [] then Some(FRESH)
    else
      var s := After(ls[..|ls| - 1]);
      if s.Some? && Enabled(s.value, Last(ls)) then Some(Next(s.value, Last(ls))) else None
  }

  /** The sending half of client_loop, its handlers run one at a time by the io thread; `half` is what another
      thread has left in the queue when a handler runs. */
  class ClientSender {
    var writeMsgQueue: seq<Msg>
    var half: Option<HalfPush>
    var connected: bool
    var outstanding: nat
    var crashed: bool
    ghost var posting: set<Tid>
    ghost var posts: nat
    ghost var pushed: seq<Msg>
    ghost var sent: seq<Msg>
    ghost var discarded: nat
    ghost var idle: nat
    ghost var handled: nat

    ghost function Snapshot(): Sender
      reads this
    {
      Sender(writeMsgQueue, half, posting, posts, outstanding, connected, crashed, pushed, sent, discarded, idle,
        handled)
    }

    constructor ()
      ensures Snapshot() == FRESH && Accounted(Snapshot())
    {
      writeMsgQueue, half, connected, outstanding, crashed := [], None, false, 0, false;
      posting, posts, pushed, sent, discarded, idle, handled := {}, 0, [], [], 0, 0, 0;
    }

    /** do_write() of queue mode.  No message is lost, doubled or overtaken; one write is started for the one
        message taken, exactly when the client is connected and a message is linked; and pop aborts exactly
        when the client is connected and the only push is counted and not linked. */
    method RunDoWrite() returns (started: bool)
      requires !crashed
      modifies this
      ensures started <==> old(connected) && old(writeMsgQueue) != []
      ensures crashed <==> old(connected) && old(writeMsgQueue) == [] && half.Some?
      ensures sent + writeMsgQueue == old(sent + writeMsgQueue)
      ensures |sent| == old(|sent|) + B2I(started) && outstanding == old(outstanding) + B2I(started)
      ensures Snapshot() == DoWrite(old(Snapshot()))
    {
      started := false;
      if !connected {
        return;
      }
      var size := |writeMsgQueue| + if half.Some? then 1 else 0;
      if size > 0 {
        if writeMsgQueue == [] {
          crashed := true;
          return;
        }
        var res := writeMsgQueue[0];
        assert writeMsgQueue == [res] + writeMsgQueue[1..];
        writeMsgQueue := writeMsgQueue[1..];
        outstanding := outstanding + 1;
        sent := sent + [res];
        started := true;
      }
    }

    /** The posted do_write: it sends, finds nothing, is discarded or aborts, and the accounts stay balanced. */
    method RunPosted()
      requires posts > 0 && !crashed && Accounted(Snapshot())
      modifies this
      ensures Accounted(Snapshot()) && pushed == old(pushed) && outstanding <= old(outstanding) + 1
      ensures crashed <==> old(Aborts(Snapshot()))
      ensures posts + B2I(!crashed) == old(posts)
      ensures Snapshot() == Next(old(Snapshot()), RunPost)
    {
      AccountedStep(Snapshot(), RunPost);
      var started := RunDoWrite();
      if !crashed {
        posts := posts - 1;
        if !started {
          if connected {
            idle := idle + 1;
          } else {
            discarded := discarded + 1;
          }
        }
      }
    }

    /** handle_write: the accounts stay balanced, a further write at most replaces the one that ended, an error
        on an open client sends nothing and ends the connection, and success on one can abort in do_write. */
    method HandleWrite(error: bool, open: bool)
      requires outstanding > 0 && !crashed && Accounted(Snapshot())
      modifies this
      ensures Accounted(Snapshot()) && pushed == old(pushed) && posts == old(posts)
      ensures outstanding <= old(outstanding)
      ensures !crashed ==> outstanding + 1 == old(outstanding) + |sent| - old(|sent|)
      ensures crashed <==> !error && open && old(Aborts(Snapshot()))
      ensures error || !open ==> sent == old(sent) && writeMsgQueue == old(writeMsgQueue)
      ensures error && open ==> !connected
      ensures Snapshot() == Next(old(Snapshot()), if error then WriteFailed(open) else WriteDone(open))
    {
      AccountedStep(Snapshot(), if error then WriteFailed(open) else WriteDone(open));
      if open {
        if !error {
          var started := RunDoWrite();
          if started {
            handled := handled + 1;
          }
        } else {
          connected := false;
        }
      }
      if !crashed {
        outstanding := outstanding - 1;
      }
    }
  }

  /** Every push is balanced by a post to come, under way or past: messages waiting and messages popped by
      handle_write are the posts that have popped none.  Messages waiting are covered by do_write calls to come,
      or by posts that were discarded; and what was pushed is what was sent followed by what waits. */
  ghost predicate Accounted(s: Sender) {
    && |s.queue| + s.handled == s.posts + |s.posting| + s.discarded + s.idle
    && |s.queue| <= s.posts + |s.posting| + s.discarded
    && s.pushed == s.sent + s.queue
    && (s.half.Some? ==> s.half.value.t !in s.posting)
    && s.outstanding <= |s.sent|
  }

  lemma AccountedStep(s: Sender, l: Label)
    requires Accounted(s) && Enabled(s, l)
    ensures Accounted(Next(s, l))
  {
    if l.Link? {
      var m := s.half.value.m;
      assert s.pushed + [m] == s.sent + (s.queue + [m]);
      assert |s.posting + {l.t}| == |s.posting| + 1;
    } else if l.Post? {
      assert |s.posting - {l.t}| == |s.posting| - 1;
    } else if l.RunPost? {
      DoWriteMoves(s.(posts := s.posts - 1));
    } else if l.WriteDone? {
      DoWriteMoves(s.(outstanding := s.outstanding - 1));
    }
  }

  /** do_write moves at most the front of the queue to the socket. */
  lemma DoWriteMoves(s: Sender)
    ensures var s' := DoWrite(s);
            && s'.sent + s'.queue == s.sent + s.queue
            && |s'.queue| == |s.queue| - (if s.connected && s.queue != [] then 1 else 0)
            && s'.outstanding - |s'.sent| == s.outstanding - |s.sent|
            && s' == s.(queue := s'.queue, sent := s'.sent, outstanding := s'.outstanding, crashed := s'.crashed)
  {
    if s.connected && s.queue != [] {
      assert s.queue == [s.queue[0]] + s.queue[1..];
    }
  }

  /** In every run messages reach the socket at most once each and in queue order, and none waits
      without a do_write pending, unless a post was discarded while not connected. */
  lemma {:induction false} RunAccounted(ls: seq<Label>)
    requires After(ls).Some?
    ensures Accounted(After(ls).value)
  {
    if ls != [] {
      RunAccounted(ls[..|ls| - 1]);
      AccountedStep(After(ls[..|ls| - 1]).value, Last(ls));
    }
  }

  // ---------------------------------------------------------------- the labels alone

  /** The labels of ls that satisfy p. */
  function Number(ls: seq<Label>, p: Label -> bool): nat {
    if ls == [] then 0 else Number(ls[..|ls| - 1], p) + if p(Last(ls)) then 1 else 0
  }

  const Links := (l: Label) => l.Link?
  const Posts := (l: Label) => l.Post?
  const Runs := (l: Label) => l.RunPost?
  const Completions := (l: Label) => l.WriteDone? || l.WriteFailed?

  /** What the labels of a run say about its counters: one message and one writer about to post per link, one
      do_write to run per post, one write to complete per message sent. */
  ghost predicate Counted(s: Sender, ls: seq<Label>) {
    && |s.pushed| == Number(ls, Links)
    && |s.posting| + Number(ls, Posts) == Number(ls, Links)
    && s.posts + Number(ls, Runs) == Number(ls, Posts)
    && s.outstanding + Number(ls, Completions) == |s.sent|
  }

  lemma CountedStep(s: Sender, ls: seq<Label>, l: Label)
    requires Accounted(s) && Enabled(s, l) && Counted(s, ls) && !Next(s, l).crashed
    ensures Counted(Next(s, l), ls + [l])
  {
    assert (ls + [l])[..|ls + [l]| - 1] == ls;
    if l.Link? {
      assert |s.posting + {l.t}| == |s.posting| + 1;
    } else if l.Post? {
      assert |s.posting - {l.t}| == |s.posting| - 1;
    }
  }

  /** In every run that has not crashed the counters are what its labels say; in particular every write that was
      started and has not completed is outstanding, and no other. */
  lemma {:induction false} RunCounted(ls: seq<Label>)
    requires After(ls).Some? && !After(ls).value.crashed
    ensures Counted(After(ls).value, ls)
  {
    if ls != [] {
      var ls' := ls[..|ls| - 1];
      RunCounted(ls');
      RunAccounted(ls');
      CountedStep(After(ls').value, ls', Last(ls));
      assert ls' + [Last(ls)] == ls;
    }
  }

  /** Whether the client is connected, by the labels alone: what the last change of status said, unless a write
      has failed on an open client since. */
  function Connection(ls: seq<Label>): bool {
    if ls == [] then false
    else
      match Last(ls)
      case StatusChanges(c) => c
      case WriteFailed(open) => !open && Connection(ls[..|ls| - 1])
      case _ => Connection(ls[..|ls| - 1])
  }

  lemma {:induction false} ConnectedExactly(ls: seq<Label>)
    requires After(ls).Some?
    ensures After(ls).value.connected == Connection(ls)
  {
    if ls != [] {
      ConnectedExactly(ls[..|ls| - 1]);
    }
  }

  /** No posted do_write of the run met a client that was not connected. */
  ghost predicate NeverDiscarded(ls: seq<Label>)
    decreases |ls|
  {
    ls != [] ==>
      && NeverDiscarded(ls[..|ls| - 1])
      && (Last(ls).RunPost? && After(ls[..|ls| - 1]).Some? ==> After(ls[..|ls| - 1]).value.connected)
  }

  lemma {:induction false} NoneDiscarded(ls: seq<Label>)
    requires After(ls).Some? && NeverDiscarded(ls)
    ensures After(ls).value.discarded == 0
  {
    if ls != [] {
      NoneDiscarded(ls[..|ls| - 1]);
    }
  }

  /** Once the posts have drained, everything pushed was sent if and only if handle_write popped as many messages
      as there were posts that popped none. */
  lemma DrainedExactly(ls: seq<Label>)
    requires After(ls).Some? && After(ls).value.posts == 0 && After(ls).value.posting == {}
    ensures var s := After(ls).value;
            && (s.sent == s.pushed <==> s.handled == s.discarded + s.idle)
            && (s.queue == [] <==> s.handled == s.discarded + s.idle)
  {
    RunAccounted(ls);
    var s := After(ls).value;
    assert s.sent == s.pushed ==> |s.queue| == 0;
  }

  /** Connected whenever a post runs: once the posts have drained everything pushed was sent. */
  lemma NothingStranded(ls: seq<Label>)
    requires After(ls).Some? && NeverDiscarded(ls)
    requires After(ls).value.posts == 0 && After(ls).value.posting == {}
    ensures After(ls).value.queue == [] && After(ls).value.sent == After(ls).value.pushed
  {
    RunAccounted(ls);
    NoneDiscarded(ls);
  }

  lemma Snoc(ls: seq<Label>, s: Sender, l: Label)
    requires After(ls) == Some(s) && Enabled(s, l)
    ensures After(ls + [l]) == Some(Next(s, l))
  {
    assert (ls + [l])[..|ls + [l]| - 1] == ls;
  }

  /** A whole push. */
  function Push(t: Tid, m: Msg): seq<Label> {
    [Count(t, m)] + [Link(t)]
  }

  lemma Pushes(ls: seq<Label>, s: Sender, t: Tid, m: Msg)
    requires After(ls) == Some(s) && Enabled(s, Count(t, m))
    ensures After(ls + Push(t, m)) ==
            Some(s.(queue := s.queue + [m], pushed := s.pushed + [m], posting := s.posting + {t}))
  {
    Snoc(ls, s, Count(t, m));
    Snoc(ls + [Count(t, m)], Next(s, Count(t, m)), Link(t));
    assert ls + Push(t, m) == ls + [Count(t, m)] + [Link(t)];
  }

  /** Otherwise a message can wait with nothing pending, also after the connection comes up. */
  lemma Stranded(t: Tid, m: Msg)
    ensures var r := After(Push(t, m) + [Post(t)] + [RunPost] + [StatusChanges(true)]);
            && r.Some? && r.value.queue == [m] && r.value.connected
            && r.value.posts == 0 && r.value.posting == {} && r.value.outstanding == 0
  {
    Pushes([], FRESH, t, m);
    assert [] + Push(t, m) == Push(t, m);
    var ls, s := Push(t, m), FRESH.(queue := [m], pushed := [m], posting := {t});
    assert FRESH.queue + [m] == FRESH.pushed + [m] == [m] && FRESH.posting + {t} == {t};
    Snoc(ls, s, Post(t));
    Snoc(ls + [Post(t)], Next(s, Post(t)), RunPost);
    Snoc(ls + [Post(t)] + [RunPost], Next(Next(s, Post(t)), RunPost), StatusChanges(true));
  }

  // ---------------------------------------------------------------- writes outstanding

  /** Another write is started exactly when a posted do_write finds the client connected and a message
      waiting; handle_write only replaces the write that ended. */
  lemma WritesGrow(s: Sender, l: Label)
    requires Enabled(s, l)
    ensures Next(s, l).outstanding > s.outstanding <==> l.RunPost? && s.connected && s.queue != []
  {
  }

  /** A posted do_write starts a write while another is outstanding. */
  ghost predicate Overlaps(s: Sender, l: Label) {
    l.RunPost? && s.connected && s.queue != [] && s.outstanding > 0
  }

  ghost predicate NeverOverlaps(ls: seq<Label>)
    decreases |ls|
  {
    ls != [] ==>
      && NeverOverlaps(ls[..|ls| - 1])
      && (After(ls[..|ls| - 1]).Some? ==> !Overlaps(After(ls[..|ls| - 1]).value, Last(ls)))
  }

  /** At no point of the run are two writes outstanding. */
  ghost predicate AlwaysOne(ls: seq<Label>)
    decreases |ls|
  {
    && (ls != [] ==> AlwaysOne(ls[..|ls| - 1]))
    && (After(ls).Some? ==> After(ls).value.outstanding <= 1)
  }

  /** One write at a time, throughout the run, if and only if no posted do_write finds the client connected, a
      message waiting and a write outstanding. */
  lemma {:induction false} AtMostOneWrite(ls: seq<Label>)
    requires After(ls).Some?
    ensures AlwaysOne(ls) <==> NeverOverlaps(ls)
  {
    if ls != [] {
      AtMostOneWrite(ls[..|ls| - 1]);
      WritesGrow(After(ls[..|ls| - 1]).value, Last(ls));
    }
  }

  function TwoWriters(t: Tid, u: Tid, m: Msg, n: Msg): seq<Label> {
    [StatusChanges(true)] + Push(t, m) + Push(u, n) + [Post(t)] + [Post(u)] + [RunPost] + [RunPost]
  }

  /** Nothing in the client keeps posts from running sooner, so two writes can be outstanding at once. */
  lemma TwoWritesOutstanding(t: Tid, u: Tid, m: Msg, n: Msg)
    requires t != u
    ensures var r := After(TwoWriters(t, u, m, n)); r.Some? && r.value.outstanding == 2 && r.value.sent == [m, n]
  {
    var ls, s := TwoPosted(t, u, m, n);
    Snoc(ls, s, RunPost);
    assert s.queue[1..] == [n] && s.sent + [m] == [m];
    var s1 := s.(queue := [n], sent := [m], posts := 1, outstanding := 1);
    Snoc(ls + [RunPost], s1, RunPost);
  }

  lemma TwoPosted(t: Tid, u: Tid, m: Msg, n: Msg) returns (ls: seq<Label>, s: Sender)
    requires t != u
    ensures ls == [StatusChanges(true)] + Push(t, m) + Push(u, n) + [Post(t)] + [Post(u)]
    ensures After(ls) == Some(s) && s == FRESH.(connected := true, queue := [m, n], pushed := [m, n], posts := 2)
  {
    Snoc([], FRESH, StatusChanges(true));
    ls := [] + [StatusChanges(true)];
    s := FRESH.(connected := true);
    Pushes(ls, s, t, m);
    assert s.queue + [m] == s.pushed + [m] == [m] && s.posting + {t} == {t};
    ls, s := ls + Push(t, m), s.(queue := [m], pushed := [m], posting := {t});
    Pushes(ls, s, u, n);
    assert s.queue + [n] == s.pushed + [n] == [m, n] && s.posting + {u} == {t, u};
    ls, s := ls + Push(u, n), s.(queue := [m, n], pushed := [m, n], posting := {t, u});
    Snoc(ls, s, Post(t));
    assert s.posting - {t} == {u};
    ls, s := ls + [Post(t)], s.(posting := {u}, posts := 1);
    Snoc(ls, s, Post(u));
    assert s.posting - {u} == {};
    ls, s := ls + [Post(u)], s.(posting := {}, posts := 2);
  }

  // ---------------------------------------------------------------- the abort

  /** The step runs do_write. */
  ghost predicate RunsDoWrite(l: Label) {
    l.RunPost? || (l.WriteDone? && l.open)
  }

  /** A step crashes the sender exactly when do_write runs connected, with nothing linked and a push counted. */
  lemma CrashExactly(s: Sender, l: Label)
    requires Enabled(s, l)
    ensures Next(s, l).crashed <==> RunsDoWrite(l) && Aborts(s)
  {
  }

  /** No do_write of the run met a connected client with nothing linked and a push counted. */
  ghost predicate NeverAborts(ls: seq<Label>)
    decreases |ls|
  {
    ls != [] ==>
      && NeverAborts(ls[..|ls| - 1])
      && (After(ls[..|ls| - 1]).Some? && RunsDoWrite(Last(ls)) ==> !Aborts(After(ls[..|ls| - 1]).value))
  }

  lemma {:induction false} RunCrash(ls: seq<Label>)
    requires After(ls).Some?
    ensures After(ls).value.crashed <==> !NeverAborts(ls)
  {
    if ls != [] {
      RunCrash(ls[..|ls| - 1]);
      CrashExactly(After(ls[..|ls| - 1]).value, Last(ls));
    }
  }

  /** The first message is written; a second push is counted when that write completes. */
  function HalfSend(t: Tid, u: Tid, m: Msg, n: Msg): seq<Label> {
    [StatusChanges(true)] + Push(t, m) + [Post(t)] + [RunPost] + [Count(u, n)] + [WriteDone(true)]
  }

  /** A run from the fresh sender that aborts; u may be t. */
  lemma HalfSendCrashes(t: Tid, u: Tid, m: Msg, n: Msg)
    ensures After(HalfSend(t, u, m, n)).Some? && After(HalfSend(t, u, m, n)).value.crashed
  {
    Snoc([], FRESH, StatusChanges(true));
    var ls, s := [] + [StatusChanges(true)], FRESH.(connected := true);
    Pushes(ls, s, t, m);
    assert s.queue + [m] == s.pushed + [m] == [m] && s.posting + {t} == {t};
    ls, s := ls + Push(t, m), s.(queue := [m], pushed := [m], posting := {t});
    Snoc(ls, s, Post(t));
    assert s.posting - {t} == {};
    ls, s := ls + [Post(t)], s.(posting := {}, posts := 1);
    Snoc(ls, s, RunPost);
    assert s.queue[1..] == [] && s.sent + [m] == [m];
    ls, s := ls + [RunPost], s.(posts := 0, queue := [], sent := [m], outstanding := 1);
    Snoc(ls, s, Count(u, n));
    ls, s := ls + [Count(u, n)], s.(half := Some(HalfPush(u, n)));
    Snoc(ls, s, WriteDone(true));
  }

  // ---------------------------------------------------------------- when a push is at risk

  /** No do_write is pending or can become pending without a further push. */
  ghost predicate AtRest(s: Sender) {
    s.posts == 0 && s.posting == {} && s.outstanding == 0
  }

  ghost predicate NoLink(more: seq<Label>) {
    forall i | 0 <= i < |more| :: !more[i].Link?
  }

  /** The labels more, in which no push is linked, crash the sender that ls has led to. */
  ghost predicate CrashesBy(ls: seq<Label>, more: seq<Label>) {
    NoLink(more) && After(ls + more).Some? && After(ls + more).value.crashed
  }

  lemma Then(ls: seq<Label>, l: Label, more: seq<Label>)
    requires After(ls).Some? && Enabled(After(ls).value, l)
    ensures After(ls + [l]) == Some(Next(After(ls).value, l)) && ls + [l] + more == ls + ([l] + more)
    ensures !l.Link? && CrashesBy(ls + [l], more) ==> CrashesBy(ls, [l] + more)
  {
    assert (ls + [l])[..|ls + [l]| - 1] == ls;
  }

  /** Completing writes empty the queue and then meet the half-done push. */
  lemma {:induction false} WritesMeetHalf(ls: seq<Label>) returns (more: seq<Label>)
    requires After(ls).Some?
    requires var s := After(ls).value; !s.crashed && s.half.Some? && s.connected && s.outstanding > 0
    ensures CrashesBy(ls, more)
    decreases |After(ls).value.queue|
  {
    Then(ls, WriteDone(true), []);
    if After(ls).value.queue == [] {
      more := [WriteDone(true)];
    } else {
      var rest := WritesMeetHalf(ls + [WriteDone(true)]);
      Then(ls, WriteDone(true), rest);
      more := [WriteDone(true)] + rest;
    }
  }

  lemma PostMeetsHalf(ls: seq<Label>) returns (more: seq<Label>)
    requires After(ls).Some?
    requires var s := After(ls).value; !s.crashed && s.half.Some? && s.connected && s.posts > 0
    ensures CrashesBy(ls, more)
  {
    Then(ls, RunPost, []);
    if After(ls).value.queue == [] {
      more := [RunPost];
    } else {
      var rest := WritesMeetHalf(ls + [RunPost]);
      Then(ls, RunPost, rest);
      more := [RunPost] + rest;
    }
  }

  lemma ConnectedMeetsHalf(ls: seq<Label>) returns (more: seq<Label>)
    requires After(ls).Some?
    requires var s := After(ls).value; !s.crashed && s.half.Some? && s.connected && !AtRest(s)
    ensures CrashesBy(ls, more)
  {
    var s := After(ls).value;
    if s.outstanding > 0 {
      more := WritesMeetHalf(ls);
    } else if s.posts > 0 {
      more := PostMeetsHalf(ls);
    } else {
      var t :| t in s.posting;
      Then(ls, Post(t), []);
      var rest := PostMeetsHalf(ls + [Post(t)]);
      Then(ls, Post(t), rest);
      more := [Post(t)] + rest;
    }
  }

  lemma BusyMeetsHalf(ls: seq<Label>) returns (more: seq<Label>)
    requires After(ls).Some? && !After(ls).value.crashed && After(ls).value.half.Some? && !AtRest(After(ls).value)
    ensures CrashesBy(ls, more)
  {
    Then(ls, StatusChanges(true), []);
    var rest := ConnectedMeetsHalf(ls + [StatusChanges(true)]);
    Then(ls, StatusChanges(true), rest);
    more := [StatusChanges(true)] + rest;
  }

  /** A half-done push at rest: until it links, only the connection can change. */
  ghost predicate RestingHalf(s: Sender) {
    !s.crashed && s.half.Some? && AtRest(s)
  }

  lemma {:induction false} RestStays(ls: seq<Label>, more: seq<Label>)
    requires After(ls).Some? && RestingHalf(After(ls).value) && NoLink(more) && After(ls + more).Some?
    ensures RestingHalf(After(ls + more).value)
    decreases |more|
  {
    if more == [] {
      assert ls + more == ls;
    } else {
      var more' := more[..|more| - 1];
      assert (ls + more)[..|ls + more| - 1] == ls + more';
      assert Last(ls + more) == Last(more);
      RestStays(ls, more');
    }
  }

  /** While a push is half done, some continuation aborts before it links if and only if a do_write is pending:
      posted, about to be posted, or to come from handle_write. */
  lemma RiskExactly(ls: seq<Label>)
    requires After(ls).Some? && !After(ls).value.crashed && After(ls).value.half.Some?
    ensures (exists more :: CrashesBy(ls, more)) <==> !AtRest(After(ls).value)
  {
    if AtRest(After(ls).value) {
      forall more ensures !CrashesBy(ls, more) {
        if NoLink(more) && After(ls + more).Some? {
          RestStays(ls, more);
        }
      }
    } else {
      var more := BusyMeetsHalf(ls);
    }
  }

  /** Every push begins when no do_write is pending. */
  ghost predicate PushesAtRest(ls: seq<Label>)
    decreases |ls|
  {
    ls != [] ==>
      && PushesAtRest(ls[..|ls| - 1])
      && (Last(ls).Count? && After(ls[..|ls| - 1]).Some? ==> AtRest(After(ls[..|ls| - 1]).value))
  }

  /** Then no run aborts; and by RiskExactly a push that begins otherwise can meet an abort before it links. */
  lemma {:induction false} NeverCrashes(ls: seq<Label>)
    requires After(ls).Some? && PushesAtRest(ls)
    ensures !After(ls).value.crashed && (After(ls).value.half.Some? ==> AtRest(After(ls).value))
  {
    if ls != [] {
      NeverCrashes(ls[..|ls| - 1]);
    }
  }
}
