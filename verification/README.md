# Verification model of the asynchronous RPC client and server

This project models the concurrent and stateful core of a small RPC library built on boost::asio: a
two-lock queue, the life of a request inside `client_loop`, the message buffer and the frame format, the
client pool, the snapshot map iterator and the server session. Each piece is written as the source works.
Objects that one thread drives are Dafny classes with methods and loops; code that several threads run at
the same time is a machine in which every access to shared memory is one step and every interleaving is a
run.

Run `dafny verify dfyconfig.toml` in this directory to check everything.

## What is proved

- **SafeQueue** (`SafeQueueSteps`, `SafeQueueInvariant`, `SafeQueueFifo`, `SafeQueueSize`, `SafeQueueObject`).
  Any number of pushers and poppers, one memory action per step, with an allocator that may hand out freed
  addresses again. Every run is a run of an atomic FIFO queue with the same calls and returns; what was
  linked is what was returned, then the value in flight, then the queue; no step touches a node that is not
  live, although `tail_` does name a freed node for a while; `size_` is known exactly in every state. The
  guard `if(size()) pop()` of a sole consumer is safe exactly when `size()` exceeds the half-done push.
- **Request lifecycle** (`ClientSteps` and the `Client*` modules). Application threads in `write()` and
  `read()`, one io thread in the handlers, timers and a peer that may send a head with any id. Over every run
  no response is erased unread or unanswered, a `read()` leaves its loop exactly when the status is terminal,
  every status is the one the last event for its entry calls for, and a registered request is terminal or has
  its timeout pending. A reply read in time keeps CT_READ_OK until another head for its id comes; a CT_READ_OK
  can be overwritten exactly while a timeout, a body, a reply or the writer can reach its entry. When an
  id is read once, after its `write()` returned, every id walks through five phases, map pointers carry their
  own key, and the receive side crashes in exactly two situations: a reply head is handled while the writer of
  its id stands between the null insertion of `operator[]` and the assignment, or the sweep pops an empty
  delete list because `size()` counted a read that has not linked its node. Two conditions on the order of
  events exclude both, and each is needed. From every state reached without a crash a polling `read()` can be
  released.
- **Send queue** (`SendQueue`). The third crash of the client is on the send side, and the only one there:
  `do_write` runs connected, nothing is linked, and a push is counted. While a push is half done some
  continuation aborts if and only if a `do_write` is pending. Pushes, posts and pops stay in balance in every
  run, which gives the exact conditions for a drained queue and for one write at a time.
- **Erase sweep** (`EraseSweep`, `ClientFlags`, `ClientSweep`, `ClientTurns`, `ClientDrain`). The loop bounded
  by the list it shrinks visits at least half of it, lowers a potential by exactly its visits, and marks and
  erases the same id only when that id is queued twice. The machine's sweep, left alone, is this sweep. With
  other threads at work, an id is erased by the sweep that marked it exactly when the visit number is not
  below the list's length at the start, and with no read at work the delete list drains whatever writers,
  replies and timers do.
- **Buffer and frames** (`RpcBuffer`, `Frames`). Every sequence of buffer calls keeps capacity, head, meta and
  body; the built messages are encodings of frames; the read loop inverts encoding, is insensitive to how
  the stream is cut, and loses no byte of any stream.
- **Server session, pool, map** (`LinkSessions`, `LinkHash`, `PoolSelect`, `PoolGrowth`, `SafeMaps`), as
  listed in the table.

## Where the code does not do what is said of it

- readme.txt says that queue mode has one write at a time; the code can have several outstanding
  (`SendQueue.TwoWritesOutstanding`). `SendQueue.AtMostOneWrite` gives the exact condition.
- A post that runs while the client is not connected leaves its message behind, also after the connection
  is up (`SendQueue.Stranded`); `SendQueue.DrainedExactly` says when everything pushed has been sent.
- `size() > 0` does not imply that `pop` succeeds (`SafeQueueSize.HalfPushAborts`); the sweep relies on it and
  aborts when it starts on an empty list beside a read inside `push` (`ClientCrash.HalfPopCrashes`), and so does
  `do_write` beside a writer inside `push` (`SendQueue.HalfSendCrashes`).
- The comment above `erase_msg_timer` promises that an entry is marked in one round and deleted in the next;
  a read that queues during the sweep lets one sweep do both (`ClientTurns.ErasesItsOwnMark`).
- A response that was read successfully can turn into a timeout or an error before the caller looks
  (`ClientReadOk.ReadOkOverwritten`); `ClientReadOk.LosableExactly` gives the exact condition.
- `reply` starts a write of the front of the queue even when one is outstanding: the first reply goes out
  twice and a later completion pops an empty deque (`LinkSessions.PipelinedUnderflow`), exactly when a request
  arrives while a write is outstanding (`LinkSessions.UnderflowExactly`).
- Two endpoints can share a link key (`LinkHash.KeyExact`, `LinkHash.NeighboursCollide`), and then the second
  never gets a link of its own (`PoolGrowth.NeverLinkedAgain`).
- `client_max_num` is not a limit: the guard `cur > max` lets one thread alone go one above it
  (`PoolGrowth.AloneReached`), and T threads that pass the unlocked check together go T above it
  (`PoolGrowth.LimitOvershot`). `PoolGrowth.LimitExactly` says when it is kept.
- `get_client_index` returns a closed client, not -1, when all clients are closed (`PoolSelect.FindsOpen`).

## Model

| member | source | states |
|---|---|---|
| SafeQueueInvariant.StepInv | include/safequeue.hpp:86-139 | every memory action of any thread keeps the linked chain, the private nodes of pushers, head_, tail_ and size_, and leaks no node |
| SafeQueueFifo.StepRefines | include/safequeue.hpp:86-139 | forward simulation: each memory action is one event of an atomic FIFO queue, or none |
| SafeQueueFifo.RunRefines | include/safequeue.hpp:86-114 | linearizability: the events of any interleaving are a run of the atomic queue ending in the abstraction of the machine |
| SafeQueueFifo.RunSafe | include/safequeue.hpp:98-139 | no step of any run reads, writes or deletes a node that is not live; pop asserts only on an empty queue |
| SafeQueueFifo.RunConserves | include/safequeue.hpp:86-114 | values linked, in order, equal values returned, in order, then the one in flight, then the queue |
| SafeQueueSize.SizeExact | include/safequeue.hpp:92-119 | size_ is the queue length plus a counted, unlinked push minus an uncounted, unlinked pop; never negative, off by at most one, exact at rest |
| SafeQueueSize.SizeGuard | include/safequeue.hpp:117-132 | with no popper at work the queue is non-empty if and only if size_ exceeds the half-done push |
| SafeQueueSize.SoleConsumer | include/client_async_loop.h:283-287 | a sole consumer that read size() above the half-done push never meets the empty assert, however pushers interleave |
| SafeQueueSize.HalfPushAborts | include/safequeue.hpp:92-110 | the converse: a positive size() not above the half-done push leads that pop into the assert |
| SafeQueueSize.HalfPushReachable | include/safequeue.hpp:86-94 | such states are reachable from every fresh queue |
| SafeQueueSize.TailRestored | include/safequeue.hpp:92-96 | tail_ is the last linked, live, null-terminated node except between link and swing of one pusher, hence whenever a pusher may enter |
| SafeQueueSize.TailDangles | include/safequeue.hpp:94-112 | a reachable state in which a popper has freed the node tail_ names |
| SafeQueueSize.RestShape | include/safequeue.hpp:66-84 | when all threads are idle the live nodes are exactly the counted chain from head_ to tail_ |
| SafeQueueObject.SafeQueue.constructor | include/safequeue.hpp:66-73 | an empty queue with one dummy node |
| SafeQueueObject.SafeQueue.Push | include/safequeue.hpp:86-96 | appends the value; the only new live node is the pushed one |
| SafeQueueObject.SafeQueue.Pop | include/safequeue.hpp:98-114 | returns and removes the first value; exactly the old dummy is freed |
| SafeQueueObject.SafeQueue.Destroy | include/safequeue.hpp:75-84 | frees every remaining node exactly once, in chain order, and nothing stays live |
| ClientErase.CoherentStep | include/client_async_loop.h:117-149 | every step keeps each entry pointer, in the map or held by a thread, naming an entry with its own id |
| ClientErase.HistoryStep | include/client_async_loop.h:383-401 | every step keeps the evidence behind flags, delete list, sweep position and past erasures |
| ClientAnswers.PollExactly | include/client_async_loop.h:129-145 | a thread that polls a live entry leaves the loop, having seen it, if and only if the status is terminal; otherwise nothing changes |
| ClientAnswers.FindExactly | include/client_async_loop.h:119-126 | a read of an id that is not in the map returns at once; of one that is, it polls the entry stored under it |
| ClientAnswers.RunAnswered | include/client_async_loop.h:129-141 | over every run, every reader past its loop and every flagged entry has a terminal status, and what a sweep is about to mark or erase is stored and flagged |
| ClientAnswers.NoUnreadErase | include/client_async_loop.h:383-401 | over every run, an id leaves the receive map only when its entry has a terminal status and after a read saw one, then queued it, and then a sweep marked it |
| ClientTimers.StepEntry | include/client_msg.hpp:118-165 | no step leaves the terminal statuses, disarms an entry or loses its timeout |
| ClientTimers.TerminalOrPending | include/client_async_loop.h:340-365 | once newMsgBuf is done, an entry is terminal, its timeout is pending, or the io thread is writing its status |
| ClientTimers.TerminalAbsorbing | include/client_msg.hpp:215-222 | a terminal status is never left along any continuation of any run |
| ClientStatus.StatusExactly | include/client_async_loop.h:254-274 | over every run, unless a set_status of it is under way, an entry's status is CT_TIMEOUT, CT_READ_OK, CT_ERROR or none exactly as its last event was its timeout, a body read without error, one with an error, or there was none |
| ClientStatus.BodySets | include/client_msg.hpp:163-219 | a body read sets CT_READ_OK without and CT_ERROR with an error, cancels a running timeout and changes no other entry |
| ClientStatus.AnswerStays | include/client_msg.hpp:118-219 | a reply whose body is read before its timeout expires gives CT_READ_OK, which stays along every continuation without a further head for its id |
| ClientStatus.HandledOnce | include/client_msg.hpp:157-165 | in every run the timeout handler of an entry runs at most once, and its timer is spent exactly if it did |
| ClientStatus.BodyFollowsHead | include/client_async_loop.h:212-252 | over every run the body being read goes to an entry with the id of the last head |
| ClientStatus.HeadUnknown | include/client_async_loop.h:226-231 | a head for an id that is not in the map is read into a fresh entry of that id which the map does not name |
| ClientReadOk.ReadOkOverwritten | include/client_msg.hpp:118-123 | a run from the start state reads a reply after its timeout expired, and the queued timeout handler overwrites CT_READ_OK |
| ClientReadOk.LostExactly | include/client_msg.hpp:215-219 | a step takes CT_READ_OK away if and only if it is the write of another status at the end of set_status |
| ClientReadOk.SettledForEver | include/client_msg.hpp:118-219 | once no timeout, body, map entry or writer can reach the entry, CT_READ_OK stays along every continuation |
| ClientReadOk.LosableExactly | include/client_async_loop.h:212-276 | between two handlers of any run some continuation takes CT_READ_OK away if and only if the timeout is pending, a body is being read into the entry, a reply can find it, or its write() is not over |
| ClientReadOk.LosableInHandler | include/client_async_loop.h:212-276 | the same inside every handler other than the sweep, within the contract, when nothing half done holds the handler up |
| ClientMap.OwnedStep | include/client_async_loop.h:104-149 | within the contract every step keeps the phase of every id consistent with map, threads, delete list and sweep |
| ClientCrash.MapPointers | include/client_async_loop.h:340-365 | a map pointer carries its own key, or is null exactly while its writer stands inside the insertion |
| ClientCrash.NoDefaultInsert | include/safemap.hpp:244-259 | within the contract no read makes operator[] insert a default |
| ClientCrash.CrashExactly | include/client_async_loop.h:212-252 | on the receive side (read, registration, reply handlers, timers, sweep) a step crashes if and only if handle_read_header dereferences an id whose writer has inserted null and not assigned, or the sweep pops an empty list on the strength of a push that is counted and not linked |
| ClientCrash.RunCrash | include/client_async_loop.h:383-401 | the same for every reachable state of every run within the contract |
| ClientCrash.NeverCrashes | include/client_async_loop.h:212-252 | reads once per returned id, replies only after registration, no sweep's first test on an empty list beside a half-queued read: the receive side never crashes |
| ClientCrash.EarlyReplyCrashes | include/client_async_loop.h:340-365 | a run from the start state, within the contract and without any sweep, in which a reply overtakes the assignment of its entry and crashes the client |
| ClientCrash.HalfPopCrashes | include/client_async_loop.h:386-387 | a run from the start state, within the contract and with replies after registration, in which a sweep meets a read between ++size_ and the link and aborts |
| ClientRelease.Drain | include/client_async_loop.h:383-401 | with no push half done and no insertion under the handled head, the io thread left alone returns from any handler without crashing |
| ClientRelease.Release | include/client_async_loop.h:117-149 | from every state a run within the contract reaches without a crash: after at most one step of a half-done push and at most one of a half-done insertion under the handled head, steps of the io thread, the entry's timer and the reader alone bring a polling read out of its loop |
| EraseSweep.ClientLoop.EraseMsgTimer | include/client_async_loop.h:383-401 | the loop leaves the list and flags that SweepCount visits produce |
| EraseSweep.VisitsHalf | include/client_async_loop.h:386-401 | a sweep visits at least half of the list, all of it when nothing is removed |
| EraseSweep.VisitsOf | include/client_async_loop.h:386-401 | what n visits do to any id: marked, erased, flag kept or changed, each if and only if |
| EraseSweep.MarkedAndErased | include/client_async_loop.h:386-401 | one sweep marks and erases an id if and only if it was flagged STATE and is queued twice among the visited ids |
| EraseSweep.PhasesApart | include/client_async_loop.h:382-401 | with distinct ids no entry is marked and erased in the same sweep |
| ClientTurns.MarkedInThisSweep | include/client_async_loop.h:382-399 | over every run within the contract, the id that visit i erases was marked by the same sweep if and only if the list held at most i ids when the sweep began, and then a read was queueing meanwhile |
| ClientTurns.ErasesItsOwnMark | include/client_async_loop.h:386-399 | a run from the start state in which a sweep erases the id it marked, because a read of another id queued meanwhile |
| EraseSweep.SweepPotential | include/client_async_loop.h:386-401 | with distinct ids the potential drops by exactly the number of visits |
| EraseSweep.SweepShrinks | include/client_async_loop.h:386-401 | for any flagged list it drops by at least the visits, hence to at most three quarters |
| EraseSweep.SweepShape | include/client_async_loop.h:386-401 | ids stay distinct and flagged, and an id that leaves the list has left the map |
| EraseSweep.SweepsDrain | include/client_async_loop.h:382-401 | with no new reads any flagged list, ids queued twice included, empties and its entries are erased in a bounded number of sweeps |
| ClientSweep.MachineSweep | include/client_async_loop.h:383-401 | the step-by-step sweep of the machine, left alone with no read half queued, is the sweep of EraseSweep |
| ClientSweep.RunReady | include/client_async_loop.h:129-138 | runs within the contract keep queued ids distinct, present and flagged |
| ClientFlags.Leaves | include/client_async_loop.h:117-149 | within the contract no step but the sweep's own mark or erase changes the map entry, phase or flag of an id that waits to be erased |
| ClientFlags.RunSound | include/client_async_loop.h:129-138 | every run within the contract keeps readers' and queued ids' flags set, and the flag of the id in the sweep's hand known |
| ClientDrain.IoBalance | include/client_async_loop.h:386-401 | with no read at work every io step but the loop test lowers the potential by exactly the progress of the sweep |
| ClientDrain.ReadEntriesDrain | include/client_async_loop.h:382-406 | from any such run with no read in progress, along every continuation that begins none: once enough sweeps have begun and ended the delete list is empty and every entry that was on it has left the map |
| SendQueue.ClientSender.RunDoWrite | include/client_async_loop.h:278-299 | no message is lost, doubled or overtaken; one message is taken and one write started if and only if connected with a message linked; pop aborts if and only if connected with nothing linked and a push counted |
| SendQueue.ClientSender.RunPosted | include/client_async_loop.h:104-115 | a posted do_write keeps the accounts balanced, whether it sends, finds nothing, is discarded or aborts, and aborts exactly in that case |
| SendQueue.ClientSender.HandleWrite | include/client_async_loop.h:324-338 | keeps the accounts balanced and takes exactly the completed write off the outstanding ones, at most replacing it; an error on an open client sends nothing and ends the connection; success on one aborts exactly when its do_write does |
| SendQueue.RunAccounted | include/client_async_loop.h:104-115 | waiting messages and messages popped by handle_write equal the pending posts, writers about to post, discarded posts and posts that found nothing; pushed equals sent then waiting |
| SendQueue.RunCounted | include/client_async_loop.h:278-338 | the counters are what the labels say: outstanding writes plus completed and failed ones are the messages sent, posts to run plus posts run are the posts made, messages pushed are the links |
| SendQueue.ConnectedExactly | include/client_async_loop.h:324-338 | the client is connected exactly as the last change of status said, unless a write failed on an open client since |
| SendQueue.DrainedExactly | include/client_async_loop.h:278-338 | once posts have drained, everything pushed was sent, in order, if and only if handle_write popped as many messages as there were posts that popped none |
| SendQueue.NothingStranded | include/client_async_loop.h:278-299 | in particular when the client was connected whenever a post ran |
| SendQueue.Stranded | include/client_async_loop.h:278-282 | otherwise a message waits with nothing pending |
| SendQueue.WritesGrow | include/client_async_loop.h:278-338 | another write is started if and only if a post runs connected with a message waiting |
| SendQueue.AtMostOneWrite | include/client_async_loop.h:278-338 | at most one write is outstanding throughout a run if and only if no posted do_write finds the client connected, a message waiting and a write outstanding |
| SendQueue.TwoWritesOutstanding | include/client_async_loop.h:104-111 | two writes can be outstanding at once |
| SendQueue.CrashExactly | include/client_async_loop.h:278-299 | a step of the send side crashes if and only if it runs do_write connected, with nothing linked and a push counted |
| SendQueue.RunCrash | include/client_async_loop.h:278-338 | a run of the send side crashes if and only if some do_write of it met that state |
| SendQueue.HalfSendCrashes | include/client_async_loop.h:283-287 | a run from the fresh sender in which a write completes while the next push is counted and not linked, and pop aborts |
| SendQueue.RiskExactly | include/client_async_loop.h:104-115 | while a push is half done some continuation aborts before it links if and only if a do_write is posted, about to be posted, or to come from handle_write |
| SendQueue.NeverCrashes | include/client_async_loop.h:278-338 | when every push begins with no do_write pending no run crashes |
| Frames.IntRoundTrip | include/client_msg.hpp:38-54 | a 32-bit int survives its little-endian bytes |
| Frames.HeadWire | include/client_msg.hpp:38-64 | the wire head, byte by byte: req_id, body_size, meta_size in this order, little-endian |
| Frames.WireHead | include/client_msg.hpp:38-64 | the head that any twelve bytes are read as, byte by byte |
| Frames.FrameWire | include/client_msg.hpp:134-138 | the wire frame: twelve bytes of head with the lengths, then the meta, then the body |
| Frames.HeadRoundTrip | include/client_msg.hpp:38-64 | a head survives its 12 bytes |
| Frames.HeadBytes | include/client_msg.hpp:38-64 | 12 bytes survive being read as a head |
| Frames.ReadLoop | include/client_async_loop.h:198-266 | alternating head and message reads delivers Decode of the stream and keeps the bytes of the frame it waits for |
| Frames.RoundTrip | include/server_async_loop.h:70-116 | reading the concatenated encodings of any frames recovers exactly those frames |
| Frames.Lossless | include/server_async_loop.h:70-116 | on every byte stream the delivered frames, encoded, followed by the unread bytes are the stream |
| Frames.DecodeAppend | include/client_async_loop.h:198-252 | however a stream is cut, decoding the parts in turn is decoding the whole |
| Frames.Truncated | include/client_async_loop.h:198-266 | a stream cut inside a frame yields exactly the complete frames before it |
| RpcBuffer.RpcStruct.NewData | include/client_msg.hpp:83-116 | the capacity grows to the larger of old and needed, the head is written, every byte behind it survives |
| RpcBuffer.RpcStruct.SetHead | include/client_msg.hpp:167-170 | the new head is in the buffer, the rest survives |
| RpcBuffer.RpcStruct.SetBody | include/client_msg.hpp:176-181 | the body is the given bytes, the meta survives |
| RpcBuffer.RpcStruct.SetMeta | include/client_msg.hpp:201-204 | the meta is the given bytes, the body survives |
| RpcBuffer.RpcStruct.Receive | include/client_msg.hpp:206-213 | the buffer holds the head and the received bytes, in bounds |
| RpcBuffer.NewMessage | include/client_async_loop.h:340-351 | newMsgBuf builds the encoding of the request frame |
| RpcBuffer.ReplyMessage | include/server_async_loop.h:135-147 | reply builds the encoding of the answer under the request's id |
| RpcBuffer.ReceiveMessage | include/server_async_loop.h:83-112 | a received frame is held byte for byte as it was sent |
| RpcBuffer.ReceiveInto | include/client_async_loop.h:218-252 | a registered entry takes any received head and grows for the body; the frame fits if and only if its meta is within the room of the entry's body offset, and then the buffer holds it, with body() exact for a meta of the expected length and shifted for a longer one |
| LinkSessions.LinkSession.Reply | include/server_async_loop.h:132-167 | one more reply is owed and one more write started: of that reply, keeping the session in step, when nothing is being written; otherwise the front of the queue goes out again |
| LinkSessions.LinkSession.HandleWrite | include/server_async_loop.h:169-185 | without error a session in step stays in step with nothing left to write, and an empty queue is popped exactly when it was empty before; with an error nothing is popped or started |
| LinkSessions.RunBalanced | include/server_async_loop.h:132-185 | in every run, failed writes included: replies owed are those queued plus the completed writes, frames sent are the writes outstanding, completed and failed, and the frame sent last is the front of the queue |
| LinkSessions.FailedResent | include/server_async_loop.h:159-184 | a failed write changes nothing but its own completion, and the next request sends the same frame again |
| LinkSessions.PacedInStep | include/server_async_loop.h:104-185 | one request at a time: the frames sent are the replies to the requests, one each, in order; queue length equal to outstanding writes and at most 1, no pop of an empty queue |
| LinkSessions.FaithfulExactlyWhenPaced | include/server_async_loop.h:132-185 | with distinct replies, the frames sent are the owed replies in order if and only if no request arrived while a write was outstanding |
| LinkSessions.UnderflowExactly | include/server_async_loop.h:159-185 | with no failed write, letting the outstanding writes complete never pops an empty queue if and only if no request arrived while a write was outstanding |
| LinkSessions.PipelinedUnderflow | include/server_async_loop.h:159-180 | two requests back to back send the first reply twice and pop an empty queue |
| LinkSessions.EndToEnd | include/server_async_loop.h:70-185 | requests framed and read one at a time: at every moment the client reads, from the bytes of the frames the session sent, one reply per request so far, in order and under its id, the callback's result or the request byte for byte |
| LinkHash.BkdrHash | include/client_async_loop_pool.h:161-168 | the loop computes the base-131 polynomial in wrapping 32-bit arithmetic |
| LinkHash.HashStep | include/client_async_loop_pool.h:164-166 | in plain numbers: the hash of a string and one more character is 131 times the hash plus the character, modulo 2^32, as a signed int |
| LinkHash.PolyConcat | include/client_async_loop_pool.h:161-168 | the concatenation law of that polynomial |
| LinkHash.OneCharNoCollision | include/client_async_loop_pool.h:161-168 | equal-length strings that differ in one character never share a hash |
| LinkHash.PortsApart | include/client_async_loop_pool.h:187-187 | for one ip distinct ports have distinct link keys |
| LinkHash.KeyExact | include/client_async_loop_pool.h:187-187 | two endpoints share a link key if and only if their polynomials plus ports agree modulo 2^32 |
| LinkHash.NeighboursCollide | include/client_async_loop_pool.h:187-190 | ips that differ in the last character share a key if and only if the ports make up for it |
| PoolSelect.ClientPool.GetClientIndex | include/client_async_loop_pool.h:196-211 | stops at the first open client after select_index, advancing select_index by the number of visits |
| PoolSelect.VisitsOnce | include/client_async_loop_pool.h:200-203 | within one call no client is visited twice |
| PoolSelect.FindsOpen | include/client_async_loop_pool.h:196-211 | an open client is returned whenever one exists, the first in cyclic order; -1 if and only if the pool is empty |
| PoolSelect.TimesExact | include/client_async_loop_pool.h:200-203 | the exact number of times each client is picked over k calls with all open |
| PoolSelect.FairShare | include/client_async_loop_pool.h:200-203 | that number is floor(k/n) or ceil(k/n) |
| PoolGrowth.InStepNext | include/client_async_loop_pool.h:178-194 | every step keeps list, key set and counter in step and only appends to the list |
| PoolGrowth.RunBounded | include/client_async_loop_pool.h:170-194 | with T threads, links made and in the making never exceed client_max_num + T |
| PoolGrowth.RestExact | include/client_async_loop_pool.h:185-193 | at rest the counter is the list length and the key-set size, and keys are distinct |
| PoolGrowth.HandleStable | include/client_async_loop_pool.h:123-149 | a returned handle index names the same client for ever |
| PoolGrowth.NeverLinkedAgain | include/client_async_loop_pool.h:185-193 | once a key is listed no run appends it again, and a thread that comes with it leaves the pool as it is |
| PoolGrowth.LimitExactly | include/client_async_loop_pool.h:170-194 | the limit is exceeded by at most d throughout a run if and only if every check that passes, and every accepted new limit, finds the links made and in the making within it plus d |
| PoolGrowth.AloneBounded | include/client_async_loop_pool.h:178-194 | when every check that passes has no other thread past it, links made and in the making stay within the limit plus one |
| PoolGrowth.AloneReached | include/client_async_loop_pool.h:178-194 | from every fresh pool one thread alone reaches one above any limit |
| PoolGrowth.LimitOvershot | include/client_async_loop_pool.h:178-194 | from every fresh pool T threads reach exactly T above any limit, so RunBounded is tight |
| PoolGrowth.NegativeLimit | include/client_async_loop_pool.h:170-173 | a negative limit is accepted and stops growth |
| SafeMaps.Iter.Increment | include/safemap.hpp:57-74 | moves to the least greater key of the snapshot, or to the end |
| SafeMaps.Iter.PostIncrement | include/safemap.hpp:91-105 | the same step, returning a copy of the old position |
| SafeMaps.Iter.Copy | include/safemap.hpp:127-140 | a copy has the same position, snapshot and saved predecessor |
| SafeMaps.SafeMap.Begin | include/safemap.hpp:382-400 | an iterator on the least key of a snapshot of the map, or at the end |
| SafeMaps.SafeMap.Find | include/safemap.hpp:336-354 | an iterator on the key if present, otherwise the end |
| SafeMaps.SafeMap.Insert | include/safemap.hpp:364-374 | inserts an absent key and keeps a present one |
| SafeMaps.SafeMap.Update | include/safemap.hpp:294-309 | replaces the value of a present key and says whether it was |
| SafeMaps.SafeMap.Erase | include/safemap.hpp:319-327 | removes the key |
| SafeMaps.SafeMap.Index | include/safemap.hpp:244-259 | inserts the default for an absent key and returns the entry |
| SafeMaps.TraverseAll | include/safemap.hpp:57-105 | begin to end visits every key of the snapshot once, ascending, with its snapshot value, whatever happens to the map meanwhile |
| SafeMaps.TraverseFrom | include/safemap.hpp:336-354 | from find(key) the traversal visits exactly the keys from key on, nothing when it is absent |

## Left out

- Sockets, connect, close and reconnect, `is_open` reconnecting, io threads and real time: reads, writes, posts and timers are nondeterministic steps, and framing is stated within one connection.
- Both pool `destroy` forms, `pool_client_` shutdown and `client_loop::destroy`: they rest on joins and sleeping.
- Lifetime of buffers handed to asynchronous writes and of `this` in handlers.
- `SafeMap` copy and assignment locking, references used after unlock, weak memory ordering: map operations are atomic, queue steps sequentially consistent.
- The concurrent parts (queue steps, request lifecycle, pool growth) are step functions on values, because a Dafny method runs without interference; the same code driven by one thread is a class (`SafeQueue`, `ClientLoop`, `ClientSender`, `LinkSession`).
- Inside the request lifecycle a read's push on the delete list is two steps under `h_lock_`, counting and linking; the sweep's pop and its own push are one step each. The sweep is the only thread that pops and reads `size()`, so by `SafeQueueSize.SizeExact` it sees the linked ids plus the half-done push.
- In `SendQueue` a push is split the same way; `do_write`'s test of `size()` and its pop are one step, because a link between them only lets the pop succeed. Send side and receive side are two machines; they share no queue, map or entry.
- Ids and `select_index` do not wrap; buffer sizes stay below 2^31.
- RpcBuffer.RpcStruct.FromHead: takes a head with a non-negative meta length, because the source computes the body offset from it unchecked.
- RpcBuffer.RpcStruct.SetBody: takes a head whose meta length is the one the buffer was made for, because the source fixes the body offset at construction.
- RpcBuffer.RpcStruct.SetMeta: takes such a head too; a longer meta would run into the body.
- RpcBuffer.RpcStruct.Receive: takes such a head too, with lengths that Readable admits; the source checks neither.
- RpcBuffer.ReceiveInto: a frame that does not fit is reported and not copied; the source then writes past the buffer, which is undefined.
- Frames.Decode: a head with a negative or overflowing length stops the read loop; what the source then reads is undefined.
- CSQ_OFF mode, error message tables, logging, `CallStruct` allocation, mains, tests and build files: easy or output only.
