# Verified model of rpchat

rpchat is a multithreaded chat server: a thread pool over a linked-list queue, one state machine
per connection driven by tasks that requeue themselves, and a small length-prefixed protocol
(chat_server.md:5-23). This project models those four parts in Dafny and proves what the server
keeps over every run.

## The parts

**Thread pool** (`Pool`, `PoolInvariant`, `PoolTheorems`, `PoolWakeup`, `PoolRest`, `PoolReturn`,
`PoolTasks`, with `Sums` for counting threads). The workers, the main thread and the locking skeleton of a task form an
interleaving transition system: one step is one mutex operation, one read of a shared variable, or
one update with the release of its mutex. A schedule says which thread moves and what it chooses,
so a statement about every schedule covers every interleaving, for any number of workers. The four
tables `MainMove`, `WorkerMove`, `TaskMove` and `EnqMove` are the programs; the invariants are
proved once per table. `PoolTasks` states
the whole new state after each step of a task, of a list walk and of the event loop (`BeginEffect`,
`TryEffect`, `BodyEffect`, `WalkEffect`, `ReturnEffect`, ...), and follows requeued tasks through a run.

**Connections and tasks** (`Chat`, `ChatView`, `ChatInvariant`, `BroadcastLoop`, `ChatTheorems`,
`ChatRequests`, `ChatSteps`, `ChatClock`, `ChatOrigin`, `ChatNames`, `ChatWitnesses`). `Chat` gives the meaning of one task body, one
dispatched event, one accept and one audit as functions on the server's state; any queued task may
run next, and a task may find its connection's mutex taken. The invariant is a predicate on what one
connection sees (`ChatView.View`: its fields, the counts of its queued tasks, the running account of
its socket), kept by every step. History fields (`sock`, `runs`, `made`, `born`, `nextId` and the serial
number of a DELIVER) record what happened and are read by no decision. `ChatSteps` states the whole
new state after every kind of step (`EveryCase`: no kind of task is missing); what a broadcast adds to
other connections is stated in `ChatRequests`.

**The server on its own data structures** (`ChatServer`). `Hub` updates in place what the source
updates: the connection list and the task queue are `LinkedQueue.Queue` objects on heap nodes, the list
walks follow the nodes, and an outbound task holds the bytes that `Codec.SetStatus` or
`Codec.SetDeliver` built. `State()` reads the server of `Chat` out of that, decoding each buffer as its
recipient's client would; the methods are proved to take `State()` where `Chat` says, so everything
proved about runs holds of the data structures.

**Linked list** (`LinkedQueue`). Heap nodes, refining a sequence.

**Strings and wire format** (`Strings`, `Protocol`, `Codec`, `Client`). The sanitizer's loop, the
frame builders with their running index, the server's field reads, and the client's packing,
unpacking and receiving loop.

## Findings

Where the code does not do what one would expect of it, the model follows the code, a run that
shows it is given, and the condition under which the code does meet the expectation is proved.

- `rpchat_broadcast_msg` skips a closing or failed connection with `continue`, which does not advance
  the node. The call returns if and only if no other listed connection is ERR or CLOSING
  (`LoopEnds`, `BroadcastReturns`); otherwise the worker keeps the list's mutex for ever
  (`HungForEver`), which freezes the list and every delivery. A run in which a SEND of a given text hangs exists for every text of which
  something is left (`BroadcastCanHang`). The server's state has fields `hung` and `held` for this.
- `rplib_tpool_wait` can be left asleep with nothing to wait for, because line 156 of rplib_tpool.c
  lowers the counter without signalling (`WaitCanStall`). A waiter that looks at a pool with nothing
  to do returns if and only if no worker is counted as busy at that moment (`WaitReturnsExactly`); one
  that is asleep is woken by the last task to finish if and only if no other worker is counted as
  busy then (`LastFinishDecides`).
- A graceful `rplib_tpool_destroy` can join a sleeping worker for ever, because lines 73-74 broadcast
  without the queue's mutex (`DestroyCanStall`). It returns, in every run without a spurious wakeup
  and within a bounded number of steps, if and only if the broadcast finds no worker between its look
  at the flag and its sleep (`DestroyReturnsExactly`).
- `pending_jobs` is raised after the enqueue, outside the mutex, so it can read 0 while a task is
  queued (`CounterLagsQueue`). It is exact if and only if as many tasks are dequeued and not yet
  subtracted as are enqueued and not yet added (`JobCounterConserved`).
  The lifetime results are therefore stated at the grain of whole tasks.
- `rpchat_conn_queue_find_by_username` never advances its node and compares no characters, so
  chat_server.md:20 does not hold: any name can be given to two connections (`NamesRepeat`). A step
  from a state with unique names breaks uniqueness if and only if it is a REGISTER that is granted
  (as `RegisterEffect` says) a name another listed connection has (`UniqueExactly`).
- `rpchat_handle_send` does not look at the connection's state: a SEND is relayed from PRE_REGISTER
  and from PENDING_STATUS too (`SendEffect`; README.md:105-106 and 148-149 of the program say
  otherwise). For every text of which something is left there are runs of both
  (`StrangersAreRelayed`, `SendPassesForReply`).
- PENDING_STATUS goes to ERR exactly for no data, an unknown opcode, a REGISTER or a status other than
  GOOD; every other message, a SEND included unless it hangs, is taken for the reply (`ReplyEffect`;
  `SendPassesForReply` is a run).
- A PRE_REGISTER connection is moved to SEND_MSG exactly by an OUTBOUND task (`FirstTask`), and then
  has no name in any continuation (`LockedOut`). For every name there is a run in which the notice of
  its registration does that to another connection (`NoticeLocksOut`).
- `rplib_ll_queue_destroy` compares a rising index with a falling size and leaves half of the nodes; it
  empties the queue if and only if there is at most one (`Destroy`).
- The largest frame is a DELIVER of 8197 bytes, reached (`DeliverBoundIsTight`); assumptions.md:54-57
  says 8195, which is the size of the buffer for incoming messages. The terminator of a full string
  occupies the padding byte after the 4095 bytes of `contents`.

## Assumptions

Allocation, `accept` and `epoll_ctl` succeed; the task queue stays below INT_MAX - 1 nodes; the clock
does not go backwards; only the main thread and running tasks enqueue. The connection system is not
terminating. What the environment decides is a parameter: the bytes read and whether a send succeeds
(`Chat.Env`), the readiness of a socket (`Chat.Epoll`), the seconds that pass (`Chat.Tick`), the order in
which tasks run, and the wording of the server's own notices.

## Model

| member | source | states |
|---|---|---|
| PoolInvariant.InitInv | lib/rplib/src/rplib_tpool.c:30-59 | a fresh pool satisfies the whole invariant, for any number of workers |
| PoolInvariant.StepInv | lib/rplib/src/rplib_tpool.c:98-266 | every step of every thread keeps the whole invariant: roles, lock ownership, both counters, a node at the front, quiescence, joins, FIFO, the fate of each job, the job counters |
| PoolInvariant.RunInv | lib/rplib/src/rplib_tpool.c:98-266 | so does every schedule |
| PoolTheorems.WaitReturnsQuiet | lib/rplib/src/rplib_tpool.c:248-266 | when `wait` returns, the queue is empty, no worker is running or about to run a task, and every task ever enqueued was started once, in order, and finished |
| PoolTheorems.QuietIsStable | lib/rplib/src/rplib_tpool.c:140-199 | from then on the workers by themselves start, finish and enqueue nothing |
| PoolTheorems.DestroyLosesNothing | lib/rplib/src/rplib_tpool.c:61-96 | when `destroy` returns, started tasks are a prefix of the enqueued ones and all finished, the rest is in the queue, counters are 0 and workers gone; after a graceful shutdown nothing is left |
| PoolTheorems.CountersExact | lib/rplib/src/rplib_tpool.c:136-205 | `num_threads_busy` and `num_threads_alive` equal the number of workers in the corresponding code regions, with 0 <= busy <= alive <= workers |
| PoolTheorems.DequeueFindsTask | lib/rplib/src/rplib_tpool.c:149-185 | the front node read at the dequeue exists, although the flag is read twice |
| PoolTheorems.JobCounterConserved | src/components/rpchat_conn_info.c:33-48 | pending_jobs = queued + dequeued and not yet subtracted - enqueued and not yet added, in every interleaving; a lower bound; and when it is exact |
| PoolTheorems.CounterLagsQueue | src/components/rpchat_conn_info.c:40-45 | the counter can read 0 while the task is queued |
| PoolTheorems.NoCircularWait | lib/rplib/src/rplib_tpool.c:107-262 | no chain of waits for mutexes, of any length, closes in a reachable state |
| PoolTheorems.BlockedMeansProgress | lib/rplib/src/rplib_tpool.c:107-262 | behind every blocked thread there is a mutex owner that can move without a spurious wakeup |
| PoolTheorems.DeadlockFree | src/components/rpchat_conn_queue.c:61-81 | the same for every reachable state |
| PoolTheorems.FreeMoves | lib/rplib/src/rplib_tpool.c:129-208 | a thread that is not idle and waits for no mutex can move |
| PoolWakeup.StepWakeInv | lib/rplib/src/rplib_tpool.c:98-208 | every step keeps: sleeping workers saw an empty queue, they leave only on termination, and a non-empty queue is attended to |
| PoolWakeup.NoLostWakeup | lib/rplib/src/rplib_tpool.c:120-123 | before termination a non-empty queue always has a worker awake or an enqueuer about to signal |
| PoolRest.StalledExactly | lib/rplib/src/rplib_tpool.c:129-266 | the pool is at rest if and only if every thread is asleep, ended, or joining a worker that has not ended |
| PoolRest.RestIsMissedSignal | lib/rplib/src/rplib_tpool.c:256-261 | what a pool at rest looks like: in `wait` the queue is empty and nobody is busy; in `destroy` the joined worker sleeps with the flag set; no other rest exists before the end |
| PoolRest.WaitCanStall | lib/rplib/src/rplib_tpool.c:155-160 | a run that leaves `wait` asleep for ever with nothing to wait for |
| PoolRest.DestroyCanStall | lib/rplib/src/rplib_tpool.c:72-81 | a run that leaves a graceful `destroy` joining a sleeping worker for ever |
| PoolReturn.WaitReturnsExactly | lib/rplib/src/rplib_tpool.c:248-266 | with nothing to do, the waiter's look leads to its return if and only if the busy counter is 0: then after its next three steps in every interleaving, otherwise in no run without a spurious wakeup |
| PoolReturn.LastFinishDecides | lib/rplib/src/rplib_tpool.c:190-198 | the step that leaves a sleeping waiter with nothing to wait for is the end of a task, and wakes it if and only if nobody else is counted as busy; otherwise it never returns without a spurious wakeup |
| PoolReturn.AwakeMeansDestroyed | lib/rplib/src/rplib_tpool.c:72-81 | for either kind of `destroy`: once no worker is between its look at the flag and its sleep, nor asleep, the only rest left is the completed destruction |
| PoolReturn.DestroyReturnsExactly | lib/rplib/src/rplib_tpool.c:61-96 | a graceful `destroy` completes if and only if its broadcast finds no worker between its look at the flag and its sleep; every run without a spurious wakeup is bounded and then ends in completion |
| PoolTasks.EnqueueCompletes | src/components/rpchat_conn_info.c:33-48 | over any run: an enqueue that was begun and is over has put the job at the rear and, later, counted it on its connection |
| PoolTasks.RequeuedUnlessTerminating | src/rpchat_process_event.c:576-582 | over any run: a task to be requeued whose worker finds the flag unset is enqueued again and then counted, before the worker is done with it |
| PoolTasks.DroppedWhenTerminating | src/rpchat_process_event.c:576-582 | over any run: if the flag is set, the worker enqueues nothing before it has finished the task |
| PoolTasks.TerminationStopsStarts | lib/rplib/src/rplib_tpool.c:168-182 | once the flag is set at most one more task is started in the rest of the run, and none if no worker was past its look at the flag |
| ChatInvariant.StepInv | src/rpchat_process_event.c:366-585 | every accept, event, audit, contended task and task run keeps the connection invariant |
| ChatInvariant.ExecuteInv | src/rpchat_process_event.c:366-585 | so does every sequence of steps |
| ChatInvariant.RunTaskInv | src/rpchat_process_event.c:366-585 | running any queued task in any environment keeps it |
| ChatInvariant.BroadcastMid | src/rpchat_process_event.c:764-818 | a broadcast keeps it in the middle of a task, leaves every status, socket and other username alone and the sender's connection unchanged |
| ChatInvariant.InboundMid | src/rpchat_process_event.c:587-762 | so does handling any message, with any result |
| ChatInvariant.EpollInv | src/rpchat_basic_chat.c:156-187 | dispatching an event (unwatch, enqueue) keeps it |
| ChatInvariant.AcceptConnInv | src/rpchat_basic_chat.c:197-235 | accepting a connection keeps it |
| ChatInvariant.AuditInv | src/rpchat_basic_chat.c:245-296 | auditing keeps it |
| ChatTheorems.Lifetime | src/components/rpchat_conn_queue.c:54-83 | pending_jobs is the number of queued tasks naming the connection; every queued task names a listed connection; a closing connection has a task unless its last one hangs |
| ChatTheorems.LastTaskDestroys | src/rpchat_process_event.c:535-557 | a task destroys its connection if and only if that is closing, it is the last task naming it, the mutex is free and the farewell returns; no task naming it is left, and no other connection leaves the list |
| ChatTheorems.NotStranded | src/rpchat_process_event.c:428-529 | SEND_STAT has its GOOD status queued, SEND_MSG an OUTBOUND task, and PRE_REGISTER, AVAILABLE and PENDING_STATUS are watched or have an INBOUND task |
| ChatTheorems.StatusToken | src/rpchat_process_event.c:433-481 | the queued statuses of a live connection are exactly one GOOD in SEND_STAT and none otherwise, so outside SEND_STAT only DELIVERs are outbound |
| ChatTheorems.StatusAndDeliverBalance | src/rpchat_process_event.c:433-529 | GOOD sent + [SEND_STAT] = requests accepted, and DELIVERs sent - replies accepted = [PENDING_STATUS], over every run |
| ChatTheorems.PacedHistory | chat_server.md:16-16 | a history with a paced account has an accepted message between any two DELIVERs |
| ChatTheorems.DeliversArePaced | chat_server.md:16-16 | two DELIVERs are never sent without an accepted client message between them, over a connection's whole life |
| ChatTheorems.DeliveredOnce | src/rpchat_process_event.c:278-334 | while a connection lives every DELIVER made for it is queued once or was sent once; never twice; none that was not made |
| ChatTheorems.FramesFit | src/rpchat_process_event.c:219-266 | every message ever queued fits its buffer and its lengths are readable by the client |
| ChatTheorems.StatusTextsShort | src/rpchat_process_event.c:414-421 | no status ever sent or attempted carries more than 28 bytes of text |
| ChatTheorems.OrderlyTeardown | src/rpchat_process_event.c:342-364 | at most one close, last in the history, right after the only error status; closed exactly in CLOSING, then not watched; out of the list only when closed |
| ChatTheorems.TeardownIsFinal | src/rpchat_process_event.c:530-566 | in every continuation: PRE_REGISTER is left for good with the username fixed, ERR never becomes live, and a closed socket's history never grows |
| ChatTheorems.HeartbeatExact | src/rpchat_process_event.c:388-426 | a heartbeat closes a live connection if and only if more than 60 seconds have passed since its latest other task, or its acceptance; otherwise it only takes itself off the queue |
| ChatTheorems.HungForEver | src/rpchat_process_event.c:793-804 | a hung broadcast is hung in every continuation, with a failed or closing connection in the list; nobody is accepted or destroyed and no DELIVER is made any more, whatever arrives |
| ChatTheorems.RunSpares | src/rpchat_process_event.c:366-585 | a task changes no other connection's status, socket, watch or username |
| ChatClock.StepDated | src/rpchat_process_event.c:388-392 | no step changes when a connection was accepted; a task that gets the mutex, and nothing else, is noted with its kind and the time, and moves last_active unless it is a heartbeat |
| ChatClock.LastActiveExact | src/components/rpchat_conn_info.c:26-26 | over every run, last_active is the time of the latest task other than a heartbeat that got the mutex, or of the acceptance, read off the actions of the run |
| ChatClock.InactivityExact | src/rpchat_process_event.c:408-426 | a heartbeat closes a live connection if and only if more than 60 seconds have passed since the run last touched it |
| ChatSteps.OutboundEffect | src/rpchat_process_event.c:455-461 | in PRE_REGISTER and AVAILABLE an OUTBOUND task moves its connection to SEND_MSG and goes back, and nothing else changes |
| ChatSteps.SubmitEffect | src/rpchat_process_event.c:462-501 | a status in SEND_STAT and an OUTBOUND task in SEND_MSG are used up: sent, the connection listening in AVAILABLE or PENDING_STATUS; or lost, the connection in ERR |
| ChatSteps.WaitEffect | src/rpchat_process_event.c:463-508 | a task that the state does not admit goes back, and nothing but the noted activity changes |
| ChatSteps.HeartbeatEffect | src/rpchat_process_event.c:408-426 | a heartbeat is used up, or after more than 60 seconds closes the connection with the notice of inactivity as the error's text |
| ChatSteps.ErrorEffect | src/rpchat_process_event.c:530-534 | in ERR any task attempts one error status without text, closes, and goes back, an OUTBOUND one with that status in its buffer |
| ChatSteps.DropEffect | src/rpchat_process_event.c:535-560 | in CLOSING a task that is not the last is dropped |
| ChatSteps.FarewellEffect | src/rpchat_process_event.c:535-557 | the last task of a closing connection sends every other listed connection one farewell in the server's name and takes exactly its own off the list; or hangs |
| ChatSteps.HeardEffect | src/rpchat_process_event.c:430-529 | for every message read in every listening state: its own record exactly, nobody else's record but new DELIVERs, the mutexes |
| ChatSteps.RejectEffect | src/rpchat_process_event.c:561-566 | a rejected event puts its connection in ERR and its task back, and changes nothing else |
| ChatSteps.RejectExactly | src/rpchat_process_event.c:22-58 | a listening connection goes to ERR by an event if and only if it is unreadable, brings no data, an unknown opcode, a status that is not the reply awaited, a REGISTER refused, or, outside PENDING_STATUS, a SEND of which nothing is left |
| ChatSteps.TakenEffect | src/rpchat_process_event.c:521-528 | in PENDING_STATUS a GOOD, unreadable or empty answer uses the task up and the connection listens in AVAILABLE |
| ChatSteps.Enabled | src/rpchat_basic_chat.c:113-296 | which steps are possible: accepting and auditing if and only if the list's mutex is free, an event if and only if its connection is listed and watched |
| ChatSteps.AcceptEffect | src/rpchat_basic_chat.c:197-235 | the new connection's whole record, dated now, at the rear of the list, and nothing else |
| ChatSteps.EpollEffect | src/rpchat_basic_chat.c:156-187 | an event ends the watch and queues one counted task, and nothing else |
| ChatSteps.ContendEffect | src/rpchat_process_event.c:382-386 | a task that does not get the mutex moves to the rear, and no record changes |
| ChatRequests.SendEffect | src/rpchat_process_event.c:719-762 | a SEND, its field read or refused, is relayed if and only if something is left of its text and the broadcast can return; then one DELIVER with the sender's name and the sanitized text for every other connection, none for the sender, and one GOOD status unless it came in PENDING_STATUS; the empty and the hanging cases exactly |
| ChatRequests.RegisterEffect | src/rpchat_process_event.c:624-717 | when a REGISTER, its field read or refused, is granted, and the name, the welcome, the notices and the status it leaves; every refusal leaves the name and ends in ERR or hangs, and which |
| ChatRequests.ReplyEffect | src/rpchat_process_event.c:502-529 | every message in PENDING_STATUS: ERR if and only if no data, an unknown opcode, a REGISTER or a status other than GOOD; a SEND that cannot be relayed hangs; anything else makes it AVAILABLE |
| ChatRequests.FirstTask | src/rpchat_process_event.c:430-461 | a PRE_REGISTER connection goes to SEND_MSG if and only if the task is OUTBOUND, and its name is left alone |
| ChatRequests.AuditEffect | src/rpchat_basic_chat.c:245-296 | one heartbeat per listed connection, in list order, counted on that connection, and nothing else changes |
| ChatNames.UniqueExactly | src/components/rpchat_conn_queue.c:85-121 | any step from a state with unique listed names keeps them unique, if and only if it is not a REGISTER granted a name that another listed connection has |
| ChatWitnesses.NamesRepeat | chat_server.md:20-20 | false of the code: for every name a run gives it to two listed connections |
| ChatWitnesses.BroadcastCanHang | src/rpchat_process_event.c:800-804 | for every text with something left of it: a reachable state that is not hung, in which the task reading a SEND of that text hangs |
| ChatWitnesses.StrangersAreRelayed | src/rpchat_process_event.c:719-762 | for every text with something left of it: a run in which a connection still in PRE_REGISTER has its SEND relayed to every other connection, and is owed a GOOD status |
| ChatWitnesses.SendPassesForReply | src/rpchat_process_event.c:514-522 | for every such text: a run in which a connection in PENDING_STATUS has its SEND relayed and becomes AVAILABLE by it |
| ChatWitnesses.NoticeLocksOut | src/rpchat_process_event.c:455-461 | for every name: a reachable state in which another connection has been granted it, and the step by which a queued OUTBOUND task moves a PRE_REGISTER connection to SEND_MSG without a name |
| ChatNames.LockedOut | src/rpchat_process_event.c:455-461 | every PRE_REGISTER connection that an OUTBOUND task moves on has no name, and neither returns to PRE_REGISTER nor gets one in any continuation |
| ChatOrigin.StepMakes | src/rpchat_process_event.c:278-334 | a step that makes a DELIVER for a connection is another connection's SEND, whose name and sanitized text it carries, or a granted REGISTER or a last farewell with the server's own |
| ChatOrigin.DeliverHasOrigin | src/rpchat_process_event.c:455-501 | every DELIVER ever queued for or sent to a connection was made, with this sender and text, by such a step of the run |
| ChatOrigin.SentIsShown | scripts/client.py:167-199 | every DELIVER ever sent is read back by its client as one frame and shown as one line |
| ChatOrigin.ShownAsTyped | scripts/client.py:252-263 | a DELIVER that relays what a client typed and packed shows as one line: the sender's name and the acceptable bytes among the first 4095 typed, in order |
| ChatOrigin.FromPromptToScreen | scripts/client.py:167-199 | over any run: whatever a connection was ever sent was made by one step of it, is read back by its client as one frame, and, if that step relayed what a client typed, shows that client's name at that step and what it typed |
| BroadcastLoop.FanOut | src/rpchat_process_event.c:789-816 | the walk appends exactly the messages for the connections before the first bad one, in order, and hangs exactly if there is one |
| BroadcastLoop.WalkStatus | src/rpchat_process_event.c:793-813 | the walk changes no status |
| BroadcastLoop.OneEach | chat_server.md:21-21 | one message for each listed connection other than the sender, none for the sender |
| BroadcastLoop.LoopIsWalk | src/rpchat_process_event.c:793-813 | the loop, iteration by iteration with its node, ends or stays where the recursive walk says |
| BroadcastLoop.LoopEnds | src/rpchat_process_event.c:793-813 | some number of iterations ends the loop if and only if no other connection is ERR or CLOSING; otherwise it stays at the first such one for ever |
| BroadcastLoop.BroadcastReturns | src/rpchat_process_event.c:764-818 | the call returns if and only if the list is free and no other connection is bad, and then has fanned out one sanitized DELIVER each |
| ChatServer.Hub.SendStatusTask | src/rpchat_process_event.c:154-210 | a new node at the rear of the task queue holds exactly the encoded status with the pending text, which decodes to the status `Chat.EnqueueStatus` queues; the text is cleared |
| ChatServer.Hub.SendDeliverTask | src/rpchat_process_event.c:278-334 | a new node at the rear holds exactly the encoded DELIVER with the sanitized text, which decodes to the parcel `Chat.EnqueueDeliver` queues |
| ChatServer.Hub.BroadcastMsg | src/rpchat_process_event.c:764-818 | the walk over the list's nodes, pushing byte buffers, reaches the abstract state of `Chat.Broadcast`, with its hanging case |
| ChatServer.Hub.FindByUsername | src/components/rpchat_conn_queue.c:85-121 | the loop at the front node finds if and only if the list is not empty and its first name has the length asked for |
| ChatServer.Hub.DestroyConnInfo | src/components/rpchat_conn_queue.c:54-83 | the node found by identity is unlinked: the abstract list loses exactly that connection, and the task queue is untouched |
| ChatServer.Hub.PopTask | lib/rplib/src/rplib_tpool.c:175-185 | peek and dequeue: the front packet, whole, decodes to the first abstract task, and the abstract queue loses exactly that |
| ChatServer.Hub.ProcEvent | src/rpchat_process_event.c:366-585 | taking the front node and running its task takes the abstract state through the step `Chat.Run(0, env)`, and keeps the invariant |
| ChatServer.Hub.ContendedTask | src/rpchat_process_event.c:382-386 | a front task that does not get the mutex is requeued: the step `Chat.Contend(0)`, keeping the invariant |
| ChatServer.Hub.NewConnection | src/rpchat_basic_chat.c:197-235 | a new node at the rear of the list: the step `Chat.Accept`, keeping the invariant |
| ChatServer.Hub.HandleEvent | src/rpchat_basic_chat.c:156-187 | the step `Chat.Epoll`, keeping the invariant |
| ChatServer.Hub.AuditConnections | src/rpchat_basic_chat.c:245-296 | the walk over the list's nodes is the step `Chat.Audit`, keeping the invariant |
| ChatServer.IsStatus | src/rpchat_basic_chat_util.c:36-60 | the opcode of a buffer that holds a whole frame tells whether it decodes to a status |
| ChatServer.DecodesStatus | src/rpchat_process_event.c:103-142 | the bytes built for a status decode to the same code and text |
| LinkedQueue.Queue.constructor | lib/rplib/src/rplib_ll_queue.c:17-34 | an empty valid list |
| LinkedQueue.Queue.Enqueue | lib/rplib/src/rplib_ll_queue.c:36-95 | appends a fresh node, or leaves the queue alone exactly when the size would reach INT_MAX |
| LinkedQueue.Queue.Predecessor | lib/rplib/src/rplib_ll_queue.c:120-125 | the search ends at the node before the target |
| LinkedQueue.Queue.RemoveNode | lib/rplib/src/rplib_ll_queue.c:97-147 | deletes exactly the target, keeps the order of the rest, and front, rear, links and size agree again |
| LinkedQueue.Queue.Dequeue | lib/rplib/src/rplib_ll_queue.c:149-162 | the contents lose their first element |
| LinkedQueue.Queue.Peek | lib/rplib/src/rplib_ll_queue.c:164-173 | the first node and its data |
| LinkedQueue.Queue.Destroy | lib/rplib/src/rplib_ll_queue.c:175-193 | takes out exactly the first half, rounded up; empties the queue if and only if it had at most one node |
| LinkedQueue.Relinked | lib/rplib/src/rplib_ll_queue.c:117-133 | unlinking one node of an acyclic list leaves an acyclic list of the others |
| Strings.FilterInto | src/components/rpchat_string.c:28-42 | the loop writes the filter of the input to the output buffer |
| Strings.Sanitize | src/components/rpchat_string.c:12-56 | the output is the sanitized input, the input's length is clamped, success if and only if something is left |
| Strings.KeepSelects | src/components/rpchat_string.c:28-42 | the filter keeps exactly the accepted positions, in order |
| Strings.SanitizedTwice | src/components/rpchat_string.c:12-56 | idempotent, and strict output is fixed by the permissive mode |
| Strings.ThreePasses | src/rpchat_process_event.c:749-778 | the passes on receipt, in the broadcast and in the frame builder equal one |
| Strings.SanitizedShape | src/components/rpchat_string.c:43-51 | accepted bytes, then one terminator, nowhere else |
| Strings.SanitizedEmpty | src/components/rpchat_string.c:52-53 | empty if and only if no byte of the first 4095 is acceptable |
| Strings.SanitizedTight | include/components/rpchat_string.h:19-30 | 4095 acceptable bytes reach the bound of 4096 |
| Codec.SetStatus | src/rpchat_process_event.c:103-142 | the buffer holds the encoded status within every size a task's buffer has, and the pending text is cleared |
| Codec.SetDeliver | src/rpchat_process_event.c:219-266 | for every name and every message of any declared length the running index stays within the packet structure, and the buffer holds the encoded DELIVER with the sanitized text |
| Codec.DeliverBoundIsTight | include/rpchat_basic_chat_util.h:46-51 | 8197 bytes are reached by 4095 + 4095 acceptable bytes |
| Codec.FrameLayout | chat_server.md:6-11 | the server's frames byte by byte |
| Codec.ClientReadsOnly | scripts/client.py:167-231 | the client takes nothing for a frame but that frame; the one exception, a STATUS without text, exactly |
| Codec.ServerReadsOnly | src/rpchat_process_event.c:587-855 | for every stream and state: which kind of message it is taken for, and when its field is read, as equivalences |
| Codec.StripNulConcat | scripts/client.py:196-197 | stripping goes byte by byte and drops exactly the zeros |
| Codec.ClientReadsFrame | scripts/client.py:167-231 | the client reads back any frame, and leaves what follows it |
| Codec.ServerToClient | scripts/client.py:292-302 | any sequence of server frames, concatenated, is read back frame by frame |
| Codec.ServerReadsMessage | src/rpchat_process_event.c:642-664 | the server recovers a packed message, and nothing beyond it, if and only if its state admits it |
| Codec.ClientToServer | scripts/client.py:239-276 | any sequence of client messages, packed and concatenated, is split back into the same sequence in states that admit them |
| Client.LinesShown | scripts/client.py:221-227 | a status shows a notice if and only if its code is not 0, then its text if and only if it has one; a DELIVER is one line |
| Client.BcpClient.HandleDeliver | scripts/client.py:167-199 | reads exactly one DELIVER off the stream and shows it, or reports failure |
| Client.BcpClient.HandleStat | scripts/client.py:201-231 | reads exactly one STATUS, sets the return code and the READY state, or changes neither |
| Client.BcpClient.HandleIncoming | scripts/client.py:292-302 | a DELIVER is answered with status 0 if it was read and 1 if not; a STATUS is not answered |
| Client.BcpClient.HandleAll | scripts/client.py:144-161 | on any stream of whole frames: all read, all shown in order, every DELIVER answered once, the last STATUS decides the return code, and any STATUS makes the client READY |

## Left out

- Sockets, epoll, signals, timers and log files (src/rpchat_networking.c, src/rpchat_file_io.c) and src/main.c: system calls and argument parsing, represented by watched flags, byte streams and success choices only.
- Waiting for an event and dispatching it are one step: an event reported for a connection that was closed in between, and the reuse of a descriptor, are not modelled.
- Shutdown of the connection system: tasks dropped because the terminate flag is set are covered in the pool's model only.
- Failed allocation and a full task queue: `rplib_tpool_enqueue_task` then returns with the mutex held (lib/rplib/src/rplib_tpool.c:112-119).
- Liveness under fair scheduling, beyond deadlock freedom, wakeups and the states of rest.
- Delivery order per connection: requeueing moves tasks to the back, so there is none to prove.
- The wording of the server's notices and `rpchat_conn_queue_list_users`: arbitrary strings, sanitized and bounded like any other.
- The pool is a value stepped by its schedule rather than shared objects updated in place: a step's atomicity is the model's, taken from the mutexes that the source holds.
- PoolTheorems.JobCounterConserved: the lifetime of a connection is not claimed between a task's first line and its requeue, where the counter can read 0 while a task exists.
- PoolTheorems.BlockedMeansProgress: every list walk of the pool's model ends; the worker of `HungForEver`, which spins with the list's mutex, is a state of the connection system only, so progress behind that mutex is not claimed once a broadcast hangs.
- PoolTheorems.DeadlockFree: the same; a thread waiting for the list's mutex behind a spinning broadcast is not a deadlock of mutexes, and does wait for ever.
- ChatServer.Hub.ProcEvent: one worker that takes the front task; several workers and their orders are in `Chat.Step`, where any queued task may run, and in `Pool`.
- ChatServer.Hub.SendDeliverTask: the queue must have room below INT_MAX nodes, and a task's buffer is its bytes, not an object that could be shared.
- ChatServer.Hub.DestroyConnInfo: reads the front of the list inside its step, while the source reads it before taking the mutex.
- ChatServer.Hub.BroadcastMsg: stops at the first bad connection and records that the call does not return, instead of looping for ever.
- Client threads, prompt, screen and the decoding of non-ASCII text; the client's short reads count as failures.
- The extended file protocol of chat_server.md:37-58, which the program does not implement.
