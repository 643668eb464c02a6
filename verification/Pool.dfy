/**
  The thread pool (lib/rplib/src/rplib_tpool.c) with the locking and job-counting
  skeleton of the tasks it runs, as an interleaving transition system.

  Thread 0 is the main thread: it runs the event loop, and finally destroys the pool.
  Threads 1..n are the workers.  One step is one mutex operation, one read of a shared
  variable, or one update together with the release of the mutex that guards it.
  A schedule (which thread moves, and what it chooses) determines the run, so a claim
  about every schedule is a claim about every interleaving.
*/
module Pool {
  import opened Basics

  type Tid = nat

  /** A queued unit of work: the connection it names and its argument block. */
  datatype Job = Job(conn: nat, args: nat)

  datatype Lock = ConnLock(conn: nat) | ConnList | TaskQueue | ThreadCount

  /** Where a call of rplib_tpool_enqueue_task returns to. */
  datatype Site =
    | EventLoop
    | AuditLoop
    | TaskBody(run: Job)
    | TaskList(run: Job)
    | TaskRequeue(run: Job)

  datatype MainPC =
    | Loop                                        // waiting for the next event
    | AcceptLock | Accepting                      // rpchat_handle_new_connection
    | AuditLock | Auditing                        // rpchat_audit_connections
    | WaitLock | WaitBusy | WaitSize | WaitBlock  // rplib_tpool_wait
    | WaitAsleep | WaitUnlock | WaitReturned
    | SetTerminate(graceful: bool)                // rplib_tpool_destroy
    | WakeAll(graceful: bool)
    | Joining(graceful: bool, joined: nat)
    | Destroyed(graceful: bool)

  datatype WorkerPC =
    | Start | RaiseAlive                          // before the loop
    | Top | RaiseBusy | WantQueue                 // head of the loop
    | CheckSize | CheckFlag                       // the condition of the inner loop
    | IdleLock | DropBusy | Sleep | Asleep | ReLock | ReRaise
    | TestFlag | Take | Taken(job: Job)
    | Quit | DieLock | Dying | Dead               // after the loop

  datatype TaskPC =
    | Subtract | TryConn                          // first lines of the task
    | Body | WantList | HoldList                  // the connection's mutex is held
    | Requeue                                     // the mutex has been released again
    | WantDestroy | Destroying                    // rpchat_conn_queue_destroy_conn_info
    | WantCount | Finish                          // the task has returned to the worker

  datatype EnqPC = EnqLock | EnqPush | EnqSignal | EnqAdd

  datatype PC =
    | Main(m: MainPC)
    | Worker(w: WorkerPC)
    | Task(run: Job, at: TaskPC)
    | Enq(step: EnqPC, job: Job, site: Site)

  datatype Pool = Pool(
    pcs: seq<PC>,
    owner: map<Lock, Tid>,        // the held mutexes
    asleep: set<Tid>,             // blocked in pthread_cond_wait and not yet signalled
    queue: seq<Job>,
    busy: int,
    alive: int,
    terminate: bool,
    pending: map<nat, int>,       // pending_jobs of each connection, 0 when absent
    enqueued: seq<Job>,           // history: every job ever enqueued, in order
    started: seq<Job>,            // history: every job ever dequeued, in order
    finished: multiset<Job>)      // history: every job whose function has returned

  /** The nondeterminism of one step. */
  datatype Choice =
    | Go
    | Accept | Submit(job: Job) | Audit | Wait | Destroy   // main thread
    | UseList | Done | Again | Retire                      // a task's body
    | Notify(tid: Tid)                                     // the thread a signal wakes
    | Spurious                                             // a wakeup without a signal

  function Init(workers: nat): Pool {
    Pool([Main(Loop)] + seq(workers, i => Worker(Start)), map[], {}, [], 0, 0, false,
         map[], [], [], multiset{})
  }

  // ---- the programs ----------------------------------------------------------------------------

  datatype LockOp = Keep | Lock(l: Lock) | Unlock(l: Lock)

  /** What a step does to the shared data. */
  datatype Effect =
    | NoEffect
    | AliveUp | BusyUp | BusyDown | Death
    | Push(job: Job) | Pop(job: Job)
    | Sub(conn: nat) | Add(conn: nat)
    | Terminate
    | Finished(job: Job)

  /** What a step does to the sleepers of the condition variables. */
  datatype SleepOp = Same | FallAsleep | WakeUp(tid: Tid) | WakeWorkers

  /** One step of a thread: its next program point and its effect on the shared state. */
  datatype Move = Move(next: PC, op: LockOp, effect: Effect, sleep: SleepOp)

  function Goto(pc: PC): Option<Move> { Some(Move(pc, Keep, NoEffect, Same)) }

  function Do(effect: Effect, pc: PC): Option<Move> { Some(Move(pc, Keep, effect, Same)) }

  function Acquire(l: Lock, pc: PC): Option<Move> { Some(Move(pc, Lock(l), NoEffect, Same)) }

  function Release(l: Lock, effect: Effect, pc: PC): Option<Move> {
    Some(Move(pc, Unlock(l), effect, Same))
  }

  /** Release a mutex after pthread_cond_signal on a condition with the given sleepers. */
  function SignalRelease(l: Lock, effect: Effect, sleepers: set<Tid>, ch: Choice, pc: PC): Option<Move> {
    if sleepers == {} then Release(l, effect, pc)
    else if ch.Notify? && ch.tid in sleepers then Some(Move(pc, Unlock(l), effect, WakeUp(ch.tid)))
    else None
  }

  /** pthread_cond_wait once the mutex is released: sleep, wake, take the mutex again. */
  function Rewake(s: Pool, t: Tid, ch: Choice, l: Lock, asleep: PC, next: PC): Option<Move> {
    if t !in s.asleep then Acquire(l, next)
    else if ch.Spurious? then Some(Move(asleep, Keep, NoEffect, WakeUp(t)))
    else None
  }

  /** rpchat_handle_new_connection, rpchat_audit_connections, rplib_tpool_wait and
      rplib_tpool_destroy, as the main thread executes them. */
  function MainMove(s: Pool, t: Tid, m: MainPC, ch: Choice): Option<Move> {
    match m
    case Loop =>
      (match ch
       case Accept => Goto(Main(AcceptLock))
       case Submit(j) => Goto(Enq(EnqLock, j, EventLoop))
       case Audit => Goto(Main(AuditLock))
       case Wait => Goto(Main(WaitLock))
       case Destroy => Goto(Main(SetTerminate(false)))
       case _ => None)
    case AcceptLock => Acquire(ConnList, Main(Accepting))
    case Accepting => Release(ConnList, NoEffect, Main(Loop))
    case AuditLock => Acquire(ConnList, Main(Auditing))
    case Auditing =>
      if ch.Submit? then Goto(Enq(EnqLock, ch.job, AuditLoop))
      else Release(ConnList, NoEffect, Main(Loop))
    case WaitLock => Acquire(ThreadCount, Main(WaitBusy))
    case WaitBusy => Goto(Main(if s.busy != 0 then WaitBlock else WaitSize))
    case WaitSize => Goto(Main(if |s.queue| != 0 then WaitBlock else WaitUnlock))
    case WaitBlock => Some(Move(Main(WaitAsleep), Unlock(ThreadCount), NoEffect, FallAsleep))
    case WaitAsleep => Rewake(s, t, ch, ThreadCount, Main(WaitAsleep), Main(WaitBusy))
    case WaitUnlock => Release(ThreadCount, NoEffect, Main(WaitReturned))
    case WaitReturned => Goto(Main(if ch.Destroy? then SetTerminate(true) else Loop))
    case SetTerminate(g) => Do(Terminate, Main(WakeAll(g)))
    case WakeAll(g) => Some(Move(Main(Joining(g, 0)), Keep, NoEffect, WakeWorkers))
    case Joining(g, k) =>
      if k + 1 >= |s.pcs| then Goto(Main(Destroyed(g)))
      else if s.pcs[k + 1] == Worker(Dead) then Goto(Main(Joining(g, k + 1)))
      else None
    case Destroyed(_) => None
  }

  /** rplib_tpool_thread_do, except for the call of the task's function. */
  function WorkerMove(s: Pool, t: Tid, w: WorkerPC, ch: Choice): Option<Move> {
    match w
    case Start => Acquire(ThreadCount, Worker(RaiseAlive))
    case RaiseAlive => Release(ThreadCount, AliveUp, Worker(Top))
    case Top => Acquire(ThreadCount, Worker(RaiseBusy))
    case RaiseBusy => Release(ThreadCount, BusyUp, Worker(WantQueue))
    case WantQueue => Acquire(TaskQueue, Worker(CheckSize))
    case CheckSize => Goto(Worker(if |s.queue| == 0 then CheckFlag else TestFlag))
    case CheckFlag => Goto(Worker(if !s.terminate then IdleLock else TestFlag))
    case IdleLock => Acquire(ThreadCount, Worker(DropBusy))
    case DropBusy => Release(ThreadCount, BusyDown, Worker(Sleep))
    case Sleep => Some(Move(Worker(Asleep), Unlock(TaskQueue), NoEffect, FallAsleep))
    case Asleep => Rewake(s, t, ch, TaskQueue, Worker(Asleep), Worker(ReLock))
    case ReLock => Acquire(ThreadCount, Worker(ReRaise))
    case ReRaise => Release(ThreadCount, BusyUp, Worker(CheckSize))
    case TestFlag => Goto(Worker(if s.terminate then Quit else Take))
    case Take =>
      if s.queue == [] then None   // p_front would be NULL here; FrontPresent excludes it
      else Do(Pop(s.queue[0]), Worker(Taken(s.queue[0])))
    case Taken(j) => Release(TaskQueue, NoEffect, Task(j, Subtract))
    case Quit => Release(TaskQueue, NoEffect, Worker(DieLock))
    case DieLock => Acquire(ThreadCount, Worker(Dying))
    case Dying => Release(ThreadCount, Death, Worker(Dead))
    case Dead => None
  }

  /** rpchat_task_conn_proc_event as the pool sees it: its counter updates, its mutex
      operations and its enqueues, then the worker's bookkeeping after the call. */
  function TaskMove(s: Pool, j: Job, at: TaskPC, ch: Choice): Option<Move> {
    var conn := ConnLock(j.conn);
    match at
    case Subtract => Do(Sub(j.conn), Task(j, TryConn))
    case TryConn => if conn in s.owner then Goto(Task(j, Requeue)) else Acquire(conn, Task(j, Body))
    case Body =>
      (match ch
       case Submit(k) => Goto(Enq(EnqLock, k, TaskBody(j)))
       case UseList => Goto(Task(j, WantList))
       case Done => Release(conn, NoEffect, Task(j, WantCount))
       case Again => Release(conn, NoEffect, Task(j, Requeue))
       case Retire => Release(conn, NoEffect, Task(j, WantDestroy))
       case _ => None)
    case WantList => Acquire(ConnList, Task(j, HoldList))
    case HoldList =>
      if ch.Submit? then Goto(Enq(EnqLock, ch.job, TaskList(j)))
      else Release(ConnList, NoEffect, Task(j, Body))
    case Requeue => Goto(if s.terminate then Task(j, WantCount) else Enq(EnqLock, j, TaskRequeue(j)))
    case WantDestroy => Acquire(ConnList, Task(j, Destroying))
    case Destroying => Release(ConnList, NoEffect, Task(j, WantCount))
    case WantCount => Acquire(ThreadCount, Task(j, Finish))
    case Finish =>
      SignalRelease(ThreadCount, Finished(j), if s.busy == 1 then s.asleep * {0} else {}, ch, Worker(Top))
  }

  function Resume(site: Site): PC {
    match site
    case EventLoop => Main(Loop)
    case AuditLoop => Main(Auditing)
    case TaskBody(j) => Task(j, Body)
    case TaskList(j) => Task(j, HoldList)
    case TaskRequeue(j) => Task(j, WantCount)
  }

  /** rpchat_conn_info_enqueue_task and the rplib_tpool_enqueue_task inside it. */
  function EnqMove(s: Pool, e: EnqPC, j: Job, site: Site, ch: Choice): Option<Move> {
    match e
    case EnqLock => Acquire(TaskQueue, Enq(EnqPush, j, site))
    case EnqPush => Do(Push(j), Enq(EnqSignal, j, site))
    case EnqSignal => SignalRelease(TaskQueue, NoEffect, s.asleep - {0}, ch, Enq(EnqAdd, j, site))
    case EnqAdd => Do(Add(j.conn), Resume(site))
  }

  /** The move thread t makes from its program point; None when it cannot make one. */
  function Program(s: Pool, t: Tid, pc: PC, ch: Choice): Option<Move> {
    match pc
    case Main(m) => MainMove(s, t, m, ch)
    case Worker(w) => WorkerMove(s, t, w, ch)
    case Task(j, at) => TaskMove(s, j, at, ch)
    case Enq(e, j, site) => EnqMove(s, e, j, site, ch)
  }

  // ---- what a move does ------------------------------------------------------------------------

  function Pending(s: Pool, c: nat): int {
    if c in s.pending then s.pending[c] else 0
  }

  function Perform(s: Pool, effect: Effect): Pool {
    match effect
    case NoEffect => s
    case AliveUp => s.(alive := s.alive + 1)
    case BusyUp => s.(busy := s.busy + 1)
    case BusyDown => s.(busy := s.busy - 1)
    case Death => s.(busy := s.busy - 1, alive := s.alive - 1)
    case Push(j) => s.(queue := s.queue + [j], enqueued := s.enqueued + [j])
    case Pop(j) => s.(queue := if s.queue == [] then [] else s.queue[1..], started := s.started + [j])
    case Sub(c) => s.(pending := s.pending[c := Pending(s, c) - 1])
    case Add(c) => s.(pending := s.pending[c := Pending(s, c) + 1])
    case Terminate => s.(terminate := true)
    case Finished(j) => s.(busy := s.busy - 1, finished := s.finished + multiset{j})
  }

  function Sleepers(asleep: set<Tid>, t: Tid, op: SleepOp): set<Tid> {
    match op
    case Same => asleep
    case FallAsleep => asleep + {t}
    case WakeUp(u) => asleep - {u}
    case WakeWorkers => asleep * {0}
  }

  /** A mutex can be taken only when nobody owns it. */
  predicate Possible(s: Pool, m: Move) {
    m.op.Lock? ==> m.op.l !in s.owner
  }

  function Owner(owner: map<Lock, Tid>, t: Tid, op: LockOp): map<Lock, Tid> {
    match op
    case Keep => owner
    case Lock(l) => owner[l := t]
    case Unlock(l) => owner - {l}
  }

  function Apply(s: Pool, t: Tid, m: Move): Pool
    requires t < |s.pcs|
  {
    Perform(s, m.effect).(pcs := s.pcs[t := m.next],
                          owner := Owner(s.owner, t, m.op),
                          asleep := Sleepers(s.asleep, t, m.sleep))
  }

  /** One step of thread t; None when t cannot move that way. */
  function Step(s: Pool, t: Tid, ch: Choice): (r: Option<Pool>)
    ensures r.Some? ==> |r.value.pcs| == |s.pcs|
  {
    if t >= |s.pcs| then None
    else match Program(s, t, s.pcs[t], ch)
      case None => None
      case Some(m) => if Possible(s, m) then Some(Apply(s, t, m)) else None
  }

  /** The state a schedule leads to, or None when the schedule is not possible. */
  function Run(s: Pool, schedule: seq<(Tid, Choice)>): (r: Option<Pool>)
    ensures r.Some? ==> |r.value.pcs| == |s.pcs|
    decreases |schedule|
  {
    if schedule == [] then Some(s)
    else match Step(s, schedule[0].0, schedule[0].1)
      case None => None
      case Some(s') => Run(s', schedule[1..])
  }

  // ---- what a program point says about its thread ----------------------------------------------

  predicate SiteHolds(site: Site, l: Lock) {
    match site
    case EventLoop => false
    case AuditLoop => l == ConnList
    case TaskBody(j) => l == ConnLock(j.conn)
    case TaskList(j) => l == ConnLock(j.conn) || l == ConnList
    case TaskRequeue(_) => false
  }

  /** The mutexes a thread holds at a program point. */
  predicate Holds(pc: PC, l: Lock) {
    match pc
    case Main(m) =>
      if m.Accepting? || m.Auditing? then l == ConnList
      else (m.WaitBusy? || m.WaitSize? || m.WaitBlock? || m.WaitUnlock?) && l == ThreadCount
    case Worker(w) =>
      || (&& l == ThreadCount
          && (w.RaiseAlive? || w.RaiseBusy? || w.Dying? || w.DropBusy? || w.ReRaise?))
      || (&& l == TaskQueue
          && (|| w.CheckSize? || w.CheckFlag? || w.IdleLock? || w.DropBusy? || w.Sleep? || w.ReLock?
              || w.ReRaise? || w.TestFlag? || w.Take? || w.Taken? || w.Quit?))
    case Task(j, at) =>
      || (l == ConnLock(j.conn) && (at.Body? || at.WantList? || at.HoldList?))
      || (l == ConnList && (at.HoldList? || at.Destroying?))
      || (l == ThreadCount && at.Finish?)
    case Enq(e, _, site) =>
      SiteHolds(site, l) || (l == TaskQueue && (e.EnqPush? || e.EnqSignal?))
  }

  /** The mutex a thread waits for at a program point.  A connection's mutex never
      appears here: it is only ever tried. */
  function Wants(pc: PC): Option<Lock> {
    match pc
    case Main(m) =>
      if m.AcceptLock? || m.AuditLock? then Some(ConnList)
      else if m.WaitLock? || m.WaitAsleep? then Some(ThreadCount)
      else None
    case Worker(w) =>
      if w.Start? || w.Top? || w.IdleLock? || w.ReLock? || w.DieLock? then Some(ThreadCount)
      else if w.WantQueue? || w.Asleep? then Some(TaskQueue)
      else None
    case Task(_, at) =>
      if at.WantList? || at.WantDestroy? then Some(ConnList)
      else if at.WantCount? then Some(ThreadCount)
      else None
    case Enq(e, _, _) => if e.EnqLock? then Some(TaskQueue) else None
  }

  predicate MainSite(site: Site) { site.EventLoop? || site.AuditLoop? }

  predicate MainPoint(pc: PC) { pc.Main? || (pc.Enq? && MainSite(pc.site)) }

  /** The points at which num_threads_busy counts the thread. */
  function Busy(pc: PC): int {
    if MainPoint(pc) then 0
    else if pc.Worker? then
      var w := pc.w;
      if || w.WantQueue? || w.CheckSize? || w.CheckFlag? || w.IdleLock? || w.DropBusy? || w.TestFlag?
         || w.Take? || w.Taken? || w.Quit? || w.DieLock? || w.Dying? then 1 else 0
    else 1
  }

  /** The points at which num_threads_alive counts the thread. */
  function Alive(pc: PC): int {
    if MainPoint(pc) then 0
    else if pc.Worker? && (pc.w.Start? || pc.w.RaiseAlive? || pc.w.Dead?) then 0
    else 1
  }

  /** A worker that is running a task or committed to run one. */
  predicate Working(pc: PC) {
    !MainPoint(pc) && (pc.Worker? ==> pc.w.Take? || pc.w.Taken?)
  }

  /** The job a thread has dequeued and not yet finished. */
  function InFlight(pc: PC): Option<Job> {
    match pc
    case Main(_) => None
    case Worker(w) => if w.Taken? then Some(w.job) else None
    case Task(j, _) => Some(j)
    case Enq(_, _, site) => if MainSite(site) then None else Some(site.run)
  }

  /** 1 when the thread has dequeued j and not yet finished it. */
  function Flying(j: Job): PC -> int {
    (pc: PC) => if InFlight(pc) == Some(j) then 1 else 0
  }

  /** 1 when the thread has dequeued a job of c and not yet subtracted it. */
  function Unsubtracted(c: nat): PC -> int {
    (pc: PC) => if || (pc.Worker? && pc.w.Taken? && pc.w.job.conn == c)
             || (pc.Task? && pc.at.Subtract? && pc.run.conn == c) then 1 else 0
  }

  /** 1 when the thread has enqueued a job for c and not yet counted it. */
  function Unadded(c: nat): PC -> int {
    (pc: PC) => if pc.Enq? && (pc.step.EnqSignal? || pc.step.EnqAdd?) && pc.job.conn == c then 1 else 0
  }

  /** The number of queued jobs that name c. */
  function Queued(q: seq<Job>, c: nat): nat {
    if q == [] then 0 else (if q[0].conn == c then 1 else 0) + Queued(q[1..], c)
  }
}
