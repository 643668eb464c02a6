/** The invariant of the pool's runs, conjunct by conjunct, and its preservation. */
module PoolInvariant {
  import opened Basics
  import opened Sums
  import opened Pool

  ghost predicate Roles(s: Pool) {
    && 0 < |s.pcs|
    && forall t :: 0 <= t < |s.pcs| ==> (MainPoint(s.pcs[t]) <==> t == 0)
  }

  predicate OwnsAt(s: Pool, t: Tid, l: Lock)
    requires t < |s.pcs|
  {
    Holds(s.pcs[t], l) <==> l in s.owner && s.owner[l] == t
  }

  /** The owner of a mutex is exactly the thread whose program point holds it. */
  ghost predicate Owners(s: Pool) {
    && (forall l :: l in s.owner ==> s.owner[l] < |s.pcs|)
    && (forall t: Tid, l :: t < |s.pcs| ==> OwnsAt(s, t, l))
  }

  ghost predicate Counters(s: Pool) {
    s.busy == Sum(Busy, s.pcs) && s.alive == Sum(Alive, s.pcs)
  }

  /** Whoever is about to read the front of the queue finds a node there. */
  predicate FrontAt(s: Pool, pc: PC) {
    && (pc == Worker(TestFlag) ==> s.queue != [] || s.terminate)
    && (pc == Worker(Take) ==> s.queue != [])
  }

  ghost predicate FrontPresent(s: Pool) {
    forall t :: 0 <= t < |s.pcs| ==> FrontAt(s, s.pcs[t])
  }

  /** The main thread has returned (or is about to) from rplib_tpool_wait. */
  predicate PastWait(pc: PC) {
    && pc.Main?
    && var m := pc.m;
       || m.WaitUnlock? || m.WaitReturned?
       || ((m.SetTerminate? || m.WakeAll? || m.Joining? || m.Destroyed?) && m.graceful)
  }

  ghost predicate Quiet(s: Pool) {
    s.queue == [] && forall t :: 0 <= t < |s.pcs| ==> !Working(s.pcs[t])
  }

  ghost predicate Quiescence(s: Pool)
    requires 0 < |s.pcs|
  {
    && (s.pcs[0] == Main(WaitSize) ==> s.busy == 0)
    && (PastWait(s.pcs[0]) ==> Quiet(s))
  }

  /** The workers the main thread has already joined. */
  function Joined(pc: PC, workers: nat): nat {
    if !pc.Main? then 0
    else match pc.m
      case Joining(_, k) => if k < workers then k else workers
      case Destroyed(_) => workers
      case _ => 0
  }

  ghost predicate JoinedDead(s: Pool)
    requires 0 < |s.pcs|
  {
    forall t :: 1 <= t <= Joined(s.pcs[0], |s.pcs| - 1) ==> s.pcs[t] == Worker(Dead)
  }

  /** Jobs leave the queue in the order in which they entered it. */
  ghost predicate Fifo(s: Pool) {
    s.enqueued == s.started + s.queue
  }

  /** Every start of j is either finished or in progress on one worker. */
  ghost predicate JobFate(s: Pool, j: Job) {
    multiset(s.started)[j] == s.finished[j] + Sum(Flying(j), s.pcs)
  }

  ghost predicate JobCount(s: Pool, c: nat) {
    Pending(s, c) == Queued(s.queue, c) + Sum(Unsubtracted(c), s.pcs) - Sum(Unadded(c), s.pcs)
  }

  ghost predicate Inv(s: Pool) {
    && Roles(s) && Owners(s) && Counters(s) && FrontPresent(s)
    && Quiescence(s) && JoinedDead(s) && Fifo(s)
    && (forall j :: JobFate(s, j))
    && (forall c :: JobCount(s, c))
  }

  // ---- the initial state -----------------------------------------------------------------------

  lemma InitInv(workers: nat)
    ensures Inv(Init(workers))
  {
    var s := Init(workers);
    SumZero(Busy, s.pcs);
    SumZero(Alive, s.pcs);
    forall j ensures JobFate(s, j) {
      SumZero(Flying(j), s.pcs);
    }
    forall c ensures JobCount(s, c) {
      SumZero(Unsubtracted(c), s.pcs);
      SumZero(Unadded(c), s.pcs);
    }
  }

  // ---- the table facts: what each program point's move does ------------------------------------

  ghost predicate Moves(s: Pool, t: Tid, pc: PC, ch: Choice, m: Move) {
    Program(s, t, pc, ch) == Some(m)
  }

  predicate Touches(op: LockOp, l: Lock) { !op.Keep? && op.l == l }

  /** A move takes only mutexes the thread does not hold and gives up only ones it does. */
  predicate LockFact(pc: PC, m: Move, l: Lock) {
    && (!Touches(m.op, l) ==> (Holds(m.next, l) <==> Holds(pc, l)))
    && (m.op == Lock(l) ==> !Holds(pc, l) && Holds(m.next, l))
    && (m.op == Unlock(l) ==> Holds(pc, l) && !Holds(m.next, l))
  }

  lemma MainLocks(s: Pool, t: Tid, mp: MainPC, ch: Choice, m: Move, l: Lock)
    requires MainMove(s, t, mp, ch) == Some(m)
    ensures LockFact(Main(mp), m, l)
  {
  }

  lemma WorkerLocks(s: Pool, t: Tid, wp: WorkerPC, ch: Choice, m: Move, l: Lock)
    requires WorkerMove(s, t, wp, ch) == Some(m)
    ensures LockFact(Worker(wp), m, l)
  {
  }

  lemma TaskLocks(s: Pool, j: Job, at: TaskPC, ch: Choice, m: Move, l: Lock)
    requires TaskMove(s, j, at, ch) == Some(m)
    ensures LockFact(Task(j, at), m, l)
  {
  }

  lemma EnqLocks(s: Pool, e: EnqPC, j: Job, site: Site, ch: Choice, m: Move, l: Lock)
    requires EnqMove(s, e, j, site, ch) == Some(m)
    ensures LockFact(Enq(e, j, site), m, l)
  {
  }

  lemma MoveLocks(s: Pool, t: Tid, pc: PC, ch: Choice, m: Move, l: Lock)
    requires Moves(s, t, pc, ch, m)
    ensures LockFact(pc, m, l)
  {
    match pc
    case Main(mp) => MainLocks(s, t, mp, ch, m, l);
    case Worker(wp) => WorkerLocks(s, t, wp, ch, m, l);
    case Task(j, at) => TaskLocks(s, j, at, ch, m, l);
    case Enq(e, j, site) => EnqLocks(s, e, j, site, ch, m, l);
  }

  lemma MoveRole(s: Pool, t: Tid, pc: PC, ch: Choice, m: Move)
    requires Moves(s, t, pc, ch, m)
    ensures MainPoint(pc) <==> MainPoint(m.next)
    ensures pc != Worker(Dead)
  {
  }

  function BusyBy(e: Effect): int {
    if e.BusyUp? then 1 else if e.BusyDown? || e.Death? || e.Finished? then -1 else 0
  }

  function AliveBy(e: Effect): int {
    if e.AliveUp? then 1 else if e.Death? then -1 else 0
  }

  /** The busy counter changes exactly where the thread enters or leaves the counted region,
      and only under its mutex. */
  predicate BusyFact(pc: PC, m: Move) {
    && Busy(m.next) == Busy(pc) + BusyBy(m.effect)
    && (BusyBy(m.effect) != 0 ==> Holds(pc, ThreadCount))
  }

  predicate AliveFact(pc: PC, m: Move) { Alive(m.next) == Alive(pc) + AliveBy(m.effect) }

  lemma MainBusy(s: Pool, t: Tid, mp: MainPC, ch: Choice, m: Move)
    requires MainMove(s, t, mp, ch) == Some(m)
    ensures BusyFact(Main(mp), m)
  {
  }

  lemma WorkerBusy(s: Pool, t: Tid, wp: WorkerPC, ch: Choice, m: Move)
    requires WorkerMove(s, t, wp, ch) == Some(m)
    ensures BusyFact(Worker(wp), m)
  {
  }

  lemma TaskBusy(s: Pool, j: Job, at: TaskPC, ch: Choice, m: Move)
    requires TaskMove(s, j, at, ch) == Some(m)
    ensures BusyFact(Task(j, at), m)
  {
  }

  lemma EnqBusy(s: Pool, e: EnqPC, j: Job, site: Site, ch: Choice, m: Move)
    requires EnqMove(s, e, j, site, ch) == Some(m)
    ensures BusyFact(Enq(e, j, site), m)
  {
  }

  lemma MoveBusy(s: Pool, t: Tid, pc: PC, ch: Choice, m: Move)
    requires Moves(s, t, pc, ch, m)
    ensures BusyFact(pc, m)
  {
    match pc
    case Main(mp) => MainBusy(s, t, mp, ch, m);
    case Worker(wp) => WorkerBusy(s, t, wp, ch, m);
    case Task(j, at) => TaskBusy(s, j, at, ch, m);
    case Enq(e, j, site) => EnqBusy(s, e, j, site, ch, m);
  }

  lemma MainAlive(s: Pool, t: Tid, mp: MainPC, ch: Choice, m: Move)
    requires MainMove(s, t, mp, ch) == Some(m)
    ensures AliveFact(Main(mp), m)
  {
  }

  lemma WorkerAlive(s: Pool, t: Tid, wp: WorkerPC, ch: Choice, m: Move)
    requires WorkerMove(s, t, wp, ch) == Some(m)
    ensures AliveFact(Worker(wp), m)
  {
  }

  lemma MoveAlive(s: Pool, t: Tid, pc: PC, ch: Choice, m: Move)
    requires Moves(s, t, pc, ch, m)
    ensures AliveFact(pc, m)
  {
    match pc
    case Main(mp) => MainAlive(s, t, mp, ch, m);
    case Worker(wp) => WorkerAlive(s, t, wp, ch, m);
    case Task(j, at) =>
    case Enq(e, j, site) =>
  }

  lemma MoveQueue(s: Pool, t: Tid, pc: PC, ch: Choice, m: Move)
    requires Moves(s, t, pc, ch, m)
    ensures m.effect.Push? <==> pc.Enq? && pc.step.EnqPush?
    ensures m.effect.Push? ==> m.effect.job == pc.job
    ensures m.effect.Pop? <==> pc == Worker(Take)
    ensures m.effect.Pop? ==>
              s.queue != [] && m.effect.job == s.queue[0] && m.next == Worker(Taken(s.queue[0]))
    ensures m.next == Worker(TestFlag) ==> pc.Worker? && (s.queue != [] || s.terminate)
    ensures m.next == Worker(Take) ==> pc == Worker(TestFlag) && !s.terminate
  {
  }

  lemma MoveWork(s: Pool, t: Tid, pc: PC, ch: Choice, m: Move)
    requires Moves(s, t, pc, ch, m)
    ensures Working(m.next) && !Working(pc) ==> pc == Worker(TestFlag) && !s.terminate
    ensures m.effect.Push? ==> Working(pc) || MainPoint(pc)
  {
  }

  lemma MoveWait(s: Pool, t: Tid, pc: PC, ch: Choice, m: Move)
    requires Moves(s, t, pc, ch, m)
    ensures m.next == Main(WaitSize) ==> s.busy == 0 && m.effect.NoEffect?
    ensures PastWait(m.next) ==> pc.Main? && !m.effect.Push?
    ensures PastWait(m.next) && !PastWait(pc) ==> pc == Main(WaitSize) && s.queue == []
  {
  }

  predicate JobFact(pc: PC, m: Move) {
    && (m.effect.Pop? ==> InFlight(pc) == None && InFlight(m.next) == Some(m.effect.job))
    && (m.effect.Finished? ==> InFlight(pc) == Some(m.effect.job) && InFlight(m.next) == None)
    && (!m.effect.Pop? && !m.effect.Finished? ==> InFlight(m.next) == InFlight(pc))
  }

  lemma WorkerJobs(s: Pool, t: Tid, wp: WorkerPC, ch: Choice, m: Move)
    requires WorkerMove(s, t, wp, ch) == Some(m)
    ensures JobFact(Worker(wp), m)
  {
  }

  lemma TaskJobs(s: Pool, j: Job, at: TaskPC, ch: Choice, m: Move)
    requires TaskMove(s, j, at, ch) == Some(m)
    ensures JobFact(Task(j, at), m)
  {
  }

  lemma EnqJobs(s: Pool, e: EnqPC, j: Job, site: Site, ch: Choice, m: Move)
    requires EnqMove(s, e, j, site, ch) == Some(m)
    ensures JobFact(Enq(e, j, site), m)
  {
  }

  lemma MoveJobs(s: Pool, t: Tid, pc: PC, ch: Choice, m: Move)
    requires Moves(s, t, pc, ch, m)
    ensures JobFact(pc, m)
  {
    match pc
    case Main(_) =>
    case Worker(wp) => WorkerJobs(s, t, wp, ch, m);
    case Task(j, at) => TaskJobs(s, j, at, ch, m);
    case Enq(e, j, site) => EnqJobs(s, e, j, site, ch, m);
  }

  function PendingBy(e: Effect, c: nat): int {
    if e.Sub? && e.conn == c then -1 else if e.Add? && e.conn == c then 1 else 0
  }

  function QueuedBy(e: Effect, c: nat): int {
    if e.Push? && e.job.conn == c then 1 else if e.Pop? && e.job.conn == c then -1 else 0
  }

  predicate PendingFact(pc: PC, m: Move, c: nat) {
    PendingBy(m.effect, c) == QueuedBy(m.effect, c)
      + Unsubtracted(c)(m.next) - Unsubtracted(c)(pc)
      - Unadded(c)(m.next) + Unadded(c)(pc)
  }

  lemma MainPending(s: Pool, t: Tid, mp: MainPC, ch: Choice, m: Move, c: nat)
    requires MainMove(s, t, mp, ch) == Some(m)
    ensures PendingFact(Main(mp), m, c)
  {
  }

  lemma WorkerPending(s: Pool, t: Tid, wp: WorkerPC, ch: Choice, m: Move, c: nat)
    requires WorkerMove(s, t, wp, ch) == Some(m)
    ensures PendingFact(Worker(wp), m, c)
  {
  }

  lemma TaskPending(s: Pool, j: Job, at: TaskPC, ch: Choice, m: Move, c: nat)
    requires TaskMove(s, j, at, ch) == Some(m)
    ensures PendingFact(Task(j, at), m, c)
  {
  }

  lemma EnqPending(s: Pool, e: EnqPC, j: Job, site: Site, ch: Choice, m: Move, c: nat)
    requires EnqMove(s, e, j, site, ch) == Some(m)
    ensures PendingFact(Enq(e, j, site), m, c)
  {
  }

  lemma MovePending(s: Pool, t: Tid, pc: PC, ch: Choice, m: Move, c: nat)
    requires Moves(s, t, pc, ch, m)
    ensures PendingFact(pc, m, c)
  {
    match pc
    case Main(mp) => MainPending(s, t, mp, ch, m, c);
    case Worker(wp) => WorkerPending(s, t, wp, ch, m, c);
    case Task(j, at) => TaskPending(s, j, at, ch, m, c);
    case Enq(e, j, site) => EnqPending(s, e, j, site, ch, m, c);
  }

  lemma MoveJoin(s: Pool, t: Tid, pc: PC, ch: Choice, m: Move)
    requires Moves(s, t, pc, ch, m) && 0 < |s.pcs|
    ensures var n := |s.pcs| - 1;
            forall u :: Joined(pc, n) < u <= Joined(m.next, n) ==> s.pcs[u] == Worker(Dead)
  {
  }

  // ---- one step --------------------------------------------------------------------------------

  /** Thread t makes move m from state s, and the result is s'. */
  ghost predicate Takes(s: Pool, t: Tid, ch: Choice, m: Move, s': Pool) {
    && t < |s.pcs|
    && Moves(s, t, s.pcs[t], ch, m)
    && Possible(s, m)
    && s' == Apply(s, t, m)
  }

  /** A mutex has one holder. */
  lemma Exclusive(s: Pool, t: Tid, u: Tid, l: Lock)
    requires Owners(s) && t < |s.pcs| && u < |s.pcs|
    requires Holds(s.pcs[t], l) && Holds(s.pcs[u], l)
    ensures t == u
  {
    hide Holds;
    assert OwnsAt(s, t, l) && OwnsAt(s, u, l);
  }

  lemma RolesStep(s: Pool, t: Tid, ch: Choice, m: Move, s': Pool)
    requires Takes(s, t, ch, m, s') && Roles(s)
    ensures Roles(s')
  {
    hide Program;
    MoveRole(s, t, s.pcs[t], ch, m);
  }

  lemma OwnersStep(s: Pool, t: Tid, ch: Choice, m: Move, s': Pool)
    requires Takes(s, t, ch, m, s') && Owners(s)
    ensures Owners(s')
  {
    hide Program;
    hide Holds;
    forall u: Tid, l | u < |s'.pcs| ensures OwnsAt(s', u, l) {
      MoveLocks(s, t, s.pcs[t], ch, m, l);
      assert OwnsAt(s, u, l) && OwnsAt(s, t, l);
    }
  }

  lemma CountersStep(s: Pool, t: Tid, ch: Choice, m: Move, s': Pool)
    requires Takes(s, t, ch, m, s') && Counters(s)
    ensures Counters(s')
  {
    hide Program;
    hide Busy, Alive, Holds;
    MoveBusy(s, t, s.pcs[t], ch, m);
    MoveAlive(s, t, s.pcs[t], ch, m);
    SumUpdate(Busy, s.pcs, t, m.next);
    SumUpdate(Alive, s.pcs, t, m.next);
  }

  lemma FrontStep(s: Pool, t: Tid, ch: Choice, m: Move, s': Pool)
    requires Takes(s, t, ch, m, s') && Owners(s) && FrontPresent(s)
    ensures FrontPresent(s')
  {
    hide Program;
    MoveQueue(s, t, s.pcs[t], ch, m);
    forall u | 0 <= u < |s'.pcs| ensures FrontAt(s', s'.pcs[u]) {
      assert FrontAt(s, s.pcs[u]);
      if u != t && m.effect.Pop? {
        if Holds(s.pcs[u], TaskQueue) {
          Exclusive(s, t, u, TaskQueue);
        }
      }
    }
  }

  /** With num_threads_busy at zero no worker is running or about to run a task. */
  lemma NotBusyNotWorking(s: Pool)
    requires Counters(s) && s.busy == 0
    ensures forall t :: 0 <= t < |s.pcs| ==> !Working(s.pcs[t])
  {
    forall t | 0 <= t < |s.pcs| ensures !Working(s.pcs[t]) {
      SumAtLeast(Busy, s.pcs, t);
    }
  }

  /** Once the pool is quiet, only the main thread can end the quiet. */
  lemma QuietStep(s: Pool, t: Tid, ch: Choice, m: Move, s': Pool)
    requires Takes(s, t, ch, m, s') && Roles(s) && FrontPresent(s) && Quiet(s)
    requires t == 0 ==> PastWait(m.next)
    ensures Quiet(s')
  {
    hide Program;
    MoveWork(s, t, s.pcs[t], ch, m);
    MoveWait(s, t, s.pcs[t], ch, m);
    MoveQueue(s, t, s.pcs[t], ch, m);
    assert FrontAt(s, s.pcs[t]) && !Working(s.pcs[t]);
    assert MainPoint(s.pcs[t]) <==> t == 0;
  }

  lemma QuiescenceStep(s: Pool, t: Tid, ch: Choice, m: Move, s': Pool)
    requires Takes(s, t, ch, m, s')
    requires Roles(s) && Owners(s) && Counters(s) && FrontPresent(s) && Quiescence(s)
    ensures 0 < |s'.pcs| && Quiescence(s')
  {
    hide Program;
    MoveWait(s, t, s.pcs[t], ch, m);
    MoveBusy(s, t, s.pcs[t], ch, m);
    if s'.pcs[0] == Main(WaitSize) && t != 0 && BusyBy(m.effect) != 0 {
      Exclusive(s, 0, t, ThreadCount);
    }
    if PastWait(s'.pcs[0]) {
      if !PastWait(s.pcs[0]) {
        NotBusyNotWorking(s);
      }
      QuietStep(s, t, ch, m, s');
    }
  }

  lemma JoinedStep(s: Pool, t: Tid, ch: Choice, m: Move, s': Pool)
    requires Takes(s, t, ch, m, s') && Roles(s) && JoinedDead(s)
    ensures 0 < |s'.pcs| && JoinedDead(s')
  {
    hide Program;
    MoveRole(s, t, s.pcs[t], ch, m);
    MoveJoin(s, t, s.pcs[t], ch, m);
  }

  lemma PerformFifo(s: Pool, e: Effect)
    requires Fifo(s) && (e.Pop? ==> s.queue != [] && e.job == s.queue[0])
    ensures Fifo(Perform(s, e))
  {
    if e.Pop? {
      assert s.queue == [s.queue[0]] + s.queue[1..];
    }
  }

  lemma FifoStep(s: Pool, t: Tid, ch: Choice, m: Move, s': Pool)
    requires Takes(s, t, ch, m, s') && Fifo(s)
    ensures Fifo(s')
  {
    hide Program, Perform;
    MoveQueue(s, t, s.pcs[t], ch, m);
    PerformFifo(s, m.effect);
  }

  function StartedBy(e: Effect, j: Job): int { if e.Pop? && e.job == j then 1 else 0 }

  function FinishedBy(e: Effect, j: Job): int { if e.Finished? && e.job == j then 1 else 0 }

  lemma PerformHistory(s: Pool, e: Effect, j: Job)
    ensures multiset(Perform(s, e).started)[j] == multiset(s.started)[j] + StartedBy(e, j)
    ensures Perform(s, e).finished[j] == s.finished[j] + FinishedBy(e, j)
  {
  }

  lemma FateStep(s: Pool, t: Tid, ch: Choice, m: Move, s': Pool, j: Job)
    requires Takes(s, t, ch, m, s') && JobFate(s, j)
    ensures JobFate(s', j)
  {
    hide Program, InFlight, Perform;
    MoveJobs(s, t, s.pcs[t], ch, m);
    PerformHistory(s, m.effect, j);
    SumUpdate(Flying(j), s.pcs, t, m.next);
  }

  lemma {:induction false} QueuedAppend(q: seq<Job>, j: Job, c: nat)
    ensures Queued(q + [j], c) == Queued(q, c) + (if j.conn == c then 1 else 0)
  {
    if q == [] {
      assert q + [j] == [j];
    } else {
      assert (q + [j])[1..] == q[1..] + [j];
      QueuedAppend(q[1..], j, c);
    }
  }

  lemma ApplyJobs(s: Pool, t: Tid, m: Move, c: nat)
    requires t < |s.pcs|
    requires m.effect.Pop? ==> s.queue != [] && m.effect.job == s.queue[0]
    ensures Queued(Apply(s, t, m).queue, c) == Queued(s.queue, c) + QueuedBy(m.effect, c)
    ensures Pending(Apply(s, t, m), c) == Pending(s, c) + PendingBy(m.effect, c)
  {
    if m.effect.Push? {
      QueuedAppend(s.queue, m.effect.job, c);
    }
  }

  lemma JobCountStep(s: Pool, t: Tid, ch: Choice, m: Move, s': Pool, c: nat)
    requires Takes(s, t, ch, m, s') && JobCount(s, c)
    ensures JobCount(s', c)
  {
    hide Program, Perform, Queued, Pending, Unsubtracted, Unadded;
    MovePending(s, t, s.pcs[t], ch, m, c);
    MoveQueue(s, t, s.pcs[t], ch, m);
    ApplyJobs(s, t, m, c);
    SumUpdate(Unsubtracted(c), s.pcs, t, m.next);
    SumUpdate(Unadded(c), s.pcs, t, m.next);
  }

  /** Every step of every thread keeps the invariant. */
  lemma StepInv(s: Pool, t: Tid, ch: Choice, s': Pool)
    requires Inv(s) && Step(s, t, ch) == Some(s')
    ensures Inv(s')
  {
    var m := Program(s, t, s.pcs[t], ch).value;
    RolesStep(s, t, ch, m, s');
    OwnersStep(s, t, ch, m, s');
    CountersStep(s, t, ch, m, s');
    FrontStep(s, t, ch, m, s');
    QuiescenceStep(s, t, ch, m, s');
    JoinedStep(s, t, ch, m, s');
    FifoStep(s, t, ch, m, s');
    forall j ensures JobFate(s', j) {
      FateStep(s, t, ch, m, s', j);
    }
    forall c ensures JobCount(s', c) {
      JobCountStep(s, t, ch, m, s', c);
    }
  }

  lemma {:induction false} RunInv(s: Pool, schedule: seq<(Tid, Choice)>, s': Pool)
    requires Inv(s) && Run(s, schedule) == Some(s')
    ensures Inv(s')
    decreases |schedule|
  {
    if schedule == [] {
    } else {
      var s1 := Step(s, schedule[0].0, schedule[0].1).value;
      StepInv(s, schedule[0].0, schedule[0].1, s1);
      RunInv(s1, schedule[1..], s');
    }
  }
}
