/** What becomes of a task that does not get its connection, and of the queue once termination has
    been requested. */
module PoolTasks {
  import opened Basics
  import opened Sums
  import opened Pool
  import opened PoolInvariant
  import opened PoolTheorems
  import opened PoolRest

  // ---- a task and its connection's mutex -------------------------------------------------------

  /** The state in which t is at another program point and nothing else has changed. */
  function At(s: Pool, t: Tid, pc: PC): Pool
    requires t < |s.pcs|
  {
    s.(pcs := s.pcs[t := pc])
  }

  /** The step that takes a free mutex and goes on to pc. */
  function Locking(s: Pool, t: Tid, l: Lock, pc: PC): Option<Pool>
    requires t < |s.pcs|
  {
    if l in s.owner then None else Some(At(s, t, pc).(owner := s.owner[l := t]))
  }

  /** The step that gives a mutex back and goes on to pc. */
  function Unlocking(s: Pool, t: Tid, l: Lock, pc: PC): Option<Pool>
    requires t < |s.pcs|
  {
    Some(At(s, t, pc).(owner := s.owner - {l}))
  }

  /** A task begins by lowering its connection's job counter, and then tries its mutex. */
  lemma BeginEffect(s: Pool, t: Tid, j: Job, ch: Choice)
    requires t < |s.pcs| && s.pcs[t] == Task(j, Subtract)
    ensures Step(s, t, ch)
         == Some(At(s, t, Task(j, TryConn)).(pending := s.pending[j.conn := Pending(s, j.conn) - 1]))
  {
  }

  /** A thread asleep in pthread_cond_wait moves only by waking without a signal, and always can;
      awake, it waits for the mutex it gave up. */
  lemma SleepEffect(s: Pool, t: Tid, ch: Choice)
    requires t < |s.pcs|
    requires s.pcs[t] == Main(WaitAsleep) || s.pcs[t] == Worker(Asleep)
    ensures var (l, pc) := if s.pcs[t].Main? then (ThreadCount, Main(WaitBusy)) else (TaskQueue, Worker(ReLock));
            Step(s, t, ch) == if t !in s.asleep then Locking(s, t, l, pc)
                              else if ch.Spurious? then Some(s.(asleep := s.asleep - {t}))
                              else None
  {
    assert s.pcs[t := s.pcs[t]] == s.pcs;
  }

  /** A connection's mutex is tried once: a task that finds it free goes on with it, one that does
      not is to be requeued, and neither waits. */
  lemma TryEffect(s: Pool, t: Tid, j: Job, ch: Choice)
    requires t < |s.pcs| && s.pcs[t] == Task(j, TryConn)
    ensures Step(s, t, ch) == Some(
              if ConnLock(j.conn) in s.owner then At(s, t, Task(j, Requeue))
              else At(s, t, Task(j, Body)).(owner := s.owner[ConnLock(j.conn) := t]))
  {
  }

  /** A task gives its connection's mutex back exactly as it ends, is to be requeued, or retires
      its connection; otherwise it goes on to the list or to an enqueue with the mutex held. */
  lemma BodyEffect(s: Pool, t: Tid, j: Job, ch: Choice)
    requires t < |s.pcs| && s.pcs[t] == Task(j, Body)
    ensures var owner := s.owner - {ConnLock(j.conn)};
            Step(s, t, ch) ==
            match ch
            case Done => Some(At(s, t, Task(j, WantCount)).(owner := owner))
            case Again => Some(At(s, t, Task(j, Requeue)).(owner := owner))
            case Retire => Some(At(s, t, Task(j, WantDestroy)).(owner := owner))
            case UseList => Some(At(s, t, Task(j, WantList)))
            case Submit(k) => Some(At(s, t, Enq(EnqLock, k, TaskBody(j))))
            case _ => None
  {
  }

  /** A broadcast's walk over the connection list: it waits for the list's mutex, enqueues as it
      goes, and gives the mutex back when it ends. */
  lemma WalkEffect(s: Pool, t: Tid, j: Job, ch: Choice)
    requires t < |s.pcs|
    ensures s.pcs[t] == Task(j, WantList) ==> Step(s, t, ch) == Locking(s, t, ConnList, Task(j, HoldList))
    ensures s.pcs[t] == Task(j, HoldList) ==>
              Step(s, t, ch) == if ch.Submit? then Some(At(s, t, Enq(EnqLock, ch.job, TaskList(j))))
                                else Unlocking(s, t, ConnList, Task(j, Body))
  {
  }

  /** The audit's walk. */
  lemma AuditWalkEffect(s: Pool, t: Tid, ch: Choice)
    requires t < |s.pcs|
    ensures s.pcs[t] == Main(AuditLock) ==> Step(s, t, ch) == Locking(s, t, ConnList, Main(Auditing))
    ensures s.pcs[t] == Main(Auditing) ==>
              Step(s, t, ch) == if ch.Submit? then Some(At(s, t, Enq(EnqLock, ch.job, AuditLoop)))
                                else Unlocking(s, t, ConnList, Main(Loop))
  {
  }

  /** Retiring a connection takes the list's mutex for one step. */
  lemma RetireEffect(s: Pool, t: Tid, j: Job, ch: Choice)
    requires t < |s.pcs|
    ensures s.pcs[t] == Task(j, WantDestroy) ==> Step(s, t, ch) == Locking(s, t, ConnList, Task(j, Destroying))
    ensures s.pcs[t] == Task(j, Destroying) ==> Step(s, t, ch) == Unlocking(s, t, ConnList, Task(j, WantCount))
  {
  }

  /** So does accepting one. */
  lemma AcceptEffect(s: Pool, t: Tid, ch: Choice)
    requires t < |s.pcs|
    ensures s.pcs[t] == Main(AcceptLock) ==> Step(s, t, ch) == Locking(s, t, ConnList, Main(Accepting))
    ensures s.pcs[t] == Main(Accepting) ==> Step(s, t, ch) == Unlocking(s, t, ConnList, Main(Loop))
  {
  }

  /** What the event loop can turn to. */
  lemma LoopEffect(s: Pool, t: Tid, ch: Choice)
    requires t < |s.pcs| && s.pcs[t] == Main(Loop)
    ensures Step(s, t, ch) ==
            match ch
            case Accept => Some(At(s, t, Main(AcceptLock)))
            case Submit(j) => Some(At(s, t, Enq(EnqLock, j, EventLoop)))
            case Audit => Some(At(s, t, Main(AuditLock)))
            case Wait => Some(At(s, t, Main(WaitLock)))
            case Destroy => Some(At(s, t, Main(SetTerminate(false))))
            case _ => None
  {
  }

  /** Where a call of rplib_tpool_enqueue_task was made is where it returns to, with the job counted:
      the event loop, a walk over the list, a task's body, or the end of a requeued task. */
  lemma ReturnEffect(s: Pool, t: Tid, j: Job, site: Site, ch: Choice)
    requires t < |s.pcs| && s.pcs[t] == Enq(EnqAdd, j, site)
    ensures var back := match site
                        case EventLoop => Main(Loop)
                        case AuditLoop => Main(Auditing)
                        case TaskBody(k) => Task(k, Body)
                        case TaskList(k) => Task(k, HoldList)
                        case TaskRequeue(k) => Task(k, WantCount);
            Step(s, t, ch) == Some(At(s, t, back).(pending := s.pending[j.conn := Pending(s, j.conn) + 1]))
  {
  }

  /** After rplib_tpool_wait the main thread goes on to the rest of a graceful destruction, or back
      to what it was doing. */
  lemma WaitedEffect(s: Pool, t: Tid, ch: Choice)
    requires t < |s.pcs| && s.pcs[t] == Main(WaitReturned)
    ensures Step(s, t, ch) == Some(At(s, t, if ch.Destroy? then Main(SetTerminate(true)) else Main(Loop)))
  {
  }

  // ---- events of a run -------------------------------------------------------------------------

  /** Step k of the run is t's and takes it from a to b. */
  ghost predicate TakesAt(s: Pool, q: Schedule, k: nat, t: Tid, a: Pool, b: Pool) {
    k < |q| && q[k].0 == t && Run(s, q[..k]) == Some(a) && Step(a, t, q[k].1) == Some(b)
  }

  /** Step k enqueues j, on behalf of t. */
  ghost predicate Pushes(s: Pool, q: Schedule, k: nat, t: Tid, j: Job) {
    exists a, b :: TakesAt(s, q, k, t, a, b) && b.enqueued == a.enqueued + [j] && b.queue == a.queue + [j]
  }

  /** Step k counts a job on connection c. */
  ghost predicate Counts(s: Pool, q: Schedule, k: nat, t: Tid, c: nat) {
    exists a, b :: TakesAt(s, q, k, t, a, b) && Pending(b, c) == Pending(a, c) + 1
  }

  /** Step k finishes j. */
  ghost predicate Finishes(s: Pool, q: Schedule, k: nat, t: Tid, j: Job) {
    exists a, b :: TakesAt(s, q, k, t, a, b) && b.finished == a.finished + multiset{j}
  }

  /** The events of a run are those of what follows its first step, one later. */
  lemma Later(s: Pool, q: Schedule, s1: Pool, k: nat, t: Tid, a: Pool, b: Pool)
    requires q != [] && Step(s, q[0].0, q[0].1) == Some(s1)
    ensures TakesAt(s1, q[1..], k, t, a, b) <==> TakesAt(s, q, k + 1, t, a, b)
  {
    hide Step;
    if k < |q| - 1 {
      assert q[..k + 1][1..] == q[1..][..k];
    }
  }

  lemma First(s: Pool, q: Schedule, s1: Pool)
    requires q != [] && Step(s, q[0].0, q[0].1) == Some(s1)
    ensures TakesAt(s, q, 0, q[0].0, s, s1)
  {
    assert q[..0] == [];
  }

  // ---- requeueing ------------------------------------------------------------------------------

  /** A step that is not t's leaves t where it is. */
  lemma Elsewhere(s: Pool, u: Tid, ch: Choice, s1: Pool, t: Tid)
    requires Step(s, u, ch) == Some(s1) && t != u && t < |s.pcs|
    ensures s1.pcs[t] == s.pcs[t] && (s.terminate ==> s1.terminate)
  {
  }

  lemma PushesLater(s: Pool, q: Schedule, s1: Pool, k: nat, t: Tid, j: Job)
    requires q != [] && Step(s, q[0].0, q[0].1) == Some(s1) && Pushes(s1, q[1..], k, t, j)
    ensures Pushes(s, q, k + 1, t, j)
  {
    hide Step;
    var a, b :| TakesAt(s1, q[1..], k, t, a, b) && b.enqueued == a.enqueued + [j] && b.queue == a.queue + [j];
    Later(s, q, s1, k, t, a, b);
  }

  lemma CountsLater(s: Pool, q: Schedule, s1: Pool, k: nat, t: Tid, c: nat)
    requires q != [] && Step(s, q[0].0, q[0].1) == Some(s1) && Counts(s1, q[1..], k, t, c)
    ensures Counts(s, q, k + 1, t, c)
  {
    hide Step;
    var a, b :| TakesAt(s1, q[1..], k, t, a, b) && Pending(b, c) == Pending(a, c) + 1;
    Later(s, q, s1, k, t, a, b);
  }

  lemma FinishesLater(s: Pool, q: Schedule, s1: Pool, k: nat, t: Tid, j: Job)
    requires q != [] && Step(s, q[0].0, q[0].1) == Some(s1) && Finishes(s1, q[1..], k, t, j)
    ensures Finishes(s, q, k + 1, t, j)
  {
    hide Step;
    var a, b :| TakesAt(s1, q[1..], k, t, a, b) && b.finished == a.finished + multiset{j};
    Later(s, q, s1, k, t, a, b);
  }

  /** One step of an enqueue. */
  lemma EnqueueStep(s: Pool, t: Tid, e: EnqPC, j: Job, site: Site, ch: Choice, s1: Pool)
    requires t < |s.pcs| && s.pcs[t] == Enq(e, j, site) && Step(s, t, ch) == Some(s1)
    ensures e.EnqLock? ==> s1.pcs[t] == Enq(EnqPush, j, site)
    ensures e.EnqPush? ==>
              && s1.pcs[t] == Enq(EnqSignal, j, site)
              && s1.enqueued == s.enqueued + [j] && s1.queue == s.queue + [j]
    ensures e.EnqSignal? ==> s1.pcs[t] == Enq(EnqAdd, j, site)
    ensures e.EnqAdd? ==> Pending(s1, j.conn) == Pending(s, j.conn) + 1
  {
  }

  /** From the signal to the count. */
  lemma {:induction false} CountPhase(s: Pool, t: Tid, e: EnqPC, j: Job, site: Site, q: Schedule, s': Pool)
    returns (k: nat)
    requires t < |s.pcs| && s.pcs[t] == Enq(e, j, site) && (e.EnqSignal? || e.EnqAdd?)
    requires Run(s, q) == Some(s') && !s'.pcs[t].Enq?
    ensures Counts(s, q, k, t, j.conn)
    decreases |q|
  {
    hide Step, Pending;
    var s1 := Step(s, q[0].0, q[0].1).value;
    var e' := e;
    if q[0].0 == t {
      EnqueueStep(s, t, e, j, site, q[0].1, s1);
      e' := EnqAdd;
    } else {
      Elsewhere(s, q[0].0, q[0].1, s1, t);
    }
    if q[0].0 == t && e.EnqAdd? {
      First(s, q, s1);
      k := 0;
    } else {
      k := CountPhase(s1, t, e', j, site, q[1..], s');
      CountsLater(s, q, s1, k, t, j.conn);
      k := k + 1;
    }
  }

  /** From the call of the enqueue to its end. */
  lemma {:induction false} PushPhase(s: Pool, t: Tid, e: EnqPC, j: Job, site: Site, q: Schedule, s': Pool)
    returns (k: nat, l: nat)
    requires t < |s.pcs| && s.pcs[t] == Enq(e, j, site) && (e.EnqLock? || e.EnqPush?)
    requires Run(s, q) == Some(s') && !s'.pcs[t].Enq?
    ensures k < l && Pushes(s, q, k, t, j) && Counts(s, q, l, t, j.conn)
    decreases |q|
  {
    hide Step, Pending;
    var s1 := Step(s, q[0].0, q[0].1).value;
    var e' := e;
    if q[0].0 == t {
      EnqueueStep(s, t, e, j, site, q[0].1, s1);
      e' := if e.EnqLock? then EnqPush else EnqSignal;
    } else {
      Elsewhere(s, q[0].0, q[0].1, s1, t);
    }
    if q[0].0 == t && e.EnqPush? {
      First(s, q, s1);
      k := 0;
      l := CountPhase(s1, t, e', j, site, q[1..], s');
    } else {
      k, l := PushPhase(s1, t, e', j, site, q[1..], s');
      PushesLater(s, q, s1, k, t, j);
      k := k + 1;
    }
    CountsLater(s, q, s1, l, t, j.conn);
    l := l + 1;
  }

  /** Every call of rplib_tpool_enqueue_task and the count that follows it: once a thread has begun
      one and come out of it, it has enqueued the job and then counted it on its connection. */
  lemma EnqueueCompletes(s: Pool, t: Tid, j: Job, site: Site, q: Schedule, s': Pool)
    requires t < |s.pcs| && s.pcs[t] == Enq(EnqLock, j, site) && Run(s, q) == Some(s') && !s'.pcs[t].Enq?
    ensures exists k: nat, l: nat :: k < l && Pushes(s, q, k, t, j) && Counts(s, q, l, t, j.conn)
  {
    var k, l := PushPhase(s, t, EnqLock, j, site, q, s');
  }

  lemma RequeueEffect(s: Pool, t: Tid, j: Job, ch: Choice)
    requires t < |s.pcs| && s.pcs[t] == Task(j, Requeue)
    ensures Step(s, t, ch)
         == Some(At(s, t, if s.terminate then Task(j, WantCount) else Enq(EnqLock, j, TaskRequeue(j))))
  {
  }

  /** A task that is to be requeued, and whose worker looks at the terminate flag before it is set,
      is enqueued again and then counted on its connection, before the worker is done with it. */
  lemma RequeuedUnlessTerminating(s: Pool, t: Tid, j: Job, q: Schedule, s': Pool)
    requires t < |s.pcs| && s.pcs[t] == Task(j, Requeue) && !s.terminate
    requires q != [] && q[0].0 == t && Run(s, q) == Some(s') && s'.pcs[t] == Task(j, WantCount)
    ensures exists k: nat, l: nat :: k < l && Pushes(s, q, k, t, j) && Counts(s, q, l, t, j.conn)
  {
    hide Step, Pushes, Counts;
    var s1 := Step(s, t, q[0].1).value;
    RequeueEffect(s, t, j, q[0].1);
    var k, l := PushPhase(s1, t, EnqLock, j, TaskRequeue(j), q[1..], s');
    PushesLater(s, q, s1, k, t, j);
    CountsLater(s, q, s1, l, t, j.conn);
    assert k + 1 < l + 1;
  }

  /** The task has nothing left to do but to be counted as finished. */
  predicate Leaving(s: Pool, pc: PC, j: Job) {
    (pc == Task(j, Requeue) && s.terminate) || pc == Task(j, WantCount) || pc == Task(j, Finish)
  }

  /** Whatever t enqueues, it has finished j before. */
  lemma {:induction false} FinishedFirst(s: Pool, t: Tid, j: Job, q: Schedule, k: nat, x: Job) returns (m: nat)
    requires t < |s.pcs| && Leaving(s, s.pcs[t], j) && Pushes(s, q, k, t, x)
    ensures m < k && Finishes(s, q, m, t, j)
    decreases |q|
  {
    var a, b :| TakesAt(s, q, k, t, a, b) && b.enqueued == a.enqueued + [x] && b.queue == a.queue + [x];
    if k == 0 {
      assert q[..0] == [];
      NoPush(s, t, j, q[0].1, b);
      assert false;
    } else {
      assert q[..k][0] == q[0];
      var s1 := Step(s, q[0].0, q[0].1).value;
      First(s, q, s1);
      Later(s, q, s1, k - 1, t, a, b);
      m := 0;
      if q[0].0 == t {
        LeavingStep(s, t, j, q[0].1, s1);
      } else {
        Elsewhere(s, q[0].0, q[0].1, s1, t);
      }
      hide Step;
      if q[0].0 != t || s.pcs[t] != Task(j, Finish) {
        m := FinishedFirst(s1, t, j, q[1..], k - 1, x);
        FinishesLater(s, q, s1, m, t, j);
        m := m + 1;
      }
    }
  }

  lemma LeavingStep(s: Pool, t: Tid, j: Job, ch: Choice, s1: Pool)
    requires t < |s.pcs| && Leaving(s, s.pcs[t], j) && Step(s, t, ch) == Some(s1)
    ensures s.pcs[t] != Task(j, Finish) ==> Leaving(s1, s1.pcs[t], j)
    ensures s.pcs[t] == Task(j, Finish) ==> s1.finished == s.finished + multiset{j}
    ensures s1.enqueued == s.enqueued
  {
  }

  lemma NoPush(s: Pool, t: Tid, j: Job, ch: Choice, s1: Pool)
    requires t < |s.pcs| && Leaving(s, s.pcs[t], j) && Step(s, t, ch) == Some(s1)
    ensures |s1.enqueued| == |s.enqueued|
  {
    LeavingStep(s, t, j, ch, s1);
  }

  /** A task that is to be requeued once termination has been requested is not: its worker enqueues
      nothing before it has finished the task. */
  lemma DroppedWhenTerminating(s: Pool, t: Tid, j: Job, q: Schedule, k: nat, x: Job)
    requires t < |s.pcs| && s.pcs[t] == Task(j, Requeue) && s.terminate && Pushes(s, q, k, t, x)
    ensures exists m: nat :: m < k && Finishes(s, q, m, t, j)
  {
    var m := FinishedFirst(s, t, j, q, k, x);
  }

  // ---- no new tasks after termination ----------------------------------------------------------

  /** 1 for the worker that is past its look at the flag and about to take a task. */
  function Taking(pc: PC): int { if pc == Worker(Take) then 1 else 0 }

  lemma MoveTaking(s: Pool, t: Tid, pc: PC, ch: Choice, m: Move)
    requires Moves(s, t, pc, ch, m)
    ensures s.terminate ==> Taking(m.next) == 0
    ensures m.effect.Pop? <==> pc == Worker(Take)
  {
    hide Program;
    MoveQueue(s, t, pc, ch, m);
    TakeLeaves(s, t, pc, ch, m);
  }

  lemma TakeLeaves(s: Pool, t: Tid, pc: PC, ch: Choice, m: Move)
    requires Moves(s, t, pc, ch, m)
    ensures pc == Worker(Take) ==> m.next != Worker(Take)
  {
  }

  lemma TakingStep(s: Pool, t: Tid, ch: Choice, m: Move, s': Pool)
    requires Takes(s, t, ch, m, s') && s.terminate
    ensures s'.terminate && |s'.started| + Sum(Taking, s'.pcs) <= |s.started| + Sum(Taking, s.pcs)
  {
    hide Program;
    MoveTaking(s, t, s.pcs[t], ch, m);
    SumUpdate(Taking, s.pcs, t, m.next);
  }

  lemma {:induction false} TakingRun(s: Pool, q: Schedule, s': Pool)
    requires s.terminate && Run(s, q) == Some(s')
    ensures |s'.started| + Sum(Taking, s'.pcs) <= |s.started| + Sum(Taking, s.pcs)
    decreases |q|
  {
    hide Program, Apply;
    if q == [] {
    } else {
      var t, ch := q[0].0, q[0].1;
      var m := Program(s, t, s.pcs[t], ch).value;
      var s1 := Step(s, t, ch).value;
      TakingStep(s, t, ch, m, s1);
      TakingRun(s1, q[1..], s');
    }
  }

  /** At most one worker is at the dequeue: it holds the queue's mutex. */
  lemma OneTakes(s: Pool)
    requires Owners(s)
    ensures 0 <= Sum(Taking, s.pcs) <= 1
    ensures (forall t :: 0 <= t < |s.pcs| ==> s.pcs[t] != Worker(Take)) ==> Sum(Taking, s.pcs) == 0
  {
    SumNonNegative(Taking, s.pcs);
    if t: Tid :| t < |s.pcs| && s.pcs[t] == Worker(Take) {
      var rest := s.pcs[t := Worker(Dead)];
      SumUpdate(Taking, s.pcs, t, Worker(Dead));
      forall u | 0 <= u < |rest| ensures Taking(rest[u]) == 0 {
        if u != t && s.pcs[u] == Worker(Take) {
          Exclusive(s, t, u, TaskQueue);
        }
      }
      SumZero(Taking, rest);
    } else {
      SumZero(Taking, s.pcs);
    }
  }

  /** Once termination has been requested at most one more task is started in the rest of the run,
      and none if no worker was about to take one. */
  lemma TerminationStopsStarts(workers: nat, schedule: Schedule, s: Pool, q: Schedule, s': Pool)
    requires Reaches(workers, schedule, s) && s.terminate && Run(s, q) == Some(s')
    ensures |s'.started| <= |s.started| + 1
    ensures (forall t :: 0 <= t < |s.pcs| ==> s.pcs[t] != Worker(Take)) ==> |s'.started| <= |s.started|
  {
    ReachableInv(workers, schedule, s);
    RunInv(s, q, s');
    TakingRun(s, q, s');
    OneTakes(s);
    OneTakes(s');
  }
}
