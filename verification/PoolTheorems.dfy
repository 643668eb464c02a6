/** What holds in every run of the pool, for any number of workers and any interleaving. */
module PoolTheorems {
  import opened Basics
  import opened Sums
  import opened Pool
  import opened PoolInvariant

  /** s is reachable from a fresh pool with the given number of workers. */
  ghost predicate Reaches(workers: nat, schedule: seq<(Tid, Choice)>, s: Pool) {
    Run(Init(workers), schedule) == Some(s)
  }

  lemma ReachableInv(workers: nat, schedule: seq<(Tid, Choice)>, s: Pool)
    requires Reaches(workers, schedule, s)
    ensures Inv(s)
  {
    InitInv(workers);
    RunInv(Init(workers), schedule, s);
  }

  // ---- quiescence and shutdown -----------------------------------------------------------------

  /** When no worker is working, everything that was started has finished. */
  lemma NothingInFlight(s: Pool)
    requires forall j :: JobFate(s, j)
    requires Roles(s)
    requires forall t :: 0 <= t < |s.pcs| ==> !Working(s.pcs[t])
    ensures s.finished == multiset(s.started)
  {
    forall j: Job ensures s.finished[j] == multiset(s.started)[j] {
      assert JobFate(s, j);
      SumZero(Flying(j), s.pcs);
    }
  }

  /** When rplib_tpool_wait returns, the queue is empty, no worker is running or about to
      run a task, and every task ever enqueued was started once, in order, and finished. */
  lemma WaitReturnsQuiet(workers: nat, schedule: seq<(Tid, Choice)>, s: Pool)
    requires Reaches(workers, schedule, s) && s.pcs[0] == Main(WaitReturned)
    ensures s.queue == [] && s.started == s.enqueued && s.finished == multiset(s.enqueued)
    ensures forall t :: 1 <= t < |s.pcs| ==> !Working(s.pcs[t]) && InFlight(s.pcs[t]) == None
  {
    ReachableInv(workers, schedule, s);
    NothingInFlight(s);
    forall t | 1 <= t < |s.pcs| ensures InFlight(s.pcs[t]) == None {
      assert !Working(s.pcs[t]) && !MainPoint(s.pcs[t]);
    }
  }

  /** Whatever the workers do by themselves after that, no task is started any more. */
  lemma {:induction false} QuietIsStable(s: Pool, schedule: seq<(Tid, Choice)>, s': Pool)
    requires Inv(s) && Quiet(s)
    requires forall i :: 0 <= i < |schedule| ==> schedule[i].0 != 0
    requires Run(s, schedule) == Some(s')
    ensures Quiet(s') && s'.enqueued == s.enqueued && s'.started == s.started && s'.finished == s.finished
    decreases |schedule|
  {
    if schedule == [] {
    } else {
      var t, ch := schedule[0].0, schedule[0].1;
      var m := Program(s, t, s.pcs[t], ch).value;
      var s1 := Step(s, t, ch).value;
      StepInv(s, t, ch, s1);
      QuietStep(s, t, ch, m, s1);
      QuietHistory(s, t, ch, m, s1);
      assert forall i :: 0 <= i < |schedule[1..]| ==> schedule[1..][i] == schedule[i + 1];
      QuietIsStable(s1, schedule[1..], s');
    }
  }

  lemma QuietHistory(s: Pool, t: Tid, ch: Choice, m: Move, s': Pool)
    requires Takes(s, t, ch, m, s') && Roles(s) && Quiet(s) && t != 0
    ensures s'.enqueued == s.enqueued && s'.started == s.started && s'.finished == s.finished
  {
    hide Program, InFlight;
    MoveWork(s, t, s.pcs[t], ch, m);
    MoveQueue(s, t, s.pcs[t], ch, m);
    MoveJobs(s, t, s.pcs[t], ch, m);
    FinishedFrom(s, t, s.pcs[t], ch, m);
    assert !Working(s.pcs[t]) && !MainPoint(s.pcs[t]);
  }

  lemma FinishedFrom(s: Pool, t: Tid, pc: PC, ch: Choice, m: Move)
    requires Moves(s, t, pc, ch, m)
    ensures m.effect.Finished? ==> pc.Task?
  {
  }

  /** rplib_tpool_destroy loses nothing: once it returns, every worker is gone, every task
      that was started has finished, tasks were started in the order they were enqueued,
      and the tasks never started are exactly those left in the queue.  After a graceful
      shutdown none is left. */
  lemma DestroyLosesNothing(workers: nat, schedule: seq<(Tid, Choice)>, s: Pool, graceful: bool)
    requires Reaches(workers, schedule, s) && s.pcs[0] == Main(Destroyed(graceful))
    ensures s.enqueued == s.started + s.queue && s.finished == multiset(s.started)
    ensures graceful ==> s.queue == [] && s.started == s.enqueued && s.finished == multiset(s.enqueued)
    ensures s.busy == 0 && s.alive == 0
    ensures forall t :: 1 <= t < |s.pcs| ==> s.pcs[t] == Worker(Dead)
  {
    ReachableInv(workers, schedule, s);
    assert forall t :: 1 <= t < |s.pcs| ==> s.pcs[t] == Worker(Dead);
    NothingInFlight(s);
    SumZero(Busy, s.pcs);
    SumZero(Alive, s.pcs);
  }

  // ---- counters --------------------------------------------------------------------------------

  /** The counters equal the number of workers in the corresponding regions of the code:
      they never wrap below zero and never exceed the number of workers. */
  lemma CountersExact(workers: nat, schedule: seq<(Tid, Choice)>, s: Pool)
    requires Reaches(workers, schedule, s)
    ensures s.busy == Sum(Busy, s.pcs[1..]) && s.alive == Sum(Alive, s.pcs[1..])
    ensures 0 <= s.busy <= s.alive <= workers
  {
    ReachableInv(workers, schedule, s);
    assert MainPoint(s.pcs[0]);
    SumNonNegative(Busy, s.pcs[1..]);
    SumMonotone(Busy, Alive, s.pcs[1..]);
    SumRange(Alive, s.pcs[1..]);
  }

  /** A worker that reaches the dequeue finds a node at the front, although it has read the
      terminate flag twice and the queue size only before the first of the two reads. */
  lemma DequeueFindsTask(workers: nat, schedule: seq<(Tid, Choice)>, s: Pool, t: Tid)
    requires Reaches(workers, schedule, s) && t < |s.pcs| && s.pcs[t] == Worker(Take)
    ensures s.queue != [] && Step(s, t, Go).Some?
  {
    ReachableInv(workers, schedule, s);
    assert FrontAt(s, s.pcs[t]);
  }

  // ---- pending_jobs ----------------------------------------------------------------------------

  /** pending_jobs of a connection is the number of its queued tasks, plus those dequeued
      and not yet subtracted, minus those enqueued and not yet added; so it is negative
      by at most the number of enqueuers in flight, and exact when nobody is in between. */
  lemma JobCounterConserved(workers: nat, schedule: seq<(Tid, Choice)>, s: Pool, c: nat)
    requires Reaches(workers, schedule, s)
    ensures Pending(s, c) == Queued(s.queue, c) + Sum(Unsubtracted(c), s.pcs) - Sum(Unadded(c), s.pcs)
    ensures -Sum(Unadded(c), s.pcs) <= Pending(s, c)
    ensures Pending(s, c) == Queued(s.queue, c) <==> Sum(Unsubtracted(c), s.pcs) == Sum(Unadded(c), s.pcs)
    ensures (forall t :: 0 <= t < |s.pcs| ==>
               Unsubtracted(c)(s.pcs[t]) == 0 && Unadded(c)(s.pcs[t]) == 0)
            ==> Pending(s, c) == Queued(s.queue, c)
  {
    ReachableInv(workers, schedule, s);
    assert JobCount(s, c);
    SumNonNegative(Unsubtracted(c), s.pcs);
    if forall t :: 0 <= t < |s.pcs| ==> Unsubtracted(c)(s.pcs[t]) == 0 && Unadded(c)(s.pcs[t]) == 0 {
      SumZero(Unsubtracted(c), s.pcs);
      SumZero(Unadded(c), s.pcs);
    }
  }

  /** Without that proviso the counter can read zero while a task is queued: it is raised
      only after the enqueue, outside the queue's mutex. */
  lemma CounterLagsQueue(j: Job)
    ensures exists schedule, s :: Reaches(1, schedule, s) && j in s.queue && Pending(s, j.conn) == 0
  {
    var s0 := Init(1);
    var s1 := Step(s0, 0, Submit(j)).value;
    var s2 := Step(s1, 0, Go).value;
    var s3 := Step(s2, 0, Go).value;
    assert s3.queue == [j] && s3.pending == map[];
    var go: seq<(Tid, Choice)> := [(0, Go)];
    assert Run(s2, go) == Some(s3) by { assert go[1..] == []; }
    var gogo: seq<(Tid, Choice)> := [(0, Go), (0, Go)];
    assert Run(s1, gogo) == Some(s3) by { assert gogo[1..] == go; }
    var all: seq<(Tid, Choice)> := [(0, Submit(j)), (0, Go), (0, Go)];
    assert Run(s0, all) == Some(s3) by { assert all[1..] == gogo; }
    assert Reaches(1, all, s3);
  }

  // ---- lock order ------------------------------------------------------------------------------

  function Rank(l: Lock): nat {
    match l
    case ConnLock(_) => 0
    case ConnList => 1
    case TaskQueue => 2
    case ThreadCount => 3
  }

  /** The mutex thread t is waiting for and cannot have because somebody owns it. */
  function BlockedOn(s: Pool, t: Tid): Option<Lock>
    requires t < |s.pcs|
  {
    var pc := s.pcs[t];
    if t in s.asleep && (pc == Main(WaitAsleep) || pc == Worker(Asleep)) then None
    else if Wants(pc).Some? && Wants(pc).value in s.owner then Wants(pc)
    else None
  }

  ghost predicate WaitsFor(s: Pool, t: Tid, u: Tid) {
    && t < |s.pcs| && u < |s.pcs|
    && BlockedOn(s, t).Some?
    && s.owner[BlockedOn(s, t).value] == u
  }

  /** Mutexes are waited for in the order connection, list, queue, counters. */
  lemma LockOrder(pc: PC, held: Lock)
    requires Holds(pc, held) && Wants(pc).Some?
    ensures Rank(held) < Rank(Wants(pc).value)
  {
  }

  lemma WaitRises(s: Pool, t: Tid, u: Tid)
    requires Owners(s) && WaitsFor(s, t, u) && BlockedOn(s, u).Some?
    ensures Rank(BlockedOn(s, t).value) < Rank(BlockedOn(s, u).value)
  {
    var l := BlockedOn(s, t).value;
    assert OwnsAt(s, u, l);
    LockOrder(s.pcs[u], l);
  }

  lemma {:induction false} ChainRises(s: Pool, p: seq<Tid>)
    requires Owners(s) && 1 <= |p|
    requires forall i :: 0 <= i < |p| - 1 ==> WaitsFor(s, p[i], p[i + 1])
    requires p[|p| - 1] < |s.pcs| && BlockedOn(s, p[|p| - 1]).Some?
    requires p[0] < |s.pcs| && BlockedOn(s, p[0]).Some?
    ensures Rank(BlockedOn(s, p[0]).value) + |p| - 1 <= Rank(BlockedOn(s, p[|p| - 1]).value)
  {
    if 1 < |p| {
      var q := p[1..];
      assert WaitsFor(s, p[0], p[1]);
      if |p| > 2 {
        assert WaitsFor(s, p[1], p[2]);
      }
      WaitRises(s, p[0], p[1]);
      forall i | 0 <= i < |q| - 1 ensures WaitsFor(s, q[i], q[i + 1]) {
        assert WaitsFor(s, p[i + 1], p[i + 2]);
      }
      ChainRises(s, q);
    }
  }

  /** No reachable state has a circular wait, of any length. */
  lemma NoCircularWait(workers: nat, schedule: seq<(Tid, Choice)>, s: Pool, p: seq<Tid>)
    requires Reaches(workers, schedule, s) && 2 <= |p|
    requires forall i :: 0 <= i < |p| - 1 ==> WaitsFor(s, p[i], p[i + 1])
    ensures p[0] != p[|p| - 1]
  {
    ReachableInv(workers, schedule, s);
    assert WaitsFor(s, p[0], p[1]);
    if p[0] == p[|p| - 1] {
      ChainRises(s, p);
    }
  }

  /** A thread that can only be helped on by another: asleep in pthread_cond_wait, waiting in
      pthread_join for a worker that has not ended, or ended itself. */
  predicate Idle(s: Pool, t: Tid)
    requires t < |s.pcs|
  {
    var pc := s.pcs[t];
    || (t in s.asleep && (pc == Main(WaitAsleep) || pc == Worker(Asleep)))
    || pc == Worker(Dead)
    || (pc.Main? && pc.m.Destroyed?)
    || (&& pc.Main? && pc.m.Joining?
        && pc.m.joined + 1 < |s.pcs| && s.pcs[pc.m.joined + 1] != Worker(Dead))
  }

  /** A thread that is not idle and waits for no mutex can always take a step. */
  lemma FreeMoves(s: Pool, u: Tid) returns (ch: Choice)
    requires u < |s.pcs| && !Idle(s, u) && BlockedOn(s, u).None?
    requires FrontAt(s, s.pcs[u])
    ensures Step(s, u, ch).Some? && !ch.Spurious?
  {
    var pc := s.pcs[u];
    ch := Go;
    if pc.Main? && pc.m.Loop? {
      ch := Accept;
    } else if pc.Task? {
      ch := Done;
      if pc.at.Finish? && s.busy == 1 && s.asleep * {0} != {} {
        ch := Notify(0);
      }
    } else if pc.Enq? && pc.step.EnqSignal? && s.asleep - {0} != {} {
      var w :| w in s.asleep - {0};
      ch := Notify(w);
    }
  }

  lemma HolderNotIdle(s: Pool, u: Tid, l: Lock)
    requires u < |s.pcs| && Holds(s.pcs[u], l)
    ensures !Idle(s, u)
  {
  }

  /** Deadlock freedom: whenever a thread is blocked on a mutex, some thread that owns a
      mutex can take a step. */
  lemma {:induction false} BlockedMeansProgress(s: Pool, t: Tid) returns (u: Tid, ch: Choice)
    requires Inv(s) && t < |s.pcs| && BlockedOn(s, t).Some?
    ensures u < |s.pcs| && Step(s, u, ch).Some? && !ch.Spurious? && exists l :: Holds(s.pcs[u], l)
    decreases 3 - Rank(BlockedOn(s, t).value)
  {
    hide Step, Holds;
    var l := BlockedOn(s, t).value;
    u := s.owner[l];
    assert OwnsAt(s, u, l);
    if BlockedOn(s, u).Some? {
      WaitRises(s, t, u);
      u, ch := BlockedMeansProgress(s, u);
    } else {
      assert FrontAt(s, s.pcs[u]);
      HolderNotIdle(s, u, l);
      ch := FreeMoves(s, u);
    }
  }

  lemma DeadlockFree(workers: nat, schedule: seq<(Tid, Choice)>, s: Pool, t: Tid)
    requires Reaches(workers, schedule, s) && t < |s.pcs| && BlockedOn(s, t).Some?
    ensures exists u: Tid, ch, l :: u < |s.pcs| && Holds(s.pcs[u], l) && Step(s, u, ch).Some?
  {
    ReachableInv(workers, schedule, s);
    var u, ch := BlockedMeansProgress(s, t);
    var l :| Holds(s.pcs[u], l);
  }
}
