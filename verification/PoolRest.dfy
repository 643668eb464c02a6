/** What a pool that has come to rest looks like, and how it gets there. */
module PoolRest {
  import opened Basics
  import opened Sums
  import opened Pool
  import opened PoolInvariant
  import opened PoolTheorems
  import opened PoolWakeup

  type Schedule = seq<(Tid, Choice)>

  /** No thread can move, short of a wakeup without a signal. */
  ghost predicate Stalled(s: Pool) {
    forall t: Tid, ch: Choice :: !ch.Spurious? ==> Step(s, t, ch).None?
  }

  /** The pool comes to rest exactly when every thread is asleep, ended, or waiting to join a
      worker that has not ended. */
  lemma StalledExactly(workers: nat, schedule: Schedule, s: Pool)
    requires Reaches(workers, schedule, s)
    ensures Stalled(s) <==> forall t: Tid :: t < |s.pcs| ==> Idle(s, t)
  {
    hide Step, Idle, Inv;
    ReachableInv(workers, schedule, s);
    if t: Tid :| t < |s.pcs| && !Idle(s, t) {
      var u, ch := SomeMove(s, t);
      assert !Stalled(s);
    } else {
      forall t: Tid, ch: Choice | !ch.Spurious? ensures Step(s, t, ch).None? {
        if Step(s, t, ch).Some? {
          IdleStays(s, t, ch);
        }
      }
    }
  }

  lemma SomeMove(s: Pool, t: Tid) returns (u: Tid, ch: Choice)
    requires Inv(s) && t < |s.pcs| && !Idle(s, t)
    ensures Step(s, u, ch).Some? && !ch.Spurious?
  {
    hide Step, Idle, BlockedOn;
    if BlockedOn(s, t).Some? {
      u, ch := BlockedMeansProgress(s, t);
    } else {
      u := t;
      assert FrontAt(s, s.pcs[t]);
      ch := FreeMoves(s, t);
    }
  }

  lemma IdleStays(s: Pool, t: Tid, ch: Choice)
    requires Step(s, t, ch).Some? && !ch.Spurious?
    ensures t < |s.pcs| && !Idle(s, t)
  {
  }

  /** A pool at rest while somebody is in rplib_tpool_wait has nothing left to do: every
      worker sleeps, the queue is empty and nobody is busy, so the waiter only lacks a
      signal.  At rest in rplib_tpool_destroy, the worker being joined is asleep although
      termination was requested. */
  lemma RestIsMissedSignal(workers: nat, schedule: Schedule, s: Pool)
    requires Reaches(workers, schedule, s) && Stalled(s) && 0 < workers
    ensures s.pcs[0] == Main(WaitAsleep) ==>
              && s.queue == [] && s.busy == 0
              && forall t :: 1 <= t < |s.pcs| ==> s.pcs[t] == Worker(Asleep) && t in s.asleep
    ensures s.pcs[0].Main? && s.pcs[0].m.Joining? ==>
              && var k := s.pcs[0].m.joined + 1;
              && k < |s.pcs| && s.terminate && s.pcs[k] == Worker(Asleep) && k in s.asleep
    ensures s.pcs[0].Main? && (s.pcs[0].m.WaitAsleep? || s.pcs[0].m.Joining? || s.pcs[0].m.Destroyed?)
  {
    hide Step, Stalled;
    ReachableWakeInv(workers, schedule, s);
    StalledExactly(workers, schedule, s);
    assert Idle(s, 0) && MainPoint(s.pcs[0]);
    if s.pcs[0].m.Joining? {
      var k := s.pcs[0].m.joined + 1;
      assert Idle(s, k) && !MainPoint(s.pcs[k]);
    } else if s.pcs[0].m.WaitAsleep? {
      forall t | 1 <= t < |s.pcs| ensures s.pcs[t] == Worker(Asleep) && t in s.asleep {
        assert Idle(s, t) && !MainPoint(s.pcs[t]) && CalmAt(s, s.pcs[t]);
      }
      SumZero(Busy, s.pcs);
    }
  }

  // ---- both kinds of rest are reached ----------------------------------------------------------

  lemma {:induction false} Extend(s0: Pool, schedule: Schedule, s: Pool, t: Tid, ch: Choice)
    requires Run(s0, schedule) == Some(s) && Step(s, t, ch).Some?
    ensures Run(s0, schedule + [(t, ch)]) == Step(s, t, ch)
    decreases |schedule|
  {
    hide Step;
    var longer := schedule + [(t, ch)];
    if schedule == [] {
      assert longer[1..] == [];
    } else {
      assert longer[1..] == schedule[1..] + [(t, ch)];
      Extend(Step(s0, schedule[0].0, schedule[0].1).value, schedule[1..], s, t, ch);
    }
  }

  /** One more step of a run with one worker, given as the move its program makes. */
  lemma Turn(p: Schedule, s: Pool, t: Tid, ch: Choice, m: Move, s': Pool) returns (q: Schedule)
    requires Reaches(1, p, s) && t < |s.pcs| && Program(s, t, s.pcs[t], ch) == Some(m) && Possible(s, m)
    requires s'.pcs == s.pcs[t := m.next]
    requires s'.owner == Owner(s.owner, t, m.op)
    requires s'.asleep == Sleepers(s.asleep, t, m.sleep)
    requires Perform(s, m.effect) == s'.(pcs := s.pcs, owner := s.owner, asleep := s.asleep)
    ensures Reaches(1, q, s')
  {
    q := p + [(t, ch)];
    assert Apply(s, t, m) == s';
    hide Step;
    Extend(Init(1), p, s, t, ch);
  }

  /** A pool with one worker and no task. */
  function Taskless(m: MainPC, w: WorkerPC, owner: map<Lock, Tid>, asleep: set<Tid>, busy: int, terminate: bool): Pool {
    Pool([Main(m), Worker(w)], owner, asleep, [], busy, 1, terminate, map[], [], [], multiset{})
  }

  /** The worker counts itself alive. */
  lemma WorkerStarts() returns (q: Schedule)
    ensures Reaches(1, q, Taskless(Loop, Top, map[], {}, 0, false))
  {
    var s0 := Init(1);
    var s1 := s0.(pcs := [Main(Loop), Worker(RaiseAlive)], owner := map[ThreadCount := 1]);
    assert Reaches(1, [], s0);
    hide Reaches;
    q := Turn([], s0, 1, Go, Move(Worker(RaiseAlive), Lock(ThreadCount), NoEffect, Same), s1);
    q := Turn(q, s1, 1, Go, Move(Worker(Top), Unlock(ThreadCount), AliveUp, Same),
              Taskless(Loop, Top, map[], {}, 0, false));
  }

  /** It counts itself busy. */
  lemma WorkerCounts(p: Schedule, m: MainPC) returns (q: Schedule)
    requires Reaches(1, p, Taskless(m, Top, map[], {}, 0, false))
    ensures Reaches(1, q, Taskless(m, WantQueue, map[], {}, 1, false))
  {
    hide Reaches, MainMove, TaskMove, EnqMove;
    var s1 := Taskless(m, RaiseBusy, map[ThreadCount := 1], {}, 0, false);
    q := Turn(p, Taskless(m, Top, map[], {}, 0, false), 1, Go,
              Move(Worker(RaiseBusy), Lock(ThreadCount), NoEffect, Same), s1);
    q := Turn(q, s1, 1, Go, Move(Worker(WantQueue), Unlock(ThreadCount), BusyUp, Same),
              Taskless(m, WantQueue, map[], {}, 1, false));
  }

  /** It finds the queue empty and the terminate flag unset. */
  lemma WorkerLooks(p: Schedule, m: MainPC, asleep: set<Tid>) returns (q: Schedule)
    requires Reaches(1, p, Taskless(m, WantQueue, map[], asleep, 1, false))
    ensures Reaches(1, q, Taskless(m, IdleLock, map[TaskQueue := 1], asleep, 1, false))
  {
    hide Reaches, MainMove, TaskMove, EnqMove;
    var s1 := Taskless(m, CheckSize, map[TaskQueue := 1], asleep, 1, false);
    var s2 := Taskless(m, CheckFlag, map[TaskQueue := 1], asleep, 1, false);
    q := Turn(p, Taskless(m, WantQueue, map[], asleep, 1, false), 1, Go,
              Move(Worker(CheckSize), Lock(TaskQueue), NoEffect, Same), s1);
    q := Turn(q, s1, 1, Go, Move(Worker(CheckFlag), Keep, NoEffect, Same), s2);
    q := Turn(q, s2, 1, Go, Move(Worker(IdleLock), Keep, NoEffect, Same),
              Taskless(m, IdleLock, map[TaskQueue := 1], asleep, 1, false));
  }

  /** It goes to sleep, whatever has happened to the flag since. */
  lemma WorkerSleeps(p: Schedule, m: MainPC, asleep: set<Tid>, terminate: bool) returns (q: Schedule)
    requires Reaches(1, p, Taskless(m, IdleLock, map[TaskQueue := 1], asleep, 1, terminate))
    ensures Reaches(1, q, Taskless(m, Asleep, map[], asleep + {1}, 0, terminate))
  {
    hide Reaches, MainMove, TaskMove, EnqMove;
    var s1 := Taskless(m, DropBusy, map[TaskQueue := 1, ThreadCount := 1], asleep, 1, terminate);
    var s2 := Taskless(m, Sleep, map[TaskQueue := 1], asleep, 0, terminate);
    q := Turn(p, Taskless(m, IdleLock, map[TaskQueue := 1], asleep, 1, terminate), 1, Go,
              Move(Worker(DropBusy), Lock(ThreadCount), NoEffect, Same), s1);
    q := Turn(q, s1, 1, Go, Move(Worker(Sleep), Unlock(ThreadCount), BusyDown, Same), s2);
    q := Turn(q, s2, 1, Go, Move(Worker(Asleep), Unlock(TaskQueue), NoEffect, FallAsleep),
              Taskless(m, Asleep, map[], asleep + {1}, 0, terminate));
  }

  /** The main thread calls rplib_tpool_wait, sees the worker busy and sleeps. */
  lemma WaiterSleeps(p: Schedule) returns (q: Schedule)
    requires Reaches(1, p, Taskless(Loop, WantQueue, map[], {}, 1, false))
    ensures Reaches(1, q, Taskless(WaitAsleep, WantQueue, map[], {0}, 1, false))
  {
    hide Reaches, WorkerMove, TaskMove, EnqMove;
    var s1 := Taskless(WaitLock, WantQueue, map[], {}, 1, false);
    var s2 := Taskless(WaitBusy, WantQueue, map[ThreadCount := 0], {}, 1, false);
    var s3 := Taskless(WaitBlock, WantQueue, map[ThreadCount := 0], {}, 1, false);
    q := Turn(p, Taskless(Loop, WantQueue, map[], {}, 1, false), 0, Wait,
              Move(Main(WaitLock), Keep, NoEffect, Same), s1);
    q := Turn(q, s1, 0, Go, Move(Main(WaitBusy), Lock(ThreadCount), NoEffect, Same), s2);
    q := Turn(q, s2, 0, Go, Move(Main(WaitBlock), Keep, NoEffect, Same), s3);
    q := Turn(q, s3, 0, Go, Move(Main(WaitAsleep), Unlock(ThreadCount), NoEffect, FallAsleep),
              Taskless(WaitAsleep, WantQueue, map[], {0}, 1, false));
  }

  /** rplib_tpool_wait can be left asleep for ever with nothing to wait for: it sees a worker
      that is busy only with looking at the empty queue, and that worker lowers the counter
      on its way to sleep without signalling. */
  lemma WaitCanStall()
    ensures exists q, s :: Reaches(1, q, s) && Stalled(s) && s.pcs[0] == Main(WaitAsleep)
  {
    hide Reaches, Stalled;
    var q := WorkerStarts();
    q := WorkerCounts(q, Loop);
    q := WaiterSleeps(q);
    q := WorkerLooks(q, WaitAsleep, {0});
    q := WorkerSleeps(q, WaitAsleep, {0}, false);
    var s := Taskless(WaitAsleep, Asleep, map[], {0} + {1}, 0, false);
    StalledExactly(1, q, s);
    assert Idle(s, 0) && Idle(s, 1);
  }

  /** The main thread calls rplib_tpool_wait before the worker is busy, and it returns. */
  lemma WaitPasses(p: Schedule) returns (q: Schedule)
    requires Reaches(1, p, Taskless(Loop, Top, map[], {}, 0, false))
    ensures Reaches(1, q, Taskless(WaitReturned, Top, map[], {}, 0, false))
  {
    hide Reaches, WorkerMove, TaskMove, EnqMove;
    var s1 := Taskless(WaitLock, Top, map[], {}, 0, false);
    var s2 := Taskless(WaitBusy, Top, map[ThreadCount := 0], {}, 0, false);
    var s3 := Taskless(WaitSize, Top, map[ThreadCount := 0], {}, 0, false);
    var s4 := Taskless(WaitUnlock, Top, map[ThreadCount := 0], {}, 0, false);
    q := Turn(p, Taskless(Loop, Top, map[], {}, 0, false), 0, Wait,
              Move(Main(WaitLock), Keep, NoEffect, Same), s1);
    q := Turn(q, s1, 0, Go, Move(Main(WaitBusy), Lock(ThreadCount), NoEffect, Same), s2);
    q := Turn(q, s2, 0, Go, Move(Main(WaitSize), Keep, NoEffect, Same), s3);
    q := Turn(q, s3, 0, Go, Move(Main(WaitUnlock), Keep, NoEffect, Same), s4);
    q := Turn(q, s4, 0, Go, Move(Main(WaitReturned), Unlock(ThreadCount), NoEffect, Same),
              Taskless(WaitReturned, Top, map[], {}, 0, false));
  }

  /** The main thread sets the flag and broadcasts while the worker is on its way to sleep. */
  lemma BroadcastMisses(p: Schedule) returns (q: Schedule)
    requires Reaches(1, p, Taskless(WaitReturned, IdleLock, map[TaskQueue := 1], {}, 1, false))
    ensures Reaches(1, q, Taskless(Joining(true, 0), IdleLock, map[TaskQueue := 1], {}, 1, true))
  {
    hide Reaches, WorkerMove, TaskMove, EnqMove;
    var s1 := Taskless(SetTerminate(true), IdleLock, map[TaskQueue := 1], {}, 1, false);
    var s2 := Taskless(WakeAll(true), IdleLock, map[TaskQueue := 1], {}, 1, true);
    q := Turn(p, Taskless(WaitReturned, IdleLock, map[TaskQueue := 1], {}, 1, false), 0, Destroy,
              Move(Main(SetTerminate(true)), Keep, NoEffect, Same), s1);
    q := Turn(q, s1, 0, Go, Move(Main(WakeAll(true)), Keep, Terminate, Same), s2);
    q := Turn(q, s2, 0, Go, Move(Main(Joining(true, 0)), Keep, NoEffect, WakeWorkers),
              Taskless(Joining(true, 0), IdleLock, map[TaskQueue := 1], {}, 1, true));
  }

  /** A graceful rplib_tpool_destroy can join a sleeping worker for ever: the broadcast, made
      without the queue's mutex, falls between the worker's look at the flag and its sleep. */
  lemma DestroyCanStall()
    ensures exists q, s :: Reaches(1, q, s) && Stalled(s) && s.pcs[0] == Main(Joining(true, 0))
  {
    hide Reaches, Stalled;
    var q := WorkerStarts();
    q := WaitPasses(q);
    q := WorkerCounts(q, WaitReturned);
    q := WorkerLooks(q, WaitReturned, {});
    q := BroadcastMisses(q);
    q := WorkerSleeps(q, Joining(true, 0), {}, true);
    var s := Taskless(Joining(true, 0), Asleep, map[], {} + {1}, 0, true);
    StalledExactly(1, q, s);
    assert Idle(s, 0) && Idle(s, 1);
  }
}
