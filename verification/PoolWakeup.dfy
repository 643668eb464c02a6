/** No task is forgotten: a queued task always has a worker awake to find it, or an enqueuer
    about to wake one. */
module PoolWakeup {
  import opened Basics
  import opened Pool
  import opened PoolInvariant
  import opened PoolTheorems

  /** Program points at which a worker knows the queue to be empty, holding its mutex. */
  predicate KnowsEmpty(pc: PC) {
    pc.Worker? && (pc.w.CheckFlag? || pc.w.IdleLock? || pc.w.DropBusy? || pc.w.Sleep?)
  }

  /** A worker leaves its loop only after termination has been requested. */
  predicate Leaving(pc: PC) {
    pc.Worker? && (pc.w.Quit? || pc.w.DieLock? || pc.w.Dying? || pc.w.Dead?)
  }

  predicate CalmAt(s: Pool, pc: PC) {
    && (KnowsEmpty(pc) ==> s.queue == [])
    && (Leaving(pc) ==> s.terminate)
  }

  ghost predicate Calm(s: Pool) {
    forall t :: 0 <= t < |s.pcs| ==> CalmAt(s, s.pcs[t])
  }

  /** Only threads inside pthread_cond_wait sleep. */
  ghost predicate Sleepy(s: Pool) {
    forall t :: t in s.asleep ==> t < |s.pcs| && (s.pcs[t] == Worker(Asleep) || s.pcs[t] == Main(WaitAsleep))
  }

  predicate Awake(s: Pool, t: Tid) {
    1 <= t < |s.pcs| && s.pcs[t] != Worker(Dead) && t !in s.asleep
  }

  predicate Signalling(s: Pool, t: Tid) {
    t < |s.pcs| && s.pcs[t].Enq? && s.pcs[t].step.EnqSignal?
  }

  ghost predicate Attended(s: Pool) {
    s.queue != [] && !s.terminate && 1 < |s.pcs| ==> exists t :: Awake(s, t) || Signalling(s, t)
  }

  /** The main thread is past the assignment to the terminate flag. */
  predicate Shutting(pc: PC) {
    pc.Main? && (pc.m.WakeAll? || pc.m.Joining? || pc.m.Destroyed?)
  }

  ghost predicate FlagSet(s: Pool) {
    0 < |s.pcs| && (s.terminate <==> Shutting(s.pcs[0]))
  }

  ghost predicate WakeInv(s: Pool) { Calm(s) && Sleepy(s) && Attended(s) && FlagSet(s) }

  // ---- table facts -----------------------------------------------------------------------------

  predicate CalmFact(s: Pool, pc: PC, m: Move) {
    && (KnowsEmpty(m.next) ==> (KnowsEmpty(pc) || s.queue == []) && !m.effect.Push?)
    && (Leaving(m.next) ==> Leaving(pc) || s.terminate)
    && (m.effect.Push? ==> Holds(pc, TaskQueue))
  }

  lemma MainCalm(s: Pool, t: Tid, mp: MainPC, ch: Choice, m: Move)
    requires MainMove(s, t, mp, ch) == Some(m)
    ensures CalmFact(s, Main(mp), m)
  {
  }

  lemma WorkerCalm(s: Pool, t: Tid, wp: WorkerPC, ch: Choice, m: Move)
    requires WorkerMove(s, t, wp, ch) == Some(m)
    ensures CalmFact(s, Worker(wp), m)
  {
  }

  lemma TaskCalm(s: Pool, j: Job, at: TaskPC, ch: Choice, m: Move)
    requires TaskMove(s, j, at, ch) == Some(m)
    ensures CalmFact(s, Task(j, at), m)
  {
  }

  lemma EnqCalm(s: Pool, e: EnqPC, j: Job, site: Site, ch: Choice, m: Move)
    requires EnqMove(s, e, j, site, ch) == Some(m)
    ensures CalmFact(s, Enq(e, j, site), m)
  {
  }

  lemma MoveCalm(s: Pool, t: Tid, pc: PC, ch: Choice, m: Move)
    requires Moves(s, t, pc, ch, m)
    ensures CalmFact(s, pc, m)
  {
    match pc
    case Main(mp) => MainCalm(s, t, mp, ch, m);
    case Worker(wp) => WorkerCalm(s, t, wp, ch, m);
    case Task(j, at) => TaskCalm(s, j, at, ch, m);
    case Enq(e, j, site) => EnqCalm(s, e, j, site, ch, m);
  }

  lemma MoveSleep(s: Pool, t: Tid, pc: PC, ch: Choice, m: Move)
    requires Moves(s, t, pc, ch, m)
    ensures m.sleep.FallAsleep? ==> pc == Worker(Sleep) || pc == Main(WaitBlock)
    ensures m.sleep.FallAsleep? ==> m.next == Worker(Asleep) || m.next == Main(WaitAsleep)
    ensures t in s.asleep && (pc == Worker(Asleep) || pc == Main(WaitAsleep)) ==>
              m.sleep == WakeUp(t)
  {
  }

  lemma MoveSignal(s: Pool, t: Tid, pc: PC, ch: Choice, m: Move)
    requires Moves(s, t, pc, ch, m)
    ensures m.effect.Push? ==> m.next.Enq? && m.next.step.EnqSignal?
    ensures pc.Enq? && pc.step.EnqSignal? ==>
              s.asleep - {0} == {} || (m.sleep.WakeUp? && m.sleep.tid in s.asleep - {0})
  {
  }

  lemma MoveFlag(s: Pool, t: Tid, pc: PC, ch: Choice, m: Move)
    requires Moves(s, t, pc, ch, m)
    ensures m.effect.Terminate? ==> MainPoint(pc) && Shutting(m.next)
    ensures !m.effect.Terminate? ==> (Shutting(m.next) <==> Shutting(pc))
  {
  }

  // ---- preservation ----------------------------------------------------------------------------

  lemma CalmStep(s: Pool, t: Tid, ch: Choice, m: Move, s': Pool)
    requires Takes(s, t, ch, m, s') && Owners(s) && Calm(s)
    ensures Calm(s')
  {
    hide Program;
    MoveCalm(s, t, s.pcs[t], ch, m);
    MoveQueue(s, t, s.pcs[t], ch, m);
    forall u | 0 <= u < |s'.pcs| ensures CalmAt(s', s'.pcs[u]) {
      assert CalmAt(s, s.pcs[u]) && CalmAt(s, s.pcs[t]);
      if u != t && KnowsEmpty(s.pcs[u]) && m.effect.Push? {
        Exclusive(s, t, u, TaskQueue);
      }
    }
  }

  lemma FlagStep(s: Pool, t: Tid, ch: Choice, m: Move, s': Pool)
    requires Takes(s, t, ch, m, s') && Roles(s) && FlagSet(s)
    ensures FlagSet(s')
  {
    hide Program;
    MoveFlag(s, t, s.pcs[t], ch, m);
  }

  lemma SleepyStep(s: Pool, t: Tid, ch: Choice, m: Move, s': Pool)
    requires Takes(s, t, ch, m, s') && Sleepy(s)
    ensures Sleepy(s')
  {
    hide Program, Perform;
    MoveSleep(s, t, s.pcs[t], ch, m);
    PerformSleep(s, m.effect);
  }

  lemma PerformSleep(s: Pool, e: Effect)
    ensures Perform(s, e).asleep == s.asleep && Perform(s, e).pcs == s.pcs
  {
  }

  lemma AttendedStep(s: Pool, t: Tid, ch: Choice, m: Move, s': Pool)
    requires Takes(s, t, ch, m, s') && Roles(s) && WakeInv(s) && Calm(s')
    ensures Attended(s')
  {
    hide Program, Roles, Sleepy;
    MoveSleep(s, t, s.pcs[t], ch, m);
    MoveSignal(s, t, s.pcs[t], ch, m);
    MoveQueue(s, t, s.pcs[t], ch, m);
    if s'.queue != [] && !s'.terminate && 1 < |s'.pcs| {
      assert CalmAt(s, s.pcs[t]) && CalmAt(s', s'.pcs[t]);
      if m.effect.Push? {
        assert Signalling(s', t);
      } else if Signalling(s, t) {
        var w := SignalWakes(s, t, ch, m);
        assert CalmAt(s, s.pcs[w]);
        assert Awake(s', w);
      } else {
        assert s.queue != [] && !s.terminate;
        var u :| Awake(s, u) || Signalling(s, u);
        StillAttended(s, t, ch, m, s', u);
      }
    }
  }

  /** The worker that is awake after a signal: the one signalled, or any if none slept. */
  lemma SignalWakes(s: Pool, t: Tid, ch: Choice, m: Move) returns (w: Tid)
    requires t < |s.pcs| && Moves(s, t, s.pcs[t], ch, m) && Signalling(s, t)
    requires Roles(s) && Sleepy(s) && 1 < |s.pcs|
    ensures 1 <= w < |s.pcs| && w !in Sleepers(s.asleep, t, m.sleep)
    ensures w != t ==> s.pcs[w] == Worker(Asleep) || s.asleep - {0} == {}
    ensures m.next != Worker(Dead)
  {
    MoveSignal(s, t, s.pcs[t], ch, m);
    if s.asleep - {0} == {} {
      w := 1;
      assert 1 !in s.asleep - {0};
    } else {
      w := m.sleep.tid;
      assert w in s.asleep && w != 0 && !MainPoint(s.pcs[w]);
    }
  }

  /** Whoever attended to the queue before a step that neither pushes nor signals still does. */
  lemma StillAttended(s: Pool, t: Tid, ch: Choice, m: Move, s': Pool, u: Tid)
    requires Takes(s, t, ch, m, s') && (Awake(s, u) || Signalling(s, u)) && !Signalling(s, t)
    requires Roles(s) && Calm(s) && Calm(s') && s.queue != [] && !s'.terminate
    ensures Awake(s', u) || Signalling(s', u)
  {
    hide Program;
    MoveSleep(s, t, s.pcs[t], ch, m);
    assert CalmAt(s, s.pcs[t]) && CalmAt(s', s'.pcs[t]);
    assert 0 < t ==> !MainPoint(s.pcs[t]);
  }

  lemma {:induction false} RunWakeInv(s: Pool, schedule: seq<(Tid, Choice)>, s': Pool)
    requires Inv(s) && WakeInv(s) && Run(s, schedule) == Some(s')
    ensures WakeInv(s')
    decreases |schedule|
  {
    hide Inv, WakeInv, Program, Apply;
    if schedule == [] {
    } else {
      var t, ch := schedule[0].0, schedule[0].1;
      var m := Program(s, t, s.pcs[t], ch).value;
      var s1 := Step(s, t, ch).value;
      StepInv(s, t, ch, s1);
      StepWakeInv(s, t, ch, m, s1);
      RunWakeInv(s1, schedule[1..], s');
    }
  }

  lemma StepWakeInv(s: Pool, t: Tid, ch: Choice, m: Move, s': Pool)
    requires Takes(s, t, ch, m, s') && Inv(s) && WakeInv(s)
    ensures WakeInv(s')
  {
    hide Program, Apply, Calm, Sleepy, Attended, FlagSet, Owners, Roles;
    FlagStep(s, t, ch, m, s');
    CalmStep(s, t, ch, m, s');
    SleepyStep(s, t, ch, m, s');
    AttendedStep(s, t, ch, m, s');
  }

  lemma ReachableWakeInv(workers: nat, schedule: seq<(Tid, Choice)>, s: Pool)
    requires Reaches(workers, schedule, s)
    ensures Inv(s) && WakeInv(s)
  {
    ReachableInv(workers, schedule, s);
    InitInv(workers);
    assert WakeInv(Init(workers));
    RunWakeInv(Init(workers), schedule, s);
  }

  /** In every run, while termination has not been requested, a non-empty queue has a worker
      that is not asleep, or an enqueuer that has yet to signal: no wakeup is lost. */
  lemma NoLostWakeup(workers: nat, schedule: seq<(Tid, Choice)>, s: Pool)
    requires Reaches(workers, schedule, s) && 0 < workers
    requires s.queue != [] && !s.terminate
    ensures exists t: Tid ::
              || (1 <= t <= workers && s.pcs[t] != Worker(Dead) && t !in s.asleep)
              || (t <= workers && s.pcs[t].Enq? && s.pcs[t].step.EnqSignal?)
  {
    ReachableWakeInv(workers, schedule, s);
    var t :| Awake(s, t) || Signalling(s, t);
  }
}
