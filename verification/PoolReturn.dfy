/** Exactly when rplib_tpool_wait and rplib_tpool_destroy return, if no thread ever wakes up
    without a signal. */
module PoolReturn {
  import opened Basics
  import opened Sums
  import opened Pool
  import opened PoolInvariant
  import opened PoolTheorems
  import opened PoolWakeup
  import opened PoolRest

  predicate NoSpurious(q: Schedule) {
    forall i :: 0 <= i < |q| ==> !q[i].1.Spurious?
  }

  /** What a worker that runs no task, or the main thread at its end, can do to the sleepers. */
  lemma MoveWakes(s: Pool, t: Tid, pc: PC, ch: Choice, m: Move)
    requires Moves(s, t, pc, ch, m) && (pc.Worker? || Shutting(pc)) && !ch.Spurious?
    ensures m.sleep.Same? || m.sleep.FallAsleep? || (m.sleep.WakeWorkers? && pc.m.WakeAll?)
  {
  }

  lemma QuietIsWorker(s: Pool, t: Tid)
    requires Roles(s) && Quiet(s) && 0 < t < |s.pcs|
    ensures s.pcs[t].Worker? && !s.pcs[t].w.Take? && !s.pcs[t].w.Taken?
  {
    assert !MainPoint(s.pcs[t]) && !Working(s.pcs[t]);
  }

  // ---- rplib_tpool_wait ------------------------------------------------------------------------

  /** There is nothing to wait for, and the waiter has decided to sleep all the same. */
  ghost predicate Stranded(s: Pool) {
    && Quiet(s) && 0 < |s.pcs|
    && (|| (s.pcs[0] == Main(WaitBusy) && s.busy != 0)
        || s.pcs[0] == Main(WaitBlock)
        || (s.pcs[0] == Main(WaitAsleep) && 0 in s.asleep))
  }

  lemma StrandedStep(s: Pool, t: Tid, ch: Choice, m: Move, s': Pool)
    requires Takes(s, t, ch, m, s') && Inv(s) && Stranded(s) && !ch.Spurious?
    ensures Stranded(s')
  {
    if t != 0 {
      hide Program;
      QuietIsWorker(s, t);
      QuietStep(s, t, ch, m, s');
      MoveWakes(s, t, s.pcs[t], ch, m);
      MoveBusy(s, t, s.pcs[t], ch, m);
      if s.pcs[0] == Main(WaitBusy) && BusyBy(m.effect) != 0 {
        Exclusive(s, 0, t, ThreadCount);
      }
    }
  }

  lemma {:induction false} StrandedForEver(s: Pool, q: Schedule, r: Pool)
    requires Inv(s) && Stranded(s) && NoSpurious(q) && Run(s, q) == Some(r)
    ensures Stranded(r)
    decreases |q|
  {
    hide Inv, Stranded, Program, Apply;
    if q == [] {
    } else {
      var t, ch := q[0].0, q[0].1;
      var m := Program(s, t, s.pcs[t], ch).value;
      var s1 := Step(s, t, ch).value;
      StepInv(s, t, ch, s1);
      StrandedStep(s, t, ch, m, s1);
      StrandedForEver(s1, q[1..], r);
    }
  }

  /** The number of steps the main thread takes. */
  function MainSteps(q: Schedule): nat {
    if q == [] then 0 else (if q[0].0 == 0 then 1 else 0) + MainSteps(q[1..])
  }

  /** The steps that rplib_tpool_wait still has to take when it does not sleep. */
  ghost predicate Passing(s: Pool, left: nat) {
    && Quiet(s) && 0 < |s.pcs|
    && s.pcs[0].Main?
    && match left
       case 0 => s.pcs[0].m.WaitReturned?
       case 1 => s.pcs[0].m.WaitUnlock?
       case 2 => s.pcs[0].m.WaitSize?
       case 3 => s.pcs[0].m.WaitBusy? && s.busy == 0
       case _ => false
  }

  lemma PassingStep(s: Pool, t: Tid, ch: Choice, m: Move, s': Pool, left: nat)
    requires Takes(s, t, ch, m, s') && Inv(s) && Passing(s, left) && (t == 0 ==> 0 < left)
    ensures Passing(s', if t == 0 then left - 1 else left)
  {
    if t != 0 {
      hide Program;
      QuietStep(s, t, ch, m, s');
      MoveBusy(s, t, s.pcs[t], ch, m);
      if s.pcs[0] == Main(WaitBusy) && BusyBy(m.effect) != 0 {
        Exclusive(s, 0, t, ThreadCount);
      }
    }
  }

  lemma {:induction false} PassingRun(s: Pool, q: Schedule, r: Pool, left: nat)
    requires Inv(s) && Passing(s, left) && Run(s, q) == Some(r) && MainSteps(q) <= left
    ensures Passing(r, left - MainSteps(q))
    decreases |q|
  {
    hide Inv, Passing, Program, Apply;
    if q == [] {
    } else {
      var t, ch := q[0].0, q[0].1;
      var m := Program(s, t, s.pcs[t], ch).value;
      var s1 := Step(s, t, ch).value;
      StepInv(s, t, ch, s1);
      PassingStep(s, t, ch, m, s1, left);
      PassingRun(s1, q[1..], r, if t == 0 then left - 1 else left);
    }
  }

  /** When the waiter looks at a pool that has nothing to do, it returns if and only if no
      worker is counted as busy: then after its next three steps, whatever the workers do in
      between; otherwise in no run without a spurious wakeup. */
  lemma WaitReturnsExactly(workers: nat, schedule: Schedule, s: Pool)
    requires Reaches(workers, schedule, s) && s.pcs[0] == Main(WaitBusy) && Quiet(s)
    ensures s.busy == 0 <==>
              exists q, r :: NoSpurious(q) && Run(s, q) == Some(r) && r.pcs[0] == Main(WaitReturned)
    ensures s.busy == 0 ==>
              forall q, r :: Run(s, q) == Some(r) && MainSteps(q) == 3 ==> r.pcs[0] == Main(WaitReturned)
  {
    ReachableInv(workers, schedule, s);
    if s.busy == 0 {
      var q, r := ThreeSteps(s);
      assert NoSpurious(q) && Run(s, q) == Some(r) && r.pcs[0] == Main(WaitReturned);
      forall q, r | Run(s, q) == Some(r) && MainSteps(q) == 3 ensures r.pcs[0] == Main(WaitReturned) {
        PassingRun(s, q, r, 3);
      }
    } else {
      forall q, r | NoSpurious(q) && Run(s, q) == Some(r) ensures r.pcs[0] != Main(WaitReturned) {
        StrandedForEver(s, q, r);
      }
    }
  }

  lemma ThreeSteps(s: Pool) returns (q: Schedule, r: Pool)
    requires 0 < |s.pcs| && s.pcs[0] == Main(WaitBusy) && s.busy == 0 && s.queue == []
    ensures NoSpurious(q) && Run(s, q) == Some(r) && r.pcs[0] == Main(WaitReturned)
  {
    var s1 := Step(s, 0, Go).value;
    var s2 := Step(s1, 0, Go).value;
    r := Step(s2, 0, Go).value;
    hide Step;
    assert Run(s, []) == Some(s);
    Extend(s, [], s, 0, Go);
    Extend(s, [] + [(0, Go)], s1, 0, Go);
    Extend(s, [] + [(0, Go)] + [(0, Go)], s2, 0, Go);
    q := [] + [(0, Go)] + [(0, Go)] + [(0, Go)];
  }

  /** How work ends: only by a task that finishes, which signals the waiter if nobody else is
      counted as busy. */
  lemma MoveEndsWork(s: Pool, t: Tid, pc: PC, ch: Choice, m: Move)
    requires Moves(s, t, pc, ch, m)
    ensures Working(pc) && !Working(m.next) ==>
              && pc.Task? && pc.at.Finish? && !m.effect.Push?
              && (0 in s.asleep && s.busy == 1 ==> m.sleep == WakeUp(0))
              && (s.busy != 1 ==> m.sleep.Same?)
  {
    assert 0 in s.asleep ==> 0 in s.asleep * {0};
    assert forall u :: u in s.asleep * {0} ==> u == 0;
  }

  /** The step that leaves a sleeping waiter with nothing to wait for is the end of a task.  It
      wakes the waiter if and only if no other worker is counted as busy; otherwise the waiter
      returns in no run without a spurious wakeup. */
  lemma LastFinishDecides(workers: nat, schedule: Schedule, s: Pool, t: Tid, ch: Choice, s': Pool)
    requires Reaches(workers, schedule, s) && s.pcs[0] == Main(WaitAsleep) && 0 in s.asleep && !Quiet(s)
    requires Step(s, t, ch) == Some(s') && Quiet(s')
    ensures t == 0 ==> ch.Spurious?
    ensures t != 0 ==> s.pcs[t].Task? && s.pcs[t].at.Finish?
    ensures t != 0 ==> (0 !in s'.asleep <==> s.busy == 1)
    ensures t != 0 && s.busy != 1 ==>
              forall q, r :: NoSpurious(q) && Run(s', q) == Some(r) ==> r.pcs[0] != Main(WaitReturned)
  {
    ReachableInv(workers, schedule, s);
    var m := Program(s, t, s.pcs[t], ch).value;
    if t != 0 {
      StepInv(s, t, ch, s');
      assert Working(s.pcs[t]) && !Working(m.next) by { WorkEndsAt(s, t, ch, m, s'); }
      hide Program, Inv;
      MoveEndsWork(s, t, s.pcs[t], ch, m);
      if s.busy != 1 {
        forall q, r | NoSpurious(q) && Run(s', q) == Some(r) ensures r.pcs[0] != Main(WaitReturned) {
          StrandedForEver(s', q, r);
        }
      }
    }
  }

  lemma WorkEndsAt(s: Pool, t: Tid, ch: Choice, m: Move, s': Pool)
    requires Takes(s, t, ch, m, s') && !Quiet(s) && Quiet(s')
    ensures Working(s.pcs[t]) && !Working(m.next)
  {
    hide Program, Working;
    MoveQueue(s, t, s.pcs[t], ch, m);
    TakeWorks(s, t, ch, m);
    assert s'.pcs[t] == m.next;
    forall u | 0 <= u < |s.pcs| && u != t ensures !Working(s.pcs[u]) {
      assert s'.pcs[u] == s.pcs[u];
    }
  }

  lemma TakeWorks(s: Pool, t: Tid, ch: Choice, m: Move)
    requires t < |s.pcs| && Moves(s, t, s.pcs[t], ch, m)
    ensures m.effect.Pop? ==> Working(m.next)
  {
    hide Program;
    MoveQueue(s, t, s.pcs[t], ch, m);
  }

  // ---- rplib_tpool_destroy ---------------------------------------------------------------------

  /** The worker has seen the terminate flag unset and is on its way to sleep. */
  predicate Nodding(pc: PC) {
    pc.Worker? && (pc.w.IdleLock? || pc.w.DropBusy? || pc.w.Sleep?)
  }

  /** The worker will sleep, or sleeps, although termination has been requested. */
  predicate Doomed(s: Pool, w: Tid) {
    1 <= w < |s.pcs| && (Nodding(s.pcs[w]) || (s.pcs[w] == Worker(Asleep) && w in s.asleep))
  }

  /** The main thread is past the broadcast. */
  predicate PastBroadcast(pc: PC) { pc.Main? && (pc.m.Joining? || pc.m.Destroyed?) }

  ghost predicate AllAwake(s: Pool) {
    && 0 < |s.pcs| && PastBroadcast(s.pcs[0]) && s.terminate
    && forall w: Tid :: !Doomed(s, w)
  }

  lemma MoveNods(s: Pool, t: Tid, pc: PC, ch: Choice, m: Move)
    requires Moves(s, t, pc, ch, m)
    ensures s.terminate && Nodding(m.next) ==> Nodding(pc)
    ensures m.next == Worker(Asleep) ==> Nodding(pc) || (pc == Worker(Asleep) && t in s.asleep)
    ensures PastBroadcast(pc) ==> PastBroadcast(m.next) && m.next.m.graceful == pc.m.graceful
  {
  }

  lemma AwakeStep(s: Pool, t: Tid, ch: Choice, m: Move, s': Pool)
    requires Takes(s, t, ch, m, s') && AllAwake(s)
    ensures AllAwake(s') && s'.pcs[0].m.graceful == s.pcs[0].m.graceful
  {
    hide Program;
    MoveNods(s, t, s.pcs[t], ch, m);
    MoveSleep(s, t, s.pcs[t], ch, m);
    assert !Doomed(s, t);
    forall w: Tid ensures !Doomed(s', w) {
      assert !Doomed(s, w);
    }
  }

  lemma {:induction false} AwakeRun(s: Pool, q: Schedule, r: Pool)
    requires AllAwake(s) && Run(s, q) == Some(r)
    ensures AllAwake(r) && r.pcs[0].m.graceful == s.pcs[0].m.graceful
    decreases |q|
  {
    hide Program, Apply;
    if q == [] {
    } else {
      var t, ch := q[0].0, q[0].1;
      var m := Program(s, t, s.pcs[t], ch).value;
      var s1 := Step(s, t, ch).value;
      AwakeStep(s, t, ch, m, s1);
      AwakeRun(s1, q[1..], r);
    }
  }

  /** The worker's last steps towards its end, and the main thread's joins. */
  function Distance(workers: nat): PC -> int {
    (pc: PC) =>
      match pc
      case Main(m) => if m.Joining? then 1 + (if m.joined < workers then workers - m.joined else 0) else 0
      case Worker(w) => Steps(w)
      case _ => 0
  }

  /** The steps a worker without a task has before it, once termination is requested: to its
      end, or to its sleep and from there to its end. */
  function Steps(w: WorkerPC): nat {
    match w
    case IdleLock => 14
    case DropBusy => 13
    case Sleep => 12
    case Start => 13
    case RaiseAlive => 12
    case Top => 11
    case Asleep => 11
    case RaiseBusy => 10
    case ReLock => 10
    case WantQueue => 9
    case ReRaise => 9
    case CheckSize => 8
    case CheckFlag => 7
    case TestFlag => 6
    case Quit => 5
    case DieLock => 4
    case Dying => 3
    case Take => 0
    case Taken(_) => 0
    case Dead => 0
  }

  lemma MoveNears(s: Pool, t: Tid, pc: PC, ch: Choice, m: Move)
    requires Moves(s, t, pc, ch, m) && !ch.Spurious? && s.terminate && s.queue == [] && 0 < |s.pcs|
    requires LastPoint(pc)
    ensures Distance(|s.pcs| - 1)(m.next) < Distance(|s.pcs| - 1)(pc)
  {
  }

  /** A graceful destruction is past its broadcast. */
  ghost predicate Ending(s: Pool) {
    && Inv(s) && WakeInv(s) && 0 < |s.pcs|
    && PastBroadcast(s.pcs[0]) && s.pcs[0].m.graceful
  }

  ghost function Potential(s: Pool): int
    requires 0 < |s.pcs|
  {
    Sum(Distance(|s.pcs| - 1), s.pcs)
  }

  lemma PotentialPositive(s: Pool)
    requires 0 < |s.pcs|
    ensures 0 <= Potential(s)
  {
    SumNonNegative(Distance(|s.pcs| - 1), s.pcs);
  }

  lemma EndingFacts(s: Pool)
    requires Ending(s)
    ensures s.terminate && s.queue == [] && Quiet(s) && Roles(s)
  {
  }

  /** Past the broadcast of a graceful destruction only these points move. */
  predicate LastPoint(pc: PC) {
    PastBroadcast(pc) || (pc.Worker? && !pc.w.Take? && !pc.w.Taken?)
  }

  lemma EndingPoint(s: Pool, t: Tid)
    requires Ending(s) && t < |s.pcs|
    ensures LastPoint(s.pcs[t])
  {
    EndingFacts(s);
    if t != 0 {
      QuietIsWorker(s, t);
    }
  }

  lemma EndingKept(s: Pool, t: Tid, ch: Choice, m: Move, s': Pool)
    requires Takes(s, t, ch, m, s') && Ending(s)
    ensures Ending(s')
  {
    hide Inv, WakeInv, Program;
    StepInv(s, t, ch, s');
    StepWakeInv(s, t, ch, m, s');
    MoveNods(s, t, s.pcs[t], ch, m);
  }

  lemma PotentialFalls(s: Pool, t: Tid, ch: Choice, m: Move, s': Pool)
    requires Takes(s, t, ch, m, s') && Ending(s) && !ch.Spurious?
    ensures |s'.pcs| == |s.pcs| && Potential(s') < Potential(s)
  {
    EndingFacts(s);
    EndingPoint(s, t);
    hide Ending, Program, Quiet, Roles, Distance;
    MoveNears(s, t, s.pcs[t], ch, m);
    SumUpdate(Distance(|s.pcs| - 1), s.pcs, t, m.next);
  }

  /** A nodding worker nods on until it is asleep, and a sleeping one does not move. */
  lemma DoomedMoves(s: Pool, t: Tid, pc: PC, ch: Choice, m: Move)
    requires Moves(s, t, pc, ch, m) && !ch.Spurious?
    ensures Nodding(pc) ==> Nodding(m.next) || (m.next == Worker(Asleep) && m.sleep.FallAsleep?)
    ensures !(pc == Worker(Asleep) && t in s.asleep)
  {
  }

  lemma DoomedStep(s: Pool, t: Tid, ch: Choice, m: Move, s': Pool)
    requires Takes(s, t, ch, m, s') && Ending(s) && !ch.Spurious?
    ensures forall w: Tid :: Doomed(s, w) ==> Doomed(s', w)
  {
    EndingPoint(s, t);
    hide Ending, Program;
    MoveWakes(s, t, s.pcs[t], ch, m);
    DoomedMoves(s, t, s.pcs[t], ch, m);
  }

  lemma {:induction false} EndingRun(s: Pool, q: Schedule, r: Pool)
    requires Ending(s) && NoSpurious(q) && Run(s, q) == Some(r)
    ensures Ending(r) && |q| + Potential(r) <= Potential(s)
    ensures forall w: Tid :: Doomed(s, w) ==> Doomed(r, w)
    decreases |q|
  {
    hide Ending, Program, Apply, Potential, Doomed;
    if q == [] {
    } else {
      var t, ch := q[0].0, q[0].1;
      var m := Program(s, t, s.pcs[t], ch).value;
      var s1 := Step(s, t, ch).value;
      EndingKept(s, t, ch, m, s1);
      PotentialFalls(s, t, ch, m, s1);
      DoomedStep(s, t, ch, m, s1);
      EndingRun(s1, q[1..], r);
    }
  }

  /** Going on without spurious wakeups comes to rest. */
  lemma {:induction false} RunToRest(s: Pool) returns (q: Schedule, r: Pool)
    requires Ending(s)
    ensures NoSpurious(q) && Run(s, q) == Some(r) && Stalled(r)
    decreases Potential(s)
  {
    hide Ending, Program, Apply, Potential;
    if Stalled(s) {
      q, r := [], s;
    } else {
      var t: Tid, ch: Choice :| !ch.Spurious? && Step(s, t, ch).Some?;
      var m := Program(s, t, s.pcs[t], ch).value;
      var s1 := Step(s, t, ch).value;
      EndingKept(s, t, ch, m, s1);
      PotentialFalls(s, t, ch, m, s1);
      PotentialNatural(s);
      PotentialNatural(s1);
      var rest;
      rest, r := RunToRest(s1);
      q := [(t, ch)] + rest;
      assert q[1..] == rest;
    }
  }

  lemma PotentialNatural(s: Pool)
    requires Ending(s)
    ensures 0 <= Potential(s)
  {
    PotentialPositive(s);
  }

  /** Once the broadcast of a destruction, graceful or not, finds no worker between its look at
      the flag and its sleep, the only rest that is left is the end of the destruction. */
  lemma AwakeMeansDestroyed(workers: nat, schedule: Schedule, s: Pool, q: Schedule, r: Pool)
    requires Reaches(workers, schedule, s) && AllAwake(s) && Run(s, q) == Some(r) && Stalled(r)
    ensures r.pcs[0] == Main(Destroyed(s.pcs[0].m.graceful))
  {
    AwakeRun(s, q, r);
    RunConcat(Init(workers), schedule, s, q, r);
    StalledExactly(workers, schedule + q, r);
    ReachableWakeInv(workers, schedule + q, r);
    forall k: Tid | 1 <= k < |r.pcs| ensures r.pcs[k] == Worker(Dead) {
      assert Idle(r, k) && !MainPoint(r.pcs[k]) && !Doomed(r, k);
    }
    assert Idle(r, 0);
  }

  lemma {:induction false} RunConcat(s0: Pool, p: Schedule, s: Pool, q: Schedule, r: Pool)
    requires Run(s0, p) == Some(s) && Run(s, q) == Some(r)
    ensures Run(s0, p + q) == Some(r)
    decreases |p|
  {
    hide Step;
    if p == [] {
      assert p + q == q;
    } else {
      assert (p + q)[1..] == p[1..] + q;
      RunConcat(Step(s0, p[0].0, p[0].1).value, p[1..], s, q, r);
    }
  }

  /** A worker is between its look at the flag and its sleep. */
  ghost predicate SomeNodding(s: Pool) {
    exists w: Tid :: 1 <= w < |s.pcs| && Nodding(s.pcs[w])
  }

  /** A graceful destruction returns if and only if its broadcast finds no worker between its
      look at the terminate flag and its sleep.  Then every run without a spurious wakeup,
      however it is scheduled, ends after at most Potential(s) steps with the destruction
      complete; otherwise none completes it. */
  lemma DestroyReturnsExactly(workers: nat, schedule: Schedule, s0: Pool, s: Pool)
    requires Reaches(workers, schedule, s0) && s0.pcs[0] == Main(WakeAll(true))
    requires Step(s0, 0, Go) == Some(s)
    ensures !SomeNodding(s0) <==>
              exists q, r :: NoSpurious(q) && Run(s, q) == Some(r) && r.pcs[0] == Main(Destroyed(true))
    ensures forall q, r :: NoSpurious(q) && Run(s, q) == Some(r) ==> |q| <= Potential(s)
    ensures !SomeNodding(s0) ==>
              forall q, r :: NoSpurious(q) && Run(s, q) == Some(r) && Stalled(r) ==> r.pcs[0] == Main(Destroyed(true))
  {
    BroadcastDone(workers, schedule, s0, s);
    Extend(Init(workers), schedule, s0, 0, Go);
    hide Step, Reaches, Stalled, Ending, AllAwake, Doomed, Potential;
    forall q, r | NoSpurious(q) && Run(s, q) == Some(r) ensures |q| <= Potential(s) {
      EndingRun(s, q, r);
      PotentialNatural(r);
    }
    if SomeNodding(s0) {
      var w: Tid :| 1 <= w < |s0.pcs| && Nodding(s0.pcs[w]);
      forall q, r | NoSpurious(q) && Run(s, q) == Some(r) ensures r.pcs[0] != Main(Destroyed(true)) {
        EndingRun(s, q, r);
        DoomedNotDestroyed(r, w);
      }
    } else {
      forall q, r | Run(s, q) == Some(r) && Stalled(r) ensures r.pcs[0] == Main(Destroyed(true)) {
        AwakeMeansDestroyed(workers, schedule + [(0, Go)], s, q, r);
      }
      var q, r := RunToRest(s);
    }
  }

  /** The state right after the broadcast. */
  lemma BroadcastDone(workers: nat, schedule: Schedule, s0: Pool, s: Pool)
    requires Reaches(workers, schedule, s0) && s0.pcs[0] == Main(WakeAll(true))
    requires Step(s0, 0, Go) == Some(s)
    ensures Ending(s) && s.pcs[0] == Main(Joining(true, 0))
    ensures forall w: Tid :: 1 <= w < |s0.pcs| && Nodding(s0.pcs[w]) ==> Doomed(s, w)
    ensures !SomeNodding(s0) ==> AllAwake(s)
  {
    ReachableWakeInv(workers, schedule, s0);
    var m := Program(s0, 0, s0.pcs[0], Go).value;
    StepInv(s0, 0, Go, s);
    StepWakeInv(s0, 0, Go, m, s);
  }

  lemma DoomedNotDestroyed(r: Pool, w: Tid)
    requires Ending(r) && Doomed(r, w)
    ensures !r.pcs[0].m.Destroyed?
  {
  }
}
