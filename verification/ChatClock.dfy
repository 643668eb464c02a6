/** Times: when a connection was accepted, when its tasks ran, when it was last active. */
module ChatClock {
  import opened Basics
  import opened Strings
  import opened Protocol
  import opened Chat
  import opened ChatView
  import opened ChatInvariant
  import opened ChatTheorems
  import opened ChatRequests
  import opened ChatSteps

  /** What the action adds to the tasks that have run on c. */
  function RanBy(s: Server, a: Action, c: nat): seq<Ran> {
    if a.Run? && Free(s, a.i) && s.queue[a.i].conn == c then [Ran(s.queue[a.i].Heartbeat?, s.clock)] else []
  }

  /** The step from s to r by action a dates c as it should. */
  predicate Dated(s: Server, a: Action, r: Server, c: nat)
    requires c in s.info
  {
    && c in r.info
    && r.info[c].born == s.info[c].born
    && r.info[c].runs == s.info[c].runs + RanBy(s, a, c)
    && r.info[c].lastActive == if Touches(s, a, c) then s.clock else s.info[c].lastActive
  }

  /** The action is c's acceptance, or runs a task of c that is no heartbeat. */
  predicate Touches(s: Server, a: Action, c: nat) {
    a == Accept(c) || (a.Run? && Free(s, a.i) && s.queue[a.i].conn == c && !s.queue[a.i].Heartbeat?)
  }

  lemma RunDated(actions: seq<Action>, s: Server, i: nat, env: Env, r: Server, c: nat)
    requires Reaches(actions, s) && Listed(s) && Free(s, i) && Step(s, Run(i, env)) == Some(r) && c in s.info
    ensures Dated(s, Run(i, env), r, c)
  {
    hide Reaches, Step, HeardAs, Rejected;
    var t, st := s.queue[i], s.info[s.queue[i].conn].status;
    EveryCase(s, i);
    if t.Outbound? && (st.PreRegister? || st.Available?) {
      OutboundEffect(s, i, env, r);
    } else if t.Outbound? && (st.SendMsg? || (st.SendStat? && t.msg.StatusMsg?)) {
      SubmitEffect(s, i, env, r);
    } else if Waits(st, t) {
      WaitEffect(s, i, env, r);
    } else if t.Heartbeat? && !Bad(st) {
      HeartbeatEffect(s, i, env, r);
    } else if st.Err? {
      ErrorEffect(actions, s, i, env, r);
    } else if st.Closing? {
      ClosingDated(actions, s, i, env, r, c);
    } else if !t.readable {
      UnreadableRejected(s, i, env.incoming);
      RejectEffect(s, i, env, r);
    } else {
      HeardDated(actions, s, i, env, r, c);
    }
  }

  lemma UnreadableRejected(s: Server, i: nat, m: Incoming)
    requires Listed(s) && Called(s, i) && !s.queue[i].readable
    ensures Rejected(s, s.queue[i], m)
  {
  }

  lemma ClosingDated(actions: seq<Action>, s: Server, i: nat, env: Env, r: Server, c: nat)
    requires Reaches(actions, s) && Listed(s) && Free(s, i) && Step(s, Run(i, env)) == Some(r) && c in s.info
    requires s.info[s.queue[i].conn].status.Closing?
    ensures Dated(s, Run(i, env), r, c)
  {
    hide Reaches, Step;
    if s.info[s.queue[i].conn].pending == 1 {
      FarewellEffect(actions, s, i, env, r);
    } else {
      DropEffect(s, i, env, r);
    }
  }

  lemma HeardDated(actions: seq<Action>, s: Server, i: nat, env: Env, r: Server, c: nat)
    requires Reaches(actions, s) && Listed(s) && Hears(s, i) && Step(s, Run(i, env)) == Some(r) && c in s.info
    ensures Dated(s, Run(i, env), r, c)
  {
    hide Reaches, Step, NameAfter;
    HeardEffect(actions, s, i, env, r);
  }

  /** Every step dates every connection: its acceptance is never changed, and a task that obtains
      the mutex, and no other step, is noted with its kind and the time. */
  lemma StepDated(actions: seq<Action>, s: Server, a: Action, r: Server, c: nat)
    requires Reaches(actions, s) && Listed(s) && Step(s, a) == Some(r) && c in s.info
    ensures Dated(s, a, r, c)
  {
    hide Reaches, Step;
    Enabled(s, a);
    match a
    case Accept(d) => AcceptEffect(s, d, r);
    case Epoll(d, readable) => EpollEffect(s, d, readable, r);
    case Audit => AuditEffect(actions, s, r);
    case Tick(d) => TickEffect(s, d, r);
    case Contend(i) => ContendEffect(s, i, Env(NoData, true, [], []), a, r);
    case Run(i, env) =>
      if Free(s, i) {
        RunDated(actions, s, i, env, r, c);
      } else {
        ContendEffect(s, i, env, a, r);
      }
  }

  /** The time at which a run from s last touched c; before, if it did not. */
  function LastTouch(s: Server, actions: seq<Action>, c: nat, before: int): int
    requires Listed(s)
    decreases |actions|
  {
    if actions == [] then before
    else match Step(s, actions[0])
      case None => before
      case Some(s1) => LastTouch(s1, actions[1..], c, if Touches(s, actions[0], c) then s.clock else before)
  }

  lemma {:induction false} RunDates(done: seq<Action>, s: Server, actions: seq<Action>, r: Server, c: nat, before: int)
    requires Reaches(done, s) && Listed(s) && Execute(s, actions) == Some(r) && c in r.info
    requires c in s.info ==> s.info[c].lastActive == before
    ensures r.info[c].lastActive == LastTouch(s, actions, c, before)
    decreases |actions|
  {
    hide Reaches, Step, Touches;
    if actions == [] {
    } else {
      var a := actions[0];
      var s1 := Step(s, a).value;
      var more := Then(done, s, a, s1);
      if c in s.info {
        StepDated(done, s, a, s1, c);
      } else if c in s1.info {
        Appears(done, s, a, s1, c);
      }
      RunDates(more, s1, actions[1..], r, c, if Touches(s, a, c) then s.clock else before);
    }
  }

  /** A connection appears only by being accepted. */
  lemma Appears(actions: seq<Action>, s: Server, a: Action, r: Server, c: nat)
    requires Reaches(actions, s) && Listed(s) && Step(s, a) == Some(r) && c !in s.info && c in r.info
    ensures a == Accept(c) && Touches(s, a, c) && r.info[c].lastActive == r.info[c].born == s.clock
  {
    StepKeys(s, a, r);
  }

  /** Over every run, last_active of a connection is the time of the latest task other than a
      heartbeat that obtained its mutex, or of its acceptance. */
  lemma LastActiveExact(actions: seq<Action>, s: Server, c: nat)
    requires Reaches(actions, s) && c in s.info
    ensures s.info[c].lastActive == LastTouch(INITIAL, actions, c, 0)
  {
    assert Reaches([], INITIAL);
    RunDates([], INITIAL, actions, s, c, 0);
  }

  /** A heartbeat that obtains the mutex of a live connection closes it if and only if more than 60
      seconds have passed since the run last touched it. */
  lemma InactivityExact(actions: seq<Action>, s: Server, i: nat, env: Env, r: Server)
    requires Reaches(actions, s) && Listed(s) && Free(s, i) && Step(s, Run(i, env)) == Some(r)
    requires s.queue[i].Heartbeat? && !Bad(s.info[s.queue[i].conn].status)
    ensures var c := s.queue[i].conn;
            c in r.info && (r.info[c].status.Closing? <==> 60 < s.clock - LastTouch(INITIAL, actions, c, 0))
  {
    LastActiveExact(actions, s, s.queue[i].conn);
    HeartbeatEffect(s, i, env, r);
  }
}
