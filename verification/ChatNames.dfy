/** Exactly when names stay unique among the listed connections. */
module ChatNames {
  import opened Basics
  import opened Strings
  import opened Protocol
  import opened Chat
  import opened ChatInvariant
  import opened ChatTheorems
  import opened ChatRequests
  import opened ChatSteps

  /** No two listed connections have the same name; those without one do not count. */
  ghost predicate Unique(s: Server)
    requires Listed(s)
  {
    forall c, d :: c in s.list && d in s.list && c != d && s.info[c].username != [] ==>
      s.info[c].username != s.info[d].username
  }

  /** Task i is a REGISTER that is granted. */
  predicate Grants(s: Server, i: nat, env: Env)
    requires Listed(s)
  {
    Hears(s, i) && env.incoming.Register? && Grantable(s, s.queue[i].conn, env.incoming.name)
  }

  /** The step grants a name that another listed connection has already. */
  ghost predicate Duplicates(s: Server, a: Action)
    requires Listed(s)
  {
    && a.Run? && Grants(s, a.i, a.env)
    && exists d :: d in s.list && d != s.queue[a.i].conn
                   && s.info[d].username == Cleaned(a.env.incoming.name, false)
  }

  // ---- a task that grants nothing leaves its connection's name alone ---------------------------

  lemma InboundNames(s: Server, t: Task, env: Env)
    requires Mid(s, t) && Listed(s) && t.Inbound? && s.info[t.conn].status.PreRegister?
    requires !(t.readable && env.incoming.Register? && Grantable(s, t.conn, env.incoming.name))
    ensures var r := HandleInbound(s, t.conn, t.readable, env);
            t.conn in r.s.info && r.s.info[t.conn].username == s.info[t.conn].username
  {
    hide Mid, Broadcast, Sanitized;
    MidListed(s, t);
    if t.readable && env.incoming.Send? && Cleaned(env.incoming.body, true) != [] {
      BroadcastMid(s, t, s.info[t.conn].username, Cleaned(env.incoming.body, true));
    }
  }

  lemma RequestNames(s: Server, t: Task, env: Env)
    requires Mid(s, t) && Listed(s) && s.info[t.conn].status.PreRegister?
    requires !(t.Inbound? && t.readable && env.incoming.Register? && Grantable(s, t.conn, env.incoming.name))
    ensures var r := OnRequest(s, t, env);
            t.conn in r.info && r.info[t.conn].username == s.info[t.conn].username
  {
    hide Mid, HandleInbound;
    if t.Inbound? {
      InboundNames(s, t, env);
    }
  }

  lemma ProcessNames(s: Server, t: Task, env: Env)
    requires Mid(s, t) && Listed(s)
    requires !(&& t.Inbound? && t.readable && s.info[t.conn].status.PreRegister?
               && env.incoming.Register? && Grantable(s, t.conn, env.incoming.name))
    ensures var r := Process(s, t, env);
            t.conn in r.info && r.info[t.conn].username == s.info[t.conn].username
  {
    hide Mid, Inv, OnRequest, OnPending, OnClosing;
    MidListed(s, t);
    if s.info[t.conn].status.PreRegister? {
      RequestNames(s, t, env);
    } else {
      ProcessDownhill(s, t, env);
    }
  }

  lemma RunNames(actions: seq<Action>, s: Server, i: nat, env: Env, r: Server)
    requires Reaches(actions, s) && Listed(s) && Step(s, Run(i, env)) == Some(r) && !Grants(s, i, env)
    ensures var c := s.queue[i].conn; c in r.info && r.info[c].username == s.info[c].username
  {
    hide Inv, Mid, Process;
    ReachableInv(actions, s);
    var t := s.queue[i];
    if t.conn !in s.held {
      BeginMid(s, i);
      ArriveMid(Begin(s, i), t);
      var s1 := Started(s, i);
      assert forall d :: d in s.info ==> s1.info[d].username == s.info[d].username;
      if t.Inbound? && env.incoming.Register? {
        GrantableSame(s, s1, t.conn, env.incoming.name);
      }
      ProcessNames(s1, t, env);
    }
  }

  lemma {:induction false} AuditNames(s: Server, todo: seq<nat>, c: nat)
    requires c in s.info && forall d :: d in todo ==> d in s.info
    ensures Audited(s, todo).info[c].username == s.info[c].username
    decreases |todo|
  {
    if todo == [] {
    } else {
      AuditNames(Enqueue(s, Heartbeat(todo[0])), todo[1..], c);
    }
  }

  // ---- the theorem -----------------------------------------------------------------------------

  /** All names are as before, and nobody joins the list with one. */
  ghost predicate SameNames(s: Server, r: Server)
    requires Listed(s) && Listed(r)
  {
    && (forall c :: c in s.info ==> c in r.info && r.info[c].username == s.info[c].username)
    && (forall c :: c in r.list && c !in s.list ==> r.info[c].username == [])
  }

  lemma SameNamesUnique(s: Server, r: Server)
    requires Listed(s) && Listed(r) && SameNames(s, r) && Unique(s)
    ensures Unique(r)
  {
    forall c, d | c in r.list && d in r.list && c != d && r.info[c].username != []
      ensures r.info[c].username != r.info[d].username
    {
      assert c in s.list;
      if d in s.list {
        assert s.info[c].username != s.info[d].username;
      }
    }
  }

  lemma OtherNames(actions: seq<Action>, s: Server, a: Action, r: Server)
    requires Reaches(actions, s) && Listed(s) && Step(s, a) == Some(r)
    requires !(a.Run? && Grants(s, a.i, a.env))
    ensures SameNames(s, r)
  {
    hide Inv, Mid, RunTask, Audited, Reaches, Grants;
    match a
    case Accept(_) =>
    case Epoll(_, _) =>
    case Audit =>
      forall c | c in s.info ensures r.info[c].username == s.info[c].username {
        AuditNames(s, s.list, c);
      }
    case Tick(_) =>
    case Contend(_) =>
    case Run(i, env) =>
      ReachableInv(actions, s);
      RunNames(actions, s, i, env, r);
      forall c | c in s.info && c != s.queue[i].conn ensures SameSocket(s, r, c) {
        RunSpares(s, i, env, c);
      }
      InvQueue(s, i);
      LastTaskDestroys(actions, s, i, env, r);
  }

  lemma GrantedNames(actions: seq<Action>, s: Server, i: nat, env: Env, r: Server)
    requires Reaches(actions, s) && Listed(s) && Step(s, Run(i, env)) == Some(r) && Grants(s, i, env)
    ensures r.list == s.list && s.queue[i].conn in s.list
    ensures forall c :: c in s.list ==>
              r.info[c].username ==
                if c == s.queue[i].conn then Cleaned(env.incoming.name, false) else s.info[c].username
  {
    hide Inv, RunTask, Reaches;
    ReachableInv(actions, s);
    InvQueue(s, i);
    ListKept(actions, s, i, env, r);
    RegisterEffect(actions, s, i, env, r);
    forall c | c in s.list && c != s.queue[i].conn ensures SameSocket(s, r, c) {
      RunSpares(s, i, env, c);
    }
  }

  /** A step from a state with unique names leads to one, unless and only unless it is a
      REGISTER that is granted a name which another listed connection has. */
  lemma UniqueExactly(actions: seq<Action>, s: Server, a: Action, r: Server)
    requires Reaches(actions, s) && Listed(s) && Step(s, a) == Some(r) && Unique(s)
    ensures Unique(r) <==> !Duplicates(s, a)
  {
    hide Reaches, Step;
    if a.Run? && Grants(s, a.i, a.env) {
      GrantedNames(actions, s, a.i, a.env, r);
      var c := s.queue[a.i].conn;
      if d :| d in s.list && d != c && s.info[d].username == Cleaned(a.env.incoming.name, false) {
        assert r.info[c].username == r.info[d].username != [];
      } else {
        forall x, y | x in r.list && y in r.list && x != y && r.info[x].username != []
          ensures r.info[x].username != r.info[y].username
        {
          assert x != c && y != c ==> s.info[x].username != s.info[y].username;
        }
      }
    } else {
      OtherNames(actions, s, a, r);
      SameNamesUnique(s, r);
    }
  }

  // ---- a connection that was moved on before it registered -------------------------------------

  /** A connection that has not registered has no name, unless its registration hangs. */
  ghost predicate Nameless(s: Server) {
    forall c :: c in s.info && s.info[c].status.PreRegister? && c !in s.held ==> s.info[c].username == []
  }

  lemma RequestHolds(s: Server, t: Task, env: Env)
    requires Listed(s) && t.conn in s.info
    ensures s.held <= OnRequest(s, t, env).held && s.held <= OnPending(s, t, env).held
  {
    hide HandleInbound;
    if t.Inbound? {
      HandledHeld(s, t.conn, t.readable, env);
    }
  }

  lemma HandledHeld(s: Server, c: nat, readable: bool, env: Env)
    requires Listed(s) && c in s.info
    ensures HandleInbound(s, c, readable, env).s.held == s.held
  {
    hide Broadcast, Sanitized, Taken;
  }

  lemma {:induction false} AuditHolds(s: Server, todo: seq<nat>)
    requires forall d :: d in todo ==> d in s.info
    ensures Audited(s, todo).held == s.held
    decreases |todo|
  {
    if todo == [] {
    } else {
      AuditHolds(Enqueue(s, Heartbeat(todo[0])), todo[1..]);
    }
  }

  lemma ProcessHolds(s: Server, t: Task, env: Env)
    requires Listed(s) && t.conn in s.info
    ensures s.held <= Process(s, t, env).held
  {
    hide OnRequest, OnPending, Walk;
    RequestHolds(s, t, env);
  }

  /** A mutex that a hung worker keeps is kept for ever. */
  lemma StepHolds(s: Server, a: Action, r: Server)
    requires Listed(s) && Step(s, a) == Some(r)
    ensures s.held <= r.held
  {
    hide Process, Audited;
    match a
    case Accept(_) =>
    case Epoll(_, _) =>
    case Audit => AuditHolds(s, s.list);
    case Tick(_) =>
    case Contend(_) =>
    case Run(i, env) =>
      if s.queue[i].conn !in s.held {
        ProcessHolds(Started(s, i), s.queue[i], env);
      }
  }

  lemma NamelessStep(actions: seq<Action>, s: Server, a: Action, r: Server)
    requires Reaches(actions, s) && Listed(s) && Step(s, a) == Some(r) && Nameless(s)
    ensures Nameless(r)
  {
    hide Inv, Reaches, RunTask, Audited;
    ReachableInv(actions, s);
    StepHolds(s, a, r);
    StepKeys(s, a, r);
    if a.Accept? {
      AcceptEffect(s, a.conn, r);
    }
    forall c | c in r.info && r.info[c].status.PreRegister? && c !in r.held ensures r.info[c].username == [] {
      if c in s.info {
        StepDownhill(s, a, r, c);
        if a.Run? && Grants(s, a.i, a.env) {
          RegisterEffect(actions, s, a.i, a.env, r);
          if c != s.queue[a.i].conn {
            RunSpares(s, a.i, a.env, c);
          }
        } else {
          OtherNames(actions, s, a, r);
        }
      }
    }
  }

  lemma {:induction false} NamelessRun(done: seq<Action>, s: Server, actions: seq<Action>, r: Server)
    requires Reaches(done, s) && Listed(s) && Nameless(s) && Execute(s, actions) == Some(r)
    ensures Nameless(r)
    decreases |actions|
  {
    hide Step, Reaches, Nameless;
    if actions == [] {
    } else {
      var s1 := Step(s, actions[0]).value;
      NamelessStep(done, s, actions[0], s1);
      var more := Then(done, s, actions[0], s1);
      NamelessRun(more, s1, actions[1..], r);
    }
  }

  /** A connection that an OUTBOUND task finds in PRE_REGISTER is shut out: it has no name then,
      and in no continuation does it return to PRE_REGISTER or get one. */
  lemma LockedOut(actions: seq<Action>, s: Server, i: nat, env: Env, r: Server, more: seq<Action>, r': Server)
    requires Reaches(actions, s) && Listed(s) && Step(s, Run(i, env)) == Some(r)
    requires s.queue[i].Outbound? && s.queue[i].conn !in s.held && s.info[s.queue[i].conn].status.PreRegister?
    requires Listed(r) && Execute(r, more) == Some(r')
    ensures var c := s.queue[i].conn;
            c in r'.info && !r'.info[c].status.PreRegister? && r'.info[c].username == []
  {
    assert Reaches([], INITIAL);
    hide Reaches, Inv, RunTask, Execute;
    assert Execute(INITIAL, actions) == Some(s) by { ReachesMeans(actions, s); }
    NamelessRun([], INITIAL, actions, s);
    FirstTask(actions, s, i, env, r);
    ReachableInv(actions, s);
    RunTaskInv(s, i, env);
    TeardownIsFinal(r, more, r', s.queue[i].conn);
  }

  lemma ReachesMeans(actions: seq<Action>, s: Server)
    requires Reaches(actions, s)
    ensures Execute(INITIAL, actions) == Some(s)
  {
  }
}
