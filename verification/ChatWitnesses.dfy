/** Runs of the server that its protocol does not foresee. */
module ChatWitnesses {
  import opened Basics
  import opened Strings
  import opened Protocol
  import opened Chat
  import opened ChatInvariant
  import opened BroadcastLoop
  import opened ChatTheorems
  import opened ChatRequests

  /** Connection 0 is in front without a name, connection d listens and has none either. */
  ghost predicate Ready(s: Server, d: nat) {
    && Listed(s) && s.list == [0, 1, 2] && !s.hung && s.held == {} && d in s.list && d != 0
    && s.info[0].username == [] && s.info[d].watched
    && (forall c :: c in s.list ==> !Bad(s.info[c].status))
    && s.info[d].status.PreRegister?
  }

  lemma ThreeArrive() returns (actions: seq<Action>, s: Server)
    ensures Reaches(actions, s) && Ready(s, 1) && Ready(s, 2)
    ensures s.queue == [] && s.info[0].watched && s.info[0].status.PreRegister?
  {
    var s0 := INITIAL;
    assert Reaches([], s0);
    var s1, s2 := AcceptConn(s0, 0), AcceptConn(AcceptConn(s0, 0), 1);
    s := AcceptConn(s2, 2);
    assert s.list == [0, 1, 2];
    hide Reaches;
    actions := Then([], s0, Accept(0), s1);
    actions := Then(actions, s1, Accept(1), s2);
    actions := Then(actions, s2, Accept(2), s);
  }

  /** d sends its REGISTER, and its task is the next to run. */
  lemma Registers(actions: seq<Action>, s: Server, d: nat, e: nat, name: Bytes)
    returns (longer: seq<Action>, r: Server)
    requires Reaches(actions, s) && Ready(s, d) && Sanitized(name, false) != []
    requires e in s.list && e != d
    ensures Reaches(longer, r) && r.list == s.list && d in r.info && e in r.info
    ensures r.info[d].username == Sanitized(name, false) && r.info[e].username == s.info[e].username
    ensures Ready(s, e) ==> Ready(r, e)
    ensures r.held == {} && r.info[e].status == s.info[e].status && exists k :: OutboundAt(r, k, e)
  {
    hide Reaches, Inv, Sanitized, RunTask;
    var env := Env(Incoming.Register(Some(name)), true, [], []);
    var s1 := EpollEvent(s, d, true);
    var i := |s.queue|;
    assert s1.queue[i] == Inbound(d, true);
    longer := Then(actions, s, Epoll(d, true), s1);
    r := RunTask(s1, i, env);
    assert Listed(s1);
    RegisterEffect(longer, s1, i, env, r);
    ReachableInv(longer, s1);
    forall c | c in s.list && c != d ensures SameSocket(s1, r, c) {
      RunSpares(s1, i, env, c);
    }
    assert Listed(r) && SameSocket(s1, r, 0) && SameSocket(s1, r, e);
    ListKept(longer, s1, i, env, r);
    assert !r.hung && forall c :: c in r.list ==> !Bad(r.info[c].status);
    FannedTo(Without(s1.queue, i), [Welcome(s1, d, [])], r, s1.list, d, e, SERVER_NAME, Sanitized([], true),
             Receipt(d, PreRegister));
    longer := Then(longer, s1, Action.Run(i, env), r);
  }

  /** Task k is an OUTBOUND task of c. */
  predicate OutboundAt(s: Server, k: nat, c: nat) {
    k < |s.queue| && s.queue[k].Outbound? && s.queue[k].conn == c
  }

  lemma {:induction false} NamedSomewhere(q: seq<Task>, c: nat) returns (k: nat)
    requires 0 < Naming(q, c)
    ensures k < |q| && q[k].conn == c
  {
    k := 0;
    if q[0].conn != c {
      k := NamedSomewhere(q[1..], c);
      k := k + 1;
    }
  }

  /** One of the messages fanned out is for e. */
  lemma FannedTo(q: seq<Task>, first: seq<Task>, r: Server, list: seq<nat>, d: nat, e: nat, from: Bytes, text: Bytes,
                 last: seq<Task>)
    requires FannedOut(q, first, r, list, d, from, text, last) && e in list && e != d
    ensures exists k :: OutboundAt(r, k, e)
  {
    var sent :| r.queue == q + first + sent + last && IsFan(sent, list, d, from, text);
    var k := NamedSomewhere(sent, e);
    assert sent[k] in sent && Carries(sent[k], from, text);
    assert r.queue[|q| + |first| + k] == sent[k];
    assert OutboundAt(r, |q| + |first| + k, e);
  }

  /** For every name the server can be brought to give it to two connections at once: names
      are not unique among active connections. */
  lemma NamesRepeat(name: Bytes)
    requires Sanitized(name, false) != []
    ensures exists actions, s ::
              && Reaches(actions, s) && 1 in s.list && 2 in s.list && 1 in s.info && 2 in s.info
              && s.info[1].username == Sanitized(name, false) == s.info[2].username
  {
    var actions, s := ThreeArrive();
    hide Reaches, Sanitized;
    actions, s := Registers(actions, s, 1, 2, name);
    actions, s := Registers(actions, s, 2, 1, name);
  }

  // ---- a broadcast that never returns ----------------------------------------------------------

  /** Connection 0's socket reports an error, which its task turns into the state ERR. */
  lemma ZeroFails(actions: seq<Action>, s: Server) returns (longer: seq<Action>, r: Server)
    requires Reaches(actions, s) && Ready(s, 1) && s.queue == [] && s.info[0].watched
    requires s.info[0].status.PreRegister?
    ensures Reaches(longer, r) && Listed(r) && 0 in r.list && 1 in r.list && r.held == {}
    ensures r.info[0].status.Err? && r.info[1] == s.info[1] && !r.hung
  {
    hide Reaches;
    var s1 := EpollEvent(s, 0, false);
    assert s1.queue[0] == Inbound(0, false) && s1.info[0].status.PreRegister? && s1.info[1] == s.info[1];
    longer := Then(actions, s, Epoll(0, false), s1);
    var env := Env(NoData, true, [], []);
    r := RunTask(s1, 0, env);
    longer := Then(longer, s1, Action.Run(0, env), r);
  }

  /** Connection 1 sends while connection 0 is in error. */
  lemma OneSends(actions: seq<Action>, s: Server, body: Bytes)
    returns (longer: seq<Action>, s1: Server, i: nat, env: Env, r: Server)
    requires Reaches(actions, s) && Listed(s) && 0 in s.list && 1 in s.list && s.held == {} && !s.hung
    requires s.info[0].status.Err? && s.info[1].watched && s.info[1].status.PreRegister?
    requires Sanitized(body, true) != []
    ensures Reaches(longer, s1) && Listed(s1) && !s1.hung && Hears(s1, i) && env.incoming == Send(Some(body))
    ensures Step(s1, Action.Run(i, env)) == Some(r) && r.hung
  {
    hide Reaches, Sanitized, RunTask;
    i := |s.queue|;
    s1 := EpollEvent(s, 1, true);
    assert s1.queue[i] == Inbound(1, true) && s1.info[0].status.Err?;
    longer := Then(actions, s, Epoll(1, true), s1);
    assert !Clear(s1, s1.list, 1);
    env := Env(Incoming.Send(Some(body)), true, [], []);
    r := RunTask(s1, i, env);
    SendEffect(longer, s1, i, env, r);
  }

  /** Any SEND with something left of its text can hang the server for ever: it only has to
      arrive while another connection is in error. */
  lemma BroadcastCanHang(body: Bytes)
    requires Sanitized(body, true) != []
    ensures exists actions, s, i, env: Env, r ::
              && Reaches(actions, s) && !s.hung && Hears(s, i) && env.incoming == Send(Some(body))
              && Listed(s) && Step(s, Action.Run(i, env)) == Some(r) && r.hung
  {
    hide Reaches, Sanitized;
    var actions, s := ThreeArrive();
    actions, s := ZeroFails(actions, s);
    var r, i, env;
    actions, s, i, env, r := OneSends(actions, s, body);
  }

  // ---- a SEND in any state ---------------------------------------------------------------------

  /** Connection 1, which has not registered, sends, and its task is the next to run. */
  lemma StrangerSends(body: Bytes) returns (actions: seq<Action>, s: Server, i: nat, env: Env, r: Server)
    requires Sanitized(body, true) != []
    ensures Reaches(actions, s) && Listed(s) && Hears(s, i) && s.queue[i].conn == 1 && s.list == [0, 1, 2]
    ensures s.info[1].status.PreRegister? && env.incoming == Send(Some(body))
    ensures Step(s, Action.Run(i, env)) == Some(r) && Listed(r) && !r.hung && r.held == {}
    ensures FannedOut(Without(s.queue, i), [], r, s.list, 1, s.info[1].username, Sanitized(body, true),
                      Receipt(1, PreRegister))
    ensures r.list == s.list && r.info[0].status.PreRegister? && forall c :: c in r.list ==> !Bad(r.info[c].status)
  {
    var s0;
    actions, s0 := ThreeArrive();
    hide Reaches, Inv, Sanitized, RunTask, FannedOut;
    s, i := EpollEvent(s0, 1, true), |s0.queue|;
    assert s.queue[i] == Inbound(1, true);
    actions := Then(actions, s0, Epoll(1, true), s);
    env := Env(Incoming.Send(Some(body)), true, [], []);
    r := RunTask(s, i, env);
    SendEffect(actions, s, i, env, r);
    ListKept(actions, s, i, env, r);
    ReachableInv(actions, s);
    RunSpares(s, i, env, 0);
    RunSpares(s, i, env, 2);
  }

  /** A connection that never registered has its SEND relayed, under an empty name, and is owed
      a GOOD status for it: for every text of which something is left. */
  lemma StrangersAreRelayed(body: Bytes)
    requires Sanitized(body, true) != []
    ensures exists actions, s, i: nat, env: Env, r ::
              && Reaches(actions, s) && Listed(s) && Hears(s, i) && env.incoming == Send(Some(body))
              && s.info[s.queue[i].conn].status.PreRegister? && Step(s, Action.Run(i, env)) == Some(r) && !r.hung
              && var c := s.queue[i].conn;
                 FannedOut(Without(s.queue, i), [], r, s.list, c, s.info[c].username, Sanitized(body, true),
                           Receipt(c, PreRegister))
  {
    hide Reaches, Sanitized, FannedOut;
    var actions, s, i, env, r := StrangerSends(body);
  }

  /** A DELIVER that finds its connection in PRE_REGISTER or SEND_MSG: it is put back, or sent. */
  lemma OutboundRun(s: Server, k: nat, env: Env)
    requires Listed(s) && k < |s.queue| && s.queue[k].Outbound? && s.queue[k].conn in s.info && env.sendOk
    requires s.queue[k].conn !in s.held
    requires s.info[s.queue[k].conn].status.PreRegister? || s.info[s.queue[k].conn].status.SendMsg?
    ensures var c, r := s.queue[k].conn, RunTask(s, k, env);
            && r.list == s.list && r.hung == s.hung && r.held == s.held && r.info.Keys == s.info.Keys
            && (forall d :: d in s.info && d != c ==> r.info[d] == s.info[d])
            && if s.info[c].status.PreRegister?
               then r.info[c].status.SendMsg? && r.queue != [] && OutboundAt(r, |r.queue| - 1, c)
               else r.info[c].status.PendingStatus? && r.info[c].watched
  {
  }

  /** Connection 0 is sent a DELIVER and awaits the reply, nobody being closing or in error. */
  lemma ZeroAwaits(body: Bytes) returns (actions: seq<Action>, s: Server)
    requires Sanitized(body, true) != []
    ensures Reaches(actions, s) && Listed(s) && 0 in s.list && !s.hung && s.held == {}
    ensures s.info[0].status.PendingStatus? && s.info[0].watched
    ensures forall c :: c in s.list ==> !Bad(s.info[c].status)
  {
    hide Reaches, Sanitized, FannedOut, RunTask;
    var s0, i, env, s1;
    actions, s0, i, env, s1 := StrangerSends(body);
    FannedTo(Without(s0.queue, i), [], s1, s0.list, 1, 0, s0.info[1].username, Sanitized(body, true),
             Receipt(1, PreRegister));
    actions := Then(actions, s0, Action.Run(i, env), s1);
    var k: nat :| OutboundAt(s1, k, 0);
    var quiet := Env(NoData, true, [], []);
    var s2 := RunTask(s1, k, quiet);
    OutboundRun(s1, k, quiet);
    actions := Then(actions, s1, Action.Run(k, quiet), s2);
    k := |s2.queue| - 1;
    s := RunTask(s2, k, quiet);
    OutboundRun(s2, k, quiet);
    actions := Then(actions, s2, Action.Run(k, quiet), s);
  }

  /** A connection that owes the reply to a DELIVER has its SEND relayed, and the SEND taken for
      that reply: for every text of which something is left. */
  lemma SendPassesForReply(body: Bytes)
    requires Sanitized(body, true) != []
    ensures exists actions, s, i: nat, env: Env, r ::
              && Reaches(actions, s) && Listed(s) && Hears(s, i) && env.incoming == Send(Some(body))
              && s.info[s.queue[i].conn].status.PendingStatus? && Step(s, Action.Run(i, env)) == Some(r) && !r.hung
              && var c := s.queue[i].conn;
                 && c in r.info && r.info[c].status.Available?
                 && FannedOut(Without(s.queue, i), [], r, s.list, c, s.info[c].username, Sanitized(body, true), [])
  {
    hide Reaches, Sanitized, FannedOut, RunTask;
    var actions, s0 := ZeroAwaits(body);
    var s, i := EpollEvent(s0, 0, true), |s0.queue|;
    assert s.queue[i] == Inbound(0, true);
    actions := Then(actions, s0, Epoll(0, true), s);
    var env := Env(Incoming.Send(Some(body)), true, [], []);
    var r := RunTask(s, i, env);
    SendEffect(actions, s, i, env, r);
  }

  // ---- a connection that can never register ----------------------------------------------------

  /** For every name: a run in which it is granted, and the notice of that moves another
      listed connection from PRE_REGISTER to SEND_MSG, which shuts it out (ChatNames.LockedOut). */
  lemma NoticeLocksOut(name: Bytes)
    requires Sanitized(name, false) != []
    ensures exists actions, s, k: nat, env: Env, r ::
              && Reaches(actions, s) && Listed(s) && s.list == [0, 1, 2] && s.held == {}
              && s.info[1].username == Sanitized(name, false) && s.info[0].status.PreRegister?
              && OutboundAt(s, k, 0) && Step(s, Action.Run(k, env)) == Some(r)
              && 0 in r.info && r.info[0].status.SendMsg? && r.info[0].username == []
  {
    var actions, s := ThreeArrive();
    hide Reaches, Sanitized, RunTask;
    actions, s := Registers(actions, s, 1, 0, name);
    var k: nat :| OutboundAt(s, k, 0);
    var env := Env(NoData, true, [], []);
    ReachableInv(actions, s);
    InvListed(s);
    var r := RunTask(s, k, env);
    FirstTask(actions, s, k, env, r);
  }
}
