/** What one request does to the whole server, in any reachable state. */
module ChatRequests {
  import opened Basics
  import opened Strings
  import opened Protocol
  import opened Chat
  import opened ChatView
  import opened ChatInvariant
  import opened BroadcastLoop
  import opened ChatTheorems

  /** The states in which a connection listens to its client. */
  predicate Listening(status: Status) {
    status.PreRegister? || status.Available? || status.PendingStatus?
  }

  /** Task i carries a readable event for a connection that listens and whose mutex is free. */
  predicate Hears(s: Server, i: nat) {
    && i < |s.queue| && s.queue[i].Inbound? && s.queue[i].readable
    && s.queue[i].conn in s.info && s.queue[i].conn !in s.held
    && Listening(s.info[s.queue[i].conn].status)
  }

  /** What is left of a field; nothing when the field was refused. */
  function Cleaned(field: Option<Bytes>, ctrl: bool): Bytes {
    if field.None? then [] else Sanitized(field.value, ctrl)
  }

  /** What an accepted request leaves behind the messages it fans out. */
  function Receipt(c: nat, status: Status): seq<Task> {
    if status.PendingStatus? then [] else [Outbound(c, StatusMsg(STATUS_GOOD, []))]
  }

  function After(status: Status): Status { if status.PendingStatus? then Available else SendStat }

  /** The tasks q is extended with are one fan-out, then the receipt. */
  ghost predicate FannedOut(q: seq<Task>, first: seq<Task>, r: Server, list: seq<nat>, c: nat,
                            from: Bytes, text: Bytes, last: seq<Task>) {
    exists sent :: r.queue == q + first + sent + last && IsFan(sent, list, c, from, text)
  }

  /** The task never returns: the worker keeps the list's and the connection's mutexes. */
  ghost predicate Stuck(s: Server, r: Server, c: nat)
    requires c in s.info
  {
    r.hung && c in r.held && c in r.info && r.info[c].status == s.info[c].status
  }

  /** What an accepted request adds to the state its handler left. */
  lemma AcceptedMid(s: Server, t: Task, env: Env, b: Server)
    requires Listed(s) && t.conn in s.info && t.Inbound? && t.readable && Listening(s.info[t.conn].status)
    requires HandleInbound(s, t.conn, true, env) == Handled(Success, b)
    requires t.conn in b.info && b.info[t.conn].statMsg == []
    ensures var c, st, r := t.conn, s.info[t.conn].status, Process(s, t, env);
            && c in r.info && r.info[c].status == After(st) && r.hung == b.hung
            && r.info[c].username == b.info[c].username && r.queue == b.queue + Receipt(c, st)
  {
    hide HandleInbound;
  }

  lemma HangingMid(s: Server, t: Task, env: Env, b: Server)
    requires Listed(s) && t.conn in s.info && t.Inbound? && t.readable && Listening(s.info[t.conn].status)
    requires HandleInbound(s, t.conn, true, env) == Handled(Hangs, b)
    requires t.conn in b.info && b.info[t.conn].status == s.info[t.conn].status && b.hung
    ensures var c, r := t.conn, Process(s, t, env);
            Stuck(s, r, c) && r.info[c].username == b.info[c].username
  {
    hide HandleInbound;
  }

  lemma SendNothing(s: Server, t: Task, env: Env)
    requires Listed(s) && t.conn in s.info && t.Inbound? && t.readable && Listening(s.info[t.conn].status)
    requires env.incoming.Send? && Cleaned(env.incoming.body, true) == []
    ensures var c, r := t.conn, Process(s, t, env);
            && c in r.info
            && if s.info[c].status.PendingStatus? then r.info[c].status.Available? && r.queue == s.queue
               else r.info[c].status.Err? && r.queue == s.queue + [t]
  {
    hide Sanitized;
  }

  lemma SendMid(s: Server, t: Task, env: Env)
    requires Mid(s, t) && t.Inbound? && t.readable && Listening(s.info[t.conn].status)
    requires env.incoming.Send?
    ensures var c, st, clean := t.conn, s.info[t.conn].status, Cleaned(env.incoming.body, true);
            var r := Process(s, t, env);
            && c in r.info
            && (clean == [] ==>
                  if st.PendingStatus? then r.info[c].status.Available? && r.queue == s.queue
                  else r.info[c].status.Err? && r.queue == s.queue + [t])
            && (clean != [] && (s.hung || !Clear(s, s.list, c)) ==> Stuck(s, r, c))
            && (clean != [] && !s.hung && Clear(s, s.list, c) ==>
                  && r.info[c].status == After(st) && !r.hung
                  && FannedOut(s.queue, [], r, s.list, c, s.info[c].username, clean, Receipt(c, st)))
  {
    hide Mid, Process, Broadcast, Sanitized, IsFan;
    MidListed(s, t);
    MidDistinct(s, t);
    StatMsgEmpty(s, t);
    var c, clean := t.conn, Cleaned(env.incoming.body, true);
    var from := s.info[c].username;
    if clean == [] {
      SendNothing(s, t, env);
    } else {
      SanitizedTwice(env.incoming.body.value, true, true);
      BroadcastReturns(s, c, from, clean);
      BroadcastMid(s, t, from, clean);
      var b := Broadcast(s, c, from, clean);
      if b.hung {
        HangingMid(s, t, env, b);
      } else {
        AcceptedMid(s, t, env, b);
        var sent :| b.queue == s.queue + sent && IsFan(sent, s.list, c, from, clean);
        assert s.queue + [] + sent == b.queue;
      }
    }
  }

  /** The state in which a task's body starts. */
  function Started(s: Server, i: nat): Server
    requires i < |s.queue| && s.queue[i].conn in s.info
  {
    Arrive(Begin(s, i), s.queue[i])
  }

  lemma StartedMid(s: Server, i: nat)
    requires Inv(s) && Hears(s, i)
    ensures Mid(Started(s, i), s.queue[i]) && Listed(s)
    ensures var c, s1 := s.queue[i].conn, Started(s, i);
            && s1.queue == Without(s.queue, i) && s1.list == s.list && s1.hung == s.hung && s1.held == s.held
            && s1.nextId == s.nextId
            && s1.info[c].status == s.info[c].status && s1.info[c].username == s.info[c].username
            && (forall d :: d in s.info && d != c ==> s1.info[d] == s.info[d])
            && s1.info.Keys == s.info.Keys
            && (Clear(s1, s.list, c) <==> Clear(s, s.list, c))
  {
    hide Inv, Mid;
    InvListed(s);
    BeginMid(s, i);
    ArriveMid(Begin(s, i), s.queue[i]);
  }

  /** A SEND, whatever the connection's state: it is relayed if and only if something is left
      of its text and the broadcast can return.  Then every other listed connection has
      exactly one new DELIVER, with the sender's name and the sanitized text, the sender has
      none, and a sender that was not in PENDING_STATUS is owed one GOOD status.  An empty
      text or a refused field is an error, except in PENDING_STATUS. */
  lemma SendEffect(actions: seq<Action>, s: Server, i: nat, env: Env, r: Server)
    requires Reaches(actions, s) && Hears(s, i) && Step(s, Run(i, env)) == Some(r)
    requires env.incoming.Send?
    ensures var c, clean := s.queue[i].conn, Cleaned(env.incoming.body, true);
            var st, rest := s.info[c].status, Without(s.queue, i);
            && c in r.info
            && (clean == [] ==>
                  if st.PendingStatus? then r.info[c].status.Available? && r.queue == rest
                  else r.info[c].status.Err? && r.queue == rest + [s.queue[i]])
            && (clean != [] && (s.hung || !Clear(s, s.list, c)) ==> Stuck(s, r, c))
            && (clean != [] && !s.hung && Clear(s, s.list, c) ==>
                  && r.info[c].status == After(st) && !r.hung
                  && FannedOut(rest, [], r, s.list, c, s.info[c].username, clean, Receipt(c, st)))
  {
    hide Inv, Mid, Process, Clear, FannedOut;
    ReachableInv(actions, s);
    StartedMid(s, i);
    SendMid(Started(s, i), s.queue[i], env);
  }

  lemma RequestHeld(s: Server, t: Task, env: Env)
    requires Mid(s, t) && Listed(s) && t.Inbound? && !Bad(s.info[t.conn].status)
    ensures var r := OnRequest(s, t, env); r.list == s.list && (!r.hung ==> r.held == s.held)
  {
    hide Mid, HandleInbound;
    InboundMid(s, t, env);
  }

  lemma ReplyHeld(s: Server, t: Task, env: Env)
    requires Mid(s, t) && Listed(s) && t.Inbound? && !Bad(s.info[t.conn].status)
    ensures var r := OnPending(s, t, env); r.list == s.list && (!r.hung ==> r.held == s.held)
  {
    hide Mid, HandleInbound;
    InboundMid(s, t, env);
  }

  /** A heard request leaves the list alone. */
  lemma ListKept(actions: seq<Action>, s: Server, i: nat, env: Env, r: Server)
    requires Reaches(actions, s) && Hears(s, i) && Step(s, Run(i, env)) == Some(r)
    ensures r.list == s.list && (!r.hung ==> r.held == s.held)
  {
    hide Reaches, Inv, Mid, OnRequest, OnPending;
    ReachableInv(actions, s);
    StartedMid(s, i);
    MidListed(Started(s, i), s.queue[i]);
    RequestHeld(Started(s, i), s.queue[i], env);
    ReplyHeld(Started(s, i), s.queue[i], env);
  }

  // ---- REGISTER --------------------------------------------------------------------------------

  /** A name is granted to a connection still in PRE_REGISTER, if something is left of it and
      the first listed connection's name has another length. */
  predicate Grantable(s: Server, c: nat, name: Option<Bytes>)
    requires Listed(s) && c in s.info
  {
    && s.info[c].status.PreRegister? && Cleaned(name, false) != [] && !s.hung
    && !(s.list != [] && |s.info[s.list[0]].username| == |Cleaned(name, false)|)
  }

  function Welcome(s: Server, c: nat, text: Bytes): Task {
    Outbound(c, DeliverMsg(Parcel(s.nextId, SERVER_NAME, Sanitized(text, true))))
  }

  lemma WelcomeQueued(s: Server, c: nat, text: Bytes)
    requires c in s.info
    ensures var r := EnqueueDeliver(s, c, SERVER_NAME, text);
            && r.queue == s.queue + [Welcome(s, c, text)] && r.hung == s.hung
            && c in r.info && r.info[c].statMsg == s.info[c].statMsg && r.info[c].username == s.info[c].username
  {
  }

  lemma RegisterMid(s: Server, t: Task, env: Env)
    requires Mid(s, t) && t.Inbound? && t.readable && Listening(s.info[t.conn].status)
    requires env.incoming.Register? && Listed(s) && Grantable(s, t.conn, env.incoming.name)
    ensures var c, r := t.conn, Process(s, t, env);
            && c in r.info && r.info[c].username == Cleaned(env.incoming.name, false)
            && (!Clear(s, s.list, c) ==> Stuck(s, r, c))
            && (Clear(s, s.list, c) ==>
                  && r.info[c].status.SendStat? && !r.hung
                  && FannedOut(s.queue, [Welcome(s, c, env.welcome)], r, s.list, c, SERVER_NAME,
                               Sanitized(env.notice, true), Receipt(c, PreRegister)))
  {
    hide Mid, Process, Broadcast, Sanitized, IsFan, EnqueueDeliver;
    MidListed(s, t);
    StatMsgEmpty(s, t);
    var c, clean := t.conn, Cleaned(env.incoming.name, false);
    var s1 := SetConn(s, c, s.info[c].(username := clean));
    UsernameMid(s, t, clean);
    var s2 := EnqueueDeliver(s1, c, SERVER_NAME, env.welcome);
    SelfDeliverMid(s1, t, SERVER_NAME, env.welcome);
    MidListed(s2, t);
    MidDistinct(s2, t);
    WelcomeQueued(s1, c, env.welcome);
    assert Clear(s2, s2.list, c) <==> Clear(s, s.list, c);
    BroadcastReturns(s2, c, SERVER_NAME, env.notice);
    BroadcastMid(s2, t, SERVER_NAME, env.notice);
    var b := Broadcast(s2, c, SERVER_NAME, env.notice);
    if b.hung {
      HangingMid(s, t, env, b);
    } else {
      AcceptedMid(s, t, env, b);
      var sent :| b.queue == s2.queue + sent && IsFan(sent, s.list, c, SERVER_NAME, Sanitized(env.notice, true));
      assert b.queue == s.queue + [Welcome(s, c, env.welcome)] + sent;
    }
  }

  /** A REGISTER is granted if and only if the connection is still in PRE_REGISTER, something
      is left of the name, the list can be searched and the search does not report it.  Then
      the connection has the sanitized name and a welcome, and, if the broadcast can return,
      every other connection has one notice and the connection is owed one GOOD status.
      Every refusal that returns leaves the name as it was and the connection in error. */
  lemma RegisterEffect(actions: seq<Action>, s: Server, i: nat, env: Env, r: Server)
    requires Reaches(actions, s) && Hears(s, i) && Step(s, Run(i, env)) == Some(r)
    requires env.incoming.Register?
    ensures var c := s.queue[i].conn;
            var rest := Without(s.queue, i);
            && c in r.info
            && (Grantable(s, c, env.incoming.name) ==> r.info[c].username == Cleaned(env.incoming.name, false))
            && (Grantable(s, c, env.incoming.name) && Clear(s, s.list, c) ==>
                  && r.info[c].status.SendStat? && !r.hung
                  && FannedOut(rest, [Welcome(s, c, env.welcome)], r, s.list, c, SERVER_NAME,
                               Sanitized(env.notice, true), Receipt(c, PreRegister)))
            && (Grantable(s, c, env.incoming.name) && !Clear(s, s.list, c) ==> Stuck(s, r, c))
            && (!Grantable(s, c, env.incoming.name) ==>
                  && r.info[c].username == s.info[c].username
                  && if s.hung && s.info[c].status.PreRegister? && Cleaned(env.incoming.name, false) != []
                     then Stuck(s, r, c)
                     else r.info[c].status.Err? && r.queue == rest + [s.queue[i]])
  {
    hide Inv, Mid, Process, Clear, FannedOut;
    ReachableInv(actions, s);
    StartedMid(s, i);
    var s1, c := Started(s, i), s.queue[i].conn;
    assert Listed(s1);
    GrantableSame(s, s1, c, env.incoming.name);
    if Grantable(s, c, env.incoming.name) {
      RegisterMid(s1, s.queue[i], env);
    } else {
      RefusedMid(s1, s.queue[i], env);
    }
  }

  lemma GrantableSame(s: Server, s': Server, c: nat, name: Option<Bytes>)
    requires Listed(s) && Listed(s') && c in s.info && c in s'.info
    requires s'.list == s.list && s'.hung == s.hung && s'.info[c].status == s.info[c].status
    requires forall d :: d in s.info ==> d in s'.info && s'.info[d].username == s.info[d].username
    ensures Grantable(s', c, name) <==> Grantable(s, c, name)
  {
    if s.list != [] {
      assert s.list[0] in s.info;
    }
  }

  lemma RefusedMid(s: Server, t: Task, env: Env)
    requires Listed(s) && t.conn in s.info && t.Inbound? && t.readable && Listening(s.info[t.conn].status)
    requires env.incoming.Register? && !Grantable(s, t.conn, env.incoming.name)
    ensures var c, r := t.conn, Process(s, t, env);
            && c in r.info && r.info[c].username == s.info[c].username
            && if s.hung && s.info[c].status.PreRegister? && Cleaned(env.incoming.name, false) != []
               then Stuck(s, r, c)
               else r.info[c].status.Err? && r.queue == s.queue + [t]
  {
    hide Sanitized;
  }

  // ---- any message in PENDING_STATUS -----------------------------------------------------------

  /** What PENDING_STATUS does not take for the reply it waits for. */
  predicate Refused(m: Incoming) {
    m.NoData? || m.Unknown? || m.Register? || (m.Reply? && m.code.Some? && m.code.value != STATUS_GOOD)
  }

  /** The message is a SEND that cannot be relayed now. */
  ghost predicate Hanging(s: Server, c: nat, m: Incoming)
    requires Listed(s)
  {
    m.Send? && Cleaned(m.body, true) != [] && (s.hung || !Clear(s, s.list, c))
  }

  lemma ReplyMid(s: Server, t: Task, env: Env)
    requires Mid(s, t) && Listed(s) && t.Inbound? && t.readable && s.info[t.conn].status.PendingStatus?
    ensures var c, r := t.conn, Process(s, t, env);
            && c in r.info
            && r.info[c].status == (if Refused(env.incoming) then Err
                                    else if Hanging(s, c, env.incoming) then PendingStatus
                                    else Available)
            && (Hanging(s, c, env.incoming) ==> Stuck(s, r, c))
  {
    MidListed(s, t);
    if env.incoming.Send? {
      hide Mid, Process, Clear, FannedOut, Cleaned;
      SendMid(s, t, env);
    }
  }

  /** PENDING_STATUS, for every message: the connection goes to ERR exactly for no data, an
      unknown opcode, a REGISTER or a status other than GOOD; a SEND that cannot be relayed
      hangs; anything else, relayed or not, is taken for the reply. */
  lemma ReplyEffect(actions: seq<Action>, s: Server, i: nat, env: Env, r: Server)
    requires Reaches(actions, s) && Hears(s, i) && Step(s, Run(i, env)) == Some(r)
    requires s.info[s.queue[i].conn].status.PendingStatus?
    ensures var c := s.queue[i].conn;
            && c in r.info
            && (r.info[c].status.Err? <==> Refused(env.incoming))
            && (Hanging(s, c, env.incoming) ==> Stuck(s, r, c))
            && (r.info[c].status.Available? <==> !Refused(env.incoming) && !Hanging(s, c, env.incoming))
  {
    hide Inv, Mid, Process, Clear;
    ReachableInv(actions, s);
    StartedMid(s, i);
    ReplyMid(Started(s, i), s.queue[i], env);
  }

  // ---- any task in PRE_REGISTER ----------------------------------------------------------------

  /** A connection that has not registered is moved to SEND_MSG exactly by an OUTBOUND task. */
  lemma FirstTask(actions: seq<Action>, s: Server, i: nat, env: Env, r: Server)
    requires Reaches(actions, s) && Step(s, Run(i, env)) == Some(r)
    requires s.info[s.queue[i].conn].status.PreRegister? && s.queue[i].conn !in s.held
    ensures var c := s.queue[i].conn;
            && c in r.info
            && (r.info[c].status.SendMsg? <==> s.queue[i].Outbound?)
            && (s.queue[i].Outbound? ==> r.info[c].username == s.info[c].username)
  {
    ReachableInv(actions, s);
    InvListed(s);
    BeginMid(s, i);
    ArriveMid(Begin(s, i), s.queue[i]);
    FirstMid(Arrive(Begin(s, i), s.queue[i]), s.queue[i], env);
  }

  lemma FirstMid(s: Server, t: Task, env: Env)
    requires Mid(s, t) && Listed(s) && s.info[t.conn].status.PreRegister?
    ensures var r := Process(s, t, env);
            && t.conn in r.info
            && (r.info[t.conn].status.SendMsg? <==> t.Outbound?)
            && (t.Outbound? ==> r.info[t.conn].username == s.info[t.conn].username)
  {
    ProcessList(s, t, env);
    hide Mid, HandleInbound;
    if t.Inbound? {
      InboundMid(s, t, env);
    }
  }

  // ---- the audit -------------------------------------------------------------------------------

  function Heartbeats(list: seq<nat>): (r: seq<Task>)
    ensures |r| == |list| && forall i :: 0 <= i < |r| ==> r[i] == Heartbeat(list[i])
  {
    if list == [] then [] else [Heartbeat(list[0])] + Heartbeats(list[1..])
  }

  lemma {:induction false} AuditAppends(s: Server, todo: seq<nat>)
    requires forall c :: c in todo ==> c in s.info
    ensures Audited(s, todo).queue == s.queue + Heartbeats(todo)
    decreases |todo|
  {
    if todo == [] {
    } else {
      var h, rest := Heartbeat(todo[0]), todo[1..];
      AuditAppends(Enqueue(s, h), rest);
      assert s.queue + [h] + Heartbeats(rest) == s.queue + ([h] + Heartbeats(rest));
    }
  }

  lemma {:induction false} AuditCounts(s: Server, todo: seq<nat>, c: nat)
    requires c in s.info && Distinct(todo) && forall d :: d in todo ==> d in s.info
    ensures Audited(s, todo).info[c]
         == s.info[c].(pending := s.info[c].pending + Bit(c in todo))
    decreases |todo|
  {
    if todo == [] {
    } else {
      assert todo[0] !in todo[1..];
      AuditCounts(Enqueue(s, Heartbeat(todo[0])), todo[1..], c);
    }
  }

  /** The audit queues one heartbeat for every listed connection, in list order, counts it on
      that connection, and changes nothing else. */
  lemma AuditEffect(actions: seq<Action>, s: Server, r: Server)
    requires Reaches(actions, s) && Step(s, Audit) == Some(r)
    ensures r == s.(queue := s.queue + Heartbeats(s.list), info := r.info) && r.info.Keys == s.info.Keys
    ensures forall c :: c in s.info ==>
              r.info[c] == s.info[c].(pending := s.info[c].pending + Bit(c in s.list))
  {
    ReachableInv(actions, s);
    AuditAppends(s, s.list);
    AuditFrame(s, s.list);
    forall c | c in s.info ensures r.info[c] == s.info[c].(pending := s.info[c].pending + Bit(c in s.list)) {
      AuditCounts(s, s.list, c);
    }
  }

  lemma {:induction false} AuditFrame(s: Server, todo: seq<nat>)
    requires forall c :: c in todo ==> c in s.info
    ensures var r := Audited(s, todo); r == s.(queue := r.queue, info := r.info)
    decreases |todo|
  {
    if todo == [] {
    } else {
      AuditFrame(Enqueue(s, Heartbeat(todo[0])), todo[1..]);
    }
  }
}
