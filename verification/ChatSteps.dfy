/** The whole new state after every kind of step, as the states of a connection and the kinds of
    task decide it.  Only what a broadcast leaves behind is described elsewhere (ChatRequests);
    here is everything it does not touch. */
module ChatSteps {
  import opened Basics
  import opened Strings
  import opened Protocol
  import opened Chat
  import opened ChatView
  import opened ChatInvariant
  import opened BroadcastLoop
  import opened ChatTheorems
  import opened ChatRequests

  /** Task i is queued and the mutex of its connection is free. */
  predicate Free(s: Server, i: nat) {
    i < |s.queue| && s.queue[i].conn in s.info && s.queue[i].conn !in s.held
  }

  /** The record of task i's connection, with the activity of this task noted. */
  function Touched(s: Server, i: nat): Conn
    requires i < |s.queue| && s.queue[i].conn in s.info
  {
    var conn, beat := s.info[s.queue[i].conn], s.queue[i].Heartbeat?;
    conn.(lastActive := if beat then conn.lastActive else s.clock, runs := conn.runs + [Ran(beat, s.clock)])
  }

  /** Task i has become task t at the back of the queue, its connection has the given record,
      and nothing else has changed. */
  function PutBack(s: Server, i: nat, t: Task, conn: Conn): Server
    requires i < |s.queue|
  {
    s.(queue := Without(s.queue, i) + [t], info := s.info[s.queue[i].conn := conn])
  }

  /** Task i is gone, its connection has the given record and one job less, and nothing else has
      changed. */
  function UsedUp(s: Server, i: nat, conn: Conn): Server
    requires i < |s.queue|
  {
    s.(queue := Without(s.queue, i), info := s.info[s.queue[i].conn := conn.(pending := conn.pending - 1)])
  }

  // ---- from the body of a task to the step -----------------------------------------------------

  lemma StartedIs(s: Server, i: nat)
    requires i < |s.queue| && s.queue[i].conn in s.info
    ensures Started(s, i) == UsedUp(s, i, Touched(s, i))
  {
    assert Started(s, i).info == UsedUp(s, i, Touched(s, i)).info;
  }

  lemma BodyRuns(s: Server, i: nat, env: Env)
    requires Listed(s) && Free(s, i)
    ensures Listed(Started(s, i)) && Step(s, Run(i, env)) == Some(Process(Started(s, i), s.queue[i], env))
  {
    hide Process;
  }

  /** The body of an event's task for a connection that listens. */
  lemma ListeningRuns(s: Server, i: nat, env: Env)
    requires Listed(s) && Free(s, i) && s.queue[i].Inbound? && Listening(s.info[s.queue[i].conn].status)
    ensures var s1, t := Started(s, i), s.queue[i];
            && Listed(s1)
            && Step(s, Run(i, env)) == Some(if s.info[t.conn].status.PendingStatus? then OnPending(s1, t, env)
                                            else OnRequest(s1, t, env))
  {
    hide OnPending, OnRequest;
  }

  /** A body that only replaces its connection's record, and one that also puts a task back. */
  lemma BodyEnds(s: Server, i: nat, conn: Conn, t: Task)
    requires i < |s.queue| && s.queue[i].conn in s.info && t.conn == s.queue[i].conn
    requires conn.pending == s.info[t.conn].pending
    ensures SetConn(Started(s, i), t.conn, conn.(pending := conn.pending - 1)) == UsedUp(s, i, conn)
    ensures Enqueue(SetConn(Started(s, i), t.conn, conn.(pending := conn.pending - 1)), t) == PutBack(s, i, t, conn)
  {
    StartedIs(s, i);
    assert UsedUp(s, i, Touched(s, i)).info[t.conn := conn] == s.info[t.conn := conn];
    assert UsedUp(s, i, Touched(s, i)).info[t.conn := conn.(pending := conn.pending - 1)]
        == s.info[t.conn := conn.(pending := conn.pending - 1)];
    assert conn.(pending := conn.pending - 1).(pending := conn.pending) == conn;
    var s1 := SetConn(Started(s, i), t.conn, conn.(pending := conn.pending - 1));
    assert Enqueue(s1, t).info == s1.info[t.conn := conn];
    assert s1.info[t.conn := conn] == s.info[t.conn := conn];
  }

  /** What is replaced twice is replaced once. */
  lemma SetTwice(s: Server, c: nat, a: Conn, b: Conn)
    ensures SetConn(SetConn(s, c, a), c, b) == SetConn(s, c, b)
    ensures c in s.info ==> SetConn(s, c, s.info[c]) == s
  {
    assert s.info[c := a][c := b] == s.info[c := b];
    assert c in s.info ==> s.info[c := s.info[c]] == s.info;
  }

  // ---- OUTBOUND tasks --------------------------------------------------------------------------

  /** In PRE_REGISTER and AVAILABLE an OUTBOUND task moves its connection to SEND_MSG and goes
      back to the queue, with nothing sent yet. */
  lemma OutboundEffect(s: Server, i: nat, env: Env, r: Server)
    requires Listed(s) && Free(s, i) && Step(s, Run(i, env)) == Some(r) && s.queue[i].Outbound?
    requires var st := s.info[s.queue[i].conn].status; st.PreRegister? || st.Available?
    ensures r == PutBack(s, i, s.queue[i], Touched(s, i).(status := SendMsg))
  {
    var t, s1 := s.queue[i], Started(s, i);
    BodyEnds(s, i, Touched(s, i).(status := SendMsg), t);
  }

  /** The message leaves the queue by being sent: then the connection listens again. */
  function Event(msg: Message): Event {
    match msg
    case StatusMsg(code, text) => StatusSent(code, text)
    case DeliverMsg(p) => DeliverSent(p)
  }

  /** In SEND_STAT a status, and in SEND_MSG any OUTBOUND task, is used up: sent, after which the
      connection listens in AVAILABLE or PENDING_STATUS; or, when the send fails, lost with the
      connection in ERR. */
  lemma SubmitEffect(s: Server, i: nat, env: Env, r: Server)
    requires Listed(s) && Free(s, i) && Step(s, Run(i, env)) == Some(r) && s.queue[i].Outbound?
    requires var st := s.info[s.queue[i].conn].status; st.SendMsg? || (st.SendStat? && s.queue[i].msg.StatusMsg?)
    ensures var conn := Touched(s, i);
            r == UsedUp(s, i,
                   if env.sendOk
                   then conn.(status := if conn.status.SendStat? then Available else PendingStatus, watched := true,
                              sock := conn.sock + [Event(s.queue[i].msg), Watch])
                   else conn.(status := Err, sock := conn.sock + [SendFailed]))
  {
    var t, s1, conn := s.queue[i], Started(s, i), Touched(s, i);
    var next := if conn.status.SendStat? then Available else PendingStatus;
    StartedIs(s, i);
    SubmitIs(s1, t, next, env);
    BodyEnds(s, i, conn.(status := next, watched := true, sock := conn.sock + [Event(t.msg), Watch]), t);
    BodyEnds(s, i, conn.(status := Err, sock := conn.sock + [SendFailed]), t);
  }

  lemma SubmitIs(s: Server, t: Task, next: Status, env: Env)
    requires t.conn in s.info && t.Outbound?
    ensures var conn := s.info[t.conn];
            Submit(s, t.conn, t.msg, next, env)
            == SetConn(s, t.conn,
                 if env.sendOk
                 then conn.(status := next, watched := true, sock := conn.sock + [Event(t.msg), Watch])
                 else conn.(status := Err, sock := conn.sock + [SendFailed]))
  {
    var c, conn, e := t.conn, s.info[t.conn], Event(t.msg);
    assert conn.sock + [e] + [Watch] == conn.sock + [e, Watch];
    assert Submit(s, c, t.msg, next, env).info
        == SetConn(s, c, if env.sendOk
                         then conn.(status := next, watched := true, sock := conn.sock + [e, Watch])
                         else conn.(status := Err, sock := conn.sock + [SendFailed])).info;
  }

  // ---- tasks that have to wait -----------------------------------------------------------------

  /** The connection's state does not admit the task now. */
  predicate Waits(status: Status, t: Task) {
    || (status.SendStat? && !(t.Outbound? && t.msg.StatusMsg?) && !t.Heartbeat?)
    || (status.SendMsg? && t.Inbound?)
    || (status.PendingStatus? && t.Outbound?)
  }

  /** A task that has to wait goes back to the queue as it was. */
  lemma WaitEffect(s: Server, i: nat, env: Env, r: Server)
    requires Listed(s) && Free(s, i) && Step(s, Run(i, env)) == Some(r)
    requires Waits(s.info[s.queue[i].conn].status, s.queue[i])
    ensures r == PutBack(s, i, s.queue[i], Touched(s, i))
  {
    var t, s1 := s.queue[i], Started(s, i);
    BodyEnds(s, i, Touched(s, i), t);
    StartedIs(s, i);
    SetTwice(s1, t.conn, s1.info[t.conn], s1.info[t.conn]);
  }

  // ---- heartbeats, errors and closing ----------------------------------------------------------

  predicate Spells(text: Bytes, word: string) {
    |text| == |word| && forall i :: 0 <= i < |text| ==> text[i] == word[i] as int
  }

  /** The text of the only notice that accompanies an error, and the server's name. */
  lemma ServerTexts()
    ensures Spells(INACTIVE, "Disconnected for inactivity.") && Spells(SERVER_NAME, "[Server]")
  {
  }

  /** The record of a connection that has been told and closed. */
  function Closed(conn: Conn, text: Bytes, sent: bool): Conn {
    conn.(status := Closing, statMsg := [], watched := false, sock := conn.sock + [ErrorStatus(text, sent), Close])
  }

  /** A heartbeat on a live connection is used up, unless more than 60 seconds have passed since
      the last activity: then the connection is told so and closed, and the heartbeat goes back. */
  lemma HeartbeatEffect(s: Server, i: nat, env: Env, r: Server)
    requires Listed(s) && Free(s, i) && Step(s, Run(i, env)) == Some(r) && s.queue[i].Heartbeat?
    requires !Bad(s.info[s.queue[i].conn].status)
    ensures r == if s.clock - s.info[s.queue[i].conn].lastActive <= 60
                 then UsedUp(s, i, Touched(s, i))
                 else PutBack(s, i, s.queue[i], Closed(Touched(s, i), INACTIVE, env.sendOk))
  {
    var t, s1, conn := s.queue[i], Started(s, i), Touched(s, i);
    StartedIs(s, i);
    BodyEnds(s, i, Closed(conn, INACTIVE, env.sendOk), t);
    var c := t.conn;
    var err := s1.info[c].(status := Err, statMsg := INACTIVE);
    SetTwice(s1, c, err, Closed(s1.info[c], INACTIVE, env.sendOk));
  }

  /** Between tasks no text waits to be sent. */
  lemma NoText(actions: seq<Action>, s: Server, c: nat)
    requires Reaches(actions, s) && c in s.info
    ensures s.info[c].statMsg == []
  {
    ReachableInv(actions, s);
    assert ViewOk(ViewOf(s, c, ANY), ANY);
  }

  /** In ERR any task makes the one attempt to tell the client and closes the socket, without a
      text; then it goes back, an OUTBOUND one with the error status in its buffer. */
  lemma ErrorEffect(actions: seq<Action>, s: Server, i: nat, env: Env, r: Server)
    requires Reaches(actions, s) && Listed(s) && Free(s, i) && Step(s, Run(i, env)) == Some(r)
    requires s.info[s.queue[i].conn].status.Err?
    ensures var t := s.queue[i];
            r == PutBack(s, i, if t.Outbound? then Outbound(t.conn, StatusMsg(STATUS_ERROR, [])) else t,
                         Closed(Touched(s, i), [], env.sendOk))
  {
    var t, s1, conn := s.queue[i], Started(s, i), Touched(s, i);
    NoText(actions, s, t.conn);
    hide Reaches;
    StartedIs(s, i);
    var back := if t.Outbound? then Outbound(t.conn, StatusMsg(STATUS_ERROR, [])) else t;
    BodyEnds(s, i, Closed(conn, [], env.sendOk), back);
  }

  /** In CLOSING a task that is not the connection's last one is dropped. */
  lemma DropEffect(s: Server, i: nat, env: Env, r: Server)
    requires Listed(s) && Free(s, i) && Step(s, Run(i, env)) == Some(r)
    requires s.info[s.queue[i].conn].status.Closing? && s.info[s.queue[i].conn].pending != 1
    ensures r == UsedUp(s, i, Touched(s, i))
  {
    StartedIs(s, i);
  }

  // ---- what a broadcast leaves alone -----------------------------------------------------------

  /** Of a connection's record only the job count and the DELIVERs made for it have changed. */
  predicate OnlyFed(a: Conn, b: Conn) { b == a.(pending := b.pending, made := b.made) }

  /** Nobody but c has more than new DELIVERs, and the server is otherwise as before. */
  ghost predicate Fed(s: Server, r: Server, c: nat) {
    && r == s.(queue := r.queue, info := r.info, nextId := r.nextId, hung := r.hung)
    && r.info.Keys == s.info.Keys
    && forall d :: d in s.info && d != c ==> OnlyFed(s.info[d], r.info[d])
  }

  lemma {:induction false} WalkFeeds(s: Server, todo: seq<nat>, c: nat, from: Bytes, text: Bytes)
    requires c in s.info && forall d :: d in todo ==> d in s.info
    ensures var r := Walk(s, todo, c, from, text); Fed(s, r, c) && r.info[c] == s.info[c]
    decreases |todo|
  {
    hide Sanitized;
    if todo == [] {
    } else if todo[0] == c {
      WalkFeeds(s, todo[1..], c, from, text);
    } else if !Bad(s.info[todo[0]].status) {
      WalkFeeds(EnqueueDeliver(s, todo[0], from, text), todo[1..], c, from, text);
    }
  }

  lemma BroadcastFeeds(s: Server, c: nat, from: Bytes, text: Bytes)
    requires Listed(s) && c in s.info
    ensures var r := Broadcast(s, c, from, text); Fed(s, r, c) && r.info[c] == s.info[c]
  {
    hide Walk;
    WalkFeeds(s, s.list, c, from, Sanitized(text, true));
  }

  /** The name a connection has after a message: a granted one, or the one it had. */
  function NameAfter(s: Server, c: nat, m: Incoming): Bytes
    requires Listed(s) && c in s.info
  {
    if m.Register? && Grantable(s, c, m.name) then Cleaned(m.name, false) else s.info[c].username
  }

  lemma HandledFeeds(s: Server, c: nat, env: Env)
    requires Listed(s) && c in s.info
    ensures var b := HandleInbound(s, c, true, env).s;
            && Fed(s, b, c)
            && OnlyFed(s.info[c].(username := NameAfter(s, c, env.incoming)), b.info[c])
  {
    hide Broadcast, Sanitized;
    var m := env.incoming;
    if m.Send? && Cleaned(m.body, true) != [] {
      BroadcastFeeds(s, c, s.info[c].username, Cleaned(m.body, true));
    } else if m.Register? && Grantable(s, c, m.name) {
      var s1 := SetConn(s, c, s.info[c].(username := Cleaned(m.name, false)));
      var s2 := EnqueueDeliver(s1, c, SERVER_NAME, env.welcome);
      BroadcastFeeds(s2, c, SERVER_NAME, env.notice);
    }
  }

  // ---- messages --------------------------------------------------------------------------------

  /** The record of a connection that has read a message, in the given state afterwards; an
      accepted one in PENDING_STATUS makes it listen again. */
  function Heard(conn: Conn, after: Status): Conn {
    var taken := after == After(conn.status);
    var again := taken && conn.status.PendingStatus?;
    conn.(status := after, watched := conn.watched || again,
          sock := conn.sock + [Read(conn.status, taken)] + if again then [Watch] else [])
  }

  /** From s, with the given record of c, to r, by a message c has read: c is in the state that
      accepts it, in ERR, or in the same state with its mutex held for ever; its record says so
      and otherwise has only new jobs and perhaps a name; nobody else has more than new
      DELIVERs. */
  ghost predicate HeardAs(s: Server, conn: Conn, r: Server, c: nat, name: Bytes)
    requires c in s.info
  {
    && c in r.info && r.info.Keys == s.info.Keys
    && var after := r.info[c].status;
    && (after == After(conn.status) || after.Err? || after == conn.status)
    && OnlyFed(Heard(conn, after).(username := name), r.info[c])
    && (forall d :: d in s.info && d != c ==> OnlyFed(s.info[d], r.info[d]))
    && r == s.(queue := r.queue, info := r.info, nextId := r.nextId, hung := r.hung, held := r.held)
    && r.held == if after == conn.status then s.held + {c} else s.held
  }

  /** b is what a message's handler left, and r has in addition the record of c replaced. */
  lemma HeardFrom(s: Server, c: nat, name: Bytes, b: Server, r: Server, after: Status)
    requires c in s.info && Fed(s, b, c) && OnlyFed(s.info[c].(username := name), b.info[c])
    requires after == After(s.info[c].status) || after.Err? || after == s.info[c].status
    requires c in r.info && r.info == b.info[c := r.info[c]] && r.info[c].status == after
    requires OnlyFed(Heard(s.info[c], after).(username := name), r.info[c])
    requires r == b.(queue := r.queue, info := r.info, held := r.held)
    requires r.held == if after == s.info[c].status then b.held + {c} else b.held
    ensures HeardAs(s, s.info[c], r, c, name)
  {
    hide After, Heard;
  }

  lemma AcceptedHeard(s: Server, c: nat, name: Bytes, b: Server)
    requires c in s.info && Fed(s, b, c) && OnlyFed(s.info[c].(username := name), b.info[c])
    requires var st := s.info[c].status; s.info[c].statMsg == [] && (st.PreRegister? || st.Available?)
    ensures var st := s.info[c].status;
            HeardAs(s, s.info[c],
                    EnqueueStatus(SetStatus(Log(b, c, Read(st, true)), c, SendStat), c, STATUS_GOOD), c, name)
  {
    var st := s.info[c].status;
    var r := EnqueueStatus(SetStatus(Log(b, c, Read(st, true)), c, SendStat), c, STATUS_GOOD);
    assert r.info == b.info[c := r.info[c]];
    assert s.info[c].sock + [Read(st, true)] + [] == s.info[c].sock + [Read(st, true)];
    hide Fed, Enqueue, EnqueueStatus;
    HeardFrom(s, c, name, b, r, SendStat);
  }

  lemma HungHeard(s: Server, c: nat, name: Bytes, b: Server)
    requires c in s.info && Fed(s, b, c) && OnlyFed(s.info[c].(username := name), b.info[c])
    requires Listening(s.info[c].status)
    ensures HeardAs(s, s.info[c], Hang(Log(b, c, Read(s.info[c].status, false)), c), c, name)
  {
    var st := s.info[c].status;
    var r := Hang(Log(b, c, Read(st, false)), c);
    assert r.info == b.info[c := r.info[c]];
    hide Fed;
    HeardFrom(s, c, name, b, r, st);
  }

  lemma RejectedHeard(s: Server, c: nat, name: Bytes, b: Server, t: Task)
    requires c in s.info && Fed(s, b, c) && OnlyFed(s.info[c].(username := name), b.info[c])
    requires Listening(s.info[c].status) && t.conn == c
    ensures HeardAs(s, s.info[c], Enqueue(SetStatus(Log(b, c, Read(s.info[c].status, false)), c, Err), t), c, name)
  {
    var st := s.info[c].status;
    var r := Enqueue(SetStatus(Log(b, c, Read(st, false)), c, Err), t);
    assert r.info == b.info[c := r.info[c]];
    assert s.info[c].sock + [Read(st, false)] + [] == s.info[c].sock + [Read(st, false)];
    hide Fed;
    HeardFrom(s, c, name, b, r, Err);
  }

  lemma TakenHeard(s: Server, c: nat, name: Bytes, b: Server)
    requires c in s.info && Fed(s, b, c) && OnlyFed(s.info[c].(username := name), b.info[c])
    requires s.info[c].status.PendingStatus?
    ensures HeardAs(s, s.info[c], StartWatch(SetStatus(Log(b, c, Read(PendingStatus, true)), c, Available), c), c, name)
  {
    var r := StartWatch(SetStatus(Log(b, c, Read(PendingStatus, true)), c, Available), c);
    assert r.info == b.info[c := r.info[c]];
    hide Fed;
    HeardFrom(s, c, name, b, r, Available);
  }

  lemma RequestHeard(s: Server, t: Task, env: Env)
    requires Listed(s) && t.conn in s.info && t.Inbound? && t.readable && s.info[t.conn].statMsg == []
    requires s.info[t.conn].status.PreRegister? || s.info[t.conn].status.Available?
    ensures var c := t.conn; HeardAs(s, s.info[c], OnRequest(s, t, env), c, NameAfter(s, c, env.incoming))
  {
    hide HandleInbound, NameAfter, HeardAs, Fed, Enqueue, EnqueueStatus;
    var c, name, b := t.conn, NameAfter(s, t.conn, env.incoming), HandleInbound(s, t.conn, true, env).s;
    HandledFeeds(s, c, env);
    AcceptedHeard(s, c, name, b);
    HungHeard(s, c, name, b);
    RejectedHeard(s, c, name, b, t);
  }

  lemma ReplyHeard(s: Server, t: Task, env: Env)
    requires Listed(s) && t.conn in s.info && t.Inbound? && t.readable && s.info[t.conn].status.PendingStatus?
    ensures var c := t.conn; HeardAs(s, s.info[c], OnPending(s, t, env), c, NameAfter(s, c, env.incoming))
  {
    hide HandleInbound, NameAfter, HeardAs, Fed, Enqueue;
    var c, name, b := t.conn, NameAfter(s, t.conn, env.incoming), HandleInbound(s, t.conn, true, env).s;
    HandledFeeds(s, c, env);
    TakenHeard(s, c, name, b);
    HungHeard(s, c, name, b);
    RejectedHeard(s, c, name, b, t);
  }

  /** Every message that is read, in every state that listens, leaves a state HeardAs. */
  lemma HeardEffect(actions: seq<Action>, s: Server, i: nat, env: Env, r: Server)
    requires Reaches(actions, s) && Listed(s) && Hears(s, i) && Step(s, Run(i, env)) == Some(r)
    ensures var c := s.queue[i].conn; HeardAs(s, Touched(s, i), r, c, NameAfter(s, c, env.incoming))
  {
    var t, c, s1 := s.queue[i], s.queue[i].conn, Started(s, i);
    NoText(actions, s, c);
    StartedIs(s, i);
    StartedName(s, i, env.incoming);
    hide Reaches, Step, OnRequest, OnPending, NameAfter, HeardAs;
    ListeningRuns(s, i, env);
    if s.info[c].status.PendingStatus? {
      ReplyHeard(s1, t, env);
    } else {
      RequestHeard(s1, t, env);
    }
    HeardSince(s, i, r, NameAfter(s, c, env.incoming));
  }

  lemma StartedName(s: Server, i: nat, m: Incoming)
    requires Listed(s) && Free(s, i)
    ensures var c := s.queue[i].conn;
            Listed(Started(s, i)) && NameAfter(Started(s, i), c, m) == NameAfter(s, c, m)
  {
    if m.Register? {
      GrantableSame(s, Started(s, i), s.queue[i].conn, m.name);
    }
  }

  /** From the start of the task, and from before it. */
  lemma HeardSince(s: Server, i: nat, r: Server, name: Bytes)
    requires Free(s, i) && Started(s, i) == UsedUp(s, i, Touched(s, i))
    requires var c := s.queue[i].conn; HeardAs(Started(s, i), Started(s, i).info[c], r, c, name)
    ensures HeardAs(s, Touched(s, i), r, s.queue[i].conn, name)
  {
    hide After;
  }

  /** Task i is an event for a connection that listens, readable or not, and its mutex is free. */
  predicate Called(s: Server, i: nat) {
    Free(s, i) && s.queue[i].Inbound? && Listening(s.info[s.queue[i].conn].status)
  }

  /** What a listening connection is put in ERR for: a socket that cannot be read, no data, an
      unknown opcode; in PENDING_STATUS a status other than GOOD, in the other states any status
      and a SEND of which nothing is left; and a REGISTER that is refused without the list's
      mutex having been waited for in vain. */
  predicate Rejected(s: Server, t: Task, m: Incoming)
    requires Listed(s) && t.conn in s.info && t.Inbound?
  {
    var st := s.info[t.conn].status;
    || !t.readable || m.NoData? || m.Unknown?
    || (m.Reply? && (st.PendingStatus? ==> m.code.Some? && m.code.value != 0))
    || (m.Send? && !st.PendingStatus? && Cleaned(m.body, true) == [])
    || (m.Register? && !Grantable(s, t.conn, m.name)
        && !(s.hung && st.PreRegister? && Cleaned(m.name, false) != []))
  }

  /** The record of a connection whose event was rejected: what was read, if anything, is noted. */
  function Failed(conn: Conn, readable: bool): Conn {
    conn.(status := Err, sock := conn.sock + if readable then [Read(conn.status, false)] else [])
  }

  /** A rejected event puts its connection in ERR and its task back, and changes nothing else. */
  lemma RejectEffect(s: Server, i: nat, env: Env, r: Server)
    requires Listed(s) && Called(s, i) && Step(s, Run(i, env)) == Some(r)
    requires Rejected(s, s.queue[i], env.incoming)
    ensures r == PutBack(s, i, s.queue[i], Failed(Touched(s, i), s.queue[i].readable))
  {
    var t, c, s1, conn := s.queue[i], s.queue[i].conn, Started(s, i), Touched(s, i);
    StartedIs(s, i);
    if env.incoming.Register? {
      GrantableSame(s, s1, c, env.incoming.name);
    }
    RejectHandled(s1, t, env);
    hide Step, Process, HandleInbound, Rejected;
    BodyRuns(s, i, env);
    BodyEnds(s, i, Failed(conn, t.readable), t);
    RejectIs(s1, t, env);
  }

  lemma RejectHandled(s: Server, t: Task, env: Env)
    requires Listed(s) && t.conn in s.info && t.Inbound? && Listening(s.info[t.conn].status)
    requires Rejected(s, t, env.incoming)
    ensures var h := HandleInbound(s, t.conn, t.readable, env);
            h.s == s && (h.code.Error? || (h.code.Unsuccess? && !s.info[t.conn].status.PendingStatus?))
  {
    hide Broadcast, Sanitized;
  }

  lemma RejectIs(s: Server, t: Task, env: Env)
    requires Listed(s) && t.conn in s.info && t.Inbound? && Listening(s.info[t.conn].status)
    requires var h := HandleInbound(s, t.conn, t.readable, env);
             h.s == s && (h.code.Error? || (h.code.Unsuccess? && !s.info[t.conn].status.PendingStatus?))
    ensures Process(s, t, env) == Enqueue(SetConn(s, t.conn, Failed(s.info[t.conn], t.readable)), t)
  {
    hide HandleInbound, Enqueue;
    var c, conn := t.conn, s.info[t.conn];
    var read := conn.(sock := conn.sock + [Read(conn.status, false)]);
    SetTwice(s, c, read, read.(status := Err));
    assert conn.sock + [] == conn.sock;
  }

  /** A listening connection goes to ERR by an event if and only if the event is rejected. */
  lemma RejectExactly(actions: seq<Action>, s: Server, i: nat, env: Env, r: Server)
    requires Reaches(actions, s) && Listed(s) && Called(s, i) && Step(s, Run(i, env)) == Some(r)
    ensures var c := s.queue[i].conn;
            c in r.info && (r.info[c].status.Err? <==> Rejected(s, s.queue[i], env.incoming))
  {
    if Rejected(s, s.queue[i], env.incoming) {
      RejectEffect(s, i, env, r);
    } else {
      hide Reaches, Step, Grantable, Clear, FannedOut, IsFan;
      match env.incoming
      case Register(_) => RegisterEffect(actions, s, i, env, r);
      case Send(_) => SendEffect(actions, s, i, env, r);
      case _ => ReplyEffect(actions, s, i, env, r);
    }
  }

  /** In PENDING_STATUS, a GOOD status, a status that could not be read and a SEND of which
      nothing is left use the task up, and the connection listens in AVAILABLE. */
  lemma TakenEffect(s: Server, i: nat, env: Env, r: Server)
    requires Listed(s) && Hears(s, i) && Step(s, Run(i, env)) == Some(r)
    requires s.info[s.queue[i].conn].status.PendingStatus? && !Rejected(s, s.queue[i], env.incoming)
    requires env.incoming.Reply? || (env.incoming.Send? && Cleaned(env.incoming.body, true) == [])
    ensures var conn := Touched(s, i);
            r == UsedUp(s, i, conn.(status := Available, watched := true,
                                    sock := conn.sock + [Read(PendingStatus, true), Watch]))
  {
    var t, c, s1, conn := s.queue[i], s.queue[i].conn, Started(s, i), Touched(s, i);
    StartedIs(s, i);
    var after := conn.(status := Available, watched := true, sock := conn.sock + [Read(PendingStatus, true), Watch]);
    BodyEnds(s, i, after, t);
    TakenIs(s1, t, env);
  }

  lemma TakenIs(s: Server, t: Task, env: Env)
    requires Listed(s) && t.conn in s.info && t.Inbound? && t.readable && s.info[t.conn].status.PendingStatus?
    requires !Rejected(s, t, env.incoming)
    requires env.incoming.Reply? || (env.incoming.Send? && Cleaned(env.incoming.body, true) == [])
    ensures var conn := s.info[t.conn];
            Process(s, t, env)
            == SetConn(s, t.conn, conn.(status := Available, watched := true,
                                        sock := conn.sock + [Read(PendingStatus, true), Watch]))
  {
    hide Sanitized;
    var c, conn := t.conn, s.info[t.conn];
    var read := conn.(sock := conn.sock + [Read(PendingStatus, true)]);
    assert read.sock + [Watch] == conn.sock + [Read(PendingStatus, true), Watch];
    SetTwice(s, c, read, read.(status := Available));
    var taken := read.(status := Available);
    SetTwice(s, c, taken, taken.(watched := true, sock := read.sock + [Watch]));
  }

  // ---- the last task of a closing connection ---------------------------------------------------

  /** The list without c. */
  ghost predicate Removed(list: seq<nat>, rest: seq<nat>, c: nat) {
    exists k: nat :: k < |list| && list[k] == c && rest == Without(list, k)
  }

  lemma {:induction false} RemovedOnce(list: seq<nat>, c: nat)
    requires c in list
    ensures Removed(list, Remove(list, c), c)
  {
    if list[0] == c {
      assert list[0] == c && Remove(list, c) == Without(list, 0);
    } else {
      RemovedOnce(list[1..], c);
      var k: nat :| k < |list[1..]| && list[1..][k] == c && Remove(list[1..], c) == Without(list[1..], k);
      assert list[k + 1] == c && Without(list, k + 1) == [list[0]] + Without(list[1..], k);
    }
  }

  lemma FarewellIs(s: Server, c: nat, env: Env)
    requires Listed(s) && Distinct(s.list) && c in s.list && s.info[c].pending == 0
    ensures var r := OnClosing(s, c, env);
            && Fed(s, r.(held := s.held, list := s.list), c) && r.info[c] == s.info[c]
            && (if !s.hung && Clear(s, s.list, c)
                then && !r.hung && r.held == s.held && Removed(s.list, r.list, c)
                     && FannedOut(s.queue, [], r, s.list, c, SERVER_NAME, Sanitized(env.notice, true), [])
                else r.hung && r.held == s.held + {c} && r.list == s.list)
  {
    hide Broadcast, Sanitized, IsFan, Clear, Removed, Remove;
    BroadcastFeeds(s, c, SERVER_NAME, env.notice);
    BroadcastReturns(s, c, SERVER_NAME, env.notice);
    RemovedOnce(s.list, c);
    var b := Broadcast(s, c, SERVER_NAME, env.notice);
    if !b.hung {
      var sent :| b.queue == s.queue + sent && IsFan(sent, s.list, c, SERVER_NAME, Sanitized(env.notice, true));
      assert b.queue == s.queue + [] + sent + [];
    }
  }

  /** The last task of a closing connection bids every other listed connection farewell, in the
      server's name, and takes its own off the list; or, when the broadcast cannot return, it
      hangs with the connection's mutex held. */
  lemma FarewellEffect(actions: seq<Action>, s: Server, i: nat, env: Env, r: Server)
    requires Reaches(actions, s) && Listed(s) && Free(s, i) && Step(s, Run(i, env)) == Some(r)
    requires s.info[s.queue[i].conn].status.Closing? && s.info[s.queue[i].conn].pending == 1
    ensures var c := s.queue[i].conn;
            && r == s.(queue := r.queue, info := r.info, nextId := r.nextId, hung := r.hung,
                       held := r.held, list := r.list)
            && r.info.Keys == s.info.Keys && r.info[c] == Touched(s, i).(pending := 0)
            && (forall d :: d in s.info && d != c ==> OnlyFed(s.info[d], r.info[d]))
            && (if !s.hung && Clear(s, s.list, c)
                then && !r.hung && r.held == s.held && Removed(s.list, r.list, c)
                     && FannedOut(Without(s.queue, i), [], r, s.list, c, SERVER_NAME, Sanitized(env.notice, true), [])
                else r.hung && r.held == s.held + {c} && r.list == s.list)
  {
    hide Inv, Reaches, Step, Clear, FannedOut, Removed, Sanitized;
    var c, s1 := s.queue[i].conn, Started(s, i);
    ReachableInv(actions, s);
    InvQueue(s, i);
    InvDistinct(s);
    StartedIs(s, i);
    ClosingRuns(s, i, env);
    ClearStarted(s, i);
    FarewellIs(s1, c, env);
  }

  lemma InvDistinct(s: Server)
    requires Inv(s)
    ensures Distinct(s.list)
  {
  }

  lemma ClosingRuns(s: Server, i: nat, env: Env)
    requires Listed(s) && Free(s, i) && s.info[s.queue[i].conn].status.Closing?
    ensures Listed(Started(s, i)) && Step(s, Run(i, env)) == Some(OnClosing(Started(s, i), s.queue[i].conn, env))
  {
    hide OnClosing;
  }

  lemma ClearStarted(s: Server, i: nat)
    requires Listed(s) && Free(s, i)
    ensures var c, s1 := s.queue[i].conn, Started(s, i);
            Listed(s1) && (Clear(s1, s1.list, c) <==> Clear(s, s.list, c))
  {
  }

  // ---- the environment -------------------------------------------------------------------------

  /** Which steps are possible. */
  lemma Enabled(s: Server, a: Action)
    requires Listed(s)
    ensures Step(s, a).Some? <==>
              match a
              case Accept(c) => !s.hung && c !in s.info
              case Epoll(c, _) => c in s.list && s.info[c].watched
              case Audit => !s.hung
              case Tick(_) => true
              case Contend(i) => i < |s.queue| && s.queue[i].conn in s.info
              case Run(i, _) => i < |s.queue| && s.queue[i].conn in s.info
  {
  }

  /** An accepted connection goes to the rear of the list: unregistered, watched, without name or
      jobs, its activity dating from now. */
  lemma AcceptEffect(s: Server, c: nat, r: Server)
    requires Listed(s) && Step(s, Accept(c)) == Some(r)
    ensures r == s.(list := s.list + [c],
                    info := s.info[c := Conn(PreRegister, 0, [], [], s.clock, true, s.clock, [], [Watch], {})])
  {
  }

  /** An event stops the watch on its connection and queues one task for it. */
  lemma EpollEffect(s: Server, c: nat, readable: bool, r: Server)
    requires Listed(s) && Step(s, Epoll(c, readable)) == Some(r)
    ensures var conn := s.info[c];
            r == s.(queue := s.queue + [Inbound(c, readable)],
                    info := s.info[c := conn.(watched := false, pending := conn.pending + 1)])
  {
    var conn := s.info[c];
    SetTwice(s, c, conn.(watched := false), conn.(watched := false, pending := conn.pending + 1));
  }

  lemma TickEffect(s: Server, d: nat, r: Server)
    requires Listed(s) && Step(s, Tick(d)) == Some(r)
    ensures r == s.(clock := s.clock + d)
  {
  }

  /** A task that does not get the mutex, now or ever, goes to the back of the queue, and not even
      its connection's activity is noted. */
  lemma ContendEffect(s: Server, i: nat, env: Env, a: Action, r: Server)
    requires Listed(s) && i < |s.queue| && s.queue[i].conn in s.info && Step(s, a) == Some(r)
    requires a == Contend(i) || (a == Run(i, env) && s.queue[i].conn in s.held)
    ensures r == s.(queue := Without(s.queue, i) + [s.queue[i]])
  {
    var c, conn := s.queue[i].conn, s.info[s.queue[i].conn];
    SetTwice(s, c, conn.(pending := conn.pending - 1), conn);
    assert r.info == s.info;
  }

  /** No step but an acceptance makes a connection known, and none forgets one. */
  lemma StepKeys(s: Server, a: Action, r: Server)
    requires Listed(s) && Step(s, a) == Some(r)
    ensures if a.Accept? then r.info.Keys == s.info.Keys + {a.conn} else r.info.Keys == s.info.Keys
  {
    hide Process, Audited;
    if a.Run? && s.queue[a.i].conn !in s.held {
      ProcessKeys(Started(s, a.i), s.queue[a.i], a.env);
    }
  }

  lemma ProcessKeys(s: Server, t: Task, env: Env)
    requires Listed(s) && t.conn in s.info
    ensures Process(s, t, env).info.Keys == s.info.Keys
  {
    hide OnRequest, OnPending, Broadcast;
  }

  /** The cases of this module cover every task that gets its connection's mutex. */
  lemma EveryCase(s: Server, i: nat)
    requires Free(s, i)
    ensures var t, st := s.queue[i], s.info[s.queue[i].conn].status;
            || (t.Outbound? && (st.PreRegister? || st.Available?))
            || (t.Outbound? && (st.SendMsg? || (st.SendStat? && t.msg.StatusMsg?)))
            || Waits(st, t)
            || (t.Heartbeat? && !Bad(st))
            || st.Err?
            || st.Closing?
            || Called(s, i)
  {
  }
}
