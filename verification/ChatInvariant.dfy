/** The invariant of the connection and task system, and its preservation by every step. */
module ChatInvariant {
  import opened Basics
  import opened Strings
  import opened Protocol
  import opened Chat
  import opened ChatView

  /** The list, the queue and the connections agree, and a hung broadcast is in front of a
      connection that is closing or in error. */
  ghost predicate Shape(s: Server) {
    && Listed(s) && Distinct(s.list)
    && (forall i :: 0 <= i < |s.queue| ==> s.queue[i].conn in s.info && Fits(s.queue[i]))
    && (forall c :: c in s.info ==> |s.info[c].username| <= STR_CAPACITY)
    && (forall c :: c in s.held ==> c in s.list)
    && (s.held != {} ==> s.hung)
    && (s.hung ==> exists b :: b in s.list && Bad(s.info[b].status))
  }

  ghost predicate ConnsOk(s: Server, except: set<nat>) {
    forall c, id :: c in s.info && c !in except ==> ViewOk(ViewOf(s, c, id), id)
  }

  ghost predicate Inv(s: Server) { Shape(s) && ConnsOk(s, {}) }

  /** Task t has been taken off the queue and is running. */
  ghost predicate Mid(s: Server, t: Task) {
    && Shape(s) && t.conn in s.list && t.conn !in s.held && Fits(t)
    && ConnsOk(s, {t.conn})
    && forall id :: MidOk(ViewOf(s, t.conn, id), t, id)
  }

  // ---- how the primitives change the views -----------------------------------------------------

  lemma EnqueueView(s: Server, t: Task, c: nat, id: Parcel)
    requires t.conn in s.info && c in s.info
    ensures ViewOf(Enqueue(s, t), c, id) ==
              if c == t.conn then Grown(ViewOf(s, c, id), t, id) else ViewOf(s, c, id)
  {
    hide Tasks;
    TasksAppend(s.queue, t, c, id);
  }

  lemma BeginView(s: Server, i: nat, c: nat, id: Parcel)
    requires i < |s.queue| && s.queue[i].conn in s.info && c in s.info
    ensures c != s.queue[i].conn ==> ViewOf(Begin(s, i), c, id) == ViewOf(s, c, id)
    ensures c == s.queue[i].conn ==> Grown(ViewOf(Begin(s, i), c, id), s.queue[i], id) == ViewOf(s, c, id)
    ensures Sane(ViewOf(Begin(s, i), c, id).load)
  {
    hide Tasks, Without;
    TasksWithout(s.queue, i, c, id);
    TasksSane(Without(s.queue, i), c, id);
  }

  /** The blocker of a hung broadcast stays bad when only connection c's record changes and
      a bad c stays bad. */
  lemma ShapeSet(s: Server, c: nat, conn: Conn)
    requires Shape(s) && c in s.info
    requires Bad(s.info[c].status) ==> Bad(conn.status)
    requires |conn.username| <= STR_CAPACITY
    ensures Shape(SetConn(s, c, conn))
  {
    var s' := SetConn(s, c, conn);
    if s.hung {
      var b :| b in s.list && Bad(s.info[b].status);
      assert b in s'.list && Bad(s'.info[b].status);
    }
  }

  lemma ShapeEnqueue(s: Server, t: Task)
    requires Shape(s) && t.conn in s.info && Fits(t)
    ensures Shape(Enqueue(s, t))
  {
    ShapeSet(s, t.conn, s.info[t.conn].(pending := s.info[t.conn].pending + 1));
  }

  /** c's record is replaced and a task of c is queued; every other connection is as before. */
  lemma PutInv(s: Server, c: nat, conn: Conn, t: Task)
    requires Shape(s) && c in s.info && t.conn == c && Fits(t) && ConnsOk(s, {c})
    requires Bad(s.info[c].status) ==> Bad(conn.status)
    requires conn.username == s.info[c].username
    requires forall id :: ViewOk(Grown(ViewOf(s, c, id).(conn := conn), t, id), id)
    ensures Inv(Enqueue(SetConn(s, c, conn), t))
  {
    hide ViewOk, Tasks;
    var s1 := SetConn(s, c, conn);
    ShapeSet(s, c, conn);
    ShapeEnqueue(s1, t);
    var s' := Enqueue(s1, t);
    forall d, id | d in s'.info ensures ViewOk(ViewOf(s', d, id), id) {
      EnqueueView(s1, t, d, id);
      if d == c {
        assert ViewOf(s1, c, id) == ViewOf(s, c, id).(conn := conn);
      } else {
        assert ViewOf(s', d, id) == ViewOf(s, d, id);
      }
    }
  }

  /** c's record is replaced and no task is queued. */
  lemma SetInv(s: Server, c: nat, conn: Conn)
    requires Shape(s) && c in s.info && ConnsOk(s, {c})
    requires Bad(s.info[c].status) ==> Bad(conn.status)
    requires conn.username == s.info[c].username
    requires forall id :: ViewOk(ViewOf(s, c, id).(conn := conn), id)
    ensures Inv(SetConn(s, c, conn))
  {
    hide ViewOk, Tasks;
    ShapeSet(s, c, conn);
    var s' := SetConn(s, c, conn);
    forall d, id | d in s'.info ensures ViewOk(ViewOf(s', d, id), id) {
      if d == c {
        assert ViewOf(s', c, id) == ViewOf(s, c, id).(conn := conn);
      } else {
        assert ViewOf(s', d, id) == ViewOf(s, d, id);
      }
    }
  }

  // ---- broadcasts ------------------------------------------------------------------------------

  /** What a broadcast or a delivery by c leaves alone. */
  ghost predicate Spared(s: Server, r: Server, c: nat) {
    && r.info.Keys == s.info.Keys && r.list == s.list && r.held == s.held && r.clock == s.clock
    && s.nextId <= r.nextId
    && (s.hung ==> r.hung)
    && (forall d :: d in s.info ==> r.info[d].status == s.info[d].status && r.info[d].watched == s.info[d].watched
                                    && r.info[d].sock == s.info[d].sock)
    && (forall d :: d in s.info && d != c ==> r.info[d].username == s.info[d].username)
  }

  lemma DeliverStep(s: Server, c: nat, from: Bytes, text: Bytes, d: nat, id: Parcel)
    requires c in s.info && d in s.info && !Bad(s.info[c].status)
    ensures c != d ==> ViewOf(EnqueueDeliver(s, c, from, text), d, id) == ViewOf(s, d, id).(nextId := s.nextId + 1)
    ensures ViewOk(ViewOf(s, d, id), id) ==> ViewOk(ViewOf(EnqueueDeliver(s, c, from, text), d, id), id)
  {
    hide ViewOk, Tasks, Sanitized;
    var v := ViewOf(s, d, id);
    var p := Parcel(s.nextId, from, Sanitized(text, true));
    var conn := s.info[c].(made := s.info[c].made + {p});
    var s1 := SetConn(s, c, conn).(nextId := s.nextId + 1);
    var t := Outbound(c, DeliverMsg(p));
    EnqueueView(s1, t, d, id);
    if c == d {
      assert ViewOf(s1, d, id) == v.(conn := conn, nextId := s.nextId + 1);
      if ViewOk(v, id) {
        MadeOk(v, t, id);
      }
    } else {
      assert ViewOf(s1, d, id) == v.(nextId := s.nextId + 1);
      if ViewOk(v, id) {
        LaterOk(v, id, s.nextId + 1);
      }
    }
  }

  lemma {:induction false} WalkSpared(s: Server, todo: seq<nat>, c: nat, from: Bytes, text: Bytes)
    requires forall x :: x in todo ==> x in s.info
    ensures Spared(s, Walk(s, todo, c, from, text), c)
    decreases |todo|
  {
    hide Sanitized;
    if todo != [] && (todo[0] == c || !Bad(s.info[todo[0]].status)) {
      WalkSpared(if todo[0] == c then s else EnqueueDeliver(s, todo[0], from, text), todo[1..], c, from, text);
    }
  }

  lemma {:induction false} WalkKeeps(s: Server, todo: seq<nat>, c: nat, from: Bytes, text: Bytes, d: nat, id: Parcel)
    requires forall x :: x in todo ==> x in s.info
    requires c in s.info && d in s.info
    ensures var r := Walk(s, todo, c, from, text);
            && (d == c ==> ViewOf(r, c, id) == ViewOf(s, c, id).(nextId := r.nextId))
            && (d != c && ViewOk(ViewOf(s, d, id), id) ==> ViewOk(ViewOf(r, d, id), id))
    decreases |todo|
  {
    hide ViewOk, Tasks, Sanitized;
    if todo != [] && (todo[0] == c || !Bad(s.info[todo[0]].status)) {
      if todo[0] == c {
        WalkKeeps(s, todo[1..], c, from, text, d, id);
      } else {
        var s1 := EnqueueDeliver(s, todo[0], from, text);
        DeliverStep(s, todo[0], from, text, d, id);
        WalkKeeps(s1, todo[1..], c, from, text, d, id);
      }
    }
  }

  lemma ShapeDeliver(s: Server, c: nat, from: Bytes, text: Bytes)
    requires Shape(s) && c in s.info && |from| <= STR_CAPACITY
    ensures Shape(EnqueueDeliver(s, c, from, text))
  {
    hide Sanitized;
    var p := Parcel(s.nextId, from, Sanitized(text, true));
    var made := s.info[c].(made := s.info[c].made + {p});
    ShapeSet(s, c, made);
    ShapeEnqueue(SetConn(s, c, made).(nextId := s.nextId + 1), Outbound(c, DeliverMsg(p)));
  }

  lemma {:induction false} WalkShape(s: Server, todo: seq<nat>, c: nat, from: Bytes, text: Bytes)
    requires Shape(s) && |from| <= STR_CAPACITY && forall x :: x in todo ==> x in s.list
    ensures Shape(Walk(s, todo, c, from, text))
    decreases |todo|
  {
    if todo == [] {
    } else {
      var d := todo[0];
      if d == c {
        WalkShape(s, todo[1..], c, from, text);
      } else if !Bad(s.info[d].status) {
        ShapeDeliver(s, d, from, text);
        WalkShape(EnqueueDeliver(s, d, from, text), todo[1..], c, from, text);
      } else {
        assert d in s.list;
      }
    }
  }

  /** A broadcast by the running task's connection. */
  lemma BroadcastMid(s: Server, t: Task, from: Bytes, text: Bytes)
    requires Mid(s, t) && |from| <= STR_CAPACITY
    ensures Mid(Broadcast(s, t.conn, from, text), t)
    ensures Spared(s, Broadcast(s, t.conn, from, text), t.conn)
    ensures Broadcast(s, t.conn, from, text).info[t.conn] == s.info[t.conn]
  {
    hide Shape, ViewOk, MidOk, Tasks, Walk;
    if !s.hung {
      var c, clean := t.conn, Sanitized(text, true);
      assert forall x :: x in s.list ==> x in s.info by { ShapeListed(s); }
      var r := Walk(s, s.list, c, from, clean);
      WalkShape(s, s.list, c, from, clean);
      WalkSpared(s, s.list, c, from, clean);
      forall d, id | d in s.info && d != c ensures ViewOk(ViewOf(r, d, id), id) {
        WalkKeeps(s, s.list, c, from, clean, d, id);
      }
      forall id ensures MidOk(ViewOf(r, c, id), t, id) {
        WalkKeeps(s, s.list, c, from, clean, c, id);
        assert MidOk(ViewOf(s, c, id), t, id);
        MidLater(ViewOf(s, c, id), t, id, r.nextId);
      }
      WalkKeeps(s, s.list, c, from, clean, c, ANY);
      assert ViewOf(r, c, ANY).conn == ViewOf(s, c, ANY).conn;
    }
  }

  lemma ShapeListed(s: Server)
    requires Shape(s)
    ensures forall x :: x in s.list ==> x in s.info
  {
  }

  lemma MidLater(v: View, t: Task, id: Parcel, n: nat)
    requires MidOk(v, t, id) && v.nextId <= n
    ensures MidOk(v.(nextId := n), t, id)
  {
    hide ViewOk;
    LaterOk(Grown(v, t, id), id, n);
  }

  // ---- inbound messages ------------------------------------------------------------------------

  lemma UsernameMid(s: Server, t: Task, name: Bytes)
    requires Mid(s, t) && |name| <= STR_CAPACITY
    ensures Mid(SetConn(s, t.conn, s.info[t.conn].(username := name)), t)
  {
    var c, conn := t.conn, s.info[t.conn].(username := name);
    var s' := SetConn(s, c, conn);
    ShapeSet(s, c, conn);
    forall d, id | d in s.info && d != c ensures ViewOk(ViewOf(s', d, id), id) {
      assert ViewOf(s', d, id) == ViewOf(s, d, id);
    }
    forall id ensures MidOk(ViewOf(s', c, id), t, id) {
      assert MidOk(ViewOf(s, c, id), t, id);
    }
  }

  /** The welcome message a connection is sent while its own registration runs. */
  lemma SelfDeliverMid(s: Server, t: Task, from: Bytes, text: Bytes)
    requires Mid(s, t) && !Bad(s.info[t.conn].status) && |from| <= STR_CAPACITY
    ensures Mid(EnqueueDeliver(s, t.conn, from, text), t)
    ensures Spared(s, EnqueueDeliver(s, t.conn, from, text), t.conn)
  {
    hide Shape, ViewOk, MidOk, Tasks, Sanitized;
    MidListed(s, t);
    var c := t.conn;
    var p := Parcel(s.nextId, from, Sanitized(text, true));
    var made := s.info[c].(made := s.info[c].made + {p});
    var s1 := SetConn(s, c, made).(nextId := s.nextId + 1);
    var x := Outbound(c, DeliverMsg(p));
    ShapeDeliver(s, c, from, text);
    var s' := EnqueueDeliver(s, c, from, text);
    forall d, id | d in s.info && d != c ensures ViewOk(ViewOf(s', d, id), id) {
      DeliverStep(s, c, from, text, d, id);
      assert ViewOk(ViewOf(s, d, id), id);
    }
    forall id ensures MidOk(ViewOf(s', c, id), t, id) {
      EnqueueView(s1, x, c, id);
      assert MidOk(ViewOf(s, c, id), t, id);
      SelfMade(ViewOf(s, c, id), t, id, x);
    }
  }

  lemma SelfMade(v: View, t: Task, id: Parcel, x: Task)
    requires MidOk(v, t, id) && !Bad(v.conn.status)
    requires x.Outbound? && x.msg.DeliverMsg? && x.msg.parcel.serial == v.nextId
    ensures var v1 := v.(conn := v.conn.(made := v.conn.made + {x.msg.parcel}), nextId := v.nextId + 1);
            MidOk(Grown(v1, x, id), t, id)
  {
    hide ViewOk;
    MadeOk(Grown(v, t, id), x, id);
    var v1 := v.(conn := v.conn.(made := v.conn.made + {x.msg.parcel}), nextId := v.nextId + 1);
    var g := Grown(v, t, id);
    var g1 := g.(conn := g.conn.(made := g.conn.made + {x.msg.parcel}), nextId := g.nextId + 1);
    assert Grown(Grown(v1, x, id), t, id) == Grown(g1, x, id);
  }

  /** Handling a message keeps the running task's state in order and touches no other
      connection's status, whatever the result. */
  lemma InboundMid(s: Server, t: Task, env: Env)
    requires Mid(s, t) && t.Inbound? && !Bad(s.info[t.conn].status)
    ensures var r := HandleInbound(s, t.conn, t.readable, env);
            && Mid(r.s, t) && Spared(s, r.s, t.conn)
            && (r.code.Hangs? ==> r.s.hung)
            && (!s.info[t.conn].status.PreRegister? ==> r.s.info[t.conn].username == s.info[t.conn].username)
  {
    hide Mid, Broadcast, EnqueueDeliver, Sanitized;
    var c := t.conn;
    MidListed(s, t);
    if t.readable {
      match env.incoming
      case NoData =>
      case Unknown =>
      case Reply(_) =>
      case Send(body) =>
        if body.Some? && Sanitized(body.value, true) != [] {
          BroadcastMid(s, t, s.info[c].username, Sanitized(body.value, true));
        }
      case Register(name) =>
        if && s.info[c].status.PreRegister? && name.Some? && Sanitized(name.value, false) != []
           && !s.hung && !Taken(s, Sanitized(name.value, false)) {
          var clean := Sanitized(name.value, false);
          var s1 := SetConn(s, c, s.info[c].(username := clean));
          UsernameMid(s, t, clean);
          var s2 := EnqueueDeliver(s1, c, SERVER_NAME, env.welcome);
          SelfDeliverMid(s1, t, SERVER_NAME, env.welcome);
          BroadcastMid(s2, t, SERVER_NAME, env.notice);
        }
    }
  }

  lemma HandledKeys(s: Server, c: nat, readable: bool, env: Env)
    requires Listed(s) && c in s.info
    ensures var r := HandleInbound(s, c, readable, env).s; r.info.Keys == s.info.Keys && r.list == s.list
  {
  }

  lemma MidListed(s: Server, t: Task)
    requires Mid(s, t)
    ensures Listed(s) && t.conn in s.info && t.conn in s.list
    ensures |s.info[t.conn].username| <= STR_CAPACITY
  {
  }

  // ---- the task, state by state ----------------------------------------------------------------

  lemma HangInv(s: Server, t: Task, sock: seq<Event>)
    requires Mid(s, t) && s.hung
    requires t.Inbound? || s.info[t.conn].status.Closing?
    requires var conn := s.info[t.conn];
             sock == conn.sock || (!conn.status.Closing? && sock == conn.sock + [Read(conn.status, false)])
    ensures Inv(Hang(SetConn(s, t.conn, s.info[t.conn].(sock := sock)), t.conn))
  {
    hide ViewOk, Tasks;
    var c := t.conn;
    var conn := s.info[c].(sock := sock);
    var s1 := SetConn(s, c, conn);
    ShapeSet(s, c, conn);
    var s' := Hang(s1, c);
    forall d, id | d in s'.info ensures ViewOk(ViewOf(s', d, id), id) {
      if d == c {
        assert MidOk(ViewOf(s, c, id), t, id);
        HungOk(ViewOf(s, c, id), t, id, sock);
        assert ViewOf(s', c, id) == ViewOf(s, c, id).(conn := conn, held := true);
      } else {
        assert ViewOf(s', d, id) == ViewOf(s, d, id);
      }
    }
  }

  /** Putting the running task back restores the invariant. */
  lemma RequeueInv(s: Server, t: Task)
    requires Mid(s, t)
    ensures Inv(Enqueue(s, t))
  {
    hide ViewOk, Tasks;
    forall id ensures ViewOk(Grown(ViewOf(s, t.conn, id).(conn := s.info[t.conn]), t, id), id) {
      assert MidOk(ViewOf(s, t.conn, id), t, id);
    }
    PutInv(s, t.conn, s.info[t.conn], t);
    assert SetConn(s, t.conn, s.info[t.conn]) == s;
  }

  lemma RejectInv(s: Server, t: Task, sock: seq<Event>)
    requires Mid(s, t) && !Bad(s.info[t.conn].status)
    requires var conn := s.info[t.conn]; sock == conn.sock || sock == conn.sock + [Read(conn.status, false)]
    ensures Inv(Enqueue(SetConn(s, t.conn, s.info[t.conn].(status := Err, sock := sock)), t))
  {
    hide ViewOk, Tasks;
    var conn := s.info[t.conn].(status := Err, sock := sock);
    forall id ensures ViewOk(Grown(ViewOf(s, t.conn, id).(conn := conn), t, id), id) {
      assert MidOk(ViewOf(s, t.conn, id), t, id);
      RejectedOk(ViewOf(s, t.conn, id), t, id, sock);
    }
    PutInv(s, t.conn, conn, t);
  }

  lemma AcceptInv(s: Server, t: Task)
    requires Mid(s, t) && t.Inbound?
    requires s.info[t.conn].status.PreRegister? || s.info[t.conn].status.Available?
    ensures var c, at := t.conn, s.info[t.conn].status;
            Inv(EnqueueStatus(SetStatus(Log(s, c, Read(at, true)), c, SendStat), c, STATUS_GOOD))
  {
    hide ViewOk, Tasks;
    StatMsgEmpty(s, t);
    var c, old' := t.conn, s.info[t.conn];
    var conn := old'.(status := SendStat, statMsg := [], sock := old'.sock + [Read(old'.status, true)]);
    var reply := Outbound(c, StatusMsg(STATUS_GOOD, old'.statMsg));
    forall id ensures ViewOk(Grown(ViewOf(s, c, id).(conn := conn), reply, id), id) {
      assert MidOk(ViewOf(s, c, id), t, id);
      AcceptedOk(ViewOf(s, c, id), t, id, reply);
    }
    PutInv(s, c, conn, reply);
    var s1 := SetStatus(Log(s, c, Read(old'.status, true)), c, SendStat);
    assert s1.info[c].statMsg == old'.statMsg;
    assert SetConn(s1, c, s1.info[c].(statMsg := [])) == SetConn(s, c, conn);
  }

  lemma OnRequestInv(s: Server, t: Task, env: Env)
    requires Mid(s, t) && !t.Heartbeat?
    requires s.info[t.conn].status.PreRegister? || s.info[t.conn].status.Available?
    ensures Inv(OnRequest(s, t, env))
  {
    hide Mid, Inv, HandleInbound, EnqueueStatus, Enqueue;
    MidListed(s, t);
    var c, at := t.conn, s.info[t.conn].status;
    if t.Inbound? {
      var r := HandleInbound(s, c, t.readable, env);
      InboundMid(s, t, env);
      var conn := r.s.info[c];
      var sock := if t.readable then conn.sock + [Read(at, false)] else conn.sock;
      match r.code
      case Success => AcceptInv(r.s, t);
      case Hangs =>
        HangInv(r.s, t, sock);
        assert Noted(r.s, c, t.readable, at, false) == SetConn(r.s, c, conn.(sock := sock));
      case _ =>
        RejectInv(r.s, t, sock);
        assert SetStatus(Noted(r.s, c, t.readable, at, false), c, Err)
            == SetConn(r.s, c, conn.(status := Err, sock := sock));
    } else {
      SendMsgInv(s, t);
    }
  }

  lemma SendMsgInv(s: Server, t: Task)
    requires Mid(s, t) && t.Outbound?
    requires s.info[t.conn].status.PreRegister? || s.info[t.conn].status.Available?
    ensures Inv(Enqueue(SetStatus(s, t.conn, SendMsg), t))
  {
    hide ViewOk, Tasks;
    var conn := s.info[t.conn].(status := SendMsg);
    forall id ensures ViewOk(Grown(ViewOf(s, t.conn, id).(conn := conn), t, id), id) {
      assert MidOk(ViewOf(s, t.conn, id), t, id);
      ToSendMsgOk(ViewOf(s, t.conn, id), t, id);
    }
    PutInv(s, t.conn, conn, t);
  }

  /** What the socket's history notes when a message goes out. */
  function Sent(msg: Message): Event {
    match msg
    case StatusMsg(code, text) => StatusSent(code, text)
    case DeliverMsg(p) => DeliverSent(p)
  }

  lemma SentInv(s: Server, t: Task, next: Status)
    requires Mid(s, t) && t.Outbound?
    requires || (s.info[t.conn].status.SendStat? && t.msg.StatusMsg? && next.Available?)
             || (s.info[t.conn].status.SendMsg? && next.PendingStatus?)
    ensures var c, conn := t.conn, s.info[t.conn];
            Inv(SetConn(s, c, conn.(status := next, watched := true, sock := conn.sock + [Sent(t.msg)] + [Watch])))
  {
    hide Shape, ViewOk, Tasks;
    MidListed(s, t);
    var c, old' := t.conn, s.info[t.conn];
    var conn := old'.(status := next, watched := true, sock := old'.sock + [Sent(t.msg)] + [Watch]);
    forall id ensures ViewOk(ViewOf(s, c, id).(conn := conn), id) {
      assert MidOk(ViewOf(s, c, id), t, id);
      if old'.status.SendStat? {
        StatusSentOk(ViewOf(s, c, id), t, id);
      } else {
        DeliverSentOk(ViewOf(s, c, id), t, id);
      }
    }
    SetInv(s, c, conn);
  }

  lemma SubmitInv(s: Server, t: Task, next: Status, env: Env)
    requires Mid(s, t) && t.Outbound?
    requires || (s.info[t.conn].status.SendStat? && t.msg.StatusMsg? && next.Available?)
             || (s.info[t.conn].status.SendMsg? && next.PendingStatus?)
    ensures Inv(Submit(s, t.conn, t.msg, next, env))
  {
    hide Shape, ViewOk, Tasks;
    MidListed(s, t);
    var c, old' := t.conn, s.info[t.conn];
    if env.sendOk {
      SentInv(s, t, next);
      assert Submit(s, c, t.msg, next, env)
          == SetConn(s, c, old'.(status := next, watched := true, sock := old'.sock + [Sent(t.msg)] + [Watch]));
    } else {
      var conn := old'.(status := Err, sock := old'.sock + [SendFailed]);
      forall id ensures ViewOk(ViewOf(s, c, id).(conn := conn), id) {
        assert MidOk(ViewOf(s, c, id), t, id);
        SendFailedOk(ViewOf(s, c, id), t, id);
      }
      SetInv(s, c, conn);
      assert Submit(s, c, t.msg, next, env) == SetConn(s, c, conn);
    }
  }

  lemma RepliedInv(s: Server, t: Task)
    requires Mid(s, t) && t.Inbound? && s.info[t.conn].status.PendingStatus?
    ensures Inv(StartWatch(SetStatus(Log(s, t.conn, Read(PendingStatus, true)), t.conn, Available), t.conn))
  {
    hide ViewOk, Tasks;
    var c, old' := t.conn, s.info[t.conn];
    var conn := old'.(status := Available, watched := true,
                      sock := old'.sock + [Read(PendingStatus, true)] + [Watch]);
    forall id ensures ViewOk(ViewOf(s, c, id).(conn := conn), id) {
      assert MidOk(ViewOf(s, c, id), t, id);
      RepliedOk(ViewOf(s, c, id), t, id);
    }
    SetInv(s, c, conn);
    assert StartWatch(SetStatus(Log(s, c, Read(PendingStatus, true)), c, Available), c) == SetConn(s, c, conn);
  }

  lemma OnPendingInv(s: Server, t: Task, env: Env)
    requires Mid(s, t) && s.info[t.conn].status.PendingStatus?
    ensures Inv(OnPending(s, t, env))
  {
    hide Mid, Inv, HandleInbound, Enqueue;
    MidListed(s, t);
    var c := t.conn;
    if !t.Inbound? {
      RequeueInv(s, t);
    } else {
      var r := HandleInbound(s, c, t.readable, env);
      InboundMid(s, t, env);
      var conn := r.s.info[c];
      var sock := if t.readable then conn.sock + [Read(PendingStatus, false)] else conn.sock;
      match r.code
      case Hangs =>
        HangInv(r.s, t, sock);
        assert Noted(r.s, c, t.readable, PendingStatus, false) == SetConn(r.s, c, conn.(sock := sock));
      case Error =>
        RejectInv(r.s, t, sock);
        assert SetStatus(Noted(r.s, c, t.readable, PendingStatus, false), c, Err)
            == SetConn(r.s, c, conn.(status := Err, sock := sock));
      case _ => RepliedInv(r.s, t);
    }
  }

  /** From any state but CLOSING; the status text is the pending one. */
  lemma OnErrorInv(s: Server, t: Task, status: Status, text: Bytes, env: Env)
    requires Mid(s, t) && !s.info[t.conn].status.Closing? && Short(text)
    ensures Inv(OnError(SetConn(s, t.conn, s.info[t.conn].(status := status, statMsg := text)), t, env))
  {
    hide ViewOk, Tasks;
    var c, old' := t.conn, s.info[t.conn];
    var conn := old'.(status := Closing, statMsg := [], watched := false,
                      sock := old'.sock + [ErrorStatus(text, env.sendOk), Close]);
    var back := if t.Outbound? then Outbound(c, StatusMsg(STATUS_ERROR, text)) else t;
    forall id ensures ViewOk(Grown(ViewOf(s, c, id).(conn := conn), back, id), id) {
      assert MidOk(ViewOf(s, c, id), t, id);
      ClosedOk(ViewOf(s, c, id), t, id, text, env.sendOk, back);
    }
    PutInv(s, c, conn, back);
    var s1 := SetConn(s, c, old'.(status := status, statMsg := text));
    assert OnError(s1, t, env) == Enqueue(SetConn(s1, c, conn), back);
    assert SetConn(s1, c, conn) == SetConn(s, c, conn);
  }

  lemma {:induction false} RemoveKeeps(list: seq<nat>, c: nat)
    requires Distinct(list)
    ensures var r := Remove(list, c);
            Distinct(r) && c !in r && forall x :: x in list && x != c ==> x in r
  {
    if list == [] {
    } else {
      var rest := list[1..];
      assert forall i :: 0 <= i < |rest| ==> rest[i] == list[i + 1];
      assert list[0] !in rest;
      RemoveKeeps(rest, c);
    }
  }

  lemma OnClosingInv(s: Server, t: Task, env: Env)
    requires Mid(s, t) && s.info[t.conn].status.Closing?
    ensures Inv(OnClosing(s, t.conn, env))
  {
    hide ViewOk, Tasks, Broadcast;
    var c := t.conn;
    if s.info[c].pending != 0 {
      forall id ensures ViewOk(ViewOf(s, c, id).(conn := s.info[c]), id) {
        assert MidOk(ViewOf(s, c, id), t, id);
        DroppedOk(ViewOf(s, c, id), t, id);
      }
      SetInv(s, c, s.info[c]);
      assert SetConn(s, c, s.info[c]) == s;
    } else {
      var s1 := Broadcast(s, c, SERVER_NAME, env.notice);
      BroadcastMid(s, t, SERVER_NAME, env.notice);
      if s1.hung {
        HangInv(s1, t, s1.info[c].sock);
        assert SetConn(s1, c, s1.info[c].(sock := s1.info[c].sock)) == s1;
      } else {
        DestroyInv(s1, t);
      }
    }
  }

  lemma DestroyInv(s: Server, t: Task)
    requires Mid(s, t) && s.info[t.conn].status.Closing? && s.info[t.conn].pending == 0 && !s.hung
    ensures Inv(s.(list := Remove(s.list, t.conn)))
  {
    hide ViewOk, Tasks;
    var c := t.conn;
    RemoveKeeps(s.list, c);
    var s' := s.(list := Remove(s.list, c));
    forall d, id | d in s'.info ensures ViewOk(ViewOf(s', d, id), id) {
      if d == c {
        assert MidOk(ViewOf(s, c, id), t, id);
        DestroyedOk(ViewOf(s, c, id), t, id);
        assert ViewOf(s', c, id) == ViewOf(s, c, id).(listed := false);
      } else {
        assert ViewOf(s', d, id) == ViewOf(s, d, id);
      }
    }
  }

  // ---- one task --------------------------------------------------------------------------------

  lemma WithoutFrom(q: seq<Task>, i: nat, info: map<nat, Conn>)
    requires i < |q| && forall k :: 0 <= k < |q| ==> q[k].conn in info && Fits(q[k])
    ensures forall k :: 0 <= k < |Without(q, i)| ==> Without(q, i)[k].conn in info && Fits(Without(q, i)[k])
  {
  }

  lemma BeginMid(s: Server, i: nat)
    requires Inv(s) && i < |s.queue| && s.queue[i].conn !in s.held
    ensures Mid(Begin(s, i), s.queue[i])
  {
    hide ViewOk, Tasks;
    var t, s' := s.queue[i], Begin(s, i);
    var c := t.conn;
    var conn := s.info[c].(pending := s.info[c].pending - 1);
    ShapeSet(s, c, conn);
    WithoutFrom(s.queue, i, s.info);
    assert Shape(s') by { assert s' == SetConn(s, c, conn).(queue := Without(s.queue, i)); }
    assert c in s.list by {
      assert ViewOk(ViewOf(s, c, ANY), ANY);
      TasksSome(s.queue, i, ANY);
      ListedIfCounted(ViewOf(s, c, ANY), ANY);
    }
    forall d, id | d in s'.info && d != c ensures ViewOk(ViewOf(s', d, id), id) {
      BeginView(s, i, d, id);
      assert ViewOk(ViewOf(s, d, id), id);
    }
    forall id ensures MidOk(ViewOf(s', c, id), t, id) {
      BeginView(s, i, c, id);
      assert ViewOk(ViewOf(s, c, id), id);
    }
  }

  lemma ListedIfCounted(v: View, id: Parcel)
    requires ViewOk(v, id) && 1 <= v.load.all
    ensures v.listed
  {
  }

  lemma ArriveMid(s: Server, t: Task)
    requires Mid(s, t)
    ensures Mid(Arrive(s, t), t)
  {
    hide ViewOk, Tasks;
    var c, s' := t.conn, Arrive(s, t);
    ShapeSet(s, c, s'.info[c]);
    forall d, id | d in s'.info && d != c ensures ViewOk(ViewOf(s', d, id), id) {
      assert ViewOf(s', d, id) == ViewOf(s, d, id);
    }
    forall id ensures MidOk(ViewOf(s', c, id), t, id) {
      assert MidOk(ViewOf(s, c, id), t, id);
      ArrivedOk(Grown(ViewOf(s, c, id), t, id), id, t.Heartbeat?, s.clock);
    }
  }

  lemma StatMsgEmpty(s: Server, t: Task)
    requires Mid(s, t)
    ensures s.info[t.conn].statMsg == []
  {
    assert MidOk(ViewOf(s, t.conn, ANY), t, ANY);
  }

  lemma ProcessInv(s: Server, t: Task, env: Env)
    requires Mid(s, t)
    ensures Inv(Process(s, t, env))
  {
    hide Mid, Inv, OnRequest, OnPending, OnError, OnClosing, Submit, Enqueue;
    MidListed(s, t);
    StatMsgEmpty(s, t);
    var c := t.conn;
    var conn := s.info[c];
    if t.Heartbeat? && !Bad(conn.status) {
      if TimedOut(s, c) {
        assert Short(INACTIVE);
        OnErrorInv(s, t, Err, INACTIVE, env);
      } else {
        IdleInv(s, t);
      }
    } else {
      match conn.status
      case PreRegister => OnRequestInv(s, t, env);
      case Available => OnRequestInv(s, t, env);
      case SendStat =>
        if t.Outbound? && t.msg.StatusMsg? { SubmitInv(s, t, Available, env); } else { RequeueInv(s, t); }
      case SendMsg =>
        if t.Outbound? { SubmitInv(s, t, PendingStatus, env); } else { RequeueInv(s, t); }
      case PendingStatus => OnPendingInv(s, t, env);
      case Err =>
        OnErrorInv(s, t, Err, conn.statMsg, env);
        assert SetConn(s, c, conn.(status := Err, statMsg := conn.statMsg)) == s;
      case Closing => OnClosingInv(s, t, env);
    }
  }

  /** A heartbeat that finds its connection active is dropped. */
  lemma IdleInv(s: Server, t: Task)
    requires Mid(s, t) && t.Heartbeat? && !Bad(s.info[t.conn].status)
    ensures Inv(s)
  {
    hide Tasks;
    var c := t.conn;
    forall id ensures ViewOk(ViewOf(s, c, id).(conn := s.info[c]), id) {
      assert MidOk(ViewOf(s, c, id), t, id);
    }
    hide ViewOk;
    SetInv(s, c, s.info[c]);
    assert SetConn(s, c, s.info[c]) == s;
  }

  lemma RunTaskInv(s: Server, i: nat, env: Env)
    requires Inv(s) && i < |s.queue|
    ensures Inv(RunTask(s, i, env))
  {
    hide Process, Arrive;
    var t, s1 := s.queue[i], Begin(s, i);
    if t.conn in s.held {
      ContendInv(s, i);
    } else {
      BeginMid(s, i);
      ArriveMid(s1, t);
      ProcessInv(Arrive(s1, t), t, env);
    }
  }

  lemma ContendInv(s: Server, i: nat)
    requires Inv(s) && i < |s.queue|
    ensures Inv(Enqueue(Begin(s, i), s.queue[i]))
  {
    hide ViewOk, Tasks;
    var t, s1 := s.queue[i], Begin(s, i);
    var c := t.conn;
    var conn := s.info[c].(pending := s.info[c].pending - 1);
    ShapeSet(s, c, conn);
    WithoutFrom(s.queue, i, s.info);
    assert s1 == SetConn(s, c, conn).(queue := Without(s.queue, i));
    forall d, id | d in s1.info && d != c ensures ViewOk(ViewOf(s1, d, id), id) {
      BeginView(s, i, d, id);
      assert ViewOk(ViewOf(s, d, id), id);
    }
    forall id ensures ViewOk(Grown(ViewOf(s1, c, id).(conn := s1.info[c]), t, id), id) {
      BeginView(s, i, c, id);
      assert ViewOk(ViewOf(s, c, id), id);
    }
    PutInv(s1, c, s1.info[c], t);
    assert SetConn(s1, c, s1.info[c]) == s1;
  }

  // ---- the environment -------------------------------------------------------------------------

  lemma AcceptConnInv(s: Server, c: nat)
    requires Inv(s) && !s.hung && c !in s.info
    ensures Inv(AcceptConn(s, c))
  {
    hide ViewOk, Tasks;
    var s' := AcceptConn(s, c);
    assert c !in s.list && c !in s.held;
    assert Shape(s');
    forall d, id | d in s'.info ensures ViewOk(ViewOf(s', d, id), id) {
      if d == c {
        TasksNone(s.queue, c, id);
        FreshOk(s.clock, s.nextId, id);
      } else {
        assert ViewOf(s', d, id) == ViewOf(s, d, id);
      }
    }
  }

  lemma FreshOk(clock: int, nextId: nat, id: Parcel)
    ensures ViewOk(View(NewConn(clock), ZERO, true, false, nextId), id)
  {
    hide AccountOf, SentCopies;
    FreshSum([Watch], id);
  }

  predicate Blank(a: Account) {
    && a.good == a.taken == a.sent == a.replies == a.tries == a.closes == 0
    && a.paced && a.tidy && a.brief
  }

  lemma FreshSum(sock: seq<Event>, id: Parcel)
    requires |sock| == 1 && sock[0] == Watch
    ensures Blank(AccountOf(sock)) && SentCopies(sock, id) == 0
  {
    hide AccountOf, SentCopies, Next;
    var none := sock[..0];
    assert sock == none + [sock[0]];
    EmptySum(none, id);
    Appended(none, sock[0], id);
    WatchBlank(AccountOf(none));
  }

  lemma EmptySum(sock: seq<Event>, id: Parcel)
    requires sock == []
    ensures Blank(AccountOf(sock)) && SentCopies(sock, id) == 0
  {
  }

  lemma WatchBlank(a: Account)
    requires Blank(a)
    ensures Blank(Next(a, Watch))
  {
  }

  lemma InvListed(s: Server)
    requires Inv(s)
    ensures Listed(s)
  {
  }

  lemma EpollInv(s: Server, c: nat, readable: bool)
    requires Inv(s) && c in s.list && s.info[c].watched
    ensures Inv(EpollEvent(s, c, readable))
  {
    hide Tasks, AccountOf;
    var conn := s.info[c].(watched := false);
    forall id ensures ViewOk(Grown(ViewOf(s, c, id).(conn := conn), Inbound(c, readable), id), id) {
      assert ViewOk(ViewOf(s, c, id), id);
    }
    hide ViewOk;
    PutInv(s, c, conn, Inbound(c, readable));
  }

  lemma HeartbeatInv(s: Server, c: nat)
    requires Inv(s) && c in s.list
    ensures Inv(Enqueue(s, Heartbeat(c)))
  {
    hide Tasks, AccountOf;
    forall id ensures ViewOk(Grown(ViewOf(s, c, id).(conn := s.info[c]), Heartbeat(c), id), id) {
      assert ViewOk(ViewOf(s, c, id), id);
    }
    hide ViewOk;
    PutInv(s, c, s.info[c], Heartbeat(c));
    assert SetConn(s, c, s.info[c]) == s;
  }

  lemma {:induction false} AuditInv(s: Server, todo: seq<nat>)
    requires Inv(s) && forall c :: c in todo ==> c in s.list
    ensures Inv(Audited(s, todo))
    decreases |todo|
  {
    hide Inv;
    if todo == [] {
    } else {
      InvListed(s);
      assert todo[0] in s.list;
      HeartbeatInv(s, todo[0]);
      AuditInv(Enqueue(s, Heartbeat(todo[0])), todo[1..]);
    }
  }

  lemma TickInv(s: Server, clock: int)
    requires Inv(s)
    ensures Inv(s.(clock := clock))
  {
    hide ViewOk, Tasks;
    var s' := s.(clock := clock);
    forall d, id | d in s'.info ensures ViewOk(ViewOf(s', d, id), id) {
      assert ViewOf(s', d, id) == ViewOf(s, d, id);
    }
  }

  /** Every step keeps the invariant. */
  lemma StepInv(s: Server, a: Action, s': Server)
    requires Inv(s) && Step(s, a) == Some(s')
    ensures Inv(s')
  {
    hide RunTask, Audited, EpollEvent, AcceptConn, Begin, Enqueue;
    match a
    case Accept(c) => AcceptConnInv(s, c);
    case Epoll(c, readable) => EpollInv(s, c, readable);
    case Audit => AuditInv(s, s.list);
    case Tick(d) => TickInv(s, s.clock + d);
    case Contend(i) => ContendInv(s, i);
    case Run(i, env) => RunTaskInv(s, i, env);
  }

  lemma {:induction false} ExecuteInv(s: Server, actions: seq<Action>, s': Server)
    requires Inv(s) && Listed(s) && Execute(s, actions) == Some(s')
    ensures Inv(s')
    decreases |actions|
  {
    hide Inv, Step;
    InvListed(s);
    if actions == [] {
    } else {
      var s1 := Step(s, actions[0]).value;
      StepInv(s, actions[0], s1);
      ExecuteInv(s1, actions[1..], s');
    }
  }
}
