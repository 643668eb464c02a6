/** What holds in every run of the connection and task system. */
module ChatTheorems {
  import opened Basics
  import opened Strings
  import opened Protocol
  import opened Chat
  import opened ChatView
  import opened ChatInvariant
  import opened BroadcastLoop
  import Codec

  /** s is reachable from a server without connections. */
  ghost predicate Reaches(actions: seq<Action>, s: Server) {
    Execute(INITIAL, actions) == Some(s)
  }

  lemma ReachableInv(actions: seq<Action>, s: Server)
    requires Reaches(actions, s)
    ensures Inv(s)
  {
    ExecuteInv(INITIAL, actions, s);
  }

  lemma {:induction false} Extend(s0: Server, actions: seq<Action>, s: Server, a: Action, s': Server)
    requires Listed(s0) && Execute(s0, actions) == Some(s) && Step(s, a) == Some(s')
    ensures Execute(s0, actions + [a]) == Some(s')
    decreases |actions|
  {
    hide Step;
    var longer := actions + [a];
    if actions == [] {
      assert longer[1..] == [];
    } else {
      assert longer[1..] == actions[1..] + [a];
      Extend(Step(s0, actions[0]).value, actions[1..], s, a, s');
    }
  }

  /** A run and one more step. */
  lemma Then(actions: seq<Action>, s: Server, a: Action, s': Server) returns (longer: seq<Action>)
    requires Reaches(actions, s) && Listed(s) && Step(s, a) == Some(s')
    ensures Reaches(longer, s')
  {
    hide Step;
    longer := actions + [a];
    Extend(INITIAL, actions, s, a, s');
  }

  // ---- lifetime --------------------------------------------------------------------------------

  lemma {:induction false} NamingIsAll(q: seq<Task>, c: nat, id: Parcel)
    ensures Tasks(q, c, id).all == Naming(q, c)
  {
    if q == [] {
    } else {
      var rest := q[1..];
      NamingIsAll(rest, c, id);
      assert Tasks(q, c, id).all == Mine(q[0], c, id).all + Tasks(rest, c, id).all;
    }
  }

  /** pending_jobs is the number of queued tasks naming the connection, every queued task
      names a connection still in the list, and a closing connection still has a task
      (unless its last one hangs in its farewell). */
  lemma Lifetime(actions: seq<Action>, s: Server, c: nat)
    requires Reaches(actions, s) && c in s.info
    ensures s.info[c].pending == Naming(s.queue, c)
    ensures 0 < Naming(s.queue, c) ==> c in s.list
    ensures c in s.list && s.info[c].status.Closing? && c !in s.held ==> 0 < Naming(s.queue, c)
    ensures forall i :: 0 <= i < |s.queue| ==> s.queue[i].conn in s.list
  {
    ReachableInv(actions, s);
    assert ViewOk(ViewOf(s, c, ANY), ANY);
    NamingIsAll(s.queue, c, ANY);
    forall i | 0 <= i < |s.queue| ensures s.queue[i].conn in s.list {
      var d := s.queue[i].conn;
      assert ViewOk(ViewOf(s, d, ANY), ANY);
      TasksSome(s.queue, i, ANY);
      ListedIfCounted(ViewOf(s, d, ANY), ANY);
    }
  }

  // ---- what a task does to connections other than its own --------------------------------------

  /** The part of a connection that only its own tasks, and epoll, change. */
  ghost predicate SameSocket(s: Server, r: Server, d: nat)
    requires d in s.info
  {
    && d in r.info
    && r.info[d].status == s.info[d].status
    && r.info[d].sock == s.info[d].sock
    && r.info[d].watched == s.info[d].watched
    && r.info[d].username == s.info[d].username
  }

  lemma RequestSpares(s: Server, t: Task, env: Env, d: nat)
    requires Mid(s, t) && d in s.info && d != t.conn && !Bad(s.info[t.conn].status)
    ensures SameSocket(s, OnRequest(s, t, env), d)
  {
    hide Mid, HandleInbound;
    MidListed(s, t);
    if t.Inbound? {
      InboundMid(s, t, env);
    }
  }

  lemma PendingSpares(s: Server, t: Task, env: Env, d: nat)
    requires Mid(s, t) && d in s.info && d != t.conn && !Bad(s.info[t.conn].status)
    ensures SameSocket(s, OnPending(s, t, env), d)
  {
    hide Mid, HandleInbound;
    MidListed(s, t);
    if t.Inbound? {
      InboundMid(s, t, env);
    }
  }

  lemma ProcessSpares(s: Server, t: Task, env: Env, d: nat)
    requires Mid(s, t) && d in s.info && d != t.conn
    ensures SameSocket(s, Process(s, t, env), d)
  {
    hide Mid, OnRequest, OnPending, Broadcast;
    MidListed(s, t);
    var st := s.info[t.conn].status;
    if st.Closing? {
      BroadcastMid(s, t, SERVER_NAME, env.notice);
    } else if !st.Err? {
      RequestSpares(s, t, env, d);
      PendingSpares(s, t, env, d);
    }
  }

  lemma RunSpares(s: Server, i: nat, env: Env, d: nat)
    requires Inv(s) && i < |s.queue| && d in s.info && d != s.queue[i].conn
    ensures SameSocket(s, RunTask(s, i, env), d)
  {
    hide Inv, Mid, Process;
    InvListed(s);
    InvQueue(s, i);
    var t := s.queue[i];
    if t.conn !in s.held {
      BeginMid(s, i);
      ArriveMid(Begin(s, i), t);
      ProcessSpares(Arrive(Begin(s, i), t), t, env, d);
    }
  }

  lemma InvQueue(s: Server, i: nat)
    requires Inv(s) && i < |s.queue|
    ensures s.queue[i].conn in s.info && s.queue[i].conn in s.list
  {
    var d := s.queue[i].conn;
    assert ViewOk(ViewOf(s, d, ANY), ANY);
    TasksSome(s.queue, i, ANY);
    ListedIfCounted(ViewOf(s, d, ANY), ANY);
  }

  // ---- who destroys a connection ---------------------------------------------------------------

  lemma {:induction false} RemoveAbsent(list: seq<nat>, c: nat)
    requires c !in list
    ensures Remove(list, c) == list
  {
    if list == [] {
    } else {
      RemoveAbsent(list[1..], c);
    }
  }

  /** Running a task destroys a connection if and only if the connection is closing, the task
      is the last one naming it, its mutex is free, and the farewell broadcast returns; and
      then no task naming it is left. */
  lemma LastTaskDestroys(actions: seq<Action>, s: Server, i: nat, env: Env, r: Server)
    requires Reaches(actions, s) && Step(s, Run(i, env)) == Some(r)
    ensures var c := s.queue[i].conn;
            && (c !in r.list <==>
                  && s.info[c].status.Closing? && Naming(s.queue, c) == 1 && c !in s.held
                  && !s.hung && Clear(s, s.list, c))
            && (c !in r.list ==> Naming(r.queue, c) == 0)
            && (forall d :: d != c ==> (d in s.list <==> d in r.list))
  {
    ReachableInv(actions, s);
    InvQueue(s, i);
    var t, s1 := s.queue[i], Begin(s, i);
    var c := t.conn;
    NamingIsAll(s.queue, c, ANY);
    assert ViewOk(ViewOf(s, c, ANY), ANY);
    assert s.info[c].pending == Naming(s.queue, c);
    if c !in s.held {
      BeginMid(s, i);
      ArriveMid(s1, t);
      var s2 := Arrive(s1, t);
      assert s2.info[c].pending == Naming(s.queue, c) - 1;
      assert Clear(s2, s2.list, c) <==> Clear(s, s.list, c) by {
        hide Inv, Mid;
        assert forall d :: d in s.list && d != c ==> s2.info[d] == s.info[d];
      }
      ProcessList(s2, t, env);
      if c !in r.list {
        RunTaskInv(s, i, env);
        assert ViewOk(ViewOf(r, c, ANY), ANY);
        NamingIsAll(r.queue, c, ANY);
      }
    }
  }

  /** Only the CLOSING branch with no job left changes the list. */
  lemma ProcessList(s: Server, t: Task, env: Env)
    requires Mid(s, t)
    ensures var c, r := t.conn, Process(s, t, env);
            && (c !in r.list <==> s.info[c].status.Closing? && s.info[c].pending == 0
                                  && !s.hung && Clear(s, s.list, c))
            && (forall d :: d != c ==> (d in s.list <==> d in r.list))
            && c in r.info
  {
    hide Mid, OnRequest, OnPending, Broadcast;
    MidListed(s, t);
    var c := t.conn;
    if s.info[c].status.Closing? && s.info[c].pending == 0 {
      assert Distinct(s.list) by { MidDistinct(s, t); }
      BroadcastReturns(s, c, SERVER_NAME, env.notice);
      RemoveKeeps(s.list, c);
    }
  }

  lemma MidDistinct(s: Server, t: Task)
    requires Mid(s, t)
    ensures Distinct(s.list)
  {
  }

  // ---- no live connection is stranded ----------------------------------------------------------

  predicate InboundFor(t: Task, c: nat) { t.conn == c && t.Inbound? }
  predicate OutboundFor(t: Task, c: nat) { t.conn == c && t.Outbound? }
  predicate GoodStatusFor(t: Task, c: nat) { t == Outbound(c, StatusMsg(STATUS_GOOD, [])) }
  predicate DeliverFor(t: Task, c: nat, id: Parcel) {
    t.conn == c && t.Outbound? && t.msg.DeliverMsg? && t.msg.parcel == id
  }

  /** A positive count has a task behind it. */
  lemma {:induction false} Witnesses(q: seq<Task>, c: nat)
    ensures 1 <= Tasks(q, c, ANY).inb ==> exists t :: t in q && InboundFor(t, c)
    ensures 1 <= Tasks(q, c, ANY).out ==> exists t :: t in q && OutboundFor(t, c)
    ensures 1 <= Tasks(q, c, ANY).good ==> exists t :: t in q && GoodStatusFor(t, c)
  {
    if q == [] {
    } else {
      Witnesses(q[1..], c);
      assert q[0] in q;
      assert forall t :: t in q[1..] ==> t in q;
      if InboundFor(q[0], c) || OutboundFor(q[0], c) || GoodStatusFor(q[0], c) {
      } else {
        assert Mine(q[0], c, ANY).inb == 0 && Mine(q[0], c, ANY).out == 0 && Mine(q[0], c, ANY).good == 0;
      }
      if 1 <= Tasks(q[1..], c, ANY).inb { var t :| t in q[1..] && InboundFor(t, c); assert t in q; }
      if 1 <= Tasks(q[1..], c, ANY).out { var t :| t in q[1..] && OutboundFor(t, c); assert t in q; }
      if 1 <= Tasks(q[1..], c, ANY).good { var t :| t in q[1..] && GoodStatusFor(t, c); assert t in q; }
    }
  }

  /** Every live connection that no hung worker holds has something that will move it on: the
      status it owes, the message it is to send, or an ear for its client. */
  lemma NotStranded(actions: seq<Action>, s: Server, c: nat)
    requires Reaches(actions, s) && c in s.list && c in s.info && c !in s.held
    ensures var st := s.info[c].status;
            && (st.SendStat? ==> exists t :: t in s.queue && GoodStatusFor(t, c))
            && (st.SendMsg? ==> exists t :: t in s.queue && OutboundFor(t, c))
            && (st.PreRegister? || st.Available? || st.PendingStatus? ==>
                  s.info[c].watched || exists t :: t in s.queue && InboundFor(t, c))
  {
    ReachableInv(actions, s);
    assert ViewOk(ViewOf(s, c, ANY), ANY);
    hide Tasks, AccountOf;
    Witnesses(s.queue, c);
  }

  // ---- the status token ------------------------------------------------------------------------

  /** The outbound statuses queued for c. */
  function Statuses(q: seq<Task>, c: nat): seq<Task> {
    if q == [] then []
    else (if q[0].conn == c && q[0].Outbound? && q[0].msg.StatusMsg? then [q[0]] else []) + Statuses(q[1..], c)
  }

  lemma {:induction false} StatusesCounted(q: seq<Task>, c: nat)
    ensures |Statuses(q, c)| == Tasks(q, c, ANY).stat
    ensures Tasks(q, c, ANY).good == Tasks(q, c, ANY).stat ==>
              forall t :: t in Statuses(q, c) ==> GoodStatusFor(t, c)
  {
    if q == [] {
    } else {
      StatusesCounted(q[1..], c);
      TasksSane(q[1..], c, ANY);
    }
  }

  /** A live connection has exactly one status queued, GOOD and without text, while it is in
      SEND_STAT and none otherwise; so whatever is sent in SEND_MSG is a DELIVER. */
  lemma StatusToken(actions: seq<Action>, s: Server, c: nat)
    requires Reaches(actions, s) && c in s.info && !Bad(s.info[c].status)
    ensures Statuses(s.queue, c) ==
              if s.info[c].status.SendStat? then [Outbound(c, StatusMsg(STATUS_GOOD, []))] else []
    ensures !s.info[c].status.SendStat? ==>
              forall t :: t in s.queue && OutboundFor(t, c) ==> t.msg.DeliverMsg?
  {
    ReachableInv(actions, s);
    assert ViewOk(ViewOf(s, c, ANY), ANY);
    hide Tasks, AccountOf;
    StatusesCounted(s.queue, c);
    if s.info[c].status.SendStat? {
      assert Statuses(s.queue, c)[0] in Statuses(s.queue, c);
    } else {
      forall t | t in s.queue && OutboundFor(t, c) ensures t.msg.DeliverMsg? {
        if t.msg.StatusMsg? {
          StatusesComplete(s.queue, c, t);
        }
      }
    }
  }

  lemma {:induction false} StatusesComplete(q: seq<Task>, c: nat, t: Task)
    requires t in q && t.conn == c && t.Outbound? && t.msg.StatusMsg?
    ensures t in Statuses(q, c)
  {
    if q[0] != t {
      StatusesComplete(q[1..], c, t);
    }
  }

  // ---- socket histories ------------------------------------------------------------------------

  function Count(p: Event -> bool, sock: seq<Event>): nat {
    if sock == [] then 0
    else Count(p, sock[..|sock| - 1]) + (if p(sock[|sock| - 1]) then 1 else 0)
  }

  predicate GoodSent(e: Event) { e.StatusSent? && e.code == STATUS_GOOD }
  predicate RequestTaken(e: Event) { e.Read? && e.accepted && (e.at.PreRegister? || e.at.Available?) }
  predicate IsDeliver(e: Event) { e.DeliverSent? }
  predicate ReplyTaken(e: Event) { e.Read? && e.accepted && e.at.PendingStatus? }

  lemma {:induction false} SumCounts(sock: seq<Event>)
    ensures AccountOf(sock).good == Count(GoodSent, sock) && AccountOf(sock).taken == Count(RequestTaken, sock)
    ensures AccountOf(sock).sent == Count(IsDeliver, sock) && AccountOf(sock).replies == Count(ReplyTaken, sock)
  {
    if sock == [] {
    } else {
      SumCounts(sock[..|sock| - 1]);
    }
  }

  /** On a live connection every accepted request is answered by one GOOD status, the last of
      them still owed exactly in SEND_STAT; and every DELIVER but the one being waited for in
      PENDING_STATUS has been followed by an accepted message. */
  lemma StatusAndDeliverBalance(actions: seq<Action>, s: Server, c: nat)
    requires Reaches(actions, s) && c in s.info && !Bad(s.info[c].status)
    ensures var sock, st := s.info[c].sock, s.info[c].status;
            && Count(GoodSent, sock) + Bit(st.SendStat?) == Count(RequestTaken, sock)
            && Count(IsDeliver, sock) - Count(ReplyTaken, sock) == Bit(st.PendingStatus?)
  {
    ReachableInv(actions, s);
    assert ViewOk(ViewOf(s, c, ANY), ANY);
    SumCounts(s.info[c].sock);
  }

  /** The last DELIVER of the history is answered. */
  ghost predicate Answered(sock: seq<Event>) {
    forall i :: 0 <= i < |sock| && sock[i].DeliverSent? ==>
      exists k :: i < k < |sock| && ReplyTaken(sock[k])
  }

  ghost predicate Paced(sock: seq<Event>) {
    forall i, j :: 0 <= i < j < |sock| && sock[i].DeliverSent? && sock[j].DeliverSent? ==>
      exists k :: i < k < j && ReplyTaken(sock[k])
  }

  /** The running account says what it claims about the history as a whole. */
  lemma {:induction false} PacedHistory(sock: seq<Event>)
    requires AccountOf(sock).paced
    ensures Paced(sock) && AccountOf(sock).replies <= AccountOf(sock).sent
    ensures AccountOf(sock).sent <= AccountOf(sock).replies ==> Answered(sock)
  {
    if sock == [] {
    } else {
      var n := |sock| - 1;
      var rest, e := sock[..n], sock[n];
      PacedHistory(rest);
      assert AccountOf(sock) == Next(AccountOf(rest), e);
      forall i, j | 0 <= i < j < |sock| && sock[i].DeliverSent? && sock[j].DeliverSent?
        ensures exists k :: i < k < j && ReplyTaken(sock[k])
      {
        assert rest[i] == sock[i];
        if j == n {
          var k :| i < k < |rest| && ReplyTaken(rest[k]);
          assert ReplyTaken(sock[k]);
        } else {
          assert rest[j] == sock[j];
          var k :| i < k < j && ReplyTaken(rest[k]);
          assert ReplyTaken(sock[k]);
        }
      }
      if AccountOf(sock).sent <= AccountOf(sock).replies {
        forall i | 0 <= i < |sock| && sock[i].DeliverSent?
          ensures exists k :: i < k < |sock| && ReplyTaken(sock[k])
        {
          if ReplyTaken(e) {
            assert ReplyTaken(sock[n]);
          } else {
            assert rest[i] == sock[i];
            var k :| i < k < |rest| && ReplyTaken(rest[k]);
            assert ReplyTaken(sock[k]);
          }
        }
      }
    }
  }

  /** Two DELIVERs are never sent on a connection without an accepted client message between
      them, over the connection's whole life. */
  lemma DeliversArePaced(actions: seq<Action>, s: Server, c: nat)
    requires Reaches(actions, s) && c in s.info
    ensures Paced(s.info[c].sock)
  {
    ReachableInv(actions, s);
    assert ViewOk(ViewOf(s, c, ANY), ANY);
    PacedHistory(s.info[c].sock);
  }

  // ---- delivery --------------------------------------------------------------------------------

  /** The copies of one DELIVER queued for c. */
  function QueuedCopies(q: seq<Task>, c: nat, id: Parcel): nat {
    if q == [] then 0 else (if DeliverFor(q[0], c, id) then 1 else 0) + QueuedCopies(q[1..], c, id)
  }

  lemma {:induction false} CopiesCounted(q: seq<Task>, c: nat, id: Parcel)
    ensures Tasks(q, c, id).copies == QueuedCopies(q, c, id)
  {
    if q == [] {
    } else {
      CopiesCounted(q[1..], c, id);
    }
  }

  /** While a connection lives, every DELIVER made for it is queued exactly once or was sent
      exactly once; over its whole life none is sent twice, and none that was not made is
      queued or sent. */
  lemma DeliveredOnce(actions: seq<Action>, s: Server, c: nat, id: Parcel)
    requires Reaches(actions, s) && c in s.info
    ensures var queued, sent := QueuedCopies(s.queue, c, id), SentCopies(s.info[c].sock, id);
            && queued + sent <= 1
            && (id !in s.info[c].made ==> queued + sent == 0)
            && (id in s.info[c].made && !Bad(s.info[c].status) ==> queued + sent == 1)
  {
    ReachableInv(actions, s);
    assert ViewOk(ViewOf(s, c, id), id);
    CopiesCounted(s.queue, c, id);
  }

  // ---- frames ----------------------------------------------------------------------------------

  function FrameOf(msg: Message): Codec.Frame {
    match msg
    case StatusMsg(code, text) => Codec.Status(code, text)
    case DeliverMsg(p) => Codec.Deliver(p.from, p.text)
  }

  /** Every message ever queued fits the buffer its task was given, and the client can read
      its lengths: a DELIVER takes at most the 8197 bytes of its packet structure, a status
      at most 32 bytes, fewer than the smallest buffer a task has. */
  lemma FramesFit(actions: seq<Action>, s: Server, i: nat)
    requires Reaches(actions, s) && i < |s.queue| && s.queue[i].Outbound?
    ensures var f := FrameOf(s.queue[i].msg);
            && Codec.Packable(f)
            && |Codec.Encode(f)| <= (if f.Deliver? then Codec.DELIVER_SIZE else 32)
            && 32 < Codec.STATUS_SIZE < Codec.INCOMING_SIZE < Codec.DELIVER_SIZE == 8197
  {
    ReachableInv(actions, s);
    assert Fits(s.queue[i]);
  }

  lemma {:induction false} BriefHistory(sock: seq<Event>)
    requires AccountOf(sock).brief
    ensures forall i :: 0 <= i < |sock| && (sock[i].StatusSent? || sock[i].ErrorStatus?) ==> Short(sock[i].text)
  {
    if sock == [] {
    } else {
      BriefHistory(sock[..|sock| - 1]);
    }
  }

  /** No status ever sent or attempted carries more than the 28 bytes of the inactivity
      notice. */
  lemma StatusTextsShort(actions: seq<Action>, s: Server, c: nat)
    requires Reaches(actions, s) && c in s.info
    ensures var sock := s.info[c].sock;
            forall i :: 0 <= i < |sock| && (sock[i].StatusSent? || sock[i].ErrorStatus?) ==> |sock[i].text| <= 28
  {
    ReachableInv(actions, s);
    assert ViewOk(ViewOf(s, c, ANY), ANY);
    BriefHistory(s.info[c].sock);
  }

  // ---- teardown --------------------------------------------------------------------------------

  /** A history in which a close, if any, is the last event, directly follows the only error
      status, and happens once. */
  ghost predicate Orderly(sock: seq<Event>) {
    && (forall i :: 0 <= i < |sock| && sock[i].Close? ==>
          i == |sock| - 1 && 0 < i && sock[i - 1].ErrorStatus?)
    && (forall i :: 0 <= i < |sock| && sock[i].ErrorStatus? ==> i == |sock| - 2 && sock[i + 1].Close?)
  }

  lemma {:induction false} NoneTried(sock: seq<Event>)
    ensures 0 <= AccountOf(sock).tries && 0 <= AccountOf(sock).closes
    ensures AccountOf(sock).tries == 0 ==> forall i :: 0 <= i < |sock| ==> !sock[i].ErrorStatus?
    ensures AccountOf(sock).closes == 0 ==> forall i :: 0 <= i < |sock| ==> !sock[i].Close?
  {
    if sock == [] {
    } else {
      var rest := sock[..|sock| - 1];
      NoneTried(rest);
      assert forall i :: 0 <= i < |rest| ==> rest[i] == sock[i];
    }
  }

  lemma OrderlyHistory(sock: seq<Event>)
    requires AccountOf(sock).tidy && AccountOf(sock).tries == AccountOf(sock).closes <= 1
    ensures Orderly(sock)
    ensures AccountOf(sock).closes == 1 ==> sock != [] && sock[|sock| - 1].Close?
  {
    NoneTried(sock);
    if sock != [] && AccountOf(sock).closes == 1 {
      var n := |sock| - 1;
      var rest := sock[..n];
      NoneTried(rest);
      assert AccountOf(sock) == Next(AccountOf(rest), sock[n]);
      assert sock[n].Close? && AccountOf(rest).justTried;
      assert rest != [] && rest[|rest| - 1] == sock[n - 1];
      var init := rest[..n - 1];
      NoneTried(init);
      assert AccountOf(rest) == Next(AccountOf(init), sock[n - 1]);
      assert forall i :: 0 <= i < |init| ==> init[i] == sock[i];
    }
  }

  /** A connection is closed at most once, right after one attempt to send an error status,
      and its socket is not touched afterwards; it is closed exactly in CLOSING, is not
      watched then, and is out of the list only when closed. */
  lemma OrderlyTeardown(actions: seq<Action>, s: Server, c: nat)
    requires Reaches(actions, s) && c in s.info
    ensures var conn := s.info[c];
            && Orderly(conn.sock)
            && (conn.status.Closing? <==> conn.sock != [] && conn.sock[|conn.sock| - 1].Close?)
            && (!conn.status.Closing? ==>
                  forall i :: 0 <= i < |conn.sock| ==> !conn.sock[i].Close? && !conn.sock[i].ErrorStatus?)
            && (conn.status.Closing? ==> !conn.watched)
            && (c !in s.list ==> conn.status.Closing?)
  {
    ReachableInv(actions, s);
    assert ViewOk(ViewOf(s, c, ANY), ANY);
    OrderlyHistory(s.info[c].sock);
    NoneTried(s.info[c].sock);
  }

  /** PRE_REGISTER is left for good and the username with it; a connection in error stays in
      error or closes; and CLOSING is final: neither the state nor the socket's history
      changes any more. */
  ghost predicate Downhill(s: Server, r: Server, c: nat)
    requires c in s.info
  {
    && c in r.info
    && (!s.info[c].status.PreRegister? ==>
          !r.info[c].status.PreRegister? && r.info[c].username == s.info[c].username)
    && (Bad(s.info[c].status) ==> Bad(r.info[c].status))
    && (s.info[c].status.Closing? ==> r.info[c].status.Closing? && r.info[c].sock == s.info[c].sock)
  }

  lemma RequestDownhill(s: Server, t: Task, env: Env)
    requires Mid(s, t) && s.info[t.conn].status.Available?
    ensures Downhill(s, OnRequest(s, t, env), t.conn)
  {
    hide Mid, HandleInbound;
    MidListed(s, t);
    if t.Inbound? {
      InboundMid(s, t, env);
    }
  }

  lemma ReplyDownhill(s: Server, t: Task, env: Env)
    requires Mid(s, t) && s.info[t.conn].status.PendingStatus?
    ensures Downhill(s, OnPending(s, t, env), t.conn)
  {
    hide Mid, HandleInbound;
    MidListed(s, t);
    if t.Inbound? {
      InboundMid(s, t, env);
    }
  }

  lemma ClosingDownhill(s: Server, t: Task, env: Env)
    requires Mid(s, t) && s.info[t.conn].status.Closing?
    ensures Downhill(s, OnClosing(s, t.conn, env), t.conn)
  {
    hide Mid, Broadcast;
    MidListed(s, t);
    BroadcastMid(s, t, SERVER_NAME, env.notice);
  }

  lemma ProcessDownhill(s: Server, t: Task, env: Env)
    requires Mid(s, t)
    ensures Downhill(s, Process(s, t, env), t.conn)
  {
    hide Mid, OnRequest, OnPending, OnClosing;
    MidListed(s, t);
    if s.info[t.conn].status.Closing? {
      ClosingDownhill(s, t, env);
    } else if s.info[t.conn].status.Available? {
      RequestDownhill(s, t, env);
    } else if s.info[t.conn].status.PendingStatus? {
      ReplyDownhill(s, t, env);
    }
  }

  lemma {:induction false} AuditDownhill(s: Server, todo: seq<nat>, c: nat)
    requires c in s.info && forall d :: d in todo ==> d in s.info
    ensures Downhill(s, Audited(s, todo), c)
    decreases |todo|
  {
    if todo == [] {
    } else {
      AuditDownhill(Enqueue(s, Heartbeat(todo[0])), todo[1..], c);
    }
  }

  lemma StepDownhill(s: Server, a: Action, s': Server, c: nat)
    requires Inv(s) && Step(s, a) == Some(s') && c in s.info
    ensures Downhill(s, s', c)
  {
    hide Inv, Mid, Process, Audited;
    InvListed(s);
    match a
    case Accept(_) =>
    case Epoll(d, _) =>
    case Audit => AuditDownhill(s, s.list, c);
    case Tick(_) =>
    case Contend(_) =>
    case Run(i, env) =>
      var t := s.queue[i];
      if t.conn == c {
        if c !in s.held {
          BeginMid(s, i);
          ArriveMid(Begin(s, i), t);
          ProcessDownhill(Arrive(Begin(s, i), t), t, env);
        }
      } else {
        RunSpares(s, i, env, c);
      }
  }

  /** In any continuation of a run: a connection that has left PRE_REGISTER never returns to
      it nor changes its username; once ERR it never becomes live again; and once closed its
      socket is never sent on, read, watched or closed again. */
  lemma {:induction false} TeardownIsFinal(s: Server, actions: seq<Action>, s': Server, c: nat)
    requires Inv(s) && Listed(s) && Execute(s, actions) == Some(s') && c in s.info
    ensures Downhill(s, s', c)
    decreases |actions|
  {
    hide Inv, Step;
    if actions == [] {
    } else {
      var s1 := Step(s, actions[0]).value;
      StepInv(s, actions[0], s1);
      InvListed(s1);
      StepDownhill(s, actions[0], s1, c);
      TeardownIsFinal(s1, actions[1..], s', c);
    }
  }

  // ---- inactivity ------------------------------------------------------------------------------

  /** last_active is the time of the latest task other than a heartbeat, or of the
      acceptance; and a heartbeat closes a live connection exactly when more than 60 seconds
      have passed since then, and otherwise only takes itself off the queue. */
  lemma HeartbeatExact(actions: seq<Action>, s: Server, i: nat, env: Env, r: Server)
    requires Reaches(actions, s) && Step(s, Run(i, env)) == Some(r) && s.queue[i].Heartbeat?
    requires !Bad(s.info[s.queue[i].conn].status) && s.queue[i].conn !in s.held
    ensures var c := s.queue[i].conn;
            var idle := s.clock - LastRun(s.info[c].runs, s.info[c].born);
            && (60 < idle <==> c in r.info && r.info[c].status.Closing?)
            && (idle <= 60 ==>
                  r == Begin(s, i).(info := r.info)
                  && r.info == s.info[c := s.info[c].(pending := s.info[c].pending - 1,
                                                       runs := s.info[c].runs + [Ran(true, s.clock)])])
  {
    ReachableInv(actions, s);
    assert ViewOk(ViewOf(s, s.queue[i].conn, ANY), ANY);
    hide Inv, Dispatch, Tasks, AccountOf;
  }

  // ---- a hung broadcast ------------------------------------------------------------------------

  /** What a hung broadcast freezes: the list, and the DELIVERs that were ever made. */
  ghost predicate Frozen(s: Server, r: Server) {
    && r.hung && r.list == s.list && r.nextId == s.nextId && r.info.Keys == s.info.Keys
    && forall c :: c in s.info ==> r.info[c].made == s.info[c].made
  }

  /** Once a broadcast hangs it hangs for ever: the list's mutex is never released, a connection
      in front of it stays closing or in error, nobody is accepted or destroyed any more, and
      no DELIVER is made for anybody, whatever is sent to the server. */
  lemma {:induction false} HungForEver(s: Server, actions: seq<Action>, s': Server)
    requires Inv(s) && Listed(s) && Execute(s, actions) == Some(s') && s.hung
    ensures Frozen(s, s') && exists b :: b in s'.list && b in s'.info && Bad(s'.info[b].status)
    decreases |actions|
  {
    hide Step;
    if actions == [] {
      var b :| b in s.list && Bad(s.info[b].status);
    } else {
      var s1 := Step(s, actions[0]).value;
      StepInv(s, actions[0], s1);
      HungStep(s, actions[0], s1);
      HungForEver(s1, actions[1..], s');
    }
  }

  lemma HungStep(s: Server, a: Action, s': Server)
    requires Inv(s) && Step(s, a) == Some(s') && s.hung
    ensures Frozen(s, s')
  {
    hide Inv, Mid, Process, Audited;
    InvListed(s);
    if a.Run? && s.queue[a.i].conn !in s.held {
      ProcessHung(Arrive(Begin(s, a.i), s.queue[a.i]), s.queue[a.i], a.env);
    }
  }

  /** With the list's mutex taken, no message changes anything. */
  lemma InboundHung(s: Server, c: nat, readable: bool, env: Env)
    requires Listed(s) && c in s.info && s.hung
    ensures HandleInbound(s, c, readable, env).s == s
  {
    hide Walk, Sanitized;
  }

  lemma RequestHung(s: Server, t: Task, env: Env)
    requires Listed(s) && t.conn in s.info && s.hung
    ensures Frozen(s, OnRequest(s, t, env))
  {
    hide HandleInbound;
    if t.Inbound? {
      InboundHung(s, t.conn, t.readable, env);
    }
  }

  lemma ReplyHung(s: Server, t: Task, env: Env)
    requires Listed(s) && t.conn in s.info && s.hung
    ensures Frozen(s, OnPending(s, t, env))
  {
    hide HandleInbound;
    if t.Inbound? {
      InboundHung(s, t.conn, t.readable, env);
    }
  }

  lemma ProcessHung(s: Server, t: Task, env: Env)
    requires Listed(s) && t.conn in s.info && s.hung
    ensures Frozen(s, Process(s, t, env))
  {
    hide OnRequest, OnPending, OnClosing, OnError, OnSendStat, OnSendMsg, Frozen;
    if t.Heartbeat? && !Bad(s.info[t.conn].status) {
      HeartbeatHung(s, t, env);
    } else {
      match s.info[t.conn].status
      case PreRegister => RequestHung(s, t, env);
      case Available => RequestHung(s, t, env);
      case SendStat => SubmitHung(s, t, env);
      case SendMsg => SubmitHung(s, t, env);
      case PendingStatus => ReplyHung(s, t, env);
      case Err => ErrorHung(s, t, env);
      case Closing => ClosingHung(s, t.conn, env);
    }
  }

  lemma HeartbeatHung(s: Server, t: Task, env: Env)
    requires t.conn in s.info && s.hung
    ensures Frozen(s, s)
    ensures Frozen(s, OnError(SetConn(s, t.conn, s.info[t.conn].(status := Err, statMsg := INACTIVE)), t, env))
  {
  }

  lemma SubmitHung(s: Server, t: Task, env: Env)
    requires t.conn in s.info && s.hung
    ensures Frozen(s, OnSendStat(s, t, env)) && Frozen(s, OnSendMsg(s, t, env))
  {
  }

  lemma ErrorHung(s: Server, t: Task, env: Env)
    requires t.conn in s.info && s.hung
    ensures Frozen(s, OnError(s, t, env))
  {
  }

  lemma ClosingHung(s: Server, c: nat, env: Env)
    requires Listed(s) && c in s.info && s.hung
    ensures Frozen(s, OnClosing(s, c, env))
  {
  }
}
