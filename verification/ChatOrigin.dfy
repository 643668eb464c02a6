/** Where every DELIVER comes from, and what its recipient is shown. */
module ChatOrigin {
  import opened Basics
  import opened Strings
  import opened Protocol
  import opened Chat
  import opened ChatView
  import opened ChatInvariant
  import opened BroadcastLoop
  import opened ChatTheorems
  import opened ChatRequests
  import Codec
  import Client

  /** c is one of the others in the list, and p carries the given name and text. */
  predicate Addressed(s: Server, sender: nat, c: nat, p: Parcel, from: Bytes, text: Bytes) {
    c in s.list && c != sender && p.from == from && p.text == text
  }

  /** Task i is a SEND of another connection, and p carries that connection's name and what is
      left of the text it sent. */
  predicate Relayed(s: Server, i: nat, env: Env, c: nat, p: Parcel) {
    && Hears(s, i) && env.incoming.Send? && Cleaned(env.incoming.body, true) != []
    && var d := s.queue[i].conn;
       Addressed(s, d, c, p, s.info[d].username, Cleaned(env.incoming.body, true))
  }

  /** Task i is a granted REGISTER or a connection's last task, and p is the server's own. */
  predicate Announced(s: Server, i: nat, env: Env, c: nat, p: Parcel)
    requires Listed(s)
  {
    && i < |s.queue| && s.queue[i].conn in s.info
    && var d := s.queue[i].conn;
    && (|| (Hears(s, i) && env.incoming.Register? && Grantable(s, d, env.incoming.name))
        || (s.info[d].status.Closing? && s.info[d].pending == 1))
    && (|| Addressed(s, d, c, p, SERVER_NAME, Sanitized(env.notice, true))
        || (c == d && !s.info[d].status.Closing?
            && p.from == SERVER_NAME && p.text == Sanitized(env.welcome, true)))
  }

  /** The step made p for c. */
  predicate Origin(s: Server, a: Action, c: nat, p: Parcel)
    requires Listed(s)
  {
    a.Run? && (Relayed(s, a.i, a.env, c, p) || Announced(s, a.i, a.env, c, p))
  }

  predicate IsNew(s: Server, r: Server, c: nat, p: Parcel) {
    c in r.info && p in r.info[c].made && (c in s.info ==> p !in s.info[c].made)
  }

  // ---- who adds to a connection's parcels ------------------------------------------------------

  lemma {:induction false} WalkMakes(s: Server, todo: seq<nat>, sender: nat, from: Bytes, text: Bytes,
                                     c: nat, p: Parcel)
    requires forall d :: d in todo ==> d in s.info
    requires IsNew(s, Walk(s, todo, sender, from, text), c, p)
    ensures c in todo && c != sender && p.from == from && p.text == Sanitized(text, true)
    decreases |todo|
  {
    hide Sanitized;
    if todo != [] && todo[0] == sender {
      WalkMakes(s, todo[1..], sender, from, text, c, p);
    } else if todo != [] && !Bad(s.info[todo[0]].status) {
      var s1 := EnqueueDeliver(s, todo[0], from, text);
      if !IsNew(s, s1, c, p) {
        WalkMakes(s1, todo[1..], sender, from, text, c, p);
      }
    }
  }

  lemma BroadcastMakes(s: Server, sender: nat, from: Bytes, text: Bytes, c: nat, p: Parcel)
    requires Listed(s) && IsNew(s, Broadcast(s, sender, from, text), c, p)
    ensures Addressed(s, sender, c, p, from, Sanitized(text, true))
  {
    hide Walk, Sanitized;
    WalkMakes(s, s.list, sender, from, Sanitized(text, true), c, p);
    SanitizedTwice(text, true, true);
  }

  /** What the handler of a message adds. */
  lemma InboundMakes(s: Server, t: Task, env: Env, c: nat, p: Parcel)
    requires Listed(s) && t.conn in s.info && t.Inbound?
    requires IsNew(s, HandleInbound(s, t.conn, t.readable, env).s, c, p)
    ensures var d, m := t.conn, env.incoming;
            && t.readable
            && (|| (&& m.Send? && Cleaned(m.body, true) != []
                    && Addressed(s, d, c, p, s.info[d].username, Cleaned(m.body, true)))
                || (&& m.Register? && Grantable(s, d, m.name)
                    && (|| Addressed(s, d, c, p, SERVER_NAME, Sanitized(env.notice, true))
                        || (c == d && p.from == SERVER_NAME && p.text == Sanitized(env.welcome, true)))))
  {
    hide Broadcast, Sanitized;
    var d, m := t.conn, env.incoming;
    if m.Send? {
      SanitizedTwice(m.body.value, true, true);
      BroadcastMakes(s, d, s.info[d].username, Cleaned(m.body, true), c, p);
    } else {
      var s1 := SetConn(s, d, s.info[d].(username := Cleaned(m.name, false)));
      var s2 := EnqueueDeliver(s1, d, SERVER_NAME, env.welcome);
      if !IsNew(s1, s2, c, p) {
        BroadcastMakes(s2, d, SERVER_NAME, env.notice, c, p);
      }
    }
  }

  lemma RequestMakes(s: Server, t: Task, env: Env, c: nat, p: Parcel)
    requires Listed(s) && t.conn in s.info && IsNew(s, OnRequest(s, t, env), c, p)
    ensures t.Inbound? && IsNew(s, HandleInbound(s, t.conn, t.readable, env).s, c, p)
  {
    hide HandleInbound;
    if t.Inbound? {
      HandledKeys(s, t.conn, t.readable, env);
    }
  }

  lemma ReplyMakes(s: Server, t: Task, env: Env, c: nat, p: Parcel)
    requires Listed(s) && t.conn in s.info && IsNew(s, OnPending(s, t, env), c, p)
    ensures t.Inbound? && IsNew(s, HandleInbound(s, t.conn, t.readable, env).s, c, p)
  {
    hide HandleInbound;
    if t.Inbound? {
      HandledKeys(s, t.conn, t.readable, env);
    }
  }

  lemma ClosingMakes(s: Server, d: nat, env: Env, c: nat, p: Parcel)
    requires Listed(s) && d in s.info && IsNew(s, OnClosing(s, d, env), c, p)
    ensures s.info[d].pending == 0 && IsNew(s, Broadcast(s, d, SERVER_NAME, env.notice), c, p)
  {
    hide Broadcast;
  }

  lemma ProcessMakes(s: Server, t: Task, env: Env, c: nat, p: Parcel)
    requires Listed(s) && t.conn in s.info && IsNew(s, Process(s, t, env), c, p)
    ensures || (&& t.Inbound? && Listening(s.info[t.conn].status)
                && IsNew(s, HandleInbound(s, t.conn, t.readable, env).s, c, p))
            || (&& s.info[t.conn].status.Closing? && s.info[t.conn].pending == 0
                && IsNew(s, Broadcast(s, t.conn, SERVER_NAME, env.notice), c, p))
  {
    hide OnRequest, OnPending, OnClosing, HandleInbound, Broadcast;
    var st := s.info[t.conn].status;
    if !(t.Heartbeat? && !Bad(st)) {
      if st.PreRegister? || st.Available? {
        RequestMakes(s, t, env, c, p);
      } else if st.PendingStatus? {
        ReplyMakes(s, t, env, c, p);
      } else if st.Closing? {
        ClosingMakes(s, t.conn, env, c, p);
      }
    }
  }

  // ---- every step, every run -------------------------------------------------------------------

  lemma RunMakes(s: Server, i: nat, env: Env, c: nat, p: Parcel)
    requires Listed(s) && i < |s.queue| && s.queue[i].conn in s.info
    requires IsNew(s, RunTask(s, i, env), c, p)
    ensures Origin(s, Run(i, env), c, p)
  {
    hide Process, HandleInbound, Broadcast, Sanitized;
    var t, s1 := s.queue[i], Started(s, i);
    assert forall d :: d in s.info ==>
        && s1.info[d].made == s.info[d].made && s1.info[d].status == s.info[d].status
        && s1.info[d].username == s.info[d].username;
    ProcessMakes(s1, t, env, c, p);
    if t.Inbound? && Listening(s1.info[t.conn].status) {
      InboundMakes(s1, t, env, c, p);
      if env.incoming.Register? {
        GrantableSame(s, s1, t.conn, env.incoming.name);
      }
    } else {
      BroadcastMakes(s1, t.conn, SERVER_NAME, env.notice, c, p);
    }
  }

  lemma {:induction false} AuditMakes(s: Server, todo: seq<nat>, c: nat, p: Parcel)
    requires forall d :: d in todo ==> d in s.info
    ensures !IsNew(s, Audited(s, todo), c, p)
    decreases |todo|
  {
    if todo == [] {
    } else {
      AuditMakes(Enqueue(s, Heartbeat(todo[0])), todo[1..], c, p);
    }
  }

  lemma StepMakes(s: Server, a: Action, s': Server, c: nat, p: Parcel)
    requires Listed(s) && Step(s, a) == Some(s') && IsNew(s, s', c, p)
    ensures Origin(s, a, c, p)
  {
    hide RunTask, Audited, Relayed, Announced;
    match a
    case Accept(_) =>
    case Epoll(_, _) =>
    case Audit => AuditMakes(s, s.list, c, p);
    case Tick(_) =>
    case Contend(_) =>
    case Run(i, env) => RunMakes(s, i, env, c, p);
  }

  /** Step k of the run from s0 made p for c. */
  ghost predicate MadeAt(s0: Server, actions: seq<Action>, k: nat, c: nat, p: Parcel)
    requires Listed(s0)
  {
    && k < |actions| && Execute(s0, actions[..k]).Some?
    && Origin(Execute(s0, actions[..k]).value, actions[k], c, p)
  }

  lemma {:induction false} RunHasOrigin(s0: Server, actions: seq<Action>, s: Server, c: nat, p: Parcel) returns (k: nat)
    requires Listed(s0) && Execute(s0, actions) == Some(s) && IsNew(s0, s, c, p)
    ensures MadeAt(s0, actions, k, c, p)
    decreases |actions|
  {
    hide Step, Origin;
    k := 0;
    if actions == [] {
    } else {
      var s1 := Step(s0, actions[0]).value;
      if IsNew(s0, s1, c, p) {
        StepMakes(s0, actions[0], s1, c, p);
      } else {
        k := RunHasOrigin(s1, actions[1..], s, c, p);
        assert actions[1..][..k] == actions[..k + 1][1..];
        k := k + 1;
      }
    }
  }

  lemma {:induction false} SentCounted(sock: seq<Event>, i: nat, p: Parcel)
    requires i < |sock| && sock[i] == DeliverSent(p)
    ensures 0 < SentCopies(sock, p)
  {
    if i < |sock| - 1 {
      SentCounted(sock[..|sock| - 1], i, p);
    }
  }

  /** No DELIVER is invented or altered: every one that is ever queued for or sent to a
      connection was made by one step of the run, the SEND of another connection whose name
      and sanitized text it carries, or a notice of the server's own. */
  lemma DeliverHasOrigin(actions: seq<Action>, s: Server, c: nat, p: Parcel)
    requires Reaches(actions, s) && c in s.info
    requires 0 < QueuedCopies(s.queue, c, p) || DeliverSent(p) in s.info[c].sock
    ensures exists k :: MadeAt(INITIAL, actions, k, c, p)
  {
    hide Execute, MadeAt;
    if i :| 0 <= i < |s.info[c].sock| && s.info[c].sock[i] == DeliverSent(p) {
      SentCounted(s.info[c].sock, i, p);
    }
    DeliveredOnce(actions, s, c, p);
    var k := RunHasOrigin(INITIAL, actions, s, c, p);
  }

  // ---- the recipient's screen ------------------------------------------------------------------

  lemma OriginFits(s: Server, a: Action, c: nat, p: Parcel)
    requires Inv(s) && Listed(s) && Origin(s, a, c, p)
    ensures |p.from| <= STR_CAPACITY && |p.text| <= STR_CAPACITY
  {
  }

  /** What is left of a text, without its terminator, is its acceptable bytes. */
  lemma Unterminated(text: Bytes)
    ensures Codec.StripNul(Sanitized(text, true)) == Keep(Clamped(text), true)
  {
    var kept := Keep(Clamped(text), true);
    KeepSound(Clamped(text), true);
    Codec.StripNulNone(kept);
  }

  lemma MadeFits(actions: seq<Action>, k: nat, c: nat, p: Parcel)
    requires MadeAt(INITIAL, actions, k, c, p)
    ensures |p.from| <= STR_CAPACITY && |p.text| <= STR_CAPACITY
  {
    hide Inv, Origin;
    var s := Execute(INITIAL, actions[..k]).value;
    ReachableInv(actions[..k], s);
    OriginFits(s, actions[k], c, p);
  }

  /** Whatever a connection is sent is read back by its client, as one frame and one line. */
  lemma SentIsShown(actions: seq<Action>, s: Server, c: nat, p: Parcel)
    requires Reaches(actions, s) && c in s.info && DeliverSent(p) in s.info[c].sock
    ensures var f := Codec.Deliver(p.from, p.text);
            && Codec.Packable(f) && Codec.ClientRead(Codec.Encode(f)) == Some((f, []))
            && Client.Lines(f) == [Client.Chat(Codec.StripNul(p.from), Codec.StripNul(p.text))]
  {
    hide MadeAt, Codec.ClientRead, Codec.Encode;
    DeliverHasOrigin(actions, s, c, p);
    var k: nat :| MadeAt(INITIAL, actions, k, c, p);
    MadeFits(actions, k, c, p);
    var f := Codec.Deliver(p.from, p.text);
    Codec.ClientReadsFrame(f, []);
    assert Codec.Encode(f) + [] == Codec.Encode(f);
  }

  /** The message the task reads is a SEND that a client packed from what was typed. */
  ghost predicate Typed(s: Server, i: nat, env: Env, typed: Bytes) {
    && Hears(s, i) && typed != []
    && env.incoming == Codec.ServerRead(Codec.Pack(Codec.MSend(typed)), s.info[s.queue[i].conn].status).0
  }

  /** A DELIVER that relays what a client typed and packed is shown under the name of the
      sender's connection, as the acceptable bytes among the first 4095 typed, in order. */
  lemma ShownAsTyped(s: Server, i: nat, env: Env, c: nat, p: Parcel, typed: Bytes)
    requires Relayed(s, i, env, c, p) && Typed(s, i, env, typed)
    ensures Client.Lines(Codec.Deliver(p.from, p.text))
         == [Client.Chat(Codec.StripNul(s.info[s.queue[i].conn].username), Keep(Clamped(typed), true))]
  {
    hide Codec.ServerRead, Codec.Pack, Codec.StripNul, Sanitized, Keep;
    var m := Codec.MSend(typed);
    Codec.ServerReadsMessage(m, s.info[s.queue[i].conn].status, []);
    assert Codec.Pack(m) + [] == Codec.Pack(m);
    Unterminated(Clamped(typed));
    assert Clamped(Clamped(typed)) == Clamped(typed);
  }

  /** From one client's prompt to another client's screen, over any run.  Whatever a connection
      is ever sent was made by one step k of the run; its client reads it back as one frame;
      and if step k relayed what a client had typed, the line on the screen is the name that
      client's connection had at that step, and what it typed. */
  lemma FromPromptToScreen(actions: seq<Action>, s: Server, c: nat, p: Parcel) returns (k: nat)
    requires Reaches(actions, s) && c in s.info && DeliverSent(p) in s.info[c].sock
    ensures MadeAt(INITIAL, actions, k, c, p)
    ensures var f := Codec.Deliver(p.from, p.text);
            Codec.Packable(f) && Codec.ClientRead(Codec.Encode(f)) == Some((f, []))
    ensures var sk, a := Execute(INITIAL, actions[..k]).value, actions[k];
            forall typed :: Relayed(sk, a.i, a.env, c, p) && Typed(sk, a.i, a.env, typed) ==>
              Client.Lines(Codec.Deliver(p.from, p.text))
              == [Client.Chat(Codec.StripNul(sk.info[sk.queue[a.i].conn].username), Keep(Clamped(typed), true))]
  {
    hide Codec.ClientRead, Codec.Encode, Client.Lines, Reaches, Execute;
    SentIsShown(actions, s, c, p);
    DeliverHasOrigin(actions, s, c, p);
    k :| MadeAt(INITIAL, actions, k, c, p);
    var sk, a := Execute(INITIAL, actions[..k]).value, actions[k];
    forall typed | Relayed(sk, a.i, a.env, c, p) && Typed(sk, a.i, a.env, typed)
      ensures Client.Lines(Codec.Deliver(p.from, p.text))
           == [Client.Chat(Codec.StripNul(sk.info[sk.queue[a.i].conn].username), Keep(Clamped(typed), true))]
    {
      ShownAsTyped(sk, a.i, a.env, c, p, typed);
    }
  }
}
