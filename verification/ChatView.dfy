/** What one connection sees of the server - its record, its queued tasks, its history - and
    the invariant every connection satisfies between tasks. */
module ChatView {
  import opened Basics
  import opened Strings
  import opened Protocol
  import opened Chat

  // ---- queued tasks of a connection ------------------------------------------------------------

  /** Counts of queued tasks: all, inbound, outbound, outbound statuses, statuses that say
      GOOD with no text, and copies of one DELIVER. */
  datatype Load = Load(all: int, inb: int, out: int, stat: int, good: int, copies: int)

  const ZERO := Load(0, 0, 0, 0, 0, 0)

  /** For facts that do not depend on a DELIVER. */
  const ANY := Parcel(0, [], [])

  function Plus(a: Load, b: Load): Load {
    Load(a.all + b.all, a.inb + b.inb, a.out + b.out, a.stat + b.stat, a.good + b.good, a.copies + b.copies)
  }

  function Bit(b: bool): int { if b then 1 else 0 }

  function LoadOf(t: Task, id: Parcel): Load {
    Load(1, Bit(t.Inbound?), Bit(t.Outbound?),
         Bit(t.Outbound? && t.msg.StatusMsg?),
         Bit(t.Outbound? && t.msg == StatusMsg(STATUS_GOOD, [])),
         Bit(t.Outbound? && t.msg.DeliverMsg? && t.msg.parcel == id))
  }

  function Mine(t: Task, c: nat, id: Parcel): Load { if t.conn == c then LoadOf(t, id) else ZERO }

  function Tasks(q: seq<Task>, c: nat, id: Parcel): Load {
    if q == [] then ZERO else Plus(Mine(q[0], c, id), Tasks(q[1..], c, id))
  }

  lemma {:induction false} TasksAppend(q: seq<Task>, t: Task, c: nat, id: Parcel)
    ensures Tasks(q + [t], c, id) == Plus(Tasks(q, c, id), Mine(t, c, id))
  {
    if q == [] {
      assert q + [t] == [t] && [t][1..] == [];
    } else {
      assert (q + [t])[1..] == q[1..] + [t];
      TasksAppend(q[1..], t, c, id);
    }
  }

  lemma {:induction false} TasksWithout(q: seq<Task>, i: nat, c: nat, id: Parcel)
    requires i < |q|
    ensures Tasks(q, c, id) == Plus(Tasks(Without(q, i), c, id), Mine(q[i], c, id))
  {
    if i == 0 {
      assert Without(q, i) == q[1..];
    } else {
      assert Without(q, i)[1..] == Without(q[1..], i - 1);
      assert Without(q, i)[0] == q[0];
      TasksWithout(q[1..], i - 1, c, id);
    }
  }

  predicate Sane(l: Load) {
    && 0 <= l.inb && 0 <= l.good <= l.stat && 0 <= l.copies
    && l.stat + l.copies <= l.out && l.inb + l.out <= l.all
  }

  lemma {:induction false} TasksSane(q: seq<Task>, c: nat, id: Parcel)
    ensures Sane(Tasks(q, c, id))
  {
    if q == [] {
    } else {
      TasksSane(q[1..], c, id);
    }
  }

  lemma {:induction false} TasksNone(q: seq<Task>, c: nat, id: Parcel)
    requires forall t :: t in q ==> t.conn != c
    ensures Tasks(q, c, id) == ZERO
  {
    if q == [] {
    } else {
      assert q[0] in q;
      assert forall t :: t in q[1..] ==> t in q;
      TasksNone(q[1..], c, id);
      assert Mine(q[0], c, id) == ZERO;
    }
  }

  /** A queued task is counted. */
  lemma TasksSome(q: seq<Task>, i: nat, id: Parcel)
    requires i < |q|
    ensures 1 <= Tasks(q, q[i].conn, id).all
  {
    TasksWithout(q, i, q[i].conn, id);
    TasksSane(Without(q, i), q[i].conn, id);
  }

  // ---- socket history --------------------------------------------------------------------------

  /** A running account of a socket history. */
  datatype Account = Account(
    good: int,       // GOOD statuses sent
    taken: int,      // messages accepted in PRE_REGISTER or AVAILABLE
    sent: int,       // DELIVERs sent
    replies: int,    // messages accepted in PENDING_STATUS
    paced: bool,     // DELIVERs and the messages accepted in PENDING_STATUS alternate
    tries: int,      // error statuses attempted
    closes: int,     // closes
    justTried: bool, // the last event was an error status
    tidy: bool,      // nothing followed a close, and every close followed an error status
    brief: bool)     // no status carried more text than the inactivity notice

  predicate Short(text: Bytes) { |text| <= INACTIVE_LENGTH }

  function Next(a: Account, e: Event): Account {
    Account(
      a.good + Bit(e.StatusSent? && e.code == STATUS_GOOD),
      a.taken + Bit(e.Read? && e.accepted && (e.at.PreRegister? || e.at.Available?)),
      a.sent + Bit(e.DeliverSent?),
      a.replies + Bit(e.Read? && e.accepted && e.at.PendingStatus?),
      && a.paced
      && (e.DeliverSent? ==> a.sent <= a.replies)
      && (e.Read? && e.accepted && e.at.PendingStatus? ==> a.replies < a.sent),
      a.tries + Bit(e.ErrorStatus?),
      a.closes + Bit(e.Close?),
      e.ErrorStatus?,
      a.tidy && a.closes == 0 && (e.Close? ==> a.justTried),
      a.brief && (e.StatusSent? || e.ErrorStatus? ==> Short(e.text)))
  }

  function AccountOf(sock: seq<Event>): Account {
    if sock == [] then Account(0, 0, 0, 0, true, 0, 0, false, true, true)
    else Next(AccountOf(sock[..|sock| - 1]), sock[|sock| - 1])
  }

  /** How often a DELIVER was sent. */
  function SentCopies(sock: seq<Event>, id: Parcel): nat {
    if sock == [] then 0
    else SentCopies(sock[..|sock| - 1], id) + (if sock[|sock| - 1] == DeliverSent(id) then 1 else 0)
  }

  lemma Appended(sock: seq<Event>, e: Event, id: Parcel)
    ensures AccountOf(sock + [e]) == Next(AccountOf(sock), e)
    ensures SentCopies(sock + [e], id) == SentCopies(sock, id) + (if e == DeliverSent(id) then 1 else 0)
  {
    assert (sock + [e])[..|sock|] == sock;
  }

  /** The time of the latest task other than a heartbeat, or else of the acceptance. */
  function LastRun(runs: seq<Ran>, born: int): int {
    if runs == [] then born
    else
      var last := runs[|runs| - 1];
      if last.heartbeat then LastRun(runs[..|runs| - 1], born) else last.time
  }

  /** The texts of a task's message are within the packet structures. */
  predicate Fits(t: Task) {
    t.Outbound? ==>
      match t.msg
      case StatusMsg(_, text) => Short(text)
      case DeliverMsg(p) => |p.from| <= STR_CAPACITY && |p.text| <= STR_CAPACITY
  }

  // ---- the view and its invariant --------------------------------------------------------------

  datatype View = View(conn: Conn, load: Load, listed: bool, held: bool, nextId: nat)

  function ViewOf(s: Server, c: nat, id: Parcel): View
    requires c in s.info
  {
    View(s.info[c], Tasks(s.queue, c, id), c in s.list, c in s.held, s.nextId)
  }

  /** The view with one more task, counted. */
  function Grown(v: View, t: Task, id: Parcel): View {
    v.(conn := v.conn.(pending := v.conn.pending + 1), load := Plus(v.load, LoadOf(t, id)))
  }

  /** The job counter, and who keeps the connection alive. */
  predicate JobsOk(v: View) {
    var st := v.conn.status;
    && Sane(v.load) && v.conn.pending == v.load.all
    && (st.Closing? && v.listed && !v.held ==> 1 <= v.load.all)
    && (!v.listed ==> st.Closing? && v.load.all == 0)
  }

  /** A live connection has a status queued exactly while it owes one; one that is to send a
      message has it queued; one that waits for its client can hear it. */
  predicate WorkOk(v: View) {
    var st := v.conn.status;
    && (!Bad(st) ==> v.load.stat == v.load.good == Bit(st.SendStat?))
    && (st.SendMsg? ==> 1 <= v.load.out)
    && ((st.PreRegister? || st.Available? || st.PendingStatus?) && !v.held ==>
          v.conn.watched || 1 <= v.load.inb)
  }

  /** The history agrees with the state. */
  predicate HistoryOk(v: View) {
    var conn, st, a := v.conn, v.conn.status, AccountOf(v.conn.sock);
    && conn.statMsg == []
    && conn.lastActive == LastRun(conn.runs, conn.born)
    && a.paced && a.tidy && a.brief
    && a.tries == a.closes == Bit(st.Closing?)
    && (st.Closing? ==> !conn.watched)
    && (!Bad(st) ==> a.good + Bit(st.SendStat?) == a.taken)
    && (!Bad(st) ==> a.sent - a.replies == Bit(st.PendingStatus?))
  }

  /** Every DELIVER made for the connection is queued once or was sent once while it lives,
      and never more than that afterwards. */
  predicate DeliveryOk(v: View, id: Parcel) {
    var n := v.load.copies + SentCopies(v.conn.sock, id);
    && (id in v.conn.made ==> id.serial < v.nextId)
    && n <= Bit(id in v.conn.made)
    && (!Bad(v.conn.status) ==> n == Bit(id in v.conn.made))
  }

  predicate ViewOk(v: View, id: Parcel) {
    JobsOk(v) && WorkOk(v) && HistoryOk(v) && DeliveryOk(v, id)
  }

  /** While t runs, the view would be in order if t were put back. */
  predicate MidOk(v: View, t: Task, id: Parcel) {
    && v.listed && !v.held && Sane(v.load)
    && ViewOk(Grown(v, t, id), id)
  }

  // ---- a connection's moves, locally -----------------------------------------------------------

  /** Another DELIVER is made for a live connection. */
  lemma MadeOk(v: View, t: Task, id: Parcel)
    requires ViewOk(v, id) && !Bad(v.conn.status)
    requires t.Outbound? && t.msg.DeliverMsg? && t.msg.parcel.serial == v.nextId
    ensures var v1 := v.(conn := v.conn.(made := v.conn.made + {t.msg.parcel}), nextId := v.nextId + 1);
            ViewOk(Grown(v1, t, id), id)
  {
    hide AccountOf, SentCopies;
  }

  lemma LaterOk(v: View, id: Parcel, n: nat)
    requires ViewOk(v, id) && v.nextId <= n
    ensures ViewOk(v.(nextId := n), id)
  {
    hide AccountOf, SentCopies;
  }

  /** A request was accepted: a GOOD status is queued. */
  lemma AcceptedOk(v: View, t: Task, id: Parcel, reply: Task)
    requires MidOk(v, t, id) && t.Inbound? && (v.conn.status.PreRegister? || v.conn.status.Available?)
    requires reply.Outbound? && reply.msg == StatusMsg(STATUS_GOOD, v.conn.statMsg)
    ensures var conn := v.conn.(status := SendStat, statMsg := [],
                                sock := v.conn.sock + [Read(v.conn.status, true)]);
            ViewOk(Grown(v.(conn := conn), reply, id), id)
  {
    hide AccountOf, SentCopies;
    Appended(v.conn.sock, Read(v.conn.status, true), id);
  }

  /** A message was rejected: the connection goes to ERR and the task is put back. */
  lemma RejectedOk(v: View, t: Task, id: Parcel, sock: seq<Event>)
    requires MidOk(v, t, id) && !Bad(v.conn.status)
    requires sock == v.conn.sock || sock == v.conn.sock + [Read(v.conn.status, false)]
    ensures ViewOk(Grown(v.(conn := v.conn.(status := Err, sock := sock)), t, id), id)
  {
    hide AccountOf, SentCopies;
    Appended(v.conn.sock, Read(v.conn.status, false), id);
  }

  /** The task never returns and keeps the connection's mutex. */
  lemma HungOk(v: View, t: Task, id: Parcel, sock: seq<Event>)
    requires MidOk(v, t, id) && (t.Inbound? || v.conn.status.Closing?)
    requires sock == v.conn.sock || (!v.conn.status.Closing? && sock == v.conn.sock + [Read(v.conn.status, false)])
    ensures ViewOk(v.(conn := v.conn.(sock := sock), held := true), id)
  {
    hide AccountOf, SentCopies;
    Appended(v.conn.sock, Read(v.conn.status, false), id);
  }

  lemma ToSendMsgOk(v: View, t: Task, id: Parcel)
    requires MidOk(v, t, id) && (v.conn.status.PreRegister? || v.conn.status.Available?) && t.Outbound?
    ensures ViewOk(Grown(v.(conn := v.conn.(status := SendMsg)), t, id), id)
  {
    hide AccountOf, SentCopies;
  }

  lemma StatusSentOk(v: View, t: Task, id: Parcel)
    requires MidOk(v, t, id) && v.conn.status.SendStat? && t.Outbound? && t.msg.StatusMsg?
    ensures var conn := v.conn.(status := Available, watched := true,
                                sock := v.conn.sock + [StatusSent(t.msg.code, t.msg.text)] + [Watch]);
            ViewOk(v.(conn := conn), id)
  {
    hide AccountOf, SentCopies;
    var e := StatusSent(t.msg.code, t.msg.text);
    assert t.msg == StatusMsg(STATUS_GOOD, []);
    Appended(v.conn.sock, e, id);
    Appended(v.conn.sock + [e], Watch, id);
  }

  lemma DeliverSentOk(v: View, t: Task, id: Parcel)
    requires MidOk(v, t, id) && v.conn.status.SendMsg? && t.Outbound?
    ensures t.msg.DeliverMsg?
    ensures var conn := v.conn.(status := PendingStatus, watched := true,
                                sock := v.conn.sock + [DeliverSent(t.msg.parcel)] + [Watch]);
            ViewOk(v.(conn := conn), id)
  {
    hide AccountOf, SentCopies;
    assert t.msg.DeliverMsg?;
    var e := DeliverSent(t.msg.parcel);
    Appended(v.conn.sock, e, id);
    Appended(v.conn.sock + [e], Watch, id);
  }

  lemma SendFailedOk(v: View, t: Task, id: Parcel)
    requires MidOk(v, t, id) && !Bad(v.conn.status)
    ensures ViewOk(v.(conn := v.conn.(status := Err, sock := v.conn.sock + [SendFailed])), id)
  {
    hide AccountOf, SentCopies;
    Appended(v.conn.sock, SendFailed, id);
  }

  lemma RepliedOk(v: View, t: Task, id: Parcel)
    requires MidOk(v, t, id) && v.conn.status.PendingStatus? && t.Inbound?
    ensures var conn := v.conn.(status := Available, watched := true,
                                sock := v.conn.sock + [Read(PendingStatus, true)] + [Watch]);
            ViewOk(v.(conn := conn), id)
  {
    hide AccountOf, SentCopies;
    Appended(v.conn.sock, Read(PendingStatus, true), id);
    Appended(v.conn.sock + [Read(PendingStatus, true)], Watch, id);
  }

  /** The error status is attempted, the socket closed, and the task put back. */
  lemma ClosedOk(v: View, t: Task, id: Parcel, text: Bytes, sent: bool, back: Task)
    requires MidOk(v, t, id) && !v.conn.status.Closing? && Short(text)
    requires back == t || (back.Outbound? && t.Outbound? && back.msg.StatusMsg?)
    ensures var conn := v.conn.(status := Closing, statMsg := [], watched := false,
                                sock := v.conn.sock + [ErrorStatus(text, sent), Close]);
            ViewOk(Grown(v.(conn := conn), back, id), id)
  {
    hide AccountOf, SentCopies;
    var e := ErrorStatus(text, sent);
    Appended(v.conn.sock, e, id);
    Appended(v.conn.sock + [e], Close, id);
    assert v.conn.sock + [e, Close] == v.conn.sock + [e] + [Close];
  }

  lemma DroppedOk(v: View, t: Task, id: Parcel)
    requires MidOk(v, t, id) && v.conn.status.Closing? && v.conn.pending != 0
    ensures ViewOk(v, id)
  {
    hide AccountOf, SentCopies;
  }

  lemma DestroyedOk(v: View, t: Task, id: Parcel)
    requires MidOk(v, t, id) && v.conn.status.Closing? && v.conn.pending == 0
    ensures ViewOk(v.(listed := false), id)
  {
    hide AccountOf, SentCopies;
  }

  lemma ArrivedOk(v: View, id: Parcel, heartbeat: bool, time: int)
    requires ViewOk(v, id)
    ensures var conn := v.conn.(lastActive := if heartbeat then v.conn.lastActive else time,
                                runs := v.conn.runs + [Ran(heartbeat, time)]);
            ViewOk(v.(conn := conn), id)
  {
    hide AccountOf, SentCopies;
    assert (v.conn.runs + [Ran(heartbeat, time)])[..|v.conn.runs|] == v.conn.runs;
  }
}
