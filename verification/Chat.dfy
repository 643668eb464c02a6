/**
  The connection and task system (src/rpchat_process_event.c, src/rpchat_basic_chat.c,
  src/components/rpchat_conn_info.c, src/components/rpchat_conn_queue.c) at the grain of
  one task body, one dispatched event or one audit per step.

  Any queued task may be the next to run, which covers several workers finishing out of
  order; a task whose connection is busy on another worker goes back to the queue (Contend).
  A worker caught for ever in rpchat_broadcast_msg keeps the connection list's mutex (hung)
  and its connection's mutex (held).
*/
module Chat {
  import opened Basics
  import opened Strings
  import opened Protocol

  const TIMEOUT := 60                                          // RPCHAT_CONNECTION_TIMEOUT
  const SERVER_NAME: Bytes := [91, 83, 101, 114, 118, 101, 114, 93]   // "[Server]"
  const INACTIVE: Bytes :=                                     // "Disconnected for inactivity."
    [68, 105, 115, 99, 111, 110, 110, 101, 99, 116, 101, 100, 32, 102, 111, 114, 32,
     105, 110, 97, 99, 116, 105, 118, 105, 116, 121, 46]

  const INACTIVE_LENGTH := 28

  /** One DELIVER for one recipient.  The serial number is history: no buffer holds it. */
  datatype Parcel = Parcel(serial: nat, from: Bytes, text: Bytes)

  datatype Message =
    | StatusMsg(code: Byte, text: Bytes)
    | DeliverMsg(parcel: Parcel)

  datatype Task =
    | Inbound(conn: nat, readable: bool)
    | Outbound(conn: nat, msg: Message)
    | Heartbeat(conn: nat)

  /** What happened on a connection's socket. */
  datatype Event =
    | Read(at: Status, accepted: bool)
    | StatusSent(code: Byte, text: Bytes)
    | DeliverSent(parcel: Parcel)
    | SendFailed
    | Watch
    | ErrorStatus(text: Bytes, sent: bool)
    | Close

  datatype Ran = Ran(heartbeat: bool, time: int)

  /** rpchat_conn_info_t, whether epoll watches the socket, and the connection's history. */
  datatype Conn = Conn(
    status: Status,
    pending: int,
    username: Bytes,
    statMsg: Bytes,
    lastActive: int,
    watched: bool,
    born: int,              // history: when the connection was accepted
    runs: seq<Ran>,         // history: the tasks that ran on it
    sock: seq<Event>,       // history: its socket
    made: set<Parcel>)        // history: the DELIVERs created for it

  datatype Server = Server(
    list: seq<nat>,         // the connection list, in order
    info: map<nat, Conn>,   // every connection ever accepted
    queue: seq<Task>,
    clock: int,
    hung: bool,             // a broadcast never returned: the list's mutex is taken for ever
    held: set<nat>,         // connections whose mutex a hung worker keeps
    nextId: nat)            // history: the next DELIVER's serial number

  /** What the environment decides during one task: the bytes read, whether a send succeeds,
      and the wording of the server's notices. */
  datatype Env = Env(incoming: Incoming, sendOk: bool, welcome: Bytes, notice: Bytes)

  const INITIAL := Server([], map[], [], 0, false, {}, 0)

  predicate Bad(status: Status) { status.Err? || status.Closing? }

  predicate Listed(s: Server) { forall c :: c in s.list ==> c in s.info }

  // ---- primitives ------------------------------------------------------------------------------

  function SetConn(s: Server, c: nat, conn: Conn): Server {
    s.(info := s.info[c := conn])
  }

  function SetStatus(s: Server, c: nat, status: Status): Server
    requires c in s.info
  {
    SetConn(s, c, s.info[c].(status := status))
  }

  function Log(s: Server, c: nat, e: Event): Server
    requires c in s.info
  {
    SetConn(s, c, s.info[c].(sock := s.info[c].sock + [e]))
  }

  /** rpchat_toggle_descriptor, switching on. */
  function StartWatch(s: Server, c: nat): Server
    requires c in s.info
  {
    SetConn(s, c, s.info[c].(watched := true, sock := s.info[c].sock + [Watch]))
  }

  /** rpchat_conn_info_enqueue_task */
  function Enqueue(s: Server, t: Task): Server
    requires t.conn in s.info
  {
    SetConn(s.(queue := s.queue + [t]), t.conn,
            s.info[t.conn].(pending := s.info[t.conn].pending + 1))
  }

  /** A worker takes task i and the task's first line lowers the job counter. */
  function Begin(s: Server, i: nat): Server
    requires i < |s.queue| && s.queue[i].conn in s.info
  {
    var c := s.queue[i].conn;
    SetConn(s.(queue := Without(s.queue, i)), c, s.info[c].(pending := s.info[c].pending - 1))
  }

  /** rpchat_conn_proc_enqueue_status; the pending status text is consumed. */
  function EnqueueStatus(s: Server, c: nat, code: Byte): Server
    requires c in s.info
  {
    var conn := s.info[c];
    Enqueue(SetConn(s, c, conn.(statMsg := [])), Outbound(c, StatusMsg(code, conn.statMsg)))
  }

  /** rpchat_conn_proc_enqueue_deliver */
  function EnqueueDeliver(s: Server, c: nat, from: Bytes, text: Bytes): Server
    requires c in s.info
  {
    var p := Parcel(s.nextId, from, Sanitized(text, true));
    var s1 := SetConn(s, c, s.info[c].(made := s.info[c].made + {p}));
    Enqueue(s1.(nextId := s.nextId + 1), Outbound(c, DeliverMsg(p)))
  }

  /** The list walk of rpchat_broadcast_msg.  At a connection that is closing or in error the
      loop continues without advancing: it never returns. */
  function Walk(s: Server, todo: seq<nat>, sender: nat, from: Bytes, text: Bytes): (r: Server)
    requires forall c :: c in todo ==> c in s.info
    ensures r.info.Keys == s.info.Keys && r.list == s.list && r.held == s.held
    decreases |todo|
  {
    if todo == [] then s
    else if todo[0] == sender then Walk(s, todo[1..], sender, from, text)
    else if Bad(s.info[todo[0]].status) then s.(hung := true)
    else Walk(EnqueueDeliver(s, todo[0], from, text), todo[1..], sender, from, text)
  }

  /** rpchat_broadcast_msg: hung in the result means that the call never returns. */
  function Broadcast(s: Server, sender: nat, from: Bytes, text: Bytes): (r: Server)
    requires Listed(s)
    ensures r.info.Keys == s.info.Keys && r.list == s.list && r.held == s.held
  {
    if s.hung then s else Walk(s, s.list, sender, from, Sanitized(text, true))
  }

  function Hang(s: Server, c: nat): Server { s.(held := s.held + {c}) }

  // ---- inbound messages ------------------------------------------------------------------------

  datatype Code = Success | Unsuccess | Error | Hangs

  datatype Handled = Handled(code: Code, s: Server)

  /** rpchat_conn_queue_find_by_username compares the length of the first name in the list
      only, and no characters. */
  predicate Taken(s: Server, name: Bytes)
    requires Listed(s)
  {
    s.list != [] && |s.info[s.list[0]].username| == |name|
  }

  /** rpchat_handle_register; every failure closes the connection. */
  function HandleRegister(s: Server, c: nat, name: Option<Bytes>, env: Env): (r: Handled)
    requires Listed(s) && c in s.info
    ensures r.s.info.Keys == s.info.Keys && r.s.list == s.list && r.s.held == s.held
  {
    if !s.info[c].status.PreRegister? || name.None? then Handled(Error, s)
    else
      var clean := Sanitized(name.value, false);
      if clean == [] then Handled(Error, s)
      else if s.hung then Handled(Hangs, s)
      else if Taken(s, clean) then Handled(Error, s)
      else
        var s1 := SetConn(s, c, s.info[c].(username := clean));
        var s2 := EnqueueDeliver(s1, c, SERVER_NAME, env.welcome);
        var s3 := Broadcast(s2, c, SERVER_NAME, env.notice);
        Handled(if s3.hung then Hangs else Success, s3)
  }

  /** rpchat_handle_send; the connection's state is not looked at. */
  function HandleSend(s: Server, c: nat, body: Option<Bytes>): (r: Handled)
    requires Listed(s) && c in s.info
    ensures r.s.info.Keys == s.info.Keys && r.s.list == s.list && r.s.held == s.held
  {
    if body.None? || Sanitized(body.value, true) == [] then Handled(Unsuccess, s)
    else
      var s1 := Broadcast(s, c, s.info[c].username, Sanitized(body.value, true));
      Handled(if s1.hung then Hangs else Success, s1)
  }

  /** rpchat_conn_info_handle_status */
  function HandleReply(s: Server, c: nat, code: Option<Byte>): Code
    requires c in s.info
  {
    if !s.info[c].status.PendingStatus? || code.None? then Unsuccess
    else if code.value == STATUS_GOOD then Success
    else Error
  }

  /** rpchat_conn_proc_handle_inbound_msg and rpchat_handle_msg */
  function HandleInbound(s: Server, c: nat, readable: bool, env: Env): (r: Handled)
    requires Listed(s) && c in s.info
    ensures r.s.info.Keys == s.info.Keys && r.s.list == s.list && r.s.held == s.held
    ensures !r.code.Error? ==> readable
  {
    if !readable then Handled(Error, s)
    else match env.incoming
      case NoData => Handled(Error, s)
      case Register(name) => HandleRegister(s, c, name, env)
      case Send(body) => HandleSend(s, c, body)
      case Reply(code) => Handled(HandleReply(s, c, code), s)
      case Unknown => Handled(Error, s)
  }

  function Noted(s: Server, c: nat, readable: bool, at: Status, accepted: bool): Server
    requires c in s.info
  {
    if readable then Log(s, c, Read(at, accepted)) else s
  }

  // ---- the task, state by state ----------------------------------------------------------------

  /** PRE_REGISTER and AVAILABLE. */
  function OnRequest(s: Server, t: Task, env: Env): (r: Server)
    requires Listed(s) && t.conn in s.info
    ensures r.list == s.list && r.info.Keys == s.info.Keys
  {
    var c, at := t.conn, s.info[t.conn].status;
    if t.Inbound? then
      var r := HandleInbound(s, c, t.readable, env);
      match r.code
      case Success => EnqueueStatus(SetStatus(Noted(r.s, c, t.readable, at, true), c, SendStat), c, STATUS_GOOD)
      case Hangs => Hang(Noted(r.s, c, t.readable, at, false), c)
      case _ => Enqueue(SetStatus(Noted(r.s, c, t.readable, at, false), c, Err), t)
    else
      Enqueue(SetStatus(s, c, SendMsg), t)
  }

  /** rpchat_conn_info_submit_msg, then the state the connection goes to on success. */
  function Submit(s: Server, c: nat, msg: Message, next: Status, env: Env): Server
    requires c in s.info
  {
    if env.sendOk then
      var e := match msg case StatusMsg(code, text) => StatusSent(code, text) case DeliverMsg(p) => DeliverSent(p);
      StartWatch(SetStatus(Log(s, c, e), c, next), c)
    else
      SetStatus(Log(s, c, SendFailed), c, Err)
  }

  /** SEND_STAT: everything but the status waits. */
  function OnSendStat(s: Server, t: Task, env: Env): Server
    requires t.conn in s.info
  {
    if t.Outbound? && t.msg.StatusMsg? then Submit(s, t.conn, t.msg, Available, env) else Enqueue(s, t)
  }

  /** SEND_MSG: everything that is not outbound waits. */
  function OnSendMsg(s: Server, t: Task, env: Env): Server
    requires t.conn in s.info
  {
    if t.Outbound? then Submit(s, t.conn, t.msg, PendingStatus, env) else Enqueue(s, t)
  }

  /** PENDING_STATUS: everything that is not inbound waits. */
  function OnPending(s: Server, t: Task, env: Env): (r: Server)
    requires Listed(s) && t.conn in s.info
    ensures r.list == s.list && r.info.Keys == s.info.Keys
  {
    var c := t.conn;
    if !t.Inbound? then Enqueue(s, t)
    else
      var r := HandleInbound(s, c, t.readable, env);
      match r.code
      case Hangs => Hang(Noted(r.s, c, t.readable, PendingStatus, false), c)
      case Error => Enqueue(SetStatus(Noted(r.s, c, t.readable, PendingStatus, false), c, Err), t)
      case _ => StartWatch(SetStatus(Noted(r.s, c, t.readable, PendingStatus, true), c, Available), c)
  }

  /** ERR: one attempt to tell the client, then close.  An outbound task's buffer is
      overwritten with the status. */
  function OnError(s: Server, t: Task, env: Env): Server
    requires t.conn in s.info
  {
    var c, conn := t.conn, s.info[t.conn];
    var s1 := SetConn(s, c, conn.(status := Closing, statMsg := [], watched := false,
                                  sock := conn.sock + [ErrorStatus(conn.statMsg, env.sendOk), Close]));
    Enqueue(s1, if t.Outbound? then Outbound(c, StatusMsg(STATUS_ERROR, conn.statMsg)) else t)
  }

  function Remove(list: seq<nat>, c: nat): (r: seq<nat>)
    ensures forall x :: x in r ==> x in list
  {
    if list == [] then [] else if list[0] == c then list[1..] else [list[0]] + Remove(list[1..], c)
  }

  /** CLOSING: the task that sees no other job left announces the departure and destroys the
      connection; any other is dropped. */
  function OnClosing(s: Server, c: nat, env: Env): (r: Server)
    requires Listed(s) && c in s.info
    ensures Listed(r)
  {
    if s.info[c].pending != 0 then s
    else
      var s1 := Broadcast(s, c, SERVER_NAME, env.notice);
      if s1.hung then Hang(s1, c) else s1.(list := Remove(s1.list, c))
  }

  function Dispatch(s: Server, t: Task, env: Env): (r: Server)
    requires Listed(s) && t.conn in s.info
    ensures Listed(r)
  {
    match s.info[t.conn].status
    case PreRegister => OnRequest(s, t, env)
    case Available => OnRequest(s, t, env)
    case SendStat => OnSendStat(s, t, env)
    case SendMsg => OnSendMsg(s, t, env)
    case PendingStatus => OnPending(s, t, env)
    case Err => OnError(s, t, env)
    case Closing => OnClosing(s, t.conn, env)
  }

  /** The connection's mutex has been obtained: note the activity. */
  function Arrive(s: Server, t: Task): Server
    requires t.conn in s.info
  {
    var conn := s.info[t.conn];
    SetConn(s, t.conn, conn.(lastActive := if t.Heartbeat? then conn.lastActive else s.clock,
                             runs := conn.runs + [Ran(t.Heartbeat?, s.clock)]))
  }

  predicate TimedOut(s: Server, c: nat)
    requires c in s.info
  {
    TIMEOUT < s.clock - s.info[c].lastActive
  }

  /** rpchat_task_conn_proc_event after its mutex is obtained. */
  function Process(s: Server, t: Task, env: Env): (r: Server)
    requires Listed(s) && t.conn in s.info
    ensures Listed(r)
  {
    var c := t.conn;
    if t.Heartbeat? && !Bad(s.info[c].status) then
      if TimedOut(s, c)
      then OnError(SetConn(s, c, s.info[c].(status := Err, statMsg := INACTIVE)), t, env)
      else s
    else
      Dispatch(s, t, env)
  }

  /** rpchat_task_conn_proc_event */
  function RunTask(s: Server, i: nat, env: Env): (r: Server)
    requires Listed(s) && i < |s.queue| && s.queue[i].conn in s.info
    ensures Listed(r)
  {
    var t, s1 := s.queue[i], Begin(s, i);
    if t.conn in s.held then Enqueue(s1, t) else Process(Arrive(s1, t), t, env)
  }

  // ---- the environment -------------------------------------------------------------------------

  function NewConn(clock: int): Conn {
    Conn(PreRegister, 0, [], [], clock, true, clock, [], [Watch], {})
  }

  /** rpchat_handle_new_connection */
  function AcceptConn(s: Server, c: nat): Server {
    SetConn(s.(list := s.list + [c]), c, NewConn(s.clock))
  }

  /** rpchat_handle_events for an event on an existing connection. */
  function EpollEvent(s: Server, c: nat, readable: bool): Server
    requires c in s.info
  {
    Enqueue(SetConn(s, c, s.info[c].(watched := false)), Inbound(c, readable))
  }

  /** rpchat_audit_connections: a heartbeat for every connection in the list. */
  function Audited(s: Server, todo: seq<nat>): (r: Server)
    requires forall c :: c in todo ==> c in s.info
    ensures r.info.Keys == s.info.Keys && r.list == s.list
    decreases |todo|
  {
    if todo == [] then s else Audited(Enqueue(s, Heartbeat(todo[0])), todo[1..])
  }

  datatype Action =
    | Accept(conn: nat)
    | Epoll(conn: nat, readable: bool)
    | Audit
    | Tick(seconds: nat)
    | Contend(i: nat)
    | Run(i: nat, env: Env)

  /** One step; None when the action is not possible.  Accepting and auditing need the
      list's mutex. */
  function Step(s: Server, a: Action): (r: Option<Server>)
    requires Listed(s)
    ensures r.Some? ==> Listed(r.value)
  {
    match a
    case Accept(c) => if s.hung || c in s.info then None else Some(AcceptConn(s, c))
    case Epoll(c, r) => if c in s.list && s.info[c].watched then Some(EpollEvent(s, c, r)) else None
    case Audit => if s.hung then None else Some(Audited(s, s.list))
    case Tick(d) => Some(s.(clock := s.clock + d))
    case Contend(i) =>
      if i < |s.queue| && s.queue[i].conn in s.info then Some(Enqueue(Begin(s, i), s.queue[i])) else None
    case Run(i, env) =>
      if i < |s.queue| && s.queue[i].conn in s.info then Some(RunTask(s, i, env)) else None
  }

  /** The state a sequence of actions leads to. */
  function Execute(s: Server, actions: seq<Action>): (r: Option<Server>)
    requires Listed(s)
    ensures r.Some? ==> Listed(r.value)
    decreases |actions|
  {
    if actions == [] then Some(s)
    else match Step(s, actions[0])
      case None => None
      case Some(s') => Execute(s', actions[1..])
  }
}
