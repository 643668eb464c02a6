/**
  The server on its own data structures: the connection list and the task queue are linked
  lists, and an outbound task holds the bytes of its frame.  State() reads the abstract server
  of module Chat out of them, decoding each frame as its recipient would.  The methods follow
  the source and are proved to take that state where module Chat says.
*/
module ChatServer {
  import opened Basics
  import opened Strings
  import opened Protocol
  import opened Chat
  import opened ChatInvariant
  import opened BroadcastLoop
  import opened LinkedQueue
  import Codec

  /** rpchat_args_proc_event_t: a task's kind, its connection, and the contents of its buffer. */
  datatype Packet =
    | ReadEvent(conn: nat, readable: bool)
    | Buffer(conn: nat, serial: nat, bytes: Bytes)
    | Beat(conn: nat)

  /** The message in a buffer, as the client reads it. */
  function Decoded(serial: nat, bytes: Bytes): Message {
    match Codec.ClientRead(bytes)
    case Some((Deliver(from, text), _)) => DeliverMsg(Parcel(serial, from, text))
    case Some((Status(code, text), _)) => StatusMsg(code, text)
    case None => StatusMsg(STATUS_ERROR, [])
  }

  function TaskOf(p: Packet): (t: Task)
    ensures t.conn == p.conn
  {
    match p
    case ReadEvent(c, readable) => Inbound(c, readable)
    case Buffer(c, serial, bytes) => Outbound(c, Decoded(serial, bytes))
    case Beat(c) => Heartbeat(c)
  }

  function TasksOf(ps: seq<Packet>): (q: seq<Task>)
    ensures |q| == |ps| && forall i :: 0 <= i < |q| ==> q[i] == TaskOf(ps[i])
  {
    seq(|ps|, i requires 0 <= i < |ps| => TaskOf(ps[i]))
  }

  /** The buffer holds a whole frame. */
  predicate Framed(p: Packet) {
    p.Buffer? ==> Codec.ClientRead(p.bytes).Some?
  }

  /** Names and status texts are within their structures. */
  predicate TextsFit(info: map<nat, Conn>) {
    forall c :: c in info ==> |info[c].username| <= STR_CAPACITY && |info[c].statMsg| <= MAX_STR_LENGTH
  }

  ghost predicate AllFramed(ps: seq<Packet>) { forall i :: 0 <= i < |ps| ==> Framed(ps[i]) }

  lemma Appended(ps: seq<Packet>, p: Packet)
    ensures TasksOf(ps + [p]) == TasksOf(ps) + [TaskOf(p)]
    ensures AllFramed(ps) && Framed(p) ==> AllFramed(ps + [p])
  {
    hide TaskOf, Framed;
  }

  lemma Dropped(ps: seq<Packet>)
    requires ps != []
    ensures TasksOf(ps)[0] == TaskOf(ps[0]) && TasksOf(ps[1..]) == Without(TasksOf(ps), 0)
    ensures AllFramed(ps) ==> AllFramed(ps[1..]) && Framed(ps[0])
  {
    hide TaskOf, Framed;
  }

  // ---- buffers ---------------------------------------------------------------------------------

  /** A string structure with the given text; of a longer text only what fits is stored, and
      the length is kept. */
  method StringOf(text: Bytes) returns (s: StringBuf)
    ensures s.Valid() && fresh(s) && fresh(s.contents)
    ensures s.len == |text| && s.Text() == text[..Min(|text|, STR_CAPACITY)]
  {
    s := new StringBuf();
    var n := Min(|text|, STR_CAPACITY);
    forall i | 0 <= i < n {
      s.contents[i] := text[i];
    }
    s.len := |text|;
    assert s.contents[..n] == text[..n];
  }

  lemma StoredSanitizes(text: Bytes, ctrl: bool)
    ensures Sanitized(text[..Min(|text|, STR_CAPACITY)], ctrl) == Sanitized(text, ctrl)
  {
    assert Clamped(text[..Min(|text|, STR_CAPACITY)]) == Clamped(text);
  }

  method Sanitizing(text: Bytes, ctrl: bool) returns (clean: Bytes)
    ensures clean == Sanitized(text, ctrl)
  {
    var input := StringOf(text);
    var output := new StringBuf();
    var _ := Sanitize(input, output, ctrl);
    clean := output.contents[..output.len];
    StoredSanitizes(text, ctrl);
  }

  method StatusBytes(size: nat, code: Byte, text: Bytes) returns (bytes: Bytes)
    requires size == Codec.INCOMING_SIZE || size == Codec.STATUS_SIZE || size == Codec.DELIVER_SIZE
    requires |text| <= MAX_STR_LENGTH
    ensures bytes == Codec.Encode(Codec.Status(code, text))
  {
    var buf := new Byte[size](_ => 0);
    var stat := StringOf(text);
    assert text[..|text|] == text;
    var n := Codec.SetStatus(buf, stat, code);
    bytes := buf[..n];
  }

  method DeliverBytes(from: Bytes, text: Bytes) returns (bytes: Bytes)
    requires |from| <= STR_CAPACITY
    ensures bytes == Codec.Encode(Codec.Deliver(from, Sanitized(text, true)))
  {
    hide Sanitized;
    var buf := new Byte[Codec.DELIVER_SIZE](_ => 0);
    var name := StringOf(from);
    var msg := StringOf(text);
    assert from[..|from|] == from;
    var n := Codec.SetDeliver(buf, name, msg);
    StoredSanitizes(text, true);
    bytes := buf[..n];
  }

  lemma DecodesDeliver(serial: nat, from: Bytes, text: Bytes)
    requires |from| <= STR_CAPACITY && |text| <= STR_CAPACITY
    ensures var bytes := Codec.Encode(Codec.Deliver(from, text));
            Codec.ClientRead(bytes).Some? && Decoded(serial, bytes) == DeliverMsg(Parcel(serial, from, text))
  {
    hide Codec.ClientRead, Codec.Encode;
    var f := Codec.Deliver(from, text);
    Codec.ClientReadsFrame(f, []);
    assert Codec.Encode(f) + [] == Codec.Encode(f);
  }

  lemma DecodesStatus(serial: nat, code: Byte, text: Bytes)
    requires |text| <= MAX_STR_LENGTH
    ensures var bytes := Codec.Encode(Codec.Status(code, text));
            Codec.ClientRead(bytes).Some? && Decoded(serial, bytes) == StatusMsg(code, text)
  {
    hide Codec.ClientRead, Codec.Encode;
    var f := Codec.Status(code, text);
    Codec.ClientReadsFrame(f, []);
    assert Codec.Encode(f) + [] == Codec.Encode(f);
  }

  /** rpchat_get_msg_type tells a status by its opcode. */
  predicate IsStatus(p: Packet)
    requires p.Buffer? && Framed(p)
    ensures IsStatus(p) <==> Decoded(p.serial, p.bytes).StatusMsg?
  {
    p.bytes[0] == OP_STATUS
  }

  /** The first occurrence is the one that is removed. */
  lemma {:induction false} RemoveAt(list: seq<nat>, c: nat, k: nat)
    requires k <= |list| && (forall j :: 0 <= j < k ==> list[j] != c) && (k < |list| ==> list[k] == c)
    ensures Remove(list, c) == if k < |list| then Without(list, k) else list
  {
    if list == [] || k == 0 {
    } else {
      RemoveAt(list[1..], c, k - 1);
    }
  }

  class Hub {
    const conns: Queue<nat>
    const tasks: Queue<Packet>
    var info: map<nat, Conn>
    var clock: int
    var hung: bool
    var held: set<nat>
    var nextId: nat

    ghost predicate Valid()
      reads this, conns, conns.nodes, tasks, tasks.nodes
    {
      && conns.Valid() && tasks.Valid() && TextsFit(info)
      && AllFramed(tasks.Contents())
    }

    ghost function State(): Server
      reads this, conns, tasks
    {
      Server(conns.Contents(), info, TasksOf(tasks.Contents()), clock, hung, held, nextId)
    }

    /** The task queue takes k more tasks. */
    ghost predicate Room(k: nat)
      reads this, tasks
    {
      tasks.size + k + 1 < INT_MAX
    }

    /** The task queue has got no nodes but new ones. */
    twostate predicate Grew()
      reads this, tasks
    {
      forall i :: 0 <= i < |tasks.nodes| ==> tasks.nodes[i] in old(tasks.nodes) || fresh(tasks.nodes[i])
    }

    lemma ConnsShape()
      requires Valid()
      ensures Linked(conns.nodes) && conns.size == |conns.nodes| == |conns.Contents()|
      ensures conns.front == if conns.nodes == [] then null else conns.nodes[0]
    {
    }

    constructor ()
      ensures Valid() && State() == INITIAL && Inv(State())
      ensures fresh(conns) && fresh(tasks)
    {
      conns := new Queue();
      tasks := new Queue();
      info, clock, hung, held, nextId := map[], 0, false, {}, 0;
    }

    /** An assignment to fields of a connection's record. */
    method Put(c: nat, conn: Conn)
      requires Valid() && c in info && |conn.username| <= STR_CAPACITY && |conn.statMsg| <= MAX_STR_LENGTH
      modifies this`info
      ensures Valid() && State() == SetConn(old(State()), c, conn)
    {
      hide Linked, Distinct, Values, AllFramed, TasksOf;
      info := info[c := conn];
    }

    /** Something happens on a connection's socket. */
    method Append(c: nat, e: Event)
      requires Valid() && c in info
      modifies this`info
      ensures Valid() && c in info && State() == Log(old(State()), c, e)
      ensures |info[c].username| <= STR_CAPACITY && |info[c].statMsg| <= MAX_STR_LENGTH
    {
      hide Valid, TasksOf, Values;
      RecordFits(c);
      Put(c, info[c].(sock := info[c].sock + [e]));
    }

    /** rpchat_toggle_descriptor, switching on. */
    method Listen(c: nat)
      requires Valid() && c in info
      modifies this`info
      ensures Valid() && c in info && State() == StartWatch(old(State()), c)
    {
      hide Valid, TasksOf, Values;
      RecordFits(c);
      Put(c, info[c].(watched := true, sock := info[c].sock + [Watch]));
    }

    /** What the record of a connection keeps within bounds. */
    lemma RecordFits(c: nat)
      requires Valid() && c in info
      ensures |info[c].username| <= STR_CAPACITY && |info[c].statMsg| <= MAX_STR_LENGTH
    {
    }

    // ---- jobs ----------------------------------------------------------------------------------

    /** rpchat_conn_info_enqueue_task */
    method EnqueueTask(p: Packet)
      requires Valid() && Room(1) && p.conn in info && Framed(p)
      modifies this, tasks, tasks.nodes
      ensures Valid() && Grew() && conns.nodes == old(conns.nodes)
      ensures tasks.size == old(tasks.size) + 1 && tasks.Contents() == old(tasks.Contents()) + [p]
      ensures State() == Enqueue(old(State()), TaskOf(p))
    {
      hide Framed, AllFramed, TasksOf, TaskOf, Linked, Distinct, Values;
      Appended(tasks.Contents(), p);
      var _ := tasks.Enqueue(p);
      info := info[p.conn := info[p.conn].(pending := info[p.conn].pending + 1)];
    }

    /** rpchat_conn_proc_enqueue_status */
    method SendStatusTask(c: nat, code: Byte)
      requires Valid() && Room(1) && c in info
      modifies this, tasks, tasks.nodes
      ensures Valid() && Grew() && conns.nodes == old(conns.nodes)
      ensures tasks.size == old(tasks.size) + 1
      ensures tasks.Contents() == old(tasks.Contents())
                                  + [Buffer(c, 0, Codec.Encode(Codec.Status(code, old(info)[c].statMsg)))]
      ensures State() == EnqueueStatus(old(State()), c, code)
    {
      hide Valid, Codec.ClientRead, Codec.Encode, Decoded, TasksOf, Values;
      RecordFits(c);
      var text := info[c].statMsg;
      var bytes := StatusBytes(Codec.STATUS_SIZE, code, text);
      DecodesStatus(0, code, text);
      Put(c, info[c].(statMsg := []));
      EnqueueTask(Buffer(c, 0, bytes));
    }

    /** rpchat_conn_proc_enqueue_deliver */
    method SendDeliverTask(c: nat, from: Bytes, text: Bytes)
      requires Valid() && Room(1) && c in info && |from| <= STR_CAPACITY
      modifies this, tasks, tasks.nodes
      ensures Valid() && Grew() && conns.nodes == old(conns.nodes)
      ensures tasks.size == old(tasks.size) + 1
      ensures tasks.Contents() == old(tasks.Contents())
                                  + [Buffer(c, old(nextId), Codec.Encode(Codec.Deliver(from, Sanitized(text, true))))]
      ensures State() == EnqueueDeliver(old(State()), c, from, text)
    {
      hide Valid, Codec.ClientRead, Codec.Encode, Decoded, Sanitized, TasksOf, Values;
      var id := nextId;
      var bytes := DeliverBytes(from, text);
      var p := Parcel(id, from, Sanitized(text, true));
      DecodesDeliver(id, from, p.text);
      RecordFits(c);
      Put(c, info[c].(made := info[c].made + {p}));
      SetNextId(id + 1);
      EnqueueTask(Buffer(c, id, bytes));
    }

    method SetNextId(id: nat)
      requires Valid()
      modifies this`nextId
      ensures Valid() && State() == old(State()).(nextId := id)
    {
      nextId := id;
    }

    // ---- the connection list -------------------------------------------------------------------

    /** The body of the loop of rpchat_broadcast_msg. */
    method BroadcastTo(c: nat, sender: nat, from: Bytes, text: Bytes)
      requires Valid() && Room(1) && c in info && |from| <= STR_CAPACITY && !hung
      modifies this, tasks, tasks.nodes
      ensures Valid() && Grew() && conns.nodes == old(conns.nodes)
      ensures tasks.size <= old(tasks.size) + (if hung then 0 else 1)
      ensures hung == (c != sender && Bad(old(info)[c].status)) && info.Keys == old(info).Keys
      ensures State() == if c == sender then old(State())
                         else if Bad(old(info)[c].status) then old(State()).(hung := true)
                         else EnqueueDeliver(old(State()), c, from, text)
    {
      hide Linked, Distinct, Values, Sanitized, AllFramed, TasksOf;
      if c != sender {
        if info[c].status.Closing? || info[c].status.Err? {
          hung := true;
        } else {
          SendDeliverTask(c, from, text);
        }
      }
    }

    /** The loop of rpchat_broadcast_msg.  At a connection that is closing or in error an
        iteration of the source's loop changes nothing, the node included (module
        BroadcastLoop), so the loop is left here with the call marked as never returning. */
    method BroadcastWalk(sender: nat, from: Bytes, text: Bytes)
      requires Valid() && Listed(State()) && Room(conns.size) && |from| <= STR_CAPACITY && !hung
      modifies this, tasks, tasks.nodes
      ensures Valid() && Grew() && conns.nodes == old(conns.nodes)
      ensures tasks.size <= old(tasks.size) + conns.size
      ensures State() == Walk(old(State()), old(State()).list, sender, from, text)
    {
      hide Valid, Linked, Distinct, Values, AllFramed, TasksOf, TextsFit, EnqueueDeliver, Walk;
      ConnsShape();
      var node := conns.front;
      ghost var i, list := 0, conns.Contents();
      ghost var goal := Walk(State(), list, sender, from, text);
      assert list[0..] == list;
      while node != null && !hung
        invariant Valid() && Grew() && conns.nodes == old(conns.nodes)
        invariant conns.Contents() == list && 0 <= i <= |list|
        invariant node == (if i < |conns.nodes| then conns.nodes[i] else null)
        invariant tasks.size <= old(tasks.size) + i && Listed(State())
        invariant if hung then State() == goal else Walk(State(), list[i..], sender, from, text) == goal
        decreases |list| - i, !hung
      {
        ConnsShape();
        AtNode(conns.nodes, i);
        WalkNext(State(), list, i, sender, from, text);
        assert node.data in list;
        BroadcastTo(node.data, sender, from, text);
        if !hung {
          ConnsShape();
          AtNode(conns.nodes, i);
          node := node.next;
          i := i + 1;
        }
      }
      WalkNext(State(), list, i, sender, from, text);
    }

    /** rpchat_broadcast_msg */
    method BroadcastMsg(sender: nat, from: Bytes, text: Bytes)
      requires Valid() && Listed(State()) && Room(conns.size) && |from| <= STR_CAPACITY
      modifies this, tasks, tasks.nodes
      ensures Valid() && Grew() && conns.nodes == old(conns.nodes)
      ensures tasks.size <= old(tasks.size) + conns.size
      ensures State() == Broadcast(old(State()), sender, from, text)
    {
      hide Linked, Distinct, Values, AllFramed, TasksOf, TextsFit, Sanitized, Walk;
      if !hung {
        var clean := Sanitizing(text, true);
        BroadcastWalk(sender, from, clean);
      }
    }

    /** rpchat_conn_queue_find_by_username: the node is not advanced and no characters are
        compared, so only the length of the first name counts. */
    method FindByUsername(name: Bytes) returns (found: bool)
      requires Valid() && Listed(State())
      ensures found <==> Taken(State(), name)
    {
      hide Valid, Linked, Values, TasksOf;
      ConnsShape();
      found := false;
      var index := 0;
      while index < conns.size
        invariant 0 <= index <= conns.size
        invariant 0 < index ==> !Taken(State(), name)
      {
        AtNode(conns.nodes, 0);
        assert conns.front.data == State().list[0];
        if |info[conns.front.data].username| == |name| {
          return true;
        }
        index := index + 1;
      }
    }

    /** The search of rpchat_conn_queue_destroy_conn_info for the node of a connection. */
    method FindNode(c: nat) returns (node: Node?<nat>, ghost k: nat)
      requires Valid()
      ensures k <= |conns.nodes| == |conns.Contents()|
      ensures node == if k < |conns.nodes| then conns.nodes[k] else null
      ensures (forall j :: 0 <= j < k ==> conns.Contents()[j] != c)
      ensures k < |conns.nodes| ==> conns.Contents()[k] == c
    {
      hide Valid, Linked, Values;
      ConnsShape();
      node, k := conns.front, 0;
      while node != null
        invariant 0 <= k <= |conns.nodes|
        invariant node == if k < |conns.nodes| then conns.nodes[k] else null
        invariant forall j :: 0 <= j < k ==> conns.Contents()[j] != c
        decreases |conns.nodes| - k
      {
        AtNode(conns.nodes, k);
        if node.data == c { return; }
        node := node.next;
        k := k + 1;
      }
    }

    /** rpchat_conn_queue_destroy_conn_info: find the node by identity and unlink it. */
    method DestroyConnInfo(c: nat)
      requires Valid()
      modifies conns, conns.nodes
      ensures Valid() && State() == old(State()).(list := Remove(old(State()).list, c))
      ensures tasks.nodes == old(tasks.nodes)
    {
      hide Linked, Distinct, Values, AllFramed, TasksOf, Remove;
      var node, k := FindNode(c);
      RemoveAt(conns.Contents(), c, k);
      if node != null {
        conns.RemoveNode(node, k);
      }
    }

    // ---- inbound messages ----------------------------------------------------------------------

    /** rpchat_handle_register */
    method RegisterClient(c: nat, name: Option<Bytes>, env: Env) returns (code: Code)
      requires Valid() && Listed(State()) && c in info && Room(conns.size + 1)
      modifies this, tasks, tasks.nodes
      ensures Valid() && Grew() && conns.nodes == old(conns.nodes)
      ensures tasks.size <= old(tasks.size) + conns.size + 1
      ensures Handled(code, State()) == HandleRegister(old(State()), c, name, env)
    {
      hide Valid, Sanitized, Broadcast, TasksOf, Values;
      code := Error;
      if !info[c].status.PreRegister? || name.None? { return; }
      var clean := Sanitizing(name.value, false);
      if clean == [] { return; }
      if hung { return Hangs; }
      var found := FindByUsername(clean);
      if found { return; }
      RecordFits(c);
      Put(c, info[c].(username := clean));
      SendDeliverTask(c, SERVER_NAME, env.welcome);
      BroadcastMsg(c, SERVER_NAME, env.notice);
      code := if hung then Hangs else Success;
    }

    /** rpchat_handle_send */
    method RelayMessage(c: nat, body: Option<Bytes>) returns (code: Code)
      requires Valid() && Listed(State()) && c in info && Room(conns.size)
      modifies this, tasks, tasks.nodes
      ensures Valid() && Grew() && conns.nodes == old(conns.nodes)
      ensures tasks.size <= old(tasks.size) + conns.size
      ensures Handled(code, State()) == HandleSend(old(State()), c, body)
    {
      hide Valid, Sanitized, Broadcast, TasksOf, Values;
      code := Unsuccess;
      if body.None? { return; }
      var clean := Sanitizing(body.value, true);
      if |clean| < 1 { return; }
      RecordFits(c);
      BroadcastMsg(c, info[c].username, clean);
      code := if hung then Hangs else Success;
    }

    /** rpchat_conn_proc_handle_inbound_msg and rpchat_handle_msg */
    method InboundMsg(c: nat, readable: bool, env: Env) returns (code: Code)
      requires Valid() && Listed(State()) && c in info && Room(conns.size + 1)
      modifies this, tasks, tasks.nodes
      ensures Valid() && Grew() && conns.nodes == old(conns.nodes)
      ensures tasks.size <= old(tasks.size) + conns.size + 1
      ensures Handled(code, State()) == HandleInbound(old(State()), c, readable, env)
    {
      hide Valid, HandleRegister, HandleSend, TasksOf, Values;
      code := Error;
      if !readable { return; }
      match env.incoming
      case NoData =>
      case Register(name) => code := RegisterClient(c, name, env);
      case Send(body) => code := RelayMessage(c, body);
      case Reply(reply) =>
        code := Unsuccess;
        if info[c].status.PendingStatus? && reply.Some? {
          code := if reply.value == STATUS_GOOD then Success else Error;
        }
      case Unknown =>
    }

    // ---- the task ------------------------------------------------------------------------------

    /** rpchat_conn_info_submit_msg and what its two callers do with the outcome. */
    method SubmitMsg(p: Packet, next: Status, env: Env)
      requires Valid() && p.Buffer? && p.conn in info
      modifies this`info
      ensures Valid() && State() == Submit(old(State()), p.conn, TaskOf(p).msg, next, env)
    {
      hide Valid, Decoded, TasksOf, Values;
      var c := p.conn;
      RecordFits(c);
      if !env.sendOk {
        Append(c, SendFailed);
        Put(c, info[c].(status := Err));
      } else {
        var e := match Decoded(p.serial, p.bytes)
                 case StatusMsg(code, text) => StatusSent(code, text)
                 case DeliverMsg(parcel) => DeliverSent(parcel);
        Append(c, e);
        Put(c, info[c].(status := next));
        Listen(c);
      }
    }

    /** rpchat_conn_proc_error, then the move to CLOSING and the requeue.  The status is built
        in the task's own buffer, of whichever size that is. */
    method ProcError(p: Packet, env: Env)
      requires Valid() && p.conn in info && Framed(p) && Room(1)
      modifies this, tasks, tasks.nodes
      ensures Valid() && Grew() && conns.nodes == old(conns.nodes)
      ensures State() == OnError(old(State()), TaskOf(p), env)
    {
      hide Valid, Codec.ClientRead, Codec.Encode, Decoded, TasksOf, Values;
      var c := p.conn;
      RecordFits(c);
      var conn := info[c];
      var size := if !p.Buffer? then Codec.INCOMING_SIZE
                  else if IsStatus(p) then Codec.STATUS_SIZE
                  else Codec.DELIVER_SIZE;
      var bytes := StatusBytes(size, STATUS_ERROR, conn.statMsg);
      if p.Buffer? {
        DecodesStatus(p.serial, STATUS_ERROR, conn.statMsg);
      }
      Put(c, conn.(status := Closing, statMsg := [], watched := false,
                   sock := conn.sock + [ErrorStatus(conn.statMsg, env.sendOk), Close]));
      EnqueueTask(if p.Buffer? then p.(bytes := bytes) else p);
    }

    /** The PRE_REGISTER and AVAILABLE cases of the switch. */
    method Request(p: Packet, env: Env)
      requires Valid() && Listed(State()) && p.conn in info && Framed(p) && Room(conns.size + 2)
      modifies this, tasks, tasks.nodes
      ensures Valid() && Grew() && conns.nodes == old(conns.nodes)
      ensures State() == OnRequest(old(State()), TaskOf(p), env)
    {
      hide Valid, HandleInbound, Framed, Decoded, TasksOf, Values, Enqueue, EnqueueStatus;
      var c, at := p.conn, info[p.conn].status;
      RecordFits(c);
      if !p.ReadEvent? {
        Put(c, info[c].(status := SendMsg));
        EnqueueTask(p);
        return;
      }
      HandledKeys(State(), c, p.readable, env);
      var code := InboundMsg(c, p.readable, env);
      if p.readable {
        Append(c, Read(at, code.Success?));
      }
      ConcludeRequest(p, code);
    }

    /** What a request's outcome leads to. */
    method ConcludeRequest(p: Packet, code: Code)
      requires Valid() && p.conn in info && Framed(p) && Room(1)
      modifies this, tasks, tasks.nodes
      ensures Valid() && Grew() && conns.nodes == old(conns.nodes)
      ensures State() == match code
                         case Success => EnqueueStatus(SetStatus(old(State()), p.conn, SendStat), p.conn, STATUS_GOOD)
                         case Hangs => Hang(old(State()), p.conn)
                         case _ => Enqueue(SetStatus(old(State()), p.conn, Err), TaskOf(p))
    {
      hide Valid, Framed, Decoded, TasksOf, Values;
      var c := p.conn;
      RecordFits(c);
      if code.Success? {
        Put(c, info[c].(status := SendStat));
        SendStatusTask(c, STATUS_GOOD);
      } else if code.Hangs? {
        HoldForEver(c);
      } else {
        Put(c, info[c].(status := Err));
        EnqueueTask(p);
      }
    }

    /** The worker never returns, and keeps the connection's mutex. */
    method HoldForEver(c: nat)
      requires Valid()
      modifies this`held
      ensures Valid() && State() == Hang(old(State()), c)
    {
      held := held + {c};
    }

    /** The PENDING_STATUS case of the switch. */
    method AwaitReply(p: Packet, env: Env)
      requires Valid() && Listed(State()) && p.conn in info && Framed(p) && Room(conns.size + 2)
      modifies this, tasks, tasks.nodes
      ensures Valid() && Grew() && conns.nodes == old(conns.nodes)
      ensures State() == OnPending(old(State()), TaskOf(p), env)
    {
      hide Valid, HandleInbound, Framed, Decoded, TasksOf, Values;
      var c := p.conn;
      if !p.ReadEvent? {
        EnqueueTask(p);
        return;
      }
      HandledKeys(State(), c, p.readable, env);
      var code := InboundMsg(c, p.readable, env);
      if p.readable {
        Append(c, Read(PendingStatus, !code.Error? && !code.Hangs?));
      }
      ConcludeReply(p, code);
    }

    method ConcludeReply(p: Packet, code: Code)
      requires Valid() && p.conn in info && Framed(p) && Room(1)
      modifies this, tasks, tasks.nodes
      ensures Valid() && Grew() && conns.nodes == old(conns.nodes)
      ensures State() == match code
                         case Hangs => Hang(old(State()), p.conn)
                         case Error => Enqueue(SetStatus(old(State()), p.conn, Err), TaskOf(p))
                         case _ => StartWatch(SetStatus(old(State()), p.conn, Available), p.conn)
    {
      hide Valid, Framed, Decoded, TasksOf, Values;
      var c := p.conn;
      RecordFits(c);
      if code.Hangs? {
        HoldForEver(c);
      } else if code.Error? {
        Put(c, info[c].(status := Err));
        EnqueueTask(p);
      } else {
        Put(c, info[c].(status := Available));
        Listen(c);
      }
    }

    /** The CLOSING case of the switch. */
    method FinishClosing(c: nat, env: Env)
      requires Valid() && Listed(State()) && c in info && Room(conns.size)
      modifies this, tasks, tasks.nodes, conns, conns.nodes
      ensures Valid() && Grew()
      ensures State() == OnClosing(old(State()), c, env)
    {
      hide Valid, Broadcast, Remove, TasksOf, Values;
      if info[c].pending == 0 {
        BroadcastMsg(c, SERVER_NAME, env.notice);
        if hung {
          HoldForEver(c);
        } else {
          DestroyConnInfo(c);
        }
      }
    }

    method Switch(p: Packet, env: Env)
      requires Valid() && Listed(State()) && p.conn in info && Framed(p) && Room(conns.size + 2)
      modifies this, tasks, tasks.nodes, conns, conns.nodes
      ensures Valid() && Grew()
      ensures State() == Dispatch(old(State()), TaskOf(p), env)
    {
      hide Valid, OnRequest, OnPending, OnError, OnClosing, Submit, Enqueue, Decoded, TasksOf, Values;
      match info[p.conn].status
      case PreRegister => Request(p, env);
      case Available => Request(p, env);
      case SendStat =>
        if !p.Buffer? || !IsStatus(p) {
          EnqueueTask(p);
        } else {
          SubmitMsg(p, Available, env);
        }
      case SendMsg =>
        if !p.Buffer? {
          EnqueueTask(p);
        } else {
          SubmitMsg(p, PendingStatus, env);
        }
      case PendingStatus => AwaitReply(p, env);
      case Err => ProcError(p, env);
      case Closing => FinishClosing(p.conn, env);
    }

    /** The worker takes the front task (rplib_tpool_thread_do). */
    method PopTask() returns (p: Packet)
      requires Valid() && 0 < tasks.size && State().queue != []
      modifies tasks, tasks.nodes
      ensures Valid() && Grew() && tasks.size == old(tasks.size) - 1
      ensures Framed(p) && TaskOf(p) == old(State()).queue[0]
      ensures State() == old(State()).(queue := Without(old(State()).queue, 0))
    {
      hide Framed, AllFramed, TasksOf, TaskOf, Linked, Distinct, Values, Without;
      ContentsShape(tasks.nodes);
      Dropped(tasks.Contents());
      var node := tasks.Peek();
      p := node.data;
      tasks.Dequeue();
    }

    /** The task's first line lowers the job counter. */
    method TakeTask() returns (p: Packet)
      requires Valid() && 0 < tasks.size && State().queue != [] && State().queue[0].conn in info
      modifies this, tasks, tasks.nodes
      ensures Valid() && Grew() && conns.nodes == old(conns.nodes) && tasks.size == old(tasks.size) - 1
      ensures Framed(p) && TaskOf(p) == old(State()).queue[0] && p.conn == old(State()).queue[0].conn
      ensures State() == Begin(old(State()), 0)
    {
      hide Valid, Framed, TasksOf, Decoded, Values, Without;
      p := PopTask();
      RecordFits(p.conn);
      Put(p.conn, info[p.conn].(pending := info[p.conn].pending - 1));
    }

    /** The task has obtained the connection's mutex. */
    method NoteActivity(p: Packet)
      requires Valid() && p.conn in info
      modifies this`info
      ensures Valid() && State() == Arrive(old(State()), TaskOf(p))
    {
      hide Valid, Decoded, TasksOf, Values;
      var c := p.conn;
      RecordFits(c);
      if !p.Beat? {
        Put(c, info[c].(lastActive := clock));
      }
      Put(c, info[c].(runs := info[c].runs + [Ran(p.Beat?, clock)]));
    }

    /** The heartbeat test, and the switch. */
    method ProcessTask(p: Packet, env: Env)
      requires Valid() && Listed(State()) && p.conn in info && Framed(p) && Room(conns.size + 2)
      modifies this, tasks, tasks.nodes, conns, conns.nodes
      ensures Valid() && Grew()
      ensures State() == Process(old(State()), TaskOf(p), env)
    {
      hide Valid, Dispatch, OnError, Decoded, TasksOf, Values;
      var c := p.conn;
      if p.Beat? && !info[c].status.Closing? && !info[c].status.Err? {
        if TIMEOUT < clock - info[c].lastActive {
          RecordFits(c);
          Put(c, info[c].(status := Err, statMsg := INACTIVE));
          ProcError(p, env);
        }
      } else {
        Switch(p, env);
      }
    }

    /** rpchat_task_conn_proc_event on the task at the front of the queue. */
    method ProcEvent(env: Env)
      requires Valid() && Inv(State()) && 0 < tasks.size && Room(conns.size + 1)
      modifies this, tasks, tasks.nodes, conns, conns.nodes
      ensures Valid() && Grew()
      ensures Listed(old(State())) && Step(old(State()), Run(0, env)) == Some(State())
      ensures Inv(State())
    {
      hide Valid, Inv, Process, TaskOf, TasksOf, Values, Without;
      FrontTask();
      RunTaskInv(State(), 0, env);
      var p := TakeTask();
      if p.conn in held {
        EnqueueTask(p);
      } else {
        NoteActivity(p);
        ProcessTask(p, env);
      }
    }

    /** A task whose connection's mutex is taken goes to the back of the queue. */
    method ContendedTask()
      requires Valid() && Inv(State()) && 0 < tasks.size && Room(0)
      modifies this, tasks, tasks.nodes
      ensures Valid() && Grew() && conns.nodes == old(conns.nodes)
      ensures Listed(old(State())) && Step(old(State()), Contend(0)) == Some(State())
      ensures Inv(State())
    {
      hide Valid, Inv, TaskOf, TasksOf, Values, Without;
      FrontTask();
      ContendInv(State(), 0);
      var p := TakeTask();
      EnqueueTask(p);
    }

    lemma FrontTask()
      requires Valid() && Inv(State()) && 0 < tasks.size
      ensures Listed(State()) && State().queue != [] && State().queue[0].conn in info
    {
    }

    // ---- the event loop ------------------------------------------------------------------------

    /** rpchat_handle_new_connection */
    method NewConnection(c: nat)
      requires Valid() && Inv(State()) && c !in info && !hung && conns.size + 1 < INT_MAX
      modifies this, conns, conns.nodes
      ensures Valid() && tasks.nodes == old(tasks.nodes)
      ensures Listed(old(State())) && Step(old(State()), Accept(c)) == Some(State())
      ensures Inv(State())
    {
      hide Inv, Linked, Distinct, Values, AllFramed, TasksOf;
      InvListed(State());
      AcceptConnInv(State(), c);
      var _ := conns.Enqueue(c);
      info := info[c := NewConn(clock)];
    }

    /** rpchat_handle_events for one existing connection */
    method HandleEvent(c: nat, readable: bool)
      requires Valid() && Inv(State()) && c in State().list && c in info && info[c].watched && Room(1)
      modifies this, tasks, tasks.nodes
      ensures Valid() && Grew() && conns.nodes == old(conns.nodes)
      ensures Listed(old(State())) && Step(old(State()), Epoll(c, readable)) == Some(State())
      ensures Inv(State())
    {
      hide Valid, Inv, TasksOf, Values;
      InvListed(State());
      EpollInv(State(), c, readable);
      RecordFits(c);
      Put(c, info[c].(watched := false));
      EnqueueTask(ReadEvent(c, readable));
    }

    /** The loop of rpchat_audit_connections. */
    method AuditLoop()
      requires Valid() && Listed(State()) && Room(conns.size)
      modifies this, tasks, tasks.nodes
      ensures Valid() && Grew() && conns.nodes == old(conns.nodes)
      ensures State() == Audited(old(State()), old(State()).list)
    {
      hide Valid, Linked, Values, TasksOf, Enqueue, Audited;
      ConnsShape();
      var node := conns.front;
      ghost var i, list := 0, conns.Contents();
      ghost var goal := Audited(State(), list);
      assert list[0..] == list;
      while node != null
        invariant Valid() && Grew() && conns.nodes == old(conns.nodes)
        invariant conns.Contents() == list && 0 <= i <= |list|
        invariant node == (if i < |conns.nodes| then conns.nodes[i] else null)
        invariant tasks.size == old(tasks.size) + i && Listed(State()) && Audited(State(), list[i..]) == goal
        decreases |list| - i
      {
        ConnsShape();
        AtNode(conns.nodes, i);
        AuditNext(State(), list, i);
        assert node.data in list;
        EnqueueTask(Beat(node.data));
        ConnsShape();
        AtNode(conns.nodes, i);
        node := node.next;
        i := i + 1;
      }
      AuditNext(State(), list, i);
    }

    /** rpchat_audit_connections */
    method AuditConnections()
      requires Valid() && Inv(State()) && !hung && Room(conns.size)
      modifies this, tasks, tasks.nodes
      ensures Valid() && Grew() && conns.nodes == old(conns.nodes)
      ensures Listed(old(State())) && Step(old(State()), Audit) == Some(State())
      ensures Inv(State())
    {
      hide Valid, Inv, Audited, TasksOf, Values;
      InvListed(State());
      AuditInv(State(), State().list);
      AuditLoop();
    }
  }

  lemma AuditNext(s: Server, list: seq<nat>, i: nat)
    requires i <= |list| && forall c :: c in list ==> c in s.info
    ensures Audited(s, list[i..]) ==
              if i == |list| then s else Audited(Enqueue(s, Heartbeat(list[i])), list[i + 1..])
    ensures i < |list| ==>
              var r := Enqueue(s, Heartbeat(list[i])); r.info.Keys == s.info.Keys && r.list == s.list
  {
    if i < |list| {
      assert list[i..][0] == list[i] && list[i..][1..] == list[i + 1..];
    }
  }

  lemma ContentsShape<T>(nodes: seq<Node<T>>)
    ensures |Values(nodes)| == |nodes| && (nodes != [] ==> Values(nodes)[0] == nodes[0].data)
  {
  }

  lemma AtNode<T>(nodes: seq<Node<T>>, i: nat)
    requires Linked(nodes) && i < |nodes|
    ensures nodes[i].next == Following(nodes, i) && |Values(nodes)| == |nodes| && Values(nodes)[i] == nodes[i].data
  {
    assert LinksOn(nodes, i);
  }
}
