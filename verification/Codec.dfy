/** The wire format: the server's frame builders and field reads (src/rpchat_process_event.c)
    and the client's packing and unpacking (scripts/client.py), over a byte stream. */
module Codec {
  import opened Basics
  import opened Strings
  import opened Protocol

  // ---- 16-bit lengths --------------------------------------------------------------------------

  /** htobe16, and struct's "!h" for the lengths it can pack. */
  function Be16(n: nat): Bytes
    requires n < 65536
  {
    [n / 256, n % 256]
  }

  /** be16toh */
  function Unsigned16(b: Bytes): nat
    requires |b| == 2
  {
    var high: int := b[0];
    high * 256 + b[1]
  }

  /** struct's "!h" */
  function Signed16(b: Bytes): int
    requires |b| == 2
  {
    if Unsigned16(b) < 32768 then Unsigned16(b) else Unsigned16(b) - 65536
  }

  /** The two readings of a length agree with what was written exactly below 32768; every
      length the two programs produce is far below. */
  lemma LengthsAgree(n: nat)
    requires n < 65536
    ensures Unsigned16(Be16(n)) == n
    ensures Signed16(Be16(n)) == n <==> n < 32768
  {
  }

  function Field(text: Bytes): Bytes
    requires |text| < 65536
  {
    Be16(|text|) + text
  }

  // ---- server frames ---------------------------------------------------------------------------

  datatype Frame = Deliver(from: Bytes, text: Bytes) | Status(code: Byte, text: Bytes)

  /** Both length fields are below the limit up to which the client reads them unsigned. */
  predicate Packable(f: Frame) {
    |f.text| < 32768 && (f.Deliver? ==> |f.from| < 32768)
  }

  function Encode(f: Frame): Bytes
    requires Packable(f)
  {
    match f
    case Deliver(from, text) => [OP_DELIVER] + Field(from) + Field(text)
    case Status(code, text) => [OP_STATUS, code] + Field(text)
  }

  const DELIVER_SIZE := 1 + 2 * STR_SIZE   // sizeof(rpchat_pkt_deliver_t)
  const STATUS_SIZE := 2 + STR_SIZE        // sizeof(rpchat_pkt_status_t)
  const INCOMING_SIZE := 8195              // RPCHAT_MAX_INCOMING_MSG

  /** memcpy of a string's bytes to an offset of the frame buffer. */
  method CopyTo(buf: array<Byte>, at: nat, src: Bytes) returns (next: nat)
    requires at + |src| <= buf.Length
    modifies buf
    ensures next == at + |src| && buf[..next] == old(buf[..at]) + src
  {
    var i := 0;
    while i < |src|
      invariant 0 <= i <= |src|
      invariant buf[..at + i] == old(buf[..at]) + src[..i]
    {
      buf[at + i] := src[i];
      i := i + 1;
    }
    assert src[..i] == src;
    next := at + i;
  }

  /** A length field in big-endian order and the bytes it counts. */
  method PutField(buf: array<Byte>, at: nat, text: Bytes) returns (next: nat)
    requires |text| < 65536 && at + 2 + |text| <= buf.Length
    modifies buf
    ensures next == at + 2 + |text| && buf[..next] == old(buf[..at]) + Field(text)
  {
    next := CopyTo(buf, at, Be16(|text|));
    next := CopyTo(buf, next, text);
  }

  /** rpchat_conn_proc_set_status: builds the frame with a running index and clears the
      pending text.  The buffer is any of the three sizes a task's buffer has. */
  method SetStatus(buf: array<Byte>, stat: StringBuf, code: Byte) returns (size: nat)
    requires buf.Length == INCOMING_SIZE || buf.Length == STATUS_SIZE || buf.Length == DELIVER_SIZE
    requires stat.Valid() && stat.len <= MAX_STR_LENGTH && stat.contents != buf
    modifies buf, stat`len
    ensures size <= buf.Length && stat.len == 0
    ensures buf[..size] == Encode(Status(code, old(stat.Text())))
  {
    buf[0] := OP_STATUS;
    buf[1] := code;
    assert buf[..2] == [OP_STATUS, code];
    size := PutField(buf, 2, stat.contents[..stat.len]);
    stat.len := 0;
  }

  /** rpchat_conn_proc_set_deliver: sanitizes the message and builds the frame.  Whatever the
      message's declared length, the running index stays within the packet structure. */
  method SetDeliver(buf: array<Byte>, from: StringBuf, msg: StringBuf) returns (size: nat)
    requires buf.Length == DELIVER_SIZE
    requires from.Valid() && msg.Valid() && from.len <= STR_CAPACITY
    requires from != msg && from.contents != buf && msg.contents != buf
    modifies buf, msg`len
    ensures size <= DELIVER_SIZE
    ensures buf[..size] == Encode(Deliver(from.Text(), Sanitized(old(msg.Text()), true)))
  {
    hide Sanitized, Field;
    var clean := new StringBuf();
    var _ := Sanitize(msg, clean, true);
    buf[0] := OP_DELIVER;
    assert buf[..1] == [OP_DELIVER];
    size := PutField(buf, 1, from.contents[..from.len]);
    size := PutField(buf, size, clean.contents[..clean.len]);
  }

  /** The bound is reached: a sanitized name and a message of 4095 acceptable bytes each fill
      the packet structure to its last byte. */
  lemma DeliverBoundIsTight(name: Bytes, body: Bytes)
    requires |name| == MAX_STR_LENGTH && forall k :: 0 <= k < |name| ==> Accepts(name[k], false)
    requires |body| == MAX_STR_LENGTH && forall k :: 0 <= k < |body| ==> Accepts(body[k], true)
    ensures |Sanitized(name, false)| == STR_CAPACITY == |Sanitized(body, true)|
    ensures |Encode(Deliver(Sanitized(name, false), Sanitized(body, true)))| == DELIVER_SIZE == 8197
  {
    SanitizedTight(name, false);
    SanitizedTight(body, true);
  }

  // ---- the client reads server frames ----------------------------------------------------------

  /** sock.recv(n) on a stream that has the bytes; a negative or short read is an error. */
  function ClientRecv(stream: Bytes, n: int): Option<(Bytes, Bytes)> {
    if 0 <= n <= |stream| then Some((stream[..n], stream[n..])) else None
  }

  /** A length field read with "!h" and the bytes it announces. */
  function ClientField(stream: Bytes): Option<(Bytes, Bytes)> {
    match ClientRecv(stream, 2)
    case None => None
    case Some((len, rest)) => ClientRecv(rest, Signed16(len))
  }

  /** handle_incoming_msg with handle_deliver and handle_stat: one frame and the rest. */
  function ClientRead(stream: Bytes): Option<(Frame, Bytes)> {
    match ClientRecv(stream, 1)
    case None => None
    case Some((op, rest)) =>
      if op[0] == OP_DELIVER then
        match ClientField(rest)
        case None => None
        case Some((from, rest1)) =>
          (match ClientField(rest1)
           case None => None
           case Some((text, rest2)) => Some((Deliver(from, text), rest2)))
      else if op[0] == OP_STATUS then
        match ClientRecv(rest, 3)
        case None => None
        case Some((head, rest1)) =>
          var n := Signed16(head[1..3]);
          if n <= 0 then Some((Status(head[0], []), rest1))
          else
            (match ClientRecv(rest1, n)
             case None => None
             case Some((text, rest2)) => Some((Status(head[0], text), rest2)))
      else None
  }

  /** The frames byte by byte: opcode, then big-endian lengths in front of what they count. */
  lemma FrameLayout(from: Bytes, code: Byte, text: Bytes)
    requires |from| < 32768 && |text| < 32768
    ensures var d, n, m := Encode(Deliver(from, text)), |from|, |text|;
            && |d| == 5 + n + m && d[0] == 3
            && d[1] == n / 256 && d[2] == n % 256 && d[3..3 + n] == from
            && d[3 + n] == m / 256 && d[4 + n] == m % 256 && d[5 + n..] == text
    ensures var e, m := Encode(Status(code, text)), |text|;
            && |e| == 4 + m && e[0] == 4 && e[1] == code
            && e[2] == m / 256 && e[3] == m % 256 && e[4..] == text
  {
  }

  lemma ClientReadsField(text: Bytes, rest: Bytes)
    requires |text| < 65536
    ensures |text| < 32768 ==> ClientField(Field(text) + rest) == Some((text, rest))
    ensures 32768 <= |text| ==> ClientField(Field(text) + rest) == None
  {
    var s := Field(text) + rest;
    assert s[..2] == Be16(|text|) && s[2..] == text + rest;
    LengthsAgree(|text|);
    if |text| < 32768 {
      assert (text + rest)[..|text|] == text && (text + rest)[|text|..] == rest;
    }
  }

  lemma ClientReadsDeliver(from: Bytes, text: Bytes, rest: Bytes)
    requires Packable(Deliver(from, text))
    ensures ClientRead(Encode(Deliver(from, text)) + rest) == Some((Deliver(from, text), rest))
  {
    hide Field, ClientField;
    var s := Encode(Deliver(from, text)) + rest;
    assert s[..1] == [OP_DELIVER];
    assert s[1..] == Field(from) + (Field(text) + rest);
    ClientReadsField(from, Field(text) + rest);
    ClientReadsField(text, rest);
  }

  lemma ClientReadsStatus(code: Byte, text: Bytes, rest: Bytes)
    requires Packable(Status(code, text))
    ensures ClientRead(Encode(Status(code, text)) + rest) == Some((Status(code, text), rest))
  {
    hide Be16, Signed16, ClientField;
    var s := Encode(Status(code, text)) + rest;
    LengthsAgree(|text|);
    var len := Be16(|text|);
    Be16Length(|text|);
    assert s[..1] == [OP_STATUS];
    var s1 := s[1..];
    assert s1 == [code] + len + (text + rest);
    var head := s1[..3];
    assert head == [code] + len;
    assert s1[3..] == text + rest;
    assert head[1..3] == len;
    assert (text + rest)[..|text|] == text && (text + rest)[|text|..] == rest;
  }

  lemma Be16Length(n: nat)
    requires n < 65536
    ensures |Be16(n)| == 2
  {
  }

  lemma SignedInverse(b: Bytes)
    requires |b| == 2 && 0 <= Signed16(b)
    ensures Signed16(b) < 32768 && Be16(Signed16(b)) == b
  {
  }

  lemma ClientFieldOnly(stream: Bytes, text: Bytes, rest: Bytes)
    requires ClientField(stream) == Some((text, rest))
    ensures |text| < 32768 && stream == Field(text) + rest
  {
    SignedInverse(stream[..2]);
    assert stream == stream[..2] + stream[2..];
  }

  /** The client takes nothing else for a DELIVER than its frame, and nothing else for a STATUS
      with a text; a STATUS without one is read from any length that is not positive. */
  lemma ClientReadsOnly(stream: Bytes, f: Frame, rest: Bytes)
    ensures f.Deliver? || f.text != [] ==>
              (ClientRead(stream) == Some((f, rest)) <==> Packable(f) && stream == Encode(f) + rest)
    ensures f.Status? && f.text == [] ==>
              (ClientRead(stream) == Some((f, rest)) <==>
                 && 4 <= |stream| && stream[0] == 4 && stream[1] == f.code
                 && Signed16(stream[2..4]) <= 0 && rest == stream[4..])
  {
    hide Signed16, Field, ClientField;
    if ClientRead(stream) == Some((f, rest)) {
      if f.Deliver? {
        DeliverOnly(stream, f, rest);
      } else {
        StatusOnly(stream, f, rest);
      }
    } else if (f.Deliver? || f.text != []) && Packable(f) && stream == Encode(f) + rest {
      ClientReadsFrame(f, rest);
    } else if f.Status? && 4 <= |stream| {
      assert stream[1..][..3][1..3] == stream[2..4] && stream[1..][3..] == stream[4..];
    }
  }

  lemma DeliverOnly(stream: Bytes, f: Frame, rest: Bytes)
    requires ClientRead(stream) == Some((f, rest)) && f.Deliver?
    ensures Packable(f) && stream == Encode(f) + rest
  {
    hide ClientField, Field;
    var (from, rest1) := ClientField(stream[1..]).value;
    ClientFieldOnly(stream[1..], from, rest1);
    ClientFieldOnly(rest1, f.text, rest);
    assert stream == [stream[0]] + (Field(from) + (Field(f.text) + rest));
  }

  lemma StatusOnly(stream: Bytes, f: Frame, rest: Bytes)
    requires ClientRead(stream) == Some((f, rest)) && f.Status?
    ensures 4 <= |stream| && stream[0] == 4 && stream[1] == f.code
    ensures f.text == [] ==> Signed16(stream[2..4]) <= 0 && rest == stream[4..]
    ensures f.text != [] ==> Packable(f) && stream == Encode(f) + rest
  {
    var head, rest1 := stream[1..][..3], stream[1..][3..];
    assert head[1..3] == stream[2..4] && rest1 == stream[4..];
    var n := Signed16(stream[2..4]);
    if f.text != [] {
      SignedInverse(stream[2..4]);
      assert stream == [stream[0], stream[1]] + stream[2..4] + (rest1[..n] + rest1[n..]);
    }
  }

  lemma ClientReadsFrame(f: Frame, rest: Bytes)
    requires Packable(f)
    ensures ClientRead(Encode(f) + rest) == Some((f, rest))
  {
    hide ClientRead, Encode;
    match f
    case Deliver(from, text) => ClientReadsDeliver(from, text, rest);
    case Status(code, text) => ClientReadsStatus(code, text, rest);
  }

  function EncodeAll(fs: seq<Frame>): Bytes
    requires forall i :: 0 <= i < |fs| ==> Packable(fs[i])
  {
    if fs == [] then [] else Encode(fs[0]) + EncodeAll(fs[1..])
  }

  /** Reading n frames off the stream. */
  function ClientReadAll(stream: Bytes, n: nat): Option<(seq<Frame>, Bytes)> {
    if n == 0 then Some(([], stream))
    else match ClientRead(stream)
      case None => None
      case Some((f, rest)) =>
        (match ClientReadAll(rest, n - 1)
         case None => None
         case Some((fs, rest1)) => Some(([f] + fs, rest1)))
  }

  /** Any sequence of server frames, concatenated, is read back by the client frame by frame. */
  lemma {:induction false} ServerToClient(fs: seq<Frame>, rest: Bytes)
    requires forall i :: 0 <= i < |fs| ==> Packable(fs[i])
    ensures ClientReadAll(EncodeAll(fs) + rest, |fs|) == Some((fs, rest))
    decreases |fs|
  {
    hide Encode, ClientRead, Packable;
    if fs == [] {
      assert EncodeAll(fs) + rest == rest;
    } else {
      var tail := EncodeAll(fs[1..]) + rest;
      assert EncodeAll(fs) + rest == Encode(fs[0]) + tail;
      ClientReadsFrame(fs[0], tail);
      ServerToClient(fs[1..], rest);
      assert [fs[0]] + fs[1..] == fs;
    }
  }

  // ---- the server reads client messages --------------------------------------------------------

  datatype ClientMsg = MRegister(name: Bytes) | MSend(text: Bytes) | MStatus(code: Byte)

  /** struct packs a length with "!h" only below 32768; send_send trims before that. */
  predicate Sendable(m: ClientMsg) { m.MRegister? ==> |m.name| < 32768 }

  /** What register_client, send_send and send_stat put on the wire.  send_send trims its
      content; a longer name is packed as it is. */
  function Pack(m: ClientMsg): Bytes
    requires Sendable(m)
  {
    match m
    case MRegister(name) => [OP_REGISTER] + Field(name)
    case MSend(text) => [OP_SEND] + Field(Clamped(text))
    case MStatus(code) => [OP_STATUS, code]
  }

  /** rpchat_recv compared with the wanted size: a short read fails, and so does a read of
      zero bytes, which rpchat_recv reports as an error. */
  function ServerRecv(stream: Bytes, n: nat): (Option<Bytes>, Bytes) {
    if 1 <= n <= |stream| then (Some(stream[..n]), stream[n..])
    else (None, stream[Min(n, |stream|)..])
  }

  /** A length field and the bytes it announces, at most 4095. */
  function ServerField(stream: Bytes): (Option<Bytes>, Bytes) {
    match ServerRecv(stream, 2)
    case (None, rest) => (None, rest)
    case (Some(len), rest) =>
      if MAX_STR_LENGTH < Unsigned16(len) then (None, rest) else ServerRecv(rest, Unsigned16(len))
  }

  /** The opcode, and the fields the connection's state admits. */
  function ServerRead(stream: Bytes, status: Protocol.Status): (Incoming, Bytes) {
    match ServerRecv(stream, 1)
    case (None, rest) => (NoData, rest)
    case (Some(op), rest) =>
      if op[0] == OP_REGISTER then
        if !status.PreRegister? then (Register(None), rest)
        else var (name, rest1) := ServerField(rest); (Register(name), rest1)
      else if op[0] == OP_SEND then
        var (body, rest1) := ServerField(rest); (Send(body), rest1)
      else if op[0] == OP_STATUS then
        if !status.PendingStatus? then (Reply(None), rest)
        else
          var (code, rest1) := ServerRecv(rest, 1);
          (Reply(if code.None? then None else Some(code.value[0])), rest1)
      else (Unknown, rest)
  }

  /** The states in which the server reads the message's fields, and the lengths it takes. */
  predicate Admitted(m: ClientMsg, status: Protocol.Status) {
    match m
    case MRegister(name) => status.PreRegister? && 1 <= |name| <= MAX_STR_LENGTH
    case MSend(text) => 1 <= |text|
    case MStatus(_) => status.PendingStatus?
  }

  function Meaning(m: ClientMsg): Incoming {
    match m
    case MRegister(name) => Register(Some(name))
    case MSend(text) => Send(Some(Clamped(text)))
    case MStatus(code) => Reply(Some(code))
  }

  lemma ServerReadsField(text: Bytes, rest: Bytes)
    requires |text| < 65536
    ensures ServerField(Field(text) + rest).0 == Some(text) <==> 1 <= |text| <= MAX_STR_LENGTH
    ensures 1 <= |text| <= MAX_STR_LENGTH ==> ServerField(Field(text) + rest) == (Some(text), rest)
  {
    var s := Field(text) + rest;
    assert s[..2] == Be16(|text|) && s[2..] == text + rest;
    LengthsAgree(|text|);
    if 1 <= |text| <= MAX_STR_LENGTH {
      assert (text + rest)[..|text|] == text && (text + rest)[|text|..] == rest;
    }
  }

  /** The server recovers a packed message, and nothing beyond it, exactly when the
      connection's state admits it. */
  lemma ServerReadsMessage(m: ClientMsg, status: Protocol.Status, rest: Bytes)
    requires Sendable(m)
    ensures ServerRead(Pack(m) + rest, status) == (Meaning(m), rest) <==> Admitted(m, status)
  {
    hide Field, ServerField, Clamped;
    var s := Pack(m) + rest;
    match m
    case MRegister(name) =>
      assert s[..1] == [OP_REGISTER] && s[1..] == Field(name) + rest;
      ServerReadsField(name, rest);
    case MSend(text) =>
      ClampedShape(text);
      assert s[..1] == [OP_SEND] && s[1..] == Field(Clamped(text)) + rest;
      ServerReadsField(Clamped(text), rest);
    case MStatus(code) =>
      assert s[..1] == [OP_STATUS] && s[1..] == [code] + rest;
      assert s[1..][..1] == [code] && s[1..][1..] == rest;
  }

  lemma ClampedShape(text: Bytes)
    ensures |Clamped(text)| <= MAX_STR_LENGTH && (Clamped(text) == [] <==> text == [])
  {
  }

  /** What the client sends, byte by byte. */
  lemma RegisterLayout(name: Bytes)
    requires |name| < 32768
    ensures var p, n := Pack(MRegister(name)), |name|;
            |p| == 3 + n && p[0] == 1 && p[1] == n / 256 && p[2] == n % 256 && p[3..] == name
  {
  }

  lemma SendLayout(text: Bytes)
    ensures var p, n := Pack(MSend(text)), Min(|text|, 4095);
            |p| == 3 + n && p[0] == 2 && p[1] == n / 256 && p[2] == n % 256 && p[3..] == text[..n]
  {
    assert Clamped(text) == text[..Min(|text|, 4095)];
  }

  lemma ReplyLayout(code: Byte)
    ensures Pack(MStatus(code)) == [4, code] && STATUS_GOOD == 0 && STATUS_ERROR == 1
  {
  }

  lemma UnsignedInverse(b: Bytes)
    requires |b| == 2
    ensures Unsigned16(b) < 65536 && Be16(Unsigned16(b)) == b
  {
  }

  lemma ServerFieldOnly(stream: Bytes, text: Bytes, rest: Bytes)
    ensures ServerField(stream) == (Some(text), rest) <==>
              1 <= |text| <= MAX_STR_LENGTH && stream == Field(text) + rest
  {
    hide Be16, Unsigned16;
    if ServerField(stream) == (Some(text), rest) {
      UnsignedInverse(stream[..2]);
      assert stream == stream[..2] + (text + rest);
    } else if 1 <= |text| <= MAX_STR_LENGTH && stream == Field(text) + rest {
      ServerReadsField(text, rest);
    }
  }

  /** What the server takes a stream for, in every state and for every stream: a field is read
      exactly when it is there in full, is not empty, is not too long and is admitted. */
  lemma ServerReadsOnly(stream: Bytes, status: Protocol.Status, text: Bytes, code: Byte, rest: Bytes)
    ensures var (m, left) := ServerRead(stream, status);
            && (m.NoData? <==> stream == [])
            && (m.Register? <==> stream != [] && stream[0] == 1)
            && (m.Send? <==> stream != [] && stream[0] == 2)
            && (m.Reply? <==> stream != [] && stream[0] == 4)
            && (m.Unknown? <==> stream != [] && stream[0] !in {1, 2, 4})
    ensures ServerRead(stream, status) == (Register(Some(text)), rest) <==>
              status.PreRegister? && 1 <= |text| <= MAX_STR_LENGTH && stream == [1] + (Field(text) + rest)
    ensures ServerRead(stream, status) == (Send(Some(text)), rest) <==>
              1 <= |text| <= MAX_STR_LENGTH && stream == [2] + (Field(text) + rest)
    ensures ServerRead(stream, status) == (Reply(Some(code)), rest) <==>
              status.PendingStatus? && stream == [4, code] + rest
  {
    hide Field, ServerField;
    if stream != [] {
      ServerFieldOnly(stream[1..], text, rest);
      assert stream == [stream[0]] + stream[1..];
      if 1 <= |stream[1..]| {
        assert stream == [stream[0], stream[1]] + stream[1..][1..];
      }
    }
  }

  function PackAll(ms: seq<ClientMsg>): Bytes
    requires forall i :: 0 <= i < |ms| ==> Sendable(ms[i])
  {
    if ms == [] then [] else Pack(ms[0]) + PackAll(ms[1..])
  }

  /** Reading one message in each of the given states. */
  function ServerReadAll(stream: Bytes, states: seq<Protocol.Status>): (seq<Incoming>, Bytes) {
    if states == [] then ([], stream)
    else
      var (m, rest) := ServerRead(stream, states[0]);
      var (ms, rest1) := ServerReadAll(rest, states[1..]);
      ([m] + ms, rest1)
  }

  /** Any sequence of client messages, packed and concatenated, is split back into the same
      sequence by the server's reads in states that admit them. */
  lemma {:induction false} ClientToServer(ms: seq<ClientMsg>, states: seq<Protocol.Status>, rest: Bytes)
    requires |ms| == |states|
    requires forall i :: 0 <= i < |ms| ==> Sendable(ms[i]) && Admitted(ms[i], states[i])
    ensures var (got, left) := ServerReadAll(PackAll(ms) + rest, states);
            left == rest && |got| == |ms| && forall i :: 0 <= i < |ms| ==> got[i] == Meaning(ms[i])
    decreases |ms|
  {
    hide Pack, ServerRead, Sendable, Admitted, Meaning;
    if ms == [] {
      assert PackAll(ms) + rest == rest;
    } else {
      var tail := PackAll(ms[1..]) + rest;
      assert PackAll(ms) + rest == Pack(ms[0]) + tail;
      ServerReadsMessage(ms[0], states[0], tail);
      ClientToServer(ms[1..], states[1..], rest);
    }
  }

  // ---- what the client shows -------------------------------------------------------------------

  /** replace('\\x00', ''), as the client does before it shows a text. */
  function StripNul(s: Bytes): Bytes {
    if s == [] then [] else (if s[0] == 0 then [] else [s[0]]) + StripNul(s[1..])
  }

  lemma {:induction false} StripNulNone(s: Bytes)
    requires forall k :: 0 <= k < |s| ==> s[k] != 0
    ensures StripNul(s + [0]) == s && StripNul(s) == s
  {
    if s == [] {
      assert s + [0] == [0] && [0][1..] == [];
    } else {
      assert (s + [0])[1..] == s[1..] + [0];
      StripNulNone(s[1..]);
    }
  }

  /** Concatenation and single bytes decide what stripping does to any text. */
  lemma {:induction false} StripNulConcat(a: Bytes, b: Bytes)
    ensures StripNul(a + b) == StripNul(a) + StripNul(b)
  {
    if a == [] {
      assert a + b == b;
    } else {
      assert (a + b)[1..] == a[1..] + b;
      StripNulConcat(a[1..], b);
    }
  }

  lemma StripNulByte(x: Byte)
    ensures StripNul([x]) == if x == 0 then [] else [x]
  {
    assert [x][1..] == [];
  }
}
