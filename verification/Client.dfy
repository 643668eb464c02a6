/** The protocol half of the client (scripts/client.py): reading frames off the socket,
    acknowledging DELIVERs and following the client's state. */
module Client {
  import opened Basics
  import opened Strings
  import opened Protocol
  import opened Codec

  datatype ClientState = Setup | Ready | AwaitingStatus | Shutdown

  /** A line on the screen. */
  datatype Line = Chat(from: Bytes, text: Bytes) | StatusText(text: Bytes) | NegativeStatus

  /** What a frame puts on the screen. */
  function Lines(f: Frame): seq<Line> {
    match f
    case Deliver(from, text) => [Chat(StripNul(from), StripNul(text))]
    case Status(code, text) =>
      (if code != 0 then [NegativeStatus] else []) + (if text != [] then [StatusText(text)] else [])
  }

  /** A status shows a notice if and only if its code is not 0, and then its text if and only if it
      has one; a DELIVER shows as one line of chat. */
  lemma LinesShown(code: Byte, text: Bytes, from: Bytes)
    ensures var lines := Lines(Status(code, text));
            && (NegativeStatus in lines <==> code != 0)
            && (forall x :: StatusText(x) in lines <==> x == text && text != [])
            && (forall x, y :: Chat(x, y) !in lines)
            && |lines| <= 2 && (|lines| == 2 ==> lines[0] == NegativeStatus)
    ensures Lines(Deliver(from, text)) == [Chat(StripNul(from), StripNul(text))]
  {
  }

  class BcpClient {
    var inbox: Bytes          // what the server has sent and the client has not read
    var outbox: Bytes         // what the client has sent
    var state: ClientState
    var returnCode: Byte
    var screen: seq<Line>

    constructor (inbox: Bytes)
      ensures this.inbox == inbox && outbox == [] && state.Setup? && returnCode == 0 && screen == []
    {
      this.inbox := inbox;
      outbox, state, returnCode, screen := [], Setup, 0, [];
    }

    /** sock.recv(n): None for a negative or short read, which leaves the stream unusable. */
    method Recv(n: int) returns (data: Option<Bytes>)
      modifies `inbox
      ensures match ClientRecv(old(inbox), n)
              case None => data == None && inbox == old(inbox)
              case Some((got, rest)) => data == Some(got) && inbox == rest
    {
      if 0 <= n <= |inbox| {
        data := Some(inbox[..n]);
        inbox := inbox[n..];
      } else {
        data := None;
      }
    }

    method RecvField() returns (data: Option<Bytes>)
      modifies `inbox
      ensures match ClientField(old(inbox))
              case None => data == None
              case Some((got, rest)) => data == Some(got) && inbox == rest
    {
      data := Recv(2);
      if data.Some? {
        data := Recv(Signed16(data.value));
      }
    }

    /** handle_deliver */
    method HandleDeliver() returns (ok: bool)
      modifies `inbox, `screen
      ensures ok <==> ClientRead([OP_DELIVER] + old(inbox)).Some?
      ensures ok ==> var (f, rest) := ClientRead([OP_DELIVER] + old(inbox)).value;
                     && f.Deliver? && inbox == rest && screen == old(screen) + Lines(f)
      ensures !ok ==> screen == old(screen)
    {
      ghost var whole := [OP_DELIVER] + inbox;
      assert whole[..1] == [OP_DELIVER] && whole[1..] == inbox;
      ok := false;
      var from := RecvField();
      if from.None? { return; }
      var text := RecvField();
      if text.None? { return; }
      screen := screen + [Chat(StripNul(from.value), StripNul(text.value))];
      ok := true;
    }

    /** handle_stat */
    method HandleStat() returns (ok: bool)
      modifies `inbox, `screen, `returnCode, `state
      ensures ok <==> ClientRead([OP_STATUS] + old(inbox)).Some?
      ensures ok ==> var (f, rest) := ClientRead([OP_STATUS] + old(inbox)).value;
                     && f.Status? && inbox == rest && returnCode == f.code && state.Ready?
                     && screen == old(screen) + Lines(f)
      ensures !ok ==> returnCode == old(returnCode) && state == old(state) && screen == old(screen)
    {
      ghost var whole := [OP_STATUS] + inbox;
      assert whole[..1] == [OP_STATUS] && whole[1..] == inbox;
      ok := false;
      var head := Recv(3);
      if head.None? { return; }
      var code, n := head.value[0], Signed16(head.value[1..3]);
      var text: Bytes := [];
      if n > 0 {
        var body := Recv(n);
        if body.None? { return; }
        text := body.value;
      }
      returnCode := code;
      if code != 0 {
        screen := screen + [NegativeStatus];
      }
      if text != [] {
        screen := screen + [StatusText(text)];
      }
      state := Ready;
      ok := true;
    }

    /** handle_incoming_msg: a DELIVER is acknowledged with a status, 0 when it was read and 1
        when it was not; a STATUS is not acknowledged. */
    method HandleIncoming() returns (ok: bool)
      requires inbox != []
      modifies this
      ensures ok <==> ClientRead(old(inbox)).Some?
      ensures old(inbox)[0] == OP_DELIVER ==>
                outbox == old(outbox) + Pack(MStatus(if ok then STATUS_GOOD else STATUS_ERROR))
      ensures old(inbox)[0] != OP_DELIVER ==> outbox == old(outbox)
      ensures ok ==> var (f, rest) := ClientRead(old(inbox)).value;
                     && inbox == rest && screen == old(screen) + Lines(f)
                     && (if f.Status? then state.Ready? && returnCode == f.code
                         else state == old(state) && returnCode == old(returnCode))
      ensures !ok ==> screen == old(screen) && state == old(state) && returnCode == old(returnCode)
    {
      ghost var whole := inbox;
      var op := inbox[0];
      inbox := inbox[1..];
      assert whole == [op] + inbox && whole[..1] == [op];
      if op == OP_STATUS {
        ok := HandleStat();
      } else if op == OP_DELIVER {
        ok := HandleDeliver();
        outbox := outbox + Pack(MStatus(if ok then STATUS_GOOD else STATUS_ERROR));
      } else {
        ok := false;
      }
    }

    /** The same, on a stream that starts with a whole server frame. */
    method HandleFrame(ghost f: Frame, ghost rest: Bytes)
      requires Packable(f) && inbox == Encode(f) + rest
      modifies this
      ensures inbox == rest && outbox == old(outbox) + Answer(f) && screen == old(screen) + Lines(f)
      ensures returnCode == if f.Status? then f.code else old(returnCode)
      ensures state == if f.Status? then Ready else old(state)
    {
      ClientReadsFrame(f, rest);
      OpcodeFirst(f, rest);
      hide ClientRead, Encode, Lines;
      var ok := HandleIncoming();
    }

    /** The receiving loop on a stream of whole server frames: every frame is read and shown,
        every DELIVER is acknowledged with one GOOD status, in order, the last STATUS decides
        the return code, and any STATUS makes the client ready. */
    method HandleAll(ghost frames: seq<Frame>, n: nat)
      requires n == |frames| && forall i :: 0 <= i < |frames| ==> Packable(frames[i])
      requires inbox == EncodeAll(frames)
      modifies this
      ensures inbox == []
      ensures outbox == old(outbox) + Acknowledgements(frames)
      ensures screen == old(screen) + AllLines(frames)
      ensures returnCode == LastCode(frames, old(returnCode))
      ensures state == LastState(frames, old(state))
    {
      var i := 0;
      FramesEnds(frames, returnCode, state);
      hide Packable, Encode, EncodeAll, Lines, Answer, Acknowledgements, AllLines, LastCode, LastState;
      while i < n
        invariant 0 <= i <= n
        invariant inbox == EncodeAll(frames[i..])
        invariant outbox == old(outbox) + Acknowledgements(frames[..i])
        invariant screen == old(screen) + AllLines(frames[..i])
        invariant returnCode == LastCode(frames[..i], old(returnCode))
        invariant state == LastState(frames[..i], old(state))
      {
        FramesNext(frames, i);
        LastNext(frames, i, old(returnCode), old(state));
        HandleFrame(frames[i], EncodeAll(frames[i + 1..]));
        i := i + 1;
      }
    }
  }

  /** A DELIVER is answered with one GOOD status, a STATUS with nothing. */
  function Answer(f: Frame): Bytes {
    if f.Deliver? then Pack(MStatus(STATUS_GOOD)) else []
  }

  function Acknowledgements(frames: seq<Frame>): Bytes {
    if frames == [] then [] else Acknowledgements(frames[..|frames| - 1]) + Answer(frames[|frames| - 1])
  }

  function AllLines(frames: seq<Frame>): seq<Line> {
    if frames == [] then [] else AllLines(frames[..|frames| - 1]) + Lines(frames[|frames| - 1])
  }

  /** The code of the last STATUS, or the given one if there is none. */
  function LastCode(frames: seq<Frame>, before: Byte): Byte {
    if frames == [] then before
    else if frames[|frames| - 1].Status? then frames[|frames| - 1].code
    else LastCode(frames[..|frames| - 1], before)
  }

  lemma OpcodeFirst(f: Frame, rest: Bytes)
    requires Packable(f)
    ensures var s := Encode(f) + rest; s != [] && s[0] == if f.Deliver? then OP_DELIVER else OP_STATUS
  {
  }

  function LastState(frames: seq<Frame>, before: ClientState): ClientState {
    if frames == [] then before
    else if frames[|frames| - 1].Status? then Ready
    else LastState(frames[..|frames| - 1], before)
  }

  lemma FramesEnds(frames: seq<Frame>, before: Byte, state: ClientState)
    ensures frames[0..] == frames && frames[..|frames|] == frames && EncodeAll(frames[|frames|..]) == []
    ensures Acknowledgements(frames[..0]) == [] && AllLines(frames[..0]) == []
    ensures LastCode(frames[..0], before) == before && LastState(frames[..0], state) == state
  {
  }

  lemma FramesNext(frames: seq<Frame>, i: nat)
    requires i < |frames| && forall k :: 0 <= k < |frames| ==> Packable(frames[k])
    ensures EncodeAll(frames[i..]) == Encode(frames[i]) + EncodeAll(frames[i + 1..])
    ensures Acknowledgements(frames[..i + 1]) == Acknowledgements(frames[..i]) + Answer(frames[i])
    ensures AllLines(frames[..i + 1]) == AllLines(frames[..i]) + Lines(frames[i])
  {
    hide Encode, Answer, Lines, Packable;
    assert frames[..i + 1][..i] == frames[..i] && frames[..i + 1] != [];
    assert frames[i..][0] == frames[i] && frames[i..][1..] == frames[i + 1..];
  }

  lemma LastNext(frames: seq<Frame>, i: nat, before: Byte, state: ClientState)
    requires i < |frames|
    ensures LastCode(frames[..i + 1], before)
         == if frames[i].Status? then frames[i].code else LastCode(frames[..i], before)
    ensures LastState(frames[..i + 1], state)
         == if frames[i].Status? then Ready else LastState(frames[..i], state)
  {
    assert frames[..i + 1][..i] == frames[..i];
  }

  /** The server takes the acknowledgement as the GOOD reply it waits for. */
  lemma AcknowledgementAccepted(rest: Bytes)
    ensures ServerRead(Pack(MStatus(STATUS_GOOD)) + rest, PendingStatus) == (Reply(Some(STATUS_GOOD)), rest)
  {
    ServerReadsMessage(MStatus(STATUS_GOOD), PendingStatus, rest);
  }
}
