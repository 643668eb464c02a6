/** The list walk of rpchat_broadcast_msg, iteration by iteration. */
module BroadcastLoop {
  import opened Basics
  import opened Strings
  import opened Protocol
  import opened Chat

  /** No connection other than the sender is closing or in error. */
  ghost predicate Clear(s: Server, todo: seq<nat>, sender: nat)
    requires forall c :: c in todo ==> c in s.info
  {
    forall c :: c in todo && c != sender ==> !Bad(s.info[c].status)
  }

  /** One DELIVER for each listed connection other than the sender, in list order. */
  function Messages(todo: seq<nat>, sender: nat, id: nat, from: Bytes, text: Bytes): seq<Task> {
    if todo == [] then []
    else if todo[0] == sender then Messages(todo[1..], sender, id, from, text)
    else [Outbound(todo[0], DeliverMsg(Parcel(id, from, Sanitized(text, true))))]
         + Messages(todo[1..], sender, id + 1, from, text)
  }

  /** The connections the walk passes before the first one that is closing or in error. */
  function Passed(s: Server, todo: seq<nat>, sender: nat): (n: nat)
    requires forall c :: c in todo ==> c in s.info
    ensures n <= |todo|
  {
    if todo == [] || (todo[0] != sender && Bad(s.info[todo[0]].status)) then 0
    else 1 + Passed(s, todo[1..], sender)
  }

  lemma {:induction false} PassedAll(s: Server, todo: seq<nat>, sender: nat)
    requires forall c :: c in todo ==> c in s.info
    ensures Passed(s, todo, sender) == |todo| <==> Clear(s, todo, sender)
    ensures Passed(s, todo, sender) < |todo| ==>
              var b := todo[Passed(s, todo, sender)]; b != sender && Bad(s.info[b].status)
  {
    if todo == [] {
    } else {
      PassedAll(s, todo[1..], sender);
    }
  }

  lemma {:induction false} PassedSame(s: Server, s': Server, todo: seq<nat>, sender: nat)
    requires forall c :: c in todo ==> c in s.info && c in s'.info && s'.info[c].status == s.info[c].status
    ensures Passed(s', todo, sender) == Passed(s, todo, sender)
  {
    if todo == [] {
    } else {
      PassedSame(s, s', todo[1..], sender);
    }
  }

  /** The walk changes no connection's status. */
  lemma {:induction false} WalkStatus(s: Server, todo: seq<nat>, sender: nat, from: Bytes, text: Bytes, c: nat)
    requires c in s.info && forall d :: d in todo ==> d in s.info
    ensures Walk(s, todo, sender, from, text).info[c].status == s.info[c].status
    decreases |todo|
  {
    if todo != [] && todo[0] == sender {
      WalkStatus(s, todo[1..], sender, from, text, c);
    } else if todo != [] && !Bad(s.info[todo[0]].status) {
      WalkStatus(EnqueueDeliver(s, todo[0], from, text), todo[1..], sender, from, text, c);
    }
  }

  /** One iteration of the walk. */
  lemma WalkNext(s: Server, list: seq<nat>, i: nat, sender: nat, from: Bytes, text: Bytes)
    requires i <= |list| && forall c :: c in list ==> c in s.info
    ensures Walk(s, list[i..], sender, from, text) ==
              if i == |list| then s
              else if list[i] == sender then Walk(s, list[i + 1..], sender, from, text)
              else if Bad(s.info[list[i]].status) then s.(hung := true)
              else Walk(EnqueueDeliver(s, list[i], from, text), list[i + 1..], sender, from, text)
  {
    if i < |list| {
      assert list[i..][0] == list[i] && list[i..][1..] == list[i + 1..];
    }
  }

  /** The walk appends exactly the messages for the connections it passes, and hangs exactly
      when it does not pass them all. */
  lemma {:induction false} FanOut(s: Server, todo: seq<nat>, sender: nat, from: Bytes, text: Bytes)
    requires forall c :: c in todo ==> c in s.info
    ensures var r, n := Walk(s, todo, sender, from, text), Passed(s, todo, sender);
            && r.queue == s.queue + Messages(todo[..n], sender, s.nextId, from, text)
            && (r.hung <==> s.hung || n < |todo|)
    decreases |todo|
  {
    hide Sanitized, Passed, Messages, EnqueueDeliver, Walk;
    WalkNext(s, todo, 0, sender, from, text);
    assert todo[0..] == todo;
    assert Messages([], sender, s.nextId, from, text) == [] by { NoMessages(sender, s.nextId, from, text); }
    var n := Passed(s, todo, sender);
    PassedBound(s, todo, sender);
    if todo == [] {
    } else if todo[0] == sender {
      PassedOne(s, s, todo, sender);
      FanOut(s, todo[1..], sender, from, text);
      MessagesNext(todo, n, sender, s.nextId, from, text);
    } else if Bad(s.info[todo[0]].status) {
      PassedNone(s, todo, sender);
    } else {
      var s1 := EnqueueDeliver(s, todo[0], from, text);
      DeliverFrame(s, todo[0], from, text);
      PassedOne(s, s1, todo, sender);
      FanOut(s1, todo[1..], sender, from, text);
      MessagesNext(todo, n, sender, s.nextId, from, text);
      var rest := Messages(todo[1..][..n - 1], sender, s1.nextId, from, text);
      var m := Outbound(todo[0], DeliverMsg(Parcel(s.nextId, from, Sanitized(text, true))));
      assert s1.queue + rest == s.queue + ([m] + rest);
    }
  }

  lemma NoMessages(sender: nat, id: nat, from: Bytes, text: Bytes)
    ensures Messages([], sender, id, from, text) == []
  {
  }

  /** What queueing one DELIVER does. */
  lemma DeliverFrame(s: Server, c: nat, from: Bytes, text: Bytes)
    requires c in s.info
    ensures var r := EnqueueDeliver(s, c, from, text);
            && r.queue == s.queue + [Outbound(c, DeliverMsg(Parcel(s.nextId, from, Sanitized(text, true))))]
            && r.nextId == s.nextId + 1 && r.hung == s.hung && r.info.Keys == s.info.Keys
            && forall d :: d in s.info ==> r.info[d].status == s.info[d].status
  {
    hide Sanitized;
  }

  lemma PassedBound(s: Server, todo: seq<nat>, sender: nat)
    requires forall c :: c in todo ==> c in s.info
    ensures Passed(s, todo, sender) <= |todo|
  {
  }

  lemma PassedNone(s: Server, todo: seq<nat>, sender: nat)
    requires todo != [] && todo[0] != sender && todo[0] in s.info && Bad(s.info[todo[0]].status)
    requires forall c :: c in todo ==> c in s.info
    ensures Passed(s, todo, sender) == 0
  {
  }

  /** The messages for the first n connections: one for the first, unless it is the sender. */
  lemma MessagesNext(todo: seq<nat>, n: nat, sender: nat, id: nat, from: Bytes, text: Bytes)
    requires todo != [] && 0 < n <= |todo|
    ensures Messages(todo[..n], sender, id, from, text)
         == if todo[0] == sender then Messages(todo[1..][..n - 1], sender, id, from, text)
            else [Outbound(todo[0], DeliverMsg(Parcel(id, from, Sanitized(text, true))))]
                 + Messages(todo[1..][..n - 1], sender, id + 1, from, text)
  {
    assert todo[..n][0] == todo[0] && todo[..n][1..] == todo[1..][..n - 1];
  }

  lemma PassedOne(s: Server, s': Server, todo: seq<nat>, sender: nat)
    requires todo != [] && todo[0] in s.info && (todo[0] == sender || !Bad(s.info[todo[0]].status))
    requires forall c :: c in todo ==> c in s.info && c in s'.info && s'.info[c].status == s.info[c].status
    ensures Passed(s, todo, sender) == 1 + Passed(s', todo[1..], sender)
  {
    PassedSame(s, s', todo[1..], sender);
  }

  predicate Carries(t: Task, from: Bytes, text: Bytes) {
    t.Outbound? && t.msg.DeliverMsg? && t.msg.parcel.from == from && t.msg.parcel.text == text
  }

  /** The number of tasks of q that name c. */
  function Naming(q: seq<Task>, c: nat): nat {
    if q == [] then 0 else (if q[0].conn == c then 1 else 0) + Naming(q[1..], c)
  }

  /** Each connection of the list other than the sender gets one message, the sender none. */
  lemma {:induction false} OneEach(todo: seq<nat>, sender: nat, id: nat, from: Bytes, text: Bytes, c: nat)
    requires forall i, j :: 0 <= i < j < |todo| ==> todo[i] != todo[j]
    ensures Naming(Messages(todo, sender, id, from, text), c) == if c in todo && c != sender then 1 else 0
    decreases |todo|
  {
    if todo == [] {
    } else {
      var rest := todo[1..];
      assert forall i, j :: 0 <= i < j < |rest| ==> rest[i] == todo[i + 1] && rest[j] == todo[j + 1];
      assert todo[0] !in rest;
      if todo[0] == sender {
        OneEach(rest, sender, id, from, text, c);
      } else {
        OneEach(rest, sender, id + 1, from, text, c);
        var m := Outbound(todo[0], DeliverMsg(Parcel(id, from, Sanitized(text, true))));
        assert ([m] + Messages(rest, sender, id + 1, from, text))[1..] == Messages(rest, sender, id + 1, from, text);
      }
    }
  }

  // ---- the loop as written ---------------------------------------------------------------------

  /** The loop's state: the node it looks at and the server it has updated so far. */
  datatype Cursor = Cursor(node: nat, s: Server)

  /** One iteration: at a connection that is closing or in error, the node is not advanced. */
  function Iteration(w: Cursor, list: seq<nat>, sender: nat, from: Bytes, text: Bytes): (r: Cursor)
    requires forall c :: c in list ==> c in w.s.info
    requires w.node <= |list|
    ensures r.node <= |list| && r.s.info.Keys == w.s.info.Keys
  {
    if w.node == |list| then w
    else
      var c := list[w.node];
      if c == sender then w.(node := w.node + 1)
      else if Bad(w.s.info[c].status) then w
      else Cursor(w.node + 1, EnqueueDeliver(w.s, c, from, text))
  }

  function Iterations(k: nat, w: Cursor, list: seq<nat>, sender: nat, from: Bytes, text: Bytes): (r: Cursor)
    requires forall c :: c in list ==> c in w.s.info
    requires w.node <= |list|
    ensures r.node <= |list| && r.s.info.Keys == w.s.info.Keys
    decreases k
  {
    if k == 0 then w else Iterations(k - 1, Iteration(w, list, sender, from, text), list, sender, from, text)
  }

  /** A node the iteration does not leave is never left. */
  lemma {:induction false} Stays(k: nat, w: Cursor, list: seq<nat>, sender: nat, from: Bytes, text: Bytes)
    requires forall c :: c in list ==> c in w.s.info
    requires w.node <= |list|
    requires Iteration(w, list, sender, from, text) == w
    ensures Iterations(k, w, list, sender, from, text) == w
    decreases k
  {
    if k != 0 {
      Stays(k - 1, w, list, sender, from, text);
    }
  }

  /** After enough iterations the loop is where Walk says, for ever. */
  lemma {:induction false} LoopIsWalk(k: nat, w: Cursor, list: seq<nat>, sender: nat, from: Bytes, text: Bytes)
    requires forall c :: c in list ==> c in w.s.info
    requires w.node <= |list| && |list| - w.node <= k
    ensures var r := Iterations(k, w, list, sender, from, text);
            var todo := list[w.node..];
            && r.node == w.node + Passed(w.s, todo, sender)
            && Walk(w.s, todo, sender, from, text)
               == if r.node == |list| then r.s else r.s.(hung := true)
    decreases k
  {
    hide Walk, Passed, EnqueueDeliver;
    var todo := list[w.node..];
    WalkNext(w.s, list, w.node, sender, from, text);
    if w.node == |list| {
      PassedBound(w.s, todo, sender);
      Stays(k, w, list, sender, from, text);
    } else {
      var c := list[w.node];
      assert todo[0] == c && todo[1..] == list[w.node + 1..];
      var w1 := Iteration(w, list, sender, from, text);
      if c != sender && Bad(w.s.info[c].status) {
        PassedNone(w.s, todo, sender);
        Stays(k, w, list, sender, from, text);
      } else {
        DeliverFrame(w.s, c, from, text);
        LoopIsWalk(k - 1, w1, list, sender, from, text);
        PassedOne(w.s, w1.s, todo, sender);
      }
    }
  }

  /** The loop ends if and only if no connection other than the sender is closing or in
      error; otherwise it stays at the first such connection whatever the number of
      iterations. */
  lemma LoopEnds(s: Server, sender: nat, from: Bytes, text: Bytes)
    requires Listed(s)
    ensures (exists k: nat :: Iterations(k, Cursor(0, s), s.list, sender, from, text).node == |s.list|)
            <==> Clear(s, s.list, sender)
    ensures !Clear(s, s.list, sender) ==>
              forall k: nat :: |s.list| <= k ==>
                Iterations(k, Cursor(0, s), s.list, sender, from, text).node == Passed(s, s.list, sender)
  {
    var w := Cursor(0, s);
    assert s.list[0..] == s.list;
    PassedAll(s, s.list, sender);
    LoopIsWalk(|s.list|, w, s.list, sender, from, text);
    forall k: nat | |s.list| <= k
      ensures Iterations(k, w, s.list, sender, from, text).node == Passed(s, s.list, sender)
    {
      LoopIsWalk(k, w, s.list, sender, from, text);
    }
    if k: nat :| Iterations(k, w, s.list, sender, from, text).node == |s.list| {
      EndedStays(k, |s.list|, w, s.list, sender, from, text);
      LoopIsWalk(k + |s.list|, w, s.list, sender, from, text);
    }
  }

  /** A loop that has ended after k iterations has ended after k + n. */
  lemma {:induction false} EndedStays(k: nat, n: nat, w: Cursor, list: seq<nat>, sender: nat, from: Bytes, text: Bytes)
    requires forall c :: c in list ==> c in w.s.info
    requires w.node <= |list|
    requires Iterations(k, w, list, sender, from, text).node == |list|
    ensures Iterations(k + n, w, list, sender, from, text).node == |list|
    decreases k
  {
    if k == 0 {
      Stays(n, w, list, sender, from, text);
    } else {
      EndedStays(k - 1, n, Iteration(w, list, sender, from, text), list, sender, from, text);
    }
  }

  ghost predicate IsFan(sent: seq<Task>, list: seq<nat>, sender: nat, from: Bytes, text: Bytes) {
    && (forall t :: t in sent ==> Carries(t, from, text))
    && (forall c :: Naming(sent, c) == if c in list && c != sender then 1 else 0)
  }

  /** rpchat_broadcast_msg returns if and only if the list's mutex is free and no connection
      other than the sender is closing or in error; then every other listed connection has
      been queued one DELIVER with the sanitized text, and the sender none. */
  lemma BroadcastReturns(s: Server, sender: nat, from: Bytes, text: Bytes)
    requires Listed(s) && forall i, j :: 0 <= i < j < |s.list| ==> s.list[i] != s.list[j]
    ensures var r := Broadcast(s, sender, from, text);
            && (!r.hung <==> !s.hung && Clear(s, s.list, sender))
            && (forall c :: c in s.info ==> r.info[c].status == s.info[c].status)
            && (!r.hung ==>
                  exists sent: seq<Task> ::
                    r.queue == s.queue + sent && IsFan(sent, s.list, sender, from, Sanitized(text, true)))
  {
    if !s.hung {
      var clean := Sanitized(text, true);
      PassedAll(s, s.list, sender);
      FanOut(s, s.list, sender, from, clean);
      var r := Walk(s, s.list, sender, from, clean);
      forall c | c in s.info ensures r.info[c].status == s.info[c].status {
        WalkStatus(s, s.list, sender, from, clean, c);
      }
      if !r.hung {
        var sent := Messages(s.list, sender, s.nextId, from, clean);
        assert s.list[..|s.list|] == s.list;
        SanitizedTwice(text, true, true);
        SameText(s.list, sender, s.nextId, from, clean);
        forall c ensures Naming(sent, c) == if c in s.list && c != sender then 1 else 0 {
          OneEach(s.list, sender, s.nextId, from, clean, c);
        }
        assert r.queue == s.queue + sent;
      }
    }
  }

  lemma {:induction false} SameText(todo: seq<nat>, sender: nat, id: nat, from: Bytes, text: Bytes)
    ensures forall t :: t in Messages(todo, sender, id, from, text) ==> Carries(t, from, Sanitized(text, true))
    decreases |todo|
  {
    if todo == [] {
    } else {
      SameText(todo[1..], sender, if todo[0] == sender then id else id + 1, from, text);
    }
  }
}
