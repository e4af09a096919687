/** The read loop of a node's TCP listener: every message recovered from a connection goes to the first stream
    that accepts it or, when none does, to the receive queue. */
module Listener {
  import opened Collections
  import opened Framing
  import opened ReceiveQueue

  /** What forwarding a message gives: an error, no response, or bytes to send back. */
  datatype Reply = Failed | Nothing | Respond(bytes: Bytes)

  /** A registered stream; what it accepts and what its backend answers are parameters of the model. */
  datatype Stream = Stream(id: string, accepts: Bytes -> bool, forward: (Bytes, string) -> Reply)

  datatype Call = Call(stream: nat, data: Bytes)

  /** The first stream, from position i on, that accepts the message. */
  function ClaimedBy(streams: seq<Stream>, data: Bytes, i: nat := 0): Option<nat>
    decreases |streams| - i
  {
    if i >= |streams| then None
    else if streams[i].accepts(data) then Some(i)
    else ClaimedBy(streams, data, i + 1)
  }

  /** The forwards made for these messages, in order. */
  function Calls(streams: seq<Stream>, ms: seq<Bytes>): seq<Call> {
    if ms == [] then []
    else
      var m := ms[|ms| - 1];
      var claim := ClaimedBy(streams, m);
      Calls(streams, ms[..|ms| - 1]) + if claim.Some? then [Call(claim.value, m)] else []
  }

  /** The messages queued, in order. */
  function Queued(streams: seq<Stream>, from: string, ms: seq<Bytes>): seq<ReceivedMessage> {
    if ms == [] then []
    else
      var m := ms[|ms| - 1];
      Queued(streams, from, ms[..|ms| - 1]) + if ClaimedBy(streams, m).None? then [ReceivedMessage(from, m)] else []
  }

  function ResponseTo(streams: seq<Stream>, from: string, m: Bytes): Bytes {
    var claim := ClaimedBy(streams, m);
    ClaimedByIs(streams, m, 0);
    if claim.None? then []
    else
      var reply := streams[claim.value].forward(m, from);
      if reply.Respond? then Frame(reply.bytes) else []
  }

  /** The framed responses, in order. */
  function Responses(streams: seq<Stream>, from: string, ms: seq<Bytes>): Bytes {
    if ms == [] then []
    else Responses(streams, from, ms[..|ms| - 1]) + ResponseTo(streams, from, ms[|ms| - 1])
  }

  lemma {:induction false} ClaimedByIs(streams: seq<Stream>, data: Bytes, i: nat)
    ensures ClaimedBy(streams, data, i).None? <==> forall j :: i <= j < |streams| ==> !streams[j].accepts(data)
    ensures ClaimedBy(streams, data, i).Some? ==>
              var k := ClaimedBy(streams, data, i).value;
              i <= k < |streams| && streams[k].accepts(data) && forall j :: i <= j < k ==> !streams[j].accepts(data)
    decreases |streams| - i
  {
    if i < |streams| && !streams[i].accepts(data) {
      ClaimedByIs(streams, data, i + 1);
    }
  }

  // ---- where each message goes ----

  lemma {:induction false} DispatchPrefix(streams: seq<Stream>, from: string, ms: seq<Bytes>, k: nat)
    requires k <= |ms|
    ensures Calls(streams, ms[..k]) <= Calls(streams, ms) && Queued(streams, from, ms[..k]) <= Queued(streams, from, ms)
    decreases |ms|
  {
    if k == |ms| {
      assert ms[..k] == ms;
    } else {
      var init := ms[..|ms| - 1];
      DispatchPrefix(streams, from, init, k);
      assert init[..k] == ms[..k];
    }
  }

  lemma {:induction false} DispatchCounts(streams: seq<Stream>, from: string, ms: seq<Bytes>)
    ensures |Calls(streams, ms)| + |Queued(streams, from, ms)| == |ms|
  {
    if ms != [] {
      DispatchCounts(streams, from, ms[..|ms| - 1]);
    }
  }

  /** The k-th message goes to exactly one place, in its turn: to the first stream that accepts it as the next
      forward, or to the queue as its next item when no stream accepts it. */
  lemma DispatchedInTurn(streams: seq<Stream>, from: string, ms: seq<Bytes>, k: nat)
    requires k < |ms|
    ensures |Calls(streams, ms)| + |Queued(streams, from, ms)| == |ms|
    ensures var n := |Calls(streams, ms[..k])|;
            if forall j :: 0 <= j < |streams| ==> !streams[j].accepts(ms[k])
            then 0 <= k - n < |Queued(streams, from, ms)|
                && Queued(streams, from, ms)[k - n] == ReceivedMessage(from, ms[k])
            else && n < |Calls(streams, ms)|
                 && var c := Calls(streams, ms)[n];
                 && c.data == ms[k] && c.stream < |streams| && streams[c.stream].accepts(ms[k])
                 && forall j :: 0 <= j < c.stream ==> !streams[j].accepts(ms[k])
  {
    DispatchCounts(streams, from, ms);
    DispatchCounts(streams, from, ms[..k]);
    ClaimedByIs(streams, ms[k], 0);
    NextPlace(streams, from, ms, k);
  }

  /** Replies go out in turn: after those to the first k messages come, framed, the bytes that the first stream to
      accept the next one answers with, or nothing when it answers none, fails, or no stream accepts it. */
  lemma RespondedInTurn(streams: seq<Stream>, from: string, ms: seq<Bytes>, k: nat, i: nat)
    requires k < |ms| && i <= |streams| && forall j :: 0 <= j < i ==> !streams[j].accepts(ms[k])
    requires i < |streams| ==> streams[i].accepts(ms[k])
    ensures Responses(streams, from, ms[..k + 1])
              == Responses(streams, from, ms[..k]) +
                 if i < |streams| && streams[i].forward(ms[k], from).Respond?
                 then Frame(streams[i].forward(ms[k], from).bytes)
                 else []
    ensures Responses(streams, from, ms[..k + 1]) <= Responses(streams, from, ms) && Responses(streams, from, []) == []
  {
    ResponseIs(streams, from, ms[k], i);
    assert ms[..k + 1] == ms[..k] + [ms[k]];
    OneMore(streams, from, ms[..k], ms[k]);
    ResponsesPrefix(streams, from, ms, k + 1);
  }

  lemma ResponseIs(streams: seq<Stream>, from: string, m: Bytes, i: nat)
    requires i <= |streams| && forall j :: 0 <= j < i ==> !streams[j].accepts(m)
    requires i < |streams| ==> streams[i].accepts(m)
    ensures ResponseTo(streams, from, m) ==
            if i < |streams| && streams[i].forward(m, from).Respond? then Frame(streams[i].forward(m, from).bytes)
            else []
  {
    ClaimedByIs(streams, m, 0);
  }

  lemma {:induction false} ResponsesPrefix(streams: seq<Stream>, from: string, ms: seq<Bytes>, k: nat)
    requires k <= |ms|
    ensures Responses(streams, from, ms[..k]) <= Responses(streams, from, ms)
    decreases |ms|
  {
    if k == |ms| {
      assert ms[..k] == ms;
    } else {
      ResponsesPrefix(streams, from, ms[..|ms| - 1], k);
      assert ms[..|ms| - 1][..k] == ms[..k];
    }
  }

  lemma PrefixAt<T>(a: seq<T>, x: T, c: seq<T>)
    requires a + [x] <= c
    ensures |a| < |c| && c[|a|] == x
  {
    assert (a + [x])[|a|] == x;
  }

  lemma NextPlace(streams: seq<Stream>, from: string, ms: seq<Bytes>, k: nat)
    requires k < |ms|
    ensures var calls, queued, claim := Calls(streams, ms[..k]), Queued(streams, from, ms[..k]),
              ClaimedBy(streams, ms[k]);
            if claim.None?
            then |queued| < |Queued(streams, from, ms)|
                && Queued(streams, from, ms)[|queued|] == ReceivedMessage(from, ms[k])
            else |calls| < |Calls(streams, ms)| && Calls(streams, ms)[|calls|] == Call(claim.value, ms[k])
  {
    var claim := ClaimedBy(streams, ms[k]);
    DispatchPrefix(streams, from, ms, k + 1);
    assert ms[..k + 1] == ms[..k] + [ms[k]];
    OneMore(streams, from, ms[..k], ms[k]);
    JustOne(streams, from, ms[k]);
    if claim.None? {
      PrefixAt(Queued(streams, from, ms[..k]), ReceivedMessage(from, ms[k]), Queued(streams, from, ms));
    } else {
      PrefixAt(Calls(streams, ms[..k]), Call(claim.value, ms[k]), Calls(streams, ms));
    }
  }

  lemma JustOne(streams: seq<Stream>, from: string, m: Bytes)
    ensures var claim := ClaimedBy(streams, m);
            && Calls(streams, [m]) == (if claim.Some? then [Call(claim.value, m)] else [])
            && Queued(streams, from, [m]) == if claim.None? then [ReceivedMessage(from, m)] else []
  {
    assert [m][..0] == [];
  }

  /** What a listener does with the frames a peer sent, when the connection breaks after n bytes: exactly what it
      would do with the messages whose frames arrived whole. */
  lemma ReceiverGetsWholeFrames(streams: seq<Stream>, from: string, max: nat, ms: seq<Bytes>, n: nat)
    requires max < WORD && Within(max, ms) && n <= |Frames(ms)|
    ensures var got := Messages(max, Frames(ms)[..n]);
            && got == ms[..Whole(ms, n)] && |got| <= |ms|
            && Calls(streams, got) <= Calls(streams, ms) && Queued(streams, from, got) <= Queued(streams, from, ms)
            && (n == |Frames(ms)| ==> got == ms)
  {
    PrefixDecodes(max, ms, n);
    DispatchPrefix(streams, from, ms, Whole(ms, n));
    if n == |Frames(ms)| {
      assert Frames(ms)[..n] == Frames(ms) + [];
      DecodeComplete(max, ms, []);
    }
  }

  // ---- sharing the queue ----

  /** An operation on the shared queue, by this connection or by another goroutine. */
  datatype Turn = Mine(op: Op) | Theirs(op: Op)

  function Ops(turns: seq<Turn>): (ops: seq<Op>)
    ensures |ops| == |turns| && forall i :: 0 <= i < |turns| ==> ops[i] == turns[i].op
  {
    seq(|turns|, i requires 0 <= i < |turns| => turns[i].op)
  }

  /** This connection's operations, in order. */
  function Own(turns: seq<Turn>): seq<Op> {
    if turns == [] then []
    else Own(turns[..|turns| - 1]) + if turns[|turns| - 1].Mine? then [turns[|turns| - 1].op] else []
  }

  lemma {:induction false} OwnConcat(a: seq<Turn>, b: seq<Turn>)
    ensures Own(a + b) == Own(a) + Own(b)
  {
    if b == [] {
      assert a + b == a;
    } else {
      assert (a + b)[..|a + b| - 1] == a + b[..|b| - 1];
      OwnConcat(a, b[..|b| - 1]);
    }
  }

  lemma OpsConcat(a: seq<Turn>, b: seq<Turn>)
    ensures Ops(a + b) == Ops(a) + Ops(b)
  {
  }

  lemma {:induction false} StepsConcat(capacity: nat, h: History, a: seq<Op>, b: seq<Op>)
    ensures Steps(capacity, h, a + b) == Steps(capacity, Steps(capacity, h, a), b)
    decreases |b|
  {
    if b == [] {
      assert a + b == a;
    } else {
      assert (a + b)[..|a + b| - 1] == a + b[..|b| - 1];
      StepsConcat(capacity, h, a, b[..|b| - 1]);
    }
  }

  /** The queue went through these turns, and these operations were this connection's. */
  ghost predicate Shared(capacity: nat, h0: History, h: History, turns: seq<Turn>, own: seq<Op>) {
    h == Steps(capacity, h0, Ops(turns)) && Own(turns) == own
  }

  lemma SharedJoin(capacity: nat, h0: History, h1: History, h2: History, a: seq<Turn>, x: seq<Op>, b: seq<Turn>,
          y: seq<Op>)
    requires Shared(capacity, h0, h1, a, x) && Shared(capacity, h1, h2, b, y)
    ensures Shared(capacity, h0, h2, a + b, x + y)
  {
    OwnConcat(a, b);
    OpsConcat(a, b);
    StepsConcat(capacity, h0, Ops(a), Ops(b));
  }

  lemma SharedNone(capacity: nat, h: History)
    ensures Shared(capacity, h, h, [], [])
  {
    assert Ops([]) == [];
  }

  lemma SharedOne(capacity: nat, h: History, t: Turn)
    ensures Shared(capacity, h, Step(capacity, h, t.op), [t], if t.Mine? then [t.op] else [])
  {
    assert [t][..0] == [] && Ops([t]) == [t.op] && [t.op][..0] == [];
    assert Steps(capacity, h, []) == h && Own([]) == [];
  }

  /** Other goroutines push, pop and reset as they please. */
  method OtherGoroutines(queue: ReceivedQueue) returns (ghost turns: seq<Turn>)
    requires queue.Valid()
    modifies queue
    ensures queue.Valid() && Shared(queue.capacity, old(queue.history), queue.history, turns, [])
  {
    turns := [];
    SharedNone(queue.capacity, queue.history);
    var n: int := *;
    while 0 < n
      invariant queue.Valid() && Shared(queue.capacity, old(queue.history), queue.history, turns, [])
    {
      n := n - 1;
      ghost var before := queue.history;
      ghost var t;
      if {
        case true =>
          var msg: ReceivedMessage := *;
          queue.Push(msg);
          t := Theirs(Push(msg));
        case true =>
          var _ := queue.Pop();
          t := Theirs(Pop);
        case true =>
          queue.Reset();
          t := Theirs(Reset);
      }
      SharedOne(queue.capacity, before, t);
      ghost var none: seq<Op> := [];
      SharedJoin(queue.capacity, old(queue.history), before, queue.history, turns, none, [t], none);
      assert none + none == none;
      turns := turns + [t];
    }
  }

  // ---- the loop ----

  /** What is left of a connection's budget once `written` was put on it. */
  function Remaining(budget: nat, written: Bytes): nat {
    if |written| <= budget then budget - |written| else 0
  }

  lemma TakeMore(a: Bytes, b: Bytes, budget: nat)
    ensures PyTake(a, budget) + PyTake(b, Remaining(budget, a)) == PyTake(a + b, budget)
    ensures Remaining(Remaining(budget, a), b) == Remaining(budget, a + b)
  {
  }

  /** Offers a message to the streams in turn; the first that accepts it forwards it and may answer. */
  method Offer(conn: Conn, streams: seq<Stream>, from: string, data: Bytes) returns (calls: seq<Call>)
    modifies conn`outgoing, conn`budget
    ensures calls == Calls(streams, [data])
    ensures conn.outgoing == old(conn.outgoing) + PyTake(ResponseTo(streams, from, data), old(conn.budget))
    ensures conn.budget == Remaining(old(conn.budget), ResponseTo(streams, from, data))
  {
    JustOne(streams, from, data);
    for i := 0 to |streams|
      invariant ClaimedBy(streams, data) == ClaimedBy(streams, data, i)
      invariant conn.outgoing == old(conn.outgoing) && conn.budget == old(conn.budget)
    {
      if streams[i].accepts(data) {
        var reply := streams[i].forward(data, from);
        if reply.Respond? {
          var _ := WriteLengthPrefixed(conn, reply.bytes);
        }
        return [Call(i, data)];
      }
    }
    return [];
  }

  /** One message: offered to the streams in turn, else queued, whatever others do with the queue first. */
  method Dispatch(conn: Conn, streams: seq<Stream>, queue: ReceivedQueue, from: string, data: Bytes)
    returns (calls: seq<Call>, ghost turns: seq<Turn>)
    requires queue.Valid()
    modifies conn`outgoing, conn`budget, queue
    ensures queue.Valid()
    ensures calls == Calls(streams, [data])
    ensures Shared(queue.capacity, old(queue.history), queue.history, turns, Pushes(Queued(streams, from, [data])))
    ensures conn.outgoing == old(conn.outgoing) + PyTake(ResponseTo(streams, from, data), old(conn.budget))
    ensures conn.budget == Remaining(old(conn.budget), ResponseTo(streams, from, data))
  {
    calls := Offer(conn, streams, from, data);
    turns := OtherGoroutines(queue);
    JustOne(streams, from, data);
    if calls == [] {
      ghost var before, msg := queue.history, ReceivedMessage(from, data);
      queue.Push(ReceivedMessage(from, data));
      OwnPush(queue.capacity, old(queue.history), before, turns, msg);
      turns := turns + [Mine(Push(msg))];
    } else {
      assert Pushes([]) == [];
    }
  }

  lemma OwnPush(capacity: nat, h0: History, h: History, turns: seq<Turn>, msg: ReceivedMessage)
    requires Shared(capacity, h0, h, turns, [])
    ensures Shared(capacity, h0, Step(capacity, h, Push(msg)), turns + [Mine(Push(msg))], Pushes([msg]))
  {
    SharedOne(capacity, h, Mine(Push(msg)));
    SharedJoin(capacity, h0, h, Step(capacity, h, Push(msg)), turns, [], [Mine(Push(msg))], [Push(msg)]);
    assert Pushes([msg]) == [] + [Push(msg)];
  }

  lemma OneMore(streams: seq<Stream>, from: string, ms: seq<Bytes>, m: Bytes)
    ensures Calls(streams, ms + [m]) == Calls(streams, ms) + Calls(streams, [m])
    ensures Queued(streams, from, ms + [m]) == Queued(streams, from, ms) + Queued(streams, from, [m])
    ensures Responses(streams, from, ms + [m]) == Responses(streams, from, ms) + ResponseTo(streams, from, m)
  {
    assert (ms + [m])[..|ms|] == ms && [m][..0] == [];
    assert Calls(streams, []) == [] && Queued(streams, from, []) == [];
  }

  lemma PushesConcat(a: seq<ReceivedMessage>, b: seq<ReceivedMessage>)
    ensures Pushes(a + b) == Pushes(a) + Pushes(b)
  {
  }

  /** What answering `ms` has put on a connection that had written `out0` and would take `budget0` more bytes. */
  ghost predicate Replied(streams: seq<Stream>, from: string, out0: Bytes, budget0: nat, ms: seq<Bytes>, out: Bytes,
          budget: nat) {
    && out == out0 + PyTake(Responses(streams, from, ms), budget0)
    && budget == Remaining(budget0, Responses(streams, from, ms))
  }

  lemma RepliedNext(streams: seq<Stream>, from: string, out0: Bytes, budget0: nat, ms: seq<Bytes>, out: Bytes,
          budget: nat, m: Bytes)
    requires Replied(streams, from, out0, budget0, ms, out, budget)
    ensures Replied(streams, from, out0, budget0, ms + [m], out + PyTake(ResponseTo(streams, from, m), budget),
                    Remaining(budget, ResponseTo(streams, from, m)))
  {
    OneMore(streams, from, ms, m);
    TakeAfter(out0, Responses(streams, from, ms), ResponseTo(streams, from, m), budget0);
  }

  lemma TakeAfter(out0: Bytes, a: Bytes, b: Bytes, budget: nat)
    ensures out0 + PyTake(a, budget) + PyTake(b, Remaining(budget, a)) == out0 + PyTake(a + b, budget)
    ensures Remaining(Remaining(budget, a), b) == Remaining(budget, a + b)
  {
    TakeMore(a, b, budget);
    Associate(out0, PyTake(a, budget), PyTake(b, Remaining(budget, a)));
  }

  lemma Associate<T>(a: seq<T>, b: seq<T>, c: seq<T>)
    ensures a + b + c == a + (b + c)
  {
  }

  lemma RepliedNone(streams: seq<Stream>, from: string, out0: Bytes, budget0: nat)
    ensures Replied(streams, from, out0, budget0, [], out0, budget0)
  {
    assert out0 + [] == out0;
  }

  lemma SharedNext(streams: seq<Stream>, from: string, capacity: nat, h0: History, h1: History, h2: History,
                   a: seq<Turn>, b: seq<Turn>, ms: seq<Bytes>, m: Bytes)
    requires Shared(capacity, h0, h1, a, Pushes(Queued(streams, from, ms)))
    requires Shared(capacity, h1, h2, b, Pushes(Queued(streams, from, [m])))
    ensures Shared(capacity, h0, h2, a + b, Pushes(Queued(streams, from, ms + [m])))
  {
    OneMore(streams, from, ms, m);
    PushesConcat(Queued(streams, from, ms), Queued(streams, from, [m]));
    SharedJoin(capacity, h0, h1, h2, a, Pushes(Queued(streams, from, ms)), b, Pushes(Queued(streams, from, [m])));
  }

  lemma Regroup<T>(a: seq<T>, b: T, c: seq<T>)
    ensures a + ([b] + c) == a + [b] + c
  {
  }

  lemma MessagesStep(max: nat, stream: Bytes, seen: seq<Bytes>)
    ensures var r := Read(max, stream);
            seen + Messages(max, stream) == if r.Message? then seen + [r.data] + Messages(max, r.rest) else seen
  {
    var r := Read(max, stream);
    if r.Message? {
      Regroup(seen, r.data, Messages(max, r.rest));
    } else {
      assert seen + [] == seen;
    }
  }

  /** What handling the messages `ms` of a connection has done so far. */
  ghost predicate Handled(streams: seq<Stream>, from: string, capacity: nat, h0: History, out0: Bytes, budget0: nat,
          ms: seq<Bytes>, calls: seq<Call>, turns: seq<Turn>, h: History, out: Bytes, budget: nat) {
    && calls == Calls(streams, ms) && Shared(capacity, h0, h, turns, Pushes(Queued(streams, from, ms)))
    && Replied(streams, from, out0, budget0, ms, out, budget)
  }

  lemma HandledNext(streams: seq<Stream>, from: string, capacity: nat, h0: History, out0: Bytes, budget0: nat,
                    ms: seq<Bytes>, calls: seq<Call>, turns: seq<Turn>, h: History, out: Bytes, budget: nat, m: Bytes,
                    made: seq<Call>, ran: seq<Turn>, h': History)
    requires Handled(streams, from, capacity, h0, out0, budget0, ms, calls, turns, h, out, budget)
    requires made == Calls(streams, [m]) && Shared(capacity, h, h', ran, Pushes(Queued(streams, from, [m])))
    ensures Handled(streams, from, capacity, h0, out0, budget0, ms + [m], calls + made, turns + ran, h',
                    out + PyTake(ResponseTo(streams, from, m), budget),
                    Remaining(budget, ResponseTo(streams, from, m)))
  {
    RepliedNext(streams, from, out0, budget0, ms, out, budget, m);
    SharedNext(streams, from, capacity, h0, h, h', turns, ran, ms, m);
    OneMore(streams, from, ms, m);
  }

  lemma HandledNone(streams: seq<Stream>, from: string, capacity: nat, h: History, out: Bytes, budget: nat)
    ensures Handled(streams, from, capacity, h, out, budget, [], [], [], h, out, budget)
  {
    SharedNone(capacity, h);
    RepliedNone(streams, from, out, budget);
    assert Pushes([]) == [];
  }

  /** One more message of a connection, after those handled so far. */
  method DispatchNext(conn: Conn, streams: seq<Stream>, queue: ReceivedQueue, from: string, data: Bytes,
                      ghost h0: History, ghost out0: Bytes, ghost budget0: nat, ghost seen: seq<Bytes>,
                      ghost calls: seq<Call>, ghost turns: seq<Turn>)
    returns (made: seq<Call>, ghost ran: seq<Turn>)
    requires queue.Valid()
    requires Handled(streams, from, queue.capacity, h0, out0, budget0, seen, calls, turns, queue.history, conn.outgoing,
                     conn.budget)
    modifies conn`outgoing, conn`budget, queue
    ensures queue.Valid()
    ensures Handled(streams, from, queue.capacity, h0, out0, budget0, seen + [data], calls + made, turns + ran,
                    queue.history, conn.outgoing, conn.budget)
  {
    ghost var before, out, budget := queue.history, conn.outgoing, conn.budget;
    made, ran := Dispatch(conn, streams, queue, from, data);
    HandledNext(streams, from, queue.capacity, h0, out0, budget0, seen, calls, turns, before, out, budget, data, made,
                ran, queue.history);
  }

  /** handleTCPConn: reads frames until the connection ends or sends a length over the limit, and dispatches each,
      while other goroutines use the queue.  A response that cannot be sent is given up; the loop goes on. */
  method HandleTCPConn(conn: Conn, streams: seq<Stream>, queue: ReceivedQueue, from: string, max: nat)
    returns (calls: seq<Call>, ghost turns: seq<Turn>)
    requires queue.Valid()
    modifies conn, queue
    ensures queue.Valid()
    ensures var ms := Messages(max, old(conn.incoming));
            && calls == Calls(streams, ms)
            && Shared(queue.capacity, old(queue.history), queue.history, turns, Pushes(Queued(streams, from, ms)))
            && Replied(streams, from, old(conn.outgoing), old(conn.budget), ms, conn.outgoing, conn.budget)
  {
    calls, turns := [], [];
    ghost var seen: seq<Bytes> := [];
    ghost var h0, out0, budget0 := queue.history, conn.outgoing, conn.budget;
    HandledNone(streams, from, queue.capacity, h0, out0, budget0);
    assert [] + Messages(max, conn.incoming) == Messages(max, conn.incoming);
    var open := true;
    while open
      invariant queue.Valid()
      invariant Handled(streams, from, queue.capacity, h0, out0, budget0, seen, calls, turns, queue.history,
                        conn.outgoing, conn.budget)
      invariant Messages(max, old(conn.incoming)) == if open then seen + Messages(max, conn.incoming) else seen
      decreases open, |conn.incoming|
    {
      MessagesStep(max, conn.incoming, seen);
      var r := ReadLengthPrefixed(conn, max);
      if r.Message? {
        var made;
        ghost var ran;
        made, ran := DispatchNext(conn, streams, queue, from, r.data, h0, out0, budget0, seen, calls, turns);
        calls, turns := calls + made, turns + ran;
        seen := seen + [r.data];
      } else {
        open := false;
      }
    }
  }
}
