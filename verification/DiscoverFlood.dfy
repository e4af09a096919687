/** Flooding of discovery requests: each copy carries a depth, and a daemon handles a request id once.
    A network of daemons with fixed peer lists, as a transition system. */
module DiscoverFlood {
  import opened Collections
  import opened PyDict
  import opened EventLog
  import opened PeerLists

  datatype Wire =
    | Request(id: Key, replyTo: Option<Key>, depth: int)
    | Response(id: Key, envelopes: seq<Envelope>)

  /** `hops` counts the forwards behind a copy; it is no part of the message. */
  datatype Packet = Packet(from: Key, to: Key, wire: Wire, hops: nat)

  datatype NodeState = NodeState(seen: set<Key>, log: Log)

  datatype Effect = Effect(s: NodeState, out: seq<Packet>)

  /** The advertisements a daemon answers with: the latest it holds of each peer. */
  function AdsOf(log: Log): seq<Envelope> {
    LatestAdsAre(log);
    assert forall k :: k in LatestAds(log).keys ==> k in Elements(LatestAds(log).keys);
    Values(LatestAds(log))
  }

  function Reply(self: Key, log: Log, id: Key, replyTo: Option<Key>): seq<Packet> {
    if replyTo.Some? && replyTo.value != NO_KEY then [Packet(self, replyTo.value, Response(id, AdsOf(log)), 0)] else []
  }

  function Excluded(self: Key, from: Key, replyTo: Option<Key>): set<Key> {
    {self, from} + if replyTo.Some? then {replyTo.value} else {}
  }

  function Forwards(self: Key, targets: seq<Key>, w: Wire, hops: nat): (out: seq<Packet>)
    ensures |out| == |targets| && forall i :: 0 <= i < |targets| ==> out[i] == Packet(self, targets[i], w, hops)
  {
    seq(|targets|, i requires 0 <= i < |targets| => Packet(self, targets[i], w, hops))
  }

  /** The discover_request branch of handle_demo_message; `own` is the daemon's current advertisement. */
  ghost function OnRequest(self: Key, s: NodeState, peers: seq<Key>, p: Packet, own: Envelope): Effect
    requires p.wire.Request?
  {
    var w := p.wire;
    if w.id in s.seen then Effect(s, [])
    else
      var log := Appended(s.log, own);
      Effect(NodeState(s.seen + {w.id}, log), Reply(self, log, w.id, w.replyTo) + Copies(self, peers, p))
  }

  /** The discover_response branch: imports the envelopes when every one of them verifies. */
  ghost function OnResponse(valid: iset<Envelope>, s: NodeState, envelopes: seq<Envelope>): Effect {
    Effect(if forall e :: e in envelopes ==> e in valid then s.(log := Imported(s.log, envelopes)) else s, [])
  }

  // ---- the network ----

  datatype Asked = Asked(origin: Key, depth: int)

  /** `asked` records who asked under each request id, and how deep. */
  datatype Net = Net(
    valid: iset<Envelope>, nodes: map<Key, NodeState>, peers: Graph, flight: seq<Packet>, asked: map<Key, Asked>)

  datatype Action =
    | Ask(n: Key, depth: int, ids: seq<Key>, own: Envelope)
    | Deliver(at: nat, own: Envelope)
    | Lose(at: nat)

  ghost predicate WellFormed(net: Net) {
    && net.peers.Keys == net.nodes.Keys && NO_KEY !in net.nodes
    && forall n :: n in net.peers ==> NoDup(net.peers[n]) && n !in net.peers[n]
  }

  /** Every peer is asked under a request id of its own, never used before. */
  ghost predicate Enabled(net: Net, a: Action) {
    match a
    case Ask(n, _, ids, _) =>
      && n in net.nodes && n in net.peers && |ids| == |net.peers[n]| && NoDup(ids)
      && forall id :: id in ids ==> id !in net.asked
    case Deliver(i, _) => i < |net.flight| && net.flight[i].to in net.nodes && net.flight[i].to in net.peers
    case Lose(i) => i < |net.flight|
  }

  function Depth(asked: int): int {
    if asked > 1 then asked else 1
  }

  function Asks(self: Key, targets: seq<Key>, ids: seq<Key>, depth: int): (out: seq<Packet>)
    requires |ids| == |targets|
    ensures |out| == |targets|
    ensures forall i :: 0 <= i < |targets| ==> out[i] == Packet(self, targets[i], Request(ids[i], Some(self), depth), 0)
  {
    seq(|targets|, i requires 0 <= i < |targets| => Packet(self, targets[i], Request(ids[i], Some(self), depth), 0))
  }

  ghost function DeliverEffect(net: Net, i: nat, own: Envelope): Effect
    requires Enabled(net, Deliver(i, own))
  {
    var p := net.flight[i];
    match p.wire
    case Request(_, _, _) => OnRequest(p.to, net.nodes[p.to], net.peers[p.to], p, own)
    case Response(_, envelopes) => OnResponse(net.valid, net.nodes[p.to], envelopes)
  }

  ghost function NewPackets(net: Net, a: Action): seq<Packet>
    requires Enabled(net, a)
  {
    match a
    case Ask(n, depth, ids, _) => Asks(n, net.peers[n], ids, Depth(depth))
    case Deliver(i, own) => DeliverEffect(net, i, own).out
    case Lose(_) => []
  }

  ghost function Apply(net: Net, a: Action): Net
    requires Enabled(net, a)
  {
    match a
    case Ask(n, depth, ids, own) =>
      net.(nodes := net.nodes[n := net.nodes[n].(log := Appended(net.nodes[n].log, own))],
           flight := net.flight + NewPackets(net, a),
           asked := net.asked + map id | id in ids :: Asked(n, Depth(depth)))
    case Deliver(i, own) =>
      net.(nodes := net.nodes[net.flight[i].to := DeliverEffect(net, i, own).s],
           flight := RemoveAt(net.flight, i) + NewPackets(net, a))
    case Lose(i) => net.(flight := RemoveAt(net.flight, i))
  }

  ghost predicate Runs(net: Net, actions: seq<Action>, end: Net)
    decreases |actions|
  {
    if actions == [] then end == net
    else Enabled(net, actions[0]) && Runs(Apply(net, actions[0]), actions[1..], end)
  }

  ghost predicate Init(net: Net) {
    WellFormed(net) && net.flight == [] && net.asked == map[] && forall n :: n in net.nodes ==> net.nodes[n].seen == {}
  }

  // ---- what travels ----

  /** b is reached from a along exactly k edges. */
  ghost predicate ReachesIn(g: Graph, a: Key, b: Key, k: nat) {
    exists path :: PathTo(g, path, a, b) && |path| == k + 1
  }

  lemma ReachesInNext(g: Graph, a: Key, n: Key, k: nat, m: Key)
    requires ReachesIn(g, a, n, k) && n in g && m in g[n]
    ensures ReachesIn(g, a, m, k + 1)
  {
    var path :| PathTo(g, path, a, n) && |path| == k + 1;
    assert PathTo(g, path + [m], a, m);
  }

  lemma ReachesInOne(g: Graph, n: Key, m: Key)
    requires n in g && m in g[n]
    ensures ReachesIn(g, n, m, 1)
  {
    assert PathTo(g, [n, m], n, m) && |[n, m]| == 2;
  }

  /** A copy that has been forwarded k times carries depth D - k, never below 1, has come k + 1 edges from its
      originator, and is not addressed to it; answers go to the originator. */
  ghost predicate PacketOk(net: Net, p: Packet) {
    match p.wire
    case Request(id, replyTo, depth) =>
      && id in net.asked && replyTo == Some(net.asked[id].origin)
      && p.hops + depth == net.asked[id].depth && depth >= 1
      && p.to != net.asked[id].origin && p.to != p.from
      && p.from in net.peers && p.to in net.peers[p.from]
      && ReachesIn(net.peers, net.asked[id].origin, p.to, p.hops + 1)
    case Response(id, _) => id in net.asked && p.to == net.asked[id].origin
  }

  /** Whoever handled a request is not its originator and lies within its depth. */
  ghost predicate SeenOk(net: Net, n: Key, id: Key) {
    && id in net.asked && n != net.asked[id].origin
    && exists k :: 0 <= k <= net.asked[id].depth && ReachesIn(net.peers, net.asked[id].origin, n, k)
  }

  ghost predicate Sound(net: Net) {
    && WellFormed(net)
    && (forall id :: id in net.asked ==> net.asked[id].origin in net.nodes)
    && (forall p :: p in net.flight ==> PacketOk(net, p))
    && (forall n, id :: n in net.nodes && id in net.nodes[n].seen ==> SeenOk(net, n, id))
  }

  /** The step in which node n handles the request: answers it, and passes it on if it may. */
  ghost predicate Handles(net: Net, a: Action, n: Key, id: Key)
    requires Enabled(net, a)
  {
    && a.Deliver? && net.flight[a.at].to == n && net.flight[a.at].wire.Request? && net.flight[a.at].wire.id == id
    && id !in net.nodes[n].seen
  }

  lemma ForwardsAre(self: Key, targets: seq<Key>, w: Wire, hops: nat, p: Packet)
    ensures p in Forwards(self, targets, w, hops) <==>
              p.from == self && p.wire == w && p.hops == hops && p.to in targets
  {
    if p.from == self && p.wire == w && p.hops == hops && p.to in targets {
      var i :| 0 <= i < |targets| && targets[i] == p.to;
      assert Forwards(self, targets, w, hops)[i] == p;
    }
  }

  /** Handling a request sends one answer to whom it names, and, when the depth allows, one copy to each peer
      but the sender and whoever is to be answered. */
  lemma HandlingSends(self: Key, s: NodeState, peers: seq<Key>, q: Packet, own: Envelope, origin: Key, p: Packet)
    requires q.wire.Request? && q.wire.replyTo == Some(origin) && origin != NO_KEY && self !in peers
    ensures p in OnRequest(self, s, peers, q, own).out <==>
      && q.wire.id !in s.seen && p.from == self
      && (|| p == Packet(self, origin, Response(q.wire.id, AdsOf(Appended(s.log, own))), 0)
          || (q.wire.depth > 1 && p.wire == Request(q.wire.id, Some(origin), q.wire.depth - 1)
              && p.hops == q.hops + 1 && p.to in peers && p.to != q.from && p.to != origin))
  {
    if q.wire.id !in s.seen {
      var log := Appended(s.log, own);
      var reply, copies := Reply(self, log, q.wire.id, q.wire.replyTo), Copies(self, peers, q);
      assert OnRequest(self, s, peers, q, own).out == reply + copies;
      assert reply == [Packet(self, origin, Response(q.wire.id, AdsOf(log)), 0)];
      CopiesAre(self, peers, q, origin, p);
    }
  }

  /** A request that names nobody to answer is passed on all the same, to every peer but its sender. */
  lemma UnaddressedSends(self: Key, s: NodeState, peers: seq<Key>, q: Packet, own: Envelope, p: Packet)
    requires q.wire.Request? && (q.wire.replyTo == None || q.wire.replyTo == Some(NO_KEY)) && self !in peers
    requires NO_KEY !in peers
    ensures p in OnRequest(self, s, peers, q, own).out <==>
      && q.wire.id !in s.seen && p.from == self && q.wire.depth > 1 && p.hops == q.hops + 1
      && p.wire == Request(q.wire.id, q.wire.replyTo, q.wire.depth - 1) && p.to in peers && p.to != q.from
  {
    if q.wire.id !in s.seen {
      UnaddressedCopies(self, peers, q, p);
      assert OnRequest(self, s, peers, q, own).out == [] + Copies(self, peers, q);
    }
  }

  lemma UnaddressedCopies(self: Key, peers: seq<Key>, q: Packet, p: Packet)
    requires q.wire.Request? && (q.wire.replyTo == None || q.wire.replyTo == Some(NO_KEY))
    requires self !in peers && NO_KEY !in peers
    ensures p in Copies(self, peers, q) <==>
      && p.from == self && q.wire.depth > 1 && p.hops == q.hops + 1
      && p.wire == Request(q.wire.id, q.wire.replyTo, q.wire.depth - 1) && p.to in peers && p.to != q.from
  {
    var x := Excluded(self, q.from, q.wire.replyTo);
    WithoutKeeps(peers, x);
    ForwardsAre(self, Without(peers, x), Request(q.wire.id, q.wire.replyTo, q.wire.depth - 1), q.hops + 1, p);
  }

  function Copies(self: Key, peers: seq<Key>, q: Packet): seq<Packet>
    requires q.wire.Request?
  {
    if q.wire.depth > 1 then
      Forwards(self, Without(peers, Excluded(self, q.from, q.wire.replyTo)),
               Request(q.wire.id, q.wire.replyTo, q.wire.depth - 1), q.hops + 1)
    else []
  }

  lemma CopiesAre(self: Key, peers: seq<Key>, q: Packet, origin: Key, p: Packet)
    requires q.wire.Request? && q.wire.replyTo == Some(origin) && self !in peers
    ensures p in Copies(self, peers, q) <==>
      && q.wire.depth > 1 && p.from == self && p.wire == Request(q.wire.id, Some(origin), q.wire.depth - 1)
      && p.hops == q.hops + 1 && p.to in peers && p.to != q.from && p.to != origin
  {
    var x := Excluded(self, q.from, q.wire.replyTo);
    WithoutKeeps(peers, x);
    ForwardsAre(self, Without(peers, x), Request(q.wire.id, q.wire.replyTo, q.wire.depth - 1), q.hops + 1, p);
  }

  lemma NewPacketsAre(net: Net, a: Action, p: Packet)
    requires Sound(net) && Enabled(net, a) && a.Deliver?
    ensures p in NewPackets(net, a) ==>
              var q := net.flight[a.at];
              && q.wire.Request? && Handles(net, a, q.to, q.wire.id) && p.from == q.to && q.wire.id in net.asked
              && (var origin := net.asked[q.wire.id].origin;
                  || (p.wire.Response? && p.wire.id == q.wire.id && p.to == origin)
                  || (q.wire.depth > 1 && p.wire == Request(q.wire.id, Some(origin), q.wire.depth - 1)
                      && p.hops == q.hops + 1 && p.to in net.peers[q.to] && p.to != q.from && p.to != origin))
  {
    var q := net.flight[a.at];
    assert q in net.flight && PacketOk(net, q);
    if q.wire.Request? {
      HandlingSends(q.to, net.nodes[q.to], net.peers[q.to], q, a.own, net.asked[q.wire.id].origin, p);
    }
  }

  lemma FlightAfter(net: Net, a: Action, p: Packet)
    requires Enabled(net, a) && p in Apply(net, a).flight
    ensures p in net.flight || p in NewPackets(net, a)
  {
  }

  lemma AskedPacketOk(net: Net, a: Action, p: Packet)
    requires Sound(net) && Enabled(net, a) && a.Ask? && p in NewPackets(net, a)
    ensures PacketOk(Apply(net, a), p)
  {
    var i :| 0 <= i < |NewPackets(net, a)| && NewPackets(net, a)[i] == p;
    assert a.ids[i] in a.ids;
    ReachesInOne(net.peers, a.n, p.to);
  }

  lemma OldPacketOk(net: Net, a: Action, p: Packet)
    requires Enabled(net, a) && PacketOk(net, p)
    ensures PacketOk(Apply(net, a), p)
  {
  }

  lemma NewPacketOk(net: Net, a: Action, p: Packet)
    requires Sound(net) && Enabled(net, a) && a.Deliver? && p in NewPackets(net, a)
    ensures PacketOk(Apply(net, a), p)
  {
    NewPacketsAre(net, a, p);
    var q := net.flight[a.at];
    assert q in net.flight && PacketOk(net, q);
    if p.wire.Request? {
      ReachesInNext(net.peers, net.asked[q.wire.id].origin, q.to, q.hops + 1, p.to);
    }
  }

  lemma SeenAfter(net: Net, a: Action, n: Key, id: Key)
    requires Enabled(net, a) && n in net.nodes
    ensures n in Apply(net, a).nodes
    ensures id in Apply(net, a).nodes[n].seen <==> id in net.nodes[n].seen || Handles(net, a, n, id)
  {
  }

  lemma SoundStep(net: Net, a: Action)
    requires Sound(net) && Enabled(net, a)
    ensures Sound(Apply(net, a))
  {
    var next := Apply(net, a);
    assert next.nodes.Keys == net.nodes.Keys;
    forall p | p in next.flight
      ensures PacketOk(next, p)
    {
      FlightAfter(net, a, p);
      if p in net.flight {
        OldPacketOk(net, a, p);
      } else if a.Ask? {
        AskedPacketOk(net, a, p);
      } else {
        NewPacketOk(net, a, p);
      }
    }
    forall n, id | n in next.nodes && id in next.nodes[n].seen
      ensures SeenOk(next, n, id)
    {
      SeenAfter(net, a, n, id);
      if id in net.nodes[n].seen {
        assert SeenOk(net, n, id);
      } else {
        var q := net.flight[a.at];
        assert q in net.flight && PacketOk(net, q);
      }
    }
  }

  /** Over every run: the depth a copy carries and the forwards behind it always add up to the depth asked for,
      no copy is addressed to its originator, and only nodes within that depth ever handle the request. */
  lemma {:induction false} SoundAlways(net: Net, actions: seq<Action>, end: Net)
    requires Sound(net) && Runs(net, actions, end)
    ensures Sound(end)
    decreases |actions|
  {
    if actions == [] {
    } else {
      SoundStep(net, actions[0]);
      SoundAlways(Apply(net, actions[0]), actions[1..], end);
    }
  }

  lemma InitSound(net: Net)
    requires Init(net)
    ensures Sound(net)
  {
  }

  // ---- at most one answer ----

  ghost predicate IsAnswer(p: Packet, n: Key, id: Key) {
    p.from == n && p.wire.Response? && p.wire.id == id
  }

  ghost function AnswersIn(out: seq<Packet>, n: Key, id: Key): nat {
    if out == [] then 0
    else AnswersIn(out[..|out| - 1], n, id) + if IsAnswer(out[|out| - 1], n, id) then 1 else 0
  }

  /** The answers node n sends under this request id over a run. */
  ghost function AnswersSent(net: Net, actions: seq<Action>, end: Net, n: Key, id: Key): nat
    requires Runs(net, actions, end)
    decreases |actions|
  {
    if actions == [] then 0
    else AnswersIn(NewPackets(net, actions[0]), n, id) + AnswersSent(Apply(net, actions[0]), actions[1..], end, n, id)
  }

  lemma {:induction false} NoAnswers(out: seq<Packet>, n: Key, id: Key)
    requires forall p :: p in out ==> !IsAnswer(p, n, id)
    ensures AnswersIn(out, n, id) == 0
  {
    if out != [] {
      assert forall p :: p in out[..|out| - 1] ==> p in out;
      NoAnswers(out[..|out| - 1], n, id);
    }
  }

  lemma {:induction false} AnswersConcat(a: seq<Packet>, b: seq<Packet>, n: Key, id: Key)
    ensures AnswersIn(a + b, n, id) == AnswersIn(a, n, id) + AnswersIn(b, n, id)
  {
    if b == [] {
      assert a + b == a;
    } else {
      assert (a + b)[..|a + b| - 1] == a + b[..|b| - 1];
      AnswersConcat(a, b[..|b| - 1], n, id);
    }
  }

  lemma AnswersOfRequest(self: Key, s: NodeState, peers: seq<Key>, p: Packet, own: Envelope, n: Key, id: Key)
    requires p.wire.Request?
    ensures var out := OnRequest(self, s, peers, p, own).out;
            && AnswersIn(out, n, id) <= 1
            && (AnswersIn(out, n, id) == 1 <==>
                  self == n && p.wire.id == id && id !in s.seen && p.wire.replyTo.Some?
                      && p.wire.replyTo.value != NO_KEY)
  {
    var out := OnRequest(self, s, peers, p, own).out;
    if p.wire.id in s.seen {
    } else {
      var w := p.wire;
      var first := Reply(self, Appended(s.log, own), w.id, w.replyTo);
      var rest := out[|first|..];
      assert out == first + rest;
      NoAnswers(rest, n, id);
      AnswersConcat(first, rest, n, id);
      assert AnswersIn([], n, id) == 0;
      assert first != [] ==> first[..|first| - 1] == [];
    }
  }

  lemma AnswersOfStep(net: Net, a: Action, n: Key, id: Key)
    requires Sound(net) && Enabled(net, a) && n in net.nodes
    ensures AnswersIn(NewPackets(net, a), n, id) == if Handles(net, a, n, id) then 1 else 0
  {
    match a
    case Ask(_, _, _, _) => NoAnswers(NewPackets(net, a), n, id);
    case Deliver(i, own) =>
      var q := net.flight[i];
      assert q in net.flight && PacketOk(net, q);
      if q.wire.Request? {
        AnswersOfRequest(q.to, net.nodes[q.to], net.peers[q.to], q, own, n, id);
      }
    case Lose(_) =>
  }

  /** Over every run each node answers a request id at most once, and exactly once if it comes to handle it. */
  lemma {:induction false} AnsweredAtMostOnce(net: Net, actions: seq<Action>, end: Net, n: Key, id: Key)
    requires Sound(net) && Runs(net, actions, end) && n in net.nodes
    ensures n in end.nodes
    ensures AnswersSent(net, actions, end, n, id) ==
              if id in end.nodes[n].seen && id !in net.nodes[n].seen then 1 else 0
    ensures id in net.nodes[n].seen ==> id in end.nodes[n].seen
    decreases |actions|
  {
    if actions == [] {
    } else {
      var a, next := actions[0], Apply(net, actions[0]);
      SoundStep(net, a);
      SeenAfter(net, a, n, id);
      AnswersOfStep(net, a, n, id);
      AnsweredAtMostOnce(next, actions[1..], end, n, id);
    }
  }

  /** Starting from daemons that have seen nothing, the nodes that answer a request are those that handled it,
      each answers once, none is the originator, and all lie within the depth asked for. */
  lemma AnswersComeFromWithin(net: Net, actions: seq<Action>, end: Net, n: Key, id: Key)
    requires Init(net) && Runs(net, actions, end) && n in net.nodes && AnswersSent(net, actions, end, n, id) > 0
    ensures AnswersSent(net, actions, end, n, id) == 1
    ensures id in end.asked && n != end.asked[id].origin
    ensures exists k :: 0 <= k <= end.asked[id].depth && ReachesIn(end.peers, end.asked[id].origin, n, k)
  {
    InitSound(net);
    SoundAlways(net, actions, end);
    AnsweredAtMostOnce(net, actions, end, n, id);
    assert SeenOk(end, n, id);
  }

  /** A daemon's answer always lists an advertisement of its own. */
  lemma AnswerIncludesSelf(self: Key, log: Log, own: Envelope)
    requires IsAdOf(own, self) && (HasEvent(log, own.eventId) ==> own in log)
    ensures exists e :: e in AdsOf(Appended(log, own)) && IsAdOf(e, self)
  {
    var next := Appended(log, own);
    LatestAdsAre(next);
    assert own in next;
    var d := LatestAds(next);
    assert self in Elements(d.keys);
    var i :| 0 <= i < |d.keys| && d.keys[i] == self;
    assert AdsOf(next)[i] == d.at[self];
  }

  // ---- termination ----

  ghost function Unseen(net: Net): set<(Key, Key)> {
    set n, p | n in net.nodes && p in net.flight && p.wire.Request? && p.wire.id !in net.nodes[n].seen :: (n, p.wire.id)
  }

  ghost function Potential(net: Net, degree: nat): nat {
    (degree + 1) * |Unseen(net)| + |net.flight|
  }

  lemma UnseenShrinks(net: Net, a: Action)
    requires Sound(net) && Enabled(net, a) && !a.Ask?
    ensures |Unseen(Apply(net, a))| <= |Unseen(net)|
    ensures a.Deliver? && net.flight[a.at].wire.Request?
              && Handles(net, a, net.flight[a.at].to, net.flight[a.at].wire.id) ==>
              |Unseen(Apply(net, a))| < |Unseen(net)|
  {
    var next, q := Apply(net, a), net.flight[a.at];
    assert q in net.flight;
    forall pair | pair in Unseen(next)
      ensures pair in Unseen(net)
    {
      var p :| p in next.flight && p.wire.Request? && pair == (pair.0, p.wire.id);
      FlightAfter(net, a, p);
      SeenAfter(net, a, pair.0, pair.1);
      if p !in net.flight {
        NewPacketsAre(net, a, p);
      }
    }
    assert Unseen(next) <= Unseen(net);
    SubsetSize(Unseen(next), Unseen(net));
    if a.Deliver? && q.wire.Request? && Handles(net, a, q.to, q.wire.id) {
      var pair := (q.to, q.wire.id);
      assert pair in Unseen(net);
      SeenAfter(net, a, q.to, q.wire.id);
      assert pair !in Unseen(next);
      SubsetSize(Unseen(next), Unseen(net) - {pair});
    }
  }

  /** Handling a request sends at most one packet per peer, and one answer. */
  lemma OutputBounded(net: Net, a: Action, degree: nat)
    requires Enabled(net, a) && a.Deliver? && DegreeAtMost(net.peers, degree)
    ensures |NewPackets(net, a)| <= degree + 1
    ensures !(net.flight[a.at].wire.Request? && Handles(net, a, net.flight[a.at].to, net.flight[a.at].wire.id)) ==>
              NewPackets(net, a) == []
  {
    var q := net.flight[a.at];
    if q.wire.Request? {
      WithoutKeeps(net.peers[q.to], Excluded(q.to, q.from, q.wire.replyTo));
    }
  }

  /** Every delivery or loss lowers the potential. */
  lemma DeliveryLowersPotential(net: Net, a: Action, degree: nat)
    requires Sound(net) && DegreeAtMost(net.peers, degree) && Enabled(net, a) && !a.Ask?
    ensures Potential(Apply(net, a), degree) < Potential(net, degree)
  {
    UnseenShrinks(net, a);
    var fewer: nat := if |Unseen(Apply(net, a))| < |Unseen(net)| then 1 else 0;
    Scaled(degree + 1, |Unseen(Apply(net, a))|, fewer, |Unseen(net)|);
    if a.Deliver? {
      OutputBounded(net, a, degree);
    }
  }

  /** The flood terminates: no more packets can be delivered or lost than the potential says. */
  lemma {:induction false} DrainBound(net: Net, actions: seq<Action>, end: Net, degree: nat)
    requires Sound(net) && DegreeAtMost(net.peers, degree) && Runs(net, actions, end)
    requires forall a :: a in actions ==> !a.Ask?
    ensures |actions| + Potential(end, degree) <= Potential(net, degree)
    decreases |actions|
  {
    if actions == [] {
    } else {
      assert actions[0] in actions;
      DeliveryLowersPotential(net, actions[0], degree);
      SoundStep(net, actions[0]);
      DrainBound(Apply(net, actions[0]), actions[1..], end, degree);
    }
  }

  // ---- what depth does not promise ----

  /** A copy that comes the long way round uses up its depth; the one that comes the short way later is dropped as a
      repeat.  Who is who in the example: o asks s to depth 3; o -> s -> {x, y}, y -> x, x -> z. */
  datatype Cast = Cast(o: Key, s: Key, x: Key, y: Key, z: Key, id: Key, own: Envelope)

  ghost predicate Distinct(c: Cast) {
    && NO_KEY !in {c.o, c.s, c.x, c.y, c.z}
    && c.o != c.s && c.o != c.x && c.o != c.y && c.o != c.z && c.s != c.x && c.s != c.y && c.s != c.z
    && c.x != c.y && c.x != c.z && c.y != c.z
  }

  ghost function Diamond(c: Cast): Graph {
    map[c.o := [c.s], c.s := [c.x, c.y], c.x := [c.z], c.y := [c.x], c.z := []]
  }

  const IDLE := NodeState({}, [])

  ghost function Had(c: Cast): NodeState {
    NodeState({c.id}, Appended([], c.own))
  }

  ghost function Answer(c: Cast, from: Key): Packet {
    Packet(from, c.o, Response(c.id, AdsOf(Appended([], c.own))), 0)
  }

  ghost function Copy(c: Cast, from: Key, to: Key, hops: nat): Packet {
    Packet(from, to, Request(c.id, Some(c.o), 3 - hops), hops)
  }

  /** The network while these three nodes are in these states and these packets are in flight. */
  ghost function Stage(c: Cast, s: NodeState, x: NodeState, y: NodeState, flight: seq<Packet>): Net {
    Net(iset{}, map[c.o := NodeState({}, Appended([], c.own)), c.s := s, c.x := x, c.y := y, c.z := IDLE], Diamond(c),
        flight,
        map[c.id := Asked(c.o, 3)])
  }

  lemma WithoutOne(x: Key, excluded: set<Key>)
    ensures Without([x], excluded) == if x in excluded then [] else [x]
  {
    assert Without([], excluded) == [];
    assert [x][..0] == [];
  }

  lemma WithoutTwo(x: Key, y: Key, excluded: set<Key>)
    requires x !in excluded && y !in excluded
    ensures Without([x, y], excluded) == [x, y]
  {
    assert [x, y][..1] == [x];
    WithoutOne(x, excluded);
  }

  /** What s, y and x do when they first get the request. */
  lemma FirstHandling(c: Cast, from: Key, self: Key, peers: seq<Key>, hops: nat, passed: seq<Packet>)
    requires Distinct(c) && hops <= 2
    requires passed == if hops == 2 then [] else
               Forwards(self, Without(peers, Excluded(self, from, Some(c.o))), Request(c.id, Some(c.o), 2 - hops),
                   hops + 1)
    ensures OnRequest(self, IDLE, peers, Copy(c, from, self, hops), c.own) == Effect(Had(c), [Answer(c, self)] + passed)
  {
    var p := Copy(c, from, self, hops);
    assert {} + {c.id} == {c.id};
    FirstCopies(c, from, self, peers, hops, passed);
    assert Reply(self, Appended([], c.own), c.id, Some(c.o)) == [Answer(c, self)];
  }

  lemma FirstCopies(c: Cast, from: Key, self: Key, peers: seq<Key>, hops: nat, passed: seq<Packet>)
    requires hops <= 2
    requires passed == if hops == 2 then [] else
               Forwards(self, Without(peers, Excluded(self, from, Some(c.o))), Request(c.id, Some(c.o), 2 - hops),
                   hops + 1)
    ensures Copies(self, peers, Copy(c, from, self, hops)) == passed
  {
  }

  lemma SHandles(c: Cast)
    requires Distinct(c)
    ensures OnRequest(c.s, IDLE, [c.x, c.y], Copy(c, c.o, c.s, 0), c.own)
            == Effect(Had(c), [Answer(c, c.s), Copy(c, c.s, c.x, 1), Copy(c, c.s, c.y, 1)])
  {
    WithoutTwo(c.x, c.y, Excluded(c.s, c.o, Some(c.o)));
    FirstHandling(c, c.o, c.s, [c.x, c.y], 0, [Copy(c, c.s, c.x, 1), Copy(c, c.s, c.y, 1)]);
    assert [Answer(c, c.s)] + [Copy(c, c.s, c.x, 1), Copy(c, c.s, c.y, 1)]
           == [Answer(c, c.s), Copy(c, c.s, c.x, 1), Copy(c, c.s, c.y, 1)];
  }

  lemma YHandles(c: Cast)
    requires Distinct(c)
    ensures OnRequest(c.y, IDLE, [c.x], Copy(c, c.s, c.y, 1), c.own)
            == Effect(Had(c), [Answer(c, c.y), Copy(c, c.y, c.x, 2)])
  {
    WithoutOne(c.x, Excluded(c.y, c.s, Some(c.o)));
    FirstHandling(c, c.s, c.y, [c.x], 1, [Copy(c, c.y, c.x, 2)]);
    assert [Answer(c, c.y)] + [Copy(c, c.y, c.x, 2)] == [Answer(c, c.y), Copy(c, c.y, c.x, 2)];
  }

  lemma DeliverIs(net: Net, i: nat, own: Envelope, peers: seq<Key>, e: Effect, flight: seq<Packet>)
    requires i < |net.flight| && net.flight[i].wire.Request?
    requires var p := net.flight[i];
             && p.to in net.nodes && p.to in net.peers && net.peers[p.to] == peers
             && OnRequest(p.to, net.nodes[p.to], peers, p, own) == e
    requires flight == RemoveAt(net.flight, i) + e.out
    ensures Runs(net, [Deliver(i, own)], net.(nodes := net.nodes[net.flight[i].to := e.s], flight := flight))
  {
    assert [Deliver(i, own)][1..] == [];
  }

  lemma StageCells(c: Cast, s: NodeState, x: NodeState, y: NodeState, flight: seq<Packet>)
    requires Distinct(c)
    ensures var net := Stage(c, s, x, y, flight);
            && c.s in net.nodes && c.x in net.nodes && c.y in net.nodes
            && net.nodes[c.s] == s && net.nodes[c.x] == x && net.nodes[c.y] == y
  {
  }

  lemma DiamondIs(c: Cast)
    requires Distinct(c)
    ensures c.s in Diamond(c) && c.x in Diamond(c) && c.y in Diamond(c)
    ensures Diamond(c)[c.s] == [c.x, c.y] && Diamond(c)[c.x] == [c.z] && Diamond(c)[c.y] == [c.x]
  {
  }

  /** Taking one packet out and putting others at the end, for the flights of the example. */
  lemma Flights<T>(a: T, b: T, c: T, d: T, e: T)
    ensures RemoveAt([a, b, c], 2) + [d, e] == [a, b, d, e]
    ensures RemoveAt([a, b, c, d], 3) + [e] == [a, b, c, e]
    ensures RemoveAt([a, b, c, d], 1) + [] == [a, c, d]
  {
  }

  lemma OneTaken<T>(f: seq<T>, g: seq<T>)
    requires |f| == 1
    ensures g == RemoveAt(f, 0) + g
  {
  }

  lemma StageNodes(c: Cast, s: NodeState, x: NodeState, y: NodeState, flight: seq<Packet>, now: NodeState,
          to: seq<Packet>)
    requires Distinct(c)
    ensures Stage(c, s, x, y, flight).(nodes := Stage(c, s, x, y, flight).nodes[c.s := now], flight := to)
              == Stage(c, now, x, y, to)
    ensures Stage(c, s, x, y, flight).(nodes := Stage(c, s, x, y, flight).nodes[c.x := now], flight := to)
              == Stage(c, s, now, y, to)
    ensures Stage(c, s, x, y, flight).(nodes := Stage(c, s, x, y, flight).nodes[c.y := now], flight := to)
              == Stage(c, s, x, now, to)
  {
  }

  lemma {:induction false} RunsJoin(net: Net, first: seq<Action>, mid: Net, second: seq<Action>, end: Net)
    requires Runs(net, first, mid) && Runs(mid, second, end)
    ensures Runs(net, first + second, end)
    decreases |first|
  {
    if first == [] {
      assert first + second == second;
    } else {
      RunsJoin(Apply(net, first[0]), first[1..], mid, second, end);
      assert (first + second)[1..] == first[1..] + second;
    }
  }

  lemma AskedAndHandled(c: Cast)
    requires Distinct(c)
    ensures Runs(Stage(c, IDLE, IDLE, IDLE, [Copy(c, c.o, c.s, 0)]), [Deliver(0, c.own)],
                 Stage(c, Had(c), IDLE, IDLE, [Answer(c, c.s), Copy(c, c.s, c.x, 1), Copy(c, c.s, c.y, 1)]))
  {
    var f, g := [Copy(c, c.o, c.s, 0)], [Answer(c, c.s), Copy(c, c.s, c.x, 1), Copy(c, c.s, c.y, 1)];
    var net := Stage(c, IDLE, IDLE, IDLE, f);
    SHandles(c);
    OneTaken(f, g);
    StageCells(c, IDLE, IDLE, IDLE, f);
    DiamondIs(c);
    DeliverIs(net, 0, c.own, [c.x, c.y], Effect(Had(c), g), g);
    StageNodes(c, IDLE, IDLE, IDLE, f, Had(c), g);
  }

  lemma LongWayFirst(c: Cast)
    requires Distinct(c)
    ensures Runs(Stage(c, Had(c), IDLE, IDLE, [Answer(c, c.s), Copy(c, c.s, c.x, 1), Copy(c, c.s, c.y, 1)]),
              [Deliver(2, c.own)],
                 Stage(c, Had(c), IDLE, Had(c),
                     [Answer(c, c.s), Copy(c, c.s, c.x, 1), Answer(c, c.y), Copy(c, c.y, c.x, 2)]))
  {
    var f := [Answer(c, c.s), Copy(c, c.s, c.x, 1), Copy(c, c.s, c.y, 1)];
    var g := [Answer(c, c.s), Copy(c, c.s, c.x, 1), Answer(c, c.y), Copy(c, c.y, c.x, 2)];
    var net := Stage(c, Had(c), IDLE, IDLE, f);
    YHandles(c);
    Flights(f[0], f[1], f[2], g[2], g[3]);
    StageCells(c, Had(c), IDLE, IDLE, f);
    DiamondIs(c);
    DeliverIs(net, 2, c.own, [c.x], Effect(Had(c), [g[2], g[3]]), g);
    StageNodes(c, Had(c), IDLE, IDLE, f, Had(c), g);
  }

  lemma XHandles(c: Cast)
    requires Distinct(c)
    ensures OnRequest(c.x, IDLE, [c.z], Copy(c, c.y, c.x, 2), c.own) == Effect(Had(c), [Answer(c, c.x)])
  {
    FirstHandling(c, c.y, c.x, [c.z], 2, []);
    assert [Answer(c, c.x)] + [] == [Answer(c, c.x)];
  }

  lemma DepthUsedUp(c: Cast)
    requires Distinct(c)
    ensures Runs(Stage(c, Had(c), IDLE, Had(c),
              [Answer(c, c.s), Copy(c, c.s, c.x, 1), Answer(c, c.y), Copy(c, c.y, c.x, 2)]),
                 [Deliver(3, c.own)],
                 Stage(c, Had(c), Had(c), Had(c),
                     [Answer(c, c.s), Copy(c, c.s, c.x, 1), Answer(c, c.y), Answer(c, c.x)]))
  {
    var f := [Answer(c, c.s), Copy(c, c.s, c.x, 1), Answer(c, c.y), Copy(c, c.y, c.x, 2)];
    var g := [Answer(c, c.s), Copy(c, c.s, c.x, 1), Answer(c, c.y), Answer(c, c.x)];
    var net := Stage(c, Had(c), IDLE, Had(c), f);
    XHandles(c);
    Flights(f[0], f[1], f[2], f[3], g[3]);
    StageCells(c, Had(c), IDLE, Had(c), f);
    DiamondIs(c);
    DeliverIs(net, 3, c.own, [c.z], Effect(Had(c), [g[3]]), g);
    StageNodes(c, Had(c), IDLE, Had(c), f, Had(c), g);
  }

  lemma ShortWayDropped(c: Cast)
    requires Distinct(c)
    ensures Runs(Stage(c, Had(c), Had(c), Had(c),
              [Answer(c, c.s), Copy(c, c.s, c.x, 1), Answer(c, c.y), Answer(c, c.x)]),
                 [Deliver(1, c.own)],
                 Stage(c, Had(c), Had(c), Had(c), [Answer(c, c.s), Answer(c, c.y), Answer(c, c.x)]))
  {
    var f := [Answer(c, c.s), Copy(c, c.s, c.x, 1), Answer(c, c.y), Answer(c, c.x)];
    var g := [Answer(c, c.s), Answer(c, c.y), Answer(c, c.x)];
    var net := Stage(c, Had(c), Had(c), Had(c), f);
    Flights(f[0], f[1], f[2], f[3], f[0]);
    StageCells(c, Had(c), Had(c), Had(c), f);
    DiamondIs(c);
    DeliverIs(net, 1, c.own, [c.z], Effect(Had(c), []), g);
    StageNodes(c, Had(c), Had(c), Had(c), f, Had(c), g);
  }

  ghost function Quiet(c: Cast): Net {
    Net(iset{}, map[c.o := IDLE, c.s := IDLE, c.x := IDLE, c.y := IDLE, c.z := IDLE], Diamond(c), [], map[])
  }

  lemma QuietIsInit(c: Cast)
    requires Distinct(c)
    ensures Init(Quiet(c)) && ReachesIn(Diamond(c), c.o, c.z, 3)
  {
    assert PathTo(Diamond(c), [c.o, c.s, c.x, c.z], c.o, c.z);
  }

  lemma AskIs(c: Cast)
    requires Distinct(c)
    ensures Runs(Quiet(c), [Ask(c.o, 3, [c.id], c.own)], Stage(c, IDLE, IDLE, IDLE, [Copy(c, c.o, c.s, 0)]))
  {
    var a, net := Ask(c.o, 3, [c.id], c.own), Quiet(c);
    assert Asks(c.o, [c.s], [c.id], 3) == [Copy(c, c.o, c.s, 0)];
    assert (map id | id in a.ids :: Asked(c.o, 3)) == map[c.id := Asked(c.o, 3)];
    AskedNodes(c);
    assert net.flight + NewPackets(net, a) == [Copy(c, c.o, c.s, 0)];
    AskRuns(net, a, [Copy(c, c.o, c.s, 0)], map[c.id := Asked(c.o, 3)]);
  }

  lemma AskRuns(net: Net, a: Action, sent: seq<Packet>, asked: map<Key, Asked>)
    requires Enabled(net, a) && a.Ask? && net.flight + NewPackets(net, a) == sent
    requires net.asked + (map id | id in a.ids :: Asked(a.n, Depth(a.depth))) == asked
    ensures Runs(net, [a],
                 net.(nodes := net.nodes[a.n := net.nodes[a.n].(log := Appended(net.nodes[a.n].log, a.own))],
                      flight := sent, asked := asked))
  {
    assert [a][1..] == [];
  }

  lemma AskedNodes(c: Cast)
    requires Distinct(c)
    ensures c.o in Quiet(c).nodes && c.o in Diamond(c) && Quiet(c).nodes[c.o] == IDLE && Diamond(c)[c.o] == [c.s]
    ensures Quiet(c).nodes[c.o := NodeState({}, Appended([], c.own))] == Stage(c, IDLE, IDLE, IDLE, []).nodes
  {
  }

  ghost function Ended(c: Cast): Net {
    Stage(c, Had(c), Had(c), Had(c), [Answer(c, c.s), Answer(c, c.y), Answer(c, c.x)])
  }

  lemma EndedIs(c: Cast)
    requires Distinct(c)
    ensures Ended(c).asked == map[c.id := Asked(c.o, 3)] && c.z in Ended(c).nodes && Ended(c).nodes[c.z] == IDLE
    ensures forall p :: p in Ended(c).flight ==> !p.wire.Request?
  {
  }

  lemma LongWayRuns(c: Cast) returns (actions: seq<Action>)
    requires Distinct(c)
    ensures Runs(Quiet(c), actions, Ended(c))
    ensures actions != [] && actions[0] == Ask(c.o, 3, [c.id], c.own) && forall a :: a in actions ==> !a.Lose?
  {
    AskIs(c);
    AskedAndHandled(c);
    LongWayFirst(c);
    DepthUsedUp(c);
    ShortWayDropped(c);
    actions := RunsOfFive(
      Ask(c.o, 3, [c.id], c.own), Deliver(0, c.own), Deliver(2, c.own), Deliver(3, c.own), Deliver(1, c.own), Quiet(c),
      Stage(c, IDLE, IDLE, IDLE, [Copy(c, c.o, c.s, 0)]),
      Stage(c, Had(c), IDLE, IDLE, [Answer(c, c.s), Copy(c, c.s, c.x, 1), Copy(c, c.s, c.y, 1)]),
      Stage(c, Had(c), IDLE, Had(c), [Answer(c, c.s), Copy(c, c.s, c.x, 1), Answer(c, c.y), Copy(c, c.y, c.x, 2)]),
      Stage(c, Had(c), Had(c), Had(c), [Answer(c, c.s), Copy(c, c.s, c.x, 1), Answer(c, c.y), Answer(c, c.x)]),
      Ended(c));
  }

  lemma RunsOfTwo(a0: Action, a1: Action, n0: Net, n1: Net, n2: Net)
    requires Runs(n0, [a0], n1) && Runs(n1, [a1], n2)
    ensures Runs(n0, [a0, a1], n2)
  {
    RunsJoin(n0, [a0], n1, [a1], n2);
    assert [a0] + [a1] == [a0, a1];
  }

  lemma RunsOfThree(a0: Action, a1: Action, a2: Action, n0: Net, n1: Net, n2: Net, n3: Net)
    requires Runs(n0, [a0], n1) && Runs(n1, [a1], n2) && Runs(n2, [a2], n3)
    ensures Runs(n0, [a0, a1, a2], n3)
  {
    RunsOfTwo(a0, a1, n0, n1, n2);
    RunsJoin(n0, [a0, a1], n2, [a2], n3);
    assert [a0, a1] + [a2] == [a0, a1, a2];
  }

  lemma RunsOfFive(a0: Action, a1: Action, a2: Action, a3: Action, a4: Action,
                   n0: Net, n1: Net, n2: Net, n3: Net, n4: Net, n5: Net) returns (actions: seq<Action>)
    requires Runs(n0, [a0], n1) && Runs(n1, [a1], n2) && Runs(n2, [a2], n3) && Runs(n3, [a3], n4) && Runs(n4, [a4], n5)
    ensures actions == [a0, a1, a2, a3, a4] && Runs(n0, actions, n5)
  {
    RunsOfThree(a0, a1, a2, n0, n1, n2, n3);
    RunsOfTwo(a3, a4, n3, n4, n5);
    RunsJoin(n0, [a0, a1, a2], n3, [a3, a4], n5);
    actions := [a0, a1, a2] + [a3, a4];
  }
}
