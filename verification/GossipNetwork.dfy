/** A network of GossipSub nodes as a transition system: node states, the packets in flight (any of which
    may be delivered or lost next) and a record of the past.  Integrity is kept by every action. */
module GossipNetwork {
  import opened Collections
  import opened MessageIds
  import opened GossipNode
  import opened GossipSteps

  /** What was published under a message id, as the origin's serial-th publication. */
  datatype Publication = Publication(topic: Topic, origin: NodeId, data: Bytes, serial: nat, fanout: nat)

  /** `flight` is a bag (any position may be taken).  `sent`, `pub` and `edges` only record the past:
      every packet ever sent, every publication, and (q, id, r) when q turned to its peer r, a subscriber by then,
      with id. */
  datatype Net = Net(
    config: Config,
    nodes: map<NodeId, NodeState>,
    flight: seq<Packet>,
    sent: seq<Packet>,
    pub: map<MsgId, Publication>,
    edges: set<(NodeId, MsgId, NodeId)>)

  datatype Action =
    | AddPeer(n: NodeId, peer: NodeId)
    | Subscribe(n: NodeId, topic: Topic)
    | Publish(n: NodeId, topic: Topic, data: Bytes, order: seq<NodeId>)
    | Deliver(at: nat, order: seq<NodeId>)
    | Lose(at: nat)
    | Maintain(n: NodeId, topic: Topic, order: seq<NodeId>)
    | Gossip(n: NodeId, topic: Topic, listing: seq<MsgId>, sample: seq<NodeId>)

  ghost predicate Enabled(net: Net, a: Action) {
    match a
    case AddPeer(n, peer) => n in net.nodes && peer in net.nodes
    case Subscribe(n, topic) => n in net.nodes
    case Publish(n, topic, data, order) =>
      n in net.nodes && IsShuffle(order, PublishTargets(net.nodes[n], topic))
    case Deliver(i, order) =>
      && i < |net.flight|
      && var p := net.flight[i];
      && p.dst in net.nodes
      && (p.wire.Full? ==> IsShuffle(order, Targets(net.nodes[p.dst], p.src, p.wire.m)))
    case Lose(i) => i < |net.flight|
    case Maintain(n, topic, order) =>
      && n in net.nodes && topic in net.nodes[n].subs
      && IsShuffle(order, MaintainPool(net.config, net.nodes[n], topic))
    case Gossip(n, topic, listing, sample) =>
      && n in net.nodes && topic in net.nodes[n].subs
      && IsShuffle(listing, net.nodes[n].seen) && IsSample(net.config, net.nodes[n], topic, sample)
  }

  ghost function Actor(net: Net, a: Action): NodeId
    requires Enabled(net, a) && !a.Lose?
  {
    if a.Deliver? then net.flight[a.at].dst else a.n
  }

  ghost function NodeEffect(net: Net, a: Action): Effect
    requires Enabled(net, a) && !a.Lose?
  {
    match a
    case AddPeer(n, peer) => OnAddPeer(net.nodes[n], peer)
    case Subscribe(n, topic) => OnSubscribe(net.nodes[n], topic)
    case Publish(n, topic, data, order) => OnPublish(net.nodes[n], topic, data, order)
    case Deliver(i, order) =>
      var p := net.flight[i];
      OnWire(net.config, net.nodes[p.dst], p.src, p.wire, order)
    case Maintain(n, topic, order) => OnMaintain(net.config, net.nodes[n], topic, order)
    case Gossip(n, topic, listing, sample) => OnGossip(net.config, net.nodes[n], topic, listing, sample)
  }

  /** The packets still in flight once the action has taken the one it consumes. */
  ghost function Remaining(net: Net, a: Action): seq<Packet>
    requires Enabled(net, a)
  {
    if a.Deliver? || a.Lose? then RemoveAt(net.flight, a.at) else net.flight
  }

  /** A subscriber's first copy of a message. */
  ghost predicate TakesFirst(net: Net, a: Action)
    requires Enabled(net, a)
  {
    && a.Deliver? && net.flight[a.at].wire.Full?
    && var m, s := net.flight[a.at].wire.m, net.nodes[net.flight[a.at].dst];
    m.id !in s.seen && m.topic in s.subs
  }

  predicate Subscribes(net: Net, n: NodeId, topic: Topic) {
    n in net.nodes && topic in net.nodes[n].subs
  }

  ghost function NewEdges(net: Net, a: Action): set<(NodeId, MsgId, NodeId)>
    requires Enabled(net, a)
  {
    if a.Publish? then
      set r | r in a.order && Subscribes(net, r, a.topic) ::
        (a.n, GenId(net.nodes[a.n].id, net.nodes[a.n].counter + 1), r)
    else if TakesFirst(net, a) then
      var p := net.flight[a.at];
      set r | r in MeshOf(net.nodes[p.dst], p.wire.m.topic) && Subscribes(net, r, p.wire.m.topic) ::
        (p.dst, p.wire.m.id, r)
    else {}
  }

  ghost function Apply(net: Net, a: Action): Net
    requires Enabled(net, a)
  {
    if a.Lose? then net.(flight := Remaining(net, a))
    else
      var n, e := Actor(net, a), NodeEffect(net, a);
      Net(net.config, net.nodes[n := e.s], Remaining(net, a) + e.out, net.sent + e.out,
          if a.Publish? then
            net.pub[GenId(net.nodes[n].id, net.nodes[n].counter + 1) :=
                    Publication(a.topic, n, a.data, net.nodes[n].counter + 1, |a.order|)]
          else net.pub,
          net.edges + NewEdges(net, a))
  }

  ghost predicate Runs(net: Net, actions: seq<Action>, end: Net)
    decreases |actions|
  {
    if actions == [] then end == net
    else Enabled(net, actions[0]) && Runs(Apply(net, actions[0]), actions[1..], end)
  }

  /** Nodes that may have peers, subscriptions and meshes already, but have published and sent nothing yet. */
  ghost predicate Init(net: Net) {
    && (forall n :: n in net.nodes ==>
          && net.nodes[n] == NodeState(n, net.nodes[n].peers, net.nodes[n].mesh, net.nodes[n].subs,
                                       {}, map[], {}, 0, [], {}, 0, map[])
          && |n.hex| >= ID_PREFIX
          && Closed(net, net.nodes[n]))
    && (forall a, b :: a in net.nodes && b in net.nodes && Prefix(a) == Prefix(b) ==> a == b)
    && net.flight == [] && net.sent == [] && net.pub == map[] && net.edges == {}
  }

  /** A node only knows nodes of the network. */
  ghost predicate Closed(net: Net, s: NodeState) {
    forall x :: Knows(s, x) ==> x in net.nodes
  }

  // ---- integrity ----

  ghost predicate Genuine(net: Net, m: Message) {
    && m.id in net.pub
    && m.topic == net.pub[m.id].topic && m.origin == net.pub[m.id].origin && m.data == net.pub[m.id].data
  }

  ghost predicate NodeOk(net: Net, n: NodeId)
    requires n in net.nodes
  {
    var s := net.nodes[n];
    && s.id == n && |n.hex| >= ID_PREFIX && LocalOk(s) && Closed(net, s)
    && s.pending <= net.pub.Keys
    && (forall id :: id in s.cache ==> Genuine(net, s.cache[id]))
  }

  ghost predicate PacketOk(net: Net, p: Packet) {
    && p.src in net.nodes && p.dst in net.nodes
    && match p.wire
       case Full(m) => Genuine(net, m) && m.sender == p.src && m.id in net.nodes[p.src].seen
       case IHave(topic, ids) => NoDup(ids) && Elements(ids) <= net.nodes[p.src].seen
       case IWant(ids) =>
         NoDup(ids) && Elements(ids) <= net.nodes[p.src].pending && Elements(ids) <= net.nodes[p.dst].seen
       case _ => true
  }

  ghost predicate PublicationOk(net: Net, id: MsgId)
    requires id in net.pub
  {
    var o := net.pub[id].origin;
    && o in net.nodes && id in net.nodes[o].seen && id !in net.nodes[o].received && id !in net.nodes[o].pending
    && 1 <= net.pub[id].serial <= net.nodes[o].counter && id == GenId(o, net.pub[id].serial)
  }

  ghost predicate PrefixesDistinct(net: Net) {
    forall a, b :: a in net.nodes && b in net.nodes && Prefix(a) == Prefix(b) ==> a == b
  }

  ghost predicate Integrity(net: Net) {
    && (forall n :: n in net.nodes ==> NodeOk(net, n))
    && (forall p :: p in net.flight ==> PacketOk(net, p))
    && (forall p :: p in net.sent ==> PacketOk(net, p))
    && (forall id :: id in net.pub ==> PublicationOk(net, id))
    && PrefixesDistinct(net)
  }

  ghost predicate Grows(net: Net, next: Net) {
    && next.config == net.config && next.nodes.Keys == net.nodes.Keys
    && (forall id :: id in net.pub ==> id in next.pub && next.pub[id] == net.pub[id])
    && (forall n :: n in net.nodes ==> NodeGrows(net.nodes[n], next.nodes[n]))
    && net.edges <= next.edges
  }

  lemma PacketStaysOk(net: Net, next: Net, p: Packet)
    requires PacketOk(net, p) && Grows(net, next)
    ensures PacketOk(next, p)
  {
    assert NodeGrows(net.nodes[p.src], next.nodes[p.src]) && NodeGrows(net.nodes[p.dst], next.nodes[p.dst]);
  }

  /** `next` is `net` after node n reacted with `e`: the shape shared by every action but a loss. */
  ghost predicate Commits(net: Net, next: Net, n: NodeId, e: Effect) {
    && n in net.nodes && next.config == net.config && next.nodes == net.nodes[n := e.s]
    && (forall p :: p in next.flight ==> p in net.flight || p in e.out)
    && next.sent == net.sent + e.out
    && (forall id :: id in net.pub ==> id in next.pub && next.pub[id] == net.pub[id])
    && net.edges <= next.edges
  }

  /** Where a disciplined reaction got its news: the packet's sender holds it, or the node published it. */
  ghost predicate Sourced(net: Net, next: Net, from: Option<NodeId>, gain: Option<Message>, asked: set<MsgId>) {
    && (from.Some? ==> from.value in net.nodes && asked <= net.nodes[from.value].seen)
    && (from.None? ==> asked == {})
    && (gain.Some? ==> Genuine(next, gain.value))
  }

  lemma OutIsOk(net: Net, next: Net, n: NodeId, e: Effect, from: Option<NodeId>, gain: Option<Message>,
          asked: set<MsgId>, p: Packet)
    requires Integrity(net) && Commits(net, next, n, e) && Grows(net, next)
    requires Disciplined(net.nodes[n], e, from, gain, asked) && Sourced(net, next, from, gain, asked)
    requires p in e.out && NodeOk(next, n)
    ensures PacketOk(next, p)
  {
    assert NodeOk(net, n) && OutOk(net.nodes[n], e.s, from, asked, p);
    if p.wire.IWant? {
      assert NodeGrows(net.nodes[from.value], next.nodes[from.value]);
    }
  }

  lemma CommitGrows(net: Net, next: Net, n: NodeId, e: Effect, from: Option<NodeId>, gain: Option<Message>,
          asked: set<MsgId>)
    requires Integrity(net) && Commits(net, next, n, e)
    requires Disciplined(net.nodes[n], e, from, gain, asked) && Sourced(net, next, from, gain, asked)
    ensures Grows(net, next) && NodeOk(next, n)
  {
    OnlyNodeGrows(net, next, n, e);
    assert NodeOk(net, n);
    if from.Some? {
      assert NodeOk(net, from.value);
      SeenIsPublished(net, from.value);
    }
    CacheStaysGenuine(net, next, n, e.s, gain);
    StaysClosed(net, next, n, e.s, from);
    NowOk(net, next, n, e.s);
  }

  lemma OnlyNodeGrows(net: Net, next: Net, n: NodeId, e: Effect)
    requires Commits(net, next, n, e) && NodeGrows(net.nodes[n], e.s)
    ensures Grows(net, next)
  {
  }

  lemma NowOk(net: Net, next: Net, n: NodeId, s: NodeState)
    requires n in net.nodes && next.nodes == net.nodes[n := s] && net.nodes[n].id == n && |n.hex| >= ID_PREFIX
    requires s.id == net.nodes[n].id && LocalOk(s) && Closed(next, s) && s.pending <= next.pub.Keys
    requires forall id :: id in s.cache ==> Genuine(next, s.cache[id])
    ensures NodeOk(next, n)
  {
  }

  lemma SeenIsPublished(net: Net, n: NodeId)
    requires n in net.nodes && NodeOk(net, n)
    ensures net.nodes[n].seen <= net.pub.Keys
  {
    forall id | id in net.nodes[n].seen
      ensures id in net.pub
    {
      assert Genuine(net, net.nodes[n].cache[id]);
    }
  }

  lemma CacheStaysGenuine(net: Net, next: Net, n: NodeId, s: NodeState, gain: Option<Message>)
    requires n in net.nodes && NodeOk(net, n) && (gain.Some? ==> Genuine(next, gain.value))
    requires forall id :: id in net.pub ==> id in next.pub && next.pub[id] == net.pub[id]
    requires s.cache == if gain.Some? then net.nodes[n].cache[gain.value.id := gain.value] else net.nodes[n].cache
    ensures forall id :: id in s.cache ==> Genuine(next, s.cache[id])
  {
    forall id | id in s.cache
      ensures Genuine(next, s.cache[id])
    {
      if id in net.nodes[n].cache {
        assert Genuine(net, net.nodes[n].cache[id]);
      }
    }
  }

  lemma StaysClosed(net: Net, next: Net, n: NodeId, s: NodeState, from: Option<NodeId>)
    requires n in net.nodes && Closed(net, net.nodes[n]) && (from.Some? ==> from.value in net.nodes)
    requires next.nodes == net.nodes[n := s] && forall x :: Knows(s, x) ==> Knows(net.nodes[n], x) || from == Some(x)
    ensures Closed(next, s)
  {
  }

  lemma OthersStayOk(net: Net, next: Net, n: NodeId, e: Effect)
    requires Integrity(net) && Commits(net, next, n, e) && Grows(net, next) && NodeOk(next, n)
    ensures forall k :: k in next.nodes ==> NodeOk(next, k)
    ensures PrefixesDistinct(next)
  {
    forall k | k in next.nodes && k != n
      ensures NodeOk(next, k)
    {
      assert NodeOk(net, k);
      assert forall id :: id in net.nodes[k].cache ==> Genuine(net, net.nodes[k].cache[id]);
    }
  }

  lemma PublicationStaysOk(net: Net, next: Net, n: NodeId, s: NodeState, id: MsgId)
    requires n in net.nodes && next.nodes == net.nodes[n := s] && Grows(net, next)
    requires forall k :: k in s.received ==> k in net.nodes[n].received || k !in net.nodes[n].seen
    requires forall k :: k in s.pending ==> k in net.nodes[n].pending || k !in net.nodes[n].seen
    requires id in net.pub && PublicationOk(net, id)
    ensures PublicationOk(next, id)
  {
    assert NodeGrows(net.nodes[net.pub[id].origin], next.nodes[net.pub[id].origin]);
  }

  lemma CommitKeepsIntegrity(net: Net, next: Net, n: NodeId, e: Effect, from: Option<NodeId>, gain: Option<Message>,
          asked: set<MsgId>)
    requires Integrity(net) && Commits(net, next, n, e)
    requires Disciplined(net.nodes[n], e, from, gain, asked) && Sourced(net, next, from, gain, asked)
    requires forall id :: id in next.pub && id !in net.pub ==> PublicationOk(next, id)
    ensures Integrity(next) && Grows(net, next)
  {
    CommitGrows(net, next, n, e, from, gain, asked);
    OthersStayOk(net, next, n, e);
    forall p | p in next.flight || p in next.sent
      ensures PacketOk(next, p)
    {
      if p in e.out {
        OutIsOk(net, next, n, e, from, gain, asked, p);
      } else {
        PacketStaysOk(net, next, p);
      }
    }
    forall id | id in next.pub && id in net.pub
      ensures PublicationOk(next, id)
    {
      PublicationStaysOk(net, next, n, e.s, id);
    }
  }

  lemma PublishedIdIsNew(net: Net, n: NodeId)
    requires Integrity(net) && n in net.nodes
    ensures GenId(n, net.nodes[n].counter + 1) !in net.pub
    ensures GenId(n, net.nodes[n].counter + 1) !in net.nodes[n].seen
  {
    var id := GenId(n, net.nodes[n].counter + 1);
    assert NodeOk(net, n);
    if id in net.pub {
      assert PublicationOk(net, id) && NodeOk(net, net.pub[id].origin);
      GenIdInjective(n, net.nodes[n].counter + 1, net.pub[id].origin, net.pub[id].serial);
      assert false;
    }
    assert forall k :: k in net.nodes[n].cache ==> Genuine(net, net.nodes[n].cache[k]);
  }

  /** What an action brings the acting node: news of another node, a message, and ids it marks as requested. */
  ghost function From(net: Net, a: Action): Option<NodeId>
    requires Enabled(net, a)
  {
    if a.Deliver? then Some(net.flight[a.at].src) else if a.AddPeer? then Some(a.peer) else None
  }

  ghost function Gained(net: Net, a: Action): Option<Message>
    requires Enabled(net, a)
  {
    match a
    case Publish(n, topic, data, _) => Some(Fresh(net.nodes[n], topic, data))
    case Deliver(i, _) => Gain(net.nodes[net.flight[i].dst], net.flight[i].wire)
    case _ => None
  }

  ghost function Requested(net: Net, a: Action): set<MsgId>
    requires Enabled(net, a)
  {
    if a.Deliver? then Asked(net.nodes[net.flight[a.at].dst], net.flight[a.at].wire) else {}
  }

  lemma ActionDisciplined(net: Net, a: Action)
    requires Integrity(net) && Enabled(net, a) && !a.Lose?
    ensures Disciplined(net.nodes[Actor(net, a)], NodeEffect(net, a), From(net, a), Gained(net, a), Requested(net, a))
  {
    var n := Actor(net, a);
    assert NodeOk(net, n);
    match a
    case AddPeer(_, peer) => AddPeerDisciplined(net.nodes[n], peer);
    case Subscribe(_, topic) => SubscribeDisciplined(net.nodes[n], topic);
    case Publish(_, topic, data, order) =>
      PublishedIdIsNew(net, n);
      PublishDisciplined(net.nodes[n], topic, data, order);
    case Deliver(i, order) =>
      assert net.flight[i] in net.flight && PacketOk(net, net.flight[i]);
      WireDisciplined(net.config, net.nodes[n], net.flight[i].src, net.flight[i].wire, order);
    case Maintain(_, topic, order) =>
      assert MaintainPool(net.config, net.nodes[n], topic) <= net.nodes[n].peers;
      MaintainDisciplined(net.config, net.nodes[n], topic, order);
    case Gossip(_, topic, listing, sample) =>
      GossipDisciplined(net.config, net.nodes[n], topic, listing, sample);
  }

  lemma ActionCommits(net: Net, a: Action)
    requires Integrity(net) && Enabled(net, a) && !a.Lose?
    ensures Commits(net, Apply(net, a), Actor(net, a), NodeEffect(net, a))
  {
    var next := Apply(net, a);
    if a.Publish? {
      PublishedIdIsNew(net, a.n);
    }
    RemainingShrinks(net, a);
    CommitsAre(net, next, Actor(net, a), NodeEffect(net, a), Remaining(net, a));
  }

  lemma CommitsAre(net: Net, next: Net, n: NodeId, e: Effect, remaining: seq<Packet>)
    requires n in net.nodes && next.config == net.config && next.nodes == net.nodes[n := e.s]
    requires next.flight == remaining + e.out && next.sent == net.sent + e.out && net.edges <= next.edges
    requires forall p :: p in remaining ==> p in net.flight
    requires forall id :: id in net.pub ==> id in next.pub && next.pub[id] == net.pub[id]
    ensures Commits(net, next, n, e)
  {
  }

  lemma RemainingShrinks(net: Net, a: Action)
    requires Enabled(net, a)
    ensures forall p :: p in Remaining(net, a) ==> p in net.flight
  {
  }

  lemma ActionSourced(net: Net, a: Action)
    requires Integrity(net) && Enabled(net, a) && !a.Lose?
    ensures Sourced(net, Apply(net, a), From(net, a), Gained(net, a), Requested(net, a))
  {
    if a.Deliver? {
      var p := net.flight[a.at];
      assert p in net.flight && PacketOk(net, p);
      if p.wire.IHave? {
        WantedIsFilter(net.nodes[p.dst], p.wire.ids);
      }
    }
  }

  lemma IntegrityStep(net: Net, a: Action)
    requires Integrity(net) && Enabled(net, a)
    ensures Integrity(Apply(net, a)) && Grows(net, Apply(net, a))
  {
    if a.Lose? {
      LossKeepsIntegrity(net, a);
    } else {
      ActionDisciplined(net, a);
      ActionCommits(net, a);
      ActionSourced(net, a);
      NewPublicationOk(net, a);
      CommitKeepsIntegrity(net, Apply(net, a), Actor(net, a), NodeEffect(net, a), From(net, a), Gained(net, a),
          Requested(net, a));
    }
  }

  lemma LossKeepsIntegrity(net: Net, a: Action)
    requires Integrity(net) && Enabled(net, a) && a.Lose?
    ensures Integrity(Apply(net, a)) && Grows(net, Apply(net, a))
  {
    var next := Apply(net, a);
    RemainingShrinks(net, a);
    SameNodes(net, next);
  }

  /** The networks differ in nothing but what is in flight. */
  ghost predicate SameRecord(net: Net, next: Net) {
    && next.config == net.config && next.nodes == net.nodes && next.sent == net.sent && next.pub == net.pub
    && next.edges == net.edges
  }

  lemma SamePacket(net: Net, next: Net, p: Packet)
    requires SameRecord(net, next) && PacketOk(net, p)
    ensures PacketOk(next, p)
  {
  }

  lemma SameNode(net: Net, next: Net, n: NodeId)
    requires SameRecord(net, next) && n in net.nodes && NodeOk(net, n)
    ensures NodeOk(next, n)
  {
    var s := net.nodes[n];
    forall id | id in s.cache
      ensures Genuine(next, s.cache[id])
    {
      assert Genuine(net, s.cache[id]);
    }
  }

  lemma SamePublication(net: Net, next: Net, id: MsgId)
    requires SameRecord(net, next) && id in net.pub && PublicationOk(net, id)
    ensures PublicationOk(next, id)
  {
  }

  lemma SameGrows(net: Net, next: Net)
    requires SameRecord(net, next)
    ensures Grows(net, next)
  {
  }

  /** Integrity depends on the flight only through the packets in it. */
  lemma SameNodes(net: Net, next: Net)
    requires Integrity(net) && SameRecord(net, next) && forall p :: p in next.flight ==> p in net.flight
    ensures Integrity(next) && Grows(net, next)
  {
    SameGrows(net, next);
    forall p | p in next.flight || p in next.sent
      ensures PacketOk(next, p)
    {
      SamePacket(net, next, p);
    }
    forall n | n in next.nodes
      ensures NodeOk(next, n)
    {
      SameNode(net, next, n);
    }
    forall id | id in next.pub
      ensures PublicationOk(next, id)
    {
      SamePublication(net, next, id);
    }
  }

  lemma NewPublicationOk(net: Net, a: Action)
    requires Integrity(net) && Enabled(net, a) && !a.Lose?
    ensures forall id :: id in Apply(net, a).pub && id !in net.pub ==> PublicationOk(Apply(net, a), id)
  {
    if a.Publish? {
      var s := net.nodes[a.n];
      PublishedIdIsNew(net, a.n);
      assert NodeOk(net, a.n);
    }
  }

  lemma IntegrityFromInit(net: Net)
    requires Init(net)
    ensures Integrity(net)
  {
  }

  /** In every reachable state, lossy or not: each cached or transmitted copy of a message is what its
      origin published, ids are told apart, and the bookkeeping sets of every node agree. */
  lemma {:induction false} IntegrityAlways(net: Net, actions: seq<Action>, end: Net)
    requires Integrity(net) && Runs(net, actions, end)
    ensures Integrity(end) && Grows(net, end)
    decreases |actions|
  {
    if actions == [] {
    } else {
      var next := Apply(net, actions[0]);
      IntegrityStep(net, actions[0]);
      IntegrityAlways(next, actions[1..], end);
      GrowsTransitive(net, next, end);
    }
  }

  lemma GrowsTransitive(net: Net, mid: Net, end: Net)
    requires Grows(net, mid) && Grows(mid, end)
    ensures Grows(net, end)
  {
    forall n | n in net.nodes
      ensures NodeGrows(net.nodes[n], end.nodes[n])
    {
      assert NodeGrows(net.nodes[n], mid.nodes[n]) && NodeGrows(mid.nodes[n], end.nodes[n]);
    }
  }
}
