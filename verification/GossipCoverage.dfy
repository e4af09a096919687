/** Delivery: although a node pushes a message to one peer only, every peer it turned to ends up with it. */
module GossipCoverage {
  import opened Collections
  import opened MessageIds
  import opened GossipNode
  import opened GossipSteps
  import opened GossipNetwork

  ghost predicate CarriesTo(p: Packet, id: MsgId, n: NodeId) {
    p.dst == n && p.wire.Full? && p.wire.m.id == id
  }

  ghost predicate AsksFor(p: Packet, id: MsgId, n: NodeId) {
    p.src == n && p.wire.IWant? && id in p.wire.ids
  }

  ghost predicate AnnouncesTo(p: Packet, topic: Topic, id: MsgId, n: NodeId) {
    p.dst == n && p.wire.IHave? && p.wire.topic == topic && id in p.wire.ids
  }

  /** A copy of `id` is on its way to n, or n's request for it is on its way to a holder. */
  ghost predicate Promised(net: Net, id: MsgId, n: NodeId) {
    || (exists p :: p in net.flight && CarriesTo(p, id, n))
    || (exists p :: p in net.flight && AsksFor(p, id, n))
  }

  ghost predicate Assured(net: Net, id: MsgId, n: NodeId)
    requires n in net.nodes && id in net.pub
  {
    || id in net.nodes[n].seen
    || Promised(net, id, n)
    || exists p :: p in net.flight && AnnouncesTo(p, net.pub[id].topic, id, n)
  }

  ghost predicate RequestsPromised(net: Net) {
    forall n, id :: n in net.nodes && id in net.nodes[n].pending && id !in net.nodes[n].seen ==> Promised(net, id, n)
  }

  ghost predicate EdgeAssured(net: Net, edge: (NodeId, MsgId, NodeId)) {
    edge.1 in net.pub && Subscribes(net, edge.2, net.pub[edge.1].topic) && Assured(net, edge.1, edge.2)
  }

  ghost predicate Delivering(net: Net) {
    && Integrity(net) && RequestsPromised(net)
    && forall edge :: edge in net.edges ==> EdgeAssured(net, edge)
  }

  /** No loss, and no IHAVE that makes its receiver want more ids than one IWANT can name. */
  ghost predicate Kind(net: Net, a: Action)
    requires Enabled(net, a)
  {
    && !a.Lose?
    && (a.Deliver? && net.flight[a.at].wire.IHave? ==>
          |Wanted(net.nodes[net.flight[a.at].dst], net.flight[a.at].wire.ids)| <= IWANT_LIMIT)
  }

  ghost predicate KindRun(net: Net, actions: seq<Action>)
    decreases |actions|
  {
    actions != [] ==>
      && Enabled(net, actions[0]) && Kind(net, actions[0])
      && KindRun(Apply(net, actions[0]), actions[1..])
  }

  /** Only the packet an action takes leaves the network; everything the actor sends joins it. */
  lemma FlightAfter(net: Net, a: Action, p: Packet)
    requires Enabled(net, a) && !a.Lose?
    ensures p in net.flight && !(a.Deliver? && p == net.flight[a.at]) ==> p in Apply(net, a).flight
    ensures p in NodeEffect(net, a).out ==> p in Apply(net, a).flight
  {
    if p in net.flight && !(a.Deliver? && p == net.flight[a.at]) {
      assert p in Remaining(net, a);
    }
  }

  lemma ForwardsReach(self: NodeId, order: seq<NodeId>, fwd: Message, r: NodeId)
    requires r in order
    ensures Packet(self, r, Full(fwd)) in Forwards(self, order, fwd)
         || Packet(self, r, IHave(fwd.topic, [fwd.id])) in Forwards(self, order, fwd)
  {
    if r == order[0] {
      assert Forwards(self, order, fwd)[0] == Packet(self, r, Full(fwd));
    } else {
      var rest := Broadcast(self, order[1..], IHave(fwd.topic, [fwd.id]));
      var i :| 0 <= i < |order| - 1 && order[1..][i] == r;
      assert rest[i] in Forwards(self, order, fwd);
    }
  }

  lemma ReplyCarries(s: NodeState, from: NodeId, ids: seq<MsgId>, id: MsgId) returns (p: Packet)
    requires id in ids && id in s.cache && s.cache[id].id == id
    ensures p in Replies(s, from, ids) && CarriesTo(p, id, from)
  {
    RepliesAre(s, from, ids);
    p := Packet(s.id, from, Full(s.cache[id].(sender := s.id)));
  }

  lemma TakenCopySeen(net: Net, a: Action, id: MsgId, n: NodeId)
    requires Enabled(net, a) && a.Deliver? && CarriesTo(net.flight[a.at], id, n)
    ensures id in Apply(net, a).nodes[n].seen
  {
    assert id in NodeEffect(net, a).s.seen;
  }

  lemma RequestAnswered(net: Net, a: Action, id: MsgId, n: NodeId)
    requires Integrity(net) && Enabled(net, a) && a.Deliver? && AsksFor(net.flight[a.at], id, n)
    ensures Promised(Apply(net, a), id, n)
  {
    var p := net.flight[a.at];
    assert p in net.flight && PacketOk(net, p) && NodeOk(net, p.dst);
    assert id in Elements(p.wire.ids);
    var reply := ReplyCarries(net.nodes[p.dst], n, p.wire.ids, id);
    FlightAfter(net, a, reply);
  }

  /** A promise ends only by being kept. */
  lemma PromiseKept(net: Net, a: Action, id: MsgId, n: NodeId)
    requires Integrity(net) && Enabled(net, a) && !a.Lose? && n in net.nodes && Promised(net, id, n)
    ensures id in Apply(net, a).nodes[n].seen || Promised(Apply(net, a), id, n)
  {
    if p :| p in net.flight && CarriesTo(p, id, n) {
      FlightAfter(net, a, p);
      if a.Deliver? && p == net.flight[a.at] {
        TakenCopySeen(net, a, id, n);
      }
    } else {
      var p :| p in net.flight && AsksFor(p, id, n);
      FlightAfter(net, a, p);
      if a.Deliver? && p == net.flight[a.at] {
        RequestAnswered(net, a, id, n);
      }
    }
  }

  /** Every id an IHAVE newly marks as requested is named in the IWANT it provokes. */
  lemma NewRequestPromised(net: Net, a: Action, id: MsgId)
    requires Integrity(net) && Enabled(net, a) && Kind(net, a) && id in Requested(net, a)
    ensures Promised(Apply(net, a), id, Actor(net, a))
  {
    var p := net.flight[a.at];
    var s := net.nodes[p.dst];
    var ask := Packet(s.id, p.src, IWant(Wanted(s, p.wire.ids)));
    assert NodeOk(net, p.dst);
    assert NodeEffect(net, a).out == [ask];
    assert ask in NodeEffect(net, a).out;
    FlightAfter(net, a, ask);
    assert AsksFor(ask, id, p.dst);
  }

  lemma RequestsStayPromised(net: Net, a: Action)
    requires Integrity(net) && RequestsPromised(net) && Enabled(net, a) && Kind(net, a)
    ensures RequestsPromised(Apply(net, a))
  {
    var next := Apply(net, a);
    IntegrityStep(net, a);
    ActionDisciplined(net, a);
    forall n, id | n in next.nodes && id in next.nodes[n].pending && id !in next.nodes[n].seen
      ensures Promised(next, id, n)
    {
      assert NodeGrows(net.nodes[n], next.nodes[n]);
      if id in net.nodes[n].pending {
        PromiseKept(net, a, id, n);
      } else {
        NewRequestPromised(net, a, id);
      }
    }
  }

  /** An announcement that reaches a subscriber is answered by a request, unless one was already made. */
  lemma AnnouncementHeeded(net: Net, a: Action, topic: Topic, id: MsgId, n: NodeId)
    requires Integrity(net) && RequestsPromised(net) && Enabled(net, a) && Kind(net, a)
    requires a.Deliver? && AnnouncesTo(net.flight[a.at], topic, id, n) && topic in net.nodes[n].subs
    ensures id in Apply(net, a).nodes[n].seen || Promised(Apply(net, a), id, n)
  {
    IntegrityStep(net, a);
    assert NodeGrows(net.nodes[n], Apply(net, a).nodes[n]);
    if id in net.nodes[n].seen {
    } else if id in net.nodes[n].pending {
      PromiseKept(net, a, id, n);
    } else {
      WantedIsFilter(net.nodes[n], net.flight[a.at].wire.ids);
      assert id in Requested(net, a);
      NewRequestPromised(net, a, id);
    }
  }

  lemma EdgeStaysAssured(net: Net, a: Action, edge: (NodeId, MsgId, NodeId))
    requires Integrity(net) && RequestsPromised(net) && Enabled(net, a) && Kind(net, a)
    requires EdgeAssured(net, edge)
    ensures EdgeAssured(Apply(net, a), edge)
  {
    var next := Apply(net, a);
    var (_, id, r) := edge;
    IntegrityStep(net, a);
    assert NodeGrows(net.nodes[r], next.nodes[r]);
    if id in net.nodes[r].seen {
    } else if Promised(net, id, r) {
      PromiseKept(net, a, id, r);
    } else {
      var p :| p in net.flight && AnnouncesTo(p, net.pub[id].topic, id, r);
      FlightAfter(net, a, p);
      if a.Deliver? && p == net.flight[a.at] {
        AnnouncementHeeded(net, a, net.pub[id].topic, id, r);
      }
    }
  }

  lemma PublishAssures(net: Net, a: Action, edge: (NodeId, MsgId, NodeId))
    requires Integrity(net) && Enabled(net, a) && a.Publish? && edge in NewEdges(net, a)
    ensures EdgeAssured(Apply(net, a), edge)
  {
    PublishPromises(net, a, edge.2);
    PublishRecords(net, a, edge.2);
  }

  lemma PublishRecords(net: Net, a: Action, r: NodeId)
    requires Integrity(net) && Enabled(net, a) && a.Publish? && Subscribes(net, r, a.topic)
    ensures var id, next := GenId(net.nodes[a.n].id, net.nodes[a.n].counter + 1), Apply(net, a);
            id in next.pub && Subscribes(next, r, next.pub[id].topic)
  {
    assert NodeOk(net, a.n);
  }

  lemma PublishPromises(net: Net, a: Action, r: NodeId)
    requires Enabled(net, a) && a.Publish? && r in a.order
    ensures Promised(Apply(net, a), GenId(net.nodes[a.n].id, net.nodes[a.n].counter + 1), r)
  {
    var s := net.nodes[a.n];
    var copy := Packet(s.id, r, Full(Fresh(s, a.topic, a.data)));
    var i :| 0 <= i < |a.order| && a.order[i] == r;
    assert NodeEffect(net, a).out[i] == copy;
    FlightAfter(net, a, copy);
    assert CarriesTo(copy, copy.wire.m.id, r);
  }

  /** Whom a first copy is passed on to: everyone in the mesh but those known to have it. */
  lemma ForwardReaches(net: Net, a: Action, r: NodeId)
    requires Integrity(net) && Enabled(net, a) && TakesFirst(net, a)
    requires var p := net.flight[a.at];
             r in MeshOf(net.nodes[p.dst], p.wire.m.topic) && r != p.src && r != p.wire.m.origin
    ensures var m, next := net.flight[a.at].wire.m, Apply(net, a);
            Promised(next, m.id, r) || exists p :: p in next.flight && AnnouncesTo(p, m.topic, m.id, r)
  {
    var p := net.flight[a.at];
    var s, m := net.nodes[p.dst], p.wire.m;
    var fwd := m.(hop := m.hop + 1, sender := s.id);
    assert r in Elements(a.order);
    ForwardsReach(s.id, a.order, fwd, r);
    assert NodeEffect(net, a).out == Forwards(s.id, a.order, fwd);
    var full, announce := Packet(s.id, r, Full(fwd)), Packet(s.id, r, IHave(fwd.topic, [fwd.id]));
    if full in Forwards(s.id, a.order, fwd) {
      FlightAfter(net, a, full);
      assert CarriesTo(full, m.id, r);
    } else {
      FlightAfter(net, a, announce);
      assert AnnouncesTo(announce, m.topic, m.id, r);
    }
  }

  lemma ForwardAssures(net: Net, a: Action, r: NodeId)
    requires Integrity(net) && Enabled(net, a) && TakesFirst(net, a)
    requires r in MeshOf(net.nodes[net.flight[a.at].dst], net.flight[a.at].wire.m.topic)
    requires Subscribes(net, r, net.flight[a.at].wire.m.topic)
    ensures EdgeAssured(Apply(net, a), (net.flight[a.at].dst, net.flight[a.at].wire.m.id, r))
  {
    var p, next := net.flight[a.at], Apply(net, a);
    var m := p.wire.m;
    assert p in net.flight && PacketOk(net, p) && NodeOk(net, p.dst) && Knows(net.nodes[p.dst], r);
    assert PublicationOk(net, m.id);
    IntegrityStep(net, a);
    assert NodeGrows(net.nodes[r], next.nodes[r]);
    if r != p.src && r != m.origin {
      ForwardReaches(net, a, r);
    }
  }

  lemma DeliveringStep(net: Net, a: Action)
    requires Delivering(net) && Enabled(net, a) && Kind(net, a)
    ensures Delivering(Apply(net, a))
  {
    var next := Apply(net, a);
    IntegrityStep(net, a);
    RequestsStayPromised(net, a);
    forall edge | edge in next.edges
      ensures EdgeAssured(next, edge)
    {
      if edge in net.edges {
        EdgeStaysAssured(net, a, edge);
      } else if a.Publish? {
        PublishAssures(net, a, edge);
      } else {
        ForwardAssures(net, a, edge.2);
      }
    }
  }

  lemma {:induction false} DeliveringAlways(net: Net, actions: seq<Action>, end: Net)
    requires Delivering(net) && Runs(net, actions, end) && KindRun(net, actions)
    ensures Delivering(end)
    decreases |actions|
  {
    if actions == [] {
    } else {
      DeliveringStep(net, actions[0]);
      DeliveringAlways(Apply(net, actions[0]), actions[1..], end);
    }
  }

  /** No message, announcement or request left to deliver. */
  ghost predicate AtRest(net: Net) {
    forall p :: p in net.flight ==> !p.wire.Full? && !p.wire.IHave? && !p.wire.IWant?
  }

  ghost predicate HandOversArrived(net: Net) {
    forall edge :: edge in net.edges ==>
      && edge.1 in net.pub && Subscribes(net, edge.2, net.pub[edge.1].topic)
      && edge.1 in net.nodes[edge.2].seen
  }

  lemma InitDelivering(net: Net)
    requires Init(net)
    ensures Delivering(net) && Steady(net)
  {
    IntegrityFromInit(net);
  }

  lemma RestHasArrived(net: Net)
    requires Delivering(net) && AtRest(net)
    ensures HandOversArrived(net)
  {
    forall edge | edge in net.edges
      ensures edge.1 in net.pub && Subscribes(net, edge.2, net.pub[edge.1].topic)
      ensures edge.1 in net.nodes[edge.2].seen
    {
      assert EdgeAssured(net, edge);
    }
  }

  /** Eventual delivery along every hand-over: once a lossless run comes to rest, every subscriber some
      node turned to with a message has it, peers, subscriptions and meshes changing freely on the way. */
  lemma EveryHandOverArrives(net: Net, actions: seq<Action>, end: Net)
    requires Init(net) && Runs(net, actions, end) && KindRun(net, actions) && AtRest(end)
    ensures HandOversArrived(end)
  {
    InitDelivering(net);
    DeliveringAlways(net, actions, end);
    RestHasArrived(end);
  }

  // ---- fixed meshes ----

  /** An action that changes a node's peers, subscriptions or mesh of its own accord. */
  predicate Rewires(a: Action) {
    a.AddPeer? || a.Subscribe? || a.Maintain?
  }

  /** A run whose peers, subscriptions and meshes never change: no mesh maintenance, hence no GRAFT or PRUNE. */
  ghost predicate SteadyRun(net: Net, actions: seq<Action>)
    decreases |actions|
  {
    actions != [] ==>
      && Enabled(net, actions[0]) && Kind(net, actions[0]) && !Rewires(actions[0])
      && SteadyRun(Apply(net, actions[0]), actions[1..])
  }

  ghost predicate SameWiring(s: NodeState, t: NodeState) {
    s.peers == t.peers && s.subs == t.subs && s.mesh == t.mesh
  }

  /** Whom a node turns to with a message: its mesh, or all its peers when it publishes and has no mesh. */
  function TurnTargets(net: Net, n: NodeId, topic: Topic, origin: NodeId): set<NodeId>
    requires n in net.nodes
  {
    if origin == n then PublishTargets(net.nodes[n], topic) else MeshOf(net.nodes[n], topic)
  }

  ghost predicate HasTurned(net: Net, edges: set<(NodeId, MsgId, NodeId)>, n: NodeId, id: MsgId, topic: Topic,
          origin: NodeId)
    requires n in net.nodes
  {
    topic in net.nodes[n].subs || origin == n ==>
      forall r :: r in TurnTargets(net, n, topic, origin) && Subscribes(net, r, topic) ==> (n, id, r) in edges
  }

  /** Every node that took a message on turned to each subscriber it could. */
  ghost predicate TurnedToMesh(net: Net, n: NodeId, id: MsgId) {
    n in net.nodes && id in net.pub && id in net.nodes[n].seen ==>
      HasTurned(net, net.edges, n, id, net.pub[id].topic, net.pub[id].origin)
  }

  ghost predicate Steady(net: Net) {
    && (forall p :: p in net.flight ==> !IsMeshControl(p))
    && (forall n, id :: TurnedToMesh(net, n, id))
  }

  ghost predicate IsMeshControl(p: Packet) {
    p.wire.Graft? || p.wire.Prune?
  }

  lemma WireKeepsMesh(c: Config, s: NodeState, from: NodeId, w: Wire, order: seq<NodeId>)
    requires !w.Graft? && !w.Prune?
    ensures SameWiring(OnWire(c, s, from, w, order).s, s)
    ensures forall p :: p in OnWire(c, s, from, w, order).out ==> !IsMeshControl(p)
  {
    match w
    case IWant(ids) => RepliesAre(s, from, ids);
    case Full(m) =>
      forall p | p in Forwards(s.id, order, m.(hop := m.hop + 1, sender := s.id))
        ensures !IsMeshControl(p)
      {
        ForwardsAre(s.id, order, m.(hop := m.hop + 1, sender := s.id), p);
      }
    case _ =>
  }

  lemma SteadyEffect(net: Net, a: Action)
    requires Steady(net) && Enabled(net, a) && Kind(net, a) && !Rewires(a)
    ensures SameWiring(NodeEffect(net, a).s, net.nodes[Actor(net, a)])
    ensures forall p :: p in NodeEffect(net, a).out ==> !IsMeshControl(p)
  {
    if a.Deliver? {
      var q := net.flight[a.at];
      assert q in net.flight;
      WireKeepsMesh(net.config, net.nodes[q.dst], q.src, q.wire, a.order);
    }
  }

  /** The action by which a node first sees a message is the one in which it turns to its mesh. */
  lemma FirstSightTurns(net: Net, a: Action, id: MsgId, r: NodeId)
    requires Integrity(net) && Enabled(net, a) && !a.Lose?
    requires Gained(net, a).Some? && Gained(net, a).value.id == id
    requires var n, m := Actor(net, a), Gained(net, a).value;
             && r in TurnTargets(net, n, m.topic, m.origin) && Subscribes(net, r, m.topic)
             && (m.topic in net.nodes[n].subs || m.origin == n)
    ensures (Actor(net, a), id, r) in NewEdges(net, a)
  {
    var n := Actor(net, a);
    assert NodeOk(net, n);
    if a.Publish? {
      assert r in Elements(a.order);
    } else {
      var p := net.flight[a.at];
      assert p in net.flight && PacketOk(net, p) && PublicationOk(net, id);
    }
  }

  lemma NewlySeenTurns(net: Net, a: Action, n: NodeId, id: MsgId)
    requires Integrity(net) && Enabled(net, a) && !a.Lose? && n in net.nodes
    requires id in Apply(net, a).nodes[n].seen && id !in net.nodes[n].seen
    ensures n == Actor(net, a) && Gained(net, a).Some? && Gained(net, a).value.id == id
    ensures Genuine(Apply(net, a), Gained(net, a).value)
    ensures var m := Gained(net, a).value; HasTurned(net, NewEdges(net, a), n, id, m.topic, m.origin)
  {
    ActionDisciplined(net, a);
    ActionSourced(net, a);
    assert NodeOk(net, n);
    var m := Gained(net, a).value;
    if m.topic in net.nodes[n].subs || m.origin == n {
      forall r | r in TurnTargets(net, n, m.topic, m.origin) && Subscribes(net, r, m.topic)
        ensures (n, id, r) in NewEdges(net, a)
      {
        FirstSightTurns(net, a, id, r);
      }
    }
  }

  /** No node's peers, subscriptions or mesh differ. */
  ghost predicate SameWires(net: Net, next: Net) {
    next.nodes.Keys == net.nodes.Keys && forall k :: k in net.nodes ==> SameWiring(next.nodes[k], net.nodes[k])
  }

  lemma TurnedStays(net: Net, next: Net, edges: set<(NodeId, MsgId, NodeId)>, n: NodeId, id: MsgId, topic: Topic,
          origin: NodeId)
    requires SameWires(net, next) && n in net.nodes && edges <= next.edges
    requires HasTurned(net, edges, n, id, topic, origin)
    ensures HasTurned(next, next.edges, n, id, topic, origin)
  {
    assert SameWiring(next.nodes[n], net.nodes[n]);
    forall r | r in TurnTargets(next, n, topic, origin) && Subscribes(next, r, topic)
      ensures r in TurnTargets(net, n, topic, origin) && Subscribes(net, r, topic)
    {
      assert SameWiring(next.nodes[r], net.nodes[r]);
    }
  }

  lemma SteadyWires(net: Net, a: Action)
    requires Steady(net) && Enabled(net, a) && Kind(net, a) && !Rewires(a)
    ensures SameWires(net, Apply(net, a))
  {
    SteadyEffect(net, a);
  }

  lemma PublicationKnown(net: Net, n: NodeId, id: MsgId)
    requires Integrity(net) && n in net.nodes && id in net.nodes[n].seen
    ensures id in net.pub
  {
    assert NodeOk(net, n);
    SeenIsPublished(net, n);
  }

  lemma StaysTurned(net: Net, a: Action, n: NodeId, id: MsgId)
    requires Integrity(net) && Steady(net) && Enabled(net, a) && Kind(net, a) && !Rewires(a)
    requires n in net.nodes && id in Apply(net, a).nodes[n].seen
    ensures TurnedToMesh(Apply(net, a), n, id)
  {
    var next := Apply(net, a);
    SteadyWires(net, a);
    IntegrityStep(net, a);
    if id in net.nodes[n].seen {
      PublicationKnown(net, n, id);
      assert TurnedToMesh(net, n, id);
      TurnedStays(net, next, net.edges, n, id, net.pub[id].topic, net.pub[id].origin);
    } else {
      NewlySeenTurns(net, a, n, id);
      var m := Gained(net, a).value;
      TurnedStays(net, next, NewEdges(net, a), n, id, m.topic, m.origin);
    }
  }

  lemma SteadyStep(net: Net, a: Action)
    requires Integrity(net) && Steady(net) && Enabled(net, a) && Kind(net, a) && !Rewires(a)
    ensures Steady(Apply(net, a))
  {
    forall n, id
      ensures TurnedToMesh(Apply(net, a), n, id)
    {
      if n in net.nodes && id in Apply(net, a).nodes[n].seen {
        StaysTurned(net, a, n, id);
      }
    }
    SteadyEffect(net, a);
  }

  lemma {:induction false} SteadyAlways(net: Net, actions: seq<Action>, end: Net)
    requires Integrity(net) && Steady(net) && Runs(net, actions, end) && SteadyRun(net, actions)
    ensures Integrity(end) && Steady(end) && KindRun(net, actions)
    decreases |actions|
  {
    if actions == [] {
    } else {
      IntegrityStep(net, actions[0]);
      SteadyStep(net, actions[0]);
      SteadyAlways(Apply(net, actions[0]), actions[1..], end);
    }
  }

  /** A walk from the origin of `id`, each of whose later nodes subscribes to its topic: first to a member of the
      origin's mesh, or to any of its peers when that is empty, then along mesh edges. */
  ghost predicate MeshPath(net: Net, id: MsgId, path: seq<NodeId>) {
    && path != [] && id in net.pub && path[0] == net.pub[id].origin
    && (forall k :: 0 <= k < |path| ==> path[k] in net.nodes)
    && (forall k :: 0 < k < |path| ==>
          && net.pub[id].topic in net.nodes[path[k]].subs
          && path[k] in if k == 1 then PublishTargets(net.nodes[path[0]], net.pub[id].topic)
                        else MeshOf(net.nodes[path[k - 1]], net.pub[id].topic))
  }

  /** Coverage: with fixed peers, subscriptions and meshes, in any lossless delivery order, once nothing is in
      flight every subscriber reachable from the publisher over mesh edges has seen the message. */
  lemma Coverage(net: Net, actions: seq<Action>, end: Net, id: MsgId, path: seq<NodeId>)
    requires Init(net) && Runs(net, actions, end) && SteadyRun(net, actions) && AtRest(end)
    requires MeshPath(end, id, path)
    ensures id in end.nodes[path[|path| - 1]].seen
  {
    InitDelivering(net);
    SteadyAlways(net, actions, end);
    EveryHandOverArrives(net, actions, end);
    assert PublicationOk(end, id);
    CoveredUpTo(end, id, path, |path| - 1);
  }

  lemma {:induction false} CoveredUpTo(net: Net, id: MsgId, path: seq<NodeId>, k: nat)
    requires (forall n :: TurnedToMesh(net, n, id)) && HandOversArrived(net) && MeshPath(net, id, path) && k < |path|
    requires id in net.nodes[path[0]].seen
    ensures id in net.nodes[path[k]].seen
  {
    if k == 0 {
    } else {
      CoveredUpTo(net, id, path, k - 1);
      assert k == 1 || net.pub[id].topic in net.nodes[path[k - 1]].subs;
      assert path[k] in TurnTargets(net, path[k - 1], net.pub[id].topic, net.pub[id].origin);
      CoverNext(net, id, path[k - 1], path[k]);
    }
  }

  /** A node that turned to its mesh with a message has handed it to each subscribing member. */
  lemma CoverNext(net: Net, id: MsgId, n: NodeId, r: NodeId)
    requires TurnedToMesh(net, n, id) && HandOversArrived(net)
    requires n in net.nodes && id in net.pub && id in net.nodes[n].seen
    requires net.pub[id].topic in net.nodes[n].subs || net.pub[id].origin == n
    requires r in TurnTargets(net, n, net.pub[id].topic, net.pub[id].origin) && Subscribes(net, r, net.pub[id].topic)
    ensures id in net.nodes[r].seen
  {
    assert (n, id, r) in net.edges;
  }

  // ---- without gossip rounds ----

  /** Outside gossip rounds an IHAVE names one id, so one IWANT can always name whatever is wanted of it. */
  ghost predicate NamesOne(p: Packet) {
    p.wire.IHave? ==> |p.wire.ids| <= 1
  }

  lemma {:induction false} WantedShort(s: NodeState, ids: seq<MsgId>)
    ensures |Wanted(s, ids)| <= |ids|
  {
    if ids != [] {
      WantedShort(s, ids[1..]);
    }
  }

  lemma ReactionNamesOne(c: Config, s: NodeState, from: NodeId, w: Wire, order: seq<NodeId>, p: Packet)
    requires p in OnWire(c, s, from, w, order).out
    ensures NamesOne(p)
  {
    match w
    case Full(m) => ForwardsAre(s.id, order, m.(hop := m.hop + 1, sender := s.id), p);
    case IWant(ids) => RepliesAre(s, from, ids);
    case _ =>
  }

  lemma PlainStep(net: Net, a: Action)
    requires Enabled(net, a) && (a.Publish? || a.Deliver?) && forall p :: p in net.flight ==> NamesOne(p)
    ensures Kind(net, a) && forall p :: p in Apply(net, a).flight ==> NamesOne(p)
  {
    if a.Deliver? {
      var q := net.flight[a.at];
      assert q in net.flight;
      if q.wire.IHave? {
        WantedShort(net.nodes[q.dst], q.wire.ids);
      }
    }
    forall p | p in Apply(net, a).flight
      ensures NamesOne(p)
    {
      FlightAfter(net, a, p);
      if p !in net.flight && a.Deliver? {
        var q := net.flight[a.at];
        ReactionNamesOne(net.config, net.nodes[q.dst], q.src, q.wire, a.order, p);
      }
    }
  }

  lemma {:induction false} PlainIsSteady(net: Net, actions: seq<Action>, end: Net)
    requires Runs(net, actions, end) && (forall p :: p in net.flight ==> NamesOne(p))
    requires forall a :: a in actions ==> a.Publish? || a.Deliver?
    ensures SteadyRun(net, actions)
    decreases |actions|
  {
    if actions == [] {
    } else {
      assert actions[0] in actions;
      PlainStep(net, actions[0]);
      PlainIsSteady(Apply(net, actions[0]), actions[1..], end);
    }
  }

  /** Coverage with no side condition: when nodes only publish and packets are only delivered, in any order, once
      nothing is in flight every subscriber reachable from the publisher over mesh edges has seen the message. */
  lemma PlainCoverage(net: Net, actions: seq<Action>, end: Net, id: MsgId, path: seq<NodeId>)
    requires Init(net) && Runs(net, actions, end) && AtRest(end) && MeshPath(end, id, path)
    requires forall a :: a in actions ==> a.Publish? || a.Deliver?
    ensures id in end.nodes[path[|path| - 1]].seen
  {
    PlainIsSteady(net, actions, end);
    Coverage(net, actions, end, id, path);
  }
}
