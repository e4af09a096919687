/** Hop counts: each recorded hop was preceded by the hop before it, so hop counts are bounded. */
module GossipHops {
  import opened Collections
  import opened MessageIds
  import opened GossipNode
  import opened GossipSteps
  import opened GossipNetwork
  import opened GossipTraffic

  /** A copy may carry hop h only if h is zero or some node recorded h - 1. */
  ghost predicate Grounded(net: Net, id: MsgId, h: nat) {
    h == 0 || exists n :: n in net.nodes && id in net.nodes[n].hops && net.nodes[n].hops[id] == h - 1
  }

  ghost predicate NodeGrounded(net: Net, s: NodeState) {
    && (forall id :: id in s.cache ==> Grounded(net, id, s.cache[id].hop))
    && (forall id :: id in s.hops ==> Grounded(net, id, s.hops[id]))
  }

  ghost predicate HopsGrounded(net: Net) {
    && (forall p :: p in net.flight && p.wire.Full? ==> Grounded(net, p.wire.m.id, p.wire.m.hop))
    && (forall n :: n in net.nodes ==> NodeGrounded(net, net.nodes[n]))
  }

  lemma GroundedStays(net: Net, next: Net, id: MsgId, h: nat)
    requires Grows(net, next) && Grounded(net, id, h)
    ensures Grounded(next, id, h)
  {
    if h > 0 {
      var n :| n in net.nodes && id in net.nodes[n].hops && net.nodes[n].hops[id] == h - 1;
      assert NodeGrows(net.nodes[n], next.nodes[n]);
    }
  }

  /** A node sends a copy with hop 0, with its cached hop, or one past the hop it recorded. */
  ghost predicate HopFollows(t: NodeState, m: Message) {
    || m.hop == 0
    || (m.id in t.cache && m.hop == t.cache[m.id].hop)
    || (m.id in t.hops && m.hop == t.hops[m.id] + 1)
  }

  lemma WireHops(c: Config, s: NodeState, from: NodeId, w: Wire, order: seq<NodeId>, p: Packet)
    requires LocalOk(s) && p in OnWire(c, s, from, w, order).out && p.wire.Full?
    ensures HopFollows(OnWire(c, s, from, w, order).s, p.wire.m)
  {
    match w
    case Full(m) => ForwardsAre(s.id, order, m.(hop := m.hop + 1, sender := s.id), p);
    case IWant(ids) => RepliesAre(s, from, ids);
    case _ =>
  }

  lemma ActionHops(net: Net, a: Action, p: Packet)
    requires Integrity(net) && Enabled(net, a) && !a.Lose? && p in NodeEffect(net, a).out && p.wire.Full?
    ensures HopFollows(NodeEffect(net, a).s, p.wire.m)
  {
    if a.Deliver? {
      var q := net.flight[a.at];
      assert q in net.flight && PacketOk(net, q) && NodeOk(net, q.dst);
      WireHops(net.config, net.nodes[q.dst], q.src, q.wire, a.order, p);
    }
  }

  /** What the acting node newly caches or records carries hop 0 or the hop of the copy it took. */
  lemma ReactionGrounded(net: Net, next: Net, s: NodeState, e: Effect, from: Option<NodeId>, gain: Option<Message>,
          asked: set<MsgId>)
    requires Grows(net, next) && NodeGrounded(net, s) && Disciplined(s, e, from, gain, asked)
    requires gain.Some? ==> Grounded(net, gain.value.id, gain.value.hop)
    ensures NodeGrounded(next, e.s)
  {
    forall id | id in e.s.cache
      ensures Grounded(next, id, e.s.cache[id].hop)
    {
      GroundedStays(net, next, id, e.s.cache[id].hop);
    }
    forall id | id in e.s.hops
      ensures Grounded(next, id, e.s.hops[id])
    {
      GroundedStays(net, next, id, e.s.hops[id]);
    }
  }

  lemma GainGrounded(net: Net, a: Action)
    requires HopsGrounded(net) && Enabled(net, a) && Gained(net, a).Some?
    ensures Grounded(net, Gained(net, a).value.id, Gained(net, a).value.hop)
  {
    if a.Deliver? {
      assert net.flight[a.at] in net.flight;
    }
  }

  lemma PacketGrounded(net: Net, next: Net, a: Action, p: Packet)
    requires Integrity(net) && HopsGrounded(net) && Enabled(net, a) && Grows(net, next) && p.wire.Full?
    requires p in net.flight || (!a.Lose? && p in NodeEffect(net, a).out)
    requires !a.Lose? ==> Actor(net, a) in next.nodes && next.nodes[Actor(net, a)] == NodeEffect(net, a).s
    requires !a.Lose? ==> NodeGrounded(next, NodeEffect(net, a).s)
    ensures Grounded(next, p.wire.m.id, p.wire.m.hop)
  {
    if p in net.flight {
      GroundedStays(net, next, p.wire.m.id, p.wire.m.hop);
    } else {
      ActionHops(net, a, p);
    }
  }

  lemma ActorGrounded(net: Net, next: Net, a: Action)
    requires Integrity(net) && HopsGrounded(net) && Enabled(net, a) && !a.Lose? && Grows(net, next)
    ensures NodeGrounded(next, NodeEffect(net, a).s)
  {
    ActionDisciplined(net, a);
    if Gained(net, a).Some? {
      GainGrounded(net, a);
    }
    ReactionGrounded(net, next, net.nodes[Actor(net, a)], NodeEffect(net, a), From(net, a), Gained(net, a),
        Requested(net, a));
  }

  lemma FlightGrounded(net: Net, a: Action)
    requires Integrity(net) && HopsGrounded(net) && Enabled(net, a) && Grows(net, Apply(net, a))
    ensures forall p :: p in Apply(net, a).flight && p.wire.Full? ==> Grounded(Apply(net, a), p.wire.m.id, p.wire.m.hop)
  {
    var next := Apply(net, a);
    if !a.Lose? {
      ActorGrounded(net, next, a);
    }
    forall p | p in next.flight && p.wire.Full?
      ensures Grounded(next, p.wire.m.id, p.wire.m.hop)
    {
      PacketGrounded(net, next, a, p);
    }
  }

  lemma NodeGroundedAfter(net: Net, a: Action, n: NodeId)
    requires Integrity(net) && HopsGrounded(net) && Enabled(net, a) && Grows(net, Apply(net, a)) && n in net.nodes
    ensures NodeGrounded(Apply(net, a), Apply(net, a).nodes[n])
  {
    if !a.Lose? && n == Actor(net, a) {
      ActorGrounded(net, Apply(net, a), a);
    } else {
      NodeStaysGrounded(net, Apply(net, a), net.nodes[n]);
    }
  }

  lemma HopsStep(net: Net, a: Action)
    requires Integrity(net) && HopsGrounded(net) && Enabled(net, a)
    ensures HopsGrounded(Apply(net, a))
  {
    IntegrityStep(net, a);
    FlightGrounded(net, a);
    forall n | n in net.nodes
      ensures NodeGrounded(Apply(net, a), Apply(net, a).nodes[n])
    {
      NodeGroundedAfter(net, a, n);
    }
  }

  lemma NodeStaysGrounded(net: Net, next: Net, s: NodeState)
    requires Grows(net, next) && NodeGrounded(net, s)
    ensures NodeGrounded(next, s)
  {
    forall id | id in s.cache
      ensures Grounded(next, id, s.cache[id].hop)
    {
      GroundedStays(net, next, id, s.cache[id].hop);
    }
    forall id | id in s.hops
      ensures Grounded(next, id, s.hops[id])
    {
      GroundedStays(net, next, id, s.hops[id]);
    }
  }

  lemma {:induction false} HopsAlways(net: Net, actions: seq<Action>, end: Net)
    requires Integrity(net) && HopsGrounded(net) && Runs(net, actions, end)
    ensures Integrity(end) && HopsGrounded(end)
    decreases |actions|
  {
    if actions == [] {
    } else {
      IntegrityStep(net, actions[0]);
      HopsStep(net, actions[0]);
      HopsAlways(Apply(net, actions[0]), actions[1..], end);
    }
  }

  // ---- the pigeonhole ----

  ghost predicate Recorded(net: Net, n: NodeId, id: MsgId) {
    n in net.nodes && id in net.nodes[n].hops
  }

  /** Below a recorded hop count, every smaller one was recorded by a node of its own. */
  lemma {:induction false} Ladder(net: Net, id: MsgId, n: NodeId, h: nat) returns (rungs: set<NodeId>)
    requires forall k :: Recorded(net, k, id) ==> Grounded(net, id, net.nodes[k].hops[id])
    requires Recorded(net, n, id) && net.nodes[n].hops[id] == h
    ensures |rungs| == h + 1
    ensures forall k :: k in rungs ==> Recorded(net, k, id) && net.nodes[k].hops[id] <= h
    decreases h
  {
    if h == 0 {
      rungs := {n};
    } else {
      assert Grounded(net, id, h);
      var below :| Recorded(net, below, id) && net.nodes[below].hops[id] == h - 1;
      var lower := Ladder(net, id, below, h - 1);
      assert n !in lower;
      rungs := lower + {n};
    }
  }

  lemma RecordersAreTakers(net: Net, id: MsgId, rungs: set<NodeId>)
    requires Integrity(net) && forall k :: k in rungs ==> Recorded(net, k, id)
    ensures |rungs| <= |Takers(net, id)|
  {
    forall k | k in rungs
      ensures k in Takers(net, id)
    {
      assert NodeOk(net, k);
    }
    SubsetSize(rungs, Takers(net, id));
  }

  /** In every reachable state a hop count is below the number of nodes that received the message from the
      network, hence below the number of nodes less one. */
  lemma HopBound(net: Net, actions: seq<Action>, end: Net, n: NodeId, id: MsgId)
    requires Init(net) && Runs(net, actions, end) && Recorded(end, n, id)
    ensures end.nodes[n].hops[id] < |Takers(end, id)| <= |end.nodes| - 1
  {
    IntegrityFromInit(net);
    HopsAlways(net, actions, end);
    forall k | Recorded(end, k, id)
      ensures Grounded(end, id, end.nodes[k].hops[id])
    {
      assert NodeGrounded(end, end.nodes[k]);
    }
    var rungs := Ladder(end, id, n, end.nodes[n].hops[id]);
    RecordersAreTakers(end, id, rungs);
    assert NodeOk(end, n) && Genuine(end, end.nodes[n].cache[id]);
    NeverOrigin(end, id);
  }
}
