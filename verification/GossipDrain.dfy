/** Termination: deliveries alone always bring the network to rest, within an explicit number of steps. */
module GossipDrain {
  import opened Collections
  import opened MessageIds
  import opened GossipNode
  import opened GossipSteps
  import opened GossipNetwork

  function Unseen(net: Net): set<(NodeId, MsgId)> {
    set n, id | n in net.nodes && id in net.pub && id !in net.nodes[n].seen :: (n, id)
  }

  function Unasked(net: Net): set<(NodeId, MsgId)> {
    set n, id | n in net.nodes && id in net.pub && id !in net.nodes[n].pending :: (n, id)
  }

  /** How many packets a packet can turn into, itself included. */
  function PacketWeight(p: Packet): nat {
    match p.wire
    case IWant(ids) => 1 + |ids|
    case Graft(_) => 2
    case _ => 1
  }

  function Weight(flight: seq<Packet>): nat {
    if flight == [] then 0 else PacketWeight(flight[0]) + Weight(flight[1..])
  }

  function Potential(net: Net): nat {
    |net.nodes| * |Unseen(net)| + 2 * |Unasked(net)| + Weight(net.flight)
  }

  lemma {:induction false} WeightConcat(a: seq<Packet>, b: seq<Packet>)
    ensures Weight(a + b) == Weight(a) + Weight(b)
  {
    if a == [] {
      assert a + b == b;
    } else {
      WeightConcat(a[1..], b);
      assert (a + b)[1..] == a[1..] + b;
    }
  }

  lemma WeightRemove(flight: seq<Packet>, i: nat)
    requires i < |flight|
    ensures Weight(flight) == PacketWeight(flight[i]) + Weight(RemoveAt(flight, i))
  {
    var a, b := flight[..i], flight[i + 1..];
    WeightConcat(a, b);
    WeightConcat(a, [flight[i]] + b);
    assert flight == a + ([flight[i]] + b);
    assert ([flight[i]] + b)[1..] == b;
  }

  lemma {:induction false} WeightOfLight(out: seq<Packet>)
    requires forall p :: p in out ==> PacketWeight(p) == 1
    ensures Weight(out) == |out|
  {
    if out == [] {
    } else {
      assert out[0] in out;
      assert forall p :: p in out[1..] ==> p in out;
      WeightOfLight(out[1..]);
    }
  }

  // ---- what one delivery costs and earns ----

  lemma ForwardWeight(self: NodeId, order: seq<NodeId>, fwd: Message)
    ensures Weight(Forwards(self, order, fwd)) == |order|
  {
    forall p | p in Forwards(self, order, fwd)
      ensures PacketWeight(p) == 1
    {
      ForwardsAre(self, order, fwd, p);
    }
    WeightOfLight(Forwards(self, order, fwd));
  }

  lemma ReplyWeight(s: NodeState, from: NodeId, ids: seq<MsgId>)
    ensures Weight(Replies(s, from, ids)) <= |ids|
  {
    RepliesAre(s, from, ids);
    WeightOfLight(Replies(s, from, ids));
  }

  lemma ControlWeight(c: Config, s: NodeState, from: NodeId, w: Wire, order: seq<NodeId>)
    requires w.Graft? || w.Prune? || w.Junk?
    ensures Weight(OnWire(c, s, from, w, order).out) < PacketWeight(Packet(from, s.id, w))
  {
    assert Weight([Packet(s.id, from, Prune(if w.Graft? then w.topic else Topic("")))]) == 1;
  }

  lemma IHaveWeight(s: NodeState, from: NodeId, topic: Topic, ids: seq<MsgId>)
    requires NoDup(ids)
    ensures var e, asked := OnIHave(s, from, topic, ids), Asked(s, IHave(topic, ids));
            Weight(e.out) < 1 + 2 * |asked|
  {
    var wanted := Wanted(s, ids);
    WantedNoDup(s, ids);
    NoDupSize(wanted);
    if wanted != [] {
      assert wanted[0] in Elements(wanted);
    }
    assert forall p: Packet :: Weight([p]) == PacketWeight(p);
  }

  // ---- the potential falls ----

  lemma PairsShrink(net: Net, next: Net)
    requires Grows(net, next) && next.pub == net.pub
    ensures Unseen(next) <= Unseen(net) && Unasked(next) <= Unasked(net)
    ensures |Unseen(next)| <= |Unseen(net)| && |Unasked(next)| <= |Unasked(net)|
  {
    forall n | n in net.nodes
      ensures net.nodes[n].seen <= next.nodes[n].seen && net.nodes[n].pending <= next.nodes[n].pending
    {
      assert NodeGrows(net.nodes[n], next.nodes[n]);
    }
    SubsetSize(Unseen(next), Unseen(net));
    SubsetSize(Unasked(next), Unasked(net));
  }

  lemma FirstSightShrinks(net: Net, next: Net, n: NodeId, id: MsgId)
    requires Grows(net, next) && next.pub == net.pub && n in net.nodes && id in net.pub
    requires id !in net.nodes[n].seen && id in next.nodes[n].seen
    ensures |Unseen(next)| + 1 <= |Unseen(net)|
  {
    PairsShrink(net, next);
    DisjointSize(Unseen(next), {(n, id)}, Unseen(net));
  }

  lemma {:induction false} PairedSize(n: NodeId, ids: set<MsgId>)
    ensures |set id | id in ids :: (n, id)| == |ids|
  {
    var pairs := set id | id in ids :: (n, id);
    if ids == {} {
      assert pairs == {};
    } else {
      var id :| id in ids;
      PairedSize(n, ids - {id});
      assert pairs == (set k | k in ids - {id} :: (n, k)) + {(n, id)};
    }
  }

  lemma RequestShrinks(net: Net, next: Net, n: NodeId, asked: set<MsgId>)
    requires Grows(net, next) && next.pub == net.pub && n in net.nodes
    requires asked <= net.pub.Keys && asked !! net.nodes[n].pending && asked <= next.nodes[n].pending
    ensures |Unasked(next)| + |asked| <= |Unasked(net)|
  {
    PairsShrink(net, next);
    PairedSize(n, asked);
    DisjointSize(Unasked(next), set id | id in asked :: (n, id), Unasked(net));
  }

  lemma PotentialOf(net: Net, next: Net, unseen: nat, unasked: nat, consumed: nat, sent: nat)
    requires next.nodes.Keys == net.nodes.Keys
    requires |Unseen(next)| + unseen <= |Unseen(net)| && |Unasked(next)| + unasked <= |Unasked(net)|
    requires Weight(next.flight) + consumed == Weight(net.flight) + sent
    requires sent < consumed + |net.nodes| * unseen + 2 * unasked
    ensures Potential(next) < Potential(net)
  {
    assert |next.nodes| == |next.nodes.Keys| && |net.nodes| == |net.nodes.Keys|;
    Scaled(|net.nodes|, |Unseen(next)|, unseen, |Unseen(net)|);
  }

  lemma DeliveryWeight(net: Net, a: Action)
    requires Enabled(net, a) && a.Deliver?
    ensures Weight(Apply(net, a).flight) + PacketWeight(net.flight[a.at])
              == Weight(net.flight) + Weight(NodeEffect(net, a).out)
  {
    WeightRemove(net.flight, a.at);
    WeightConcat(Remaining(net, a), NodeEffect(net, a).out);
  }

  lemma TargetsAreNodes(net: Net, a: Action)
    requires Integrity(net) && Enabled(net, a) && TakesFirst(net, a)
    ensures |a.order| <= |net.nodes|
  {
    var p := net.flight[a.at];
    assert NodeOk(net, p.dst);
    assert forall x :: x in Elements(a.order) ==> Knows(net.nodes[p.dst], x);
    NoDupSize(a.order);
    SubsetSize(Elements(a.order), net.nodes.Keys);
  }

  lemma MessageLowersPotential(net: Net, a: Action)
    requires Integrity(net) && Enabled(net, a) && a.Deliver? && net.flight[a.at].wire.Full?
    ensures Potential(Apply(net, a)) < Potential(net)
  {
    var p, next, out := net.flight[a.at], Apply(net, a), NodeEffect(net, a).out;
    var m := p.wire.m;
    assert p in net.flight && PacketOk(net, p);
    IntegrityStep(net, a);
    DeliveryWeight(net, a);
    PairsShrink(net, next);
    if TakesFirst(net, a) {
      TargetsAreNodes(net, a);
      ForwardWeight(net.nodes[p.dst].id, a.order, m.(hop := m.hop + 1, sender := net.nodes[p.dst].id));
      FirstSightShrinks(net, next, p.dst, m.id);
      PotentialOf(net, next, 1, 0, 1, Weight(out));
    } else {
      PotentialOf(net, next, 0, 0, 1, Weight(out));
    }
  }

  /** The ids an IHAVE makes its receiver mark as requested. */
  lemma AskedAreNew(net: Net, a: Action)
    requires Integrity(net) && Enabled(net, a) && a.Deliver? && net.flight[a.at].wire.IHave?
    ensures var n, asked := net.flight[a.at].dst, Requested(net, a);
            asked <= net.pub.Keys && asked !! net.nodes[n].pending && asked <= Apply(net, a).nodes[n].pending
  {
    var p := net.flight[a.at];
    WantedIsFilter(net.nodes[p.dst], p.wire.ids);
    IntegrityStep(net, a);
    ActionDisciplined(net, a);
    assert NodeOk(Apply(net, a), p.dst);
  }

  lemma IHaveLowersPotential(net: Net, a: Action)
    requires Integrity(net) && Enabled(net, a) && a.Deliver? && net.flight[a.at].wire.IHave?
    ensures Potential(Apply(net, a)) < Potential(net)
  {
    var p, next, asked, sent := net.flight[a.at], Apply(net, a), Requested(net, a), Weight(NodeEffect(net, a).out);
    assert sent < 1 + 2 * |asked| by {
      assert p in net.flight && PacketOk(net, p);
      IHaveWeight(net.nodes[p.dst], p.src, p.wire.topic, p.wire.ids);
    }
    IntegrityStep(net, a);
    DeliveryWeight(net, a);
    PairsShrink(net, next);
    AskedAreNew(net, a);
    RequestShrinks(net, next, p.dst, asked);
    PotentialOf(net, next, 0, |asked|, 1, sent);
  }

  lemma OtherWeight(c: Config, s: NodeState, from: NodeId, w: Wire, order: seq<NodeId>)
    requires !w.Full? && !w.IHave?
    ensures Weight(OnWire(c, s, from, w, order).out) < PacketWeight(Packet(from, s.id, w))
  {
    if w.IWant? {
      ReplyWeight(s, from, w.ids);
    } else {
      ControlWeight(c, s, from, w, order);
    }
  }

  lemma OtherLowersPotential(net: Net, a: Action)
    requires Integrity(net) && Enabled(net, a) && a.Deliver?
    requires !net.flight[a.at].wire.Full? && !net.flight[a.at].wire.IHave?
    ensures Potential(Apply(net, a)) < Potential(net)
  {
    var p, next, sent := net.flight[a.at], Apply(net, a), Weight(NodeEffect(net, a).out);
    IntegrityStep(net, a);
    DeliveryWeight(net, a);
    PairsShrink(net, next);
    assert sent < PacketWeight(p) by {
      OtherWeight(net.config, net.nodes[p.dst], p.src, p.wire, a.order);
    }
    PotentialOf(net, next, 0, 0, PacketWeight(p), sent);
  }

  /** Every delivery, whatever the packet, lowers the potential. */
  lemma DeliveryLowersPotential(net: Net, a: Action)
    requires Integrity(net) && Enabled(net, a) && a.Deliver?
    ensures Potential(Apply(net, a)) < Potential(net)
  {
    if net.flight[a.at].wire.Full? {
      MessageLowersPotential(net, a);
    } else if net.flight[a.at].wire.IHave? {
      IHaveLowersPotential(net, a);
    } else {
      OtherLowersPotential(net, a);
    }
  }

  ghost predicate OnlyDeliveries(actions: seq<Action>) {
    forall a :: a in actions ==> a.Deliver?
  }

  /** Without publications and heartbeats the network delivers at most Potential(net) packets more. */
  lemma {:induction false} DrainBound(net: Net, actions: seq<Action>, end: Net)
    requires Integrity(net) && Runs(net, actions, end) && OnlyDeliveries(actions)
    ensures |actions| + Potential(end) <= Potential(net)
    decreases |actions|
  {
    if actions == [] {
    } else {
      assert actions[0] in actions && forall a :: a in actions[1..] ==> a in actions;
      IntegrityStep(net, actions[0]);
      DeliveryLowersPotential(net, actions[0]);
      DrainBound(Apply(net, actions[0]), actions[1..], end);
    }
  }

  lemma {:induction false} ShuffleExists<T>(xs: set<T>) returns (order: seq<T>)
    ensures IsShuffle(order, xs)
    decreases xs
  {
    if xs == {} {
      order := [];
    } else {
      var x :| x in xs;
      var rest := ShuffleExists(xs - {x});
      assert x !in Elements(rest);
      order := rest + [x];
      assert Elements(order) == Elements(rest) + {x};
    }
  }

  /** Nothing ever gets stuck: while a packet is in flight, the oldest one can be delivered. */
  lemma CanDeliver(net: Net) returns (a: Action)
    requires Integrity(net) && net.flight != []
    ensures a.Deliver? && Enabled(net, a)
  {
    var p := net.flight[0];
    assert p in net.flight && PacketOk(net, p);
    var order := [];
    if p.wire.Full? {
      order := ShuffleExists(Targets(net.nodes[p.dst], p.src, p.wire.m));
    }
    a := Deliver(0, order);
  }

  /** From every reachable state, deliveries alone empty the network. */
  lemma {:induction false} GoesQuiet(net: Net) returns (actions: seq<Action>, end: Net)
    requires Integrity(net)
    ensures Runs(net, actions, end) && OnlyDeliveries(actions) && end.flight == []
    decreases Potential(net)
  {
    if net.flight == [] {
      actions, end := [], net;
    } else {
      var a := CanDeliver(net);
      IntegrityStep(net, a);
      DeliveryLowersPotential(net, a);
      var more;
      more, end := GoesQuiet(Apply(net, a));
      actions := [a] + more;
      assert actions[1..] == more;
    }
  }
}
