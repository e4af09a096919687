/** Mesh degree: D_high is never exceeded, and maintenance restores at least D_low where it can. */
module GossipMesh {
  import opened Collections
  import opened MessageIds
  import opened GossipNode
  import opened GossipSteps
  import opened GossipNetwork

  ghost predicate DegreesOrdered(c: Config) {
    0 <= c.dLow <= c.d <= c.dHigh
  }

  ghost predicate DegreeOk(c: Config, s: NodeState) {
    forall t :: t in s.mesh ==> |s.mesh[t]| <= c.dHigh
  }

  ghost predicate MeshesBounded(net: Net) {
    forall n :: n in net.nodes ==> DegreeOk(net.config, net.nodes[n])
  }

  lemma UnionSize<T>(a: set<T>, b: set<T>)
    requires a !! b
    ensures |a + b| == |a| + |b|
  {
  }

  lemma TakeSize<T>(order: seq<T>, k: nat)
    requires NoDup(order)
    ensures |Elements(PyTake(order, k))| == Min(k, |order|)
  {
    NoDupSize(PyTake(order, k));
  }

  /** Topping a mesh up from the other peers reaches the target size, or takes every peer. */
  lemma TopUp(mesh: set<NodeId>, peers: set<NodeId>, order: seq<NodeId>, target: nat)
    requires mesh <= peers && IsShuffle(order, peers - mesh) && |mesh| <= target
    ensures var grown := mesh + Elements(PyTake(order, target - |mesh|));
            grown <= peers && |grown| == Min(target, |peers|)
  {
    var chosen := PyTake(order, target - |mesh|);
    TakeSubset(order, target - |mesh|);
    TakeSize(order, target - |mesh|);
    NoDupSize(order);
    UnionSize(mesh, Elements(chosen));
    UnionSize(mesh, peers - mesh);
    assert mesh + (peers - mesh) == peers;
  }

  lemma Remeshed(c: Config, s: NodeState, topic: Topic, order: seq<NodeId>)
    ensures var e, mesh, chosen := OnMaintain(c, s, topic, order), LiveMesh(s, topic), Rematched(c, s, topic, order);
            && MeshOf(e.s, topic) == (if |mesh| < c.dLow then mesh + Elements(chosen) else mesh - Elements(chosen))
            && (forall t :: t != topic ==> MeshOf(e.s, t) == MeshOf(s, t))
  {
  }

  lemma Told(c: Config, s: NodeState, topic: Topic, order: seq<NodeId>)
    ensures var e, mesh, chosen := OnMaintain(c, s, topic, order), LiveMesh(s, topic), Rematched(c, s, topic, order);
            && (|mesh| < c.dLow ==> forall p :: p in e.out ==> p.wire == Graft(topic))
            && |e.out| == |chosen|
  {
  }

  lemma GrownMesh(c: Config, s: NodeState, topic: Topic, order: seq<NodeId>)
    requires DegreesOrdered(c) && IsShuffle(order, MaintainPool(c, s, topic)) && |LiveMesh(s, topic)| < c.dLow
    ensures var grown := LiveMesh(s, topic) + Elements(Rematched(c, s, topic, order));
            grown <= s.peers && |grown| == Min(c.d, |s.peers|)
  {
    var live := LiveMesh(s, topic);
    assert MaintainPool(c, s, topic) == s.peers - live;
    assert Rematched(c, s, topic, order) == PyTake(order, c.d - |live|);
    TopUp(live, s.peers, order, c.d);
  }

  lemma KeptMesh(c: Config, s: NodeState, topic: Topic, order: seq<NodeId>)
    requires DegreesOrdered(c) && |MeshOf(s, topic)| <= c.dHigh && |LiveMesh(s, topic)| >= c.dLow
    ensures |LiveMesh(s, topic)| <= c.dHigh && Rematched(c, s, topic, order) == []
    ensures LiveMesh(s, topic) - Elements(Rematched(c, s, topic, order)) == LiveMesh(s, topic)
  {
    SubsetSize(LiveMesh(s, topic), MeshOf(s, topic));
  }

  /** What one maintenance round leaves when the degrees are ordered and the mesh was not over D_high:
      a mesh of live peers, topped up to D or to all there are, and nobody pruned. */
  lemma MaintainOutcome(c: Config, s: NodeState, topic: Topic, order: seq<NodeId>)
    requires DegreesOrdered(c) && |MeshOf(s, topic)| <= c.dHigh
    requires IsShuffle(order, MaintainPool(c, s, topic))
    ensures var mesh := MeshOf(OnMaintain(c, s, topic, order).s, topic);
            && LiveMesh(s, topic) <= mesh <= s.peers
            && Min(c.dLow, |s.peers|) <= |mesh| <= c.dHigh
            && (|LiveMesh(s, topic)| < c.dLow ==> |mesh| == Min(c.d, |s.peers|))
    ensures forall p :: p in OnMaintain(c, s, topic, order).out ==> p.wire == Graft(topic)
  {
    Remeshed(c, s, topic, order);
    Told(c, s, topic, order);
    if |LiveMesh(s, topic)| < c.dLow {
      GrownMesh(c, s, topic, order);
    } else {
      KeptMesh(c, s, topic, order);
    }
  }

  lemma GraftDegree(c: Config, s: NodeState, from: NodeId, topic: Topic)
    requires DegreeOk(c, s) && 0 <= c.dHigh
    ensures DegreeOk(c, OnGraft(c, s, from, topic).s)
  {
    UnionSize(MeshOf(s, topic), {from} - MeshOf(s, topic));
    assert MeshOf(s, topic) + {from} == MeshOf(s, topic) + ({from} - MeshOf(s, topic));
    SubsetSize({from} - MeshOf(s, topic), {from});
  }

  lemma PruneDegree(c: Config, s: NodeState, from: NodeId, topic: Topic)
    requires DegreeOk(c, s)
    ensures DegreeOk(c, OnPrune(s, from, topic).s)
  {
    SubsetSize(MeshOf(s, topic) - {from}, MeshOf(s, topic));
  }

  lemma WireDegree(c: Config, s: NodeState, from: NodeId, w: Wire, order: seq<NodeId>)
    requires DegreeOk(c, s) && 0 <= c.dHigh
    ensures DegreeOk(c, OnWire(c, s, from, w, order).s)
  {
    match w
    case Graft(topic) => GraftDegree(c, s, from, topic);
    case Prune(topic) => PruneDegree(c, s, from, topic);
    case _ =>
  }

  lemma MeshUpdateDegree(c: Config, s: NodeState, topic: Topic, members: set<NodeId>)
    requires DegreeOk(c, s) && |members| <= c.dHigh
    ensures DegreeOk(c, s.(mesh := s.mesh[topic := members]))
  {
  }

  lemma MaintainDegree(c: Config, s: NodeState, topic: Topic, order: seq<NodeId>)
    requires DegreesOrdered(c) && DegreeOk(c, s) && IsShuffle(order, MaintainPool(c, s, topic))
    ensures DegreeOk(c, OnMaintain(c, s, topic, order).s)
  {
    MaintainOutcome(c, s, topic, order);
    MeshUpdateDegree(c, s, topic, MeshOf(OnMaintain(c, s, topic, order).s, topic));
  }

  lemma MeshStep(net: Net, a: Action)
    requires DegreesOrdered(net.config) && MeshesBounded(net) && Enabled(net, a)
    ensures MeshesBounded(Apply(net, a))
  {
    if !a.Lose? {
      EffectDegree(net, a);
      assert Apply(net, a).nodes == net.nodes[Actor(net, a) := NodeEffect(net, a).s];
    }
  }

  lemma EffectDegree(net: Net, a: Action)
    requires DegreesOrdered(net.config) && MeshesBounded(net) && Enabled(net, a) && !a.Lose?
    ensures DegreeOk(net.config, NodeEffect(net, a).s)
  {
    var s := net.nodes[Actor(net, a)];
    assert DegreeOk(net.config, s);
    if a.Deliver? {
      WireDegree(net.config, s, net.flight[a.at].src, net.flight[a.at].wire, a.order);
    } else if a.Subscribe? {
      MeshUpdateDegree(net.config, s, a.topic, MeshOf(s, a.topic));
    } else if a.Maintain? {
      MaintainDegree(net.config, s, a.topic, a.order);
    }
  }

  /** Under any mix of GRAFT, PRUNE, heartbeats, traffic and loss no mesh ever exceeds D_high. */
  lemma {:induction false} MeshesAlwaysBounded(net: Net, actions: seq<Action>, end: Net)
    requires DegreesOrdered(net.config) && MeshesBounded(net) && Runs(net, actions, end)
    ensures MeshesBounded(end) && end.config == net.config
    decreases |actions|
  {
    if actions == [] {
    } else {
      MeshStep(net, actions[0]);
      MeshesAlwaysBounded(Apply(net, actions[0]), actions[1..], end);
    }
  }

  /** Hence heartbeats never prune: the branch for an overfull mesh is dead in every reachable state. */
  lemma NeverPrunesExcess(net: Net, actions: seq<Action>, end: Net, n: NodeId, topic: Topic)
    requires DegreesOrdered(net.config) && MeshesBounded(net) && Runs(net, actions, end) && n in end.nodes
    ensures |LiveMesh(end.nodes[n], topic)| <= end.config.dHigh
  {
    MeshesAlwaysBounded(net, actions, end);
    assert DegreeOk(end.config, end.nodes[n]);
    SubsetSize(LiveMesh(end.nodes[n], topic), MeshOf(end.nodes[n], topic));
  }
}
