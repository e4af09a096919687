/** What every GossipSub handler has in common, whatever it is: the local discipline from which the
    network-wide invariants follow. */
module GossipSteps {
  import opened Collections
  import opened MessageIds
  import opened GossipNode

  /** The dedup set is the cache's key set, hop counts are kept for received ids, and ids index the cache. */
  ghost predicate LocalOk(s: NodeState) {
    && s.seen == s.cache.Keys && s.hops.Keys == s.received && s.received <= s.seen
    && (forall id :: id in s.cache ==> s.cache[id].id == id)
  }

  ghost predicate Knows(s: NodeState, x: NodeId) {
    x in s.peers || exists t :: t in s.mesh && x in s.mesh[t]
  }

  /** Nothing a node learnt is ever forgotten or altered. */
  ghost predicate NodeGrows(s: NodeState, t: NodeState) {
    && t.id == s.id && s.peers <= t.peers && s.subs <= t.subs && t.counter >= s.counter
    && s.seen <= t.seen && s.pending <= t.pending && s.received <= t.received
    && (forall id :: id in s.cache ==> id in t.cache && t.cache[id] == s.cache[id])
    && (forall id :: id in s.hops ==> id in t.hops && t.hops[id] == s.hops[id])
  }

  ghost predicate SameContent(m: Message, k: Message) {
    m.id == k.id && m.topic == k.topic && m.origin == k.origin && m.data == k.data
  }

  /** A packet a node in state `t` may send: it owns what it offers and asks only for what it marked. */
  ghost predicate OutOk(s: NodeState, t: NodeState, from: Option<NodeId>, asked: set<MsgId>, p: Packet) {
    && p.src == s.id && (from == Some(p.dst) || Knows(s, p.dst))
    && match p.wire
       case Full(m) => m.id in t.cache && SameContent(m, t.cache[m.id]) && m.sender == s.id
       case IHave(topic, ids) => NoDup(ids) && Elements(ids) <= t.seen
       case IWant(ids) => NoDup(ids) && Elements(ids) <= asked && from == Some(p.dst)
       case _ => true
  }

  /** `e` is a disciplined reaction to a packet from `from` (None for the node's own initiative) in which
      the node gains the message `gain` and marks the ids `asked` as requested. */
  ghost predicate Disciplined(s: NodeState, e: Effect, from: Option<NodeId>, gain: Option<Message>, asked: set<MsgId>) {
    && LocalOk(e.s) && NodeGrows(s, e.s)
    && e.s.cache == (if gain.Some? then s.cache[gain.value.id := gain.value] else s.cache)
    && e.s.pending == s.pending + asked && asked !! s.seen
    && (forall id :: id in e.s.received ==> id in s.received || id !in s.seen)
    && (forall id :: id in e.s.hops ==>
          || (id in s.hops && e.s.hops[id] == s.hops[id])
          || (gain.Some? && gain.value.id == id && e.s.hops[id] == gain.value.hop))
    && (forall x :: Knows(e.s, x) ==> Knows(s, x) || from == Some(x))
    && (forall p :: p in e.out ==> OutOk(s, e.s, from, asked, p))
  }

  function Gain(s: NodeState, w: Wire): Option<Message> {
    if w.Full? && w.m.id !in s.seen then Some(w.m) else None
  }

  function Asked(s: NodeState, w: Wire): set<MsgId> {
    if w.IHave? && w.topic in s.subs then Elements(Wanted(s, w.ids)) else {}
  }

  /** A new peer is met as if it had sent something. */
  lemma AddPeerDisciplined(s: NodeState, peer: NodeId)
    requires LocalOk(s)
    ensures Disciplined(s, OnAddPeer(s, peer), Some(peer), None, {})
  {
    assert OnAddPeer(s, peer).s.mesh == s.mesh && s.pending == s.pending + {};
  }

  lemma SubscribeDisciplined(s: NodeState, topic: Topic)
    requires LocalOk(s)
    ensures Disciplined(s, OnSubscribe(s, topic), None, None, {})
  {
    assert forall x :: x in MeshOf(s, topic) ==> Knows(s, x);
    MeshUpdateKnown(s, topic, MeshOf(s, topic), None);
    assert s.pending == s.pending + {};
  }

  lemma PublishDisciplined(s: NodeState, topic: Topic, data: Bytes, order: seq<NodeId>)
    requires LocalOk(s) && IsShuffle(order, PublishTargets(s, topic))
    requires Fresh(s, topic, data).id !in s.seen
    ensures Disciplined(s, OnPublish(s, topic, data, order), None, Some(Fresh(s, topic, data)), {})
  {
    var e := OnPublish(s, topic, data, order);
    forall p | p in e.out
      ensures OutOk(s, e.s, None, {}, p)
    {
      assert p.dst in Elements(order);
    }
    assert e.s.mesh == s.mesh;
  }

  lemma ForwardsAre(self: NodeId, order: seq<NodeId>, fwd: Message, p: Packet)
    requires p in Forwards(self, order, fwd)
    ensures p.src == self && p.dst in order && (p.wire == Full(fwd) || p.wire == IHave(fwd.topic, [fwd.id]))
  {
    if p != Packet(self, order[0], Full(fwd)) {
      assert p in Broadcast(self, order[1..], IHave(fwd.topic, [fwd.id]));
    }
  }

  lemma RecordDisciplined(s: NodeState, from: NodeId, m: Message, out: seq<Packet>)
    requires LocalOk(s) && m.id !in s.seen
    requires forall p :: p in out ==> OutOk(s, Recorded(s, m), Some(from), {}, p)
    ensures Disciplined(s, Effect(Recorded(s, m), out), Some(from), Some(m), {})
  {
    assert Recorded(s, m).mesh == s.mesh && s.pending == s.pending + {};
  }

  lemma MessageDisciplined(s: NodeState, from: NodeId, m: Message, order: seq<NodeId>)
    requires LocalOk(s) && IsShuffle(order, Targets(s, from, m))
    ensures Disciplined(s, OnMessage(s, from, m, order), Some(from), Gain(s, Full(m)), {})
  {
    if m.id in s.seen {
      assert s.pending == s.pending + {};
    } else if m.topic !in s.subs {
      RecordDisciplined(s, from, m, []);
    } else {
      var fwd := m.(hop := m.hop + 1, sender := s.id);
      forall p | p in Forwards(s.id, order, fwd)
        ensures OutOk(s, Recorded(s, m), Some(from), {}, p)
      {
        ForwardsAre(s.id, order, fwd, p);
        assert p.dst in Elements(order) && p.dst in MeshOf(s, m.topic);
      }
      RecordDisciplined(s, from, m, Forwards(s.id, order, fwd));
    }
  }

  lemma MeshUpdateKnown(s: NodeState, topic: Topic, members: set<NodeId>, from: Option<NodeId>)
    requires forall x :: x in members ==> Knows(s, x) || from == Some(x)
    ensures forall x :: Knows(s.(mesh := s.mesh[topic := members]), x) ==> Knows(s, x) || from == Some(x)
  {
  }

  lemma MeshChangeDisciplined(s: NodeState, topic: Topic, members: set<NodeId>, from: Option<NodeId>, out: seq<Packet>)
    requires LocalOk(s) && forall x :: x in members ==> Knows(s, x) || from == Some(x)
    requires forall p :: p in out ==> OutOk(s, s.(mesh := s.mesh[topic := members]), from, {}, p)
    ensures Disciplined(s, Effect(s.(mesh := s.mesh[topic := members]), out), from, None, {})
  {
    assert s.pending == s.pending + {};
    MeshUpdateKnown(s, topic, members, from);
  }

  lemma GraftDisciplined(c: Config, s: NodeState, from: NodeId, topic: Topic)
    requires LocalOk(s)
    ensures Disciplined(s, OnGraft(c, s, from, topic), Some(from), None, {})
  {
    assert forall x :: x in MeshOf(s, topic) ==> Knows(s, x);
    if topic in s.subs {
      if |MeshOf(s, topic)| < c.dHigh {
        MeshChangeDisciplined(s, topic, MeshOf(s, topic) + {from}, Some(from), []);
      } else {
        MeshChangeDisciplined(s, topic, MeshOf(s, topic), Some(from), [Packet(s.id, from, Prune(topic))]);
      }
    } else {
      assert s.pending == s.pending + {};
    }
  }

  lemma PruneDisciplined(s: NodeState, from: NodeId, topic: Topic)
    requires LocalOk(s)
    ensures Disciplined(s, OnPrune(s, from, topic), Some(from), None, {})
  {
    assert s.pending == s.pending + {};
  }

  lemma IHaveDisciplined(s: NodeState, from: NodeId, topic: Topic, ids: seq<MsgId>)
    requires LocalOk(s) && NoDup(ids)
    ensures Disciplined(s, OnIHave(s, from, topic, ids), Some(from), None, Asked(s, IHave(topic, ids)))
  {
    var wanted := Wanted(s, ids);
    WantedIsFilter(s, ids);
    WantedNoDup(s, ids);
    TakeSubset(wanted, IWANT_LIMIT);
    assert OnIHave(s, from, topic, ids).s.mesh == s.mesh;
    assert s.pending == s.pending + {};
  }

  lemma IWantDisciplined(s: NodeState, from: NodeId, ids: seq<MsgId>)
    requires LocalOk(s)
    ensures Disciplined(s, Effect(s, Replies(s, from, ids)), Some(from), None, {})
  {
    RepliesAre(s, from, ids);
  }

  lemma MaintainDisciplined(c: Config, s: NodeState, topic: Topic, order: seq<NodeId>)
    requires LocalOk(s) && Elements(order) <= s.peers
    ensures Disciplined(s, OnMaintain(c, s, topic, order), None, None, {})
  {
    RematchedSubset(c, s, topic, order);
    var mesh, chosen := LiveMesh(s, topic), Rematched(c, s, topic, order);
    if |mesh| < c.dLow {
      RemeshDisciplined(s, topic, mesh + Elements(chosen), chosen, Graft(topic));
    } else {
      RemeshDisciplined(s, topic, mesh - Elements(chosen), chosen, Prune(topic));
    }
  }

  lemma RematchedSubset(c: Config, s: NodeState, topic: Topic, order: seq<NodeId>)
    ensures Elements(Rematched(c, s, topic, order)) <= Elements(order)
  {
    TakeSubset(order, c.d - |LiveMesh(s, topic)|);
    TakeSubset(order, |LiveMesh(s, topic)| - c.d);
  }

  lemma RemeshDisciplined(s: NodeState, topic: Topic, members: set<NodeId>, told: seq<NodeId>, w: Wire)
    requires LocalOk(s) && (w.Graft? || w.Prune?) && members <= s.peers && Elements(told) <= s.peers
    ensures Disciplined(s, Remesh(s, topic, members, told, w), None, None, {})
  {
    var t := s.(mesh := s.mesh[topic := members]);
    assert s.pending == s.pending + {};
    MeshUpdateKnown(s, topic, members, None);
    forall p | p in Broadcast(s.id, told, w)
      ensures OutOk(s, t, None, {}, p)
    {
      assert p.dst in Elements(told);
    }
  }

  lemma GossipDisciplined(c: Config, s: NodeState, topic: Topic, listing: seq<MsgId>, sample: seq<NodeId>)
    requires LocalOk(s) && IsShuffle(listing, s.seen) && IsSample(c, s, topic, sample)
    ensures Disciplined(s, OnGossip(c, s, topic, listing, sample), None, None, {})
  {
    var e := OnGossip(c, s, topic, listing, sample);
    assert Elements(PyLast(listing, c.maxIHave)) <= Elements(listing);
    forall p | p in e.out
      ensures OutOk(s, e.s, None, {}, p)
    {
      assert p.dst in Elements(sample);
    }
  }

  lemma WireDisciplined(c: Config, s: NodeState, from: NodeId, w: Wire, order: seq<NodeId>)
    requires LocalOk(s)
    requires w.Full? ==> IsShuffle(order, Targets(s, from, w.m))
    requires w.IHave? ==> NoDup(w.ids)
    ensures Disciplined(s, OnWire(c, s, from, w, order), Some(from), Gain(s, w), Asked(s, w))
  {
    match w
    case Full(m) => MessageDisciplined(s, from, m, order);
    case Graft(topic) => GraftDisciplined(c, s, from, topic);
    case Prune(topic) => PruneDisciplined(s, from, topic);
    case IHave(topic, ids) => IHaveDisciplined(s, from, topic, ids);
    case IWant(ids) => IWantDisciplined(s, from, ids);
    case Junk =>
  }
}
