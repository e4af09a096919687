/** The GossipSub object of gossipsub.py: fields updated in place, each method proved to do exactly
    what the value-level handler of GossipNode says, for some outcome of its random choices. */
module GossipSubNode {
  import opened Collections
  import opened MessageIds
  import opened GossipNode

  /** Sending to one more peer. */
  lemma TakeNext(src: NodeId, order: seq<NodeId>, w: Wire, i: nat, live: set<NodeId>)
    requires i < |order|
    ensures live + Elements(order[..i + 1]) == live + Elements(order[..i]) + {order[i]}
    ensures live - Elements(order[..i + 1]) == live - Elements(order[..i]) - {order[i]}
    ensures Broadcast(src, order[..i + 1], w) == Broadcast(src, order[..i], w) + [Packet(src, order[i], w)]
  {
    assert order[..i + 1] == order[..i] + [order[i]];
  }

  lemma Overwrite<K, V>(m: map<K, V>, k: K, a: V, b: V)
    ensures m[k := a][k := b] == m[k := b]
  {
  }

  lemma Append<T>(a: seq<T>, b: seq<T>, x: T)
    ensures a + (b + [x]) == a + b + [x]
  {
  }

  /** Whom a maintenance round tells, and what it makes of the mesh: topped up, pruned, or kept. */
  lemma MaintainIs(c: Config, s: NodeState, topic: Topic, order: seq<NodeId>, chosen: seq<NodeId>)
    requires var live := LiveMesh(s, topic);
             chosen == if |live| < c.dLow then PyTake(order, c.d - |live|)
                       else if |live| > c.dHigh then PyTake(order, |live| - c.d)
                       else []
    ensures Rematched(c, s, topic, order) == chosen
    ensures |LiveMesh(s, topic)| < c.dLow ==>
              OnMaintain(c, s, topic, order)
                  == Remesh(s, topic, LiveMesh(s, topic) + Elements(chosen), chosen, Graft(topic))
    ensures |LiveMesh(s, topic)| >= c.dLow ==>
              OnMaintain(c, s, topic, order)
                  == Remesh(s, topic, LiveMesh(s, topic) - Elements(chosen), chosen, Prune(topic))
  {
  }

  lemma WantedNext(s: NodeState, ids: seq<MsgId>, i: nat, before: seq<MsgId>, after: seq<MsgId>)
    requires i < |ids|
    requires after == if ids[i] !in s.seen && ids[i] !in s.pending then before + [ids[i]] else before
    ensures before + Wanted(s, ids[i..]) == after + Wanted(s, ids[i + 1..])
  {
    assert ids[i..][1..] == ids[i + 1..];
  }

  /** What arrives from the transport, parsed. */
  datatype Raw = NoJson | NoObject | Object(w: Wire)

  class GossipSub {
    const config: Config
    const nodeId: NodeId
    var peers: set<NodeId>
    var mesh: map<Topic, set<NodeId>>
    var subscriptions: set<Topic>
    var seenMsgs: set<MsgId>
    var msgCache: map<MsgId, Message>
    var pendingIwant: set<MsgId>
    var msgCounter: nat
    var published: seq<MsgId>
    var received: set<MsgId>
    var totalReceived: nat
    var hopCounts: map<MsgId, nat>
    /** Packets handed to send_fn, oldest first. */
    var outbox: seq<Packet>

    ghost function State(): NodeState
      reads this
    {
      NodeState(nodeId, peers, mesh, subscriptions, seenMsgs, msgCache, pendingIwant, msgCounter,
                published, received, totalReceived, hopCounts)
    }

    twostate predicate Did(e: Effect)
      reads this
    {
      State() == e.s && outbox == old(outbox) + e.out
    }

    constructor (config: Config, nodeId: NodeId)
      ensures this.config == config && this.nodeId == nodeId
      ensures State() == NodeState(nodeId, {}, map[], {}, {}, map[], {}, 0, [], {}, 0, map[]) && outbox == []
    {
      this.config, this.nodeId := config, nodeId;
      peers, mesh, subscriptions, seenMsgs, msgCache, pendingIwant := {}, map[], {}, {}, map[], {};
      msgCounter, published, received, totalReceived, hopCounts, outbox := 0, [], {}, 0, map[], [];
    }

    method AddPeer(peer: NodeId)
      modifies this
      ensures State() == OnAddPeer(old(State()), peer).s && outbox == old(outbox)
      ensures peers == old(peers) + {peer}
    {
      peers := peers + {peer};
    }

    method Subscribe(topic: Topic)
      modifies this
      ensures State() == OnSubscribe(old(State()), topic).s && outbox == old(outbox)
      ensures topic in subscriptions && topic in mesh
      ensures forall t :: t in old(mesh) ==> t in mesh && mesh[t] == old(mesh[t])
    {
      subscriptions := subscriptions + {topic};
      if topic !in mesh {
        mesh := mesh[topic := {}];
      }
      assert mesh == old(mesh)[topic := MeshOf(old(State()), topic)];
    }

    method Send(peer: NodeId, w: Wire)
      modifies this`outbox
      ensures outbox == old(outbox) + [Packet(nodeId, peer, w)]
    {
      outbox := outbox + [Packet(nodeId, peer, w)];
    }

    /** `for peer in order: self._send(peer, w)` */
    method SendEach(order: seq<NodeId>, w: Wire)
      modifies this`outbox
      ensures outbox == old(outbox) + Broadcast(nodeId, order, w)
    {
      for i := 0 to |order|
        invariant outbox == old(outbox) + Broadcast(nodeId, order[..i], w)
      {
        TakeNext(nodeId, order, w, i, {});
        Send(order[i], w);
        Append(old(outbox), Broadcast(nodeId, order[..i], w), Packet(nodeId, order[i], w));
      }
      assert order[..|order|] == order;
    }

    /** A new message of this node's own, remembered and cached. */
    method Compose(topic: Topic, data: Bytes) returns (m: Message)
      modifies this
      ensures m == Fresh(old(State()), topic, data) && outbox == old(outbox)
      ensures State() == OnPublish(old(State()), topic, data, []).s
    {
      msgCounter := msgCounter + 1;
      var id := GenId(nodeId, msgCounter);
      published := published + [id];
      seenMsgs := seenMsgs + {id};
      m := Message(topic, id, nodeId, nodeId, 0, data);
      msgCache := msgCache[id := m];
    }

    method Publish(topic: Topic, data: Bytes) returns (id: MsgId, ghost order: seq<NodeId>)
      modifies this
      ensures id == GenId(nodeId, old(msgCounter) + 1)
      ensures IsShuffle(order, PublishTargets(old(State()), topic))
      ensures Did(OnPublish(old(State()), topic, data, order))
    {
      var listing := Recipients(topic);
      order := listing;
      var m := Compose(topic, data);
      id := m.id;
      SendEach(listing, Full(m));
    }

    /** The topic's mesh, or every peer when there is none, shuffled. */
    method Recipients(topic: Topic) returns (order: seq<NodeId>)
      ensures IsShuffle(order, PublishTargets(State(), topic))
    {
      order := Shuffle(if topic in mesh && mesh[topic] != {} then mesh[topic] else peers);
    }

    /** Bytes that are no JSON are dropped; JSON that is no object raises, with nothing changed. */
    method HandleRaw(from: NodeId, raw: Raw) returns (raised: bool, ghost order: seq<NodeId>)
      modifies this
      ensures raised <==> raw.NoObject?
      ensures raw.Object? && raw.w.Full? ==> IsShuffle(order, Targets(old(State()), from, raw.w.m))
      ensures Did(if raw.Object? then OnWire(config, old(State()), from, raw.w, order) else Effect(old(State()), []))
    {
      order := [];
      raised := raw.NoObject?;
      if raw.Object? {
        order := HandleObject(from, raw.w);
      }
    }

    method HandleObject(from: NodeId, w: Wire) returns (ghost order: seq<NodeId>)
      modifies this
      ensures w.Full? ==> IsShuffle(order, Targets(old(State()), from, w.m))
      ensures Did(OnWire(config, old(State()), from, w, order))
    {
      order := [];
      match w
      case Full(m) => order := HandleMessage(from, m);
      case Graft(topic) => HandleGraft(from, topic);
      case Prune(topic) => HandlePrune(from, topic);
      case IHave(topic, ids) => HandleIHave(from, topic, ids);
      case IWant(ids) => HandleIWant(from, ids);
      case Junk =>
    }

    method HandleMessage(from: NodeId, m: Message) returns (ghost order: seq<NodeId>)
      modifies this
      ensures IsShuffle(order, Targets(old(State()), from, m))
      ensures Did(OnMessage(old(State()), from, m, order))
    {
      var candidates := Candidates(from, m);
      order := candidates;
      if m.id in seenMsgs {
        totalReceived := totalReceived + 1;
        return;
      }
      Record(m);
      if m.topic in subscriptions {
        Forward(candidates, m.(hop := m.hop + 1, sender := nodeId));
      }
    }

    /** First delivery of a message: remember it, cache it, note its hop count. */
    method Record(m: Message)
      modifies this
      ensures State() == Recorded(old(State()), m) && outbox == old(outbox)
    {
      totalReceived := totalReceived + 1;
      seenMsgs := seenMsgs + {m.id};
      msgCache := msgCache[m.id := m];
      received := received + {m.id};
      hopCounts := hopCounts[m.id := m.hop];
    }

    /** The mesh peers other than the sender and the origin, shuffled. */
    method Candidates(from: NodeId, m: Message) returns (order: seq<NodeId>)
      ensures IsShuffle(order, Targets(State(), from, m))
    {
      var members := if m.topic in mesh then mesh[m.topic] else {};
      order := Shuffle(members - {from, m.origin});
      assert members - {from, m.origin} == Targets(State(), from, m);
    }

    /** Eager push to the first candidate, IHAVE to the rest. */
    method Forward(order: seq<NodeId>, fwd: Message)
      modifies this`outbox
      ensures outbox == old(outbox) + Forwards(nodeId, order, fwd)
    {
      if order != [] {
        Send(order[0], Full(fwd));
      }
      if |order| > 1 {
        SendEach(order[1..], IHave(fwd.topic, [fwd.id]));
      }
    }

    method HandleGraft(from: NodeId, topic: Topic)
      modifies this
      ensures Did(OnGraft(config, old(State()), from, topic))
    {
      if topic !in subscriptions {
        return;
      }
      if topic !in mesh {
        mesh := mesh[topic := {}];
      }
      if |mesh[topic]| < config.dHigh {
        mesh := mesh[topic := mesh[topic] + {from}];
      } else {
        Send(from, Prune(topic));
      }
    }

    method HandlePrune(from: NodeId, topic: Topic)
      modifies this
      ensures Did(OnPrune(old(State()), from, topic))
    {
      if topic in mesh {
        mesh := mesh[topic := mesh[topic] - {from}];
      }
    }

    method HandleIHave(from: NodeId, topic: Topic, ids: seq<MsgId>)
      modifies this
      ensures Did(OnIHave(old(State()), from, topic, ids))
    {
      if topic !in subscriptions {
        return;
      }
      var wanted := Missing(ids);
      if wanted != [] {
        pendingIwant := pendingIwant + Elements(wanted);
        Send(from, IWant(PyTake(wanted, IWANT_LIMIT)));
      }
    }

    /** The ids neither seen nor asked for. */
    method Missing(ids: seq<MsgId>) returns (wanted: seq<MsgId>)
      ensures wanted == Wanted(State(), ids)
    {
      wanted := [];
      for i := 0 to |ids|
        invariant Wanted(State(), ids) == wanted + Wanted(State(), ids[i..])
      {
        ghost var before := wanted;
        if ids[i] !in seenMsgs && ids[i] !in pendingIwant {
          wanted := wanted + [ids[i]];
        }
        WantedNext(State(), ids, i, before, wanted);
      }
      assert ids[|ids|..] == [];
    }

    method HandleIWant(from: NodeId, ids: seq<MsgId>)
      modifies this
      ensures Did(Effect(old(State()), Replies(old(State()), from, ids)))
    {
      for i := 0 to |ids|
        invariant State() == old(State())
        invariant old(outbox) + Replies(State(), from, ids) == outbox + Replies(State(), from, ids[i..])
      {
        assert ids[i..][1..] == ids[i + 1..];
        if ids[i] in msgCache {
          Send(from, Full(msgCache[ids[i]].(sender := nodeId)));
        }
      }
    }

    method MaintainMesh(topic: Topic) returns (ghost order: seq<NodeId>)
      modifies this
      ensures IsShuffle(order, MaintainPool(config, old(State()), topic))
      ensures Did(OnMaintain(config, old(State()), topic, order))
    {
      var pool := MaintainOrder(topic);
      order := pool;
      var live := (if topic in mesh then mesh[topic] else {}) * peers;
      if |live| < config.dLow {
        TopUpMesh(topic, live, pool);
      } else if |live| > config.dHigh {
        PruneMesh(topic, live, pool);
      } else {
        KeepMesh(topic, live, pool);
      }
    }

    method TopUpMesh(topic: Topic, live: set<NodeId>, pool: seq<NodeId>)
      requires live == LiveMesh(State(), topic) && |live| < config.dLow
      modifies this
      ensures Did(OnMaintain(config, old(State()), topic, pool))
    {
      var chosen := PyTake(pool, config.d - |live|);
      MaintainIs(config, State(), topic, pool, chosen);
      GraftEach(topic, live, chosen);
    }

    method PruneMesh(topic: Topic, live: set<NodeId>, pool: seq<NodeId>)
      requires live == LiveMesh(State(), topic) && config.dLow <= |live| && config.dHigh < |live|
      modifies this
      ensures Did(OnMaintain(config, old(State()), topic, pool))
    {
      var chosen := PyTake(pool, |live| - config.d);
      MaintainIs(config, State(), topic, pool, chosen);
      PruneEach(topic, live, chosen);
    }

    method KeepMesh(topic: Topic, live: set<NodeId>, ghost pool: seq<NodeId>)
      requires live == LiveMesh(State(), topic) && config.dLow <= |live| <= config.dHigh
      modifies this
      ensures Did(OnMaintain(config, old(State()), topic, pool))
    {
      MaintainIs(config, State(), topic, pool, []);
      assert live - Elements([]) == live;
      mesh := mesh[topic := live];
    }

    method MaintainOrder(topic: Topic) returns (order: seq<NodeId>)
      ensures IsShuffle(order, MaintainPool(config, State(), topic))
    {
      var live := (if topic in mesh then mesh[topic] else {}) * peers;
      order := Shuffle(if |live| < config.dLow then peers - live else if |live| > config.dHigh then live else {});
    }

    method GraftOne(topic: Topic, peer: NodeId)
      requires topic in mesh
      modifies this`mesh, this`outbox
      ensures mesh == old(mesh)[topic := old(mesh)[topic] + {peer}]
      ensures outbox == old(outbox) + [Packet(nodeId, peer, Graft(topic))]
    {
      mesh := mesh[topic := mesh[topic] + {peer}];
      Send(peer, Graft(topic));
    }

    method PruneOne(topic: Topic, peer: NodeId)
      requires topic in mesh
      modifies this`mesh, this`outbox
      ensures mesh == old(mesh)[topic := old(mesh)[topic] - {peer}]
      ensures outbox == old(outbox) + [Packet(nodeId, peer, Prune(topic))]
    {
      mesh := mesh[topic := mesh[topic] - {peer}];
      Send(peer, Prune(topic));
    }

    /** Sets the mesh to `live` and grafts each chosen peer onto it. */
    method GraftEach(topic: Topic, live: set<NodeId>, chosen: seq<NodeId>)
      modifies this`mesh, this`outbox
      ensures mesh == old(mesh)[topic := live + Elements(chosen)]
      ensures outbox == old(outbox) + Broadcast(nodeId, chosen, Graft(topic))
    {
      mesh := mesh[topic := live];
      assert live + Elements(chosen[..0]) == live;
      for i := 0 to |chosen|
        invariant mesh == old(mesh)[topic := live + Elements(chosen[..i])]
        invariant outbox == old(outbox) + Broadcast(nodeId, chosen[..i], Graft(topic))
      {
        ghost var before := live + Elements(chosen[..i]);
        TakeNext(nodeId, chosen, Graft(topic), i, live);
        GraftOne(topic, chosen[i]);
        Overwrite(old(mesh), topic, before, before + {chosen[i]});
        Append(old(outbox), Broadcast(nodeId, chosen[..i], Graft(topic)), Packet(nodeId, chosen[i], Graft(topic)));
      }
      assert chosen[..|chosen|] == chosen;
    }

    /** Sets the mesh to `live` and prunes each chosen peer from it. */
    method PruneEach(topic: Topic, live: set<NodeId>, chosen: seq<NodeId>)
      modifies this`mesh, this`outbox
      ensures mesh == old(mesh)[topic := live - Elements(chosen)]
      ensures outbox == old(outbox) + Broadcast(nodeId, chosen, Prune(topic))
    {
      mesh := mesh[topic := live];
      assert live - Elements(chosen[..0]) == live;
      for i := 0 to |chosen|
        invariant mesh == old(mesh)[topic := live - Elements(chosen[..i])]
        invariant outbox == old(outbox) + Broadcast(nodeId, chosen[..i], Prune(topic))
      {
        ghost var before := live - Elements(chosen[..i]);
        TakeNext(nodeId, chosen, Prune(topic), i, live);
        PruneOne(topic, chosen[i]);
        Overwrite(old(mesh), topic, before, before - {chosen[i]});
        Append(old(outbox), Broadcast(nodeId, chosen[..i], Prune(topic)), Packet(nodeId, chosen[i], Prune(topic)));
      }
      assert chosen[..|chosen|] == chosen;
    }

    method EmitGossip(topic: Topic) returns (ghost listing: seq<MsgId>, ghost sample: seq<NodeId>)
      modifies this`outbox
      ensures IsShuffle(listing, old(State()).seen) && IsSample(config, old(State()), topic, sample)
      ensures Did(OnGossip(config, old(State()), topic, listing, sample))
    {
      var ids := Shuffle(seenMsgs);
      var recent := PyLast(ids, config.maxIHave);
      var nonMesh := peers - (if topic in mesh then mesh[topic] else {});
      var order := Shuffle(nonMesh);
      NoDupSize(order);
      var chosen := order[..Min(config.dGossip, |nonMesh|)];
      assert Elements(chosen) <= Elements(order);
      listing, sample := ids, chosen;
      if recent != [] && nonMesh != {} {
        SendEach(chosen, IHave(topic, recent));
      }
    }
  }
}
