/** One GossipSub node as a value: what each handler of gossipsub.py does to the node's state
    and which packets it hands to the transport.  Every random choice of the program is an argument. */
module GossipNode {
  import opened Collections
  import opened MessageIds

  datatype Topic = Topic(name: string)

  /** A payload, carried as base64 text and never looked into. */
  datatype Bytes = Bytes(base64: string)

  datatype Config = Config(d: int, dLow: int, dHigh: int, dGossip: nat, maxIHave: nat)

  datatype Message = Message(topic: Topic, id: MsgId, origin: NodeId, sender: NodeId, hop: nat, data: Bytes)

  /** The five gossipsub message kinds; Junk is an object that is none of them. */
  datatype Wire =
    | Full(m: Message)
    | Graft(topic: Topic)
    | Prune(topic: Topic)
    | IHave(topic: Topic, ids: seq<MsgId>)
    | IWant(ids: seq<MsgId>)
    | Junk

  datatype Packet = Packet(src: NodeId, dst: NodeId, wire: Wire)

  datatype NodeState = NodeState(
    id: NodeId,
    peers: set<NodeId>,
    mesh: map<Topic, set<NodeId>>,
    subs: set<Topic>,
    seen: set<MsgId>,
    cache: map<MsgId, Message>,
    pending: set<MsgId>,
    counter: nat,
    published: seq<MsgId>,
    received: set<MsgId>,
    totalReceived: nat,
    hops: map<MsgId, nat>)

  datatype Effect = Effect(s: NodeState, out: seq<Packet>)

  const IWANT_LIMIT := 64

  function MeshOf(s: NodeState, topic: Topic): set<NodeId> {
    if topic in s.mesh then s.mesh[topic] else {}
  }

  /** One copy of `w` to each member of `order`, in that order. */
  function Broadcast(self: NodeId, order: seq<NodeId>, w: Wire): (out: seq<Packet>)
    ensures |out| == |order|
    ensures forall i :: 0 <= i < |order| ==> out[i] == Packet(self, order[i], w)
  {
    if order == [] then [] else [Packet(self, order[0], w)] + Broadcast(self, order[1..], w)
  }

  // ---- joining ----

  function OnAddPeer(s: NodeState, peer: NodeId): Effect {
    Effect(s.(peers := s.peers + {peer}), [])
  }

  /** The topic gets an empty mesh unless it has one. */
  function OnSubscribe(s: NodeState, topic: Topic): Effect {
    Effect(s.(subs := s.subs + {topic}, mesh := s.mesh[topic := MeshOf(s, topic)]), [])
  }

  // ---- publish ----

  function PublishTargets(s: NodeState, topic: Topic): set<NodeId> {
    if MeshOf(s, topic) != {} then MeshOf(s, topic) else s.peers
  }

  function Fresh(s: NodeState, topic: Topic, data: Bytes): Message {
    Message(topic, GenId(s.id, s.counter + 1), s.id, s.id, 0, data)
  }

  function OnPublish(s: NodeState, topic: Topic, data: Bytes, order: seq<NodeId>): Effect {
    var m := Fresh(s, topic, data);
    Effect(s.(counter := s.counter + 1,
              published := s.published + [m.id],
              seen := s.seen + {m.id},
              cache := s.cache[m.id := m]),
           Broadcast(s.id, order, Full(m)))
  }

  // ---- deliveries ----

  function Targets(s: NodeState, from: NodeId, m: Message): set<NodeId> {
    set p | p in MeshOf(s, m.topic) && p != from && p != m.origin
  }

  /** Lazy-first forwarding: the full message to the first target, an IHAVE to each other one. */
  function Forwards(self: NodeId, order: seq<NodeId>, fwd: Message): seq<Packet> {
    if order == [] then []
    else [Packet(self, order[0], Full(fwd))] + Broadcast(self, order[1..], IHave(fwd.topic, [fwd.id]))
  }

  function Recorded(s: NodeState, m: Message): NodeState {
    s.(totalReceived := s.totalReceived + 1,
       seen := s.seen + {m.id},
       cache := s.cache[m.id := m],
       received := s.received + {m.id},
       hops := s.hops[m.id := m.hop])
  }

  function OnMessage(s: NodeState, from: NodeId, m: Message, order: seq<NodeId>): Effect {
    if m.id in s.seen then
      Effect(s.(totalReceived := s.totalReceived + 1), [])
    else if m.topic !in s.subs then
      Effect(Recorded(s, m), [])
    else
      Effect(Recorded(s, m), Forwards(s.id, order, m.(hop := m.hop + 1, sender := s.id)))
  }

  function OnGraft(c: Config, s: NodeState, from: NodeId, topic: Topic): Effect {
    if topic !in s.subs then Effect(s, [])
    else if |MeshOf(s, topic)| < c.dHigh then
      Effect(s.(mesh := s.mesh[topic := MeshOf(s, topic) + {from}]), [])
    else
      Effect(s.(mesh := s.mesh[topic := MeshOf(s, topic)]), [Packet(s.id, from, Prune(topic))])
  }

  function OnPrune(s: NodeState, from: NodeId, topic: Topic): Effect {
    if topic in s.mesh then Effect(s.(mesh := s.mesh[topic := s.mesh[topic] - {from}]), [])
    else Effect(s, [])
  }

  function Wanted(s: NodeState, ids: seq<MsgId>): seq<MsgId> {
    if ids == [] then []
    else (if ids[0] !in s.seen && ids[0] !in s.pending then [ids[0]] else []) + Wanted(s, ids[1..])
  }

  function OnIHave(s: NodeState, from: NodeId, topic: Topic, ids: seq<MsgId>): Effect {
    var wanted := Wanted(s, ids);
    if topic !in s.subs || wanted == [] then Effect(s, [])
    else Effect(s.(pending := s.pending + Elements(wanted)),
                [Packet(s.id, from, IWant(PyTake(wanted, IWANT_LIMIT)))])
  }

  function Replies(s: NodeState, from: NodeId, ids: seq<MsgId>): seq<Packet> {
    if ids == [] then []
    else (if ids[0] in s.cache
          then [Packet(s.id, from, Full(s.cache[ids[0]].(sender := s.id)))]
          else []) + Replies(s, from, ids[1..])
  }

  function OnWire(c: Config, s: NodeState, from: NodeId, w: Wire, order: seq<NodeId>): Effect {
    match w
    case Full(m) => OnMessage(s, from, m, order)
    case Graft(topic) => OnGraft(c, s, from, topic)
    case Prune(topic) => OnPrune(s, from, topic)
    case IHave(topic, ids) => OnIHave(s, from, topic, ids)
    case IWant(ids) => Effect(s, Replies(s, from, ids))
    case Junk => Effect(s, [])
  }

  // ---- heartbeat ----

  function LiveMesh(s: NodeState, topic: Topic): set<NodeId> {
    MeshOf(s, topic) * s.peers
  }

  /** The set _maintain_mesh shuffles: graft candidates when the mesh is small, its members when it is big. */
  function MaintainPool(c: Config, s: NodeState, topic: Topic): set<NodeId> {
    if |LiveMesh(s, topic)| < c.dLow then s.peers - LiveMesh(s, topic)
    else if |LiveMesh(s, topic)| > c.dHigh then LiveMesh(s, topic)
    else {}
  }

  /** The mesh becomes `members`; each peer in `told` is sent `w`. */
  function Remesh(s: NodeState, topic: Topic, members: set<NodeId>, told: seq<NodeId>, w: Wire): Effect {
    Effect(s.(mesh := s.mesh[topic := members]), Broadcast(s.id, told, w))
  }

  /** The peers _maintain_mesh grafts or prunes. */
  function Rematched(c: Config, s: NodeState, topic: Topic, order: seq<NodeId>): seq<NodeId> {
    var size := |LiveMesh(s, topic)|;
    if size < c.dLow then PyTake(order, c.d - size)
    else if size > c.dHigh then PyTake(order, size - c.d)
    else []
  }

  function OnMaintain(c: Config, s: NodeState, topic: Topic, order: seq<NodeId>): Effect {
    var mesh, chosen := LiveMesh(s, topic), Rematched(c, s, topic, order);
    if |mesh| < c.dLow then Remesh(s, topic, mesh + Elements(chosen), chosen, Graft(topic))
    else Remesh(s, topic, mesh - Elements(chosen), chosen, Prune(topic))
  }

  function NonMesh(s: NodeState, topic: Topic): set<NodeId> {
    s.peers - MeshOf(s, topic)
  }

  /** `sample` is what random.sample(non_mesh, min(D_gossip, len(non_mesh))) may return. */
  ghost predicate IsSample(c: Config, s: NodeState, topic: Topic, sample: seq<NodeId>) {
    && NoDup(sample)
    && Elements(sample) <= NonMesh(s, topic)
    && |sample| == Min(c.dGossip, |NonMesh(s, topic)|)
  }

  function OnGossip(c: Config, s: NodeState, topic: Topic, listing: seq<MsgId>, sample: seq<NodeId>): Effect {
    var recent := PyLast(listing, c.maxIHave);
    if recent == [] || NonMesh(s, topic) == {} then Effect(s, [])
    else Effect(s, Broadcast(s.id, sample, IHave(topic, recent)))
  }

  // ---- facts about the handlers ----

  lemma {:induction false} WantedIsFilter(s: NodeState, ids: seq<MsgId>)
    ensures forall id :: id in Wanted(s, ids) <==> id in ids && id !in s.seen && id !in s.pending
    ensures forall id :: multiset(Wanted(s, ids))[id] <= multiset(ids)[id]
  {
    if ids == [] {
    } else {
      WantedIsFilter(s, ids[1..]);
      assert ids == [ids[0]] + ids[1..];
    }
  }

  lemma {:induction false} WantedNoDup(s: NodeState, ids: seq<MsgId>)
    requires NoDup(ids)
    ensures NoDup(Wanted(s, ids))
  {
    if ids == [] {
    } else {
      WantedNoDup(s, ids[1..]);
      WantedIsFilter(s, ids[1..]);
      assert ids[0] !in ids[1..];
    }
  }

  lemma {:induction false} RepliesAre(s: NodeState, from: NodeId, ids: seq<MsgId>)
    ensures |Replies(s, from, ids)| <= |ids|
    ensures forall p :: p in Replies(s, from, ids) <==>
              exists id :: id in ids && id in s.cache && p == Packet(s.id, from, Full(s.cache[id].(sender := s.id)))
  {
    if ids == [] {
    } else {
      RepliesAre(s, from, ids[1..]);
      assert forall id :: id in ids <==> id == ids[0] || id in ids[1..];
    }
  }

  /** An IHAVE marks every wanted id as requested, yet the IWANT names only the first 64 of them:
      every wanted id is really asked for exactly when there are at most 64. */
  lemma IHaveAsksForAllIff(s: NodeState, from: NodeId, topic: Topic, ids: seq<MsgId>)
    requires topic in s.subs && NoDup(ids)
    ensures var e := OnIHave(s, from, topic, ids);
            (forall id :: id in e.s.pending && id !in s.pending ==>
               exists p :: p in e.out && p.dst == from && p.wire.IWant? && id in p.wire.ids)
            <==> |Wanted(s, ids)| <= IWANT_LIMIT
  {
    var e := OnIHave(s, from, topic, ids);
    var wanted := Wanted(s, ids);
    WantedIsFilter(s, ids);
    WantedNoDup(s, ids);
    if |wanted| <= IWANT_LIMIT {
      forall id | id in e.s.pending && id !in s.pending
        ensures exists p :: p in e.out && p.dst == from && p.wire.IWant? && id in p.wire.ids
      {
        assert e.out[0] in e.out && id in e.out[0].wire.ids;
      }
    } else {
      var lost := wanted[IWANT_LIMIT];
      assert lost in e.s.pending && lost !in s.pending;
      assert lost !in PyTake(wanted, IWANT_LIMIT);
    }
  }
}
