/** What each step of the GossipSub network makes of the acting node, and exactly which packets it sends. */
module GossipOutcomes {
  import opened Collections
  import opened MessageIds
  import opened GossipNode
  import opened GossipSteps
  import opened GossipNetwork
  import opened GossipMesh

  /** The packets a step sends, oldest first. */
  ghost function NewlySent(net: Net, a: Action): (out: seq<Packet>)
    requires Enabled(net, a)
    ensures Apply(net, a).sent == net.sent + out
  {
    Apply(net, a).sent[|net.sent|..]
  }

  /** These packets are one copy of `w` from n to each of the nodes `to`, and nothing else. */
  ghost predicate Tells(out: seq<Packet>, n: NodeId, to: set<NodeId>, w: Wire) {
    |out| == |to| && forall p :: p in out <==> p.src == n && p.dst in to && p.wire == w
  }

  lemma BroadcastTells(self: NodeId, order: seq<NodeId>, w: Wire)
    requires NoDup(order)
    ensures Tells(Broadcast(self, order, w), self, Elements(order), w)
  {
    NoDupSize(order);
    var out := Broadcast(self, order, w);
    forall p: Packet | p.src == self && p.dst in Elements(order) && p.wire == w
      ensures p in out
    {
      var i :| 0 <= i < |order| && order[i] == p.dst;
      assert out[i] == p;
    }
  }

  lemma StepIs(net: Net, a: Action)
    requires Integrity(net) && Enabled(net, a) && !a.Lose?
    ensures net.nodes[Actor(net, a)].id == Actor(net, a) && NodeOk(net, Actor(net, a))
    ensures Apply(net, a).nodes[Actor(net, a)] == NodeEffect(net, a).s && NewlySent(net, a) == NodeEffect(net, a).out
  {
    assert NodeOk(net, Actor(net, a));
  }

  // ---- joining ----

  lemma AddPeerDoes(net: Net, a: Action)
    requires Integrity(net) && Enabled(net, a) && a.AddPeer?
    ensures var s, t := net.nodes[a.n], Apply(net, a).nodes[a.n];
            t == s.(peers := s.peers + {a.peer}) && NewlySent(net, a) == []
  {
    StepIs(net, a);
  }

  /** Subscribing keeps every mesh there is, and starts an empty one where there is none. */
  lemma SubscribeDoes(net: Net, a: Action)
    requires Integrity(net) && Enabled(net, a) && a.Subscribe?
    ensures var s, t := net.nodes[a.n], Apply(net, a).nodes[a.n];
            && t == s.(subs := s.subs + {a.topic}, mesh := t.mesh) && NewlySent(net, a) == []
            && t.mesh.Keys == s.mesh.Keys + {a.topic} && (forall k :: k in s.mesh ==> t.mesh[k] == s.mesh[k])
            && (a.topic !in s.mesh ==> t.mesh[a.topic] == {})
  {
    StepIs(net, a);
  }

  // ---- publishing ----

  /** A publication goes in full to each member of the topic's mesh or, when that is empty, to each peer. */
  lemma PublishDoes(net: Net, a: Action)
    requires Integrity(net) && Enabled(net, a) && a.Publish?
    ensures var s, t := net.nodes[a.n], Apply(net, a).nodes[a.n];
            var id := GenId(a.n, s.counter + 1);
            var m := Message(a.topic, id, a.n, a.n, 0, a.data);
            var to := if a.topic in s.mesh && s.mesh[a.topic] != {} then s.mesh[a.topic] else s.peers;
            && t == s.(counter := s.counter + 1, published := s.published + [id], seen := s.seen + {id},
                       cache := s.cache[id := m])
            && Tells(NewlySent(net, a), a.n, to, Full(m))
  {
    StepIs(net, a);
    PublishIs(net.nodes[a.n], a.topic, a.data, a.order);
  }

  lemma PublishIs(s: NodeState, topic: Topic, data: Bytes, order: seq<NodeId>)
    requires IsShuffle(order, PublishTargets(s, topic))
    ensures var id := GenId(s.id, s.counter + 1);
            var m := Message(topic, id, s.id, s.id, 0, data);
            var to := if topic in s.mesh && s.mesh[topic] != {} then s.mesh[topic] else s.peers;
            var e := OnPublish(s, topic, data, order);
            && e.s == s.(counter := s.counter + 1, published := s.published + [id], seen := s.seen + {id},
                         cache := s.cache[id := m])
            && Tells(e.out, s.id, to, Full(m))
  {
    BroadcastTells(s.id, order, Full(Fresh(s, topic, data)));
  }

  // ---- deliveries ----

  lemma ForwardsTell(self: NodeId, order: seq<NodeId>, fwd: Message) returns (first: NodeId)
    requires NoDup(order) && order != []
    ensures first in order && Forwards(self, order, fwd)[0] == Packet(self, first, Full(fwd))
    ensures Tells(Forwards(self, order, fwd)[1..], self, Elements(order) - {first}, IHave(fwd.topic, [fwd.id]))
  {
    first := order[0];
    BroadcastTells(self, order[1..], IHave(fwd.topic, [fwd.id]));
    assert Elements(order[1..]) == Elements(order) - {first} by {
      assert order == [first] + order[1..];
      assert first !in order[1..];
    }
    assert Forwards(self, order, fwd)[1..] == Broadcast(self, order[1..], IHave(fwd.topic, [fwd.id]));
  }

  /** One copy, one hop further, goes to one of the targets; each other one is told the id. */
  ghost predicate PassesOn(out: seq<Packet>, n: NodeId, to: set<NodeId>, m: Message) {
    if to == {} then out == []
    else exists first :: first in to && PassesFirst(out, n, to, m, first)
  }

  ghost predicate PassesFirst(out: seq<Packet>, n: NodeId, to: set<NodeId>, m: Message, first: NodeId) {
    && out != [] && out[0] == Packet(n, first, Full(m.(hop := m.hop + 1, sender := n)))
    && Tells(out[1..], n, to - {first}, IHave(m.topic, [m.id]))
  }

  lemma ForwardsPassOn(self: NodeId, order: seq<NodeId>, to: set<NodeId>, m: Message)
    requires IsShuffle(order, to)
    ensures PassesOn(Forwards(self, order, m.(hop := m.hop + 1, sender := self)), self, to, m)
  {
    if order == [] {
      assert to == {};
    } else {
      var first := ForwardsTell(self, order, m.(hop := m.hop + 1, sender := self));
      assert order[0] in Elements(order);
      var out := Forwards(self, order, m.(hop := m.hop + 1, sender := self));
      assert first in to && PassesFirst(out, self, to, m, first);
    }
  }

  /** A repeat is only counted.  A first copy is recorded with its hop count and, in a subscribed topic, passed on to
      the mesh except its sender and its origin. */
  lemma MessageDoes(net: Net, a: Action)
    requires Integrity(net) && Enabled(net, a) && a.Deliver? && net.flight[a.at].wire.Full?
    ensures var p, m := net.flight[a.at], net.flight[a.at].wire.m;
            var s, t := net.nodes[p.dst], Apply(net, a).nodes[p.dst];
            var mesh := if m.topic in s.mesh then s.mesh[m.topic] else {};
            if m.id in s.seen then t == s.(totalReceived := s.totalReceived + 1) && NewlySent(net, a) == []
            else
              && t == s.(totalReceived := s.totalReceived + 1, seen := s.seen + {m.id}, cache := s.cache[m.id := m],
                         received := s.received + {m.id}, hops := s.hops[m.id := m.hop])
              && if m.topic in s.subs then PassesOn(NewlySent(net, a), p.dst, mesh - {p.src, m.origin}, m)
                 else NewlySent(net, a) == []
  {
    StepIs(net, a);
    var p := net.flight[a.at];
    if p.wire.m.id !in net.nodes[p.dst].seen {
      FirstCopy(net.nodes[p.dst], p.src, p.wire.m, a.order);
    }
  }

  lemma FirstCopy(s: NodeState, from: NodeId, m: Message, order: seq<NodeId>)
    requires IsShuffle(order, Targets(s, from, m)) && m.id !in s.seen
    ensures var e := OnMessage(s, from, m, order);
            if m.topic !in s.subs then e.out == []
            else PassesOn(e.out, s.id, (if m.topic in s.mesh then s.mesh[m.topic] else {}) - {from, m.origin}, m)
  {
    if m.topic in s.subs {
      var to := (if m.topic in s.mesh then s.mesh[m.topic] else {}) - {from, m.origin};
      assert Targets(s, from, m) == to;
      ForwardsPassOn(s.id, order, to, m);
    }
  }

  /** A GRAFT adds its sender to the mesh of a subscribed topic while there is room, and is answered by one PRUNE
      when there is none. */
  lemma GraftDoes(net: Net, a: Action)
    requires Integrity(net) && Enabled(net, a) && a.Deliver? && net.flight[a.at].wire.Graft?
    ensures var p, topic := net.flight[a.at], net.flight[a.at].wire.topic;
            var s, t := net.nodes[p.dst], Apply(net, a).nodes[p.dst];
            var mesh := if topic in s.mesh then s.mesh[topic] else {};
            if topic !in s.subs then t == s && NewlySent(net, a) == []
            else if |mesh| < net.config.dHigh then
              t == s.(mesh := s.mesh[topic := mesh + {p.src}]) && NewlySent(net, a) == []
            else
              t == s.(mesh := s.mesh[topic := mesh]) && NewlySent(net, a) == [Packet(p.dst, p.src, Prune(topic))]
  {
    StepIs(net, a);
  }

  /** A PRUNE takes its sender out of that topic's mesh and does nothing else. */
  lemma PruneDoes(net: Net, a: Action)
    requires Integrity(net) && Enabled(net, a) && a.Deliver? && net.flight[a.at].wire.Prune?
    ensures var p, topic := net.flight[a.at], net.flight[a.at].wire.topic;
            var s, t := net.nodes[p.dst], Apply(net, a).nodes[p.dst];
            && NewlySent(net, a) == [] && t == s.(mesh := t.mesh) && t.mesh.Keys == s.mesh.Keys
            && (forall k :: k in s.mesh ==> t.mesh[k] == if k == topic then s.mesh[k] - {p.src} else s.mesh[k])
  {
    StepIs(net, a);
  }

  /** The ids wanted of an announcement, and the request that names them: as many as 64, and the first ones. */
  ghost predicate AsksForFirst(s: NodeState, ids: seq<MsgId>, named: seq<MsgId>) {
    var wanted := set id | id in ids && id !in s.seen && id !in s.pending;
    && NoDup(named) && Elements(named) <= wanted && |named| == Min(64, |wanted|)
    && forall i, j :: 0 <= i < j < |ids| && ids[i] in wanted && ids[j] in named ==> ids[i] in named
  }

  lemma {:induction false} WantedInOrder(s: NodeState, ids: seq<MsgId>, k: nat)
    requires NoDup(ids) && k <= |Wanted(s, ids)|
    ensures forall i, j :: 0 <= i < j < |ids| && ids[i] in Wanted(s, ids) && ids[j] in Wanted(s, ids)[..k] ==>
              ids[i] in Wanted(s, ids)[..k]
    decreases |ids|
  {
    if ids == [] {
    } else {
      var rest, wanted := Wanted(s, ids[1..]), Wanted(s, ids);
      WantedIsFilter(s, ids[1..]);
      if wanted == rest {
        WantedInOrder(s, ids[1..], k);
        WantedLater(s, ids, k, k);
      } else if k > 0 {
        assert wanted == [ids[0]] + rest;
        assert wanted[..k] == [ids[0]] + rest[..k - 1];
        WantedInOrder(s, ids[1..], k - 1);
        WantedLater(s, ids, k, k - 1);
      }
    }
  }

  lemma WantedLater(s: NodeState, ids: seq<MsgId>, k: nat, l: nat)
    requires ids != [] && NoDup(ids) && k <= |Wanted(s, ids)| && l <= |Wanted(s, ids[1..])|
    requires Wanted(s, ids)[..k] == (if k == l then [] else [ids[0]]) + Wanted(s, ids[1..])[..l]
    requires forall id :: id in Wanted(s, ids) ==> id in Wanted(s, ids[1..]) || (id == ids[0] && k != l)
    requires forall i, j :: 0 <= i < j < |ids[1..]| && ids[1..][i] in Wanted(s, ids[1..])
                            && ids[1..][j] in Wanted(s, ids[1..])[..l] ==>
               ids[1..][i] in Wanted(s, ids[1..])[..l]
    ensures forall i, j :: 0 <= i < j < |ids| && ids[i] in Wanted(s, ids) && ids[j] in Wanted(s, ids)[..k] ==>
              ids[i] in Wanted(s, ids)[..k]
  {
    WantedIsFilter(s, ids[1..]);
    forall i, j | 0 <= i < j < |ids| && ids[i] in Wanted(s, ids) && ids[j] in Wanted(s, ids)[..k]
      ensures ids[i] in Wanted(s, ids)[..k]
    {
      assert ids[j] == ids[1..][j - 1] && ids[j] != ids[0];
      if i > 0 {
        assert ids[i] == ids[1..][i - 1] && ids[i] != ids[0];
      }
    }
  }

  lemma WantedAskedFirst(s: NodeState, ids: seq<MsgId>)
    requires NoDup(ids)
    ensures AsksForFirst(s, ids, PyTake(Wanted(s, ids), IWANT_LIMIT))
  {
    var wanted := Wanted(s, ids);
    WantedIsFilter(s, ids);
    WantedNoDup(s, ids);
    NoDupSize(wanted);
    assert Elements(wanted) == set id | id in ids && id !in s.seen && id !in s.pending;
    TakeSubset(wanted, IWANT_LIMIT);
    var k := if |wanted| <= IWANT_LIMIT then |wanted| else IWANT_LIMIT;
    assert PyTake(wanted, IWANT_LIMIT) == wanted[..k];
    WantedInOrder(s, ids, k);
  }

  /** An announcement in a subscribed topic marks every id that is neither seen nor pending, and asks its sender for
      the first 64 of them in one IWANT, if there are any. */
  lemma IHaveDoes(net: Net, a: Action)
    requires Integrity(net) && Enabled(net, a) && a.Deliver? && net.flight[a.at].wire.IHave?
    ensures var p, w := net.flight[a.at], net.flight[a.at].wire;
            var s, t, out := net.nodes[p.dst], Apply(net, a).nodes[p.dst], NewlySent(net, a);
            var wanted := set id | id in w.ids && id !in s.seen && id !in s.pending;
            if w.topic !in s.subs || wanted == {} then t == s && out == []
            else
              && t == s.(pending := s.pending + wanted) && |out| == 1 && out[0].src == p.dst && out[0].dst == p.src
              && out[0].wire.IWant? && AsksForFirst(s, w.ids, out[0].wire.ids)
  {
    StepIs(net, a);
    var p, w := net.flight[a.at], net.flight[a.at].wire;
    assert p in net.flight && PacketOk(net, p);
    var s := net.nodes[p.dst];
    WantedIsFilter(s, w.ids);
    WantedAskedFirst(s, w.ids);
    assert Elements(Wanted(s, w.ids)) == set id | id in w.ids && id !in s.seen && id !in s.pending;
    if Wanted(s, w.ids) != [] {
      assert Wanted(s, w.ids)[0] in Elements(Wanted(s, w.ids));
    }
  }

  /** One copy to `from` per id, in order, out of the cache. */
  ghost predicate AnswersEach(cache: map<MsgId, Message>, n: NodeId, from: NodeId, ids: seq<MsgId>, out: seq<Packet>) {
    |out| == |ids| && forall k :: 0 <= k < |ids| ==>
        ids[k] in cache && out[k] == Packet(n, from, Full(cache[ids[k]].(sender := n)))
  }

  lemma {:induction false} RepliesInOrder(s: NodeState, from: NodeId, ids: seq<MsgId>)
    requires forall id :: id in ids ==> id in s.cache
    ensures AnswersEach(s.cache, s.id, from, ids, Replies(s, from, ids))
  {
    if ids != [] {
      assert ids[0] in ids && forall id :: id in ids[1..] ==> id in ids;
      RepliesInOrder(s, from, ids[1..]);
    }
  }

  /** In a reachable network every request is answered in full: one copy per id asked for, in that order. */
  lemma IWantDoes(net: Net, a: Action)
    requires Integrity(net) && Enabled(net, a) && a.Deliver? && net.flight[a.at].wire.IWant?
    ensures var p, s := net.flight[a.at], net.nodes[net.flight[a.at].dst];
            && Apply(net, a).nodes[p.dst] == s
            && AnswersEach(s.cache, p.dst, p.src, p.wire.ids, NewlySent(net, a))
  {
    StepIs(net, a);
    var p := net.flight[a.at];
    AskedIsCached(net, p);
    RepliesInOrder(net.nodes[p.dst], p.src, p.wire.ids);
  }

  lemma AskedIsCached(net: Net, p: Packet)
    requires Integrity(net) && p in net.flight && p.wire.IWant?
    ensures p.dst in net.nodes && forall id :: id in p.wire.ids ==> id in net.nodes[p.dst].cache
  {
    assert PacketOk(net, p) && NodeOk(net, p.dst);
    assert forall id :: id in p.wire.ids ==> id in Elements(p.wire.ids);
  }

  // ---- the heartbeat ----

  lemma TopUpIs(live: set<NodeId>, peers: set<NodeId>, order: seq<NodeId>, target: nat)
    requires live <= peers && IsShuffle(order, peers - live) && |live| <= target
    ensures var chosen := PyTake(order, target - |live|);
            NoDup(chosen) && (live + Elements(chosen)) - live == Elements(chosen)
  {
    TakeSubset(order, target - |live|);
  }

  lemma Complement<T>(whole: set<T>, part: set<T>)
    requires part <= whole
    ensures whole - (whole - part) == part && |whole - part| == |whole| - |part|
  {
    UnionSize(whole - part, part);
    assert whole - part + part == whole;
  }

  lemma CutDown(live: set<NodeId>, order: seq<NodeId>, target: nat)
    requires IsShuffle(order, live) && target <= |live|
    ensures var chosen := PyTake(order, |live| - target);
            && NoDup(chosen) && live - (live - Elements(chosen)) == Elements(chosen)
            && live - Elements(chosen) <= live && |live - Elements(chosen)| == target
  {
    TakeSubset(order, |live| - target);
    TakeSize(order, |live| - target);
    NoDupSize(order);
    Complement(live, Elements(PyTake(order, |live| - target)));
  }

  /** What a round of maintenance makes of a mesh whose live members are `live`, and whom it tells. */
  ghost predicate Maintained(c: Config, n: NodeId, peers: set<NodeId>, topic: Topic, live: set<NodeId>,
          mesh: set<NodeId>, out: seq<Packet>) {
    if |live| < c.dLow then
      live <= mesh <= peers && |mesh| == Min(c.d, |peers|) && Tells(out, n, mesh - live, Graft(topic))
    else if |live| > c.dHigh then
      mesh <= live && |mesh| == c.d && Tells(out, n, live - mesh, Prune(topic))
    else mesh == live && out == []
  }

  lemma SmallMesh(c: Config, s: NodeState, topic: Topic, order: seq<NodeId>)
    requires DegreesOrdered(c) && IsShuffle(order, MaintainPool(c, s, topic)) && |LiveMesh(s, topic)| < c.dLow
    ensures var chosen := Rematched(c, s, topic, order);
            Maintained(c, s.id, s.peers, topic, LiveMesh(s, topic), LiveMesh(s, topic) + Elements(chosen),
                       Broadcast(s.id, chosen, Graft(topic)))
  {
    var chosen := Rematched(c, s, topic, order);
    GrownMesh(c, s, topic, order);
    TopUpIs(LiveMesh(s, topic), s.peers, order, c.d);
    BroadcastTells(s.id, chosen, Graft(topic));
  }

  lemma LargeMesh(c: Config, s: NodeState, topic: Topic, order: seq<NodeId>)
    requires DegreesOrdered(c) && IsShuffle(order, MaintainPool(c, s, topic)) && |LiveMesh(s, topic)| >= c.dLow
    ensures var chosen := Rematched(c, s, topic, order);
            Maintained(c, s.id, s.peers, topic, LiveMesh(s, topic), LiveMesh(s, topic) - Elements(chosen),
                       Broadcast(s.id, chosen, Prune(topic)))
  {
    var live, chosen := LiveMesh(s, topic), Rematched(c, s, topic, order);
    RematchedLarge(c, s, topic, order);
    if |live| > c.dHigh {
      Overfull(c, s.id, s.peers, topic, live, order, chosen);
    } else {
      JustRight(c, s.id, s.peers, topic, live);
    }
  }

  lemma RematchedLarge(c: Config, s: NodeState, topic: Topic, order: seq<NodeId>)
    requires IsShuffle(order, MaintainPool(c, s, topic)) && |LiveMesh(s, topic)| >= c.dLow
    ensures var live, chosen := LiveMesh(s, topic), Rematched(c, s, topic, order);
            if |live| > c.dHigh then IsShuffle(order, live) && chosen == PyTake(order, |live| - c.d) else chosen == []
  {
  }

  lemma Overfull(c: Config, n: NodeId, peers: set<NodeId>, topic: Topic, live: set<NodeId>, order: seq<NodeId>,
          chosen: seq<NodeId>)
    requires DegreesOrdered(c) && IsShuffle(order, live) && |live| > c.dHigh && chosen == PyTake(order, |live| - c.d)
    ensures Maintained(c, n, peers, topic, live, live - Elements(chosen), Broadcast(n, chosen, Prune(topic)))
  {
    CutDown(live, order, c.d);
    BroadcastTells(n, chosen, Prune(topic));
  }

  lemma JustRight(c: Config, n: NodeId, peers: set<NodeId>, topic: Topic, live: set<NodeId>)
    requires c.dLow <= |live| <= c.dHigh
    ensures Maintained(c, n, peers, topic, live, live - Elements<NodeId>([]), Broadcast(n, [], Prune(topic)))
  {
    assert live - Elements<NodeId>([]) == live;
  }

  lemma MaintainedIs(c: Config, s: NodeState, topic: Topic, order: seq<NodeId>)
    requires DegreesOrdered(c) && IsShuffle(order, MaintainPool(c, s, topic))
    ensures var e := OnMaintain(c, s, topic, order);
            && topic in e.s.mesh && e.s == s.(mesh := s.mesh[topic := e.s.mesh[topic]])
            && Maintained(c, s.id, s.peers, topic, LiveMesh(s, topic), e.s.mesh[topic], e.out)
  {
    if |LiveMesh(s, topic)| < c.dLow {
      SmallMesh(c, s, topic, order);
    } else {
      LargeMesh(c, s, topic, order);
    }
  }

  /** A round of maintenance drops the members that are no peers.  A mesh left below D_low is topped up to D, or to
      all peers, and each node added is sent a GRAFT; one above D_high is cut to D, and each node removed is sent a
      PRUNE; nobody else is told anything. */
  lemma MaintainDoes(net: Net, a: Action)
    requires Integrity(net) && Enabled(net, a) && a.Maintain? && DegreesOrdered(net.config)
    ensures var s, t := net.nodes[a.n], Apply(net, a).nodes[a.n];
            var live := (if a.topic in s.mesh then s.mesh[a.topic] else {}) * s.peers;
            && a.topic in t.mesh && t == s.(mesh := s.mesh[a.topic := t.mesh[a.topic]])
            && Maintained(net.config, a.n, s.peers, a.topic, live, t.mesh[a.topic], NewlySent(net, a))
  {
    StepIs(net, a);
    MaintainedIs(net.config, net.nodes[a.n], a.topic, a.order);
  }

  lemma LastOf<T>(xs: seq<T>, n: nat)
    requires NoDup(xs)
    ensures NoDup(PyLast(xs, n)) && Elements(PyLast(xs, n)) <= Elements(xs)
    ensures |PyLast(xs, n)| == if n == 0 then |xs| else Min(n, |xs|)
  {
  }

  /** `ids`, as many of the ids seen as allowed, are announced to `to`, as many of `others` as allowed. */
  ghost predicate Announced(c: Config, n: NodeId, seen: set<MsgId>, others: set<NodeId>, topic: Topic,
          ids: seq<MsgId>, to: set<NodeId>, out: seq<Packet>) {
    && Tells(out, n, to, IHave(topic, ids)) && to <= others && |to| == Min(c.dGossip, |others|)
    && NoDup(ids) && Elements(ids) <= seen && |ids| == if c.maxIHave == 0 then |seen| else Min(c.maxIHave, |seen|)
  }

  ghost predicate AnnouncesSome(c: Config, n: NodeId, seen: set<MsgId>, others: set<NodeId>, topic: Topic,
          out: seq<Packet>) {
    if seen == {} then out == []
    else exists ids, to :: Announced(c, n, seen, others, topic, ids, to, out)
  }

  lemma AnnouncedIs(c: Config, s: NodeState, topic: Topic, listing: seq<MsgId>, sample: seq<NodeId>)
    requires IsShuffle(listing, s.seen) && IsSample(c, s, topic, sample)
    ensures var e := OnGossip(c, s, topic, listing, sample);
            e.s == s && AnnouncesSome(c, s.id, s.seen, NonMesh(s, topic), topic, e.out)
  {
    var e := OnGossip(c, s, topic, listing, sample);
    var ids, to := PyLast(listing, c.maxIHave), Elements(sample);
    LastOf(listing, c.maxIHave);
    NoDupSize(listing);
    NoDupSize(sample);
    BroadcastTells(s.id, sample, IHave(topic, ids));
    if s.seen == {} {
      assert listing == [];
    } else {
      if NonMesh(s, topic) == {} {
        assert sample == [] && to == {};
      }
      assert Announced(c, s.id, s.seen, NonMesh(s, topic), topic, ids, to, e.out);
    }
  }

  /** A gossip round announces some of the ids seen, as many as allowed, to as many peers outside the mesh as allowed;
      it announces the same ids to each, and nothing when none was seen. */
  lemma GossipDoes(net: Net, a: Action)
    requires Integrity(net) && Enabled(net, a) && a.Gossip?
    ensures var s, t, out := net.nodes[a.n], Apply(net, a).nodes[a.n], NewlySent(net, a);
            var others := s.peers - if a.topic in s.mesh then s.mesh[a.topic] else {};
            t == s && AnnouncesSome(net.config, a.n, s.seen, others, a.topic, out)
  {
    StepIs(net, a);
    var s := net.nodes[a.n];
    AnnouncedIs(net.config, s, a.topic, a.listing, a.sample);
    assert NonMesh(s, a.topic) == s.peers - if a.topic in s.mesh then s.mesh[a.topic] else {};
  }

  // ---- a graft and its answer ----

  /** The step in which q takes n's GRAFT: n is in q's mesh afterwards, unless q is no subscriber, or its mesh was
      full and a PRUNE is on its way back. */
  ghost predicate TakesGraft(net: Net, a: Action, n: NodeId, q: NodeId, topic: Topic) {
    && Enabled(net, a) && a.Deliver? && net.flight[a.at] == Packet(n, q, Graft(topic))
    && (|| !Subscribes(net, q, topic)
        || n in MeshOf(Apply(net, a).nodes[q], topic)
        || (|MeshOf(net.nodes[q], topic)| >= net.config.dHigh && Packet(q, n, Prune(topic)) in Apply(net, a).flight))
  }

  /** Somewhere in the run q takes the GRAFT. */
  ghost predicate GraftTaken(net: Net, actions: seq<Action>, end: Net, n: NodeId, q: NodeId, topic: Topic)
    requires Runs(net, actions, end)
    decreases |actions|
  {
    actions != [] &&
    (TakesGraft(net, actions[0], n, q, topic)
     || GraftTaken(Apply(net, actions[0]), actions[1..], end, n, q, topic))
  }

  lemma GraftIsTaken(net: Net, a: Action, n: NodeId, q: NodeId, topic: Topic)
    requires Integrity(net) && Enabled(net, a) && a.Deliver? && net.flight[a.at] == Packet(n, q, Graft(topic))
    ensures TakesGraft(net, a, n, q, topic)
  {
    GraftDoes(net, a);
    StepIs(net, a);
    assert forall p :: p in NodeEffect(net, a).out ==> p in Apply(net, a).flight;
    if |MeshOf(net.nodes[q], topic)| >= net.config.dHigh && Subscribes(net, q, topic) {
      assert NewlySent(net, a)[0] == Packet(q, n, Prune(topic));
      assert Packet(q, n, Prune(topic)) in NodeEffect(net, a).out;
    }
  }

  lemma {:induction false} GraftIsAnswered(net: Net, actions: seq<Action>, end: Net, n: NodeId, q: NodeId, topic: Topic)
    requires Integrity(net) && Runs(net, actions, end) && forall a :: a in actions ==> !a.Lose?
    requires Packet(n, q, Graft(topic)) in net.flight && Packet(n, q, Graft(topic)) !in end.flight
    ensures GraftTaken(net, actions, end, n, q, topic)
    decreases |actions|
  {
    var a, p := actions[0], Packet(n, q, Graft(topic));
    assert a in actions;
    if a.Deliver? && net.flight[a.at] == p {
      GraftIsTaken(net, a, n, q, topic);
    } else {
      assert p in Remaining(net, a);
      assert p in Apply(net, a).flight;
      IntegrityStep(net, a);
      GraftIsAnswered(Apply(net, a), actions[1..], end, n, q, topic);
    }
  }

  lemma GraftIsSent(net: Net, a: Action, q: NodeId)
    requires Integrity(net) && Enabled(net, a) && a.Maintain? && DegreesOrdered(net.config)
    requires q in MeshOf(Apply(net, a).nodes[a.n], a.topic) && q !in MeshOf(net.nodes[a.n], a.topic)
    ensures Packet(a.n, q, Graft(a.topic)) in Apply(net, a).flight
  {
    MaintainDoes(net, a);
    StepIs(net, a);
    assert Packet(a.n, q, Graft(a.topic)) in NewlySent(net, a);
    assert forall p :: p in NodeEffect(net, a).out ==> p in Apply(net, a).flight;
  }

  /** Meshes become mutual: a peer that maintenance puts into n's mesh is sent a GRAFT, and in a run without losses
      takes it, if it is no longer in flight, by putting n into its own mesh, unless that mesh is full, whereupon it
      sends n a PRUNE, or it is no subscriber. */
  lemma GraftIsMutual(net: Net, a: Action, actions: seq<Action>, end: Net, q: NodeId)
    requires Integrity(net) && Enabled(net, a) && a.Maintain? && DegreesOrdered(net.config)
    requires q in MeshOf(Apply(net, a).nodes[a.n], a.topic) && q !in MeshOf(net.nodes[a.n], a.topic)
    requires Runs(Apply(net, a), actions, end) && forall x :: x in actions ==> !x.Lose?
    requires Packet(a.n, q, Graft(a.topic)) !in end.flight
    ensures GraftTaken(Apply(net, a), actions, end, a.n, q, a.topic)
  {
    GraftIsSent(net, a, q);
    IntegrityStep(net, a);
    GraftIsAnswered(Apply(net, a), actions, end, a.n, q, a.topic);
  }
}
