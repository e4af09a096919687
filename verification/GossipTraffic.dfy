/** Message complexity: how often one message, and one request for it, can be put on the wire. */
module GossipTraffic {
  import opened Collections
  import opened MessageIds
  import opened GossipNode
  import opened GossipSteps
  import opened GossipNetwork

  /** 1 for a full copy of `id`. */
  function IsCopy(p: Packet, id: MsgId): nat {
    if p.wire.Full? && p.wire.m.id == id then 1 else 0
  }

  /** 1 for an IWANT from n that names `id`. */
  function IsAsk(p: Packet, n: NodeId, id: MsgId): nat {
    if p.src == n && p.wire.IWant? && id in p.wire.ids then 1 else 0
  }

  function Copies(ps: seq<Packet>, id: MsgId): nat {
    if ps == [] then 0 else IsCopy(ps[0], id) + Copies(ps[1..], id)
  }

  function AsksBy(ps: seq<Packet>, n: NodeId, id: MsgId): nat {
    if ps == [] then 0 else IsAsk(ps[0], n, id) + AsksBy(ps[1..], n, id)
  }

  /** IWANT packets that name `id`, whoever sent them. */
  function Asks(ps: seq<Packet>, id: MsgId): nat {
    if ps == [] then 0 else IsAsk(ps[0], ps[0].src, id) + Asks(ps[1..], id)
  }

  lemma {:induction false} CountsConcat(a: seq<Packet>, b: seq<Packet>, n: NodeId, id: MsgId)
    ensures Copies(a + b, id) == Copies(a, id) + Copies(b, id)
    ensures Asks(a + b, id) == Asks(a, id) + Asks(b, id)
    ensures AsksBy(a + b, n, id) == AsksBy(a, n, id) + AsksBy(b, n, id)
  {
    if a == [] {
      assert a + b == b;
    } else {
      CountsConcat(a[1..], b, n, id);
      assert (a + b)[1..] == a[1..] + b;
    }
  }

  lemma AsksRemove(flight: seq<Packet>, i: nat, id: MsgId)
    requires i < |flight|
    ensures Asks(flight, id) == IsAsk(flight[i], flight[i].src, id) + Asks(RemoveAt(flight, i), id)
  {
    var a, b, n := flight[..i], flight[i + 1..], flight[i].src;
    CountsConcat(a, b, n, id);
    CountsConcat(a, [flight[i]] + b, n, id);
    assert flight == a + ([flight[i]] + b);
    assert ([flight[i]] + b)[1..] == b;
  }

  lemma {:induction false} NoneOf(ps: seq<Packet>, n: NodeId, id: MsgId)
    ensures (forall p :: p in ps ==> IsCopy(p, id) == 0) ==> Copies(ps, id) == 0
    ensures (forall p :: p in ps ==> IsAsk(p, p.src, id) == 0) ==> Asks(ps, id) == 0
    ensures (forall p :: p in ps ==> IsAsk(p, n, id) == 0) ==> AsksBy(ps, n, id) == 0
    ensures Copies(ps, id) <= |ps| && AsksBy(ps, n, id) <= Asks(ps, id)
  {
    if ps == [] {
    } else {
      assert ps[0] in ps && forall p :: p in ps[1..] ==> p in ps;
      NoneOf(ps[1..], n, id);
    }
  }

  // ---- what one reaction may put on the wire ----

  function Bit(b: bool): nat {
    if b then 1 else 0
  }

  /** Copies of and requests for `id` in a node's output are paid for by the IWANT it answers, by its first
      sight of the message, or by the first time it marks the id as requested. */
  ghost predicate Paid(s: NodeState, e: Effect, taken: nat, id: MsgId) {
    && Copies(e.out, id) <= taken + Bit(id in e.s.received && id !in s.received)
    && Asks(e.out, id) <= Bit(id in e.s.pending && id !in s.pending)
  }

  lemma ForwardPaid(self: NodeId, order: seq<NodeId>, fwd: Message, id: MsgId)
    ensures Copies(Forwards(self, order, fwd), id) <= Bit(id == fwd.id) && Asks(Forwards(self, order, fwd), id) == 0
  {
    if order != [] {
      NoneOf(Broadcast(self, order[1..], IHave(fwd.topic, [fwd.id])), self, id);
    }
  }

  lemma {:induction false} RepliesPaid(s: NodeState, from: NodeId, ids: seq<MsgId>, id: MsgId)
    requires LocalOk(s) && NoDup(ids)
    ensures Copies(Replies(s, from, ids), id) <= Bit(id in ids) && Asks(Replies(s, from, ids), id) == 0
  {
    if ids == [] {
    } else {
      RepliesPaid(s, from, ids[1..], id);
      assert ids[0] !in ids[1..];
      if ids[0] in s.cache {
        var reply := Packet(s.id, from, Full(s.cache[ids[0]].(sender := s.id)));
        assert Replies(s, from, ids) == [reply] + Replies(s, from, ids[1..]);
      } else {
        assert Replies(s, from, ids) == Replies(s, from, ids[1..]);
      }
    }
  }

  lemma WirePaid(c: Config, s: NodeState, from: NodeId, w: Wire, order: seq<NodeId>, id: MsgId)
    requires LocalOk(s) && (w.IHave? ==> NoDup(w.ids)) && (w.IWant? ==> NoDup(w.ids))
    ensures Paid(s, OnWire(c, s, from, w, order), Bit(w.IWant? && id in w.ids), id)
  {
    match w
    case Full(m) => ForwardPaid(s.id, order, m.(hop := m.hop + 1, sender := s.id), id);
    case IWant(ids) => RepliesPaid(s, from, ids, id);
    case IHave(topic, ids) =>
      WantedIsFilter(s, ids);
      TakeSubset(Wanted(s, ids), IWANT_LIMIT);
      assert id in PyTake(Wanted(s, ids), IWANT_LIMIT) ==> id in Elements(Wanted(s, ids));
    case Graft(topic) =>
    case Prune(_) =>
    case Junk =>
  }

  /** Budget of an action: the copies its own publication makes, and the request it consumes. */
  ghost function Credit(net: Net, a: Action, id: MsgId): nat
    requires Enabled(net, a)
  {
    match a
    case Publish(n, topic, data, order) => if Fresh(net.nodes[n], topic, data).id == id then |order| else 0
    case Deliver(i, _) => IsAsk(net.flight[i], net.flight[i].src, id)
    case _ => 0
  }

  lemma OwnInitiativePaid(net: Net, a: Action, id: MsgId)
    requires Enabled(net, a) && !a.Lose? && !a.Deliver?
    ensures Paid(net.nodes[Actor(net, a)], NodeEffect(net, a), Credit(net, a, id), id)
  {
    NoneOf(NodeEffect(net, a).out, Actor(net, a), id);
  }

  lemma ActionPaid(net: Net, a: Action, id: MsgId)
    requires Integrity(net) && Enabled(net, a) && !a.Lose?
    ensures Paid(net.nodes[Actor(net, a)], NodeEffect(net, a), Credit(net, a, id), id)
  {
    if a.Deliver? {
      var p := net.flight[a.at];
      assert p in net.flight && PacketOk(net, p) && NodeOk(net, p.dst);
      WirePaid(net.config, net.nodes[p.dst], p.src, p.wire, a.order, id);
    } else {
      OwnInitiativePaid(net, a, id);
    }
  }

  // ---- one request per node ----

  ghost predicate AskedOnce(net: Net, n: NodeId, id: MsgId)
    requires n in net.nodes
  {
    AsksBy(net.sent, n, id) <= Bit(id in net.nodes[n].pending)
  }

  lemma OutputFromActor(net: Net, a: Action, n: NodeId, id: MsgId)
    requires Integrity(net) && Enabled(net, a) && !a.Lose? && n in net.nodes
    ensures AsksBy(NodeEffect(net, a).out, n, id) <= if n == Actor(net, a) then Asks(NodeEffect(net, a).out, id) else 0
  {
    NoneOf(NodeEffect(net, a).out, n, id);
    SentByActor(net, a);
  }

  lemma SentByActor(net: Net, a: Action)
    requires Integrity(net) && Enabled(net, a) && !a.Lose?
    ensures forall p :: p in NodeEffect(net, a).out ==> p.src == Actor(net, a)
  {
    ActionDisciplined(net, a);
    assert NodeOk(net, Actor(net, a));
    SentBySelf(net.nodes[Actor(net, a)], NodeEffect(net, a), From(net, a), Gained(net, a), Requested(net, a));
  }

  lemma SentBySelf(s: NodeState, e: Effect, from: Option<NodeId>, gain: Option<Message>, asked: set<MsgId>)
    requires Disciplined(s, e, from, gain, asked)
    ensures forall p :: p in e.out ==> p.src == s.id
  {
  }

  /** Only an action of n that newly marks the id as requested can send n's IWANT for it. */
  lemma AskCounted(net: Net, a: Action, n: NodeId, id: MsgId)
    requires Integrity(net) && Enabled(net, a) && n in net.nodes
    ensures AsksBy(Apply(net, a).sent, n, id)
         <= AsksBy(net.sent, n, id) + Bit(id in Apply(net, a).nodes[n].pending && id !in net.nodes[n].pending)
  {
    if !a.Lose? {
      CountsConcat(net.sent, NodeEffect(net, a).out, n, id);
      OutputFromActor(net, a, n, id);
      ActionPaid(net, a, id);
    }
  }

  /** Over any run, lossy or not, a node sends at most one IWANT for an id. */
  lemma {:induction false} RequestedAtMostOnce(net: Net, actions: seq<Action>, end: Net, n: NodeId, id: MsgId)
    requires Integrity(net) && Runs(net, actions, end) && n in net.nodes && AskedOnce(net, n, id)
    ensures n in end.nodes && AskedOnce(end, n, id)
    decreases |actions|
  {
    if actions == [] {
    } else {
      var next := Apply(net, actions[0]);
      IntegrityStep(net, actions[0]);
      AskCounted(net, actions[0], n, id);
      assert NodeGrows(net.nodes[n], next.nodes[n]);
      RequestedAtMostOnce(next, actions[1..], end, n, id);
    }
  }

  /** An id once marked as requested is never requested again, so one that the 64-id limit dropped from its
      IWANT is never requested at all. */
  lemma {:induction false} NeverAskedAgain(net: Net, actions: seq<Action>, end: Net, n: NodeId, id: MsgId)
    requires Integrity(net) && Runs(net, actions, end) && n in net.nodes && id in net.nodes[n].pending
    ensures AsksBy(end.sent, n, id) <= AsksBy(net.sent, n, id)
    decreases |actions|
  {
    if actions == [] {
    } else {
      var next := Apply(net, actions[0]);
      IntegrityStep(net, actions[0]);
      AskCounted(net, actions[0], n, id);
      assert NodeGrows(net.nodes[n], next.nodes[n]);
      NeverAskedAgain(next, actions[1..], end, n, id);
    }
  }

  /** The k-th id an IHAVE makes a node want is asked for in the reply exactly when k is below the limit. */
  lemma AskedIffWithinLimit(s: NodeState, from: NodeId, topic: Topic, ids: seq<MsgId>, k: nat)
    requires topic in s.subs && NoDup(ids) && k < |Wanted(s, ids)|
    ensures Asks(OnIHave(s, from, topic, ids).out, Wanted(s, ids)[k]) == Bit(k < IWANT_LIMIT)
  {
    var wanted := Wanted(s, ids);
    WantedNoDup(s, ids);
    var asked := PyTake(wanted, IWANT_LIMIT);
    if k < IWANT_LIMIT {
      assert asked[k] == wanted[k];
    } else {
      assert asked == wanted[..IWANT_LIMIT];
    }
    assert forall p: Packet :: Asks([p], wanted[k]) == IsAsk(p, p.src, wanted[k]);
  }

  lemma DroppedByLimit(net: Net, a: Action, id: MsgId, k: nat)
    requires Integrity(net) && Enabled(net, a) && a.Deliver? && net.flight[a.at].wire.IHave?
    requires var p, s := net.flight[a.at], net.nodes[net.flight[a.at].dst];
             && p.wire.topic in s.subs && IWANT_LIMIT <= k < |Wanted(s, p.wire.ids)| && id == Wanted(s, p.wire.ids)[k]
    ensures Asks(NodeEffect(net, a).out, id) == 0
    ensures id in NodeEffect(net, a).s.pending && id !in net.nodes[net.flight[a.at].dst].pending
  {
    var p := net.flight[a.at];
    var s := net.nodes[p.dst];
    assert p in net.flight && PacketOk(net, p);
    WantedIsFilter(s, p.wire.ids);
    AskedIffWithinLimit(s, p.src, p.wire.topic, p.wire.ids, k);
    assert id in Elements(Wanted(s, p.wire.ids));
  }

  /** A wanted id beyond the limit is lost to the request mechanism for good: its node never asks for it,
      whatever else happens afterwards. */
  lemma BeyondLimitNeverAsked(net: Net, a: Action, id: MsgId, k: nat, actions: seq<Action>, end: Net)
    requires Integrity(net) && Enabled(net, a) && a.Deliver? && net.flight[a.at].wire.IHave?
    requires var p, s := net.flight[a.at], net.nodes[net.flight[a.at].dst];
             && p.wire.topic in s.subs && IWANT_LIMIT <= k < |Wanted(s, p.wire.ids)| && id == Wanted(s, p.wire.ids)[k]
             && AskedOnce(net, p.dst, id)
    requires Runs(Apply(net, a), actions, end)
    ensures AsksBy(end.sent, net.flight[a.at].dst, id) == 0
  {
    var n := net.flight[a.at].dst;
    DroppedByLimit(net, a, id, k);
    CountsConcat(net.sent, NodeEffect(net, a).out, n, id);
    OutputFromActor(net, a, n, id);
    IntegrityStep(net, a);
    NeverAskedAgain(Apply(net, a), actions, end, n, id);
  }

  // ---- copies of one message ----

  ghost function Takers(net: Net, id: MsgId): set<NodeId> {
    set n | n in net.nodes && id in net.nodes[n].received
  }

  ghost function Askers(net: Net, id: MsgId): set<NodeId> {
    set n | n in net.nodes && id in net.nodes[n].pending
  }

  ghost function Fanout(net: Net, id: MsgId): nat {
    if id in net.pub then net.pub[id].fanout else 0
  }

  /** Copies already sent, and those still owed to requests in flight, are covered by the publication, one
      eager forward per receiver and one reply per requester. */
  ghost predicate WithinBudget(net: Net, id: MsgId) {
    Copies(net.sent, id) + Asks(net.flight, id) <= Fanout(net, id) + |Takers(net, id)| + |Askers(net, id)|
  }

  lemma TakersGrow(net: Net, next: Net, n: NodeId, id: MsgId)
    requires n in net.nodes && n in next.nodes && next.nodes == net.nodes[n := next.nodes[n]]
    requires net.nodes[n].received <= next.nodes[n].received
    ensures |Takers(next, id)| == |Takers(net, id)| + Bit(id in next.nodes[n].received && id !in net.nodes[n].received)
  {
    if id in next.nodes[n].received && id !in net.nodes[n].received {
      assert Takers(next, id) == Takers(net, id) + {n};
    } else {
      assert Takers(next, id) == Takers(net, id);
    }
  }

  lemma AskersGrow(net: Net, next: Net, n: NodeId, id: MsgId)
    requires n in net.nodes && n in next.nodes && next.nodes == net.nodes[n := next.nodes[n]]
    requires net.nodes[n].pending <= next.nodes[n].pending
    ensures |Askers(next, id)| == |Askers(net, id)| + Bit(id in next.nodes[n].pending && id !in net.nodes[n].pending)
  {
    if id in next.nodes[n].pending && id !in net.nodes[n].pending {
      assert Askers(next, id) == Askers(net, id) + {n};
    } else {
      assert Askers(next, id) == Askers(net, id);
    }
  }

  lemma FlightAsks(net: Net, a: Action, id: MsgId)
    requires Enabled(net, a) && !a.Lose?
    ensures var taken := if a.Deliver? then IsAsk(net.flight[a.at], net.flight[a.at].src, id) else 0;
            Asks(Apply(net, a).flight, id) + taken == Asks(net.flight, id) + Asks(NodeEffect(net, a).out, id)
  {
    CountsConcat(Remaining(net, a), NodeEffect(net, a).out, Actor(net, a), id);
    if a.Deliver? {
      AsksRemove(net.flight, a.at, id);
    }
  }

  lemma FanoutGrows(net: Net, a: Action, id: MsgId)
    requires Integrity(net) && Enabled(net, a) && !a.Lose?
    ensures Fanout(Apply(net, a), id) == Fanout(net, id) + if a.Publish? then Credit(net, a, id) else 0
  {
    if a.Publish? {
      assert NodeOk(net, a.n);
      PublishedIdIsNew(net, a.n);
      FanoutOfPublish(net, a, id);
    } else {
      assert Apply(net, a).pub == net.pub;
    }
  }

  lemma FanoutOfPublish(net: Net, a: Action, id: MsgId)
    requires Enabled(net, a) && a.Publish? && net.nodes[a.n].id == a.n
    requires GenId(a.n, net.nodes[a.n].counter + 1) !in net.pub
    ensures Fanout(Apply(net, a), id) == Fanout(net, id) + Credit(net, a, id)
  {
    var k := GenId(a.n, net.nodes[a.n].counter + 1);
    assert Apply(net, a).pub
           == net.pub[k := Publication(a.topic, a.n, a.data, net.nodes[a.n].counter + 1, |a.order|)];
    assert Fresh(net.nodes[a.n], a.topic, a.data).id == k;
  }

  lemma BudgetStep(net: Net, a: Action, id: MsgId)
    requires Integrity(net) && Enabled(net, a) && !a.Lose? && WithinBudget(net, id)
    ensures WithinBudget(Apply(net, a), id)
  {
    var next, n := Apply(net, a), Actor(net, a);
    assert NodeGrows(net.nodes[n], next.nodes[n]) by {
      IntegrityStep(net, a);
    }
    ActionPaid(net, a, id);
    CountsConcat(net.sent, NodeEffect(net, a).out, n, id);
    FlightAsks(net, a, id);
    FanoutGrows(net, a, id);
    TakersGrow(net, next, n, id);
    AskersGrow(net, next, n, id);
  }

  lemma LossKeepsBudget(net: Net, a: Action, id: MsgId)
    requires Enabled(net, a) && a.Lose? && WithinBudget(net, id)
    ensures WithinBudget(Apply(net, a), id)
  {
    AsksRemove(net.flight, a.at, id);
  }

  lemma {:induction false} BudgetAlways(net: Net, actions: seq<Action>, end: Net, id: MsgId)
    requires Integrity(net) && Runs(net, actions, end) && WithinBudget(net, id)
    ensures Integrity(end) && WithinBudget(end, id)
    decreases |actions|
  {
    if actions == [] {
    } else {
      IntegrityStep(net, actions[0]);
      if actions[0].Lose? {
        LossKeepsBudget(net, actions[0], id);
      } else {
        BudgetStep(net, actions[0], id);
      }
      BudgetAlways(Apply(net, actions[0]), actions[1..], end, id);
    }
  }

  lemma NeverOrigin(net: Net, id: MsgId)
    requires Integrity(net) && id in net.pub
    ensures |Takers(net, id)| <= |net.nodes| - 1 && |Askers(net, id)| <= |net.nodes| - 1
  {
    var o, all := net.pub[id].origin, net.nodes.Keys;
    assert PublicationOk(net, id);
    OneFewer(Takers(net, id), o, all);
    OneFewer(Askers(net, id), o, all);
    assert |all| == |net.nodes|;
  }

  lemma OneFewer(some: set<NodeId>, o: NodeId, all: set<NodeId>)
    requires some <= all && o in all && o !in some
    ensures |some| <= |all| - 1
  {
    SubsetSize(some, all - {o});
  }

  /** Over any run, heartbeats and losses included, the full copies of a message ever put on the wire are
      at most its publish fan-out plus one per receiver plus one per requester: linear in the network. */
  lemma MessageComplexity(net: Net, actions: seq<Action>, end: Net, id: MsgId)
    requires Init(net) && Runs(net, actions, end) && id in end.pub
    ensures Copies(end.sent, id) <= end.pub[id].fanout + |Takers(end, id)| + |Askers(end, id)|
    ensures Copies(end.sent, id) <= end.pub[id].fanout + 2 * (|end.nodes| - 1)
  {
    IntegrityFromInit(net);
    BudgetAlways(net, actions, end, id);
    NeverOrigin(end, id);
  }
}
