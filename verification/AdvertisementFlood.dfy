/** Flooding of signed advertisements: a daemon relays an advertisement the first time its store takes it.
    A network of stores with fixed peer lists, as a transition system. */
module AdvertisementFlood {
  import opened Collections
  import opened EventLog
  import opened PeerLists

  datatype Packet = Packet(from: Key, to: Key, envelope: Envelope)

  function Sends(self: Key, targets: seq<Key>, e: Envelope): (out: seq<Packet>)
    ensures |out| == |targets| && forall i :: 0 <= i < |targets| ==> out[i] == Packet(self, targets[i], e)
  {
    seq(|targets|, i requires 0 <= i < |targets| => Packet(self, targets[i], e))
  }

  datatype Handled = Handled(log: Log, out: seq<Packet>)

  function Sender(from: Option<Key>): set<Key> {
    if from.Some? then {from.value} else {}
  }

  function RelayTargets(self: Key, peers: seq<Key>, e: Envelope, from: Option<Key>): seq<Key> {
    Without(peers, {self, e.signer} + Sender(from))
  }

  /** store_and_relay_advertisement: an envelope that does not verify changes nothing. */
  ghost function OnAdvertisement(valid: iset<Envelope>, self: Key, log: Log, peers: seq<Key>, e: Envelope,
          from: Option<Key>): Handled {
    if e !in valid then Handled(log, [])
    else if HasEvent(log, e.eventId) then Handled(log, [])
    else Handled(log + [e], Sends(self, RelayTargets(self, peers, e, from), e))
  }

  /** announce_current_advertisement */
  ghost function OnAnnounce(self: Key, log: Log, peers: seq<Key>, e: Envelope): Handled {
    Handled(Appended(log, e), Sends(self, peers, e))
  }

  // ---- the network ----

  /** `valid` holds the envelopes whose signature verifies; `flight` is a bag. */
  datatype Net = Net(valid: iset<Envelope>, stores: map<Key, Log>, peers: Graph, flight: seq<Packet>)

  /** Import stands for what else a daemon stores without relaying: discovery responses, its own events. */
  datatype Action =
    | Announce(n: Key, e: Envelope)
    | Deliver(at: nat)
    | Lose(at: nat)
    | Import(n: Key, es: seq<Envelope>)

  ghost predicate WellFormed(net: Net) {
    && net.peers.Keys == net.stores.Keys
    && forall n :: n in net.peers ==> NoDup(net.peers[n]) && n !in net.peers[n]
  }

  ghost predicate Enabled(net: Net, a: Action) {
    match a
    case Announce(n, e) => n in net.stores && n in net.peers && e.signer == n && e in net.valid
    case Deliver(i) => i < |net.flight| && net.flight[i].to in net.stores && net.flight[i].to in net.peers
    case Lose(i) => i < |net.flight|
    case Import(n, es) => n in net.stores
  }

  ghost function DeliverEffect(net: Net, i: nat): Handled
    requires Enabled(net, Deliver(i))
  {
    var p := net.flight[i];
    OnAdvertisement(net.valid, p.to, net.stores[p.to], net.peers[p.to], p.envelope, Some(p.from))
  }

  ghost function Apply(net: Net, a: Action): Net
    requires Enabled(net, a)
  {
    match a
    case Announce(n, e) =>
      var h := OnAnnounce(n, net.stores[n], net.peers[n], e);
      net.(stores := net.stores[n := h.log], flight := net.flight + h.out)
    case Deliver(i) =>
      var h := DeliverEffect(net, i);
      net.(stores := net.stores[net.flight[i].to := h.log], flight := RemoveAt(net.flight, i) + h.out)
    case Lose(i) => net.(flight := RemoveAt(net.flight, i))
    case Import(n, es) => net.(stores := net.stores[n := Imported(net.stores[n], es)])
  }

  ghost predicate Runs(net: Net, actions: seq<Action>, end: Net)
    decreases |actions|
  {
    if actions == [] then end == net
    else Enabled(net, actions[0]) && Runs(Apply(net, actions[0]), actions[1..], end)
  }

  ghost predicate Holds(net: Net, n: Key, id: Key) {
    n in net.stores && HasEvent(net.stores[n], id)
  }

  // ---- stores only grow ----

  ghost predicate Lists(es: seq<Envelope>, id: Key) {
    exists e :: e in es && e.eventId == id
  }

  lemma {:induction false} ImportedHas(log: Log, es: seq<Envelope>, id: Key)
    ensures log <= Imported(log, es)
    ensures HasEvent(Imported(log, es), id) <==> HasEvent(log, id) || Lists(es, id)
    decreases |es|
  {
    if es == [] {
    } else {
      ImportedHas(Appended(log, es[0]), es[1..], id);
      NewEvent(log, es[0], id);
      assert es[0] in es;
      if e :| e in es && e.eventId == id {
        assert e == es[0] || e in es[1..];
      }
      if e :| e in es[1..] && e.eventId == id {
        assert e in es;
      }
    }
  }

  lemma HoldsStays(net: Net, a: Action, n: Key, id: Key)
    requires Enabled(net, a) && Holds(net, n, id)
    ensures Holds(Apply(net, a), n, id)
  {
    var next := Apply(net, a);
    if a.Import? {
      ImportedHas(net.stores[a.n], a.es, id);
    }
    assert net.stores[n] <= next.stores[n];
    HasEventStays(net.stores[n], next.stores[n], id);
  }

  lemma NewEvent(log: Log, e: Envelope, id: Key)
    ensures HasEvent(log + [e], id) <==> HasEvent(log, id) || e.eventId == id
  {
    assert e in log + [e];
    if HasEvent(log, id) {
      HasEventStays(log, log + [e], id);
    }
  }

  ghost predicate Takes(net: Net, a: Action, n: Key, id: Key)
    requires Enabled(net, a)
  {
    && a.Deliver? && net.flight[a.at].to == n && net.flight[a.at].envelope.eventId == id
    && net.flight[a.at].envelope in net.valid
  }

  predicate AnnouncesIt(a: Action, n: Key, id: Key) {
    a.Announce? && a.n == n && a.e.eventId == id
  }

  ghost predicate ImportsIt(a: Action, n: Key, id: Key) {
    a.Import? && a.n == n && Lists(a.es, id)
  }

  /** Who holds the event after an action. */
  lemma HoldsAfter(net: Net, a: Action, n: Key, id: Key)
    requires Enabled(net, a) && n in net.stores
    ensures Holds(Apply(net, a), n, id) <==>
              Holds(net, n, id) || AnnouncesIt(a, n, id) || Takes(net, a, n, id) || ImportsIt(a, n, id)
  {
    match a
    case Announce(m, e) => NewEvent(net.stores[m], e, id);
    case Deliver(i) => NewEvent(net.stores[net.flight[i].to], net.flight[i].envelope, id);
    case Lose(_) =>
    case Import(m, es) => ImportedHas(net.stores[m], es, id);
  }

  // ---- at most one relay ----

  /** The step in which node n takes the event and relays it. */
  ghost predicate Relays(net: Net, a: Action, n: Key, id: Key)
    requires Enabled(net, a)
  {
    Takes(net, a, n, id) && !Holds(net, n, id)
  }

  ghost function RelayCount(net: Net, actions: seq<Action>, end: Net, n: Key, id: Key): nat
    requires Runs(net, actions, end)
    decreases |actions|
  {
    if actions == [] then 0
    else
      (if Relays(net, actions[0], n, id) then 1 else 0) +
      RelayCount(Apply(net, actions[0]), actions[1..], end, n, id)
  }

  /** Over every run, with losses, imports and repeated announcements, a node relays an event id at most once,
      and never when its store held the event beforehand. */
  lemma {:induction false} RelayedAtMostOnce(net: Net, actions: seq<Action>, end: Net, n: Key, id: Key)
    requires Runs(net, actions, end)
    ensures RelayCount(net, actions, end, n, id) <= 1
    ensures Holds(net, n, id) ==> RelayCount(net, actions, end, n, id) == 0
    decreases |actions|
  {
    if actions == [] {
    } else {
      var a, next := actions[0], Apply(net, actions[0]);
      RelayedAtMostOnce(next, actions[1..], end, n, id);
      if Holds(net, n, id) {
        HoldsStays(net, a, n, id);
      } else if Relays(net, a, n, id) {
        HoldsAfter(net, a, n, id);
      }
    }
  }

  // ---- where packets go ----

  ghost predicate Aimed(net: Net) {
    forall p :: p in net.flight ==>
      && p.to != p.envelope.signer && p.to != p.from && p.from in net.peers && p.to in net.peers[p.from]
  }

  lemma AimedStep(net: Net, a: Action)
    requires WellFormed(net) && Aimed(net) && Enabled(net, a)
    ensures WellFormed(Apply(net, a)) && Aimed(Apply(net, a))
  {
    var next := Apply(net, a);
    assert next.stores.Keys == net.stores.Keys;
    if a.Deliver? {
      var q := net.flight[a.at];
      WithoutKeeps(net.peers[q.to], {q.to, q.envelope.signer} + Sender(Some(q.from)));
    }
    forall p | p in next.flight
      ensures p in net.flight
                || (p.to != p.envelope.signer && p.to != p.from && p.from in net.peers && p.to in net.peers[p.from])
    {
      var k :| 0 <= k < |next.flight| && next.flight[k] == p;
    }
  }

  /** No advertisement is ever sent to its signer, to its sender, or to anyone but a peer of its sender. */
  lemma {:induction false} AimedAlways(net: Net, actions: seq<Action>, end: Net)
    requires WellFormed(net) && Aimed(net) && Runs(net, actions, end)
    ensures WellFormed(end) && Aimed(end)
    decreases |actions|
  {
    if actions == [] {
    } else {
      AimedStep(net, actions[0]);
      AimedAlways(Apply(net, actions[0]), actions[1..], end);
    }
  }

  // ---- what an action sends ----

  lemma FlightAfter(net: Net, a: Action, p: Packet)
    requires Enabled(net, a)
    ensures p in Apply(net, a).flight ==> p in net.flight || p in NewPackets(net, a)
    ensures p in NewPackets(net, a) ==> p in Apply(net, a).flight
    ensures p in net.flight && !((a.Deliver? || a.Lose?) && net.flight[a.at] == p) ==> p in Apply(net, a).flight
  {
  }

  ghost function NewPackets(net: Net, a: Action): seq<Packet>
    requires Enabled(net, a)
  {
    match a
    case Announce(n, e) => OnAnnounce(n, net.stores[n], net.peers[n], e).out
    case Deliver(i) => DeliverEffect(net, i).out
    case _ => []
  }

  /** What an action puts on the wire: a copy for every peer of an announcer, and for every peer of a node
      that takes the event, except the signer and the node it came from. */
  lemma NewPacketsAre(net: Net, a: Action, p: Packet)
    requires WellFormed(net) && Enabled(net, a)
    ensures p in NewPackets(net, a) <==>
      || (a.Announce? && p.from == a.n && p.envelope == a.e && p.to in net.peers[a.n])
      || (a.Deliver? && var q := net.flight[a.at];
          && Relays(net, a, q.to, q.envelope.eventId) && p.from == q.to && p.envelope == q.envelope
          && p.to in net.peers[q.to] && p.to != q.envelope.signer && p.to != q.from)
  {
    match a
    case Announce(n, e) => SendsAre(n, net.peers[n], e, p);
    case Deliver(i) =>
      var q := net.flight[i];
      WithoutKeeps(net.peers[q.to], {q.to, q.envelope.signer} + Sender(Some(q.from)));
      SendsAre(q.to, RelayTargets(q.to, net.peers[q.to], q.envelope, Some(q.from)), q.envelope, p);
    case _ =>
  }

  lemma SendsAre(self: Key, targets: seq<Key>, e: Envelope, p: Packet)
    ensures p in Sends(self, targets, e) <==> p.from == self && p.envelope == e && p.to in targets
  {
    var out := Sends(self, targets, e);
    if p.from == self && p.envelope == e && p.to in targets {
      var i :| 0 <= i < |targets| && targets[i] == p.to;
      assert out[i] == p;
    }
  }

  /** What a step makes of the acting node's store: an announcer's gains its advertisement, a receiver's the envelope
      it was sent, if that verifies; neither when its event is there already. */
  lemma StoresAre(net: Net, a: Action)
    requires Enabled(net, a) && (a.Announce? || a.Deliver?)
    ensures var n := if a.Announce? then a.n else net.flight[a.at].to;
            var e := if a.Announce? then a.e else net.flight[a.at].envelope;
            var s, t := net.stores[n], Apply(net, a).stores[n];
            && t == (if (a.Deliver? && e !in net.valid) || (exists f :: f in s && f.eventId == e.eventId) then s
                     else s + [e])
            && forall k :: k in net.stores && k != n ==> Apply(net, a).stores[k] == net.stores[k]
  {
  }

  // ---- termination ----

  /** The node and event pairs still ahead of the flood. */
  ghost function Unheld(net: Net): set<(Key, Key)> {
    set n, p | n in net.stores && p in net.flight
        && !HasEvent(net.stores[n], p.envelope.eventId) :: (n, p.envelope.eventId)
  }

  ghost function Potential(net: Net, degree: nat): nat {
    degree * |Unheld(net)| + |net.flight|
  }

  lemma UnheldShrinks(net: Net, a: Action)
    requires WellFormed(net) && Enabled(net, a) && (a.Deliver? || a.Lose?)
    ensures Unheld(Apply(net, a)) <= Unheld(net)
    ensures a.Deliver? && Relays(net, a, net.flight[a.at].to, net.flight[a.at].envelope.eventId) ==>
              |Unheld(Apply(net, a))| < |Unheld(net)|
    ensures |Unheld(Apply(net, a))| <= |Unheld(net)|
  {
    var next := Apply(net, a);
    var q := net.flight[a.at];
    forall pair | pair in Unheld(next)
      ensures pair in Unheld(net)
    {
      var p :| p in next.flight && pair == (pair.0, p.envelope.eventId);
      FlightAfter(net, a, p);
      NewPacketsAre(net, a, p);
      assert q in net.flight;
      if Holds(net, pair.0, pair.1) {
        HoldsStays(net, a, pair.0, pair.1);
      }
    }
    SubsetSize(Unheld(next), Unheld(net));
    if a.Deliver? && Relays(net, a, q.to, q.envelope.eventId) {
      var pair := (q.to, q.envelope.eventId);
      assert q in net.flight && pair in Unheld(net);
      HoldsAfter(net, a, q.to, q.envelope.eventId);
      assert pair !in Unheld(next);
      SubsetSize(Unheld(next), Unheld(net) - {pair});
    }
  }

  /** Every delivery or loss lowers the potential. */
  lemma DeliveryLowersPotential(net: Net, a: Action, degree: nat)
    requires WellFormed(net) && DegreeAtMost(net.peers, degree) && Enabled(net, a) && (a.Deliver? || a.Lose?)
    ensures Potential(Apply(net, a), degree) < Potential(net, degree)
  {
    var next := Apply(net, a);
    UnheldShrinks(net, a);
    var fewer: nat := if |Unheld(next)| < |Unheld(net)| then 1 else 0;
    Scaled(degree, |Unheld(next)|, fewer, |Unheld(net)|);
    if a.Deliver? {
      var q := net.flight[a.at];
      if Relays(net, a, q.to, q.envelope.eventId) {
        WithoutKeeps(net.peers[q.to], {q.to, q.envelope.signer} + Sender(Some(q.from)));
      }
    }
  }

  /** The flood terminates: no more packets can be delivered or lost than the potential says. */
  lemma {:induction false} DrainBound(net: Net, actions: seq<Action>, end: Net, degree: nat)
    requires WellFormed(net) && DegreeAtMost(net.peers, degree) && Runs(net, actions, end)
    requires forall a :: a in actions ==> a.Deliver? || a.Lose?
    ensures |actions| + Potential(end, degree) <= Potential(net, degree)
    decreases |actions|
  {
    if actions == [] {
    } else {
      assert actions[0] in actions;
      var next := Apply(net, actions[0]);
      DeliveryLowersPotential(net, actions[0], degree);
      assert next.stores.Keys == net.stores.Keys;
      DrainBound(next, actions[1..], end, degree);
    }
  }
}
