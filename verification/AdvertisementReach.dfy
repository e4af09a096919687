/** Which nodes an advertisement reaches once its flood is over: exactly, whatever is imported meanwhile. */
module AdvertisementReach {
  import opened Collections
  import opened EventLog
  import opened PeerLists
  import opened AdvertisementFlood

  ghost predicate Carries(net: Net, n: Key, id: Key) {
    exists p :: p in net.flight && p.to == n && p.envelope.eventId == id
  }

  /** The action loses no copy of the event bound for a node of the network. */
  ghost predicate Keeps(net: Net, a: Action, id: Key)
    requires Enabled(net, a)
  {
    a.Lose? ==> net.flight[a.at].envelope.eventId != id || net.flight[a.at].to !in net.stores
  }

  ghost predicate Lossless(net: Net, actions: seq<Action>, id: Key)
    decreases |actions|
  {
    actions != [] ==>
      Enabled(net, actions[0]) && Keeps(net, actions[0], id) && Lossless(Apply(net, actions[0]), actions[1..], id)
  }

  ghost predicate Unheard(net: Net, id: Key) {
    (forall n :: !Holds(net, n, id)) && (forall p :: p in net.flight ==> p.envelope.eventId != id)
  }

  ghost predicate Quiet(net: Net, id: Key) {
    forall n :: !Carries(net, n, id)
  }

  // ---- what a run did ----

  ghost predicate Announces(actions: seq<Action>, id: Key, n: Key) {
    exists a :: a in actions && AnnouncesIt(a, n, id)
  }

  ghost predicate Imports(actions: seq<Action>, id: Key, n: Key) {
    exists a :: a in actions && ImportsIt(a, n, id)
  }

  /** Who has announced, relayed and imported the event so far. */
  datatype History = History(announced: set<Key>, relayed: set<Key>, imported: set<Key>)

  /** Who has sent the event to its peers. */
  function Pushers(h: History): set<Key> {
    h.announced + h.relayed
  }

  ghost function Noted(net: Net, a: Action, id: Key, h: History): History
    requires Enabled(net, a)
  {
    match a
    case Announce(n, e) => if e.eventId == id then h.(announced := h.announced + {n}) else h
    case Import(n, es) => if Lists(es, id) then h.(imported := h.imported + {n}) else h
    case Deliver(i) => if Relays(net, a, net.flight[i].to, id) then h.(relayed := h.relayed + {net.flight[i].to}) else h
    case Lose(_) => h
  }

  ghost function HistoryOf(net: Net, actions: seq<Action>, end: Net, id: Key, h: History): History
    requires Runs(net, actions, end)
    decreases |actions|
  {
    if actions == [] then h else HistoryOf(Apply(net, actions[0]), actions[1..], end, id, Noted(net, actions[0], id, h))
  }

  lemma {:induction false} HistoryIs(net: Net, actions: seq<Action>, end: Net, id: Key, h: History, n: Key)
    requires Runs(net, actions, end)
    ensures var g := HistoryOf(net, actions, end, id, h);
            && (n in g.announced <==> n in h.announced || Announces(actions, id, n))
            && (n in g.imported <==> n in h.imported || Imports(actions, id, n))
            && (n in g.relayed <==> n in h.relayed || RelayCount(net, actions, end, n, id) > 0)
    decreases |actions|
  {
    if actions == [] {
    } else {
      var a, rest := actions[0], actions[1..];
      HistoryIs(Apply(net, a), rest, end, id, Noted(net, a, id, h), n);
      assert actions == [a] + rest;
      assert Announces(actions, id, n) <==> AnnouncesIt(a, n, id) || Announces(rest, id, n);
      assert Imports(actions, id, n) <==> ImportsIt(a, n, id) || Imports(rest, id, n);
    }
  }

  // ---- holders ----

  /** The holders are those that announced, relayed or imported the event; every peer of one that sent it holds it
      or is about to; whoever relayed it is a peer of one that sent it; copies in flight verify, come from one
      that sent the event, and leave out nobody who lacks it. */
  ghost predicate Tracked(net: Net, id: Key, h: History) {
    && (forall n :: Holds(net, n, id) <==> n in Pushers(h) + h.imported)
    && (forall n, m :: n in Pushers(h) && IsPeer(net, n, m) && m in net.stores ==>
        Holds(net, m, id) || Carries(net, m, id))
    && (forall n :: n in h.relayed ==> PeerOfPusher(net, h, n))
    && (forall p :: p in net.flight && p.envelope.eventId == id ==> Backed(net, id, h, p))
  }

  ghost predicate IsPeer(net: Net, n: Key, m: Key) {
    n in net.peers && m in net.peers[n]
  }

  ghost predicate PeerOfPusher(net: Net, h: History, m: Key) {
    exists n :: n in Pushers(h) && IsPeer(net, n, m)
  }

  ghost predicate Backed(net: Net, id: Key, h: History, p: Packet) {
    p.envelope in net.valid && p.from in Pushers(h) && IsPeer(net, p.from, p.to) && p.envelope.signer in Pushers(h)
  }

  lemma NotedGrows(net: Net, a: Action, id: Key, h: History)
    requires Enabled(net, a)
    ensures Pushers(h) <= Pushers(Noted(net, a, id, h)) && h.imported <= Noted(net, a, id, h).imported
    ensures forall n :: n in Pushers(Noted(net, a, id, h))
              <==> n in Pushers(h) || AnnouncesIt(a, n, id) || Relays(net, a, n, id)
    ensures forall n :: n in Noted(net, a, id, h).imported <==> n in h.imported || ImportsIt(a, n, id)
  {
  }

  lemma HoldersStep(net: Net, a: Action, id: Key, h: History)
    requires WellFormed(net) && Tracked(net, id, h) && Enabled(net, a)
    ensures forall n :: Holds(Apply(net, a), n, id)
              <==> n in Pushers(Noted(net, a, id, h)) + Noted(net, a, id, h).imported
  {
    forall n
      ensures Holds(Apply(net, a), n, id) <==> n in Pushers(Noted(net, a, id, h)) + Noted(net, a, id, h).imported
    {
      HolderStep(net, a, id, h, n);
    }
  }

  lemma HolderStep(net: Net, a: Action, id: Key, h: History, n: Key)
    requires WellFormed(net) && Tracked(net, id, h) && Enabled(net, a)
    ensures Holds(Apply(net, a), n, id) <==> n in Pushers(Noted(net, a, id, h)) + Noted(net, a, id, h).imported
  {
    NotedGrows(net, a, id, h);
    assert Apply(net, a).stores.Keys == net.stores.Keys;
    assert Holds(net, n, id) <==> n in Pushers(h) + h.imported;
    if n in net.stores {
      HoldsAfter(net, a, n, id);
      assert Relays(net, a, n, id) <==> Takes(net, a, n, id) && !Holds(net, n, id);
    }
  }

  lemma BackedStep(net: Net, a: Action, id: Key, h: History, p: Packet)
    requires WellFormed(net) && Tracked(net, id, h) && Enabled(net, a)
    requires p in Apply(net, a).flight && p.envelope.eventId == id
    ensures Backed(Apply(net, a), id, Noted(net, a, id, h), p)
  {
    NotedGrows(net, a, id, h);
    FlightAfter(net, a, p);
    if p in net.flight {
      assert Backed(net, id, h, p);
    } else {
      NewPacketsAre(net, a, p);
      if a.Deliver? {
        assert net.flight[a.at] in net.flight;
        assert Backed(net, id, h, net.flight[a.at]);
      }
    }
  }

  lemma RelayedStep(net: Net, a: Action, id: Key, h: History, n: Key)
    requires WellFormed(net) && Tracked(net, id, h) && Enabled(net, a) && n in Noted(net, a, id, h).relayed
    ensures PeerOfPusher(Apply(net, a), Noted(net, a, id, h), n)
  {
    NotedGrows(net, a, id, h);
    if n in h.relayed {
      var k :| k in Pushers(h) && IsPeer(net, k, n);
      assert k in Pushers(Noted(net, a, id, h)) && IsPeer(Apply(net, a), k, n);
    } else {
      var q := net.flight[a.at];
      assert q in net.flight && Backed(net, id, h, q);
      assert q.from in Pushers(Noted(net, a, id, h)) && IsPeer(Apply(net, a), q.from, n);
    }
  }

  /** One edge n -> m of the flood, after one action. */
  lemma EdgeStep(net: Net, a: Action, id: Key, h: History, n: Key, m: Key)
    requires WellFormed(net) && Tracked(net, id, h) && Enabled(net, a) && Keeps(net, a, id)
    requires n in Pushers(Noted(net, a, id, h)) && IsPeer(net, n, m) && m in net.stores
    ensures Holds(Apply(net, a), m, id) || Carries(Apply(net, a), m, id)
  {
    NotedGrows(net, a, id, h);
    HoldsAfter(net, a, m, id);
    if n in Pushers(h) {
      if !Holds(net, m, id) {
        CopyStays(net, a, id, h, m);
      }
    } else if a.Announce? {
      SentTo(net, a, Packet(n, m, a.e));
    } else {
      var q := net.flight[a.at];
      assert q in net.flight && Backed(net, id, h, q);
      if m == q.envelope.signer || m == q.from {
        assert Holds(net, m, id);
      } else {
        SentTo(net, a, Packet(n, m, q.envelope));
      }
    }
  }

  lemma SentTo(net: Net, a: Action, p: Packet)
    requires WellFormed(net) && Enabled(net, a)
    requires || (a.Announce? && p.from == a.n && p.envelope == a.e && p.to in net.peers[a.n])
             || (a.Deliver? && var q := net.flight[a.at];
                 && Relays(net, a, q.to, q.envelope.eventId) && p.from == q.to && p.envelope == q.envelope
                 && p.to in net.peers[q.to] && p.to != q.envelope.signer && p.to != q.from)
    ensures Carries(Apply(net, a), p.to, p.envelope.eventId)
  {
    NewPacketsAre(net, a, p);
    FlightAfter(net, a, p);
  }

  lemma CopyStays(net: Net, a: Action, id: Key, h: History, m: Key)
    requires WellFormed(net) && Tracked(net, id, h) && Enabled(net, a) && Keeps(net, a, id)
    requires m in net.stores && Carries(net, m, id)
    ensures Holds(Apply(net, a), m, id) || Carries(Apply(net, a), m, id)
  {
    var p :| p in net.flight && p.to == m && p.envelope.eventId == id;
    assert Backed(net, id, h, p);
    HoldsAfter(net, a, m, id);
    FlightAfter(net, a, p);
  }

  lemma TrackedStep(net: Net, a: Action, id: Key, h: History)
    requires WellFormed(net) && Tracked(net, id, h) && Enabled(net, a) && Keeps(net, a, id)
    ensures WellFormed(Apply(net, a)) && Tracked(Apply(net, a), id, Noted(net, a, id, h))
    ensures Apply(net, a).peers == net.peers && Apply(net, a).stores.Keys == net.stores.Keys
  {
    var next, g := Apply(net, a), Noted(net, a, id, h);
    assert next.stores.Keys == net.stores.Keys;
    HoldersStep(net, a, id, h);
    forall n, m | n in Pushers(g) && IsPeer(next, n, m) && m in next.stores
      ensures Holds(next, m, id) || Carries(next, m, id)
    {
      EdgeStep(net, a, id, h, n, m);
    }
    forall n | n in g.relayed
      ensures PeerOfPusher(next, g, n)
    {
      RelayedStep(net, a, id, h, n);
    }
    forall p | p in next.flight && p.envelope.eventId == id
      ensures Backed(next, id, g, p)
    {
      BackedStep(net, a, id, h, p);
    }
  }

  lemma {:induction false} TrackedAlways(net: Net, actions: seq<Action>, end: Net, id: Key, h: History)
    requires WellFormed(net) && Tracked(net, id, h) && Runs(net, actions, end) && Lossless(net, actions, id)
    ensures WellFormed(end) && Tracked(end, id, HistoryOf(net, actions, end, id, h))
    ensures end.peers == net.peers && end.stores.Keys == net.stores.Keys
    decreases |actions|
  {
    if actions == [] {
    } else {
      TrackedStep(net, actions[0], id, h);
      TrackedAlways(Apply(net, actions[0]), actions[1..], end, id, Noted(net, actions[0], id, h));
    }
  }

  const NOTHING := History({}, {}, {})

  /** n announced the event or relayed it. */
  ghost predicate Pushed(net: Net, actions: seq<Action>, end: Net, id: Key, n: Key)
    requires Runs(net, actions, end)
  {
    Announces(actions, id, n) || RelayCount(net, actions, end, n, id) > 0
  }

  /** Exactly who ends up with an advertisement: over fixed peer lists, in runs that lose no copy of it, with
      imports anywhere, once no copy is left in flight a node holds the event if and only if it announced it,
      imported it, or is a peer of a node that announced or relayed it. */
  lemma HoldersExactly(net: Net, actions: seq<Action>, end: Net, id: Key, m: Key)
    requires WellFormed(net) && Unheard(net, id) && Runs(net, actions, end) && Lossless(net, actions, id)
    requires Quiet(end, id) && m in end.stores
    ensures Holds(end, m, id) <==>
              || Announces(actions, id, m) || Imports(actions, id, m)
              || exists n :: IsPeer(net, n, m) && Pushed(net, actions, end, id, n)
  {
    TrackedAlways(net, actions, end, id, NOTHING);
    var h := HistoryOf(net, actions, end, id, NOTHING);
    HistoryIs(net, actions, end, id, NOTHING, m);
    forall n
      ensures n in Pushers(h) <==> Pushed(net, actions, end, id, n)
    {
      HistoryIs(net, actions, end, id, NOTHING, n);
    }
    if Holds(end, m, id) && m in h.relayed {
      var n :| n in Pushers(h) && IsPeer(end, n, m);
      assert IsPeer(net, n, m) && Pushed(net, actions, end, id, n);
    }
    if n :| IsPeer(net, n, m) && Pushed(net, actions, end, id, n) {
      assert n in Pushers(h) && IsPeer(end, n, m);
    }
  }

  // ---- imports that come too late to matter ----

  /** Wherever the event is imported, it is held already. */
  ghost predicate ImportsHeld(net: Net, actions: seq<Action>, id: Key)
    decreases |actions|
  {
    actions != [] ==>
      && Enabled(net, actions[0])
      && (actions[0].Import? && Lists(actions[0].es, id) ==> Holds(net, actions[0].n, id))
      && ImportsHeld(Apply(net, actions[0]), actions[1..], id)
  }

  ghost predicate AnnouncedBy(actions: seq<Action>, id: Key, a: Key) {
    forall n :: Announces(actions, id, n) <==> n == a
  }

  /** Then every importer has sent the event too, and whoever sent it is reachable from the announcer. */
  ghost predicate Rooted(g: Graph, h: History, a: Key) {
    h.imported <= Pushers(h) && h.announced <= {a} && forall n :: n in Pushers(h) ==> Reaches(g, a, n)
  }

  lemma RootedStep(net: Net, x: Action, id: Key, h: History, a: Key)
    requires WellFormed(net) && Tracked(net, id, h) && Rooted(net.peers, h, a) && Enabled(net, x)
    requires x.Import? && Lists(x.es, id) ==> Holds(net, x.n, id)
    requires forall n :: AnnouncesIt(x, n, id) ==> n == a
    ensures Rooted(net.peers, Noted(net, x, id, h), a)
  {
    var g := Noted(net, x, id, h);
    NotedGrows(net, x, id, h);
    ReachesSelf(net.peers, a);
    forall n | n in Pushers(g)
      ensures Reaches(net.peers, a, n)
    {
      if n !in Pushers(h) && x.Deliver? {
        var q := net.flight[x.at];
        assert q in net.flight && Backed(net, id, h, q);
        ReachesNext(net.peers, a, q.from, n);
      } else if n !in Pushers(h) {
        assert AnnouncesIt(x, n, id);
      }
    }
    assert x.Announce? && x.e.eventId == id ==> AnnouncesIt(x, x.n, id);
  }

  lemma {:induction false} RootedAlways(net: Net, actions: seq<Action>, end: Net, id: Key, h: History, a: Key)
    requires WellFormed(net) && Tracked(net, id, h) && Rooted(net.peers, h, a)
    requires Runs(net, actions, end) && Lossless(net, actions, id) && ImportsHeld(net, actions, id)
    requires forall n :: Announces(actions, id, n) ==> n == a
    ensures Rooted(net.peers, HistoryOf(net, actions, end, id, h), a)
    decreases |actions|
  {
    if actions == [] {
    } else {
      var x, rest := actions[0], actions[1..];
      assert x in actions && forall y :: y in rest ==> y in actions;
      forall n | AnnouncesIt(x, n, id)
        ensures n == a
      {
        assert Announces(actions, id, n);
      }
      forall n | Announces(rest, id, n)
        ensures n == a
      {
        var y :| y in rest && AnnouncesIt(y, n, id);
        assert Announces(actions, id, n);
      }
      RootedStep(net, x, id, h, a);
      TrackedStep(net, x, id, h);
      RootedAlways(Apply(net, x), rest, end, id, Noted(net, x, id, h), a);
    }
  }

  /** Along a path from a node that holds the event everyone holds it. */
  lemma {:induction false} HeldAlongPath(net: Net, id: Key, h: History, a: Key, path: seq<Key>)
    requires WellFormed(net) && Tracked(net, id, h) && Rooted(net.peers, h, a) && Quiet(net, id)
    requires Path(net.peers, path) && Holds(net, path[0], id) && path[|path| - 1] in net.stores
    ensures Holds(net, path[|path| - 1], id)
    decreases |path|
  {
    if |path| > 1 {
      assert path[0] in Pushers(h) && IsPeer(net, path[0], path[1]);
      assert path[1] in net.stores;
      assert Path(net.peers, path[1..]);
      HeldAlongPath(net, id, h, a, path[1..]);
    }
  }

  /** The flood of one advertisement reaches exactly the nodes it can: in runs that lose no copy of it and import
      it only where it is held, as routine discovery answers do, once no copy is left in flight a node holds the
      event if and only if a path of peers leads to it from the announcer. */
  lemma FloodReachesExactly(net: Net, actions: seq<Action>, end: Net, id: Key, a: Key, n: Key)
    requires WellFormed(net) && Unheard(net, id) && Runs(net, actions, end)
    requires Lossless(net, actions, id) && ImportsHeld(net, actions, id)
    requires AnnouncedBy(actions, id, a) && Quiet(end, id) && n in end.stores
    ensures Holds(end, n, id) <==> Reaches(net.peers, a, n)
  {
    TrackedAlways(net, actions, end, id, NOTHING);
    RootedAlways(net, actions, end, id, NOTHING, a);
    var h := HistoryOf(net, actions, end, id, NOTHING);
    HistoryIs(net, actions, end, id, NOTHING, a);
    assert Announces(actions, id, a);
    if Reaches(net.peers, a, n) {
      var path :| PathTo(net.peers, path, a, n);
      HeldAlongPath(end, id, h, a, path);
    }
  }

  // ---- an import that comes too early ----

  lemma AnnounceIs(a: Key, b: Key, c: Key, e: Envelope)
    requires a != b && b != c && a != c && e.signer == a
    ensures Enabled(Line(a, b, c, e, [], [], []), Announce(a, e))
    ensures Apply(Line(a, b, c, e, [], [], []), Announce(a, e)) == Line(a, b, c, e, [e], [], [Packet(a, b, e)])
  {
    assert !HasEvent([], e.eventId);
    assert Sends(a, [b], e) == [Packet(a, b, e)] && [] + [e] == [e];
    assert Appended([], e) == [e];
  }

  /** Peers a -> b -> c; c's store is empty. */
  ghost function Line(a: Key, b: Key, c: Key, e: Envelope, atA: Log, atB: Log, flight: seq<Packet>): Net {
    Net(iset{e}, map[a := atA, b := atB, c := []], map[a := [b], b := [c], c := []], flight)
  }

  lemma ImportIs(a: Key, b: Key, c: Key, e: Envelope)
    requires a != b && b != c && a != c && e.signer == a
    ensures var net := Line(a, b, c, e, [e], [], [Packet(a, b, e)]);
            Enabled(net, Import(b, [e])) && Apply(net, Import(b, [e])) == Line(a, b, c, e, [e], [e], [Packet(a, b, e)])
  {
    assert !HasEvent([], e.eventId);
    assert Imported([], [e]) == Imported([e], []);
  }

  lemma DropIs(a: Key, b: Key, c: Key, e: Envelope)
    requires a != b && b != c && a != c && e.signer == a
    ensures var net := Line(a, b, c, e, [e], [e], [Packet(a, b, e)]);
            Enabled(net, Deliver(0)) && Apply(net, Deliver(0)) == Line(a, b, c, e, [e], [e], [])
  {
    assert e in [e] && HasEvent([e], e.eventId);
  }

  lemma LineStarts(a: Key, b: Key, c: Key, e: Envelope)
    requires a != b && b != c && a != c
    ensures WellFormed(Line(a, b, c, e, [], [], [])) && Unheard(Line(a, b, c, e, [], [], []), e.eventId)
    ensures Reaches(Line(a, b, c, e, [], [], []).peers, a, c)
  {
    assert PathTo(Line(a, b, c, e, [], [], []).peers, [a, b, c], a, c);
  }

  lemma LineEnds(a: Key, b: Key, c: Key, e: Envelope)
    requires a != b && b != c && a != c
    ensures var end := Line(a, b, c, e, [e], [e], []);
            Quiet(end, e.eventId) && !Holds(end, c, e.eventId)
  {
  }

  /** A node that imports the event from a discovery answer while it is being flooded never relays it: with
      peers a -> b -> c the flood stops at b, although nothing is lost. */
  lemma ImportStopsFlood(a: Key, b: Key, c: Key, e: Envelope) returns (net: Net, actions: seq<Action>, end: Net)
    requires a != b && b != c && a != c && e.signer == a
    ensures WellFormed(net) && Unheard(net, e.eventId) && Runs(net, actions, end)
    ensures AnnouncedBy(actions, e.eventId, a) && forall x :: x in actions ==> !x.Lose?
    ensures Quiet(end, e.eventId) && Reaches(net.peers, a, c) && !Holds(end, c, e.eventId)
  {
    net, end := Line(a, b, c, e, [], [], []), Line(a, b, c, e, [e], [e], []);
    AnnounceIs(a, b, c, e);
    ImportIs(a, b, c, e);
    DropIs(a, b, c, e);
    LineStarts(a, b, c, e);
    LineEnds(a, b, c, e);
    actions := RunsOfThree(net, Announce(a, e), Import(b, [e]), Deliver(0));
    assert AnnouncesIt(actions[0], a, e.eventId);
  }

  lemma RunsOfThree(net: Net, x: Action, y: Action, z: Action) returns (actions: seq<Action>)
    requires Enabled(net, x) && Enabled(Apply(net, x), y) && Enabled(Apply(Apply(net, x), y), z)
    ensures actions == [x, y, z] && Runs(net, actions, Apply(Apply(Apply(net, x), y), z))
  {
    actions := [x, y, z];
    assert actions[1..] == [y, z] && actions[1..][1..] == [z] && actions[1..][1..][1..] == [];
    assert Runs(Apply(Apply(net, x), y), [z], Apply(Apply(Apply(net, x), y), z));
    assert Runs(Apply(net, x), [y, z], Apply(Apply(Apply(net, x), y), z));
  }
}
