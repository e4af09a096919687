/** Which imports a flood survives, told before it runs: on every graph, all floods that import the event nowhere but
    at given nodes reach everyone if and only if everyone can be reached around those nodes. */
module AdvertisementImports {
  import opened Collections
  import opened EventLog
  import opened PeerLists
  import opened AdvertisementFlood
  import opened AdvertisementReach

  ghost predicate ImportsOnlyAt(actions: seq<Action>, id: Key, nodes: set<Key>) {
    forall n :: Imports(actions, id, n) ==> n in nodes
  }

  /** A finished lossless flood of one advertisement over the graph, imported nowhere but at the given nodes. */
  ghost predicate IsFlood(g: Graph, id: Key, a: Key, nodes: set<Key>, net: Net, actions: seq<Action>, end: Net) {
    && WellFormed(net) && net.peers == g && Unheard(net, id) && Runs(net, actions, end) && Lossless(net, actions, id)
    && AnnouncedBy(actions, id, a) && ImportsOnlyAt(actions, id, nodes) && Quiet(end, id)
  }

  /** Every such flood reaches every node it could reach. */
  ghost predicate AlwaysReaches(g: Graph, id: Key, a: Key, nodes: set<Key>) {
    forall net, actions, end, n :: IsFlood(g, id, a, nodes, net, actions, end) && n in g && Reaches(g, a, n) ==>
        Holds(end, n, id)
  }

  /** A path to n whose inner nodes are none of the given ones. */
  ghost predicate PathAround(g: Graph, path: seq<Key>, a: Key, nodes: set<Key>, n: Key) {
    PathTo(g, path, a, n) && forall i :: 0 < i < |path| - 1 ==> path[i] !in nodes
  }

  ghost predicate ReachesAround(g: Graph, a: Key, nodes: set<Key>, n: Key) {
    exists path :: PathAround(g, path, a, nodes, n)
  }

  // ---- around the importers ----

  /** Along a path around the importers everyone but perhaps its end sends the event on. */
  lemma {:induction false} PushedAlong(net: Net, id: Key, h: History, path: seq<Key>, i: nat)
    requires WellFormed(net) && Tracked(net, id, h) && Quiet(net, id) && Path(net.peers, path) && i < |path|
    requires path[0] in Pushers(h) && path[|path| - 1] in net.stores
    requires forall k :: 0 < k < |path| - 1 ==> path[k] !in h.imported
    ensures Holds(net, path[i], id) && (i < |path| - 1 ==> path[i] in Pushers(h))
  {
    if i == 0 {
    } else {
      PushedAlong(net, id, h, path, i - 1);
      assert path[i - 1] in Pushers(h) && IsPeer(net, path[i - 1], path[i]) && path[i] in net.stores;
    }
  }

  lemma AroundIsReached(g: Graph, id: Key, a: Key, nodes: set<Key>, net: Net, actions: seq<Action>, end: Net, n: Key)
    requires IsFlood(g, id, a, nodes, net, actions, end) && n in g && ReachesAround(g, a, nodes, n)
    ensures Holds(end, n, id)
  {
    TrackedAlways(net, actions, end, id, NOTHING);
    var h := HistoryOf(net, actions, end, id, NOTHING);
    HistoryIs(net, actions, end, id, NOTHING, a);
    assert Announces(actions, id, a);
    var path :| PathAround(g, path, a, nodes, n);
    forall k | 0 < k < |path| - 1
      ensures path[k] !in h.imported
    {
      HistoryIs(net, actions, end, id, NOTHING, path[k]);
    }
    PushedAlong(end, id, h, path, |path| - 1);
  }

  // ---- runs put together ----

  lemma {:induction false} FloodJoin(net: Net, first: seq<Action>, mid: Net, second: seq<Action>, end: Net, id: Key)
    requires Runs(net, first, mid) && Runs(mid, second, end) && Lossless(net, first, id) && Lossless(mid, second, id)
    ensures Runs(net, first + second, end) && Lossless(net, first + second, id)
    decreases |first|
  {
    if first == [] {
      assert first + second == second;
    } else {
      FloodJoin(Apply(net, first[0]), first[1..], mid, second, end, id);
      assert (first + second)[1..] == first[1..] + second;
    }
  }

  /** Every flood can be brought to its end. */
  lemma {:induction false} Drain(net: Net, id: Key, degree: nat) returns (actions: seq<Action>, end: Net)
    requires WellFormed(net) && DegreeAtMost(net.peers, degree)
    ensures Runs(net, actions, end) && Lossless(net, actions, id) && Quiet(end, id)
    ensures forall x :: x in actions ==> x.Deliver? || x.Lose?
    decreases Potential(net, degree)
  {
    if i :| 0 <= i < |net.flight| && net.flight[i].envelope.eventId == id {
      var x := if net.flight[i].to in net.stores then Deliver(i) else Lose(i);
      var next := Apply(net, x);
      DeliveryLowersPotential(net, x, degree);
      assert next.stores.Keys == net.stores.Keys;
      var rest;
      rest, end := Drain(next, id, degree);
      actions := [x] + rest;
      assert actions[1..] == rest;
    } else {
      actions, end := [], net;
    }
  }

  lemma {:induction false} SomeDegree(g: Graph) returns (degree: nat)
    ensures DegreeAtMost(g, degree)
    decreases |g|
  {
    if n :| n in g {
      var rest := g - {n};
      assert |rest| < |g| by {
        assert rest.Keys == g.Keys - {n};
      }
      var d := SomeDegree(rest);
      degree := d + |g[n]|;
      assert forall m :: m in g ==> m == n || (m in rest && rest[m] == g[m]);
    } else {
      degree := 0;
    }
  }

  // ---- early imports ----

  predicate ImportsAt(x: Action, e: Envelope, nodes: set<Key>) {
    x.Import? && x.es == [e] && x.n in nodes
  }

  /** The event is imported at each of the nodes. */
  lemma {:induction false} ImportAll(net: Net, e: Envelope, h: History, nodes: set<Key>)
          returns (actions: seq<Action>, end: Net, g: History)
    requires WellFormed(net) && Tracked(net, e.eventId, h) && nodes <= net.stores.Keys
    ensures Runs(net, actions, end) && Lossless(net, actions, e.eventId)
    ensures forall x :: x in actions ==> ImportsAt(x, e, nodes)
    ensures WellFormed(end) && Tracked(end, e.eventId, g) && end.peers == net.peers
    ensures Pushers(g) == Pushers(h) && g.imported <= h.imported + nodes
    ensures forall n :: n in nodes || Holds(net, n, e.eventId) ==> Holds(end, n, e.eventId)
    decreases nodes
  {
    if n :| n in nodes {
      var x := Import(n, [e]);
      var next := Apply(net, x);
      TrackedStep(net, x, e.eventId, h);
      NotedGrows(net, x, e.eventId, h);
      var rest;
      rest, end, g := ImportAll(next, e, Noted(net, x, e.eventId, h), nodes - {n});
      actions := [x] + rest;
      assert actions[1..] == rest;
      assert e in [e];
      forall m | m in nodes || Holds(net, m, e.eventId)
        ensures Holds(end, m, e.eventId)
      {
        if m in net.stores {
          HoldsAfter(net, x, m, e.eventId);
        }
        assert m in nodes - {n} || Holds(next, m, e.eventId);
      }
    } else {
      actions, end, g := [], net, h;
    }
  }

  /** Whoever sent the event on is reached without passing through an importer or being one. */
  ghost predicate FreePath(g: Graph, path: seq<Key>, a: Key, nodes: set<Key>, m: Key) {
    PathTo(g, path, a, m) && forall i :: 0 < i < |path| ==> path[i] !in nodes
  }

  ghost predicate Free(g: Graph, a: Key, nodes: set<Key>, m: Key) {
    exists path :: FreePath(g, path, a, nodes, m)
  }

  ghost predicate AllFree(g: Graph, h: History, a: Key, nodes: set<Key>) {
    forall m :: m in Pushers(h) ==> Free(g, a, nodes, m)
  }

  lemma FreeNext(g: Graph, a: Key, nodes: set<Key>, q: Key, m: Key)
    requires Free(g, a, nodes, q) && q in g && m in g[q]
    ensures ReachesAround(g, a, nodes, m) && (m !in nodes ==> Free(g, a, nodes, m))
  {
    var path :| FreePath(g, path, a, nodes, q);
    assert PathAround(g, path + [m], a, nodes, m);
    if m !in nodes {
      assert FreePath(g, path + [m], a, nodes, m);
    }
  }

  lemma FreeStep(net: Net, x: Action, id: Key, h: History, a: Key, nodes: set<Key>, n: Key)
    requires WellFormed(net) && Tracked(net, id, h) && Enabled(net, x) && (x.Deliver? || x.Lose?)
    requires AllFree(net.peers, h, a, nodes) && !ReachesAround(net.peers, a, nodes, n)
    requires forall m :: m in nodes && m in net.stores && m != n ==> Holds(net, m, id)
    ensures AllFree(net.peers, Noted(net, x, id, h), a, nodes) && Noted(net, x, id, h).imported == h.imported
  {
    NotedGrows(net, x, id, h);
    forall m | m in Pushers(Noted(net, x, id, h)) && m !in Pushers(h)
      ensures Free(net.peers, a, nodes, m)
    {
      var q := net.flight[x.at];
      assert q in net.flight && Backed(net, id, h, q);
      FreeNext(net.peers, a, nodes, q.from, m);
    }
  }

  lemma {:induction false} FreeAlways(net: Net, actions: seq<Action>, end: Net, id: Key, h: History, a: Key,
          nodes: set<Key>, n: Key)
    requires WellFormed(net) && Tracked(net, id, h) && Runs(net, actions, end) && Lossless(net, actions, id)
    requires forall x :: x in actions ==> x.Deliver? || x.Lose?
    requires AllFree(net.peers, h, a, nodes) && !ReachesAround(net.peers, a, nodes, n) && n !in h.imported
    requires forall m :: m in nodes && m in net.stores && m != n ==> Holds(net, m, id)
    ensures !Holds(end, n, id)
    decreases |actions|
  {
    if actions == [] {
      if n in Pushers(h) {
        var path :| FreePath(net.peers, path, a, nodes, n);
        assert PathAround(net.peers, path, a, nodes, n);
      }
    } else {
      var x := actions[0];
      assert x in actions;
      FreeStep(net, x, id, h, a, nodes, n);
      TrackedStep(net, x, id, h);
      forall m | m in nodes && m in net.stores && m != n
        ensures Holds(Apply(net, x), m, id)
      {
        HoldsStays(net, x, m, id);
      }
      FreeAlways(Apply(net, x), actions[1..], end, id, Noted(net, x, id, h), a, nodes, n);
    }
  }

  // ---- the flood that misses a node ----

  /** A network over the graph whose stores are empty. */
  ghost function Blank(g: Graph, e: Envelope): Net {
    Net(iset{e}, map n | n in g :: [], g, [])
  }

  ghost predicate SoundGraph(g: Graph) {
    forall n :: n in g ==> NoDup(g[n]) && n !in g[n]
  }

  lemma BlankAnnounced(g: Graph, e: Envelope) returns (next: Net, h: History)
    requires SoundGraph(g) && e.signer in g
    ensures var net := Blank(g, e);
            && WellFormed(net) && Unheard(net, e.eventId) && Enabled(net, Announce(e.signer, e))
            && next == Apply(net, Announce(e.signer, e))
    ensures WellFormed(next) && Tracked(next, e.eventId, h) && next.peers == g && next.stores.Keys == g.Keys
    ensures Pushers(h) == {e.signer} && h.imported == {}
  {
    var net, x := Blank(g, e), Announce(e.signer, e);
    assert Tracked(net, e.eventId, NOTHING);
    next, h := Apply(net, x), Noted(net, x, e.eventId, NOTHING);
    TrackedStep(net, x, e.eventId, NOTHING);
  }

  lemma WhoDid(actions: seq<Action>, e: Envelope, imports: seq<Action>, drain: seq<Action>, nodes: set<Key>)
    requires actions == [Announce(e.signer, e)] + imports + drain
    requires forall x :: x in imports ==> ImportsAt(x, e, nodes)
    requires forall x :: x in drain ==> x.Deliver? || x.Lose?
    ensures AnnouncedBy(actions, e.eventId, e.signer) && ImportsOnlyAt(actions, e.eventId, nodes)
  {
    assert AnnouncesIt(actions[0], e.signer, e.eventId);
  }

  /** Importing at every given node but n before anything is delivered keeps the event from n. */
  lemma MissingFlood(g: Graph, e: Envelope, nodes: set<Key>, n: Key)
          returns (net: Net, actions: seq<Action>, end: Net)
    requires SoundGraph(g) && e.signer in g && n in g && !ReachesAround(g, e.signer, nodes, n)
    ensures IsFlood(g, e.eventId, e.signer, nodes, net, actions, end) && !Holds(end, n, e.eventId)
  {
    var a, id, early := e.signer, e.eventId, (nodes * g.Keys) - {n};
    net := Blank(g, e);
    var started, h := BlankAnnounced(g, e);
    var imports, ready, k := ImportAll(started, e, h, early);
    var degree := SomeDegree(g);
    var drain;
    drain, end := Drain(ready, id, degree);
    assert FreePath(g, [a], a, nodes, a);
    StoresStay(started, imports, ready);
    FreeAlways(ready, drain, end, id, k, a, nodes, n);
    var announce := [Announce(a, e)];
    assert announce[1..] == [];
    FloodJoin(net, announce, started, imports, ready, id);
    FloodJoin(net, announce + imports, ready, drain, end, id);
    actions := announce + imports + drain;
    WhoDid(actions, e, imports, drain, nodes);
  }

  lemma {:induction false} StoresStay(net: Net, actions: seq<Action>, end: Net)
    requires WellFormed(net) && Runs(net, actions, end)
    ensures end.stores.Keys == net.stores.Keys
    decreases |actions|
  {
    if actions == [] {
    } else {
      assert Apply(net, actions[0]).stores.Keys == net.stores.Keys;
      StoresStay(Apply(net, actions[0]), actions[1..], end);
    }
  }

  /** Which imports a flood survives: for every graph, announcer and set of nodes, all lossless floods that
      import the event nowhere but at those nodes reach everyone who can be reached if and only if each can be
      reached by a path whose inner nodes are none of them. */
  lemma SurvivesImportsIff(g: Graph, id: Key, a: Key, nodes: set<Key>)
    requires SoundGraph(g) && a in g
    ensures AlwaysReaches(g, id, a, nodes) <==>
            forall n :: n in g && Reaches(g, a, n) ==> ReachesAround(g, a, nodes, n)
  {
    forall n | n in g && Reaches(g, a, n) && !ReachesAround(g, a, nodes, n)
      ensures !AlwaysReaches(g, id, a, nodes)
    {
      var net, actions, end := MissingFlood(g, Envelope(id, a, 0, Other(Key("any"))), nodes, n);
    }
    if forall n :: n in g && Reaches(g, a, n) ==> ReachesAround(g, a, nodes, n) {
      forall net, actions, end, n | IsFlood(g, id, a, nodes, net, actions, end) && n in g && Reaches(g, a, n)
        ensures Holds(end, n, id)
      {
        AroundIsReached(g, id, a, nodes, net, actions, end, n);
      }
    }
  }
}
