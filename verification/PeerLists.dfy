/** The peers a daemon talks to, and paths along them. */
module PeerLists {
  import opened Collections
  import opened EventLog

  const NO_KEY := Key("")

  /** list(dict.fromkeys(xs)): the first occurrence of each key. */
  function Dedup(xs: seq<Key>): seq<Key> {
    if xs == [] then []
    else
      var rest, x := Dedup(xs[..|xs| - 1]), xs[|xs| - 1];
      if x in rest then rest else rest + [x]
  }

  /** [x for x in xs if x not in excluded] */
  function Without(xs: seq<Key>, excluded: set<Key>): seq<Key> {
    if xs == [] then []
    else Without(xs[..|xs| - 1], excluded) + if xs[|xs| - 1] in excluded then [] else [xs[|xs| - 1]]
  }

  /** seed_peer_ids: explicit peers, configured seeds and topology peers, once each, without this node. */
  function SeedPeers(self: Key, explicit: seq<Key>, seeds: seq<Key>, topology: seq<Key>): seq<Key> {
    Without(Dedup(explicit + seeds + topology), {self, NO_KEY})
  }

  lemma {:induction false} DedupIs(xs: seq<Key>)
    ensures NoDup(Dedup(xs)) && forall x :: x in Dedup(xs) <==> x in xs
  {
    if xs != [] {
      DedupIs(xs[..|xs| - 1]);
      assert xs == xs[..|xs| - 1] + [xs[|xs| - 1]];
    }
  }

  lemma {:induction false} WithoutKeeps(xs: seq<Key>, excluded: set<Key>)
    ensures forall x :: x in Without(xs, excluded) <==> x in xs && x !in excluded
    ensures |Without(xs, excluded)| <= |xs|
  {
    if xs != [] {
      WithoutKeeps(xs[..|xs| - 1], excluded);
      assert xs == xs[..|xs| - 1] + [xs[|xs| - 1]];
    }
  }

  lemma {:induction false} WithoutNoDup(xs: seq<Key>, excluded: set<Key>)
    requires NoDup(xs)
    ensures NoDup(Without(xs, excluded))
  {
    if xs != [] {
      WithoutNoDup(xs[..|xs| - 1], excluded);
      WithoutKeeps(xs[..|xs| - 1], excluded);
      assert xs[|xs| - 1] !in xs[..|xs| - 1];
    }
  }

  /** Keys come in the order of their first occurrences. */
  lemma {:induction false} DedupInOrder(xs: seq<Key>, i: nat, j: nat, p: nat, q: nat)
    requires i < j < |Dedup(xs)| && FirstAt(xs, Dedup(xs)[i], p) && FirstAt(xs, Dedup(xs)[j], q)
    ensures p < q
  {
    var init, x := xs[..|xs| - 1], xs[|xs| - 1];
    var d := Dedup(init);
    assert xs == init + [x];
    DedupIs(init);
    assert Dedup(xs)[i] == d[i] && d[i] in init;
    FirstStays(init, x, d[i], p);
    if j < |d| {
      assert d[j] in init;
      FirstStays(init, x, d[j], q);
      DedupInOrder(init, i, j, p, q);
    } else {
      assert x !in init;
      if q < |init| {
        assert xs[q] == init[q];
        assert init[q] in init;
      }
    }
  }

  /** Leaving some out keeps the others in order. */
  lemma {:induction false} WithoutInOrder(xs: seq<Key>, excluded: set<Key>, i: nat, j: nat)
          returns (a: nat, b: nat)
    requires i < j < |Without(xs, excluded)|
    ensures a < b < |xs| && xs[a] == Without(xs, excluded)[i] && xs[b] == Without(xs, excluded)[j]
  {
    var init, x := xs[..|xs| - 1], xs[|xs| - 1];
    var kept := Without(init, excluded);
    if j < |kept| {
      a, b := WithoutInOrder(init, excluded, i, j);
    } else {
      b := |xs| - 1;
      WithoutKeeps(init, excluded);
      assert kept[i] in init;
      a :| 0 <= a < |init| && init[a] == kept[i];
    }
  }

  /** Seed peers come in the order in which they are first named: explicit ones, configured ones, the topology's. */
  lemma SeedPeersInOrder(self: Key, explicit: seq<Key>, seeds: seq<Key>, topology: seq<Key>, i: nat, j: nat, p: nat,
          q: nat)
    requires var ps, named := SeedPeers(self, explicit, seeds, topology), explicit + seeds + topology;
             i < j < |ps| && FirstAt(named, ps[i], p) && FirstAt(named, ps[j], q)
    ensures p < q
  {
    var named := explicit + seeds + topology;
    var a, b := WithoutInOrder(Dedup(named), {self, NO_KEY}, i, j);
    DedupInOrder(named, a, b, p, q);
  }

  /** The seed peers are exactly the known peers other than this node, once each. */
  lemma SeedPeersAre(self: Key, explicit: seq<Key>, seeds: seq<Key>, topology: seq<Key>)
    ensures var ps := SeedPeers(self, explicit, seeds, topology);
            && NoDup(ps) && self !in ps && NO_KEY !in ps
            && forall x :: x in ps <==> x != self && x != NO_KEY && (x in explicit || x in seeds || x in topology)
  {
    DedupIs(explicit + seeds + topology);
    WithoutKeeps(Dedup(explicit + seeds + topology), {self, NO_KEY});
    WithoutNoDup(Dedup(explicit + seeds + topology), {self, NO_KEY});
  }

  // ---- paths ----

  type Graph = map<Key, seq<Key>>

  ghost predicate Path(g: Graph, path: seq<Key>) {
    path != [] && forall i :: 0 <= i < |path| - 1 ==> path[i] in g && path[i + 1] in g[path[i]]
  }

  ghost predicate PathTo(g: Graph, path: seq<Key>, a: Key, b: Key) {
    Path(g, path) && path[0] == a && path[|path| - 1] == b
  }

  ghost predicate Reaches(g: Graph, a: Key, b: Key) {
    exists path :: PathTo(g, path, a, b)
  }

  lemma ReachesSelf(g: Graph, a: Key)
    ensures Reaches(g, a, a)
  {
    assert PathTo(g, [a], a, a);
  }

  lemma ReachesNext(g: Graph, a: Key, n: Key, m: Key)
    requires Reaches(g, a, n) && n in g && m in g[n]
    ensures Reaches(g, a, m)
  {
    var path :| PathTo(g, path, a, n);
    assert PathTo(g, path + [m], a, m);
  }

  // ---- counting ----

  ghost predicate DegreeAtMost(g: Graph, degree: nat) {
    forall n :: n in g ==> |g[n]| <= degree
  }
}
