/** The least depth that reaches everyone: for every number of nodes and every depth, all runs on all networks of
    that size reach every open path if and only if the depth is at least the number of nodes less one. */
module DiscoverDepth {
  import opened Collections
  import opened EventLog
  import opened PeerLists
  import opened DiscoverFlood
  import opened DiscoverReach

  /** A finished lossless run on a network of this size, from a request just sent to the start of an open path. */
  ghost predicate IsCase(size: nat, depth: int, net: Net, actions: seq<Action>, end: Net, id: Key, path: seq<Key>) {
    && |net.nodes| == size && path != [] && JustAsked(net, id, path[0]) && net.asked[id].depth == depth
    && Runs(net, actions, end) && Lossless(net, actions, id) && Settled(end, id) && Open(net, id, path)
  }

  ghost predicate ReachesAll(size: nat, depth: int) {
    forall net, actions, end, id, path :: IsCase(size, depth, net, actions, end, id, path) ==>
        Seen(end, path[|path| - 1], id)
  }

  // ---- every flood can be brought to its end ----

  lemma {:induction false} DrainCopies(net: Net, id: Key, degree: nat, own: Envelope)
          returns (actions: seq<Action>, end: Net)
    requires Sound(net) && DegreeAtMost(net.peers, degree)
    ensures Runs(net, actions, end) && Lossless(net, actions, id) && Settled(end, id)
    decreases Potential(net, degree)
  {
    if i :| 0 <= i < |net.flight| && IsCopy(net.flight[i], id) {
      var a := if net.flight[i].to in net.nodes then Deliver(i, own) else Lose(i);
      var next := Apply(net, a);
      DeliveryLowersPotential(net, a, degree);
      SoundStep(net, a);
      var rest;
      rest, end := DrainCopies(next, id, degree, own);
      actions := [a] + rest;
      assert actions[1..] == rest;
    } else {
      actions, end := [], net;
    }
  }

  // ---- a line of nodes ----

  function Mark(i: nat): char {
    '0'
  }

  function LineKey(i: nat): (k: Key)
    ensures |k.text| == i + 1
  {
    Key(seq(i + 1, Mark))
  }

  function LineKeys(size: nat): set<Key> {
    if size == 0 then {} else LineKeys(size - 1) + {LineKey(size - 1)}
  }

  function Next(k: Key, size: nat): seq<Key> {
    if 0 < |k.text| < size then [LineKey(|k.text|)] else []
  }

  /** 0 -> 1 -> 2 -> ... */
  ghost function Line(size: nat): Net {
    Net(iset{}, map k | k in LineKeys(size) :: IDLE, map k | k in LineKeys(size) :: Next(k, size), [], map[])
  }

  lemma {:induction false} LineKeysAre(size: nat)
    ensures forall k :: k in LineKeys(size) ==> 1 <= |k.text| <= size && k == LineKey(|k.text| - 1)
    ensures forall i :: 0 <= i < size ==> LineKey(i) in LineKeys(size)
  {
    if size > 0 {
      LineKeysAre(size - 1);
    }
  }

  lemma {:induction false} LineSize(size: nat)
    ensures |LineKeys(size)| == size
  {
    if size > 0 {
      LineSize(size - 1);
      LineKeysAre(size - 1);
      assert LineKey(size - 1) !in LineKeys(size - 1);
    }
  }

  lemma LineIsInit(size: nat)
    ensures Init(Line(size)) && |Line(size).nodes| == size && DegreeAtMost(Line(size).peers, 1)
  {
    LineKeysAre(size);
    LineSize(size);
    assert Line(size).nodes.Keys == LineKeys(size);
    assert |Line(size).nodes| == |Line(size).nodes.Keys|;
  }

  /** Each edge of the line leads one node further, so its end is size - 1 edges away. */
  lemma {:induction false} LinePath(size: nat, path: seq<Key>, i: nat)
    requires Path(Line(size).peers, path) && path[0] == LineKey(0) && i < |path|
    ensures |path[i].text| == i + 1
  {
    if i > 0 {
      LinePath(size, path, i - 1);
      assert path[i] in Line(size).peers[path[i - 1]];
    }
  }

  lemma EndIsFar(size: nat, k: nat)
    requires size >= 1 && ReachesIn(Line(size).peers, LineKey(0), LineKey(size - 1), k)
    ensures k == size - 1
  {
    var path :| PathTo(Line(size).peers, path, LineKey(0), LineKey(size - 1)) && |path| == k + 1;
    LinePath(size, path, k);
  }

  lemma LineIsOpen(size: nat, net: Net, id: Key, path: seq<Key>)
    requires size >= 2 && id in net.asked && net.asked[id].origin == LineKey(0)
    requires net.peers == Line(size).peers && net.nodes.Keys == LineKeys(size)
    requires |path| == size - 1 && forall i :: 0 <= i < |path| ==> path[i] == LineKey(i + 1)
    ensures Open(net, id, path)
  {
    LineKeysAre(size);
    forall i | 0 <= i < |path| - 1
      ensures path[i] in net.peers && path[i + 1] in net.peers[path[i]]
    {
      assert path[i] in LineKeys(size) && |path[i].text| == i + 2;
    }
    forall i | 0 <= i < |path|
      ensures path[i] in net.nodes && path[i] != LineKey(0)
    {
      assert |path[i].text| == i + 2;
    }
  }

  lemma LineStarts(size: nat)
    requires size >= 2
    ensures LineKey(0) in Line(size).nodes && LineKey(0) in Line(size).peers && LineKey(1) in Line(size).nodes
    ensures Line(size).peers[LineKey(0)] == [LineKey(1)]
  {
    LineKeysAre(size);
  }

  lemma SizeStays(net: Net, next: Net)
    requires next.nodes.Keys == net.nodes.Keys
    ensures |next.nodes| == |net.nodes|
  {
    assert |next.nodes| == |next.nodes.Keys| && |net.nodes| == |net.nodes.Keys|;
  }

  lemma LineAsked(size: nat, depth: int, id: Key, own: Envelope) returns (net: Net)
    requires size >= 2 && depth >= 1
    ensures JustAsked(net, id, LineKey(1)) && net.asked[id] == Asked(LineKey(0), depth)
    ensures net.peers == Line(size).peers && net.nodes.Keys == LineKeys(size) && |net.nodes| == size
  {
    var quiet := Line(size);
    LineIsInit(size);
    LineStarts(size);
    InitSound(quiet);
    net := AskedOne(quiet, LineKey(0), LineKey(1), depth, id, own);
    assert quiet.nodes.Keys == LineKeys(size);
  }

  /** A node with one peer asks it. */
  lemma AskedOne(quiet: Net, n: Key, s: Key, depth: int, id: Key, own: Envelope) returns (net: Net)
    requires Sound(quiet) && quiet.asked == map[] && n in quiet.nodes && n in quiet.peers && quiet.peers[n] == [s]
    requires s in quiet.nodes && depth >= 1
    ensures JustAsked(net, id, s) && net.asked[id] == Asked(n, depth)
    ensures net.peers == quiet.peers && net.nodes.Keys == quiet.nodes.Keys && |net.nodes| == |quiet.nodes|
  {
    var ask := Ask(n, depth, [id], own);
    AskStarts(quiet, ask, 0);
    net := Apply(quiet, ask);
    SizeStays(quiet, net);
  }

  /** A finished run on the line, asked to too small a depth. */
  lemma LineDrained(size: nat, depth: int, id: Key, own: Envelope) returns (net: Net, actions: seq<Action>, end: Net)
    requires size >= 2 && 1 <= depth < size - 1
    ensures JustAsked(net, id, LineKey(1)) && net.asked[id] == Asked(LineKey(0), depth)
    ensures net.peers == Line(size).peers && net.nodes.Keys == LineKeys(size) && |net.nodes| == size
    ensures Runs(net, actions, end) && Lossless(net, actions, id) && Settled(end, id)
    ensures !Seen(end, LineKey(size - 1), id)
  {
    net := LineAsked(size, depth, id, own);
    LineIsInit(size);
    actions, end := DrainCopies(net, id, 1, own);
    EndUnseen(size, net, actions, end, id);
  }

  /** The nodes of the line after the first. */
  ghost function LineTail(size: nat): (path: seq<Key>)
    requires size >= 2
    ensures |path| == size - 1 && forall i :: 0 <= i < |path| ==> path[i] == LineKey(i + 1)
  {
    seq(size - 1, i requires 0 <= i < size - 1 => LineKey(i + 1))
  }

  /** With less depth than the line is long, its last node never hears of the request. */
  lemma LineMissesEnd(size: nat, depth: int)
    requires size >= 2 && 1 <= depth < size - 1
    ensures !ReachesAll(size, depth)
  {
    var id, own := Key("request"), Envelope(Key("ad"), Key("signer"), 0, Other(Key("any")));
    var net, actions, end := LineDrained(size, depth, id, own);
    LineIsOpen(size, net, id, LineTail(size));
    OneMissIsEnough(size, depth, net, actions, end, id, LineTail(size));
  }

  lemma OneMissIsEnough(size: nat, depth: int, net: Net, actions: seq<Action>, end: Net, id: Key, path: seq<Key>)
    requires IsCase(size, depth, net, actions, end, id, path) && !Seen(end, path[|path| - 1], id)
    ensures !ReachesAll(size, depth)
  {
  }

  lemma EndUnseen(size: nat, net: Net, actions: seq<Action>, end: Net, id: Key)
    requires size >= 2 && Sound(net) && Runs(net, actions, end) && net.peers == Line(size).peers
    requires id in net.asked && net.asked[id].origin == LineKey(0) && net.asked[id].depth < size - 1
    ensures !Seen(end, LineKey(size - 1), id)
  {
    SoundAlways(net, actions, end);
    AskedAlways(net, actions, end, id);
    if Seen(end, LineKey(size - 1), id) {
      assert SeenOk(end, LineKey(size - 1), id);
      var k :| 0 <= k <= end.asked[id].depth && ReachesIn(end.peers, end.asked[id].origin, LineKey(size - 1), k);
      EndIsFar(size, k);
    }
  }

  lemma {:induction false} AskedAlways(net: Net, actions: seq<Action>, end: Net, id: Key)
    requires Runs(net, actions, end) && id in net.asked
    ensures id in end.asked && end.asked[id] == net.asked[id] && end.peers == net.peers
    decreases |actions|
  {
    if actions == [] {
    } else {
      AskedStays(net, actions[0], id);
      AskedAlways(Apply(net, actions[0]), actions[1..], end, id);
    }
  }

  /** The least depth: on networks of any size, however the copies race, every node on an open path from the first
      one asked handles the request in every run without losses if and only if it is asked to depth size - 1. */
  lemma ReachesAllIff(size: nat, depth: int)
    requires size >= 2 && depth >= 1
    ensures ReachesAll(size, depth) <==> depth >= size - 1
  {
    if depth >= size - 1 {
      forall net, actions, end, id, path | IsCase(size, depth, net, actions, end, id, path)
        ensures Seen(end, path[|path| - 1], id)
      {
        DeepEnoughReachesAll(net, actions, end, id, path);
      }
    } else {
      LineMissesEnd(size, depth);
    }
  }
}
