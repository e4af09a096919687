/** How deep a discovery request must be asked to reach everyone: with depth at least the number of nodes less
    one, every node a path of peers leads to answers, however the copies race. */
module DiscoverReach {
  import opened Collections
  import opened EventLog
  import opened PeerLists
  import opened DiscoverFlood

  /** The forwards behind the copy each node handled. */
  type Heights = map<Key, nat>

  ghost predicate IsCopy(p: Packet, id: Key) {
    p.wire.Request? && p.wire.id == id
  }

  ghost predicate Seen(net: Net, n: Key, id: Key) {
    n in net.nodes && id in net.nodes[n].seen
  }

  /** A node that handled a copy after h forwards has another below it that handled one after h - 1. */
  ghost predicate Climbs(net: Net, id: Key, at: Heights) {
    && id in net.asked
    && (forall n :: n in at <==> Seen(net, n, id))
    && (forall n :: n in at && at[n] > 0 ==> HasHeight(at, at[n] - 1))
    && (forall p :: p in net.flight && IsCopy(p, id) ==> SentFrom(net, id, at, p))
  }

  ghost predicate HasHeight(at: Heights, h: nat) {
    exists m :: m in at && at[m] == h
  }

  ghost predicate SentFrom(net: Net, id: Key, at: Heights, p: Packet)
    requires id in net.asked
  {
    if p.hops == 0 then p.from == net.asked[id].origin else p.from in at && at[p.from] == p.hops - 1
  }

  ghost predicate Coming(net: Net, n: Key, id: Key) {
    exists p :: p in net.flight && p.to == n && IsCopy(p, id)
  }

  /** The peers of a node that passed the request on have seen it or are about to. */
  ghost predicate Passed(net: Net, id: Key, at: Heights, n: Key, m: Key) {
    id in net.asked && n in at && n in net.peers && m in net.peers[n] && m in net.nodes && m != net.asked[id].origin
    && net.asked[id].depth - at[n] > 1 ==>
      Seen(net, m, id) || Coming(net, m, id)
  }

  ghost predicate Spreading(net: Net, id: Key, at: Heights) {
    forall n, m :: Passed(net, id, at, n, m)
  }

  /** The action loses no copy of the request bound for a node of the network. */
  ghost predicate Keeps(net: Net, a: Action, id: Key)
    requires Enabled(net, a)
  {
    a.Lose? ==> !IsCopy(net.flight[a.at], id) || net.flight[a.at].to !in net.nodes
  }

  ghost predicate Lossless(net: Net, actions: seq<Action>, id: Key)
    decreases |actions|
  {
    actions == [] ||
    (Enabled(net, actions[0]) && Keeps(net, actions[0], id) && Lossless(Apply(net, actions[0]), actions[1..], id))
  }

  /** What the heights become. */
  ghost function Raised(net: Net, a: Action, id: Key, at: Heights): Heights
    requires Enabled(net, a)
  {
    if a.Deliver? && Handles(net, a, net.flight[a.at].to, id)
    then at[net.flight[a.at].to := net.flight[a.at].hops]
    else at
  }

  // ---- one action ----

  lemma AskedStays(net: Net, a: Action, id: Key)
    requires Enabled(net, a) && id in net.asked
    ensures id in Apply(net, a).asked && Apply(net, a).asked[id] == net.asked[id]
    ensures Apply(net, a).peers == net.peers && Apply(net, a).nodes.Keys == net.nodes.Keys
    ensures a.Ask? ==> forall p :: p in NewPackets(net, a) ==> !IsCopy(p, id)
  {
    if a.Ask? {
      forall p | p in NewPackets(net, a)
        ensures !IsCopy(p, id)
      {
        var i :| 0 <= i < |NewPackets(net, a)| && NewPackets(net, a)[i] == p;
        assert a.ids[i] in a.ids;
      }
    }
  }

  lemma SeenStep(net: Net, a: Action, n: Key, id: Key)
    requires Enabled(net, a)
    ensures Seen(Apply(net, a), n, id) <==> Seen(net, n, id) || (n in net.nodes && Handles(net, a, n, id))
  {
    if n in net.nodes {
      SeenAfter(net, a, n, id);
    }
  }

  lemma RaisedIs(net: Net, a: Action, id: Key, at: Heights)
    requires Enabled(net, a) && Climbs(net, id, at)
    ensures var up := Raised(net, a, id, at);
            && (forall n :: n in up <==> Seen(Apply(net, a), n, id))
            && (forall n :: n in at ==> n in up && up[n] == at[n])
            && (forall n :: n in up && n !in at ==>
                a.Deliver? && Handles(net, a, n, id) && up[n] == net.flight[a.at].hops)
  {
    var up := Raised(net, a, id, at);
    forall n
      ensures n in up <==> Seen(Apply(net, a), n, id)
    {
      SeenStep(net, a, n, id);
    }
  }

  lemma HeightsStep(net: Net, a: Action, id: Key, at: Heights)
    requires Sound(net) && Enabled(net, a) && Climbs(net, id, at)
    ensures var up := Raised(net, a, id, at);
            && (forall n :: n in up <==> Seen(Apply(net, a), n, id))
            && (forall n :: n in at ==> n in up && up[n] == at[n])
            && (forall n :: n in up && up[n] > 0 ==> HasHeight(up, up[n] - 1))
  {
    var up := Raised(net, a, id, at);
    RaisedIs(net, a, id, at);
    forall n | n in up && up[n] > 0
      ensures HasHeight(up, up[n] - 1)
    {
      if n in at {
        var m :| m in at && at[m] == at[n] - 1;
        assert m in up && up[m] == up[n] - 1;
      } else {
        var q := net.flight[a.at];
        assert q in net.flight && SentFrom(net, id, at, q);
        assert q.from in up && up[q.from] == up[n] - 1;
      }
    }
  }

  lemma ClimbsStep(net: Net, a: Action, id: Key, at: Heights)
    requires Sound(net) && Enabled(net, a) && Climbs(net, id, at)
    ensures Climbs(Apply(net, a), id, Raised(net, a, id, at))
  {
    var next, up := Apply(net, a), Raised(net, a, id, at);
    HeightsStep(net, a, id, at);
    AskedStays(net, a, id);
    forall p | p in next.flight && IsCopy(p, id)
      ensures SentFrom(next, id, up, p)
    {
      FlightAfter(net, a, p);
      if p in net.flight {
        assert SentFrom(net, id, at, p);
      } else {
        NewPacketsAre(net, a, p);
      }
    }
  }

  /** The node that takes a copy passes it on to every peer but the sender and the originator, who need none. */
  lemma TakerPasses(net: Net, a: Action, id: Key, at: Heights, m: Key)
    requires Sound(net) && Enabled(net, a) && Climbs(net, id, at) && a.Deliver?
    requires Handles(net, a, net.flight[a.at].to, id)
    ensures Passed(Apply(net, a), id, Raised(net, a, id, at), net.flight[a.at].to, m)
  {
    var q, next := net.flight[a.at], Apply(net, a);
    assert q in net.flight && PacketOk(net, q) && SentFrom(net, id, at, q);
    AskedStays(net, a, id);
    var origin := net.asked[id].origin;
    if m in net.peers[q.to] && m in net.nodes && m != origin && q.wire.depth > 1 {
      if m == q.from {
        SeenStep(net, a, m, id);
      } else {
        var p := Packet(q.to, m, Request(id, Some(origin), q.wire.depth - 1), q.hops + 1);
        HandlingSends(q.to, net.nodes[q.to], net.peers[q.to], q, a.own, origin, p);
        assert p in next.flight;
      }
    }
  }

  lemma OthersStayPassed(net: Net, a: Action, id: Key, at: Heights, n: Key, m: Key)
    requires Sound(net) && Enabled(net, a) && Climbs(net, id, at) && Keeps(net, a, id) && Passed(net, id, at, n, m)
              && n in at
    ensures Passed(Apply(net, a), id, Raised(net, a, id, at), n, m)
  {
    HeightsStep(net, a, id, at);
    AskedStays(net, a, id);
    SeenStep(net, a, m, id);
    if m in net.nodes && Coming(net, m, id) {
      ComingStays(net, a, m, id);
    }
  }

  /** A copy on its way stays on its way until it is seen. */
  lemma ComingStays(net: Net, a: Action, m: Key, id: Key)
    requires Enabled(net, a) && Keeps(net, a, id) && Coming(net, m, id) && m in net.nodes
    ensures Seen(Apply(net, a), m, id) || Coming(Apply(net, a), m, id)
  {
    var p :| p in net.flight && p.to == m && IsCopy(p, id);
    SeenStep(net, a, m, id);
    if (a.Deliver? || a.Lose?) && net.flight[a.at] == p {
    } else {
      assert p in Apply(net, a).flight;
    }
  }

  lemma SpreadingStep(net: Net, a: Action, id: Key, at: Heights)
    requires Sound(net) && Enabled(net, a) && Climbs(net, id, at) && Spreading(net, id, at) && Keeps(net, a, id)
    ensures Spreading(Apply(net, a), id, Raised(net, a, id, at))
  {
    var next, up := Apply(net, a), Raised(net, a, id, at);
    HeightsStep(net, a, id, at);
    forall n, m
      ensures Passed(next, id, up, n, m)
    {
      if n in at {
        assert Passed(net, id, at, n, m);
        OthersStayPassed(net, a, id, at, n, m);
      } else if n in up {
        TakerPasses(net, a, id, at, m);
      }
    }
  }

  // ---- every run ----

  lemma {:induction false} ReachAlways(net: Net, actions: seq<Action>, end: Net, id: Key, at: Heights, s: Key)
          returns (up: Heights)
    requires Sound(net) && Climbs(net, id, at) && Spreading(net, id, at) && Runs(net, actions, end)
              && Lossless(net, actions, id)
    requires s in net.nodes && (Seen(net, s, id) || Coming(net, s, id))
    ensures Sound(end) && Climbs(end, id, up) && Spreading(end, id, up) && (Seen(end, s, id) || Coming(end, s, id))
    ensures end.asked[id] == net.asked[id] && end.peers == net.peers && end.nodes.Keys == net.nodes.Keys
    decreases |actions|
  {
    if actions == [] {
      up := at;
    } else {
      var a, next := actions[0], Apply(net, actions[0]);
      SoundStep(net, a);
      ClimbsStep(net, a, id, at);
      SpreadingStep(net, a, id, at);
      AskedStays(net, a, id);
      SeenStep(net, a, s, id);
      if Coming(net, s, id) {
        ComingStays(net, a, s, id);
      }
      up := ReachAlways(next, actions[1..], end, id, Raised(net, a, id, at), s);
    }
  }

  // ---- counting ----

  /** Below a node at height h there are h more, all different: heights are pigeonholes. */
  lemma {:induction false} Rungs(at: Heights, n: Key) returns (rungs: set<Key>)
    requires n in at && forall k :: k in at && at[k] > 0 ==> HasHeight(at, at[k] - 1)
    ensures |rungs| == at[n] + 1 && rungs <= at.Keys && forall k :: k in rungs ==> at[k] <= at[n]
    decreases at[n]
  {
    if at[n] == 0 {
      rungs := {n};
    } else {
      var m :| m in at && at[m] == at[n] - 1;
      var below := Rungs(at, m);
      rungs := below + {n};
    }
  }

  /** While some node is still unseen, no handled copy has come so far that its depth is used up. */
  lemma DepthLeft(net: Net, id: Key, at: Heights, n: Key, m: Key)
    requires Sound(net) && Climbs(net, id, at) && n in at
    requires m in net.nodes && m !in at && m != net.asked[id].origin
    ensures at[n] + 3 <= |net.nodes|
  {
    var o := net.asked[id].origin;
    var rungs := Rungs(at, n);
    forall k | k in rungs
      ensures k in net.nodes && k != o && k != m
    {
      assert Seen(net, k, id) && SeenOk(net, k, id);
    }
    assert rungs + {o, m} <= net.nodes.Keys;
    SubsetSize(rungs + {o, m}, net.nodes.Keys);
    assert |rungs + {o, m}| == |rungs| + 2;
    assert |net.nodes| == |net.nodes.Keys|;
  }

  // ---- reach ----

  ghost predicate Deep(net: Net, id: Key) {
    id in net.asked && net.asked[id].depth >= |net.nodes| - 1
  }

  ghost predicate Settled(net: Net, id: Key) {
    forall n :: !Coming(net, n, id)
  }

  /** A path of nodes that avoids the originator. */
  ghost predicate Open(net: Net, id: Key, path: seq<Key>) {
    id in net.asked && Path(net.peers, path) && forall k :: 0 <= k < |path| ==>
        path[k] in net.nodes && path[k] != net.asked[id].origin
  }

  lemma {:induction false} SeenAlongPath(net: Net, id: Key, at: Heights, path: seq<Key>)
    requires Sound(net) && Climbs(net, id, at) && Spreading(net, id, at) && Settled(net, id) && Deep(net, id)
    requires Open(net, id, path) && Seen(net, path[0], id)
    ensures Seen(net, path[|path| - 1], id)
    decreases |path|
  {
    if |path| > 1 {
      var n, m := path[0], path[1];
      assert Passed(net, id, at, n, m);
      if m !in at {
        DepthLeft(net, id, at, n, m);
      }
      assert Path(net.peers, path[1..]);
      SeenAlongPath(net, id, at, path[1..]);
    }
  }

  /** The request has just been sent to s, and nobody has seen it. */
  ghost predicate JustAsked(net: Net, id: Key, s: Key) {
    && Sound(net) && id in net.asked && s in net.nodes && Coming(net, s, id)
    && (forall n :: !Seen(net, n, id))
    && (forall p :: p in net.flight && IsCopy(p, id) ==> p.hops == 0 && p.from == net.asked[id].origin)
  }

  /** Asking puts every peer in that position, each under its own request id. */
  lemma AskStarts(net: Net, a: Action, i: nat)
    requires Sound(net) && Enabled(net, a) && a.Ask? && i < |a.ids| && net.peers[a.n][i] in net.nodes
    ensures JustAsked(Apply(net, a), a.ids[i], net.peers[a.n][i])
    ensures Apply(net, a).asked[a.ids[i]] == Asked(a.n, if a.depth > 1 then a.depth else 1)
  {
    var next, id, s := Apply(net, a), a.ids[i], net.peers[a.n][i];
    SoundStep(net, a);
    assert id in a.ids;
    assert NewPackets(net, a)[i] in next.flight;
    forall n
      ensures !Seen(next, n, id)
    {
      SeenStep(net, a, n, id);
      assert Seen(net, n, id) ==> SeenOk(net, n, id);
    }
    forall p | p in next.flight && IsCopy(p, id)
      ensures p.hops == 0 && p.from == next.asked[id].origin
    {
      FlightAfter(net, a, p);
      assert p in net.flight ==> PacketOk(net, p);
    }
  }

  /** Reach: asked to depth at least the number of nodes less one, in any run that loses no copy of the request,
      once no copy is left in flight every node to which a path of peers avoiding the originator leads from the
      first one asked has handled the request, and has sent its one answer. */
  lemma DeepEnoughReachesAll(net: Net, actions: seq<Action>, end: Net, id: Key, path: seq<Key>)
    requires path != [] && JustAsked(net, id, path[0]) && Runs(net, actions, end) && Lossless(net, actions, id)
    requires Settled(end, id) && Deep(net, id) && Open(net, id, path)
    ensures Seen(end, path[|path| - 1], id)
    ensures AnswersSent(net, actions, end, path[|path| - 1], id) == 1
  {
    var last := path[|path| - 1];
    var up := ReachAlways(net, actions, end, id, map[], path[0]);
    assert |end.nodes| == |end.nodes.Keys| && |net.nodes| == |net.nodes.Keys|;
    SeenAlongPath(end, id, up, path);
    AnsweredAtMostOnce(net, actions, end, last, id);
    assert !Seen(net, last, id);
  }

  // ---- a miss within the depth ----

  lemma {:induction false} NoLosses(net: Net, actions: seq<Action>, end: Net, id: Key)
    requires Runs(net, actions, end) && forall a :: a in actions ==> !a.Lose?
    ensures Lossless(net, actions, id)
    decreases |actions|
  {
    if actions == [] {
    } else {
      assert actions[0] in actions;
      NoLosses(Apply(net, actions[0]), actions[1..], end, id);
    }
  }

  lemma FiveNodes(c: Cast)
    requires Distinct(c)
    ensures |Quiet(c).nodes| == 5
  {
    assert Quiet(c).nodes.Keys == {c.o, c.s, c.x, c.y, c.z};
    assert |{c.o, c.s, c.x, c.y, c.z}| == 5;
    assert |Quiet(c).nodes| == |Quiet(c).nodes.Keys|;
  }

  lemma AskedNet(c: Cast)
    requires Distinct(c)
    ensures Enabled(Quiet(c), Ask(c.o, 3, [c.id], c.own))
    ensures var net := Apply(Quiet(c), Ask(c.o, 3, [c.id], c.own));
            JustAsked(net, c.id, c.s) && net.asked[c.id] == Asked(c.o, 3) && |net.nodes| == 5 && net.peers == Diamond(c)
  {
    var ask := Ask(c.o, 3, [c.id], c.own);
    QuietIsInit(c);
    InitSound(Quiet(c));
    FiveNodes(c);
    AskStarts(Quiet(c), ask, 0);
    var net := Apply(Quiet(c), ask);
    assert net.nodes.Keys == Quiet(c).nodes.Keys;
    assert |net.nodes| == |net.nodes.Keys| && |Quiet(c).nodes| == |Quiet(c).nodes.Keys|;
  }

  /** One less is not enough, even for a node within the depth: in a lossless run with five nodes, asked to depth 3,
      a node 3 edges from the originator, on an open path from the first one asked, never hears of the request. */
  lemma OneLessMissesNode(c: Cast) returns (net: Net, actions: seq<Action>, end: Net, path: seq<Key>)
    requires Distinct(c)
    ensures path != [] && JustAsked(net, c.id, path[0]) && Runs(net, actions, end) && Lossless(net, actions, c.id)
    ensures Settled(end, c.id) && Open(net, c.id, path) && net.asked[c.id].depth == |net.nodes| - 2
    ensures !Seen(end, path[|path| - 1], c.id)
    ensures ReachesIn(net.peers, net.asked[c.id].origin, path[|path| - 1], net.asked[c.id].depth)
  {
    QuietIsInit(c);
    AskedNet(c);
    Missed(c);
    net, end, path := Apply(Quiet(c), Ask(c.o, 3, [c.id], c.own)), Ended(c), [c.s, c.x, c.z];
    OpenPath(c, net);
    actions := AfterAsking(c, net);
  }

  lemma AfterAsking(c: Cast, net: Net) returns (actions: seq<Action>)
    requires Distinct(c) && Enabled(Quiet(c), Ask(c.o, 3, [c.id], c.own))
              && net == Apply(Quiet(c), Ask(c.o, 3, [c.id], c.own))
    ensures Runs(net, actions, Ended(c)) && Lossless(net, actions, c.id)
  {
    var all := LongWayRuns(c);
    TailRuns(Quiet(c), all, Ended(c));
    actions := all[1..];
    assert forall a :: a in actions ==> a in all;
    NoLosses(net, actions, Ended(c), c.id);
  }

  lemma Missed(c: Cast)
    requires Distinct(c)
    ensures Settled(Ended(c), c.id) && !Seen(Ended(c), c.z, c.id)
  {
    EndedIs(c);
  }

  lemma TailRuns(net: Net, actions: seq<Action>, end: Net)
    requires Runs(net, actions, end) && actions != []
    ensures Enabled(net, actions[0]) && Runs(Apply(net, actions[0]), actions[1..], end)
  {
  }

  lemma OpenPath(c: Cast, net: Net)
    requires Distinct(c) && c.id in net.asked && net.asked[c.id].origin == c.o
    requires net.peers == Diamond(c) && net.nodes.Keys == net.peers.Keys
    ensures Open(net, c.id, [c.s, c.x, c.z])
  {
  }
}
