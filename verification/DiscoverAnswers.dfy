/** What becomes of the answers to a discovery request: the originator stores what is in them, and so comes to hold an
    advertisement of every node that answered. */
module DiscoverAnswers {
  import opened Collections
  import opened PyDict
  import opened EventLog
  import opened PeerLists
  import opened DiscoverFlood
  import opened DiscoverReach

  // ---- one delivery ----

  /** An answer whose envelopes all verify is stored: the log keeps what it had, holds each event of the answer, and
      gains nothing else.  One with an envelope that does not verify is dropped. */
  lemma ResponseDoes(net: Net, a: Action)
    requires Enabled(net, a) && a.Deliver? && net.flight[a.at].wire.Response?
    ensures var p, es := net.flight[a.at], net.flight[a.at].wire.envelopes;
            var s, t := net.nodes[p.to], Apply(net, a).nodes[p.to];
            && t.seen == s.seen && NewPackets(net, a) == []
            && ((exists e :: e in es && e !in net.valid) ==> t == s)
            && ((forall e :: e in es ==> e in net.valid) ==>
                  && s.log <= t.log && (forall e :: e in es ==> HasEvent(t.log, e.eventId))
                  && (forall e :: e in t.log ==> e in s.log || e in es) && (UniqueIds(s.log) ==> UniqueIds(t.log)))
  {
    var p := net.flight[a.at];
    var s := net.nodes[p.to];
    ImportedFrom(s.log, p.wire.envelopes);
    if UniqueIds(s.log) {
      ImportExtends(s.log, p.wire.envelopes);
    }
  }

  /** A repeated request changes nothing.  A new one is noted, and the daemon's own advertisement is stored unless its
      event is there. */
  lemma RequestDoes(net: Net, a: Action)
    requires Enabled(net, a) && a.Deliver? && net.flight[a.at].wire.Request?
    ensures var p, id := net.flight[a.at], net.flight[a.at].wire.id;
            var s, t := net.nodes[p.to], Apply(net, a).nodes[p.to];
            if id in s.seen then t == s && NewPackets(net, a) == []
            else
              && t.seen == s.seen + {id}
              && t.log == if exists e :: e in s.log && e.eventId == a.own.eventId then s.log else s.log + [a.own]
  {
  }

  // ---- advertisements that verify ----

  ghost predicate ValidAds(net: Net) {
    forall n, e :: n in net.nodes && e in net.nodes[n].log && e.payload.NodeAd? ==> e in net.valid
  }

  /** The advertisement a daemon makes of itself verifies, and its event id is not another envelope's. */
  ghost predicate OwnOk(net: Net, n: Key, own: Envelope) {
    && n in net.nodes && own in net.valid && IsAdOf(own, n)
    && (HasEvent(net.nodes[n].log, own.eventId) ==> own in net.nodes[n].log)
  }

  ghost predicate OwnsOk(net: Net, a: Action)
    requires Enabled(net, a)
  {
    && (a.Ask? ==> OwnOk(net, a.n, a.own))
    && (a.Deliver? && net.flight[a.at].wire.Request? ==> OwnOk(net, net.flight[a.at].to, a.own))
  }

  lemma ValidAdsStep(net: Net, a: Action)
    requires ValidAds(net) && Enabled(net, a) && OwnsOk(net, a)
    ensures ValidAds(Apply(net, a)) && Apply(net, a).valid == net.valid
  {
    if a.Deliver? && net.flight[a.at].wire.Response? {
      ImportedFrom(net.nodes[net.flight[a.at].to].log, net.flight[a.at].wire.envelopes);
    }
  }

  lemma LogsGrow(net: Net, a: Action, n: Key)
    requires Enabled(net, a) && n in net.nodes
    ensures n in Apply(net, a).nodes && net.nodes[n].log <= Apply(net, a).nodes[n].log
  {
    if a.Deliver? && net.flight[a.at].wire.Response? {
      ImportedFrom(net.nodes[net.flight[a.at].to].log, net.flight[a.at].wire.envelopes);
    }
  }

  /** What an answer lists are advertisements of the log. */
  lemma AdsAreLogged(log: Log)
    ensures forall e :: e in AdsOf(log) ==> e in log && e.payload.NodeAd?
  {
    LatestAdsAre(log);
    var d := LatestAds(log);
    forall e | e in AdsOf(log)
      ensures e in log && e.payload.NodeAd?
    {
      var i :| 0 <= i < |AdsOf(log)| && AdsOf(log)[i] == e;
      assert d.keys[i] in Elements(d.keys);
      assert IsLatestAd(log, d.keys[i], e);
    }
  }

  // ---- answers on their way ----

  /** The answer verifies and lists an advertisement of whoever sent it. */
  ghost predicate AnswerOk(net: Net, p: Packet)
    requires p.wire.Response?
  {
    && (forall e :: e in p.wire.envelopes ==> e in net.valid)
    && exists e :: e in p.wire.envelopes && IsAdOf(e, p.from)
  }

  ghost predicate AnswerComing(net: Net, n: Key, id: Key) {
    exists p :: p in net.flight && IsAnswer(p, n, id)
  }

  /** The originator of the request holds an event that advertises n. */
  ghost predicate Told(net: Net, n: Key, id: Key) {
    id in net.asked && net.asked[id].origin in net.nodes &&
    exists e :: IsAdOf(e, n) && HasEvent(net.nodes[net.asked[id].origin].log, e.eventId)
  }

  ghost predicate Heard(net: Net, id: Key) {
    && id in net.asked && ValidAds(net)
    && (forall p :: p in net.flight && p.wire.Response? && p.wire.id == id ==> AnswerOk(net, p))
    && (forall n :: Seen(net, n, id) ==> Told(net, n, id) || AnswerComing(net, n, id))
  }

  /** The action loses no answer to the request. */
  ghost predicate KeepsAnswers(net: Net, a: Action, id: Key)
    requires Enabled(net, a)
  {
    a.Lose? ==> !(net.flight[a.at].wire.Response? && net.flight[a.at].wire.id == id)
  }

  ghost predicate AnswersKept(net: Net, actions: seq<Action>, id: Key)
    decreases |actions|
  {
    actions != [] ==>
      && Enabled(net, actions[0]) && KeepsAnswers(net, actions[0], id) && OwnsOk(net, actions[0])
      && AnswersKept(Apply(net, actions[0]), actions[1..], id)
  }

  lemma ToldStays(net: Net, a: Action, n: Key, id: Key)
    requires Enabled(net, a) && Told(net, n, id)
    ensures Told(Apply(net, a), n, id)
  {
    var o := net.asked[id].origin;
    AskedStays(net, a, id);
    LogsGrow(net, a, o);
    var e :| IsAdOf(e, n) && HasEvent(net.nodes[o].log, e.eventId);
    HasEventStays(net.nodes[o].log, Apply(net, a).nodes[o].log, e.eventId);
  }

  /** An answer is on its way until the originator has taken it. */
  lemma AnswerTaken(net: Net, a: Action, n: Key, id: Key)
    requires Sound(net) && Heard(net, id) && Enabled(net, a) && KeepsAnswers(net, a, id) && AnswerComing(net, n, id)
    ensures Told(Apply(net, a), n, id) || AnswerComing(Apply(net, a), n, id)
  {
    var p :| p in net.flight && IsAnswer(p, n, id);
    assert PacketOk(net, p) && AnswerOk(net, p);
    AskedStays(net, a, id);
    if a.Deliver? && net.flight[a.at] == p {
      ResponseDoes(net, a);
      var e :| e in p.wire.envelopes && IsAdOf(e, p.from);
      assert HasEvent(Apply(net, a).nodes[p.to].log, e.eventId);
    } else {
      StillInFlight(net, a, p);
    }
  }

  lemma StillInFlight(net: Net, a: Action, p: Packet)
    requires Enabled(net, a) && p in net.flight && !((a.Deliver? || a.Lose?) && net.flight[a.at] == p)
    ensures p in Apply(net, a).flight
  {
  }

  /** A node that handles the request sends an answer that verifies and lists its own advertisement. */
  lemma AnswerSent(net: Net, a: Action, n: Key, id: Key)
    requires Sound(net) && ValidAds(net) && Enabled(net, a) && OwnsOk(net, a) && n in net.nodes
    requires Handles(net, a, n, id)
    ensures AnswerComing(Apply(net, a), n, id)
  {
    var q := net.flight[a.at];
    assert q in net.flight && PacketOk(net, q);
    var o := net.asked[id].origin;
    var p := Packet(n, o, Response(id, AdsOf(Appended(net.nodes[n].log, a.own))), 0);
    HandlingSends(n, net.nodes[n], net.peers[n], q, a.own, o, p);
    assert p in NewPackets(net, a) && p in Apply(net, a).flight && IsAnswer(p, n, id);
  }

  /** Every answer sent verifies and lists its sender. */
  lemma AnswersStayOk(net: Net, a: Action, id: Key, p: Packet)
    requires Sound(net) && Heard(net, id) && Enabled(net, a) && OwnsOk(net, a)
    requires p in Apply(net, a).flight && p.wire.Response? && p.wire.id == id
    ensures AnswerOk(Apply(net, a), p)
  {
    ValidAdsStep(net, a);
    FlightAfter(net, a, p);
    if p in net.flight {
      assert AnswerOk(net, p);
    } else {
      AnswerIsNew(net, a, p);
    }
  }

  lemma AnswerIsNew(net: Net, a: Action, p: Packet)
    requires Sound(net) && ValidAds(net) && Enabled(net, a) && OwnsOk(net, a)
    requires p in NewPackets(net, a) && p.wire.Response?
    ensures AnswerOk(net, p)
  {
    if a.Deliver? {
      var q := net.flight[a.at];
      assert q in net.flight && PacketOk(net, q);
      NewPacketsAre(net, a, p);
      var log := Appended(net.nodes[q.to].log, a.own);
      HandlingSends(q.to, net.nodes[q.to], net.peers[q.to], q, a.own, net.asked[q.wire.id].origin, p);
      AnswerIncludesSelf(q.to, net.nodes[q.to].log, a.own);
      AdsAreLogged(log);
      assert forall e :: e in log ==> e in net.nodes[q.to].log || e == a.own;
    }
  }

  lemma HeardStep(net: Net, a: Action, id: Key)
    requires Sound(net) && Heard(net, id) && Enabled(net, a) && OwnsOk(net, a) && KeepsAnswers(net, a, id)
    ensures Heard(Apply(net, a), id)
  {
    var next := Apply(net, a);
    ValidAdsStep(net, a);
    AskedStays(net, a, id);
    forall p | p in next.flight && p.wire.Response? && p.wire.id == id
      ensures AnswerOk(next, p)
    {
      AnswersStayOk(net, a, id, p);
    }
    forall n | Seen(next, n, id)
      ensures Told(next, n, id) || AnswerComing(next, n, id)
    {
      SeenStep(net, a, n, id);
      if !Seen(net, n, id) {
        AnswerSent(net, a, n, id);
      } else if Told(net, n, id) {
        ToldStays(net, a, n, id);
      } else {
        AnswerTaken(net, a, n, id);
      }
    }
  }

  lemma {:induction false} HeardAlways(net: Net, actions: seq<Action>, end: Net, id: Key)
    requires Sound(net) && Heard(net, id) && Runs(net, actions, end) && AnswersKept(net, actions, id)
    ensures Sound(end) && Heard(end, id)
    decreases |actions|
  {
    if actions == [] {
    } else {
      HeardStep(net, actions[0], id);
      SoundStep(net, actions[0]);
      HeardAlways(Apply(net, actions[0]), actions[1..], end, id);
    }
  }

  // ---- what the originator learns ----

  /** Right after asking nobody has seen the request and no answer to it is in flight. */
  lemma AskHeard(net: Net, ask: Action, i: nat)
    requires Sound(net) && ValidAds(net) && Enabled(net, ask) && ask.Ask? && OwnsOk(net, ask) && i < |ask.ids|
    ensures Sound(Apply(net, ask)) && Heard(Apply(net, ask), ask.ids[i])
  {
    var next, id := Apply(net, ask), ask.ids[i];
    assert id in ask.ids;
    SoundStep(net, ask);
    ValidAdsStep(net, ask);
    forall n
      ensures !Seen(next, n, id)
    {
      SeenStep(net, ask, n, id);
      assert Seen(net, n, id) ==> SeenOk(net, n, id);
    }
    NoAnswerYet(net, ask, i);
  }

  lemma NoAnswerYet(net: Net, ask: Action, i: nat)
    requires Sound(net) && Enabled(net, ask) && ask.Ask? && i < |ask.ids|
    ensures forall p :: p in Apply(net, ask).flight ==> !(p.wire.Response? && p.wire.id == ask.ids[i])
  {
    assert ask.ids[i] in ask.ids;
    forall p | p in Apply(net, ask).flight
      ensures !(p.wire.Response? && p.wire.id == ask.ids[i])
    {
      FlightAfter(net, ask, p);
      if p in net.flight {
        assert PacketOk(net, p);
      }
    }
  }

  /** Once the answers to a request have all been delivered, whoever asked holds an advertisement event of every node
      that handled it. */
  lemma OriginatorLearns(net: Net, ask: Action, i: nat, actions: seq<Action>, end: Net, n: Key)
    requires Sound(net) && ValidAds(net) && Enabled(net, ask) && ask.Ask? && OwnsOk(net, ask) && i < |ask.ids|
    requires Runs(Apply(net, ask), actions, end) && AnswersKept(Apply(net, ask), actions, ask.ids[i])
    requires forall p :: p in end.flight ==> !(p.wire.Response? && p.wire.id == ask.ids[i])
    requires Seen(end, n, ask.ids[i])
    ensures ask.n in end.nodes && exists e :: IsAdOf(e, n) && HasEvent(end.nodes[ask.n].log, e.eventId)
  {
    var next, id := Apply(net, ask), ask.ids[i];
    AskHeard(net, ask, i);
    HeardAlways(next, actions, end, id);
    assert id in ask.ids;
    AskedKept(next, actions, end, id);
    assert Told(end, n, id) || AnswerComing(end, n, id);
  }

  lemma {:induction false} AskedKept(net: Net, actions: seq<Action>, end: Net, id: Key)
    requires Runs(net, actions, end) && id in net.asked
    ensures id in end.asked && end.asked[id] == net.asked[id]
    decreases |actions|
  {
    if actions == [] {
    } else {
      AskedStays(net, actions[0], id);
      AskedKept(Apply(net, actions[0]), actions[1..], end, id);
    }
  }

  /** Discovery finds everyone: asked to depth at least the number of nodes less one, when no copy of the request and
      no answer to it is lost and none is left in flight, whoever asked holds an advertisement event of every node on
      an open path from the peer it asked. */
  lemma DiscoveryFindsAll(net: Net, ask: Action, i: nat, actions: seq<Action>, end: Net, path: seq<Key>)
    requires Sound(net) && ValidAds(net) && Enabled(net, ask) && ask.Ask? && OwnsOk(net, ask) && i < |ask.ids|
    requires ask.depth >= |net.nodes| - 1 && path != [] && path[0] == net.peers[ask.n][i] && path[0] in net.nodes
    requires Open(Apply(net, ask), ask.ids[i], path)
    requires Runs(Apply(net, ask), actions, end) && Lossless(Apply(net, ask), actions, ask.ids[i])
    requires AnswersKept(Apply(net, ask), actions, ask.ids[i]) && Settled(end, ask.ids[i])
    requires forall p :: p in end.flight ==> !(p.wire.Response? && p.wire.id == ask.ids[i])
    ensures ask.n in end.nodes
    ensures exists e :: IsAdOf(e, path[|path| - 1]) && HasEvent(end.nodes[ask.n].log, e.eventId)
  {
    AskStarts(net, ask, i);
    assert |Apply(net, ask).nodes| == |net.nodes| by {
      assert |Apply(net, ask).nodes.Keys| == |Apply(net, ask).nodes| && |net.nodes.Keys| == |net.nodes|;
      assert Apply(net, ask).nodes.Keys == net.nodes.Keys;
    }
    DeepEnoughReachesAll(Apply(net, ask), actions, end, ask.ids[i], path);
    OriginatorLearns(net, ask, i, actions, end, path[|path| - 1]);
  }
}
