/** The discovery half of the DaemonRuntime object of service.py, each method proved to do what the flood
    networks say a node does. */
module DiscoveryDaemon {
  import opened Collections
  import opened PyDict
  import opened EventLog
  import opened PeerLists
  import opened EventStore
  import Ads = AdvertisementFlood
  import Discover = DiscoverFlood

  class DaemonRuntime {
    const peerId: Key
    const store: LocalEventStore
    const seeds: seq<Key>
    const topology: seq<Key>
    var seenDiscoverRequests: set<Key>

    constructor (peerId: Key, seeds: seq<Key>, topology: seq<Key>)
      ensures this.peerId == peerId && this.seeds == seeds && this.topology == topology
      ensures fresh(store) && State() == Discover.NodeState({}, [])
    {
      this.peerId, this.seeds, this.topology := peerId, seeds, topology;
      store := new LocalEventStore();
      seenDiscoverRequests := {};
    }

    ghost function State(): Discover.NodeState
      reads this, store
    {
      Discover.NodeState(seenDiscoverRequests, store.AllEnvelopes())
    }

    /** seed_peer_ids([]) */
    function Peers(): seq<Key> {
      SeedPeers(peerId, [], seeds, topology)
    }

    /** Stores an envelope that verifies and, when it is new, sends it on.  Returns nothing where the original
        raises, and otherwise whether the envelope was new. */
    method StoreAndRelayAdvertisement(e: Envelope, from: Option<Key>, verified: bool, now: Time,
            ghost valid: iset<Envelope>)
      returns (isNew: Option<bool>, out: seq<Ads.Packet>)
      requires verified <==> e in valid
      modifies store
      ensures Ads.Handled(store.AllEnvelopes(), out) ==
                Ads.OnAdvertisement(valid, peerId, old(store.AllEnvelopes()), Peers(), e, from)
      ensures isNew == if verified then Some(!HasEvent(old(store.AllEnvelopes()), e.eventId)) else None
    {
      out := [];
      if !verified {
        return None, out;
      }
      var known := store.Has(e.eventId);
      var _ := store.Append(e, now);
      if known {
        return Some(false), out;
      }
      isNew := Some(true);
      var relays := Without(Peers(), {peerId, e.signer} + Ads.Sender(from));
      for i := 0 to |relays|
        invariant out == Ads.Sends(peerId, relays[..i], e)
      {
        out := out + [Ads.Packet(peerId, relays[i], e)];
      }
      assert relays[..|relays|] == relays;
    }

    /** Stores this node's own advertisement and sends it to every peer. */
    method AnnounceCurrentAdvertisement(e: Envelope, now: Time) returns (out: seq<Ads.Packet>)
      modifies store
      ensures Ads.Handled(store.AllEnvelopes(), out) == Ads.OnAnnounce(peerId, old(store.AllEnvelopes()), Peers(), e)
    {
      var _ := store.Append(e, now);
      var peers := Peers();
      out := [];
      for i := 0 to |peers|
        invariant out == Ads.Sends(peerId, peers[..i], e)
      {
        out := out + [Ads.Packet(peerId, peers[i], e)];
      }
      assert peers[..|peers|] == peers;
    }

    /** The discover_request branch of handle_demo_message. */
    method HandleDiscoverRequest(p: Discover.Packet, own: Envelope, now: Time) returns (out: seq<Discover.Packet>)
      requires p.wire.Request?
      modifies this, store
      ensures Discover.Effect(State(), out) == Discover.OnRequest(peerId, old(State()), Peers(), p, own)
    {
      var w := p.wire;
      out := [];
      if w.id in seenDiscoverRequests {
        return;
      }
      seenDiscoverRequests := seenDiscoverRequests + {w.id};
      var _ := store.Append(own, now);
      var reply := AnswerDiscoverRequest(w.id, w.replyTo);
      var copies := ForwardDiscoverRequest(p);
      out := reply + copies;
    }

    method AnswerDiscoverRequest(id: Key, replyTo: Option<Key>) returns (out: seq<Discover.Packet>)
      ensures out == Discover.Reply(peerId, store.AllEnvelopes(), id, replyTo)
    {
      out := [];
      if replyTo.Some? && replyTo.value != NO_KEY {
        var ads := store.LatestNodeAdvertisementEnvelopes();
        out := [Discover.Packet(peerId, replyTo.value, Discover.Response(id, ads), 0)];
      }
    }

    method ForwardDiscoverRequest(p: Discover.Packet) returns (out: seq<Discover.Packet>)
      requires p.wire.Request?
      ensures out == Discover.Copies(peerId, Peers(), p)
    {
      out := [];
      if p.wire.depth > 1 {
        var relays := Without(Peers(), Discover.Excluded(peerId, p.from, p.wire.replyTo));
        var copy := Discover.Request(p.wire.id, p.wire.replyTo, p.wire.depth - 1);
        for i := 0 to |relays|
          invariant out == Discover.Forwards(peerId, relays[..i], copy, p.hops + 1)
        {
          out := out + [Discover.Packet(peerId, relays[i], copy, p.hops + 1)];
        }
        assert relays[..|relays|] == relays;
      }
    }

    /** The discover_response branch of handle_demo_message; `verified` says which envelopes verify. */
    method HandleDiscoverResponse(envelopes: seq<Envelope>, verified: set<Envelope>, now: Time,
            ghost valid: iset<Envelope>)
      requires forall e :: e in envelopes ==> (e in verified <==> e in valid)
      modifies store
      ensures Discover.Effect(State(), []) == Discover.OnResponse(valid, old(State()), envelopes)
    {
      for i := 0 to |envelopes|
        invariant forall j :: 0 <= j < i ==> envelopes[j] in valid
        invariant store.AllEnvelopes() == old(store.AllEnvelopes())
      {
        assert envelopes[i] in envelopes;
        if envelopes[i] !in verified {
          return;
        }
      }
      store.ImportMany(envelopes, now);
    }

    /** Asks every peer, each under a request id of its own. */
    method DiscoverRemoteNodes(depth: int, ids: seq<Key>, own: Envelope, now: Time) returns (out: seq<Discover.Packet>)
      requires |ids| == |Peers()|
      modifies store
      ensures store.AllEnvelopes() == Appended(old(store.AllEnvelopes()), own)
      ensures out == Discover.Asks(peerId, Peers(), ids, Discover.Depth(depth))
    {
      var _ := store.Append(own, now);
      var peers := Peers();
      out := [];
      for i := 0 to |peers|
        invariant out == Discover.Asks(peerId, peers[..i], ids[..i], Discover.Depth(depth))
      {
        var request := Discover.Request(ids[i], Some(peerId), if depth > 1 then depth else 1);
        out := out + [Discover.Packet(peerId, peers[i], request, 0)];
      }
      assert peers[..|peers|] == peers && ids[..|peers|] == ids;
    }
  }
}
