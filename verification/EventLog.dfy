/** The append-only, deduplicated event log that holds all of a daemon's state, and the advertisement view
    folded from it.  Payloads are the validated records the program parses out of each envelope. */
module EventLog {
  import opened Collections
  import opened PyDict

  /** Event, peer, job, receipt and verification ids, wallets, regions and the like. */
  datatype Key = Key(text: string)

  type Time = int

  datatype Status = Pending | Triggered | Confirmed | Failed

  /** f"execution:{receipt_id}" or f"verification:{receipt_id}". */
  datatype SettlementId = ForExecution(receipt: Key) | ForVerification(receipt: Key)

  datatype SettlementRecord = SettlementRecord(
    id: SettlementId, jobId: Key, receiptId: Key, peer: Key, wallet: string, role: Key, capability: Key,
    amount: int, currency: Key, network: Key, status: Status, txHash: Option<string>,
    failure: Option<string>, createdAt: Time, updatedAt: Time)

  datatype TaskResult = TaskResult(jobId: Key, taskType: Key, success: bool)

  datatype ExecutionRequest = ExecutionRequest(
    jobId: Key, leaseId: Option<Key>, taskType: Key, role: Key, price: Option<int>, currency: Option<Key>)

  datatype ExecutionReceipt = ExecutionReceipt(
    receiptId: Key, jobId: Key, workerWallet: string, workerPeer: Key, role: Key, result: TaskResult,
    price: Option<int>, currency: Option<Key>)

  datatype VerificationRequest = VerificationRequest(verificationId: Key, request: ExecutionRequest)

  datatype VerificationReceipt = VerificationReceipt(
    receiptId: Key, verificationId: Key, primaryReceiptId: Key, verifierWallet: string, verifierPeer: Key,
    result: TaskResult, mismatch: bool)

  /** f"execution:{receipt_id}" or f"verification:{receipt_id}". */
  datatype AttestationId = OfExecution(receipt: Key) | OfVerification(receipt: Key)

  datatype Attestation = Attestation(id: AttestationId, subject: Key, issuer: Key, jobId: Key, receiptId: Key,
          favourable: bool)

  datatype JobPlan = JobPlan(jobId: Key, plannerMode: Key, regions: seq<Key>)

  datatype Advertisement = Advertisement(peer: Key, title: Key, region: Key)

  /** One constructor per event type the views read; Other stands for the remaining types. */
  datatype Payload =
    | NodeAd(ad: Advertisement)
    | ExecRequest(request: ExecutionRequest)
    | ExecReceipt(receipt: ExecutionReceipt)
    | VerifRequest(verification: VerificationRequest)
    | VerifReceipt(verified: VerificationReceipt)
    | Plan(plan: JobPlan)
    | Settlement(record: SettlementRecord)
    | Attest(attestation: Attestation)
    | Other(kind: Key)

  /** `timestamp` is the moment in microseconds; `offset` is the zone it is written in, in seconds from UTC. */
  datatype Envelope = Envelope(eventId: Key, signer: Key, timestamp: Time, payload: Payload, offset: int := 0)

  type Log = seq<Envelope>

  // ---- append ----

  ghost predicate HasEvent(log: Log, id: Key) {
    exists e :: e in log && e.eventId == id
  }

  ghost function Appended(log: Log, e: Envelope): Log {
    if HasEvent(log, e.eventId) then log else log + [e]
  }

  ghost function Imported(log: Log, es: seq<Envelope>): Log
    decreases |es|
  {
    if es == [] then log else Imported(Appended(log, es[0]), es[1..])
  }

  ghost predicate UniqueIds(log: Log) {
    forall i, j :: 0 <= i < j < |log| ==> log[i].eventId != log[j].eventId
  }

  /** No two different envelopes share an event id. */
  ghost predicate Identified(es: set<Envelope>) {
    forall a, b :: a in es && b in es && a.eventId == b.eventId ==> a == b
  }

  lemma HasEventStays(log: Log, longer: Log, id: Key)
    requires log <= longer && HasEvent(log, id)
    ensures HasEvent(longer, id)
  {
    var i :| 0 <= i < |log| && log[i].eventId == id;
    assert longer[i] in longer;
  }

  /** Importing only extends the log, keeps event ids unique, and is idempotent on what is already there. */
  lemma {:induction false} ImportExtends(log: Log, es: seq<Envelope>)
    requires UniqueIds(log)
    ensures log <= Imported(log, es) && UniqueIds(Imported(log, es))
    ensures (forall e: Envelope :: e in es ==> HasEvent(log, e.eventId)) ==> Imported(log, es) == log
    ensures forall e: Envelope :: e in es ==> HasEvent(Imported(log, es), e.eventId)
    decreases |es|
  {
    if es == [] {
    } else {
      var next := Appended(log, es[0]);
      assert es[0] in es && forall e: Envelope :: e in es ==> e == es[0] || e in es[1..];
      ImportExtends(next, es[1..]);
      assert es[0] in log + [es[0]];
      HasEventStays(next, Imported(next, es[1..]), es[0].eventId);
    }
  }

  lemma {:induction false} ImportedFrom(log: Log, es: seq<Envelope>)
    ensures log <= Imported(log, es) && forall e :: e in Imported(log, es) ==> e in log || e in es
    ensures forall e: Envelope :: e in es ==> HasEvent(Imported(log, es), e.eventId)
    decreases |es|
  {
    if es == [] {
    } else {
      var next := Appended(log, es[0]);
      ImportedFrom(next, es[1..]);
      assert es[0] in log + [es[0]] && HasEvent(next, es[0].eventId);
      HasEventStays(next, Imported(next, es[1..]), es[0].eventId);
      assert forall e: Envelope :: e in es <==> e == es[0] || e in es[1..];
    }
  }

  /** An empty store fed identified envelopes ends up holding exactly those envelopes. */
  lemma {:induction false} ImportedElements(log: Log, es: seq<Envelope>)
    requires Identified(Elements(log) + Elements(es))
    ensures Elements(Imported(log, es)) == Elements(log) + Elements(es)
    decreases |es|
  {
    if es == [] {
    } else {
      var next := Appended(log, es[0]);
      assert es == [es[0]] + es[1..];
      assert Elements(es) == {es[0]} + Elements(es[1..]);
      if HasEvent(log, es[0].eventId) {
        var f :| f in log && f.eventId == es[0].eventId;
        assert f in Elements(log) && es[0] in Elements(es);
      }
      assert Elements(next) == Elements(log) + {es[0]};
      ImportedElements(next, es[1..]);
    }
  }

  // ---- receipts, in log order ----

  function ExecutionReceipts(log: Log): seq<Envelope> {
    if log == [] then []
    else ExecutionReceipts(log[..|log| - 1]) + if log[|log| - 1].payload.ExecReceipt? then [log[|log| - 1]] else []
  }

  function VerificationReceipts(log: Log): seq<Envelope> {
    if log == [] then []
    else VerificationReceipts(log[..|log| - 1]) + if log[|log| - 1].payload.VerifReceipt? then [log[|log| - 1]] else []
  }

  /** `es` are the envelopes at these positions of the log, in order, and these are all that are execution receipts,
      or verification receipts when `checks`. */
  ghost predicate ReceiptsFrom(log: Log, checks: bool, ps: seq<nat>, es: seq<Envelope>) {
    && |ps| == |es| && (forall i, j :: 0 <= i < j < |ps| ==> ps[i] < ps[j])
    && (forall i :: 0 <= i < |ps| ==> ps[i] < |log| && es[i] == log[ps[i]])
    && (forall k: nat :: k < |log| ==>
          (k in ps <==> if checks then log[k].payload.VerifReceipt? else log[k].payload.ExecReceipt?))
  }

  lemma ReceiptsFromNext(log: Log, checks: bool, ps: seq<nat>, es: seq<Envelope>, e: Envelope)
    requires ReceiptsFrom(log, checks, ps, es)
    ensures var taken := if checks then e.payload.VerifReceipt? else e.payload.ExecReceipt?;
            ReceiptsFrom(log + [e], checks, if taken then ps + [|log|] else ps, if taken then es + [e] else es)
  {
    var taken := if checks then e.payload.VerifReceipt? else e.payload.ExecReceipt?;
    var longer, qs := log + [e], if taken then ps + [|log|] else ps;
    forall k: nat | k < |longer|
      ensures k in qs <==> if checks then longer[k].payload.VerifReceipt? else longer[k].payload.ExecReceipt?
    {
      if k < |log| {
        assert longer[k] == log[k];
        assert k in qs <==> k in ps;
      } else {
        assert taken ==> qs[|ps|] == k;
        assert k !in ps;
      }
    }
  }

  lemma ReceiptsNext(log: Log, e: Envelope)
    ensures ExecutionReceipts(log + [e])
              == if e.payload.ExecReceipt? then ExecutionReceipts(log) + [e] else ExecutionReceipts(log)
    ensures VerificationReceipts(log + [e])
              == if e.payload.VerifReceipt? then VerificationReceipts(log) + [e] else VerificationReceipts(log)
  {
    assert (log + [e])[..|log|] == log;
  }

  lemma ExecutionsNext(init: Log, e: Envelope, ps: seq<nat>) returns (rs: seq<nat>)
    requires ReceiptsFrom(init, false, ps, ExecutionReceipts(init))
    ensures ReceiptsFrom(init + [e], false, rs, ExecutionReceipts(init + [e]))
  {
    ReceiptsNext(init, e);
    ReceiptsFromNext(init, false, ps, ExecutionReceipts(init), e);
    rs := if e.payload.ExecReceipt? then ps + [|init|] else ps;
  }

  lemma VerificationsNext(init: Log, e: Envelope, qs: seq<nat>) returns (ss: seq<nat>)
    requires ReceiptsFrom(init, true, qs, VerificationReceipts(init))
    ensures ReceiptsFrom(init + [e], true, ss, VerificationReceipts(init + [e]))
  {
    ReceiptsNext(init, e);
    ReceiptsFromNext(init, true, qs, VerificationReceipts(init), e);
    ss := if e.payload.VerifReceipt? then qs + [|init|] else qs;
  }

  /** Both lists of receipts are in the order of the log. */
  lemma {:induction false} ReceiptsInOrder(log: Log) returns (ps: seq<nat>, qs: seq<nat>)
    ensures ReceiptsFrom(log, false, ps, ExecutionReceipts(log))
    ensures ReceiptsFrom(log, true, qs, VerificationReceipts(log))
  {
    if log == [] {
      ps, qs := [], [];
    } else {
      ps, qs := ReceiptsInOrder(log[..|log| - 1]);
      ps := ExecutionsNext(log[..|log| - 1], log[|log| - 1], ps);
      qs := VerificationsNext(log[..|log| - 1], log[|log| - 1], qs);
      assert log[..|log| - 1] + [log[|log| - 1]] == log;
    }
  }

  // ---- latest advertisement per peer ----

  ghost predicate IsAdOf(e: Envelope, peer: Key) {
    e.payload.NodeAd? && e.payload.ad.peer == peer
  }

  /** latest_node_advertisement_envelopes: a strictly newer advertisement replaces the current one. */
  function LatestAds(log: Log): Dict<Key, Envelope> {
    if log == [] then Empty()
    else
      var d, e := LatestAds(log[..|log| - 1]), log[|log| - 1];
      if e.payload.NodeAd? && (e.payload.ad.peer !in d.at || e.timestamp > d.at[e.payload.ad.peer].timestamp)
      then Put(d, e.payload.ad.peer, e)
      else d
  }

  /** e is the first of the newest advertisements of `peer`. */
  ghost predicate IsLatestAd(log: Log, peer: Key, e: Envelope) {
    exists i :: IsLatestAdAt(log, peer, e, i)
  }

  ghost predicate IsLatestAdAt(log: Log, peer: Key, e: Envelope, i: nat) {
    && i < |log| && log[i] == e && IsAdOf(e, peer)
    && (forall j :: 0 <= j < |log| && IsAdOf(log[j], peer) ==>
          log[j].timestamp <= e.timestamp && (j < i ==> log[j].timestamp < e.timestamp))
  }

  lemma {:induction false} LatestAdsAre(log: Log)
    ensures WellFormed(LatestAds(log))
    ensures forall peer :: peer in LatestAds(log).at <==> exists e :: e in log && IsAdOf(e, peer)
    ensures forall peer :: peer in LatestAds(log).at ==> IsLatestAd(log, peer, LatestAds(log).at[peer])
  {
    if log == [] {
    } else {
      var init, e := log[..|log| - 1], log[|log| - 1];
      var d, d' := LatestAds(init), LatestAds(log);
      LatestAdsAre(init);
      assert log == init + [e];
      if e.payload.NodeAd? {
        PutWellFormed(d, e.payload.ad.peer, e);
      }
      forall peer
        ensures peer in d'.at <==> exists f :: f in log && IsAdOf(f, peer)
        ensures peer in d'.at ==> IsLatestAd(log, peer, d'.at[peer])
      {
        LatestAdStep(init, e, peer);
      }
    }
  }

  lemma LatestAdStep(init: Log, e: Envelope, peer: Key)
    requires peer in LatestAds(init).at <==> exists f :: f in init && IsAdOf(f, peer)
    requires peer in LatestAds(init).at ==> IsLatestAd(init, peer, LatestAds(init).at[peer])
    ensures var d' := LatestAds(init + [e]);
            && (peer in d'.at <==> exists f :: f in init + [e] && IsAdOf(f, peer))
            && (peer in d'.at ==> IsLatestAd(init + [e], peer, d'.at[peer]))
  {
    var log, d := init + [e], LatestAds(init);
    assert log[..|log| - 1] == init;
    var d' := LatestAds(log);
    assert forall f :: f in log <==> f in init || f == e;
    if IsAdOf(e, peer) && d'.at[peer] == e && (peer in d.at ==> d.at[peer] != e) {
      assert IsLatestAdAt(log, peer, e, |init|);
    } else if peer in d.at {
      var i: nat :| IsLatestAdAt(init, peer, d.at[peer], i);
      StillLatest(init, e, peer, d.at[peer], i);
    }
  }

  lemma StillLatest(init: Log, e: Envelope, peer: Key, current: Envelope, i: nat)
    requires IsLatestAdAt(init, peer, current, i) && (IsAdOf(e, peer) ==> e.timestamp <= current.timestamp)
    ensures IsLatestAdAt(init + [e], peer, current, i)
  {
  }

  /** The peer is first advertised at position p. */
  ghost predicate FirstAdAt(log: Log, peer: Key, p: nat) {
    p < |log| && IsAdOf(log[p], peer) && forall k :: 0 <= k < p ==> !IsAdOf(log[k], peer)
  }

  ghost predicate Advertised(log: Log, peer: Key) {
    exists f :: f in log && IsAdOf(f, peer)
  }

  lemma FirstAdStays(init: Log, e: Envelope, peer: Key, p: nat)
    requires Advertised(init, peer) && FirstAdAt(init + [e], peer, p)
    ensures FirstAdAt(init, peer, p)
  {
    var f :| f in init && IsAdOf(f, peer);
    var k :| 0 <= k < |init| && init[k] == f;
    assert IsAdOf((init + [e])[k], peer);
    forall l | 0 <= l < p
      ensures !IsAdOf(init[l], peer)
    {
      assert !IsAdOf((init + [e])[l], peer);
    }
  }

  /** One more envelope leaves the peers listed where they are, or adds one that was not advertised before. */
  lemma AdsNext(init: Log, e: Envelope)
    ensures var ks, ks' := LatestAds(init).keys, LatestAds(init + [e]).keys;
            && (forall k :: 0 <= k < |ks| ==> Advertised(init, ks[k]))
            && (ks' == ks || (|ks'| == |ks| + 1 && ks' == ks + [ks'[|ks|]] && !Advertised(init, ks'[|ks|])))
  {
    LatestAdsAre(init);
    assert (init + [e])[..|init|] == init;
    var d := LatestAds(init);
    forall k | 0 <= k < |d.keys|
      ensures Advertised(init, d.keys[k])
    {
      assert d.keys[k] in Elements(d.keys);
    }
  }

  /** The latest advertisements are listed in the order in which their peers were first advertised. */
  lemma {:induction false} AdsInOrder(log: Log, i: nat, j: nat, p: nat, q: nat)
    requires i < j < |LatestAds(log).keys|
    requires FirstAdAt(log, LatestAds(log).keys[i], p) && FirstAdAt(log, LatestAds(log).keys[j], q)
    ensures p < q
  {
    var init, e := log[..|log| - 1], log[|log| - 1];
    assert log == init + [e];
    AdsNext(init, e);
    var ks := LatestAds(init).keys;
    FirstAdStays(init, e, ks[i], p);
    if j < |ks| {
      FirstAdStays(init, e, ks[j], q);
      AdsInOrder(init, i, j, p, q);
    } else {
      NewlyAdvertised(init, e, LatestAds(log).keys[j], q);
    }
  }

  lemma NewlyAdvertised(init: Log, e: Envelope, peer: Key, q: nat)
    requires !Advertised(init, peer) && FirstAdAt(init + [e], peer, q)
    ensures q == |init|
  {
    assert forall k :: 0 <= k < |init| ==> (init + [e])[k] in init;
  }

  ghost function LatestAd(log: Log, peer: Key): Option<Envelope> {
    if peer in LatestAds(log).at then Some(LatestAds(log).at[peer]) else None
  }

  // ---- convergence ----

  ghost predicate IsNewest(es: set<Envelope>, peer: Key, e: Envelope) {
    e in es && IsAdOf(e, peer) && forall f :: f in es && IsAdOf(f, peer) ==> f.timestamp <= e.timestamp
  }

  ghost predicate OneNewest(es: set<Envelope>, peer: Key) {
    forall a, b :: IsNewest(es, peer, a) && IsNewest(es, peer, b) ==> a == b
  }

  lemma LatestIsNewest(log: Log, peer: Key)
    ensures LatestAd(log, peer).None? <==> forall e :: e in log ==> !IsAdOf(e, peer)
    ensures LatestAd(log, peer).Some? ==> IsNewest(Elements(log), peer, LatestAd(log, peer).value)
  {
    LatestAdsAre(log);
  }

  ghost predicate AgreeOn(es: set<Envelope>, peer: Key) {
    forall f: seq<Envelope>, g: seq<Envelope> :: Elements(f) == es && Elements(g) == es ==>
      LatestAd(Imported([], f), peer) == LatestAd(Imported([], g), peer)
  }

  /** A store fed `es` in any order and with any repetition holds exactly `es` (FedElements); every such
      store holds the same latest advertisement of a peer exactly when the newest one is unique. */
  lemma ConvergesIff(es: set<Envelope>, peer: Key)
    requires Identified(es)
    ensures AgreeOn(es, peer) <==> OneNewest(es, peer)
  {
    if OneNewest(es, peer) {
      forall f: seq<Envelope>, g: seq<Envelope> | Elements(f) == es && Elements(g) == es
        ensures LatestAd(Imported([], f), peer) == LatestAd(Imported([], g), peer)
      {
        FedElements(f);
        FedElements(g);
        SameLatest(es, Imported([], f), Imported([], g), peer);
      }
    } else {
      var a, b :| IsNewest(es, peer, a) && IsNewest(es, peer, b) && a != b;
      Diverges(es, peer, a, b);
    }
  }

  lemma Diverges(es: set<Envelope>, peer: Key, a: Envelope, b: Envelope)
    requires Identified(es) && IsNewest(es, peer, a) && IsNewest(es, peer, b) && a != b
    ensures !AgreeOn(es, peer)
  {
    var rest := Enumeration(es);
    FirstNewestStays(es, peer, a, rest);
    FirstNewestStays(es, peer, b, rest);
    Disagree(es, peer, [a] + rest, [b] + rest);
  }

  lemma Disagree(es: set<Envelope>, peer: Key, f: seq<Envelope>, g: seq<Envelope>)
    requires Elements(f) == es && Elements(g) == es
    requires LatestAd(Imported([], f), peer) != LatestAd(Imported([], g), peer)
    ensures !AgreeOn(es, peer)
  {
  }

  /** The store holds the same events whatever order, and however often, they arrived in. */
  lemma FedElements(feed: seq<Envelope>)
    requires Identified(Elements(feed))
    ensures Elements(Imported([], feed)) == Elements(feed)
  {
    assert Elements<Envelope>([]) + Elements(feed) == Elements(feed);
    ImportedElements([], feed);
  }

  lemma SameLatest(es: set<Envelope>, f: Log, g: Log, peer: Key)
    requires Elements(f) == es && Elements(g) == es && OneNewest(es, peer)
    ensures LatestAd(f, peer) == LatestAd(g, peer)
  {
    LatestIsNewest(f, peer);
    LatestIsNewest(g, peer);
    assert forall e :: e in f <==> e in Elements(f);
    assert forall e :: e in g <==> e in Elements(g);
  }

  lemma {:induction false} Enumeration<T>(xs: set<T>) returns (order: seq<T>)
    ensures Elements(order) == xs
    decreases xs
  {
    if xs == {} {
      order := [];
    } else {
      var x :| x in xs;
      var rest := Enumeration(xs - {x});
      order := rest + [x];
      assert Elements(order) == Elements(rest) + {x};
    }
  }

  lemma FirstIsLatest(log: Log, peer: Key)
    requires log != [] && IsNewest(Elements(log), peer, log[0])
    ensures LatestAd(log, peer) == Some(log[0])
  {
    LatestAdsAre(log);
    assert log[0] in log;
    var e := LatestAds(log).at[peer];
    var i: nat :| IsLatestAdAt(log, peer, e, i);
    assert e in Elements(log);
  }

  lemma FirstFed(a: Envelope, rest: seq<Envelope>)
    ensures [a] <= Imported([], [a] + rest)
  {
    ImportExtends([a], rest);
    assert ([a] + rest)[1..] == rest && Appended([], a) == [a];
  }

  /** A newest advertisement that arrives first is never displaced. */
  lemma FirstNewestStays(es: set<Envelope>, peer: Key, a: Envelope, rest: seq<Envelope>)
    requires Identified(es) && Elements(rest) == es && IsNewest(es, peer, a)
    ensures Elements([a] + rest) == es && LatestAd(Imported([], [a] + rest), peer) == Some(a)
  {
    assert Elements([a] + rest) == {a} + Elements(rest);
    FedElements([a] + rest);
    FirstFed(a, rest);
    FirstIsLatest(Imported([], [a] + rest), peer);
  }
}
