# Verification of the NodeHub / AXL protocols

A Dafny model of the repository's four protocols, with proofs about every run of them. `dafny verify dfyconfig.toml`
checks the whole project.

**GossipSub** (`examples/python-client/gossipsub/gossipsub.py`). `GossipSub.dfy` is the node object, its fields
updated in place; every method is proved to do what a value-level handler in `GossipNode.dfy` does, for some outcome
of its random shuffles. `GossipNetwork.dfy` puts any number of such nodes into a network in which any packet in
flight may be delivered or lost next, and new peers, subscriptions, maintenance and gossip rounds may come at any
time. Proved over every run: integrity of every copy, coverage at rest, termination with an explicit bound, a linear
bound on the full copies of a message, a hop bound, and mesh degrees. `GossipOutcomes.dfy` says for each step what it
makes of the acting node and exactly which packets it sends, and that a graft is taken by the peer grafted.

**Settlement over an append-only log** (`platform/daemon/service.py`, `platform/daemon/state.py`).
`LocalEventStore.dfy` is the store object with its folding loops, each proved against a value-level view of the log
(`EventLog.dfy`, `SettlementFold.dfy`, `JobViews.dfy`). `SettlementMachine.dfy` is the settlement protocol as a
state machine: requests, workers' replies and foreign events interleave with a reconciler that walks a stale
snapshot, and the chain answers as it likes. `SettlementDaemon.dfy` is the daemon's half of it, with arbitrary
activity of other coroutines at each await point; each method is proved to be a run of that machine. Proved over
every run: one hash and one payment per receipt, absorbing outcomes, conservation of value, provenance, which
settlements reconcile passes finish, and exactly when a pass writes nothing. `SettlementOrigin.dfy` follows a receipt
from its first record, field by field, to the money. `JobFacts.dfy` reads the job views off log positions, and
`Attestations.dfy` covers the attestation backfill.

**Flooding** (`platform/daemon/service.py`). `AdvertisementFlood.dfy` and `DiscoverFlood.dfy` are the two flood
protocols as networks, one deduplicated by event id in the store, the other by request id with a depth.
`AdvertisementReach.dfy` says exactly who ends up with an advertisement, `AdvertisementImports.dfy` which imports a
flood survives; `DiscoverReach.dfy` and `DiscoverDepth.dfy` say how deep a request must be asked, on networks of
every size, to reach everyone, and `DiscoverAnswers.dfy` that whoever asked comes to hold an advertisement of every
node that answered. `DiscoveryDaemon.dfy` is the daemon object whose methods are proved to be the networks' steps.

**Framed transport and convergecast** (`api/tcp_helpers.go`, `api/recv.go`, `internal/tcp/listen/listener.go`,
`examples/python-client/convergecast.py`). `Framing.dfy`, `ReceiveQueue.dfy` and `Listener.dfy` take a byte stream
through frame decoding, first-match dispatch and the drop-oldest queue; `Convergecast.dfy` is the tree aggregation.

`Collections.dfy`, `PyDict.dfy` and `PeerLists.dfy` hold the shared list, dictionary, sorting and path notions.

## What the results rest on

- Message ids are built from 8-character prefixes of node ids, so runs start from nodes whose prefixes differ
  (`MessageIds.GenIdInjective` shows this is exactly what is needed).
- An IHAVE marks every wanted id as requested but asks for the first 64 only. Coverage is therefore stated for runs
  in which an IHAVE never yields more than 64 wanted ids; `GossipNode.IHaveAsksForAllIff` shows that limit is exact, and
  `GossipTraffic.BeyondLimitNeverAsked` that an id cut off by it is never asked for again.
- The clock never runs backwards, and the settings stay fixed during a run. Settlement events are written only by
  `store_settlement`; `SettlementTheorems.ForeignSettlementSafeIff` says which ones from elsewhere do no harm.
- A broadcast returns a nonempty hash exactly when the chain took the transaction.  A pass is answered when the chain
  accepts each payment it is asked to make and reports each transaction it is asked about; payments refused before the
  chain is asked (no RPC, another network, a malformed wallet, no amount, no key) need no answer, and never finish.
- Signature verification is a given set of valid envelopes; two envelopes with one event id are one envelope where
  a statement says so.
- Peer lists stay fixed during a flood.
- Amounts are integers; times are points of an ordered clock, written with an offset from UTC.

## Model

| member | source | states |
|---|---|---|
| MessageIds.GenIdInjective | examples/python-client/gossipsub/gossipsub.py:320-322 | two generated ids are equal exactly when their prefixes and counters are |
| MessageIds.GenIdIs | examples/python-client/gossipsub/gossipsub.py:320-322 | an id is the first 8 characters of the node id, a colon and the counter in decimal, padded with zeros to 6 digits |
| GossipNode.IHaveAsksForAllIff | examples/python-client/gossipsub/gossipsub.py:237-248 | every id an IHAVE marks as requested is really asked for if and only if at most 64 are wanted |
| GossipNode.WantedIsFilter | examples/python-client/gossipsub/gossipsub.py:241-244 | the wanted ids are exactly the announced ones neither seen nor pending |
| GossipNode.RepliesAre | examples/python-client/gossipsub/gossipsub.py:250-255 | an IWANT is answered with exactly the cached messages it names, sender rewritten |
| GossipSubNode.GossipSub.AddPeer | examples/python-client/gossipsub/gossipsub.py:103-105 | the peer joins the known peers; nothing else changes |
| GossipSubNode.GossipSub.Subscribe | examples/python-client/gossipsub/gossipsub.py:107-110 | the topic is subscribed and gets an empty mesh only if it had none; nothing else changes |
| GossipSubNode.GossipSub.Publish | examples/python-client/gossipsub/gossipsub.py:112-135 | state and packets are those of a publication to the mesh, or to all peers when the mesh is empty |
| GossipSubNode.GossipSub.HandleRaw | examples/python-client/gossipsub/gossipsub.py:168-185 | a decoded message does what the handler for its type does, anything else nothing; it raises exactly on JSON that is no object |
| GossipSubNode.GossipSub.HandleMessage | examples/python-client/gossipsub/gossipsub.py:187-218 | first copy of a subscribed topic: recorded, one eager forward, IHAVE to the rest; repeats and foreign topics send nothing |
| GossipSubNode.GossipSub.HandleGraft | examples/python-client/gossipsub/gossipsub.py:220-231 | joins the mesh below D_high, is answered with PRUNE otherwise |
| GossipSubNode.GossipSub.HandlePrune | examples/python-client/gossipsub/gossipsub.py:233-235 | the sender leaves that topic's mesh, nothing else changes |
| GossipSubNode.GossipSub.HandleIHave | examples/python-client/gossipsub/gossipsub.py:237-248 | the wanted ids become pending and the first 64 are requested |
| GossipSubNode.GossipSub.HandleIWant | examples/python-client/gossipsub/gossipsub.py:250-255 | cached messages are sent in the order asked, state unchanged |
| GossipSubNode.GossipSub.MaintainMesh | examples/python-client/gossipsub/gossipsub.py:266-289 | dead peers leave, a small mesh is grafted up to D, a large one pruned to D, for some shuffle |
| GossipSubNode.GossipSub.EmitGossip | examples/python-client/gossipsub/gossipsub.py:291-306 | the most recent ids go to a sample of the right size of the non-mesh peers |
| GossipOutcomes.AddPeerDoes | examples/python-client/gossipsub/gossipsub.py:103-105 | on the network: the peer is added and nothing is sent |
| GossipOutcomes.SubscribeDoes | examples/python-client/gossipsub/gossipsub.py:107-110 | every mesh there was is kept, a missing one starts empty, nothing is sent |
| GossipOutcomes.PublishDoes | examples/python-client/gossipsub/gossipsub.py:112-135 | one full copy to each mesh member or, when the mesh is empty, to each peer, and to nobody else; hop 0, under the next id |
| GossipOutcomes.MessageDoes | examples/python-client/gossipsub/gossipsub.py:187-218 | a repeat is only counted; a first copy is recorded with its hop count, and one full copy, a hop further, goes to one of the mesh members other than sender and origin while each other one is sent an IHAVE for that id |
| GossipOutcomes.GraftDoes | examples/python-client/gossipsub/gossipsub.py:220-231 | delivered to a subscriber, a GRAFT adds its sender to the mesh and nothing is sent while the mesh is below D_high; when it is full the mesh stays and exactly one PRUNE goes back; anyone else ignores it |
| GossipOutcomes.PruneDoes | examples/python-client/gossipsub/gossipsub.py:233-235 | the sender leaves that one mesh, every other mesh stays, nothing is sent |
| GossipOutcomes.IHaveDoes | examples/python-client/gossipsub/gossipsub.py:237-248 | all announced ids neither seen nor pending become pending, and one IWANT naming the first 64 of them goes back, or none when there are none |
| GossipOutcomes.IWantDoes | examples/python-client/gossipsub/gossipsub.py:250-255 | in a reachable network each id asked for is answered by one copy, in that order |
| GossipOutcomes.MaintainDoes | examples/python-client/gossipsub/gossipsub.py:266-289 | members that are no peers are dropped; a small mesh grows to D or to all peers, with one GRAFT to each node added; a large one shrinks to D, with one PRUNE to each node removed; nobody else is told anything |
| GossipOutcomes.GossipDoes | examples/python-client/gossipsub/gossipsub.py:291-306 | one IHAVE of as many seen ids as allowed, the same to each, to as many peers outside the mesh as allowed |
| GossipOutcomes.GraftIsMutual | examples/python-client/gossipsub/gossipsub.py:220-280 | over every run without losses: a peer that maintenance grafts, once the GRAFT is no longer in flight, has put the grafter into its own mesh, or that mesh was full and it sent a PRUNE, or it is no subscriber |
| GossipNetwork.IntegrityAlways | examples/python-client/gossipsub/gossipsub.py:112-135 | over every run each cached or in-flight copy has the published topic, origin and data; seen ids equal cache keys and hop keys equal received ids |
| GossipNetwork.IntegrityStep | examples/python-client/gossipsub/gossipsub.py:103-255 | every single action, new peers and subscriptions, losses and heartbeats included, keeps that integrity |
| GossipNetwork.PublishedIdIsNew | examples/python-client/gossipsub/gossipsub.py:112-118 | in a reachable network a publication never reuses an id |
| GossipCoverage.Coverage | examples/python-client/gossipsub/gossipsub.py:112-218 | lossless, fixed peers, subscriptions and meshes, gossip rounds within the 64-id limit, any delivery order: once nothing is in flight every subscriber on a path from the publisher has the message, first to its mesh or, when that is empty, to any peer, then along mesh edges |
| GossipCoverage.PlainCoverage | examples/python-client/gossipsub/gossipsub.py:112-255 | the same for runs of publications and deliveries, with no side condition |
| GossipCoverage.EveryHandOverArrives | examples/python-client/gossipsub/gossipsub.py:194-255 | with changing peers, subscriptions and meshes too: at rest every subscriber a node ever turned to with a message has it, though only one got it eagerly |
| GossipCoverage.DeliveringStep | examples/python-client/gossipsub/gossipsub.py:187-255 | each lossless action keeps every obligation seen, in flight, announced, or requested from a holder |
| GossipDrain.DeliveryLowersPotential | examples/python-client/gossipsub/gossipsub.py:187-255 | every delivery strictly lowers a numeric potential of unseen pairs, unasked pairs and packet weights |
| GossipDrain.DrainBound | examples/python-client/gossipsub/gossipsub.py:187-255 | no run of deliveries is longer than the potential it starts from |
| GossipDrain.GoesQuiet | examples/python-client/gossipsub/gossipsub.py:187-255 | from every reachable network deliveries alone lead to rest |
| GossipTraffic.MessageComplexity | examples/python-client/gossipsub/gossipsub.py:130-218 | full copies of a message ever sent are at most the fan-out plus one per receiver plus one per requester, hence linear |
| GossipTraffic.RequestedAtMostOnce | examples/python-client/gossipsub/gossipsub.py:241-248 | over every run a node asks for an id at most once |
| GossipTraffic.NeverAskedAgain | examples/python-client/gossipsub/gossipsub.py:241-248 | a pending id is never asked for again |
| GossipTraffic.AskedIffWithinLimit | examples/python-client/gossipsub/gossipsub.py:244-248 | the k-th wanted id is asked for exactly when k is below 64 |
| GossipTraffic.BeyondLimitNeverAsked | examples/python-client/gossipsub/gossipsub.py:244-248 | an id cut off by the limit is never asked for in any continuation |
| GossipHops.HopBound | examples/python-client/gossipsub/gossipsub.py:196-207 | any recorded hop count is below the number of receivers |
| GossipHops.HopsAlways | examples/python-client/gossipsub/gossipsub.py:196-207 | a hop count h above 0 always has another node that recorded h - 1 |
| GossipMesh.MeshesAlwaysBounded | examples/python-client/gossipsub/gossipsub.py:220-289 | with ordered degrees no mesh ever exceeds D_high under any mix of actions |
| GossipMesh.NeverPrunesExcess | examples/python-client/gossipsub/gossipsub.py:281-289 | the prune-excess branch is unreachable |
| GossipMesh.MaintainOutcome | examples/python-client/gossipsub/gossipsub.py:266-280 | after maintenance the mesh is live, at least min(D_low, peers), and topped up to min(D, peers) when it was small |
| EventStore.LocalEventStore.Has | platform/daemon/state.py:48-52 | found exactly when some stored envelope has the id |
| EventStore.LocalEventStore.Append | platform/daemon/state.py:34-43 | the log gains the envelope unless its id is there; the record returned is the stored one |
| EventStore.LocalEventStore.ImportMany | platform/daemon/state.py:45-46 | appends in order, ids deduplicated |
| EventStore.LocalEventStore.LatestNodeAdvertisementEnvelopes | platform/daemon/state.py:70-77 | the loop computes the latest-advertisement view |
| EventStore.LocalEventStore.Settlements | platform/daemon/state.py:91-101 | the loop and the sort compute the settlement view |
| EventStore.LocalEventStore.SettlementByReceipt | platform/daemon/state.py:103-107 | the first settlement of the view with that receipt |
| EventStore.LocalEventStore.Jobs | platform/daemon/state.py:205-253 | the one-pass group-by computes the per-job list view |
| EventStore.LocalEventStore.Report | platform/daemon/state.py:255-332 | the filtering loops compute the detail view |
| EventLog.ImportExtends | platform/daemon/state.py:34-46 | importing only extends the log, keeps ids unique, and is idempotent |
| EventLog.ImportedFrom | platform/daemon/state.py:34-46 | importing keeps the old log as a beginning, leaves every event of the envelopes held, and adds nothing but envelopes that were given |
| EventLog.FedElements | platform/daemon/state.py:34-46 | a store fed identified envelopes in any order and repetition holds exactly those |
| EventLog.LatestAdsAre | platform/daemon/state.py:70-77 | each peer's entry is the first of its newest advertisements, and every advertised peer has one |
| EventLog.AdsInOrder | platform/daemon/state.py:70-77 | the latest advertisements are listed in the order in which their peers first advertised |
| EventLog.ReceiptsInOrder | platform/daemon/service.py:504-521 | the receipts of either kind are all those of the log, in its order |
| EventLog.ConvergesIff | platform/daemon/state.py:70-77 | all stores fed a set agree on a peer's latest advertisement if and only if its newest one is unique |
| SettlementFold.FoldIsLatest | platform/daemon/state.py:91-99 | the fold keeps, per settlement, the last of its newest records |
| SettlementFold.LastWriteWinsIff | platform/daemon/state.py:96-99 | the fold shows the last written record if and only if no earlier one carries a later time |
| SettlementFold.ViewLists | platform/daemon/state.py:100-101 | the view lists every settlement once, newest first |
| SettlementFold.ViewInOrder | platform/daemon/state.py:91-101 | of any two settlements shown the earlier one was updated no earlier, and equal times come in the order of the first records |
| SettlementFold.FoldInOrder | platform/daemon/state.py:91-99 | the folded settlements are in the order of their first records |
| PyDict.SortedIsStable | platform/daemon/state.py:100-100 | the sort keeps tied items in their order |
| PyDict.SortedKeepsOrder | platform/daemon/state.py:100-100 | of two items the one listed first stays first unless the order says otherwise |
| SettlementFold.LookupsAgree | platform/daemon/state.py:103-107 | first match and last match agree when no receipt has two settlements |
| SettlementFold.LookupsAre | platform/daemon/state.py:103-107 | settlement_by_receipt is the first entry of the view with that receipt, the report joins the last one |
| JobViews.ListViewIs | platform/daemon/state.py:205-250 | the list holds one entry per requested job, and that entry |
| JobViews.ListViewSorted | platform/daemon/state.py:251-253 | the list is in the order of the texts of the submission times, then of the ids, descending |
| JobViews.ListInOrder | platform/daemon/state.py:246-253 | two listed jobs: later local time first, at equal local times the larger offset text first, at equal times the later id first |
| PyDict.TextLeIff | platform/daemon/state.py:249-253 | one id comes no later than another if and only if it is a beginning of it or has the smaller character where they first differ |
| JobViews.NewestFirstIff | platform/daemon/state.py:246-253 | the list is newest first whatever is logged if and only if all requests are written in one time zone |
| JobViews.ViewsAgree | platform/daemon/state.py:205-332 | a report exists exactly when the list shows the job, with equal status, planner mode and receipt counts |
| JobFacts.ListedIff | platform/daemon/state.py:205-232 | a job is listed if and only if a request for it is logged |
| JobFacts.ListedRequest | platform/daemon/state.py:212-216 | task, lease and submission time of a listed job are those of the last logged request for it |
| JobFacts.ListedPlan | platform/daemon/state.py:223-246 | planner mode and regions are those of the last logged plan for the job, or "deterministic" and none |
| JobFacts.ListedReceipts | platform/daemon/state.py:231-245 | a listed job is COMPLETED if and only if an execution receipt for it is logged; the two counts are the numbers of log positions that hold its receipts |
| JobFacts.ReportIs | platform/daemon/state.py:255-332 | the report of a requested job: COMPLETED if and only if an execution receipt for it is logged, one row per receipt in the order of the log, last request, mode of the last plan or "deterministic" |
| SettlementSafety.SafeAlways | platform/daemon/service.py:753-834 | the safety invariant holds in every reachable state, stale snapshots, interleaved requests, settlements for unlogged receipts and passes cut short by an exception included |
| SettlementSafety.SettledFollows | platform/daemon/service.py:787-834 | each record the reconciler writes may follow the one it read: TRIGGERED exactly with the hash the chain returned, CONFIRMED exactly when mined, FAILED exactly with a reason; a broadcast sets hash, amount paid and the configured network and currency, anything else keeps them; the time is the current one; same party |
| SettlementSafety.WantedIsNew | platform/daemon/service.py:626-633 | a requested settlement is written only for a receipt no record names |
| SettlementSafety.OneIdPerReceipt | platform/daemon/service.py:574-624 | a receipt has one settlement id and an id one receipt |
| SettlementOrigin.BuiltIff | platform/daemon/service.py:574-624 | a settlement is built for a receipt if and only if it succeeded, was quoted a positive price and names a wallet, and it is PENDING, for that price, on the configured network, in the first nonempty of quoted currency, configured currency and "0G", with role and task of the receipt or of the last request for it |
| SettlementOrigin.FirstRecordIs | platform/daemon/service.py:574-633 | over every run the first record of each receipt is such a settlement of a receipt logged or read from a reply |
| SettlementOrigin.NetworkAlways | platform/daemon/service.py:592-592 | over every run all records are on the configured network |
| SettlementOrigin.WalletIff | platform/daemon/service.py:670-676 | the local check passes exactly 0x or 0X with forty hexadecimal digits, white space around it |
| SettlementOrigin.BuiltIsBroadcastableIff | platform/daemon/service.py:661-690 | with an RPC, a key and a positive amount, what a payable receipt brings about passes the local checks if and only if its wallet is well formed |
| SettlementOrigin.PaidIffGoodWallet | platform/daemon/service.py:753-834 | with those settings, two answered passes finish exactly the settlements that were already tried or have a well-formed wallet |
| SettlementOrigin.SweepSettles | platform/daemon/service.py:754-773 | phase one settles every logged receipt that succeeded with a positive quote and a wallet |
| SettlementOrigin.WalletIsAsked | platform/daemon/service.py:574-633 | over every run a record pays to a wallet that a receipt of that name asked for |
| SettlementOrigin.GoodReceiptIsPaid | platform/daemon/service.py:753-834 | from the receipt to the money: with those settings, a payable logged receipt is CONFIRMED, or FAILED with a hash, after two answered passes, when every receipt of its name asks for a well-formed wallet |
| SettlementTheorems.OneHashPerReceipt | platform/daemon/service.py:753-834 | over every run at most one hash recorded and one payment made per receipt; PENDING has no hash, TRIGGERED and CONFIRMED have one |
| SettlementTheorems.FinalIsAbsorbing | platform/daemon/service.py:777-785 | CONFIRMED, and FAILED with a hash, are never left |
| SettlementTheorems.ValueConserved | platform/daemon/service.py:787-803 | value taken by the chain is the fixed amount times the settlements showing a hash, plus the one about to be written |
| SettlementTheorems.ProvenanceAlways | platform/daemon/service.py:574-633 | every record traces to a receipt that was logged, or read from a worker's reply, with success, a positive quote and a wallet |
| SettlementTheorems.LoggedProvenanceIff | platform/daemon/service.py:1405-1415 | over every run each record traces to a logged receipt at all times if and only if every reply that brought a settlement about was typed as an execution receipt under a new event id, or a receipt earning that settlement was logged before |
| SettlementTheorems.ReplyLoggedIff | platform/daemon/service.py:1407-1409 | the receipt read from a reply ends up in the log if and only if it was there, or the reply is typed as an execution receipt and its event id is new |
| SettlementTheorems.ReplyAppends | platform/daemon/service.py:1406-1412 | a reply is appended unless its event id is logged, then its diagnosis likewise |
| SettlementTheorems.ReusedIdIsUnlogged | platform/daemon/service.py:1406-1415 | a receipt signed under the event id of the request it answers: the store drops it, the settlement is written, and no logged receipt earns it |
| SettlementTheorems.ForeignSettlementSafeIff | platform/daemon/state.py:34-46 | a settlement event from a peer leaves the state safe between passes if and only if it is well formed, may follow each record of its receipt, and any hash in it is one the chain returned for that receipt |
| SettlementTheorems.PartyNeverChanges | platform/daemon/service.py:787-834 | who is paid for what never changes across a receipt's records |
| SettlementTheorems.ReportAgreesWithLookup | platform/daemon/state.py:292-310 | in reachable states the report's join equals settlement_by_receipt, for every results row and every verification row |
| SettlementTheorems.ViewShowsLastWrite | platform/daemon/state.py:91-101 | in reachable states the view shows each settlement's last written record |
| SettlementProgress.RankNeverRises | platform/daemon/service.py:774-834 | whatever the chain answers, no settlement moves away from its final state |
| SettlementProgress.WalkLowersRanks | platform/daemon/service.py:774-834 | when the calls it makes are answered, a walk takes every settlement of its snapshot exactly one step nearer its final state, except those the chain cannot be asked about, which stay; whatever interleaves |
| SettlementProgress.StuckIsForever | platform/daemon/service.py:661-690 | over every run a settlement the chain cannot be asked about stays so, and no other one becomes so |
| SettlementProgress.EveryPassRetries | platform/daemon/service.py:781-812 | every pass writes another FAILED record for each settlement of its snapshot whose payment fails the local checks, whatever the chain says |
| SettlementProgress.TwoPassesSettleIff | platform/daemon/service.py:753-834 | after two answered passes a settlement of the first snapshot is CONFIRMED or FAILED with a hash if and only if it was not stuck: one still to be paid, if and only if its payment passes the local checks |
| SettlementProgress.SweepIsComplete | platform/daemon/service.py:754-773 | phase one leaves no receipt that still calls for a settlement |
| SettlementProgress.PassSilentIff | platform/daemon/service.py:753-834 | an undisturbed pass appends nothing if and only if all receipts were requested, nothing was left to broadcast and no poll was answered |
| SettlementProgress.ThirdPassSilentIff | platform/daemon/service.py:753-834 | with answered calls and nothing new, two passes finish every settlement if and only if none is stuck, and a third appends nothing if and only if no payment fails the local checks |
| SettlementProgress.MalformedWalletIsRefused | platform/daemon/service.py:574-578 | a payable receipt with a malformed wallet still gets a settlement, whose payment fails the local checks |
| SettlementProgress.AbcNeverSettles | platform/daemon/service.py:574-690 | the wallet "abc": the first pass settles and refuses it, and it is stuck for good |
| SettlementDaemon.DaemonRuntime.StoreSettlement | platform/daemon/service.py:570-572 | exactly one envelope with a fresh id is appended |
| SettlementDaemon.DaemonRuntime.RequestSettlement | platform/daemon/service.py:626-633 | for a receipt, logged or not, the settlement is written unless the receipt has one; returns the existing settlement or the one written |
| SettlementDaemon.DaemonRuntime.AcceptReply | platform/daemon/service.py:1405-1415 | what a job requester does with a worker's reply is one Receive step; a reply that does not verify changes nothing, one that cannot be parsed is only appended |
| SettlementDaemon.DaemonRuntime.BroadcastNativePayment | platform/daemon/service.py:661-729 | local refusals, each with its reason, and the chain's answer as machine steps; a hash is returned exactly when the chain took the payment |
| SettlementDaemon.DaemonRuntime.CheckTxReceipt | platform/daemon/service.py:731-751 | the polled status as the machine's reply, or an exception with no reply held |
| SettlementDaemon.DaemonRuntime.ReconcileBroadcast | platform/daemon/service.py:787-812 | what is written after a broadcast is the machine's Finish step |
| SettlementDaemon.DaemonRuntime.ReconcilePoll | platform/daemon/service.py:813-834 | what is written after a poll is the machine's Finish step |
| SettlementDaemon.DaemonRuntime.VerificationRequests | platform/daemon/service.py:754-757 | the dictionary holds the last request per verification id |
| SettlementDaemon.DaemonRuntime.Visit | platform/daemon/service.py:759-773 | visiting a receipt is one request step for it |
| SettlementDaemon.DaemonRuntime.ReconcilePendingSettlements | platform/daemon/service.py:753-834 | an execution of the method is exactly one pass of the progress theorems, or, when it raises, a pass cut short; either way a run that keeps safety |
| Attestations.DaemonRuntime.BackfillAttestations | platform/daemon/service.py:499-524 | appends exactly the attestations the log calls for and lacks, in order, with this daemon as signer |
| Attestations.FillIs | platform/daemon/service.py:504-521 | the ids added are exactly those called for and missing, each once |
| Attestations.FillAttests | platform/daemon/service.py:453-521 | each attestation added names its receipt and job, is favourable exactly when the execution succeeded or the verifier found no mismatch, and has as subject the worker, or the verifier when no primary worker is known |
| Attestations.AttestedIff | platform/daemon/service.py:447-451 | an attestation id counts as there exactly when an attestation event with it is logged |
| Attestations.BackfillCompletes | platform/daemon/service.py:499-524 | afterwards every receipt is attested, ids stay unique, and a second backfill adds nothing |
| PeerLists.SeedPeersAre | platform/daemon/service.py:1308-1317 | the seed peers are the known peers other than this node, once each |
| PeerLists.SeedPeersInOrder | platform/daemon/service.py:1308-1317 | they are in the order in which the three lists first name them |
| AdvertisementFlood.RelayedAtMostOnce | platform/daemon/service.py:927-955 | over every run a node relays an event id at most once, never if it held it before |
| AdvertisementFlood.AimedAlways | platform/daemon/service.py:945-955 | no advertisement is ever sent to its signer or to its sender |
| AdvertisementFlood.NewPacketsAre | platform/daemon/service.py:927-970 | exactly which copies an announcement or a first reception sends |
| AdvertisementFlood.StoresAre | platform/daemon/service.py:927-970 | the receiving store gains exactly that envelope, unless it does not verify or its event is there; every other store stays |
| AdvertisementReach.HoldersExactly | platform/daemon/service.py:927-970 | at rest, with imports anywhere, a node holds the event if and only if it announced or imported it or is a peer of a node that announced or relayed it |
| AdvertisementReach.FloodReachesExactly | platform/daemon/service.py:927-970 | when the event is imported only where it is held, at rest a node holds it if and only if a path of peers leads to it from the announcer |
| AdvertisementImports.SurvivesImportsIff | platform/daemon/service.py:236-243 | told before the flood: on every graph all lossless floods that import the event nowhere but at given nodes reach everyone reachable if and only if each can be reached by a path whose inner nodes are none of them |
| AdvertisementFlood.DrainBound | platform/daemon/service.py:927-955 | the flood terminates within an explicit number of deliveries |
| AdvertisementReach.ImportStopsFlood | platform/daemon/service.py:236-243 | a concrete network where an import that comes too early stops a flood although nothing is lost |
| DiscoverFlood.SoundAlways | platform/daemon/service.py:273-292 | depth and forwards add up to the depth asked, never below 1; no copy is addressed to its originator; handlers lie within the depth |
| DiscoverFlood.HandlingSends | platform/daemon/service.py:256-293 | exactly which packets handling a request sends |
| DiscoverFlood.UnaddressedSends | platform/daemon/service.py:256-293 | a request that names nobody to reply to is answered by nobody and forwarded to every peer but its sender |
| DiscoverFlood.AnsweredAtMostOnce | platform/daemon/service.py:256-272 | over every run a node answers a request id at most once, exactly once if it comes to handle it |
| DiscoverFlood.AnswersComeFromWithin | platform/daemon/service.py:255-293 | answers come once each from nodes other than the originator within the depth |
| DiscoverFlood.AnswerIncludesSelf | platform/daemon/service.py:259-269 | an answer always lists an advertisement of the answering node |
| DiscoverFlood.DrainBound | platform/daemon/service.py:255-293 | the flood terminates within an explicit number of deliveries |
| DiscoverReach.AskStarts | platform/daemon/service.py:1285-1304 | after asking, each peer has one copy coming, under an id nobody has seen, asked to the given depth or to 1 |
| DiscoverReach.DepthLeft | platform/daemon/service.py:273-292 | while a node is unseen no handled copy has used up a depth of at least the number of nodes less one |
| DiscoverReach.DeepEnoughReachesAll | platform/daemon/service.py:255-293 | asked to depth at least the number of nodes less one, without losses, every node a path leads to handles the request and answers exactly once |
| DiscoverDepth.ReachesAllIff | platform/daemon/service.py:255-293 | for every number of nodes and every depth: all lossless runs on all networks of that size reach every open path if and only if the depth is at least the number of nodes less one |
| DiscoverDepth.DrainCopies | platform/daemon/service.py:255-293 | from every sound network a request's flood can be brought to its end without losing a copy |
| DiscoverReach.OneLessMissesNode | platform/daemon/service.py:255-293 | an example with five nodes and depth 3: a lossless run misses a node that lies within the depth, on an open path |
| DiscoverAnswers.ResponseDoes | platform/daemon/service.py:238-243 | an answer whose envelopes all verify: each of their events is held, the old log is a beginning of the new one, ids stay unique, nothing else is added and nothing is sent; when one does not verify nothing changes |
| DiscoverAnswers.RequestDoes | platform/daemon/service.py:255-260 | a repeated request changes nothing; a new one is noted and the own advertisement stored |
| DiscoverAnswers.OriginatorLearns | platform/daemon/service.py:238-293 | over every run: once the answers to a request are delivered, whoever asked holds an advertisement event of every node that handled it |
| DiscoverAnswers.DiscoveryFindsAll | platform/daemon/service.py:236-293 | asked to depth at least the number of nodes less one, without losses: at rest whoever asked holds an advertisement event of every node on an open path from the peer it asked |
| DiscoveryDaemon.DaemonRuntime.StoreAndRelayAdvertisement | platform/daemon/service.py:927-955 | the store and the packets are those of the flood's step; reports whether the event was new |
| DiscoveryDaemon.DaemonRuntime.AnnounceCurrentAdvertisement | platform/daemon/service.py:957-970 | stores the advertisement and sends it to every seed peer |
| DiscoveryDaemon.DaemonRuntime.HandleDiscoverRequest | platform/daemon/service.py:255-293 | the seen set, the store and the packets are those of the flood's step |
| DiscoveryDaemon.DaemonRuntime.HandleDiscoverResponse | platform/daemon/service.py:238-243 | imports all envelopes or, when one does not verify, none |
| DiscoveryDaemon.DaemonRuntime.DiscoverRemoteNodes | platform/daemon/service.py:1285-1304 | one request per seed peer, each under an id of its own, depth at least 1 |
| Framing.RoundTripIff | api/tcp_helpers.go:15-42 | a reader gets back what a writer framed if and only if the data is within the limit |
| Framing.FrameIs | api/tcp_helpers.go:15-25 | a frame is the length as four bytes, most significant first, modulo 2 to the 32, and then the data |
| Framing.DecodesIff | internal/tcp/listen/listener.go:268-297 | the read loop returns exactly the messages whose frames the stream begins with, and exactly that tail |
| Framing.PrefixDecodes | internal/tcp/listen/listener.go:268-297 | on any byte prefix exactly the complete frames are recovered |
| Framing.WholeIs | internal/tcp/listen/listener.go:268-297 | the complete frames of a prefix are all that fit in it, and no more |
| Framing.StopsAtOversize | internal/tcp/listen/listener.go:280-285 | reading stops at the first length over the limit, whatever follows |
| Framing.WriteLengthPrefixed | api/tcp_helpers.go:15-25 | the frame, or as much of it as the connection takes, is written |
| Framing.ReadLengthPrefixed | api/tcp_helpers.go:28-42 | one frame is read, with its three ways to fail |
| ReceiveQueue.AccountedAlways | api/recv.go:24-48 | pushed = popped + lost + queued, and pops are a subsequence of pushes in order, under any interleaving |
| ReceiveQueue.BurstKeepsLatest | api/recv.go:24-31 | a burst leaves the latest `capacity` of what was there and what came |
| ReceiveQueue.ReceivedQueue.Push | api/recv.go:24-31 | drops the oldest item when full, then appends |
| ReceiveQueue.ReceivedQueue.Pop | api/recv.go:33-42 | returns and removes the oldest item, if any |
| ReceiveQueue.ReceivedQueue.Reset | api/recv.go:44-48 | empties the queue |
| ReceiveQueue.ReceivedQueue.Len | api/recv.go:50-54 | pushed less popped and lost |
| ReceiveQueue.ReceivedQueue.Snapshot | api/recv.go:56-62 | the latest pushes still queued, in order |
| Listener.ClaimedByIs | internal/tcp/listen/listener.go:300-314 | the claiming stream is the first that accepts, and there is none exactly when none accepts |
| Listener.DispatchedInTurn | internal/tcp/listen/listener.go:299-322 | each message goes, in its turn, to the first accepting stream or, when none accepts, to the queue |
| Listener.RespondedInTurn | internal/tcp/listen/listener.go:297-314 | the bytes written for each message are the frame of what the first accepting stream answered, or nothing |
| Listener.HandleTCPConn | internal/tcp/listen/listener.go:261-324 | forwards made, this connection's pushes and bytes written are those of dispatching the decoded messages, whatever other goroutines do with the queue meanwhile |
| Listener.Offer | internal/tcp/listen/listener.go:297-314 | the stream loop forwards to the first stream that accepts, and answers with what it returned |
| Listener.Dispatch | internal/tcp/listen/listener.go:299-322 | one message is forwarded once or pushed once |
| Listener.ReceiverGetsWholeFrames | internal/tcp/listen/listener.go:268-322 | when a connection breaks, exactly the messages that arrived whole are dispatched |
| Convergecast.PositionIs | examples/python-client/convergecast.py:25-44 | parent and children are read off the last entry of each key; an empty parent key makes a root |
| Convergecast.CollectIs | examples/python-client/convergecast.py:73-107 | received and pending partition the children; nothing is aggregated that was not offered |
| Convergecast.MessageIs | examples/python-client/convergecast.py:73-104 | a convergecast message of this session from an awaited child merges its data over what is there and settles that child; any other message changes nothing |
| Convergecast.ForeignIgnored | examples/python-client/convergecast.py:79-98 | inserting or removing, anywhere in the inbox, an undecodable message or one of another type or session changes neither what is returned, nor what is sent, nor whether it raises |
| Convergecast.NothingPending | examples/python-client/convergecast.py:79-104 | once nothing is pending further messages change nothing |
| Convergecast.RunConvergecast | examples/python-client/convergecast.py:47-136 | the loop computes the collected data and sends it to the parent exactly when there is one; it raises, sending nothing, exactly when a message that is no map comes while a child is awaited |
| Convergecast.ResultIsHeld | examples/python-client/convergecast.py:73-136 | whatever a node returns, even after a timeout, some node below it holds |
| Convergecast.ResultIsUnionIff | examples/python-client/convergecast.py:73-136 | when all succeed the result is exactly the union of the subtree's data if and only if no two nodes give a key different values |
| Convergecast.OrderDoesNotMatter | examples/python-client/convergecast.py:73-136 | two complete runs of one tree return the same data, however messages were ordered |

## Left out

- The heartbeat timer and its loop over subscriptions (`gossipsub.py:137-152, 261-264`): the network takes its two halves, maintenance and gossip of one topic, as separate actions in any order.
- JSON, msgpack and base64 decoding: messages arrive as what they decode to, and fields have the types the program expects.
- EventStore.LocalEventStore.Report: leaves out the diagnoses, the summaries and the planner's rationale of a job report, which no other view shares.
- Gossip statistics beyond the counters kept in the node state.
- Signatures, key handling and canonical JSON: which envelopes verify is a parameter.
- HTTP, the Ethereum RPC, topology lookups and process start-up: replaced by parameters or by nondeterministic answers.
- Lost or ambiguous broadcast replies and crashes between a broadcast and the write that records it: the claims are about hashes the chain returned.
- The token address, notes and creation times of settlements and attestations, which no view reads back.
- Settlement and attestation ids are constructors over receipt ids, not the strings `execution:...` and `verification:...`; a receipt id containing such a prefix cannot collide in either form.
- Floating point: amounts are integers.
- Leases, known-node liveness, pricing, planning, reporting and diagnosis: one-branch facts.
- The `store_attestation` path taken while a job runs; the backfill at start-up is modelled.
- Exceptions raised while a receipt or a record is parsed: the log holds parsed payloads, so a pass is cut short only at a poll.
- The one daemon class is modelled as three, for settlement, attestations and discovery, each with a store of its own; what the others append to the shared log is covered where it matters, at every await point of a reconcile pass.
- Which nodes a discover flood misses when asked to less depth than `DiscoverDepth.ReachesAllIff` calls for: it depends on how the copies race.
- What a stream's validation and backend do: the two are parameters, as is the sender's identity.
- Read deadlines: the bytes a connection delivers are those that arrive in time.
- A queue capacity below 1, with which the original would fail on its first push.
- Browser agent, MCP plumbing, dashboard, scripts and documentation.
