/** Progress of settlement: what one reconcile pass does to every settlement, how many passes finish them,
    and when a pass writes nothing. */
module SettlementProgress {
  import opened Collections
  import opened PyDict
  import opened EventLog
  import opened SettlementFold
  import opened SettlementMachine
  import opened SettlementSafety
  import opened SettlementTheorems

  /** How many answered passes a settlement still needs. */
  function Rank(s: SettlementRecord): nat {
    if NeedsBroadcast(s) then 2 else if NeedsPoll(s) then 1 else 0
  }

  /** The rank of the last record written for the receipt; 0 when there is none. */
  function RankOf(trail: Trail, receipt: Key): (rank: nat)
    ensures rank <= 2
  {
    if trail == [] then 0
    else if trail[|trail| - 1].receiptId == receipt then Rank(trail[|trail| - 1])
    else RankOf(trail[..|trail| - 1], receipt)
  }

  /** Whether the last record written for the receipt is stuck. */
  predicate StuckAt(c: Settings, trail: Trail, receipt: Key) {
    trail != [] &&
    if trail[|trail| - 1].receiptId == receipt then Stuck(c, trail[|trail| - 1])
    else StuckAt(c, trail[..|trail| - 1], receipt)
  }

  function Lowered(rank: nat): nat {
    if rank == 0 then 0 else rank - 1
  }

  ghost predicate HasSettlement(trail: Trail, receipt: Key) {
    exists r :: r in trail && r.receiptId == receipt
  }

  ghost predicate AtRest(sys: Sys) {
    sys.walk == [] && sys.reply == None
  }

  // ---- reconcile passes ----

  /** The receipts phase one visits: the execution receipts, then the verification receipts. */
  function Visited(log: Log): seq<Envelope> {
    ExecutionReceipts(log) + VerificationReceipts(log)
  }

  /** Phase one, which never waits: one request per receipt, in order. */
  ghost predicate IsSweep(visited: seq<Envelope>, sweep: seq<Action>) {
    |sweep| == |visited| && forall i :: 0 <= i < |sweep| ==> sweep[i].Request? && sweep[i].e == visited[i]
  }

  /** A pass from `sys`: the sweep ends at `ready`, where the snapshot is taken; `steps` walks it, with
      whatever other coroutines do in between. */
  datatype Pass = Pass(sweep: seq<Action>, ready: Sys, steps: seq<Action>)

  /** The actions of a pass that is cut short. */
  function CutShort(p: Pass): seq<Action> {
    p.sweep + ([Start] + p.steps + [Abandon])
  }

  ghost predicate IsPass(c: Settings, sys: Sys, p: Pass, end: Sys) {
    && AtRest(sys) && IsSweep(Visited(sys.log), p.sweep) && Runs(c, sys, p.sweep, p.ready)
    && IsWalk(c, p.ready, p.steps, end)
  }

  /** A step of a walk that is under way and is not cut short. */
  predicate Carries(a: Action) {
    !a.Start? && !a.Abandon?
  }

  ghost predicate Carried(steps: seq<Action>) {
    forall a :: a in steps ==> Carries(a)
  }

  ghost predicate IsWalk(c: Settings, ready: Sys, steps: seq<Action>, end: Sys) {
    && AtRest(ready) && AtRest(end) && Carried(steps) && Runs(c, ready, [Start] + steps, end)
  }

  /** The chain answers: it accepts a payment it is asked to make and reports a transaction it is asked about. */
  predicate IsAnswer(c: Settings, s: SettlementRecord, o: Outcome) {
    && (NeedsBroadcast(s) && Broadcastable(c, s) ==> o.Sent?)
    && (NeedsPoll(s) && c.rpcConfigured ==> o.Mined? || o.Reverted?)
  }

  ghost predicate Answered(c: Settings, sys: Sys, steps: seq<Action>)
    decreases |steps|
  {
    steps != [] ==>
      && Enabled(c, sys, steps[0])
      && (steps[0].Call? ==> IsAnswer(c, sys.walk[0], steps[0].outcome))
      && Answered(c, Apply(c, sys, steps[0]), steps[1..])
  }

  /** Every call the walk makes to the chain is answered. */
  ghost predicate AnsweredWalk(c: Settings, ready: Sys, steps: seq<Action>) {
    Enabled(c, ready, Start) && Answered(c, Apply(c, ready, Start), steps)
  }

  /** The log may gain a receipt or a request. */
  predicate Brings(a: Action) {
    a.Arrive? || a.Receive?
  }

  /** Nothing else happens during the walk. */
  ghost predicate Alone(steps: seq<Action>) {
    forall a :: a in steps ==> !Brings(a) && !a.Request?
  }

  // ---- ranks ----

  lemma RankAppend(trail: Trail, r: SettlementRecord, receipt: Key)
    ensures RankOf(trail + [r], receipt) == if r.receiptId == receipt then Rank(r) else RankOf(trail, receipt)
  {
    assert (trail + [r])[..|trail|] == trail;
  }

  lemma {:induction false} RankIsCurrent(c: Settings, trail: Trail, s: SettlementRecord, i: nat)
    requires CurrentAt(trail, s, i)
    ensures RankOf(trail, s.receiptId) == Rank(s) && StuckAt(c, trail, s.receiptId) == Stuck(c, s)
  {
    if i < |trail| - 1 {
      RankIsCurrent(c, trail[..|trail| - 1], s, i);
    }
  }

  lemma RankOfCurrent(c: Settings, trail: Trail, s: SettlementRecord)
    requires Current(trail, s)
    ensures RankOf(trail, s.receiptId) == Rank(s) && StuckAt(c, trail, s.receiptId) == Stuck(c, s)
  {
    var i: nat :| CurrentAt(trail, s, i);
    RankIsCurrent(c, trail, s, i);
  }

  lemma StuckAppend(c: Settings, trail: Trail, r: SettlementRecord, receipt: Key)
    ensures StuckAt(c, trail + [r], receipt) == if r.receiptId == receipt then Stuck(c, r)
              else StuckAt(c, trail, receipt)
  {
    assert (trail + [r])[..|trail|] == trail;
  }

  lemma {:induction false} CurrentExists(trail: Trail, receipt: Key) returns (i: nat)
    requires HasSettlement(trail, receipt)
    ensures i < |trail| && trail[i].receiptId == receipt && CurrentAt(trail, trail[i], i)
  {
    var init, r := trail[..|trail| - 1], trail[|trail| - 1];
    if r.receiptId == receipt {
      i := |trail| - 1;
    } else {
      assert trail == init + [r];
      i := CurrentExists(init, receipt);
    }
  }

  lemma RankZeroIffFinal(c: Settings, clock: Time, s: SettlementRecord)
    requires RecordOk(c, clock, s)
    ensures Rank(s) == 0 <==> Final(s)
  {
  }

  /** Over any run, whatever the chain answers, no settlement ever moves away from its final state. */
  lemma RankNeverRises(c: Settings, sys: Sys, actions: seq<Action>, end: Sys, receipt: Key)
    requires Safe(c, sys) && Runs(c, sys, actions, end) && HasSettlement(Written(sys), receipt)
    ensures RankOf(Written(end), receipt) <= RankOf(Written(sys), receipt)
  {
    SafeAlways(c, sys, actions, end);
    RunExtends(c, sys, actions, end);
    var i := CurrentExists(Written(sys), receipt);
    RankIsCurrent(c, Written(sys), Written(sys)[i], i);
    assert Written(end)[i] in Written(end);
    var j := CurrentExists(Written(end), receipt);
    RankIsCurrent(c, Written(end), Written(end)[j], j);
    LaterRank(c, end.clock, Written(end), i, j);
  }

  lemma LaterRank(c: Settings, clock: Time, trail: Trail, i: nat, j: nat)
    requires TrailOk(c, clock, trail) && i < |trail| && j < |trail| && CurrentAt(trail, trail[j], j)
    requires trail[i].receiptId == trail[j].receiptId
    ensures Rank(trail[j]) <= Rank(trail[i])
  {
    assert trail[i] in trail && trail[j] in trail;
    assert RecordOk(c, clock, trail[i]) && RecordOk(c, clock, trail[j]);
    assert i < j ==> Follows(trail[i], trail[j]);
  }

  // ---- settlements the chain is never asked about ----

  lemma SettledStuck(c: Settings, clock: Time, s: SettlementRecord, o: Outcome, now: Time)
    requires RecordOk(c, clock, s) && Possible(c, s, o) && !o.Unknown?
    ensures Stuck(c, Settled(c, s, o, now).value) == Stuck(c, s)
  {
  }

  /** A request leaves the settlements there are as they are. */
  lemma AskedKeeps(c: Settings, sys: Sys, e: Envelope, now: Time, id: Key, signer: Key, x: Key)
    requires Safe(c, sys) && now >= sys.clock && HasSettlement(Written(sys), x)
    ensures var next := Asked(c, sys, e, now, id, signer);
            && HasSettlement(Written(next), x) && RankOf(Written(next), x) == RankOf(Written(sys), x)
            && StuckAt(c, Written(next), x) == StuckAt(c, Written(sys), x)
  {
    var w := Wanted(c, sys.log, e, now);
    StoredTrail(sys.log, w, now, id, signer);
    HasStays(Written(sys), Written(Asked(c, sys, e, now, id, signer)), x);
    if w.Some? {
      WantedIsNew(c, sys, e, now);
      RankAppend(Written(sys), w.value, x);
      StuckAppend(c, Written(sys), w.value, x);
    }
  }

  lemma RequestKeeps(c: Settings, sys: Sys, a: Action, x: Key)
    requires Safe(c, sys) && Enabled(c, sys, a) && (a.Request? || a.Receive?) && HasSettlement(Written(sys), x)
    ensures HasSettlement(Written(Apply(c, sys, a)), x)
    ensures RankOf(Written(Apply(c, sys, a)), x) == RankOf(Written(sys), x)
    ensures StuckAt(c, Written(Apply(c, sys, a)), x) == StuckAt(c, Written(sys), x)
  {
    if a.Receive? {
      var log := Received(sys.log, a.sent, a.diagnosis);
      ReceiptKeepsTrail(sys.log, a.sent, a.diagnosis);
      SameTrailSafe(c, sys, log);
      AskedKeeps(c, sys.(log := log), a.read, a.now, a.eventId, a.signer, x);
    } else {
      AskedKeeps(c, sys, a.e, a.now, a.eventId, a.signer, x);
    }
  }

  lemma StuckStep(c: Settings, sys: Sys, a: Action, x: Key)
    requires Safe(c, sys) && Enabled(c, sys, a) && HasSettlement(Written(sys), x)
    ensures HasSettlement(Written(Apply(c, sys, a)), x)
    ensures StuckAt(c, Written(Apply(c, sys, a)), x) == StuckAt(c, Written(sys), x)
  {
    TrailAfter(c, sys, a);
    HasStays(Written(sys), Written(Apply(c, sys, a)), x);
    if a.Request? || a.Receive? {
      RequestKeeps(c, sys, a, x);
    } else if a.Finish? && !sys.reply.value.Unknown? {
      var s := sys.walk[0];
      CurrentInTrail(Written(sys), s);
      RankOfCurrent(c, Written(sys), s);
      SettledStuck(c, sys.clock, s, sys.reply.value, a.now);
      StuckAppend(c, Written(sys), Settled(c, s, sys.reply.value, a.now).value, x);
    } else {
      assert Written(Apply(c, sys, a)) == Written(sys);
    }
  }

  /** Over every run, whatever the chain answers, a stuck settlement stays stuck and no other one gets stuck. */
  lemma {:induction false} StuckIsForever(c: Settings, sys: Sys, actions: seq<Action>, end: Sys, x: Key)
    requires Safe(c, sys) && Runs(c, sys, actions, end) && HasSettlement(Written(sys), x)
    ensures HasSettlement(Written(end), x) && StuckAt(c, Written(end), x) == StuckAt(c, Written(sys), x)
    decreases |actions|
  {
    if actions == [] {
    } else {
      StuckStep(c, sys, actions[0], x);
      SafeStep(c, sys, actions[0]);
      StuckIsForever(c, Apply(c, sys, actions[0]), actions[1..], end, x);
    }
  }

  // ---- one walk ----

  ghost predicate InWalk(walk: seq<SettlementRecord>, receipt: Key) {
    exists k :: 0 <= k < |walk| && walk[k].receiptId == receipt
  }

  /** What an answered walk makes of a rank: one less, unless the chain cannot be asked. */
  function Target(c: Settings, base: Trail, x: Key): nat {
    if StuckAt(c, base, x) then RankOf(base, x) else Lowered(RankOf(base, x))
  }

  /** Every settlement of the snapshot is either still to be visited, at its old rank, or where it should get. */
  ghost predicate Halfway(c: Settings, base: Trail, sys: Sys) {
    && (sys.reply.Some? && sys.walk != [] ==> IsAnswer(c, sys.walk[0], sys.reply.value))
    && (forall x :: HasSettlement(base, x) ==> ItemHalfway(c, base, sys, x))
  }

  ghost predicate ItemHalfway(c: Settings, base: Trail, sys: Sys, x: Key) {
    && HasSettlement(Written(sys), x) && StuckAt(c, Written(sys), x) == StuckAt(c, base, x)
    && RankOf(Written(sys), x) == if InWalk(sys.walk, x) then RankOf(base, x) else Target(c, base, x)
  }

  lemma HasStays(trail: Trail, longer: Trail, x: Key)
    requires trail <= longer && HasSettlement(trail, x)
    ensures HasSettlement(longer, x)
  {
    var r :| r in trail && r.receiptId == x;
    assert r in longer;
  }

  /** Once the first item of the walk has been dealt with, its receipt is no longer in the walk. */
  lemma WalkedPast(trail: Trail, walk: seq<SettlementRecord>, x: Key)
    requires WalkOk(trail, walk) && walk != []
    ensures InWalk(walk[1..], x) <==> InWalk(walk, x) && x != walk[0].receiptId
  {
    if InWalk(walk, x) && x != walk[0].receiptId {
      var k :| 0 <= k < |walk| && walk[k].receiptId == x;
      assert walk[1..][k - 1].receiptId == x;
    }
    if InWalk(walk[1..], x) {
      var k :| 0 <= k < |walk[1..]| && walk[1..][k].receiptId == x;
      assert walk[k + 1].receiptId == x;
    }
  }

  lemma HalfwaySkip(c: Settings, base: Trail, sys: Sys, x: Key)
    requires Safe(c, sys) && ItemHalfway(c, base, sys, x) && Enabled(c, sys, Skip)
    ensures ItemHalfway(c, base, Apply(c, sys, Skip), x)
  {
    RankOfCurrent(c, Written(sys), sys.walk[0]);
    assert InWalk(sys.walk, sys.walk[0].receiptId);
    WalkedPast(Written(sys), sys.walk, x);
  }

  /** The record written for an answered item is one rank lower, unless the item is stuck. */
  lemma AnsweredRank(c: Settings, clock: Time, s: SettlementRecord, o: Outcome, now: Time)
    requires RecordOk(c, clock, s) && Possible(c, s, o) && IsAnswer(c, s, o)
    ensures var r := Settled(c, s, o, now);
            if r.None? then Stuck(c, s) else Rank(r.value) == if Stuck(c, s) then Rank(s) else Lowered(Rank(s))
  {
  }

  lemma HalfwayFinish(c: Settings, base: Trail, sys: Sys, a: Action, x: Key)
    requires Safe(c, sys) && ItemHalfway(c, base, sys, x) && Enabled(c, sys, a) && a.Finish?
    requires IsAnswer(c, sys.walk[0], sys.reply.value)
    ensures ItemHalfway(c, base, Apply(c, sys, a), x)
  {
    var s, next := sys.walk[0], Apply(c, sys, a);
    var r := Settled(c, s, sys.reply.value, a.now);
    TrailAfter(c, sys, a);
    StuckStep(c, sys, a, x);
    CurrentInTrail(Written(sys), s);
    RankOfCurrent(c, Written(sys), s);
    assert InWalk(sys.walk, s.receiptId);
    AnsweredRank(c, sys.clock, s, sys.reply.value, a.now);
    WalkedPast(Written(sys), sys.walk, x);
    if r.Some? {
      RankAppend(Written(sys), r.value, x);
    } else {
      assert Written(next) == Written(sys);
    }
  }

  lemma ItemStep(c: Settings, base: Trail, sys: Sys, a: Action, x: Key)
    requires Safe(c, sys) && Halfway(c, base, sys) && HasSettlement(base, x) && Enabled(c, sys, a) && Carries(a)
    ensures ItemHalfway(c, base, Apply(c, sys, a), x)
  {
    assert ItemHalfway(c, base, sys, x);
    if a.Request? || a.Receive? {
      RequestKeeps(c, sys, a, x);
    } else if a.Skip? {
      HalfwaySkip(c, base, sys, x);
    } else if a.Finish? {
      HalfwayFinish(c, base, sys, a, x);
    } else {
      TrailAfter(c, sys, a);
      assert Written(Apply(c, sys, a)) == Written(sys);
    }
  }

  lemma HalfwayStep(c: Settings, base: Trail, sys: Sys, a: Action)
    requires Safe(c, sys) && Halfway(c, base, sys) && Enabled(c, sys, a) && Carries(a)
    requires a.Call? ==> IsAnswer(c, sys.walk[0], a.outcome)
    ensures Halfway(c, base, Apply(c, sys, a))
  {
    forall x | HasSettlement(base, x)
      ensures ItemHalfway(c, base, Apply(c, sys, a), x)
    {
      ItemStep(c, base, sys, a, x);
    }
  }

  lemma {:induction false} HalfwayAlways(c: Settings, base: Trail, sys: Sys, steps: seq<Action>, end: Sys)
    requires Safe(c, sys) && Halfway(c, base, sys) && Runs(c, sys, steps, end) && Carried(steps)
              && Answered(c, sys, steps)
    ensures Halfway(c, base, end)
    decreases |steps|
  {
    if steps == [] {
    } else {
      assert steps[0] in steps;
      HalfwayStep(c, base, sys, steps[0]);
      SafeStep(c, sys, steps[0]);
      HalfwayAlways(c, base, Apply(c, sys, steps[0]), steps[1..], end);
    }
  }

  /** Every settled receipt is in the snapshot. */
  lemma SnapshotIsComplete(c: Settings, clock: Time, trail: Trail, x: Key)
    requires TrailOk(c, clock, trail) && HasSettlement(trail, x)
    ensures InWalk(View(trail), x)
  {
    var r :| r in trail && r.receiptId == x;
    ViewLists(trail);
    FoldIsLatest(trail, r.id);
    OneIdPerReceipt(c, clock, trail);
    var s := Fold(trail).at[r.id];
    assert s in View(trail) && s in trail;
    var k :| 0 <= k < |View(trail)| && View(trail)[k] == s;
  }

  /** A walk whose calls to the chain are all answered takes every settlement in the log when the snapshot was
      taken exactly one rank lower, down to 0, except those the chain cannot be asked about, which stay where they
      are; whatever is requested or arrives while it waits. */
  lemma WalkLowersRanks(c: Settings, ready: Sys, steps: seq<Action>, end: Sys, receipt: Key)
    requires Safe(c, ready) && IsWalk(c, ready, steps, end) && AnsweredWalk(c, ready, steps)
    requires HasSettlement(Written(ready), receipt)
    ensures HasSettlement(Written(end), receipt)
    ensures StuckAt(c, Written(end), receipt) == StuckAt(c, Written(ready), receipt)
    ensures RankOf(Written(end), receipt) == Target(c, Written(ready), receipt)
  {
    var begun := Apply(c, ready, Start);
    assert ([Start] + steps)[1..] == steps;
    SafeStep(c, ready, Start);
    forall x | HasSettlement(Written(ready), x)
      ensures InWalk(begun.walk, x)
    {
      SnapshotIsComplete(c, ready.clock, Written(ready), x);
    }
    HalfwayAlways(c, Written(ready), begun, steps, end);
    assert ItemHalfway(c, Written(ready), end, receipt);
  }

  // ---- two passes ----

  lemma ShownIsCurrent(c: Settings, sys: Sys, r: SettlementRecord)
    requires Safe(c, sys) && r in View(Written(sys))
    ensures HasSettlement(Written(sys), r.receiptId)
    ensures RankOf(Written(sys), r.receiptId) == Rank(r) && StuckAt(c, Written(sys), r.receiptId) == Stuck(c, r)
    ensures Rank(r) == 0 <==> Final(r)
  {
    ViewInTrail(Written(sys));
    ViewIsCurrent(c, sys.clock, Written(sys), r);
    RankOfCurrent(c, Written(sys), r);
    RankZeroIffFinal(c, sys.clock, r);
  }

  lemma PassSafe(c: Settings, sys: Sys, p: Pass, end: Sys)
    requires Safe(c, sys) && IsPass(c, sys, p, end)
    ensures Safe(c, p.ready) && Safe(c, end)
  {
    SafeAlways(c, sys, p.sweep, p.ready);
    SafeAlways(c, p.ready, [Start] + p.steps, end);
  }

  lemma {:induction false} SweepKeepsRanks(c: Settings, sys: Sys, sweep: seq<Action>, ready: Sys, x: Key)
    requires Safe(c, sys) && Runs(c, sys, sweep, ready) && HasSettlement(Written(sys), x)
    requires forall a :: a in sweep ==> a.Request?
    ensures HasSettlement(Written(ready), x) && RankOf(Written(ready), x) == RankOf(Written(sys), x)
    ensures StuckAt(c, Written(ready), x) == StuckAt(c, Written(sys), x)
    decreases |sweep|
  {
    if sweep == [] {
    } else {
      assert sweep[0] in sweep;
      RequestKeeps(c, sys, sweep[0], x);
      SafeStep(c, sys, sweep[0]);
      SweepKeepsRanks(c, Apply(c, sys, sweep[0]), sweep[1..], ready, x);
    }
  }

  /** Where two answered passes leave a settlement of the first snapshot. */
  lemma TwoPassesRank(c: Settings, sys: Sys, p: Pass, mid: Sys, q: Pass, end: Sys, x: Key)
    requires Safe(c, sys) && IsPass(c, sys, p, mid) && IsPass(c, mid, q, end)
    requires AnsweredWalk(c, p.ready, p.steps) && AnsweredWalk(c, q.ready, q.steps)
    requires HasSettlement(Written(p.ready), x)
    ensures HasSettlement(Written(end), x) && StuckAt(c, Written(end), x) == StuckAt(c, Written(p.ready), x)
    ensures RankOf(Written(end), x) == if StuckAt(c, Written(p.ready), x) then RankOf(Written(p.ready), x) else 0
  {
    PassSafe(c, sys, p, mid);
    PassSafe(c, mid, q, end);
    WalkLowersRanks(c, p.ready, p.steps, mid, x);
    SweepKeepsRanks(c, mid, q.sweep, q.ready, x);
    WalkLowersRanks(c, q.ready, q.steps, end, x);
  }

  /** After two answered passes a settlement of the first snapshot is CONFIRMED or FAILED with a hash if and only
      if it was not one the chain cannot be asked about: if it still had to be paid, if and only if its payment
      passes the local checks.  Whatever else happened meanwhile. */
  lemma TwoPassesSettleIff(c: Settings, sys: Sys, p: Pass, mid: Sys, q: Pass, end: Sys, s: SettlementRecord,
          r: SettlementRecord)
    requires Safe(c, sys) && IsPass(c, sys, p, mid) && IsPass(c, mid, q, end)
    requires AnsweredWalk(c, p.ready, p.steps) && AnsweredWalk(c, q.ready, q.steps)
    requires s in View(Written(p.ready)) && r in View(Written(end)) && s.receiptId == r.receiptId
    ensures Final(r) <==> !Stuck(c, s)
    ensures NeedsBroadcast(s) ==>
              (Final(r) <==> c.rpcConfigured && s.network == c.network && LooksLikeWallet(s.wallet)
                             && c.fixedAmount > 0 && c.signerConfigured)
    ensures NeedsBroadcast(r) <==> LocallyRefused(c, s)
  {
    PassSafe(c, sys, p, mid);
    PassSafe(c, mid, q, end);
    ShownIsCurrent(c, p.ready, s);
    ShownIsCurrent(c, end, r);
    TwoPassesRank(c, sys, p, mid, q, end, s.receiptId);
  }

  // ---- a payment refused locally is tried again by every pass ----

  /** A FAILED record without a hash was written for the receipt after the first n records. */
  ghost predicate Rejected(trail: Trail, n: nat, x: Key) {
    exists i :: n <= i < |trail| && trail[i].receiptId == x && trail[i].status == Failed && !HasHash(trail[i])
  }

  lemma {:induction false} RetryAlways(c: Settings, sys: Sys, steps: seq<Action>, end: Sys, s: SettlementRecord, n: nat)
    requires Safe(c, sys) && Runs(c, sys, steps, end) && Carried(steps) && AtRest(end)
    requires s in sys.walk && LocallyRefused(c, s) && n <= |Written(sys)|
    ensures Rejected(Written(end), n, s.receiptId)
    decreases |steps|
  {
    if steps != [] {
      var a, next := steps[0], Apply(c, sys, steps[0]);
      assert a in steps;
      SafeStep(c, sys, a);
      StepExtends(c, sys, a);
      if a.Finish? && sys.walk[0] == s {
        TrailAfter(c, sys, a);
        RunExtends(c, next, steps[1..], end);
        CurrentInTrail(Written(sys), s);
        assert RecordOk(c, sys.clock, s);
        assert Written(end)[|Written(sys)|] == Settled(c, s, sys.reply.value, a.now).value;
      } else {
        RetryAlways(c, next, steps[1..], end, s, n);
      }
    }
  }

  lemma WalkRetries(c: Settings, ready: Sys, steps: seq<Action>, end: Sys, s: SettlementRecord)
    requires Safe(c, ready) && IsWalk(c, ready, steps, end) && s in View(Written(ready)) && LocallyRefused(c, s)
    ensures Rejected(Written(end), |Written(ready)|, s.receiptId) && |end.log| > |ready.log|
  {
    var begun := Apply(c, ready, Start);
    assert ([Start] + steps)[1..] == steps;
    SafeStep(c, ready, Start);
    RetryAlways(c, begun, steps, end, s, |Written(ready)|);
    RunExtends(c, ready, [Start] + steps, end);
    assert end.log != ready.log;
  }

  /** Whatever the chain says and whatever else happens, every pass writes another FAILED record for a settlement
      of its snapshot whose payment fails the local checks, and leaves it so. */
  lemma EveryPassRetries(c: Settings, sys: Sys, p: Pass, end: Sys, s: SettlementRecord)
    requires Safe(c, sys) && IsPass(c, sys, p, end) && s in View(Written(p.ready)) && LocallyRefused(c, s)
    ensures Rejected(Written(end), |Written(p.ready)|, s.receiptId) && |end.log| > |p.ready.log|
    ensures StuckAt(c, Written(end), s.receiptId)
  {
    PassSafe(c, sys, p, end);
    WalkRetries(c, p.ready, p.steps, end, s);
    ShownIsCurrent(c, p.ready, s);
    StuckIsForever(c, p.ready, [Start] + p.steps, end, s.receiptId);
  }

  // ---- the sweep ----

  /** The receipt e calls for no settlement, or has one. */
  ghost predicate Requested(c: Settings, log: Log, e: Envelope) {
    forall now: Time :: Wanted(c, log, e, now).None?
  }

  ghost predicate AllRequested(c: Settings, log: Log) {
    forall e :: e in log ==> Requested(c, log, e)
  }

  lemma {:induction false} VisitedAre(log: Log)
    ensures forall e :: e in ExecutionReceipts(log) <==> e in log && e.payload.ExecReceipt?
    ensures forall e :: e in VerificationReceipts(log) <==> e in log && e.payload.VerifReceipt?
  {
    if log != [] {
      VisitedAre(log[..|log| - 1]);
      assert log == log[..|log| - 1] + [log[|log| - 1]];
    }
  }

  lemma StoredRequests(log: Log, r: SettlementRecord, now: Time, id: Key, signer: Key, vid: Key)
    ensures VerificationRequestOf(Stored(log, Some(r), now, id, signer), vid) == VerificationRequestOf(log, vid)
  {
    var longer := Stored(log, Some(r), now, id, signer);
    assert longer[..|longer| - 1] == log;
  }

  /** Writing a settlement does not change what a receipt calls for. */
  lemma BuiltStays(c: Settings, log: Log, r: SettlementRecord, now: Time, id: Key, signer: Key, e: Envelope, at: Time)
    ensures Built(c, Stored(log, Some(r), now, id, signer), e, at) == Built(c, log, e, at)
  {
    if e.payload.VerifReceipt? {
      StoredRequests(log, r, now, id, signer, e.payload.verified.verificationId);
    }
  }

  lemma ByReceiptWhenOk(c: Settings, clock: Time, trail: Trail, receipt: Key)
    requires TrailOk(c, clock, trail)
    ensures ByReceipt(trail, receipt).None? <==> !HasSettlement(trail, receipt)
  {
    OneIdPerReceipt(c, clock, trail);
    ByReceiptIs(trail, receipt);
  }

  /** The receipt a settlement would be for does not depend on when it is built. */
  lemma BuiltReceipt(c: Settings, log: Log, e: Envelope, a: Time, b: Time)
    ensures Built(c, log, e, a).Some? <==> Built(c, log, e, b).Some?
    ensures Built(c, log, e, a).Some? ==> Built(c, log, e, a).value.receiptId == Built(c, log, e, b).value.receiptId
  {
  }

  /** Writing any settlement leaves requested receipts requested. */
  lemma RequestedStays(c: Settings, sys: Sys, a: Action, e: Envelope)
    requires Safe(c, sys) && Enabled(c, sys, a) && !Brings(a) && Requested(c, sys.log, e)
    ensures Requested(c, Apply(c, sys, a).log, e)
  {
    var next := Apply(c, sys, a);
    SafeStep(c, sys, a);
    StepExtends(c, sys, a);
    forall now: Time
      ensures Wanted(c, next.log, e, now).None?
    {
      assert Wanted(c, sys.log, e, now).None?;
      BuiltUnderStep(c, sys, a, e, now);
      var s := Built(c, sys.log, e, now);
      if s.Some? {
        ByReceiptWhenOk(c, sys.clock, Written(sys), s.value.receiptId);
        HasStays(Written(sys), Written(next), s.value.receiptId);
        ByReceiptWhenOk(c, next.clock, Written(next), s.value.receiptId);
      }
    }
  }

  lemma BuiltUnderStep(c: Settings, sys: Sys, a: Action, e: Envelope, at: Time)
    requires Enabled(c, sys, a) && !Brings(a)
    ensures Built(c, Apply(c, sys, a).log, e, at) == Built(c, sys.log, e, at)
  {
    match a
    case Request(x, now, id, signer) =>
      var w := Wanted(c, sys.log, x, now);
      if w.Some? {
        BuiltStays(c, sys.log, w.value, now, id, signer, e, at);
      }
    case Finish(now, id, signer) =>
      var w := Settled(c, sys.walk[0], sys.reply.value, now);
      if w.Some? {
        BuiltStays(c, sys.log, w.value, now, id, signer, e, at);
      }
    case _ =>
  }

  lemma RequestRequests(c: Settings, sys: Sys, a: Action)
    requires Safe(c, sys) && Enabled(c, sys, a) && a.Request?
    ensures Requested(c, Apply(c, sys, a).log, a.e)
  {
    var next := Apply(c, sys, a);
    SafeStep(c, sys, a);
    TrailAfter(c, sys, a);
    forall now: Time
      ensures Wanted(c, next.log, a.e, now).None?
    {
      BuiltUnderStep(c, sys, a, a.e, now);
      BuiltReceipt(c, sys.log, a.e, now, a.now);
      var s := Built(c, sys.log, a.e, a.now);
      if s.Some? {
        var x := s.value.receiptId;
        ByReceiptWhenOk(c, sys.clock, Written(sys), x);
        ByReceiptWhenOk(c, next.clock, Written(next), x);
        if HasSettlement(Written(sys), x) {
          HasStays(Written(sys), Written(next), x);
        } else {
          assert s.value in Written(next);
        }
      }
    }
  }

  lemma {:induction false} RequestedAfter(c: Settings, sys: Sys, actions: seq<Action>, end: Sys, e: Envelope)
    requires Safe(c, sys) && Runs(c, sys, actions, end) && Requested(c, sys.log, e)
    requires forall a :: a in actions ==> !Brings(a)
    ensures Requested(c, end.log, e)
    decreases |actions|
  {
    if actions == [] {
    } else {
      assert actions[0] in actions;
      RequestedStays(c, sys, actions[0], e);
      SafeStep(c, sys, actions[0]);
      RequestedAfter(c, Apply(c, sys, actions[0]), actions[1..], end, e);
    }
  }

  lemma {:induction false} SweepRequests(c: Settings, sys: Sys, visited: seq<Envelope>, sweep: seq<Action>, ready: Sys)
    requires Safe(c, sys) && IsSweep(visited, sweep) && Runs(c, sys, sweep, ready)
    ensures forall e :: e in visited ==> Requested(c, ready.log, e)
    decreases |sweep|
  {
    if sweep == [] {
    } else {
      var next := Apply(c, sys, sweep[0]);
      SafeStep(c, sys, sweep[0]);
      SweepRequests(c, next, visited[1..], sweep[1..], ready);
      FirstRequested(c, sys, visited, sweep, ready);
      assert forall e :: e in visited ==> e == visited[0] || e in visited[1..];
    }
  }

  lemma FirstRequested(c: Settings, sys: Sys, visited: seq<Envelope>, sweep: seq<Action>, ready: Sys)
    requires Safe(c, sys) && IsSweep(visited, sweep) && Runs(c, sys, sweep, ready) && sweep != []
    ensures Requested(c, ready.log, visited[0])
  {
    var next := Apply(c, sys, sweep[0]);
    SafeStep(c, sys, sweep[0]);
    RequestRequests(c, sys, sweep[0]);
    RequestedAfter(c, next, sweep[1..], ready, visited[0]);
  }

  /** Receipts enter the log only by arriving or being received. */
  lemma {:induction false} NothingArrives(c: Settings, sys: Sys, actions: seq<Action>, end: Sys)
    requires Runs(c, sys, actions, end) && forall a :: a in actions ==> !Brings(a)
    ensures forall e :: e in end.log && !e.payload.Settlement? ==> e in sys.log
    decreases |actions|
  {
    if actions == [] {
    } else {
      assert actions[0] in actions;
      NothingArrives(c, Apply(c, sys, actions[0]), actions[1..], end);
    }
  }

  /** Phase one leaves every receipt of the log either settled or not calling for a settlement. */
  lemma SweepIsComplete(c: Settings, sys: Sys, p: Pass, end: Sys)
    requires Safe(c, sys) && IsPass(c, sys, p, end)
    ensures AllRequested(c, p.ready.log)
  {
    VisitedAre(sys.log);
    SweepRequests(c, sys, Visited(sys.log), p.sweep, p.ready);
    NothingArrives(c, sys, p.sweep, p.ready);
    forall e | e in p.ready.log
      ensures Requested(c, p.ready.log, e)
    {
      if e.payload.ExecReceipt? || e.payload.VerifReceipt? {
        assert e in Visited(sys.log);
      }
    }
  }

  lemma AllRequestedAfter(c: Settings, sys: Sys, actions: seq<Action>, end: Sys)
    requires Safe(c, sys) && AllRequested(c, sys.log) && Runs(c, sys, actions, end)
    requires forall a :: a in actions ==> !Brings(a)
    ensures AllRequested(c, end.log)
  {
    NothingArrives(c, sys, actions, end);
    forall e | e in end.log
      ensures Requested(c, end.log, e)
    {
      if !e.payload.Settlement? {
        RequestedAfter(c, sys, actions, end, e);
      }
    }
  }

  // ---- silent passes ----

  lemma {:induction false} SweepIsSilent(c: Settings, sys: Sys, sweep: seq<Action>, ready: Sys)
    requires Runs(c, sys, sweep, ready) && AllRequested(c, sys.log) && forall a :: a in sweep ==> a.Request?
    ensures ready.log == sys.log && ready.walk == sys.walk && ready.reply == sys.reply
    decreases |sweep|
  {
    if sweep == [] {
    } else {
      var a := sweep[0];
      assert a in sweep;
      assert Requested(c, sys.log, a.e);
      SweepIsSilent(c, Apply(c, sys, a), sweep[1..], ready);
    }
  }

  ghost predicate Unanswered(steps: seq<Action>) {
    forall a :: a in steps && a.Call? ==> a.outcome.Unknown?
  }

  /** A walk with nothing to broadcast, whose polls all come back without an answer, writes nothing. */
  lemma {:induction false} WalkIsSilent(c: Settings, sys: Sys, steps: seq<Action>, end: Sys)
    requires Runs(c, sys, steps, end) && Alone(steps) && Unanswered(steps) && Carried(steps)
    requires sys.reply.Some? ==> sys.reply.value.Unknown?
    ensures end.log == sys.log
    decreases |steps|
  {
    if steps == [] {
    } else {
      assert steps[0] in steps;
      WalkIsSilent(c, Apply(c, sys, steps[0]), steps[1..], end);
    }
  }

  /** The item the walk is waiting on needs nothing written. */
  ghost predicate SilentSoFar(sys: Sys) {
    forall k :: 0 <= k < |sys.walk| ==> !NeedsBroadcast(sys.walk[k])
  }

  /** A finished walk that wrote nothing had nothing to broadcast and got no answer to any poll. */
  lemma {:induction false} SilentWalkMeans(c: Settings, sys: Sys, steps: seq<Action>, end: Sys)
    requires Safe(c, sys) && Runs(c, sys, steps, end) && Alone(steps) && AtRest(end)
    requires end.log == sys.log && Carried(steps)
    ensures SilentSoFar(sys) && Unanswered(steps) && (sys.reply.Some? ==> sys.reply.value.Unknown?)
    decreases |steps|
  {
    if steps == [] {
    } else {
      var a, next := steps[0], Apply(c, sys, steps[0]);
      assert a in steps;
      StepExtends(c, sys, a);
      RunExtends(c, next, steps[1..], end);
      assert next.log == sys.log;
      SafeStep(c, sys, a);
      SilentWalkMeans(c, next, steps[1..], end);
      SilentStepMeans(c, sys, a);
      assert forall x :: x in steps ==> x == a || x in steps[1..];
    }
  }

  /** A step that writes nothing, before a silent rest, was silent itself. */
  lemma SilentStepMeans(c: Settings, sys: Sys, a: Action)
    requires Safe(c, sys) && Enabled(c, sys, a) && Carries(a) && !Brings(a) && !a.Request?
    requires var next := Apply(c, sys, a);
             next.log == sys.log && SilentSoFar(next) && (next.reply.Some? ==> next.reply.value.Unknown?)
    ensures SilentSoFar(sys) && (a.Call? ==> a.outcome.Unknown?) && (sys.reply.Some? ==> sys.reply.value.Unknown?)
  {
    var next := Apply(c, sys, a);
    assert forall k :: 0 < k < |sys.walk| && (a.Skip? || a.Finish?) ==> sys.walk[k] == next.walk[k - 1];
  }

  /** The walk broadcasts exactly when some settlement shown in the view is PENDING, or FAILED without a hash. */
  ghost predicate SomethingToBroadcast(sys: Sys) {
    exists r :: r in View(Written(sys)) && NeedsBroadcast(r)
  }

  /** A pass during which nothing else happens appends nothing to the log exactly when every receipt had its
      settlement already, none was left to broadcast, and the chain answered no poll.  A broadcast the chain
      keeps refusing therefore writes a new FAILED record on every pass. */
  lemma PassSilentIff(c: Settings, sys: Sys, p: Pass, end: Sys)
    requires Safe(c, sys) && IsPass(c, sys, p, end) && Alone(p.steps)
    ensures end.log == sys.log <==> AllRequested(c, sys.log) && !SomethingToBroadcast(sys) && Unanswered(p.steps)
  {
    RunExtends(c, sys, p.sweep, p.ready);
    RunExtends(c, p.ready, [Start] + p.steps, end);
    SafeAlways(c, sys, p.sweep, p.ready);
    var begun := Apply(c, p.ready, Start);
    assert ([Start] + p.steps)[1..] == p.steps;
    SafeStep(c, p.ready, Start);
    assert forall a :: a in p.sweep ==> a.Request?;
    if end.log == sys.log {
      SweepIsComplete(c, sys, p, end);
      SilentWalkMeans(c, begun, p.steps, end);
    }
    if AllRequested(c, sys.log) && Unanswered(p.steps) {
      SweepIsSilent(c, sys, p.sweep, p.ready);
      WalkIsSilent(c, begun, p.steps, end);
    }
  }

  /** When nothing is left to pay and nothing that may be polled, no poll is answered. */
  lemma {:induction false} NothingToAnswer(c: Settings, sys: Sys, steps: seq<Action>, end: Sys)
    requires Runs(c, sys, steps, end) && Carried(steps)
    requires forall k :: 0 <= k < |sys.walk| ==> Unaskable(c, sys.walk[k])
    ensures Unanswered(steps)
    decreases |steps|
  {
    if steps == [] {
    } else {
      assert steps[0] in steps;
      NothingToAnswer(c, Apply(c, sys, steps[0]), steps[1..], end);
      assert steps == [steps[0]] + steps[1..];
    }
  }

  ghost predicate Unaskable(c: Settings, s: SettlementRecord) {
    !NeedsBroadcast(s) && (NeedsPoll(s) ==> !c.rpcConfigured)
  }

  /** Where every receipt is requested and nothing arrives, no further receipt gets a settlement. */
  lemma {:induction false} NoNewSettlements(c: Settings, sys: Sys, actions: seq<Action>, end: Sys)
    requires Safe(c, sys) && AllRequested(c, sys.log) && Runs(c, sys, actions, end)
    requires forall a :: a in actions ==> !Brings(a)
    ensures forall r :: r in Written(end) ==> HasSettlement(Written(sys), r.receiptId)
    decreases |actions|
  {
    if actions == [] {
    } else {
      var a := actions[0];
      assert a in actions;
      var next := Apply(c, sys, a);
      NoNewSettlement(c, sys, a);
      AllRequestedAfter(c, sys, [a], next);
      SafeStep(c, sys, a);
      NoNewSettlements(c, next, actions[1..], end);
      forall r | r in Written(end)
        ensures HasSettlement(Written(sys), r.receiptId)
      {
        var q :| q in Written(next) && q.receiptId == r.receiptId;
      }
    }
  }

  lemma NoNewSettlement(c: Settings, sys: Sys, a: Action)
    requires Safe(c, sys) && AllRequested(c, sys.log) && Enabled(c, sys, a) && !Brings(a)
    ensures forall r :: r in Written(Apply(c, sys, a)) ==> HasSettlement(Written(sys), r.receiptId)
  {
    TrailAfter(c, sys, a);
    assert a.Request? ==> Requested(c, sys.log, a.e);
    if a.Finish? {
      CurrentInTrail(Written(sys), sys.walk[0]);
    }
  }

  /** The run from the first snapshot to the end of the second pass. */
  lemma FromSnapshot(c: Settings, p: Pass, s1: Sys, q: Pass, s2: Sys) returns (whole: seq<Action>)
    requires Runs(c, p.ready, [Start] + p.steps, s1) && Runs(c, s1, q.sweep, q.ready)
    requires Runs(c, q.ready, [Start] + q.steps, s2)
    requires Alone(p.steps) && Alone(q.steps) && forall a :: a in q.sweep ==> a.Request?
    ensures Runs(c, p.ready, whole, s2) && forall a :: a in whole ==> !Brings(a)
  {
    RunsJoin(c, p.ready, [Start] + p.steps, s1, q.sweep, q.ready);
    RunsJoin(c, p.ready, [Start] + p.steps + q.sweep, q.ready, [Start] + q.steps, s2);
    whole := [Start] + p.steps + q.sweep + ([Start] + q.steps);
  }

  lemma SweptByRequests(visited: seq<Envelope>, sweep: seq<Action>)
    requires IsSweep(visited, sweep)
    ensures forall a :: a in sweep ==> a.Request?
  {
  }

  /** Nothing new having arrived, two answered passes leave exactly the settlements of the first snapshot. */
  lemma SameSettlements(c: Settings, s0: Sys, p: Pass, s1: Sys, q: Pass, s2: Sys)
    requires Safe(c, s0) && IsPass(c, s0, p, s1) && IsPass(c, s1, q, s2) && Alone(p.steps) && Alone(q.steps)
    ensures Safe(c, p.ready) && Safe(c, s2) && AllRequested(c, s2.log)
    ensures forall r :: r in Written(s2) ==> HasSettlement(Written(p.ready), r.receiptId)
    ensures Written(p.ready) <= Written(s2)
  {
    PassSafe(c, s0, p, s1);
    PassSafe(c, s1, q, s2);
    SweepIsComplete(c, s0, p, s1);
    SweptByRequests(Visited(s1.log), q.sweep);
    var whole := FromSnapshot(c, p, s1, q, s2);
    AllRequestedAfter(c, p.ready, whole, s2);
    NoNewSettlements(c, p.ready, whole, s2);
    RunExtends(c, p.ready, whole, s2);
  }

  /** The record a view shows for a receipt that has a settlement. */
  lemma Shown(c: Settings, sys: Sys, x: Key) returns (r: SettlementRecord)
    requires Safe(c, sys) && HasSettlement(Written(sys), x)
    ensures r in View(Written(sys)) && r.receiptId == x
  {
    SnapshotIsComplete(c, sys.clock, Written(sys), x);
    var k :| 0 <= k < |View(Written(sys))| && View(Written(sys))[k].receiptId == x;
    r := View(Written(sys))[k];
  }

  /** What two answered passes make of a settlement: final unless stuck, still to be paid if refused locally. */
  ghost predicate Turned(c: Settings, s: SettlementRecord, r: SettlementRecord) {
    (Final(r) <==> !Stuck(c, s)) && (NeedsBroadcast(r) <==> LocallyRefused(c, s))
  }

  ghost predicate TurnedFrom(c: Settings, before: seq<SettlementRecord>, r: SettlementRecord) {
    exists s :: s in before && Turned(c, s, r)
  }

  ghost predicate TurnsInto(c: Settings, s: SettlementRecord, after: seq<SettlementRecord>) {
    exists r :: r in after && Turned(c, s, r)
  }

  lemma ShownBefore(c: Settings, s0: Sys, p: Pass, s1: Sys, q: Pass, s2: Sys, r: SettlementRecord)
    requires Safe(c, s0) && IsPass(c, s0, p, s1) && IsPass(c, s1, q, s2) && Alone(p.steps) && Alone(q.steps)
    requires AnsweredWalk(c, p.ready, p.steps) && AnsweredWalk(c, q.ready, q.steps) && r in View(Written(s2))
    ensures TurnedFrom(c, View(Written(p.ready)), r) && (Final(r) || Stuck(c, r))
  {
    SameSettlements(c, s0, p, s1, q, s2);
    ViewInTrail(Written(s2));
    var s := Shown(c, p.ready, r.receiptId);
    TwoPassesSettleIff(c, s0, p, s1, q, s2, s, r);
    assert Turned(c, s, r);
    ShownIsCurrent(c, s2, r);
    ShownIsCurrent(c, p.ready, s);
    TwoPassesRank(c, s0, p, s1, q, s2, s.receiptId);
  }

  lemma ShownAfter(c: Settings, s0: Sys, p: Pass, s1: Sys, q: Pass, s2: Sys, s: SettlementRecord)
    requires Safe(c, s0) && IsPass(c, s0, p, s1) && IsPass(c, s1, q, s2) && Alone(p.steps) && Alone(q.steps)
    requires AnsweredWalk(c, p.ready, p.steps) && AnsweredWalk(c, q.ready, q.steps) && s in View(Written(p.ready))
    ensures TurnsInto(c, s, View(Written(s2)))
  {
    SameSettlements(c, s0, p, s1, q, s2);
    ShownIsCurrent(c, p.ready, s);
    HasStays(Written(p.ready), Written(s2), s.receiptId);
    var r := Shown(c, s2, s.receiptId);
    TwoPassesSettleIff(c, s0, p, s1, q, s2, s, r);
    assert Turned(c, s, r);
  }

  /** Each settlement shown after comes from one shown before, and the other way round. */
  ghost predicate AllTurned(c: Settings, before: seq<SettlementRecord>, after: seq<SettlementRecord>) {
    && (forall r :: r in after ==> TurnedFrom(c, before, r) && (Final(r) || Stuck(c, r)))
    && (forall s :: s in before ==> TurnsInto(c, s, after))
  }

  lemma TurnedSummary(c: Settings, before: seq<SettlementRecord>, after: seq<SettlementRecord>)
    requires AllTurned(c, before, after)
    ensures forall r :: r in after ==> Final(r) || Stuck(c, r)
    ensures (exists r :: r in after && NeedsBroadcast(r)) <==> exists s :: s in before && LocallyRefused(c, s)
    ensures (forall r :: r in after ==> Final(r)) <==> forall s :: s in before ==> !Stuck(c, s)
  {
  }

  lemma AllShownBefore(c: Settings, s0: Sys, p: Pass, s1: Sys, q: Pass, s2: Sys)
    requires Safe(c, s0) && IsPass(c, s0, p, s1) && IsPass(c, s1, q, s2) && Alone(p.steps) && Alone(q.steps)
    requires AnsweredWalk(c, p.ready, p.steps) && AnsweredWalk(c, q.ready, q.steps)
    ensures forall r :: r in View(Written(s2)) ==>
              TurnedFrom(c, View(Written(p.ready)), r) && (Final(r) || Stuck(c, r))
  {
    forall r | r in View(Written(s2))
      ensures TurnedFrom(c, View(Written(p.ready)), r) && (Final(r) || Stuck(c, r))
    {
      ShownBefore(c, s0, p, s1, q, s2, r);
    }
  }

  lemma AllShownAfter(c: Settings, s0: Sys, p: Pass, s1: Sys, q: Pass, s2: Sys)
    requires Safe(c, s0) && IsPass(c, s0, p, s1) && IsPass(c, s1, q, s2) && Alone(p.steps) && Alone(q.steps)
    requires AnsweredWalk(c, p.ready, p.steps) && AnsweredWalk(c, q.ready, q.steps)
    ensures forall s :: s in View(Written(p.ready)) ==> TurnsInto(c, s, View(Written(s2)))
  {
    forall s | s in View(Written(p.ready))
      ensures TurnsInto(c, s, View(Written(s2)))
    {
      ShownAfter(c, s0, p, s1, q, s2, s);
    }
  }

  /** What the view shows once two answered passes have run with nothing new arriving. */
  lemma AfterTwoPasses(c: Settings, s0: Sys, p: Pass, s1: Sys, q: Pass, s2: Sys)
    requires Safe(c, s0) && IsPass(c, s0, p, s1) && IsPass(c, s1, q, s2) && Alone(p.steps) && Alone(q.steps)
    requires AnsweredWalk(c, p.ready, p.steps) && AnsweredWalk(c, q.ready, q.steps)
    ensures AllTurned(c, View(Written(p.ready)), View(Written(s2)))
  {
    AllShownBefore(c, s0, p, s1, q, s2);
    AllShownAfter(c, s0, p, s1, q, s2);
  }

  /** With nothing new arriving and every call to the chain answered, two passes finish every settlement but the
      stuck ones, and a third appends nothing if and only if no payment of the first snapshot fails the local
      checks. */
  lemma ThirdPassSilentIff(c: Settings, s0: Sys, p: Pass, s1: Sys, q: Pass, s2: Sys, t: Pass, s3: Sys)
    requires Safe(c, s0) && IsPass(c, s0, p, s1) && IsPass(c, s1, q, s2) && IsPass(c, s2, t, s3)
    requires Alone(p.steps) && Alone(q.steps) && Alone(t.steps)
    requires AnsweredWalk(c, p.ready, p.steps) && AnsweredWalk(c, q.ready, q.steps)
    ensures (forall r :: r in View(Written(s2)) ==> Final(r))
              <==> forall s :: s in View(Written(p.ready)) ==> !Stuck(c, s)
    ensures s3.log == s2.log <==> forall s :: s in View(Written(p.ready)) ==> !LocallyRefused(c, s)
  {
    SameSettlements(c, s0, p, s1, q, s2);
    AfterTwoPasses(c, s0, p, s1, q, s2);
    TurnedSummary(c, View(Written(p.ready)), View(Written(s2)));
    PassSilentIff(c, s2, t, s3);
    if !SomethingToBroadcast(s2) {
      forall r | r in View(Written(s2))
        ensures Unaskable(c, r)
      {
        ShownIsCurrent(c, s2, r);
      }
      QuietWalk(c, s2, t, s3);
    }
  }

  lemma QuietWalk(c: Settings, sys: Sys, p: Pass, end: Sys)
    requires Safe(c, sys) && IsPass(c, sys, p, end) && AllRequested(c, sys.log)
    requires forall r :: r in View(Written(sys)) ==> Unaskable(c, r)
    ensures Unanswered(p.steps)
  {
    SweepIsSilent(c, sys, p.sweep, p.ready);
    var begun := Apply(c, p.ready, Start);
    assert ([Start] + p.steps)[1..] == p.steps;
    assert Runs(c, p.ready, [Start] + p.steps, end);
    forall k | 0 <= k < |begun.walk|
      ensures Unaskable(c, begun.walk[k])
    {
      assert begun.walk[k] in View(Written(sys));
    }
    NothingToAnswer(c, begun, p.steps, end);
  }

  // ---- a wallet that is none ----

  lemma {:induction false} StripShrinks(s: string)
    ensures |Strip(s)| <= |s|
    decreases |s|
  {
    if s != "" && IsBlank(s[0]) {
      StripShrinks(s[1..]);
    } else if s != "" && IsBlank(s[|s| - 1]) {
      StripShrinks(s[..|s| - 1]);
    }
  }

  /** A payable receipt whose wallet fails the check still gets a settlement, and its payment is refused locally. */
  lemma MalformedWalletIsRefused(c: Settings, r: ExecutionReceipt, now: Time)
    requires Payable(r.result.success, r.price, r.workerWallet) && !LooksLikeWallet(r.workerWallet)
    ensures BuildExecution(c, r, now).Some? && LocallyRefused(c, BuildExecution(c, r, now).value)
  {
  }

  /** The wallet "abc": a daemon whose log holds just such a receipt settles it in its first pass, and that pass,
      like every later one, ends with a FAILED record more and the settlement stuck, whatever the chain says. */
  lemma AbcNeverSettles(c: Settings, sys: Sys, p: Pass, end: Sys, e: Envelope)
    requires Init(sys) && sys.log == [e] && e.payload.ExecReceipt? && IsPass(c, sys, p, end)
    requires e.payload.receipt.workerWallet == "abc"
              && Payable(e.payload.receipt.result.success, e.payload.receipt.price, "abc")
    ensures Rejected(Written(end), 1, e.payload.receipt.receiptId)
    ensures HasSettlement(Written(end), e.payload.receipt.receiptId)
              && StuckAt(c, Written(end), e.payload.receipt.receiptId)
  {
    ShortIsNoWallet(e.payload.receipt.workerWallet);
    InitSafe(c, sys);
    PassSafe(c, sys, p, end);
    var r := AbcSweep(c, sys, p, end, e);
    var s := Shown(c, p.ready, r.receiptId);
    ViewInTrail(Written(p.ready));
    assert s == r;
    EveryPassRetries(c, sys, p, end, s);
    RunExtends(c, p.ready, [Start] + p.steps, end);
    HasStays(Written(p.ready), Written(end), r.receiptId);
  }

  lemma ShortIsNoWallet(wallet: string)
    requires |wallet| < 42
    ensures !LooksLikeWallet(wallet)
  {
    StripShrinks(wallet);
  }

  lemma OneReceipt(log: Log, e: Envelope)
    requires log == [e] && e.payload.ExecReceipt?
    ensures Visited(log) == [e]
  {
    var none := log[..0];
    assert none == [] && log[..|log| - 1] == none;
    assert ExecutionReceipts(none) == [] && VerificationReceipts(none) == [];
  }

  lemma AbcSweep(c: Settings, sys: Sys, p: Pass, end: Sys, e: Envelope) returns (r: SettlementRecord)
    requires Init(sys) && sys.log == [e] && e.payload.ExecReceipt? && IsPass(c, sys, p, end)
    requires Payable(e.payload.receipt.result.success, e.payload.receipt.price, e.payload.receipt.workerWallet)
    requires !LooksLikeWallet(e.payload.receipt.workerWallet)
    ensures Written(p.ready) == [r] && r.receiptId == e.payload.receipt.receiptId && LocallyRefused(c, r)
  {
    OneReceipt(sys.log, e);
    OneStep(c, sys, p.sweep, p.ready);
    r := FirstRequest(c, sys, p.sweep[0], e.payload.receipt);
  }

  lemma OneStep(c: Settings, sys: Sys, sweep: seq<Action>, ready: Sys)
    requires Runs(c, sys, sweep, ready) && |sweep| == 1
    ensures Enabled(c, sys, sweep[0]) && ready == Apply(c, sys, sweep[0])
  {
    assert sweep[1..] == [];
  }

  lemma FirstRequest(c: Settings, sys: Sys, a: Action, x: ExecutionReceipt) returns (r: SettlementRecord)
    requires Init(sys) && Enabled(c, sys, a) && a.Request? && a.e.payload == ExecReceipt(x)
    requires Payable(x.result.success, x.price, x.workerWallet) && !LooksLikeWallet(x.workerWallet)
    ensures Written(Apply(c, sys, a)) == [r] && r.receiptId == x.receiptId && LocallyRefused(c, r)
  {
    MalformedWalletIsRefused(c, x, a.now);
    InitSafe(c, sys);
    ByReceiptWhenOk(c, sys.clock, Written(sys), x.receiptId);
    TrailAfter(c, sys, a);
    r := BuildExecution(c, x, a.now).value;
  }
}
