/** Safety of settlement over every run: one hash per receipt, no way out of a final state, value conserved. */
module SettlementSafety {
  import opened Collections
  import opened PyDict
  import opened EventLog
  import opened SettlementFold
  import opened SettlementMachine

  ghost predicate Final(r: SettlementRecord) {
    r.status == Confirmed || (r.status == Failed && HasHash(r))
  }

  ghost predicate RecordOk(c: Settings, clock: Time, r: SettlementRecord) {
    && r.id.receipt == r.receiptId && r.updatedAt <= clock
    && (r.status == Pending ==> !HasHash(r))
    && (r.status == Triggered || r.status == Confirmed ==> HasHash(r))
    && (HasHash(r) ==> r.amount == c.fixedAmount)
  }

  ghost predicate SameParty(a: SettlementRecord, b: SettlementRecord) {
    && a.id == b.id && a.receiptId == b.receiptId && a.jobId == b.jobId && a.peer == b.peer && a.wallet == b.wallet
    && a.role == b.role && a.capability == b.capability && a.createdAt == b.createdAt
  }

  /** b may be written after a, for the same receipt: a is not final, and a hash once recorded stays. */
  ghost predicate Follows(a: SettlementRecord, b: SettlementRecord) {
    && SameParty(a, b) && !Final(a) && a.updatedAt <= b.updatedAt
    && (HasHash(a) ==> b.txHash == a.txHash && Final(b))
  }

  ghost predicate TrailOk(c: Settings, clock: Time, trail: Trail) {
    && (forall r :: r in trail ==> RecordOk(c, clock, r))
    && (forall i, j :: 0 <= i < j < |trail| && trail[i].receiptId == trail[j].receiptId ==> Follows(trail[i], trail[j]))
  }

  /** s is the last record of its settlement. */
  ghost predicate Current(trail: Trail, s: SettlementRecord) {
    exists i :: CurrentAt(trail, s, i)
  }

  ghost predicate CurrentAt(trail: Trail, s: SettlementRecord, i: nat) {
    i < |trail| && trail[i] == s && forall j :: i < j < |trail| ==> trail[j].receiptId != s.receiptId
  }

  ghost predicate WalkOk(trail: Trail, walk: seq<SettlementRecord>) {
    && (forall k :: 0 <= k < |walk| ==> Current(trail, walk[k]))
    && (forall j, k :: 0 <= j < k < |walk| ==> walk[j].receiptId != walk[k].receiptId)
  }

  /** The chain has taken the first item's payment and the reconciler has not yet written it down. */
  ghost predicate Unwritten(sys: Sys) {
    sys.walk != [] && sys.reply.Some? && sys.reply.value.Sent?
  }

  ghost predicate Holds(trail: Trail, receipt: Key, hash: string) {
    exists r :: r in trail && r.receiptId == receipt && r.txHash == Some(hash)
  }

  ghost predicate PaymentOk(c: Settings, sys: Sys, k: nat)
    requires k < |sys.ledger|
  {
    var p := sys.ledger[k];
    && p.amount == c.fixedAmount && p.hash != ""
    && (if Unwritten(sys) && k == |sys.ledger| - 1
        then p.receipt == sys.walk[0].receiptId && p.hash == sys.reply.value.hash
        else Holds(Written(sys), p.receipt, p.hash))
  }

  ghost predicate Paid(ledger: seq<Payment>, r: SettlementRecord) {
    exists p :: p in ledger && p.receipt == r.receiptId && r.txHash == Some(p.hash)
  }

  ghost predicate LedgerOk(c: Settings, sys: Sys) {
    && (forall k :: 0 <= k < |sys.ledger| ==> PaymentOk(c, sys, k))
    && (forall j, k :: 0 <= j < k < |sys.ledger| ==> sys.ledger[j].receipt != sys.ledger[k].receipt)
    && (forall r :: r in Written(sys) && HasHash(r) ==> Paid(sys.ledger, r))
    && (Unwritten(sys) ==> sys.ledger != [])
  }

  ghost predicate Safe(c: Settings, sys: Sys) {
    && TrailOk(c, sys.clock, Written(sys)) && WalkOk(Written(sys), sys.walk) && LedgerOk(c, sys)
    && (sys.reply.Some? ==> sys.walk != [] && Possible(c, sys.walk[0], sys.reply.value))
  }

  // ---- the trail under each action ----

  lemma StoredTrail(log: Log, r: Option<SettlementRecord>, now: Time, id: Key, signer: Key)
    ensures TrailOf(Stored(log, r, now, id, signer)) == TrailOf(log) + if r.Some? then [r.value] else []
  {
    if r.Some? {
      var longer := Stored(log, r, now, id, signer);
      assert longer[..|longer| - 1] == log;
    }
  }

  lemma ArrivalKeepsTrail(log: Log, e: Envelope)
    requires !e.payload.Settlement?
    ensures TrailOf(Appended(log, e)) == TrailOf(log)
  {
    if !HasEvent(log, e.eventId) {
      assert (log + [e])[..|log|] == log;
    }
  }

  lemma ReceiptKeepsTrail(log: Log, sent: Envelope, diagnosis: Option<Envelope>)
    requires !sent.payload.Settlement? && (diagnosis.Some? ==> diagnosis.value.payload.Other?)
    ensures TrailOf(Received(log, sent, diagnosis)) == TrailOf(log)
  {
    ArrivalKeepsTrail(log, sent);
    if diagnosis.Some? {
      ArrivalKeepsTrail(Appended(log, sent), diagnosis.value);
    }
  }

  /** Only Request, Receive and Finish write, and they write at most one record, at the end. */
  lemma TrailAfter(c: Settings, sys: Sys, a: Action)
    requires Enabled(c, sys, a)
    ensures Written(Apply(c, sys, a)) == Written(sys) +
              match a
              case Request(e, now, _, _) => (var w := Wanted(c, sys.log, e, now); if w.Some? then [w.value] else [])
              case Receive(sent, read, diagnosis, now, _, _) =>
                (var w := Wanted(c, Received(sys.log, sent, diagnosis), read, now); if w.Some? then [w.value] else [])
              case Finish(now, _, _) =>
                (var w := Settled(c, sys.walk[0], sys.reply.value, now); if w.Some? then [w.value] else [])
              case _ => []
  {
    match a
    case Arrive(e) => ArrivalKeepsTrail(sys.log, e);
    case Request(e, now, id, signer) => StoredTrail(sys.log, Wanted(c, sys.log, e, now), now, id, signer);
    case Receive(sent, read, diagnosis, now, id, signer) =>
      var log := Received(sys.log, sent, diagnosis);
      ReceiptKeepsTrail(sys.log, sent, diagnosis);
      StoredTrail(log, Wanted(c, log, read, now), now, id, signer);
    case Finish(now, id, signer) =>
      StoredTrail(sys.log, Settled(c, sys.walk[0], sys.reply.value, now), now, id, signer);
    case _ =>
  }

  lemma TrailExtends(c: Settings, clock: Time, later: Time, trail: Trail, r: SettlementRecord)
    requires TrailOk(c, clock, trail) && clock <= later && RecordOk(c, later, r)
    requires forall q :: q in trail && q.receiptId == r.receiptId ==> Follows(q, r)
    ensures TrailOk(c, later, trail + [r])
  {
    var longer := trail + [r];
    forall i, j | 0 <= i < j < |longer| && longer[i].receiptId == longer[j].receiptId
      ensures Follows(longer[i], longer[j])
    {
      assert longer[i] in trail;
    }
  }

  /** Whatever the current record of a receipt may be followed by may also follow its earlier records. */
  lemma FollowsAll(c: Settings, clock: Time, trail: Trail, s: SettlementRecord, r: SettlementRecord)
    requires TrailOk(c, clock, trail) && Current(trail, s) && Follows(s, r)
    ensures forall q :: q in trail && q.receiptId == r.receiptId ==> Follows(q, r)
  {
    var i: nat :| CurrentAt(trail, s, i);
    forall q | q in trail && q.receiptId == r.receiptId
      ensures Follows(q, r)
    {
      var j :| 0 <= j < |trail| && trail[j] == q;
      if j < i {
        assert Follows(q, s);
      }
    }
  }

  lemma SettledFollows(c: Settings, clock: Time, s: SettlementRecord, o: Outcome, now: Time)
    requires RecordOk(c, clock, s) && Possible(c, s, o) && clock <= now && !o.Unknown?
    ensures var r := Settled(c, s, o, now).value;
            && Follows(s, r) && RecordOk(c, now, r) && (HasHash(r) <==> HasHash(s) || o.Sent?)
            && (r.status == Triggered <==> o.Sent?) && (r.status == Confirmed <==> o.Mined?)
            && (r.status == Failed <==> r.failure.Some? && r.failure.value != "")
            && r.updatedAt == now && r.createdAt == s.createdAt
            && (o.Sent? ==> r.txHash == Some(o.hash) && r.amount == o.amount && r.network == c.network)
            && (o.Sent? ==> r.currency == if c.currency.Some? && c.currency.value.text != "" then c.currency.value
                                          else s.currency)
            && (!o.Sent? ==> r.txHash == s.txHash && r.amount == s.amount && r.network == s.network
                             && r.currency == s.currency)
            && (!o.Refused? && !o.Reverted? ==> r.failure == None)
            && (o.Refused? || o.Reverted? ==> r.failure == Some(
                    if o.reason.Some? && o.reason.value != "" then o.reason.value
                    else if o.Refused? then "broadcast failed" else "transaction reverted"))
  {
  }

  lemma CurrentStays(trail: Trail, s: SettlementRecord, r: SettlementRecord)
    requires Current(trail, s) && r.receiptId != s.receiptId
    ensures Current(trail + [r], s)
  {
    var i: nat :| CurrentAt(trail, s, i);
    assert CurrentAt(trail + [r], s, i);
  }

  lemma CurrentInTrail(trail: Trail, s: SettlementRecord)
    requires Current(trail, s)
    ensures s in trail
  {
    var i: nat :| CurrentAt(trail, s, i);
    assert trail[i] in trail;
  }

  // ---- the ledger under each action ----

  lemma HoldsStays(trail: Trail, longer: Trail, receipt: Key, hash: string)
    requires trail <= longer && Holds(trail, receipt, hash)
    ensures Holds(longer, receipt, hash)
  {
    var r :| r in trail && r.receiptId == receipt && r.txHash == Some(hash);
    assert r in longer;
  }

  /** The current record of a receipt carries whatever hash was ever recorded for it. */
  lemma HashIsCurrent(c: Settings, clock: Time, trail: Trail, r: SettlementRecord, s: SettlementRecord)
    requires TrailOk(c, clock, trail) && Current(trail, s) && r in trail && r.receiptId == s.receiptId && HasHash(r)
    ensures s.txHash == r.txHash
  {
    var i: nat :| CurrentAt(trail, s, i);
    var j :| 0 <= j < |trail| && trail[j] == r;
    assert j < i ==> Follows(r, s);
  }

  lemma NoPaymentBefore(c: Settings, sys: Sys)
    requires Safe(c, sys) && sys.walk != [] && sys.reply == None && NeedsBroadcast(sys.walk[0])
    ensures forall k :: 0 <= k < |sys.ledger| ==> sys.ledger[k].receipt != sys.walk[0].receiptId
  {
    var s := sys.walk[0];
    CurrentInTrail(Written(sys), s);
    assert RecordOk(c, sys.clock, s);
    forall k | 0 <= k < |sys.ledger|
      ensures sys.ledger[k].receipt != s.receiptId
    {
      assert PaymentOk(c, sys, k);
      var r :| r in Written(sys) && r.receiptId == sys.ledger[k].receipt && r.txHash == Some(sys.ledger[k].hash);
      if r.receiptId == s.receiptId {
        HashIsCurrent(c, sys.clock, Written(sys), r, s);
      }
    }
  }

  // ---- each action keeps Safe ----

  lemma ArriveSafe(c: Settings, sys: Sys, a: Action)
    requires Safe(c, sys) && Enabled(c, sys, a) && a.Arrive?
    ensures Safe(c, Apply(c, sys, a))
  {
    ArrivalKeepsTrail(sys.log, a.e);
    SameTrailSafe(c, sys, Appended(sys.log, a.e));
  }

  /** The ledger clauses survive while the ledger, the walk's head and the reply stand still. */
  lemma LedgerStays(c: Settings, sys: Sys, next: Sys)
    requires LedgerOk(c, sys) && next.ledger == sys.ledger && next.walk == sys.walk && next.reply == sys.reply
    requires Written(sys) <= Written(next)
    requires forall r :: r in Written(next) && r !in Written(sys) ==> !HasHash(r)
    ensures LedgerOk(c, next)
  {
    forall k | 0 <= k < |next.ledger|
      ensures PaymentOk(c, next, k)
    {
      assert PaymentOk(c, sys, k);
      if !(Unwritten(sys) && k == |sys.ledger| - 1) {
        HoldsStays(Written(sys), Written(next), sys.ledger[k].receipt, sys.ledger[k].hash);
      }
    }
  }

  /** request_settlement writes only for a receipt that no record names yet. */
  lemma WantedIsNew(c: Settings, sys: Sys, e: Envelope, now: Time)
    requires Safe(c, sys) && Wanted(c, sys.log, e, now).Some?
    ensures forall r :: r in Written(sys) ==> r.receiptId != Wanted(c, sys.log, e, now).value.receiptId
  {
    ByReceiptIs(Written(sys), Wanted(c, sys.log, e, now).value.receiptId);
    forall r, q | r in Written(sys) && q in Written(sys) && r.id == q.id
      ensures r.receiptId == q.receiptId
    {
      assert RecordOk(c, sys.clock, r) && RecordOk(c, sys.clock, q);
    }
  }

  lemma WalkStays(trail: Trail, walk: seq<SettlementRecord>, r: SettlementRecord)
    requires WalkOk(trail, walk) && forall k :: 0 <= k < |walk| ==> walk[k].receiptId != r.receiptId
    ensures WalkOk(trail + [r], walk)
  {
    forall k | 0 <= k < |walk|
      ensures Current(trail + [r], walk[k])
    {
      CurrentStays(trail, walk[k], r);
    }
  }

  /** A request is safe whether or not the receipt was logged. */
  lemma AskedSafe(c: Settings, sys: Sys, e: Envelope, now: Time, id: Key, signer: Key)
    requires Safe(c, sys) && now >= sys.clock
    ensures Safe(c, Asked(c, sys, e, now, id, signer))
  {
    var next, w := Asked(c, sys, e, now, id, signer), Wanted(c, sys.log, e, now);
    StoredTrail(sys.log, w, now, id, signer);
    if w.Some? {
      WantedIsNew(c, sys, e, now);
      TrailExtends(c, sys.clock, now, Written(sys), w.value);
      forall k | 0 <= k < |sys.walk|
        ensures sys.walk[k].receiptId != w.value.receiptId
      {
        CurrentInTrail(Written(sys), sys.walk[k]);
      }
      WalkStays(Written(sys), sys.walk, w.value);
    }
    LedgerStays(c, sys, next);
  }

  /** The log may gain anything but settlements. */
  lemma SameTrailSafe(c: Settings, sys: Sys, log: Log)
    requires Safe(c, sys) && TrailOf(log) == TrailOf(sys.log)
    ensures Safe(c, sys.(log := log))
  {
    LedgerStays(c, sys, sys.(log := log));
  }

  lemma ReceiveSafe(c: Settings, sys: Sys, a: Action)
    requires Safe(c, sys) && Enabled(c, sys, a) && a.Receive?
    ensures Safe(c, Apply(c, sys, a))
  {
    var log := Received(sys.log, a.sent, a.diagnosis);
    ReceiptKeepsTrail(sys.log, a.sent, a.diagnosis);
    SameTrailSafe(c, sys, log);
    AskedSafe(c, sys.(log := log), a.read, a.now, a.eventId, a.signer);
  }

  lemma ViewIsCurrent(c: Settings, clock: Time, trail: Trail, s: SettlementRecord)
    requires TrailOk(c, clock, trail) && s in View(trail)
    ensures Current(trail, s)
  {
    ViewLists(trail);
    FoldIsLatest(trail, s.id);
    var i: nat :| IsLatestAt(trail, s, i);
    forall j | i < j < |trail|
      ensures trail[j].receiptId != s.receiptId
    {
      assert trail[j].receiptId == s.receiptId ==> Follows(trail[i], trail[j]);
    }
    assert CurrentAt(trail, s, i);
  }

  lemma StartSafe(c: Settings, sys: Sys)
    requires Safe(c, sys) && Enabled(c, sys, Start)
    ensures Safe(c, Apply(c, sys, Start))
  {
    var trail, walk := Written(sys), View(Written(sys));
    ViewLists(trail);
    forall k | 0 <= k < |walk|
      ensures Current(trail, walk[k]) && RecordOk(c, sys.clock, walk[k])
    {
      ViewIsCurrent(c, sys.clock, trail, walk[k]);
      CurrentInTrail(trail, walk[k]);
    }
    var next := Apply(c, sys, Start);
    forall k | 0 <= k < |next.ledger|
      ensures PaymentOk(c, next, k)
    {
      assert PaymentOk(c, sys, k);
    }
    OneIdPerReceipt(c, sys.clock, trail);
    forall j, k | 0 <= j < k < |walk|
      ensures walk[j].receiptId != walk[k].receiptId
    {
      CurrentInTrail(trail, walk[j]);
      CurrentInTrail(trail, walk[k]);
    }
  }

  /** A receipt has one settlement id, and a settlement id one receipt. */
  lemma OneIdPerReceipt(c: Settings, clock: Time, trail: Trail)
    requires TrailOk(c, clock, trail)
    ensures forall r, q :: r in trail && q in trail ==> (r.receiptId == q.receiptId <==> r.id == q.id)
  {
    forall r, q | r in trail && q in trail
      ensures r.receiptId == q.receiptId <==> r.id == q.id
    {
      var i :| 0 <= i < |trail| && trail[i] == r;
      var j :| 0 <= j < |trail| && trail[j] == q;
      assert RecordOk(c, clock, r) && RecordOk(c, clock, q);
      if r.receiptId == q.receiptId {
        assert i < j ==> Follows(r, q);
        assert j < i ==> Follows(q, r);
      }
    }
  }

  lemma WalkTail(trail: Trail, walk: seq<SettlementRecord>)
    requires WalkOk(trail, walk) && walk != []
    ensures WalkOk(trail, walk[1..])
    ensures forall k :: 0 <= k < |walk[1..]| ==> walk[1..][k].receiptId != walk[0].receiptId
  {
  }

  lemma SkipSafe(c: Settings, sys: Sys)
    requires Safe(c, sys) && Enabled(c, sys, Skip)
    ensures Safe(c, Apply(c, sys, Skip))
  {
    var next := Apply(c, sys, Skip);
    WalkTail(Written(sys), sys.walk);
    forall k | 0 <= k < |next.ledger|
      ensures PaymentOk(c, next, k)
    {
      assert PaymentOk(c, sys, k);
    }
  }

  lemma AbandonSafe(c: Settings, sys: Sys)
    requires Safe(c, sys) && Enabled(c, sys, Abandon)
    ensures Safe(c, Apply(c, sys, Abandon))
  {
    var next := Apply(c, sys, Abandon);
    forall k | 0 <= k < |next.ledger|
      ensures PaymentOk(c, next, k)
    {
      assert PaymentOk(c, sys, k);
    }
  }

  lemma CallSafe(c: Settings, sys: Sys, a: Action)
    requires Safe(c, sys) && Enabled(c, sys, a) && a.Call?
    ensures Safe(c, Apply(c, sys, a))
  {
    var next := Apply(c, sys, a);
    if a.outcome.Sent? {
      NoPaymentBefore(c, sys);
    }
    forall k | 0 <= k < |next.ledger|
      ensures PaymentOk(c, next, k)
    {
      if k < |sys.ledger| {
        assert PaymentOk(c, sys, k);
      }
    }
    forall r | r in Written(next) && HasHash(r)
      ensures Paid(next.ledger, r)
    {
      assert Paid(sys.ledger, r);
    }
  }

  lemma FinishTrail(c: Settings, sys: Sys, a: Action)
    requires Safe(c, sys) && Enabled(c, sys, a) && a.Finish?
    ensures var next := Apply(c, sys, a); TrailOk(c, next.clock, Written(next)) && WalkOk(Written(next), next.walk)
    ensures Written(sys) <= Written(Apply(c, sys, a))
  {
    var s, o, next := sys.walk[0], sys.reply.value, Apply(c, sys, a);
    TrailAfter(c, sys, a);
    WalkTail(Written(sys), sys.walk);
    if !o.Unknown? {
      var r := Settled(c, s, o, a.now).value;
      CurrentInTrail(Written(sys), s);
      SettledFollows(c, sys.clock, s, o, a.now);
      FollowsAll(c, sys.clock, Written(sys), s, r);
      TrailExtends(c, sys.clock, a.now, Written(sys), r);
      WalkStays(Written(sys), sys.walk[1..], r);
    }
  }

  lemma FinishLedger(c: Settings, sys: Sys, a: Action)
    requires Safe(c, sys) && Enabled(c, sys, a) && a.Finish?
    ensures LedgerOk(c, Apply(c, sys, a))
  {
    var s, o, next := sys.walk[0], sys.reply.value, Apply(c, sys, a);
    TrailAfter(c, sys, a);
    CurrentInTrail(Written(sys), s);
    forall k | 0 <= k < |next.ledger|
      ensures PaymentOk(c, next, k)
    {
      assert PaymentOk(c, sys, k);
      if Unwritten(sys) && k == |sys.ledger| - 1 {
        var r := Settled(c, s, o, a.now).value;
        assert r in Written(next) && r.receiptId == s.receiptId && r.txHash == Some(o.hash);
      } else {
        HoldsStays(Written(sys), Written(next), sys.ledger[k].receipt, sys.ledger[k].hash);
      }
    }
    forall r | r in Written(next) && HasHash(r)
      ensures Paid(next.ledger, r)
    {
      if r !in Written(sys) {
        if o.Sent? {
          assert PaymentOk(c, sys, |sys.ledger| - 1);
          assert sys.ledger[|sys.ledger| - 1] in sys.ledger;
        } else {
          assert Paid(sys.ledger, s);
        }
      }
    }
  }

  lemma SafeStep(c: Settings, sys: Sys, a: Action)
    requires Safe(c, sys) && Enabled(c, sys, a)
    ensures Safe(c, Apply(c, sys, a))
  {
    match a
    case Arrive(_) => ArriveSafe(c, sys, a);
    case Request(e, now, id, signer) => AskedSafe(c, sys, e, now, id, signer);
    case Receive(_, _, _, _, _, _) => ReceiveSafe(c, sys, a);
    case Start => StartSafe(c, sys);
    case Skip => SkipSafe(c, sys);
    case Abandon => AbandonSafe(c, sys);
    case Call(_) => CallSafe(c, sys, a);
    case Finish(_, _, _) =>
      FinishTrail(c, sys, a);
      FinishLedger(c, sys, a);
  }

  /** Every reachable state is safe, whatever interleaves with the reconciler's stale snapshot. */
  lemma {:induction false} SafeAlways(c: Settings, sys: Sys, actions: seq<Action>, end: Sys)
    requires Safe(c, sys) && Runs(c, sys, actions, end)
    ensures Safe(c, end)
    decreases |actions|
  {
    if actions == [] {
    } else {
      SafeStep(c, sys, actions[0]);
      SafeAlways(c, Apply(c, sys, actions[0]), actions[1..], end);
    }
  }
}
