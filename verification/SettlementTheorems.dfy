/** What safety gives a reader of the log: one hash per receipt, absorbing outcomes, conservation of value,
    provenance, and agreement of every way to look a settlement up. */
module SettlementTheorems {
  import opened Collections
  import opened PyDict
  import opened EventLog
  import opened SettlementFold
  import opened SettlementMachine
  import opened SettlementSafety
  import opened JobViews

  lemma InitSafe(c: Settings, sys: Sys)
    requires Init(sys)
    ensures Safe(c, sys)
  {
  }

  /** Over every run, with requests interleaved between the items of the reconciler's stale snapshot: at most
      one hash is ever recorded, and at most one payment ever made, per receipt; PENDING records have no
      hash, TRIGGERED and CONFIRMED ones do. */
  lemma OneHashPerReceipt(c: Settings, sys: Sys, actions: seq<Action>, end: Sys)
    requires Init(sys) && Runs(c, sys, actions, end)
    ensures forall r, q :: r in Written(end) && q in Written(end) && r.receiptId == q.receiptId
                           && HasHash(r) && HasHash(q) ==>
              r.txHash == q.txHash
    ensures forall j, k :: 0 <= j < k < |end.ledger| ==> end.ledger[j].receipt != end.ledger[k].receipt
    ensures forall r :: r in Written(end) ==>
              (r.status == Pending ==> !HasHash(r)) && (r.status == Triggered || r.status == Confirmed ==> HasHash(r))
  {
    InitSafe(c, sys);
    SafeAlways(c, sys, actions, end);
    var trail := Written(end);
    forall r, q | r in trail && q in trail && r.receiptId == q.receiptId && HasHash(r) && HasHash(q)
      ensures r.txHash == q.txHash
    {
      var i :| 0 <= i < |trail| && trail[i] == r;
      var j :| 0 <= j < |trail| && trail[j] == q;
      assert i < j ==> Follows(r, q);
      assert j < i ==> Follows(q, r);
    }
    assert forall r :: r in trail ==> RecordOk(c, end.clock, r);
  }

  // ---- history only grows ----

  lemma StepExtends(c: Settings, sys: Sys, a: Action)
    requires Enabled(c, sys, a)
    ensures Written(sys) <= Written(Apply(c, sys, a)) && sys.log <= Apply(c, sys, a).log
    ensures sys.ledger <= Apply(c, sys, a).ledger && sys.clock <= Apply(c, sys, a).clock
  {
    TrailAfter(c, sys, a);
  }

  lemma {:induction false} RunExtends(c: Settings, sys: Sys, actions: seq<Action>, end: Sys)
    requires Runs(c, sys, actions, end)
    ensures Written(sys) <= Written(end) && sys.log <= end.log && sys.ledger <= end.ledger && sys.clock <= end.clock
    decreases |actions|
  {
    if actions == [] {
    } else {
      StepExtends(c, sys, actions[0]);
      RunExtends(c, Apply(c, sys, actions[0]), actions[1..], end);
    }
  }

  /** CONFIRMED, and FAILED with a hash, are never left: such a record stays the settlement's last. */
  lemma FinalIsAbsorbing(c: Settings, sys: Sys, actions: seq<Action>, end: Sys, r: SettlementRecord)
    requires Safe(c, sys) && Runs(c, sys, actions, end) && Current(Written(sys), r) && Final(r)
    ensures Current(Written(end), r)
  {
    SafeAlways(c, sys, actions, end);
    RunExtends(c, sys, actions, end);
    var i: nat :| CurrentAt(Written(sys), r, i);
    forall j | i < j < |Written(end)|
      ensures Written(end)[j].receiptId != r.receiptId
    {
      assert Written(end)[j].receiptId == r.receiptId ==> Follows(Written(end)[i], Written(end)[j]);
    }
    assert CurrentAt(Written(end), r, i);
  }

  // ---- conservation ----

  function TotalPaid(ledger: seq<Payment>): int {
    if ledger == [] then 0 else TotalPaid(ledger[..|ledger| - 1]) + ledger[|ledger| - 1].amount
  }

  lemma {:induction false} TotalOfEqual(ledger: seq<Payment>, amount: int)
    requires forall k :: 0 <= k < |ledger| ==> ledger[k].amount == amount
    ensures TotalPaid(ledger) == amount * |ledger|
  {
    if ledger != [] {
      TotalOfEqual(ledger[..|ledger| - 1], amount);
    }
  }

  /** The settlements the view shows holding a hash, by receipt. */
  ghost function Holders(trail: Trail): set<Key> {
    set r | r in View(trail) && HasHash(r) :: r.receiptId
  }

  ghost function PaidReceipts(ledger: seq<Payment>): set<Key> {
    set p | p in ledger :: p.receipt
  }

  lemma PaidCount(ledger: seq<Payment>)
    requires forall j, k :: 0 <= j < k < |ledger| ==> ledger[j].receipt != ledger[k].receipt
    ensures |PaidReceipts(ledger)| == |ledger|
  {
    var receipts := seq(|ledger|, i requires 0 <= i < |ledger| => ledger[i].receipt);
    NoDupSize(receipts);
    forall k
      ensures k in PaidReceipts(ledger) <==> k in Elements(receipts)
    {
      if k in PaidReceipts(ledger) {
        var i :| 0 <= i < |ledger| && ledger[i].receipt == k;
        assert receipts[i] == k;
      }
    }
    assert PaidReceipts(ledger) == Elements(receipts);
  }

  /** A receipt with a recorded hash shows it in the view. */
  lemma HashShows(c: Settings, clock: Time, trail: Trail, r: SettlementRecord)
    requires TrailOk(c, clock, trail) && r in trail && HasHash(r)
    ensures r.receiptId in Holders(trail)
  {
    ViewLists(trail);
    FoldIsLatest(trail, r.id);
    OneIdPerReceipt(c, clock, trail);
    var s := Fold(trail).at[r.id];
    assert s in View(trail);
    ViewIsCurrent(c, clock, trail, s);
    CurrentInTrail(trail, s);
    HashIsCurrent(c, clock, trail, r, s);
  }

  lemma ViewInTrail(trail: Trail)
    ensures forall r :: r in View(trail) ==> r in trail
  {
    ViewLists(trail);
    forall r | r in View(trail)
      ensures r in trail
    {
      FoldIsLatest(trail, r.id);
    }
  }

  lemma HoldersArePaid(c: Settings, sys: Sys)
    requires Safe(c, sys) && !Unwritten(sys)
    ensures Holders(Written(sys)) == PaidReceipts(sys.ledger)
  {
    ViewInTrail(Written(sys));
    forall k | k in Holders(Written(sys))
      ensures k in PaidReceipts(sys.ledger)
    {
      var r :| r in View(Written(sys)) && HasHash(r) && r.receiptId == k;
      assert Paid(sys.ledger, r);
    }
    forall k | k in PaidReceipts(sys.ledger)
      ensures k in Holders(Written(sys))
    {
      var p :| p in sys.ledger && p.receipt == k;
      var i :| 0 <= i < |sys.ledger| && sys.ledger[i] == p;
      assert PaymentOk(c, sys, i);
      var r :| r in Written(sys) && r.receiptId == p.receipt && r.txHash == Some(p.hash);
      HashShows(c, sys.clock, Written(sys), r);
    }
  }

  /** While the chain's answer to a broadcast waits to be written, the payment made is the one not yet shown. */
  lemma HoldersLagBehind(c: Settings, sys: Sys)
    requires Safe(c, sys) && Unwritten(sys)
    ensures sys.walk[0].receiptId !in Holders(Written(sys))
    ensures PaidReceipts(sys.ledger) == Holders(Written(sys)) + {sys.walk[0].receiptId}
  {
    var s, last := sys.walk[0], |sys.ledger| - 1;
    ViewInTrail(Written(sys));
    CurrentInTrail(Written(sys), s);
    assert PaymentOk(c, sys, last) && RecordOk(c, sys.clock, s);
    forall k | k in Holders(Written(sys))
      ensures k in PaidReceipts(sys.ledger) && k != s.receiptId
    {
      var r :| r in View(Written(sys)) && HasHash(r) && r.receiptId == k;
      assert Paid(sys.ledger, r);
      if k == s.receiptId {
        HashIsCurrent(c, sys.clock, Written(sys), r, s);
      }
    }
    forall k | k in PaidReceipts(sys.ledger) && k != s.receiptId
      ensures k in Holders(Written(sys))
    {
      var p :| p in sys.ledger && p.receipt == k;
      var i :| 0 <= i < |sys.ledger| && sys.ledger[i] == p;
      assert PaymentOk(c, sys, i);
      var r :| r in Written(sys) && r.receiptId == p.receipt && r.txHash == Some(p.hash);
      HashShows(c, sys.clock, Written(sys), r);
    }
    assert sys.ledger[last] in sys.ledger;
  }

  /** Conservation: the value the chain took is the configured amount times the settlements that show a hash,
      counting the one broadcast whose hash is about to be written down. */
  lemma ValueConserved(c: Settings, sys: Sys, actions: seq<Action>, end: Sys)
    requires Init(sys) && Runs(c, sys, actions, end)
    ensures TotalPaid(end.ledger) == c.fixedAmount * (|Holders(Written(end))| + if Unwritten(end) then 1 else 0)
    ensures forall r :: r in View(Written(end)) && HasHash(r) ==> r.amount == c.fixedAmount
  {
    InitSafe(c, sys);
    SafeAlways(c, sys, actions, end);
    LedgerTotal(c, end);
    LedgerSize(c, end);
    ViewInTrail(Written(end));
    assert forall r :: r in Written(end) ==> RecordOk(c, end.clock, r);
  }

  lemma LedgerTotal(c: Settings, sys: Sys)
    requires Safe(c, sys)
    ensures TotalPaid(sys.ledger) == c.fixedAmount * |sys.ledger|
  {
    forall k | 0 <= k < |sys.ledger|
      ensures sys.ledger[k].amount == c.fixedAmount
    {
      assert PaymentOk(c, sys, k);
    }
    TotalOfEqual(sys.ledger, c.fixedAmount);
  }

  /** The payments made are as many as the settlements showing a hash, plus one while its hash is unwritten. */
  lemma LedgerSize(c: Settings, sys: Sys)
    requires Safe(c, sys)
    ensures |sys.ledger| == |Holders(Written(sys))| + if Unwritten(sys) then 1 else 0
  {
    PaidCount(sys.ledger);
    if Unwritten(sys) {
      HoldersLagBehind(c, sys);
    } else {
      HoldersArePaid(c, sys);
    }
  }

  // ---- provenance ----

  /** The receipt e, with a logged request where it is a verification, earns the settlement r. */
  ghost predicate Earns(log: Log, e: Envelope, r: SettlementRecord) {
    match e.payload
    case ExecReceipt(x) =>
      && x.result.success && x.price.Some? && x.price.value > 0 && x.workerWallet != ""
      && r.id == ForExecution(x.receiptId) && r.receiptId == x.receiptId && r.jobId == x.jobId
      && r.peer == x.workerPeer && r.wallet == x.workerWallet
    case VerifReceipt(x) =>
      && (exists q :: q in log && q.payload.VerifRequest? && q.payload.verification.verificationId == x.verificationId
                      && q.payload.verification.request.price.Some?
                      && q.payload.verification.request.price.value > 0)
      && x.result.success && x.verifierWallet != ""
      && r.id == ForVerification(x.receiptId) && r.receiptId == x.receiptId && r.jobId == x.result.jobId
      && r.peer == x.verifierPeer && r.wallet == x.verifierWallet
    case _ => false
  }

  /** Some receipt of the log, or of `replies`, earns the settlement r. */
  ghost predicate Traced(log: Log, replies: set<Envelope>, r: SettlementRecord) {
    exists e :: (e in log || e in replies) && Earns(log, e, r)
  }

  ghost predicate AllTraced(sys: Sys, replies: set<Envelope>) {
    forall r :: r in Written(sys) ==> Traced(sys.log, replies, r)
  }

  /** The receipts read from workers' replies during a run. */
  function Replies(actions: seq<Action>): set<Envelope> {
    set a | a in actions && a.Receive? :: a.read
  }

  lemma {:induction false} VerificationRequestLogged(log: Log, id: Key)
    ensures VerificationRequestOf(log, id).Some? ==>
              exists q :: q in log && q.payload == VerifRequest(VerificationRequestOf(log, id).value) &&
                          q.payload.verification.verificationId == id
  {
    if log != [] {
      var init, e := log[..|log| - 1], log[|log| - 1];
      VerificationRequestLogged(init, id);
      if e.payload.VerifRequest? && e.payload.verification.verificationId == id {
        assert e in log;
      } else if VerificationRequestOf(init, id).Some? {
        var q :| q in init && q.payload == VerifRequest(VerificationRequestOf(init, id).value) &&
                 q.payload.verification.verificationId == id;
        assert q in log;
      }
    }
  }

  lemma BuiltIsEarned(c: Settings, log: Log, e: Envelope, now: Time)
    requires Built(c, log, e, now).Some?
    ensures Earns(log, e, Built(c, log, e, now).value)
  {
    if e.payload.VerifReceipt? {
      VerificationRequestLogged(log, e.payload.verified.verificationId);
    }
  }

  lemma EarnsStays(log: Log, longer: Log, e: Envelope, r: SettlementRecord, s: SettlementRecord)
    requires log <= longer && Earns(log, e, r) && SameParty(r, s)
    ensures Earns(longer, e, s)
  {
    if e.payload.VerifReceipt? {
      var x := e.payload.verified;
      var q :| q in log && q.payload.VerifRequest? && q.payload.verification.verificationId == x.verificationId
               && q.payload.verification.request.price.Some?
               && q.payload.verification.request.price.value > 0;
      assert q in longer;
    }
  }

  lemma TracedStays(log: Log, longer: Log, replies: set<Envelope>, more: set<Envelope>, r: SettlementRecord,
          s: SettlementRecord)
    requires log <= longer && replies <= more && Traced(log, replies, r) && SameParty(r, s)
    ensures Traced(longer, more, s)
  {
    var e :| (e in log || e in replies) && Earns(log, e, r);
    assert e in longer || e in more;
    EarnsStays(log, longer, e, r, s);
  }

  /** The log a settlement is requested against. */
  ghost function LogAsked(sys: Sys, a: Action): Log {
    if a.Receive? then Received(sys.log, a.sent, a.diagnosis) else sys.log
  }

  /** The receipt a settlement is requested for. */
  function ReceiptAsked(a: Action): Envelope
    requires a.Request? || a.Receive?
  {
    if a.Receive? then a.read else a.e
  }

  /** The settlement the action writes down for a receipt, if it does. */
  ghost function NewlyWanted(c: Settings, sys: Sys, a: Action): Option<SettlementRecord> {
    if a.Request? || a.Receive? then Wanted(c, LogAsked(sys, a), ReceiptAsked(a), a.now) else None
  }

  /** A record is as old, or a requested settlement, or says what became of an older record of the same party. */
  lemma WrittenBy(c: Settings, sys: Sys, a: Action, r: SettlementRecord) returns (q: SettlementRecord)
    requires Safe(c, sys) && Enabled(c, sys, a) && r in Written(Apply(c, sys, a))
    ensures SameParty(q, r) && (q in Written(sys) || (NewlyWanted(c, sys, a) == Some(r) && q == r))
  {
    TrailAfter(c, sys, a);
    q := r;
    if r !in Written(sys) && a.Finish? {
      q := sys.walk[0];
      CurrentInTrail(Written(sys), q);
    }
  }

  lemma TracedStep(c: Settings, sys: Sys, a: Action, replies: set<Envelope>)
    requires Safe(c, sys) && AllTraced(sys, replies) && Enabled(c, sys, a)
    ensures AllTraced(Apply(c, sys, a), if a.Receive? then replies + {a.read} else replies)
  {
    var next, more := Apply(c, sys, a), if a.Receive? then replies + {a.read} else replies;
    StepExtends(c, sys, a);
    forall r | r in Written(next)
      ensures Traced(next.log, more, r)
    {
      var q := WrittenBy(c, sys, a, r);
      if q in Written(sys) {
        TracedStays(sys.log, next.log, replies, more, q, r);
      } else {
        var log, e := LogAsked(sys, a), ReceiptAsked(a);
        BuiltIsEarned(c, log, e, a.now);
        assert log <= next.log && (e in log || e in more);
        TracedStays(log, next.log, more, more, r, r);
      }
    }
  }

  lemma {:induction false} TracedAlways(c: Settings, sys: Sys, actions: seq<Action>, end: Sys, replies: set<Envelope>)
    requires Safe(c, sys) && AllTraced(sys, replies) && Runs(c, sys, actions, end)
    ensures AllTraced(end, replies + Replies(actions))
    decreases |actions|
  {
    if actions == [] {
      assert replies + Replies(actions) == replies;
    } else {
      var a := actions[0];
      var more := if a.Receive? then replies + {a.read} else replies;
      TracedStep(c, sys, a, replies);
      SafeStep(c, sys, a);
      TracedAlways(c, Apply(c, sys, a), actions[1..], end, more);
      assert actions == [a] + actions[1..];
      assert replies + Replies(actions) == more + Replies(actions[1..]);
    }
  }

  /** Every settlement record ever written traces to a receipt that was logged, or read from a worker's reply, that
      succeeded, with a positive quote and a wallet, and agrees with it on receipt, job, worker and wallet. */
  lemma ProvenanceAlways(c: Settings, sys: Sys, actions: seq<Action>, end: Sys)
    requires Init(sys) && Runs(c, sys, actions, end)
    ensures AllTraced(end, Replies(actions))
  {
    InitSafe(c, sys);
    TracedAlways(c, sys, actions, end, {});
    assert {} + Replies(actions) == Replies(actions);
  }

  /** The reply and then the diagnosis are appended, each unless its event id is there. */
  lemma ReplyAppends(log: Log, sent: Envelope, diagnosis: Option<Envelope>)
    ensures var first := if exists e :: e in log && e.eventId == sent.eventId then log else log + [sent];
            Received(log, sent, diagnosis) ==
            if diagnosis.Some? && !exists e :: e in first && e.eventId == diagnosis.value.eventId
            then first + [diagnosis.value] else first
  {
  }

  /** The receipt read from a reply is in the log afterwards if and only if it was there before, or the reply is
      typed as an execution receipt and its event id is new. */
  lemma ReplyLoggedIff(log: Log, sent: Envelope, read: Envelope, diagnosis: Option<Envelope>)
    requires ReadAs(sent, read) && (diagnosis.Some? ==> diagnosis.value.payload.Other?)
    ensures read in Received(log, sent, diagnosis) <==>
            (read in log || (sent.payload.ExecReceipt? && !HasEvent(log, sent.eventId)))
  {
  }

  /** What a caller can check before it appends the reply: an execution receipt under a new event id, or one whose
      like is logged already. */
  ghost predicate Groundable(log: Log, sent: Envelope, r: SettlementRecord) {
    (sent.payload.ExecReceipt? && !HasEvent(log, sent.eventId)) || Traced(log, {}, r)
  }

  /** Every settlement that a reply brings about in the run was groundable in the log as it then was. */
  ghost predicate RepliesGrounded(c: Settings, sys: Sys, actions: seq<Action>, end: Sys)
    requires Runs(c, sys, actions, end)
    decreases |actions|
  {
    actions != [] ==>
      var a := actions[0];
      && (a.Receive? && NewlyWanted(c, sys, a).Some? ==> Groundable(sys.log, a.sent, NewlyWanted(c, sys, a).value))
      && RepliesGrounded(c, Apply(c, sys, a), actions[1..], end)
  }

  /** In every state of the run each record traces to a logged receipt. */
  ghost predicate LoggedThroughout(c: Settings, sys: Sys, actions: seq<Action>, end: Sys)
    requires Runs(c, sys, actions, end)
    decreases |actions|
  {
    AllTraced(sys, {}) && (actions != [] ==> LoggedThroughout(c, Apply(c, sys, actions[0]), actions[1..], end))
  }

  /** A logged receipt that came with the reply, and earns what none did before, is the reply itself. */
  lemma EarnerIsReply(log: Log, sent: Envelope, diagnosis: Option<Envelope>, later: Envelope, r: SettlementRecord)
    requires r.id.ForExecution? && later.payload.Settlement? && (diagnosis.Some? ==> diagnosis.value.payload.Other?)
    requires Traced(Received(log, sent, diagnosis) + [later], {}, r) && !Traced(log, {}, r)
    ensures sent.payload.ExecReceipt? && !HasEvent(log, sent.eventId)
  {
    var next := Received(log, sent, diagnosis) + [later];
    var e :| e in next && Earns(next, e, r);
    assert e.payload.ExecReceipt? && Earns(log, e, r);
    assert e == sent;
  }

  lemma GroundedIsTraced(log: Log, sent: Envelope, read: Envelope, next: Log, r: SettlementRecord)
    requires log <= next && Groundable(log, sent, r)
    requires sent.payload.ExecReceipt? && !HasEvent(log, sent.eventId) ==> read in next && Earns(next, read, r)
    ensures Traced(next, {}, r)
  {
    if Traced(log, {}, r) {
      TracedStays(log, next, {}, {}, r, r);
    }
  }

  /** The settlement a reply brings about traces to a logged receipt if and only if it was groundable. */
  lemma ReplyTracedIff(c: Settings, sys: Sys, a: Action)
    requires Enabled(c, sys, a) && a.Receive? && NewlyWanted(c, sys, a).Some?
    ensures var r := NewlyWanted(c, sys, a).value;
            Traced(Apply(c, sys, a).log, {}, r) <==> Groundable(sys.log, a.sent, r)
  {
    var r, log, next := NewlyWanted(c, sys, a).value, LogAsked(sys, a), Apply(c, sys, a).log;
    BuiltIsEarned(c, log, a.read, a.now);
    ReplyLoggedIff(sys.log, a.sent, a.read, a.diagnosis);
    var later := Envelope(a.eventId, a.signer, a.now, Settlement(r));
    assert next == log + [later];
    if Groundable(sys.log, a.sent, r) {
      GroundedIsTraced(sys.log, a.sent, a.read, next, r);
    } else if Traced(next, {}, r) {
      EarnerIsReply(sys.log, a.sent, a.diagnosis, later, r);
    }
  }

  lemma GroundedStep(c: Settings, sys: Sys, a: Action)
    requires Safe(c, sys) && Enabled(c, sys, a) && AllTraced(sys, {})
    ensures AllTraced(Apply(c, sys, a), {}) <==>
            (a.Receive? && NewlyWanted(c, sys, a).Some? ==>
               Groundable(sys.log, a.sent, NewlyWanted(c, sys, a).value))
  {
    var next := Apply(c, sys, a);
    if a.Receive? {
      TrailAfter(c, sys, a);
      StepExtends(c, sys, a);
      forall r | r in Written(sys)
        ensures Traced(next.log, {}, r)
      {
        TracedStays(sys.log, next.log, {}, {}, r, r);
      }
      if NewlyWanted(c, sys, a).Some? {
        ReplyTracedIff(c, sys, a);
        assert NewlyWanted(c, sys, a).value in Written(next);
      }
    } else {
      TracedStep(c, sys, a, {});
    }
  }

  lemma {:induction false} GroundedRun(c: Settings, sys: Sys, actions: seq<Action>, end: Sys)
    requires Safe(c, sys) && AllTraced(sys, {}) && Runs(c, sys, actions, end)
    ensures LoggedThroughout(c, sys, actions, end) <==> RepliesGrounded(c, sys, actions, end)
    decreases |actions|
  {
    if actions == [] {
    } else {
      var a := actions[0];
      GroundedStep(c, sys, a);
      SafeStep(c, sys, a);
      if AllTraced(Apply(c, sys, a), {}) {
        GroundedRun(c, Apply(c, sys, a), actions[1..], end);
      }
    }
  }

  /** Over every run, each record traces to a logged receipt at all times if and only if each reply that brought a
      settlement about was typed as an execution receipt under a new event id, or its like was logged already. */
  lemma LoggedProvenanceIff(c: Settings, sys: Sys, actions: seq<Action>, end: Sys)
    requires Init(sys) && Runs(c, sys, actions, end)
    ensures LoggedThroughout(c, sys, actions, end) <==> RepliesGrounded(c, sys, actions, end)
  {
    InitSafe(c, sys);
    GroundedRun(c, sys, actions, end);
  }

  /** A worker that signs its receipt under the event id of the request it answers: the store drops the receipt, the
      settlement is written all the same, and no logged receipt earns it. */
  lemma ReusedIdIsUnlogged(c: Settings, sys: Sys, request: Envelope, a: Action)
    requires Init(sys) && sys.log == [request] && request.payload.ExecRequest?
    requires Enabled(c, sys, a) && a.Receive? && a.sent.payload.ExecReceipt? && a.sent.eventId == request.eventId
    requires var x := a.sent.payload.receipt; Payable(x.result.success, x.price, x.workerWallet)
    ensures var r := BuildExecution(c, a.sent.payload.receipt, a.now).value;
            Written(Apply(c, sys, a)) == [r] && !Traced(Apply(c, sys, a).log, {}, r)
    ensures forall e :: e in Apply(c, sys, a).log ==> !e.payload.ExecReceipt?
  {
    var r := BuildExecution(c, a.sent.payload.receipt, a.now).value;
    assert request in sys.log;
    FirstReply(c, sys, a, r);
    assert !Traced(sys.log, {}, r);
    ReplyTracedIff(c, sys, a);
  }

  /** The first settlement ever requested is written. */
  lemma FirstReply(c: Settings, sys: Sys, a: Action, r: SettlementRecord)
    requires Init(sys) && Enabled(c, sys, a) && a.Receive? && a.sent.payload.ExecReceipt?
    requires BuildExecution(c, a.sent.payload.receipt, a.now) == Some(r)
    ensures NewlyWanted(c, sys, a) == Some(r) && Written(Apply(c, sys, a)) == [r]
  {
    ReceiptKeepsTrail(sys.log, a.sent, a.diagnosis);
    FirstWanted(c, LogAsked(sys, a), a.read, a.now, r);
    TrailAfter(c, sys, a);
  }

  lemma FirstWanted(c: Settings, log: Log, e: Envelope, now: Time, r: SettlementRecord)
    requires TrailOf(log) == [] && Built(c, log, e, now) == Some(r)
    ensures Wanted(c, log, e, now) == Some(r)
  {
    ByReceiptIs(TrailOf(log), r.receiptId);
  }

  /** Who is paid for what never changes across a receipt's records. */
  lemma PartyNeverChanges(c: Settings, sys: Sys, actions: seq<Action>, end: Sys, r: SettlementRecord,
          q: SettlementRecord)
    requires Init(sys) && Runs(c, sys, actions, end)
    requires r in Written(end) && q in Written(end) && r.receiptId == q.receiptId
    ensures SameParty(r, q)
  {
    InitSafe(c, sys);
    SafeAlways(c, sys, actions, end);
    var i :| 0 <= i < |Written(end)| && Written(end)[i] == r;
    var j :| 0 <= j < |Written(end)| && Written(end)[j] == q;
    assert i < j ==> Follows(r, q);
    assert j < i ==> Follows(q, r);
  }

  // ---- settlement events that store_settlement did not write ----

  /** The store takes such an event from any peer.  Between passes it leaves the state safe if and only if it says
      what the reconciler could have written there: a record of sound form that may follow each record of its
      receipt, with a hash only if the chain returned it for that receipt. */
  lemma ForeignSettlementSafeIff(c: Settings, sys: Sys, e: Envelope)
    requires Safe(c, sys) && sys.walk == [] && sys.reply == None
    requires e.payload.Settlement? && !HasEvent(sys.log, e.eventId)
    ensures var r := e.payload.record;
            Safe(c, sys.(log := Appended(sys.log, e))) <==>
            (&& RecordOk(c, sys.clock, r) && (HasHash(r) ==> Paid(sys.ledger, r))
             && forall q :: q in Written(sys) && q.receiptId == r.receiptId ==> Follows(q, r))
  {
    var r, next, trail := e.payload.record, sys.(log := Appended(sys.log, e)), Written(sys);
    assert next.log[..|sys.log|] == sys.log;
    assert Written(next) == trail + [r];
    if Safe(c, next) {
      assert Written(next)[|trail|] == r && r in Written(next);
      forall q | q in trail && q.receiptId == r.receiptId
        ensures Follows(q, r)
      {
        var i :| 0 <= i < |trail| && trail[i] == q;
        assert Written(next)[i] == q;
      }
    }
    if RecordOk(c, sys.clock, r) && (HasHash(r) ==> Paid(sys.ledger, r))
       && forall q :: q in trail && q.receiptId == r.receiptId ==> Follows(q, r) {
      TrailExtends(c, sys.clock, sys.clock, trail, r);
      forall k | 0 <= k < |sys.ledger|
        ensures PaymentOk(c, next, k)
      {
        assert PaymentOk(c, sys, k);
        HoldsStays(trail, Written(next), sys.ledger[k].receipt, sys.ledger[k].hash);
      }
    }
  }

  // ---- lookups ----

  /** In every reachable state the report's join and settlement_by_receipt find the same settlement, for every row
      of results and every row of verification. */
  lemma ReportAgreesWithLookup(c: Settings, sys: Sys, actions: seq<Action>, end: Sys, job: Key, row: Row)
    requires Init(sys) && Runs(c, sys, actions, end) && Report(end.log, job).Some?
    requires row in Report(end.log, job).value.results || row in Report(end.log, job).value.verification
    ensures row.settlement == ByReceipt(Written(end), row.receiptId)
  {
    InitSafe(c, sys);
    SafeAlways(c, sys, actions, end);
    OneIdPerReceipt(c, end.clock, Written(end));
    RowsPerReceipt(end.log, ReceiptsOf(end.log, job), VerificationsOf(end.log, job));
    LookupsAgree(Written(end), row.receiptId);
  }

  /** In every reachable state the view shows each settlement's last written record. */
  lemma ViewShowsLastWrite(c: Settings, sys: Sys, actions: seq<Action>, end: Sys, id: SettlementId)
    requires Init(sys) && Runs(c, sys, actions, end) && Recorded(Written(end), id)
    ensures LastRecord(Written(end), id) in View(Written(end))
  {
    InitSafe(c, sys);
    SafeAlways(c, sys, actions, end);
    LastIsNewest(c, end.clock, Written(end), id);
    LastWriteWinsIff(Written(end), id);
    LastShows(Written(end), id);
  }

  /** Along a safe trail the times of a settlement never decrease. */
  lemma LastIsNewest(c: Settings, clock: Time, trail: Trail, id: SettlementId)
    requires TrailOk(c, clock, trail) && Recorded(trail, id)
    ensures forall r :: r in trail && r.id == id ==> r.updatedAt <= LastRecord(trail, id).updatedAt
  {
    var k := LastRecordIs(trail, id);
    OneIdPerReceipt(c, clock, trail);
    forall r | r in trail && r.id == id
      ensures r.updatedAt <= LastRecord(trail, id).updatedAt
    {
      var i :| 0 <= i < |trail| && trail[i] == r;
      assert trail[k] in trail;
      assert i < k ==> Follows(trail[i], trail[k]);
    }
  }

  lemma LastShows(trail: Trail, id: SettlementId)
    requires Recorded(trail, id) && id in Fold(trail).at && Fold(trail).at[id] == LastRecord(trail, id)
    ensures LastRecord(trail, id) in View(trail)
  {
    var _ := LastRecordIs(trail, id);
    ViewLists(trail);
  }
}
