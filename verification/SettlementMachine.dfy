/** Settlement of receipts as a transition system: requests and foreign events interleave with a reconciler
    that walks a snapshot of the settlements, waiting on the chain between reading an item and writing it. */
module SettlementMachine {
  import opened Collections
  import opened PyDict
  import opened EventLog
  import opened SettlementFold

  datatype Settings = Settings(
    network: Key, currency: Option<Key>, fixedAmount: int, rpcConfigured: bool, signerConfigured: bool)

  const DEFAULT_CURRENCY := Key("0G")

  /** Python's `a or b` on optional strings. */
  function Or(a: Option<Key>, b: Option<Key>): Option<Key> {
    if a.Some? && a.value.text != "" then a else b
  }

  function Currency(c: Settings, quoted: Option<Key>): Key {
    var k := Or(quoted, Or(c.currency, Some(DEFAULT_CURRENCY)));
    if k.Some? then k.value else DEFAULT_CURRENCY
  }

  predicate HasHash(r: SettlementRecord) {
    r.txHash.Some? && r.txHash.value != ""
  }

  // ---- building a settlement ----

  predicate Payable(success: bool, price: Option<int>, wallet: string) {
    success && price.Some? && price.value > 0 && wallet != ""
  }

  function BuildExecution(c: Settings, r: ExecutionReceipt, now: Time): Option<SettlementRecord> {
    if !Payable(r.result.success, r.price, r.workerWallet) then None
    else
      Some(SettlementRecord(
        ForExecution(r.receiptId), r.jobId, r.receiptId, r.workerPeer, r.workerWallet, r.role, r.result.taskType,
        r.price.value, Currency(c, r.currency), c.network, Pending, None, None, now, now))
  }

  function BuildVerification(c: Settings, r: VerificationReceipt, q: VerificationRequest,
          now: Time): Option<SettlementRecord> {
    if !Payable(r.result.success, q.request.price, r.verifierWallet) then None
    else
      Some(SettlementRecord(
        ForVerification(r.receiptId), r.result.jobId, r.receiptId, r.verifierPeer, r.verifierWallet, q.request.role,
        r.result.taskType, q.request.price.value, Currency(c, q.request.currency), c.network, Pending, None, None, now,
            now))
  }

  /** The last logged verification request with this id. */
  function VerificationRequestOf(log: Log, id: Key): Option<VerificationRequest> {
    if log == [] then None
    else
      var e := log[|log| - 1];
      if e.payload.VerifRequest? && e.payload.verification.verificationId == id then Some(e.payload.verification)
      else VerificationRequestOf(log[..|log| - 1], id)
  }

  /** The settlement a logged receipt calls for, if any. */
  function Built(c: Settings, log: Log, e: Envelope, now: Time): Option<SettlementRecord> {
    match e.payload
    case ExecReceipt(r) => BuildExecution(c, r, now)
    case VerifReceipt(r) =>
      var q := VerificationRequestOf(log, r.verificationId);
      if q.Some? then BuildVerification(c, r, q.value, now) else None
    case _ => None
  }

  // ---- the chain ----

  /** The characters Python's strip() removes. */
  predicate IsBlank(c: char) {
    || c == ' ' || '\t' <= c <= '\r' || '\U{1C}' <= c <= '\U{1F}' || c == '\U{85}' || c == '\U{A0}'
    || c == '\U{1680}' || '\U{2000}' <= c <= '\U{200A}' || c == '\U{2028}' || c == '\U{2029}' || c == '\U{202F}'
    || c == '\U{205F}' || c == '\U{3000}'
  }

  function Strip(s: string): string
    decreases |s|
  {
    if s != "" && IsBlank(s[0]) then Strip(s[1..])
    else if s != "" && IsBlank(s[|s| - 1]) then Strip(s[..|s| - 1])
    else s
  }

  predicate IsHexDigit(c: char) {
    '0' <= c <= '9' || 'a' <= c <= 'f' || 'A' <= c <= 'F'
  }

  /** 0x and forty hexadecimal digits: what the prefix and length test and to_checksum_address let through. */
  predicate LooksLikeWallet(wallet: string) {
    var w := Strip(wallet);
    |w| == 42 && w[0] == '0' && (w[1] == 'x' || w[1] == 'X') && forall i :: 2 <= i < 42 ==> IsHexDigit(w[i])
  }

  /** The local checks _broadcast_native_payment makes before it talks to the chain. */
  predicate Broadcastable(c: Settings, s: SettlementRecord) {
    && c.rpcConfigured && s.network == c.network && LooksLikeWallet(s.wallet)
    && c.fixedAmount > 0 && c.signerConfigured
  }

  /** A hash the chain returned, for whom, and the value sent with it. */
  datatype Payment = Payment(receipt: Key, hash: string, amount: int)

  datatype Outcome =
    | Sent(hash: string, amount: int)
    | Refused(reason: Option<string>)
    | Mined
    | Reverted(reason: Option<string>)
    | Unknown

  predicate NeedsBroadcast(s: SettlementRecord) {
    s.status == Pending || (s.status == Failed && !HasHash(s))
  }

  predicate NeedsPoll(s: SettlementRecord) {
    s.status == Triggered && HasHash(s)
  }

  /** Which replies may come for an item.  A payment that fails the local checks is refused without asking the
      chain, and nothing is polled without an RPC; the chain takes a payment exactly when it returns a hash. */
  predicate Possible(c: Settings, s: SettlementRecord, o: Outcome) {
    if NeedsBroadcast(s) then
      o.Refused? || (o.Sent? && Broadcastable(c, s) && o.hash != "" && o.amount == c.fixedAmount)
    else NeedsPoll(s) && (o.Unknown? || (c.rpcConfigured && (o.Mined? || o.Reverted?)))
  }

  /** The payment fails the local checks: no call to the chain is made for it. */
  predicate LocallyRefused(c: Settings, s: SettlementRecord) {
    NeedsBroadcast(s) && !Broadcastable(c, s)
  }

  /** No chain is ever asked about the settlement, and it is not final. */
  predicate Stuck(c: Settings, s: SettlementRecord) {
    LocallyRefused(c, s) || (NeedsPoll(s) && !c.rpcConfigured)
  }

  function OrText(a: Option<string>, b: string): string {
    if a.Some? && a.value != "" then a.value else b
  }

  /** The record the reconciler writes for an item once the chain has replied, if any. */
  function Settled(c: Settings, s: SettlementRecord, o: Outcome, now: Time): Option<SettlementRecord> {
    match o
    case Sent(hash, amount) =>
      var currency := Or(c.currency, Some(s.currency));
      Some(s.(status := Triggered, txHash := Some(hash), amount := amount, network := c.network, failure := None,
              currency := if currency.Some? then currency.value else s.currency, updatedAt := now))
    case Refused(reason) => Some(s.(status := Failed, failure := Some(OrText(reason, "broadcast failed")),
        updatedAt := now))
    case Mined => Some(s.(status := Confirmed, failure := None, updatedAt := now))
    case Reverted(reason) => Some(s.(status := Failed, failure := Some(OrText(reason, "transaction reverted")),
        updatedAt := now))
    case Unknown => None
  }

  // ---- the system ----

  /** `walk` is what is left of the reconciler's snapshot and `reply` the chain's answer for its first item,
      not yet written; `ledger` records every hash the chain returned. */
  datatype Sys = Sys(
    log: Log, clock: Time, ledger: seq<Payment>, walk: seq<SettlementRecord>, reply: Option<Outcome>)

  /** Receive is what a job requester does, without waiting in between, once a worker has returned the envelope
      `sent`: it appends it and the diagnosis, if there is one, and requests a settlement for the receipt it parsed
      out of it.  `read` is the envelope taken for an execution receipt, whatever its event type says.
      Abandon ends a pass that an exception cut short while no reply was held. */
  datatype Action =
    | Arrive(e: Envelope)
    | Request(e: Envelope, now: Time, eventId: Key, signer: Key)
    | Receive(sent: Envelope, read: Envelope, diagnosis: Option<Envelope>, now: Time, eventId: Key, signer: Key)
    | Start
    | Skip
    | Abandon
    | Call(outcome: Outcome)
    | Finish(now: Time, eventId: Key, signer: Key)

  function Written(sys: Sys): Trail {
    TrailOf(sys.log)
  }

  /** The envelope as the requester reads it: its payload parsed as an execution receipt. */
  predicate ReadAs(sent: Envelope, read: Envelope) {
    && read.payload.ExecReceipt? && read == sent.(payload := read.payload)
    && (sent.payload.ExecReceipt? ==> read == sent)
  }

  ghost function Received(log: Log, sent: Envelope, diagnosis: Option<Envelope>): Log {
    if diagnosis.Some? then Appended(Appended(log, sent), diagnosis.value) else Appended(log, sent)
  }

  ghost predicate Enabled(c: Settings, sys: Sys, a: Action) {
    match a
    case Arrive(e) => !e.payload.Settlement?
    case Request(e, now, id, _) => e in sys.log && now >= sys.clock && !HasEvent(sys.log, id)
    case Receive(sent, read, diagnosis, now, id, _) =>
      && !sent.payload.Settlement? && ReadAs(sent, read) && (diagnosis.Some? ==> diagnosis.value.payload.Other?)
      && now >= sys.clock && !HasEvent(Received(sys.log, sent, diagnosis), id)
    case Start => sys.walk == [] && sys.reply == None
    case Skip => sys.walk != [] && sys.reply == None && !NeedsBroadcast(sys.walk[0]) && !NeedsPoll(sys.walk[0])
    case Abandon => sys.walk != [] && sys.reply == None
    case Call(o) => sys.walk != [] && sys.reply == None && Possible(c, sys.walk[0], o)
    case Finish(now, id, _) => sys.walk != [] && sys.reply.Some? && now >= sys.clock && !HasEvent(sys.log, id)
  }

  function Stored(log: Log, r: Option<SettlementRecord>, now: Time, id: Key, signer: Key): Log {
    if r.Some? then log + [Envelope(id, signer, now, Settlement(r.value))] else log
  }

  /** What request_settlement stores: nothing when the receipt already has a settlement. */
  function Wanted(c: Settings, log: Log, e: Envelope, now: Time): Option<SettlementRecord> {
    var s := Built(c, log, e, now);
    if s.Some? && ByReceipt(TrailOf(log), s.value.receiptId).None? then s else None
  }

  /** One call of request_settlement. */
  function Asked(c: Settings, sys: Sys, e: Envelope, now: Time, id: Key, signer: Key): Sys {
    sys.(log := Stored(sys.log, Wanted(c, sys.log, e, now), now, id, signer), clock := now)
  }

  ghost function Apply(c: Settings, sys: Sys, a: Action): Sys
    requires Enabled(c, sys, a)
  {
    match a
    case Arrive(e) => sys.(log := Appended(sys.log, e))
    case Request(e, now, id, signer) => Asked(c, sys, e, now, id, signer)
    case Receive(sent, read, diagnosis, now, id, signer) =>
      Asked(c, sys.(log := Received(sys.log, sent, diagnosis)), read, now, id, signer)
    case Start => sys.(walk := View(Written(sys)))
    case Skip => sys.(walk := sys.walk[1..])
    case Abandon => sys.(walk := [])
    case Call(o) =>
      sys.(reply := Some(o),
           ledger := if o.Sent? then sys.ledger + [Payment(sys.walk[0].receiptId, o.hash, o.amount)] else sys.ledger)
    case Finish(now, id, signer) =>
      sys.(log := Stored(sys.log, Settled(c, sys.walk[0], sys.reply.value, now), now, id, signer),
           clock := now, walk := sys.walk[1..], reply := None)
  }

  ghost predicate Runs(c: Settings, sys: Sys, actions: seq<Action>, end: Sys)
    decreases |actions|
  {
    if actions == [] then end == sys
    else Enabled(c, sys, actions[0]) && Runs(c, Apply(c, sys, actions[0]), actions[1..], end)
  }

  /** A daemon that has written no settlement yet; its log may hold anything else. */
  ghost predicate Init(sys: Sys) {
    Written(sys) == [] && sys.ledger == [] && sys.walk == [] && sys.reply == None
  }

  lemma {:induction false} RunsJoin(c: Settings, sys: Sys, first: seq<Action>, mid: Sys, second: seq<Action>, end: Sys)
    requires Runs(c, sys, first, mid) && Runs(c, mid, second, end)
    ensures Runs(c, sys, first + second, end)
    decreases |first|
  {
    if first == [] {
      assert first + second == second;
    } else {
      RunsJoin(c, Apply(c, sys, first[0]), first[1..], mid, second, end);
      assert (first + second)[1..] == first[1..] + second;
    }
  }
}
