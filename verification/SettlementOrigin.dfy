/** What the first record of a receipt says, over every run, and whether its payment can be made: from the receipt
    and the settings to the money. */
module SettlementOrigin {
  import opened Collections
  import opened PyDict
  import opened EventLog
  import opened SettlementFold
  import opened SettlementMachine
  import opened SettlementSafety
  import opened SettlementTheorems
  import opened SettlementProgress

  // ---- what a receipt calls for ----

  predicate Given(k: Option<Key>) {
    k.Some? && k.value.text != ""
  }

  /** The first nonempty of the quoted currency, the configured one and "0G". */
  ghost predicate IsCurrency(c: Settings, quoted: Option<Key>, k: Key) {
    && (Given(quoted) ==> k == quoted.value)
    && (!Given(quoted) && Given(c.currency) ==> k == c.currency.value)
    && (!Given(quoted) && !Given(c.currency) ==> k == Key("0G"))
  }

  /** An unpaid settlement of the quoted amount, on the configured network. */
  ghost predicate Unpaid(c: Settings, r: SettlementRecord, price: Option<int>, quoted: Option<Key>) {
    && r.status == Pending && r.txHash == None && r.failure == None && r.updatedAt == r.createdAt
    && price.Some? && price.value > 0 && r.amount == price.value
    && r.network == c.network && IsCurrency(c, quoted, r.currency)
  }

  /** log[k] is the last verification request with this id. */
  ghost predicate LastRequestAt(log: Log, id: Key, k: nat) {
    && k < |log| && log[k].payload.VerifRequest? && log[k].payload.verification.verificationId == id
    && forall j :: k < j < |log| && log[j].payload.VerifRequest? ==> log[j].payload.verification.verificationId != id
  }

  ghost predicate OpensExecution(c: Settings, x: ExecutionReceipt, r: SettlementRecord) {
    && x.result.success && x.workerWallet != ""
    && r.id == ForExecution(x.receiptId) && r.receiptId == x.receiptId && r.jobId == x.jobId
    && r.peer == x.workerPeer && r.wallet == x.workerWallet && r.role == x.role && r.capability == x.result.taskType
    && Unpaid(c, r, x.price, x.currency)
  }

  ghost predicate OpensVerification(c: Settings, x: VerificationReceipt, q: VerificationRequest, r: SettlementRecord) {
    && x.result.success && x.verifierWallet != ""
    && r.id == ForVerification(x.receiptId) && r.receiptId == x.receiptId && r.jobId == x.result.jobId
    && r.peer == x.verifierPeer && r.wallet == x.verifierWallet && r.role == q.request.role
    && r.capability == x.result.taskType && Unpaid(c, r, q.request.price, q.request.currency)
  }

  /** r is the first record the receipt e calls for, over this log. */
  ghost predicate Opens(c: Settings, log: Log, e: Envelope, r: SettlementRecord) {
    match e.payload
    case ExecReceipt(x) => OpensExecution(c, x, r)
    case VerifReceipt(x) =>
      exists k: nat :: LastRequestAt(log, x.verificationId, k)
                       && OpensVerification(c, x, log[k].payload.verification, r)
    case _ => false
  }

  lemma {:induction false} RequestIsLast(log: Log, id: Key, k: nat)
    requires LastRequestAt(log, id, k)
    ensures VerificationRequestOf(log, id) == Some(log[k].payload.verification)
  {
    if k < |log| - 1 {
      var init := log[..|log| - 1];
      assert forall j :: k < j < |init| ==> init[j] == log[j];
      RequestIsLast(init, id, k);
    }
  }

  lemma {:induction false} LastRequestExists(log: Log, id: Key) returns (k: nat)
    requires VerificationRequestOf(log, id).Some?
    ensures LastRequestAt(log, id, k)
  {
    var e := log[|log| - 1];
    if e.payload.VerifRequest? && e.payload.verification.verificationId == id {
      k := |log| - 1;
    } else {
      k := LastRequestExists(log[..|log| - 1], id);
    }
  }

  lemma CurrencyIs(c: Settings, quoted: Option<Key>, k: Key)
    ensures IsCurrency(c, quoted, k) <==> k == Currency(c, quoted)
  {
    assert DEFAULT_CURRENCY.text == "0G" && |"0G"| == 2;
  }

  lemma ExecutionOpens(c: Settings, x: ExecutionReceipt, now: Time, r: SettlementRecord)
    ensures BuildExecution(c, x, now) == Some(r) <==> OpensExecution(c, x, r) && r.createdAt == now
  {
    CurrencyIs(c, x.currency, r.currency);
  }

  lemma VerificationOpens(c: Settings, x: VerificationReceipt, q: VerificationRequest, now: Time, r: SettlementRecord)
    ensures BuildVerification(c, x, q, now) == Some(r) <==> OpensVerification(c, x, q, r) && r.createdAt == now
  {
    CurrencyIs(c, q.request.currency, r.currency);
  }

  /** A settlement is built for a receipt if and only if it succeeded, was quoted a positive price and names a wallet;
      and it is exactly the unpaid settlement of that receipt. */
  lemma BuiltIff(c: Settings, log: Log, e: Envelope, now: Time, r: SettlementRecord)
    ensures Built(c, log, e, now) == Some(r) <==> Opens(c, log, e, r) && r.createdAt == now
  {
    match e.payload
    case ExecReceipt(x) => ExecutionOpens(c, x, now, r);
    case VerifReceipt(x) =>
      if VerificationRequestOf(log, x.verificationId).Some? {
        var k := LastRequestExists(log, x.verificationId);
        RequestIsLast(log, x.verificationId, k);
        VerificationOpens(c, x, log[k].payload.verification, now, r);
      }
      forall k: nat | LastRequestAt(log, x.verificationId, k)
        ensures VerificationRequestOf(log, x.verificationId) == Some(log[k].payload.verification)
      {
        RequestIsLast(log, x.verificationId, k);
      }
    case _ =>
  }

  // ---- over every run ----

  /** No earlier record names its receipt. */
  ghost predicate NamedFirstAt(trail: Trail, i: nat) {
    i < |trail| && forall j :: 0 <= j < i ==> trail[j].receiptId != trail[i].receiptId
  }

  /** r is what a receipt of the log or of `replies` called for when the log was as long as n. */
  ghost predicate OpenedAt(c: Settings, log: Log, replies: set<Envelope>, r: SettlementRecord, e: Envelope, n: nat) {
    n <= |log| && (e in log || e in replies) && Opens(c, log[..n], e, r)
  }

  ghost predicate Opened(c: Settings, log: Log, replies: set<Envelope>, r: SettlementRecord) {
    exists e, n: nat :: OpenedAt(c, log, replies, r, e, n)
  }

  ghost predicate FirstsOpened(c: Settings, sys: Sys, replies: set<Envelope>) {
    forall i: nat :: NamedFirstAt(Written(sys), i) ==> Opened(c, sys.log, replies, Written(sys)[i])
  }

  lemma OpenedStays(c: Settings, log: Log, longer: Log, replies: set<Envelope>, more: set<Envelope>,
          r: SettlementRecord)
    requires log <= longer && replies <= more && Opened(c, log, replies, r)
    ensures Opened(c, longer, more, r)
  {
    var e, n: nat :| OpenedAt(c, log, replies, r, e, n);
    assert longer[..n] == log[..n];
    assert e in longer || e in more;
    assert OpenedAt(c, longer, more, r, e, n);
  }

  /** The record a request writes is opened by its receipt. */
  lemma RequestOpens(c: Settings, sys: Sys, a: Action, replies: set<Envelope>, r: SettlementRecord)
    requires Enabled(c, sys, a) && NewlyWanted(c, sys, a) == Some(r)
    requires a.Receive? ==> a.read in replies
    ensures Opened(c, Apply(c, sys, a).log, replies, r)
  {
    var log, e, next := LogAsked(sys, a), ReceiptAsked(a), Apply(c, sys, a).log;
    BuiltIff(c, log, e, a.now, r);
    assert next[..|log|] == log;
    assert e in next || e in replies;
    assert OpenedAt(c, next, replies, r, e, |log|);
  }

  /** What the reconciler writes names a receipt that had a record. */
  lemma FinishIsNoFirst(c: Settings, sys: Sys, a: Action, i: nat)
    requires Safe(c, sys) && Enabled(c, sys, a) && a.Finish? && i >= |Written(sys)|
    ensures !NamedFirstAt(Written(Apply(c, sys, a)), i)
  {
    TrailAfter(c, sys, a);
    CurrentInTrail(Written(sys), sys.walk[0]);
    var j :| 0 <= j < |Written(sys)| && Written(sys)[j] == sys.walk[0];
    assert Written(Apply(c, sys, a))[j] == sys.walk[0];
  }

  lemma FirstsStep(c: Settings, sys: Sys, a: Action, replies: set<Envelope>)
    requires Safe(c, sys) && FirstsOpened(c, sys, replies) && Enabled(c, sys, a)
    ensures FirstsOpened(c, Apply(c, sys, a), if a.Receive? then replies + {a.read} else replies)
  {
    var next, more := Apply(c, sys, a), if a.Receive? then replies + {a.read} else replies;
    TrailAfter(c, sys, a);
    StepExtends(c, sys, a);
    forall i: nat | NamedFirstAt(Written(next), i)
      ensures Opened(c, next.log, more, Written(next)[i])
    {
      if i < |Written(sys)| {
        assert NamedFirstAt(Written(sys), i);
        OpenedStays(c, sys.log, next.log, replies, more, Written(sys)[i]);
      } else if a.Finish? {
        FinishIsNoFirst(c, sys, a, i);
      } else {
        RequestOpens(c, sys, a, more, Written(next)[i]);
      }
    }
  }

  lemma {:induction false} FirstsAlways(c: Settings, sys: Sys, actions: seq<Action>, end: Sys, replies: set<Envelope>)
    requires Safe(c, sys) && FirstsOpened(c, sys, replies) && Runs(c, sys, actions, end)
    ensures FirstsOpened(c, end, replies + Replies(actions))
    decreases |actions|
  {
    if actions == [] {
      assert replies + Replies(actions) == replies;
    } else {
      var a := actions[0];
      var more := if a.Receive? then replies + {a.read} else replies;
      FirstsStep(c, sys, a, replies);
      SafeStep(c, sys, a);
      FirstsAlways(c, Apply(c, sys, a), actions[1..], end, more);
      assert actions == [a] + actions[1..];
      assert replies + Replies(actions) == more + Replies(actions[1..]);
    }
  }

  /** Over every run the first record of each receipt is PENDING, for the quoted amount, on the configured network, in
      the first nonempty of the quoted currency, the configured one and "0G", with role and task of the receipt or of
      the last request for it. */
  lemma FirstRecordIs(c: Settings, sys: Sys, actions: seq<Action>, end: Sys, i: nat)
    requires Init(sys) && Runs(c, sys, actions, end) && NamedFirstAt(Written(end), i)
    ensures Opened(c, end.log, Replies(actions), Written(end)[i])
  {
    InitSafe(c, sys);
    FirstsAlways(c, sys, actions, end, {});
    assert {} + Replies(actions) == Replies(actions);
  }

  ghost predicate OnNetwork(c: Settings, trail: Trail) {
    forall r :: r in trail ==> r.network == c.network
  }

  lemma NetworkStep(c: Settings, sys: Sys, a: Action)
    requires Safe(c, sys) && OnNetwork(c, Written(sys)) && Enabled(c, sys, a)
    ensures OnNetwork(c, Written(Apply(c, sys, a)))
  {
    TrailAfter(c, sys, a);
    if a.Finish? {
      CurrentInTrail(Written(sys), sys.walk[0]);
    } else if NewlyWanted(c, sys, a).Some? {
      var r := NewlyWanted(c, sys, a).value;
      BuiltIff(c, LogAsked(sys, a), ReceiptAsked(a), a.now, r);
    }
  }

  /** Over every run all records are on the configured network. */
  lemma {:induction false} NetworkAlways(c: Settings, sys: Sys, actions: seq<Action>, end: Sys)
    requires Safe(c, sys) && OnNetwork(c, Written(sys)) && Runs(c, sys, actions, end)
    ensures Safe(c, end) && OnNetwork(c, Written(end))
    decreases |actions|
  {
    if actions == [] {
    } else {
      NetworkStep(c, sys, actions[0]);
      SafeStep(c, sys, actions[0]);
      NetworkAlways(c, Apply(c, sys, actions[0]), actions[1..], end);
    }
  }

  // ---- wallets ----

  /** White space to Python, by code point. */
  predicate IsSpace(ch: char) {
    var n := ch as int;
    || 9 <= n <= 13 || 28 <= n <= 32 || n == 133 || n == 160 || n == 5760 || 8192 <= n <= 8202 || n == 8232 || n == 8233
    || n == 8239 || n == 8287 || n == 12288
  }

  lemma BlankIsSpace(ch: char)
    ensures IsBlank(ch) <==> IsSpace(ch)
  {
  }

  ghost predicate AllBlank(s: string) {
    forall i :: 0 <= i < |s| ==> IsSpace(s[i])
  }

  /** 0x or 0X and forty hexadecimal digits, with blanks before and after. */
  ghost predicate WalletAt(w: string, i: nat) {
    && i + 42 <= |w| && AllBlank(w[..i]) && AllBlank(w[i + 42..])
    && w[i] == '0' && (w[i + 1] == 'x' || w[i + 1] == 'X')
    && forall k :: i + 2 <= k < i + 42 ==> '0' <= w[k] <= '9' || 'a' <= w[k] <= 'f' || 'A' <= w[k] <= 'F'
  }

  ghost predicate GoodWallet(w: string) {
    exists i: nat :: WalletAt(w, i)
  }

  /** `core` is s from position i on, for its length, with blanks before and after it. */
  ghost predicate CoreAt(s: string, core: string, i: nat) {
    i + |core| <= |s| && core == s[i..i + |core|] && AllBlank(s[..i]) && AllBlank(s[i + |core|..])
  }

  lemma CoreAfterBlank(s: string, core: string, i: nat)
    requires s != "" && IsSpace(s[0]) && CoreAt(s[1..], core, i)
    ensures CoreAt(s, core, i + 1)
  {
    assert s[..i + 1] == [s[0]] + s[1..][..i];
    assert s[i + 1..i + 1 + |core|] == s[1..][i..i + |core|];
    assert s[i + 1 + |core|..] == s[1..][i + |core|..];
  }

  lemma CoreBeforeBlank(s: string, core: string, i: nat)
    requires s != "" && IsSpace(s[|s| - 1]) && CoreAt(s[..|s| - 1], core, i)
    ensures CoreAt(s, core, i)
  {
    var init, n := s[..|s| - 1], i + |core|;
    assert s[n..] == init[n..] + [s[|s| - 1]];
    assert s[..i] == init[..i] && s[i..n] == init[i..n];
  }

  /** Stripping takes blanks off both ends, and leaves none there. */
  lemma {:induction false} StripIs(s: string) returns (i: nat)
    ensures CoreAt(s, Strip(s), i)
    ensures Strip(s) != "" ==> !IsSpace(Strip(s)[0]) && !IsSpace(Strip(s)[|Strip(s)| - 1])
    decreases |s|
  {
    if s != "" && IsBlank(s[0]) {
      BlankIsSpace(s[0]);
      var j := StripIs(s[1..]);
      i := j + 1;
      CoreAfterBlank(s, Strip(s), j);
    } else if s != "" && IsBlank(s[|s| - 1]) {
      BlankIsSpace(s[|s| - 1]);
      i := StripIs(s[..|s| - 1]);
      CoreBeforeBlank(s, Strip(s), i);
    } else {
      i := 0;
      if s != "" {
        BlankIsSpace(s[0]);
        BlankIsSpace(s[|s| - 1]);
      }
    }
  }

  lemma HexNotBlank(ch: char)
    requires '0' <= ch <= '9' || 'a' <= ch <= 'f' || 'A' <= ch <= 'F'
    ensures !IsSpace(ch)
  {
  }

  /** Two ways of taking blanks off both ends that leave none there are the same. */
  lemma SameCore(w: string, i: nat, n: nat, j: nat, m: nat)
    requires i + n <= |w| && j + m <= |w| && n > 0 && m > 0
    requires AllBlank(w[..i]) && AllBlank(w[i + n..]) && AllBlank(w[..j]) && AllBlank(w[j + m..])
    requires !IsSpace(w[i]) && !IsSpace(w[i + n - 1]) && !IsSpace(w[j]) && !IsSpace(w[j + m - 1])
    ensures i == j && n == m
  {
    NotBefore(w, i, j, j + m - 1);
    NotBefore(w, j, i, i + n - 1);
    NotAfter(w, i + n, j, j + m - 1);
    NotAfter(w, j + m, i, i + n - 1);
  }

  /** What is no blank does not lie in a blank beginning. */
  lemma NotBefore(w: string, n: nat, i: nat, j: nat)
    requires n <= |w| && AllBlank(w[..n]) && i <= j < |w|
    ensures !IsSpace(w[i]) ==> i >= n
    ensures !IsSpace(w[j]) ==> j >= n
  {
    assert i < n ==> w[..n][i] == w[i];
    assert j < n ==> w[..n][j] == w[j];
  }

  /** Nor in a blank end. */
  lemma NotAfter(w: string, n: nat, i: nat, j: nat)
    requires n <= |w| && AllBlank(w[n..]) && i <= j < |w|
    ensures !IsSpace(w[i]) ==> i < n
    ensures !IsSpace(w[j]) ==> j < n
  {
    assert i >= n ==> w[n..][i - n] == w[i];
    assert j >= n ==> w[n..][j - n] == w[j];
  }

  /** The local check lets through exactly such wallets. */
  lemma WalletIff(w: string)
    ensures LooksLikeWallet(w) <==> GoodWallet(w)
  {
    var i := StripIs(w);
    var core := Strip(w);
    if LooksLikeWallet(w) {
      assert forall k :: i + 2 <= k < i + 42 ==> w[k] == core[k - i];
      assert WalletAt(w, i);
    }
    if j: nat :| WalletAt(w, j) {
      assert '0' <= w[j + 41] <= '9' || 'a' <= w[j + 41] <= 'f' || 'A' <= w[j + 41] <= 'F';
      HexNotBlank(w[j]);
      HexNotBlank(w[j + 41]);
      if core == "" {
        NotAllBlank(w, i, j);
      }
      SameCore(w, i, |core|, j, 42);
      assert forall k :: 2 <= k < 42 ==> core[k] == w[j + k];
    }
  }

  lemma NotAllBlank(w: string, i: nat, j: nat)
    requires i <= |w| && j < |w| && AllBlank(w[..i]) && AllBlank(w[i..])
    ensures IsSpace(w[j])
  {
    if j < i {
      assert w[..i][j] == w[j];
    } else {
      assert w[i..][j - i] == w[j];
    }
  }

  // ---- from the receipt to the money ----

  /** The daemon can pay: an RPC, a key and a positive amount are configured. */
  ghost predicate CanPay(c: Settings) {
    c.rpcConfigured && c.signerConfigured && c.fixedAmount > 0
  }

  /** What a payable receipt brings about can be paid, when the daemon can pay, if and only if its wallet is good. */
  lemma BuiltIsBroadcastableIff(c: Settings, log: Log, e: Envelope, now: Time, r: SettlementRecord)
    requires CanPay(c) && Built(c, log, e, now) == Some(r)
    ensures Broadcastable(c, r) <==> GoodWallet(r.wallet)
  {
    BuiltIff(c, log, e, now, r);
    WalletIff(r.wallet);
  }

  /** When the daemon can pay, two answered passes finish every settlement of the first snapshot whose wallet is good,
      and no other that was still to be paid. */
  lemma PaidIffGoodWallet(c: Settings, start: Sys, actions: seq<Action>, sys: Sys, p: Pass, mid: Sys, q: Pass, end: Sys,
          s: SettlementRecord, r: SettlementRecord)
    requires CanPay(c) && Init(start) && Runs(c, start, actions, sys)
    requires IsPass(c, sys, p, mid) && IsPass(c, mid, q, end)
    requires AnsweredWalk(c, p.ready, p.steps) && AnsweredWalk(c, q.ready, q.steps)
    requires s in View(Written(p.ready)) && r in View(Written(end)) && s.receiptId == r.receiptId
    ensures (r.status == Confirmed || (r.status == Failed && HasHash(r)))
            <==> (NeedsBroadcast(s) ==> GoodWallet(s.wallet))
  {
    InitSafe(c, start);
    NetworkAlways(c, start, actions, sys);
    NetworkAlways(c, sys, p.sweep, p.ready);
    ViewInTrail(Written(p.ready));
    WalletIff(s.wallet);
    TwoPassesSettleIff(c, sys, p, mid, q, end, s, r);
  }

  /** The wallet a receipt asks to be paid to. */
  function WalletOf(e: Envelope): string {
    match e.payload
    case ExecReceipt(x) => x.workerWallet
    case VerifReceipt(x) => x.verifierWallet
    case _ => ""
  }

  ghost predicate Names(e: Envelope, receipt: Key) {
    (e.payload.ExecReceipt? && e.payload.receipt.receiptId == receipt)
    || (e.payload.VerifReceipt? && e.payload.verified.receiptId == receipt)
  }

  lemma {:induction false} FirstExists(trail: Trail, receipt: Key) returns (i: nat)
    requires HasSettlement(trail, receipt)
    ensures NamedFirstAt(trail, i) && trail[i].receiptId == receipt
  {
    var init := trail[..|trail| - 1];
    if HasSettlement(init, receipt) {
      i := FirstExists(init, receipt);
    } else {
      i := |trail| - 1;
      var r :| r in trail && r.receiptId == receipt;
      assert trail == init + [trail[i]];
      forall j | 0 <= j < i
        ensures trail[j].receiptId != trail[i].receiptId
      {
        assert init[j] in init;
      }
    }
  }

  /** Phase one settles every logged receipt that succeeded, was quoted a positive price and names a wallet. */
  lemma SweepSettles(c: Settings, sys: Sys, p: Pass, end: Sys, e: Envelope, r: SettlementRecord)
    requires Safe(c, sys) && IsPass(c, sys, p, end) && e in p.ready.log && Opens(c, p.ready.log, e, r)
    ensures HasSettlement(Written(p.ready), r.receiptId)
  {
    SweepIsComplete(c, sys, p, end);
    PassSafe(c, sys, p, end);
    BuiltIff(c, p.ready.log, e, r.createdAt, r);
    assert Requested(c, p.ready.log, e);
    assert Wanted(c, p.ready.log, e, r.createdAt).None?;
    ByReceiptWhenOk(c, p.ready.clock, Written(p.ready), r.receiptId);
  }

  /** Whoever is to be paid for a receipt has one of the wallets that receipts by that name ask for. */
  lemma WalletIsAsked(c: Settings, start: Sys, actions: seq<Action>, sys: Sys, s: SettlementRecord)
    returns (e: Envelope)
    requires Init(start) && Runs(c, start, actions, sys) && s in Written(sys)
    ensures e in sys.log || e in Replies(actions)
    ensures Names(e, s.receiptId) && WalletOf(e) == s.wallet
  {
    var i := FirstExists(Written(sys), s.receiptId);
    FirstRecordIs(c, start, actions, sys, i);
    PartyNeverChanges(c, start, actions, sys, Written(sys)[i], s);
    var f, n: nat :| OpenedAt(c, sys.log, Replies(actions), Written(sys)[i], f, n);
    e := f;
  }

  /** From the receipt to the money: when the daemon can pay and every receipt by that name asks for a good wallet, a
      logged receipt that succeeded with a positive quote is paid, or its payment reverted by the chain, after two
      answered passes. */
  lemma GoodReceiptIsPaid(c: Settings, start: Sys, actions: seq<Action>, sys: Sys, p: Pass, mid: Sys, q: Pass, end: Sys,
          e: Envelope, opening: SettlementRecord) returns (r: SettlementRecord)
    requires CanPay(c) && Init(start) && Runs(c, start, actions, sys)
    requires IsPass(c, sys, p, mid) && IsPass(c, mid, q, end)
    requires AnsweredWalk(c, p.ready, p.steps) && AnsweredWalk(c, q.ready, q.steps)
    requires e in p.ready.log && Opens(c, p.ready.log, e, opening)
    requires forall f :: (f in p.ready.log || f in Replies(actions)) && Names(f, opening.receiptId) ==>
               GoodWallet(WalletOf(f))
    ensures r in View(Written(end)) && r.receiptId == opening.receiptId
    ensures HasHash(r) && (r.status == Confirmed || r.status == Failed)
  {
    InitSafe(c, start);
    SafeAlways(c, start, actions, sys);
    PassSafe(c, sys, p, mid);
    PassSafe(c, mid, q, end);
    SweepSettles(c, sys, p, mid, e, opening);
    var s := Shown(c, p.ready, opening.receiptId);
    HasWalletAsked(c, start, actions, sys, p, mid, s);
    ReadyExtends(c, p, mid, q, end);
    HasStays(Written(p.ready), Written(end), opening.receiptId);
    r := Shown(c, end, opening.receiptId);
    PaidIffGoodWallet(c, start, actions, sys, p, mid, q, end, s, r);
    ViewInTrail(Written(end));
    assert RecordOk(c, end.clock, r);
  }

  lemma ReadyExtends(c: Settings, p: Pass, mid: Sys, q: Pass, end: Sys)
    requires Runs(c, p.ready, [Start] + p.steps, mid) && Runs(c, mid, q.sweep, q.ready)
    requires Runs(c, q.ready, [Start] + q.steps, end)
    ensures Written(p.ready) <= Written(end)
  {
    RunExtends(c, p.ready, [Start] + p.steps, mid);
    RunExtends(c, mid, q.sweep, q.ready);
    RunExtends(c, q.ready, [Start] + q.steps, end);
  }

  lemma HasWalletAsked(c: Settings, start: Sys, actions: seq<Action>, sys: Sys, p: Pass, mid: Sys, s: SettlementRecord)
    requires Init(start) && Runs(c, start, actions, sys) && IsPass(c, sys, p, mid) && s in View(Written(p.ready))
    requires forall f :: (f in p.ready.log || f in Replies(actions)) && Names(f, s.receiptId) ==>
               GoodWallet(WalletOf(f))
    ensures GoodWallet(s.wallet)
  {
    ViewInTrail(Written(p.ready));
    RunsJoin(c, start, actions, sys, p.sweep, p.ready);
    var f := WalletIsAsked(c, start, actions + p.sweep, p.ready, s);
    NoRepliesInSweep(Visited(sys.log), p.sweep, actions);
  }

  lemma NoRepliesInSweep(visited: seq<Envelope>, sweep: seq<Action>, actions: seq<Action>)
    requires IsSweep(visited, sweep)
    ensures Replies(actions + sweep) == Replies(actions)
  {
    forall e | e in Replies(actions + sweep)
      ensures e in Replies(actions)
    {
      var a :| a in actions + sweep && a.Receive? && a.read == e;
      SweptByRequests(visited, sweep);
    }
    forall e | e in Replies(actions)
      ensures e in Replies(actions + sweep)
    {
      var a :| a in actions && a.Receive? && a.read == e;
      assert a in actions + sweep;
    }
  }
}
