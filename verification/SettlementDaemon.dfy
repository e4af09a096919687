/** The settlement half of the DaemonRuntime object of service.py.  Every method is proved to be a run of the
    settlement state machine, whatever other coroutines do at its await points and whatever the chain says. */
module SettlementDaemon {
  import opened Collections
  import opened EventLog
  import opened SettlementFold
  import opened SettlementMachine
  import opened SettlementSafety
  import opened SettlementTheorems
  import opened SettlementProgress
  import opened EventStore

  /** Stands in for uuid4: an event id the log does not hold. */
  function FreshId(log: Log): (id: Key)
    ensures !HasEvent(log, id)
  {
    LongestBounds(log);
    Key(Longest(log) + "0")
  }

  function Longest(log: Log): string {
    if log == [] then "" else Longest(log[..|log| - 1]) + log[|log| - 1].eventId.text
  }

  lemma {:induction false} LongestBounds(log: Log)
    ensures forall e :: e in log ==> |e.eventId.text| <= |Longest(log)|
  {
    if log != [] {
      LongestBounds(log[..|log| - 1]);
      assert log == log[..|log| - 1] + [log[|log| - 1]];
    }
  }

  lemma RunOne(c: Settings, sys: Sys, a: Action)
    requires Enabled(c, sys, a)
    ensures Runs(c, sys, [a], Apply(c, sys, a))
  {
    assert ([a])[1..] == [];
  }

  lemma {:induction false} ReceiptsUnchanged(c: Settings, sys: Sys, sweep: seq<Action>, end: Sys)
    requires Runs(c, sys, sweep, end) && forall a :: a in sweep ==> a.Request?
    ensures ExecutionReceipts(end.log) == ExecutionReceipts(sys.log)
    ensures VerificationReceipts(end.log) == VerificationReceipts(sys.log)
    ensures forall id :: VerificationRequestOf(end.log, id) == VerificationRequestOf(sys.log, id)
    ensures end.walk == sys.walk && end.reply == sys.reply
    decreases |sweep|
  {
    if sweep == [] {
    } else {
      assert sweep[0] in sweep;
      var next := Apply(c, sys, sweep[0]);
      if next.log != sys.log {
        assert next.log[..|next.log| - 1] == sys.log;
      }
      ReceiptsUnchanged(c, next, sweep[1..], end);
    }
  }

  lemma SweepJoin(a: seq<Envelope>, s: seq<Action>, b: seq<Envelope>, t: seq<Action>)
    requires IsSweep(a, s) && IsSweep(b, t)
    ensures IsSweep(a + b, s + t)
  {
  }

  lemma SweepNext(c: Settings, start: Sys, before: Sys, now: Sys, receipts: seq<Envelope>, i: nat, sweep: seq<Action>,
          ran: seq<Action>)
    requires i < |receipts| && Runs(c, start, sweep, before) && Runs(c, before, ran, now)
    requires IsSweep(receipts[..i], sweep) && IsSweep([receipts[i]], ran)
    ensures Runs(c, start, sweep + ran, now) && IsSweep(receipts[..i + 1], sweep + ran)
  {
    RunsJoin(c, start, sweep, before, ran, now);
    SweepJoin(receipts[..i], sweep, [receipts[i]], ran);
    assert receipts[..i + 1] == receipts[..i] + [receipts[i]];
  }

  /** The last verification request logged under each id. */
  ghost predicate Indexes(log: Log, requests: map<Key, VerificationRequest>) {
    forall id :: VerificationRequestOf(log, id) == if id in requests then Some(requests[id]) else None
  }

  predicate IsReceipt(e: Envelope) {
    e.payload.ExecReceipt? || e.payload.VerifReceipt?
  }

  ghost predicate Logged(log: Log, receipts: seq<Envelope>) {
    forall e :: e in receipts ==> e in log && IsReceipt(e)
  }

  /** What phase one reads does not change under its own requests. */
  lemma SweepKeeps(c: Settings, sys: Sys, visited: seq<Envelope>, sweep: seq<Action>, end: Sys,
                   requests: map<Key, VerificationRequest>, receipts: seq<Envelope>)
    requires Runs(c, sys, sweep, end) && IsSweep(visited, sweep)
    requires Indexes(sys.log, requests) && Logged(sys.log, receipts)
    ensures Indexes(end.log, requests) && Logged(end.log, receipts)
  {
    ReceiptsUnchanged(c, sys, sweep, end);
    RunExtends(c, sys, sweep, end);
    assert forall e :: e in sys.log ==> e in end.log;
  }

  datatype TxStatus = Success | Failure

  class DaemonRuntime {
    const settings: Settings
    const store: LocalEventStore
    const signer: Key
    /** The time of the last settlement step. */
    var clock: Time
    /** What the chain has taken, what is left of the reconciler's snapshot, and the answer it holds. */
    ghost var ledger: seq<Payment>
    ghost var walk: seq<SettlementRecord>
    ghost var reply: Option<Outcome>

    ghost function State(): Sys
      reads this, store
    {
      Sys(store.AllEnvelopes(), clock, ledger, walk, reply)
    }

    ghost predicate Valid()
      reads this, store
    {
      Safe(settings, State())
    }

    /** The object went through these steps of the state machine. */
    twostate predicate Did(steps: seq<Action>)
      reads this, store
    {
      Runs(settings, old(State()), steps, State())
    }

    constructor (settings: Settings, signer: Key, now: Time)
      ensures Valid() && fresh(store) && AtRest(State()) && Init(State()) && this.settings == settings
    {
      this.settings := settings;
      this.signer := signer;
      store := new LocalEventStore();
      clock := now;
      ledger, walk, reply := [], [], None;
      new;
      InitSafe(settings, State());
    }

    /** A clock that never runs backwards. */
    method Now() returns (now: Time)
      ensures now >= clock
    {
      now := *;
      if now < clock {
        now := clock;
      }
    }

    method StoreSettlement(r: SettlementRecord, now: Time) returns (id: Key)
      modifies store
      ensures !HasEvent(old(store.AllEnvelopes()), id)
      ensures store.AllEnvelopes() == Stored(old(store.AllEnvelopes()), Some(r), now, id, signer)
    {
      id := FreshId(store.AllEnvelopes());
      var _ := store.Append(Envelope(id, signer, now, Settlement(r)), now);
    }

    /** request_settlement for the settlement built from the receipt e, logged or not: writes it, unless the receipt
        already has one. */
    method RequestSettlement(s: Option<SettlementRecord>, now: Time, ghost e: Envelope)
      returns (shown: Option<SettlementRecord>, ghost id: Key)
      requires now >= clock && s == Built(settings, store.AllEnvelopes(), e, now)
      modifies this`clock, store
      ensures !HasEvent(old(store.AllEnvelopes()), id)
      ensures State() == Asked(settings, old(State()), e, now, id, signer)
      ensures shown.Some? <==> s.Some?
      ensures s.Some? ==> shown == ByReceipt(TrailOf(old(store.AllEnvelopes())), s.value.receiptId) ||
                          (shown == s && ByReceipt(TrailOf(old(store.AllEnvelopes())), s.value.receiptId).None?)
    {
      id := FreshId(store.AllEnvelopes());
      shown := None;
      if s.Some? {
        shown := store.SettlementByReceipt(s.value.receiptId);
        if shown.None? {
          var written := StoreSettlement(s.value, now);
          id := written;
          shown := s;
        }
      }
      clock := now;
    }

    /** The same for a logged receipt, as a step of the machine. */
    method RequestLogged(s: Option<SettlementRecord>, now: Time, ghost e: Envelope) returns (ghost steps: seq<Action>)
      requires e in store.AllEnvelopes() && now >= clock && s == Built(settings, store.AllEnvelopes(), e, now)
      modifies this`clock, store
      ensures Did(steps) && |steps| == 1 && steps[0].Request? && steps[0].e == e
    {
      ghost var before := State();
      var _, id := RequestSettlement(s, now, e);
      steps := [Request(e, now, id, signer)];
      RunOne(settings, before, steps[0]);
    }

    /** An envelope another node sent, or one of ours that is no settlement event. */
    method Import(e: Envelope, now: Time) returns (ghost steps: seq<Action>)
      requires !e.payload.Settlement?
      modifies store
      ensures Did(steps) && steps == [Arrive(e)]
      ensures State() == old(State()).(log := Appended(old(State()).log, e))
    {
      ghost var before := State();
      var _ := store.Append(e, now);
      steps := [Arrive(e)];
      assert State() == Apply(settings, before, steps[0]);
      RunOne(settings, before, steps[0]);
    }

    /** Builds the settlement a receipt calls for and requests it. */
    method RequestFor(e: Envelope) returns (ghost steps: seq<Action>)
      requires e in store.AllEnvelopes()
      modifies this`clock, store
      ensures Did(steps) && |steps| == 1 && steps[0].Request? && steps[0].e == e
    {
      var now := Now();
      var s := Built(settings, store.AllEnvelopes(), e, now);
      steps := RequestLogged(s, now, e);
    }

    /** What request_job does with the envelope a worker returned, from verifying it to settling it; nothing is
        awaited in between.  `parsed` is nothing when its payload is no execution receipt, or carries a diagnosis
        that cannot be read. */
    method AcceptReply(sent: Envelope, verified: bool, parsed: Option<ExecutionReceipt>, diagnosis: Option<Key>)
      returns (raised: bool, ghost steps: seq<Action>)
      requires !sent.payload.Settlement?
      requires parsed.Some? ==> ReadAs(sent, sent.(payload := ExecReceipt(parsed.value)))
      modifies this`clock, store
      ensures Did(steps) && raised == (!verified || parsed.None?)
      ensures raised ==> steps == if verified then [Arrive(sent)] else []
      ensures !raised ==> |steps| == 1 && steps[0].Receive? && steps[0].sent == sent
                          && steps[0].read == sent.(payload := ExecReceipt(parsed.value))
                          && (steps[0].diagnosis.Some? <==> diagnosis.Some?)
    {
      ghost var start := State();
      if !verified {
        return true, [];
      }
      var arrival := Import(sent, clock);
      if parsed.None? {
        return true, arrival;
      }
      ghost var noted := Option<Envelope>.None;
      if diagnosis.Some? {
        var e := Envelope(FreshId(store.AllEnvelopes()), signer, clock, Other(diagnosis.value));
        var _ := Import(e, clock);
        noted := Some(e);
      }
      var now := Now();
      ghost var read := sent.(payload := ExecReceipt(parsed.value));
      ghost var ready := State();
      var _, id := RequestSettlement(BuildExecution(settings, parsed.value, now), now, read);
      raised, steps := false, [Receive(sent, read, noted, now, id, signer)];
      assert ready == start.(log := Received(start.log, sent, noted));
      RunOne(settings, start, steps[0]);
    }

    /** A job request of another coroutine hears from its worker. */
    method OtherReply() returns (ghost steps: seq<Action>)
      modifies this`clock, store
      ensures Did(steps) && forall a :: a in steps ==> Brings(a)
    {
      var sent: Envelope := *;
      var verified: bool := *;
      var parsed: Option<ExecutionReceipt> := *;
      var diagnosis: Option<Key> := *;
      steps := [];
      if !sent.payload.Settlement? && (parsed.Some? ==> ReadAs(sent, sent.(payload := ExecReceipt(parsed.value)))) {
        var _, ran := AcceptReply(sent, verified, parsed, diagnosis);
        steps := ran;
      }
    }

    /** An await point: any number of steps by other coroutines. */
    method AwaitOthers() returns (ghost steps: seq<Action>)
      modifies this`clock, store
      ensures Did(steps) && forall a :: a in steps ==> Brings(a) || a.Request?
    {
      steps := [];
      ghost var start := State();
      var n: int := *;
      while 0 < n
        invariant Runs(settings, start, steps, State()) && forall a :: a in steps ==> Brings(a) || a.Request?
      {
        n := n - 1;
        ghost var before := State();
        ghost var ran: seq<Action> := [];
        if * {
          var e: Envelope := *;
          if !e.payload.Settlement? {
            ran := Import(e, clock);
          }
        } else if * {
          ran := OtherReply();
        } else {
          var k: int := *;
          var log := store.AllEnvelopes();
          if 0 <= k < |log| {
            ran := RequestFor(log[k]);
          }
        }
        RunsJoin(settings, start, steps, before, ran, State());
        steps := steps + ran;
      }
    }

    /** The chain's answer, recorded when it is given. */
    ghost method Answer(o: Outcome) returns (step: Action)
      requires walk != [] && reply == None && Possible(settings, walk[0], o)
      modifies this`ledger, this`reply
      ensures Did([step]) && step == Call(o) && reply == Some(o)
    {
      var before := State();
      step := Call(o);
      if o.Sent? {
        ledger := ledger + [Payment(walk[0].receiptId, o.hash, o.amount)];
      }
      reply := Some(o);
      RunOne(settings, before, step);
    }

    /** Returns the hash, the amount sent and the error, as _broadcast_native_payment does. */
    method BroadcastNativePayment(s: SettlementRecord)
      returns (hash: Option<string>, sent: Option<int>, error: Option<string>, ghost steps: seq<Action>)
      requires walk != [] && walk[0] == s && reply == None && NeedsBroadcast(s)
      modifies this`clock, this`ledger, this`reply, store
      ensures Did(steps) && Carried(steps)
      ensures reply.Some? && (reply.value.Sent? || reply.value.Refused?)
      ensures reply.value.Sent? ==>
                hash == Some(reply.value.hash) && hash.value != "" && sent == Some(reply.value.amount)
      ensures reply.value.Refused? ==> (hash.None? || hash.value == "") && error == reply.value.reason
      ensures !Broadcastable(settings, s) ==> reply.value.Refused?
      ensures !settings.rpcConfigured ==> reply.value.reason == Some("no settlement_rpc_url configured")
      ensures settings.rpcConfigured && s.network != settings.network ==>
                reply.value.reason == Some("settlement network not supported")
      ensures settings.rpcConfigured && s.network == settings.network && !LooksLikeWallet(s.wallet) ==>
                reply.value.reason == Some("invalid worker wallet")
      ensures settings.rpcConfigured && s.network == settings.network && LooksLikeWallet(s.wallet)
              && settings.fixedAmount <= 0 ==>
                reply.value.reason == Some("amount is zero")
      ensures settings.rpcConfigured && s.network == settings.network && LooksLikeWallet(s.wallet)
              && settings.fixedAmount > 0 && !settings.signerConfigured ==>
                reply.value.reason == Some("no payment private key configured")
    {
      ghost var start := State();
      hash, sent, error := None, None, None;
      if !settings.rpcConfigured {
        error := Some("no settlement_rpc_url configured");
      } else if s.network != settings.network {
        error := Some("settlement network not supported");
      } else if !LooksLikeWallet(s.wallet) {
        error := Some("invalid worker wallet");
      } else if settings.fixedAmount <= 0 {
        error := Some("amount is zero");
      } else if !settings.signerConfigured {
        error := Some("no payment private key configured");
      } else {
        steps := AwaitOthers();
        ghost var mid := State();
        hash := *;
        ghost var step;
        if hash.Some? && hash.value != "" {
          sent := Some(settings.fixedAmount);
          step := Answer(Sent(hash.value, settings.fixedAmount));
        } else {
          if hash.None? {
            error := *;
          }
          step := Answer(Refused(error));
        }
        RunsJoin(settings, start, steps, mid, [step], State());
        steps := steps + [step];
        return;
      }
      ghost var step := Answer(Refused(error));
      steps := [step];
    }

    /** Returns the mined transaction's status, or nothing while there is none.  Raises when the RPC's receipt is
        not an object. */
    method CheckTxReceipt(s: SettlementRecord)
      returns (raised: bool, status: Option<TxStatus>, error: Option<string>, ghost steps: seq<Action>)
      requires walk != [] && walk[0] == s && reply == None && NeedsPoll(s)
      modifies this`clock, this`ledger, this`reply, store
      ensures Did(steps) && Carried(steps)
      ensures raised ==> reply == None
      ensures !raised ==>
                reply == Some(if status == Some(Success) then Mined
                              else if status == Some(Failure) then Reverted(error)
                              else Unknown)
      ensures !settings.rpcConfigured ==> !raised && status == None
    {
      ghost var start := State();
      raised, status, error := false, None, None;
      if settings.rpcConfigured {
        steps := AwaitOthers();
        raised := *;
        if raised {
          return;
        }
        ghost var mid := State();
        status := *;
        if status == Some(Failure) {
          error := Some("transaction reverted");
        }
        ghost var step := Answer(if status == Some(Success) then Mined
                                 else if status == Some(Failure) then Reverted(error)
                                 else Unknown);
        RunsJoin(settings, start, steps, mid, [step], State());
        steps := steps + [step];
      } else {
        ghost var step := Answer(Unknown);
        steps := [step];
      }
    }

    /** Writes what became of the first item of the snapshot, and moves on. */
    method Conclude(outcome: Option<SettlementRecord>, now: Time) returns (ghost step: Action)
      requires walk != [] && reply.Some? && now >= clock && outcome == Settled(settings, walk[0], reply.value, now)
      modifies this`clock, this`walk, this`reply, store
      ensures Did([step]) && step.Finish? && walk == old(walk)[1..] && reply == None
    {
      ghost var before := State();
      ghost var id := FreshId(before.log);
      if outcome.Some? {
        var written := StoreSettlement(outcome.value, now);
        id := written;
      }
      clock, walk, reply := now, walk[1..], None;
      step := Finish(now, id, signer);
      assert State() == Apply(settings, before, step);
      RunOne(settings, before, step);
    }

    method ReconcileBroadcast(s: SettlementRecord) returns (ghost steps: seq<Action>)
      requires walk != [] && walk[0] == s && reply == None && NeedsBroadcast(s)
      modifies this, store
      ensures Did(steps) && Carried(steps) && walk == old(walk)[1..] && reply == None
    {
      ghost var start := State();
      var hash, sent, error, ran := BroadcastNativePayment(s);
      ghost var mid := State();
      var now := Now();
      ghost var step;
      if hash.Some? && hash.value != "" {
        var currency := Or(settings.currency, Some(s.currency));
        step := Conclude(
          Some(s.(status := Triggered, txHash := hash, amount := if sent.Some? then sent.value else s.amount,
                  network := settings.network, failure := None, updatedAt := now,
                  currency := if currency.Some? then currency.value else s.currency)), now);
      } else {
        step := Conclude(Some(s.(status := Failed, failure := Some(OrText(error, "broadcast failed")),
            updatedAt := now)), now);
      }
      RunsJoin(settings, start, ran, mid, [step], State());
      steps := ran + [step];
    }

    method ReconcilePoll(s: SettlementRecord) returns (raised: bool, ghost steps: seq<Action>)
      requires walk != [] && walk[0] == s && reply == None && NeedsPoll(s)
      modifies this, store
      ensures Did(steps) && Carried(steps) && reply == None
      ensures walk == if raised then old(walk) else old(walk)[1..]
    {
      ghost var start := State();
      var status, error;
      raised, status, error, steps := CheckTxReceipt(s);
      if raised {
        return;
      }
      ghost var mid := State();
      var now := Now();
      ghost var step;
      if status == Some(Success) {
        step := Conclude(Some(s.(status := Confirmed, failure := None, updatedAt := now)), now);
      } else if status == Some(Failure) {
        step := Conclude(Some(s.(status := Failed, failure := Some(OrText(error, "transaction reverted")),
            updatedAt := now)), now);
      } else {
        step := Conclude(None, now);
      }
      RunsJoin(settings, start, steps, mid, [step], State());
      steps := steps + [step];
    }

    method ReconcileItem(s: SettlementRecord) returns (raised: bool, ghost steps: seq<Action>)
      requires walk != [] && walk[0] == s && reply == None
      modifies this, store
      ensures Did(steps) && Carried(steps) && reply == None
      ensures walk == if raised then old(walk) else old(walk)[1..]
    {
      ghost var before := State();
      raised := false;
      if s.status == Pending || (s.status == Failed && !HasHash(s)) {
        steps := ReconcileBroadcast(s);
      } else if s.status == Triggered && HasHash(s) {
        raised, steps := ReconcilePoll(s);
      } else {
        walk := walk[1..];
        steps := [Skip];
        RunOne(settings, before, Skip);
      }
    }

    /** The last verification request logged under each id. */
    method VerificationRequests() returns (requests: map<Key, VerificationRequest>)
      ensures Indexes(store.AllEnvelopes(), requests)
    {
      var log := store.AllEnvelopes();
      requests := map[];
      for i := 0 to |log|
        invariant Indexes(log[..i], requests)
      {
        assert log[..i + 1][..i] == log[..i];
        if log[i].payload.VerifRequest? {
          requests := requests[log[i].payload.verification.verificationId := log[i].payload.verification];
        }
      }
      assert log[..|log|] == log;
    }

    /** One receipt of phase one.  Nothing is built when it has a settlement or no request is known. */
    method Visit(e: Envelope, requests: map<Key, VerificationRequest>) returns (ghost steps: seq<Action>)
      requires e in store.AllEnvelopes() && IsReceipt(e) && Indexes(store.AllEnvelopes(), requests)
      modifies this`clock, store
      ensures Did(steps) && |steps| == 1 && steps[0].Request? && steps[0].e == e
    {
      var receipt := if e.payload.ExecReceipt? then e.payload.receipt.receiptId else e.payload.verified.receiptId;
      var known := store.SettlementByReceipt(receipt);
      if known.None? && e.payload.ExecReceipt? {
        var now := Now();
        steps := RequestLogged(BuildExecution(settings, e.payload.receipt, now), now, e);
        return;
      }
      if known.None? && e.payload.verified.verificationId in requests {
        var now := Now();
        var s := BuildVerification(settings, e.payload.verified, requests[e.payload.verified.verificationId], now);
        steps := RequestLogged(s, now, e);
        return;
      }
      steps := PassOver(e);
    }

    /** Nothing is written for a receipt that has a settlement or calls for none. */
    ghost method PassOver(e: Envelope) returns (steps: seq<Action>)
      requires e in store.AllEnvelopes() && Wanted(settings, store.AllEnvelopes(), e, clock).None?
      ensures Did(steps) && |steps| == 1 && steps[0].Request? && steps[0].e == e
    {
      steps := [Request(e, clock, FreshId(store.AllEnvelopes()), signer)];
      assert State() == Apply(settings, State(), steps[0]);
      RunOne(settings, State(), steps[0]);
    }

    method VisitAll(receipts: seq<Envelope>, requests: map<Key, VerificationRequest>) returns (ghost sweep: seq<Action>)
      requires Logged(store.AllEnvelopes(), receipts) && Indexes(store.AllEnvelopes(), requests)
      modifies this`clock, store
      ensures Did(sweep) && IsSweep(receipts, sweep)
    {
      sweep := [];
      ghost var start := State();
      for i := 0 to |receipts|
        invariant Runs(settings, start, sweep, State()) && IsSweep(receipts[..i], sweep)
        invariant Logged(store.AllEnvelopes(), receipts) && Indexes(store.AllEnvelopes(), requests)
      {
        ghost var before := State();
        assert receipts[i] in receipts;
        ghost var ran := Visit(receipts[i], requests);
        SweepKeeps(settings, before, [receipts[i]], ran, State(), requests, receipts);
        SweepNext(settings, start, before, State(), receipts, i, sweep, ran);
        sweep := sweep + ran;
      }
      assert receipts[..|receipts|] == receipts;
    }

    /** One reconcile pass: phase one over the receipts, then the walk of a snapshot of the settlements.  When it
        raises, the settlement loop drops the rest of the pass: still a run of the machine, and still safe. */
    method ReconcilePendingSettlements() returns (raised: bool, ghost pass: Pass)
      requires Valid() && AtRest(State())
      modifies this, store
      ensures Valid() && AtRest(State())
      ensures !raised ==> IsPass(settings, old(State()), pass, State())
      ensures raised ==> Did(CutShort(pass))
    {
      ghost var start := State();
      ghost var sweep := Sweep();
      ghost var ready := State();
      ReceiptsUnchanged(settings, start, sweep, ready);
      ghost var steps;
      raised, steps := WalkSettlements();
      pass := Pass(sweep, ready, steps);
      if raised {
        RunsJoin(settings, start, sweep, ready, [Start] + steps + [Abandon], State());
        SafeAlways(settings, start, CutShort(pass), State());
      } else {
        PassSafe(settings, start, pass, State());
      }
    }

    /** Phase one: request a settlement for every receipt that calls for one. */
    method Sweep() returns (ghost sweep: seq<Action>)
      modifies this`clock, store
      ensures Did(sweep) && IsSweep(Visited(old(store.AllEnvelopes())), sweep)
    {
      ghost var start := State();
      var requests := VerificationRequests();
      VisitedAre(start.log);
      var executions := ExecutionReceipts(store.AllEnvelopes());
      ghost var first := VisitAll(executions, requests);
      ghost var mid := State();
      ReceiptsUnchanged(settings, start, first, mid);
      SweepKeeps(settings, start, executions, first, mid, requests, VerificationReceipts(start.log));
      var verifications := VerificationReceipts(store.AllEnvelopes());
      ghost var second := VisitAll(verifications, requests);
      RunsJoin(settings, start, first, mid, second, State());
      SweepJoin(executions, first, verifications, second);
      sweep := first + second;
    }

    /** The walk: a snapshot of the settlements, each item dealt with against whatever the log has become. */
    method WalkSettlements() returns (raised: bool, ghost steps: seq<Action>)
      requires AtRest(State())
      modifies this, store
      ensures AtRest(State())
      ensures !raised ==> IsWalk(settings, old(State()), steps, State())
      ensures raised ==> Did([Start] + steps + [Abandon])
    {
      ghost var ready := State();
      var view := store.Settlements();
      walk := view;
      ghost var begun := State();
      steps, raised := [], false;
      var i := 0;
      while i < |view| && !raised
        invariant 0 <= i <= |view| && walk == view[i..] && reply == None && (raised ==> walk != [])
        invariant Runs(settings, begun, steps, State()) && Carried(steps)
        decreases |view| - i, !raised
      {
        ghost var before := State();
        ghost var ran;
        raised, ran := ReconcileItem(view[i]);
        RunsJoin(settings, begun, steps, before, ran, State());
        steps := steps + ran;
        if !raised {
          i := i + 1;
        }
      }
      RunOne(settings, ready, Start);
      RunsJoin(settings, ready, [Start], begun, steps, State());
      if raised {
        ghost var before := State();
        walk := [];
        RunOne(settings, before, Abandon);
        RunsJoin(settings, ready, [Start] + steps, before, [Abandon], State());
      }
    }
  }
}
