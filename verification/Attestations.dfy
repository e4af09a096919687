/** Backfilling attestations: one per receipt of the log that has none yet. */
module Attestations {
  import opened Collections
  import opened EventLog
  import opened EventStore

  // ---- which attestations a log calls for ----

  function ExecutionAttestation(issuer: Key, r: ExecutionReceipt): Attestation {
    Attestation(OfExecution(r.receiptId), r.workerPeer, issuer, r.jobId, r.receiptId, r.result.success)
  }

  function VerificationAttestation(issuer: Key, r: VerificationReceipt,
          primary: Option<ExecutionReceipt>): Attestation {
    Attestation(OfVerification(r.receiptId),
                if primary.Some? && primary.value.workerPeer.text != "" then primary.value.workerPeer
                    else r.verifierPeer,
                issuer, r.result.jobId, r.receiptId, !r.mismatch)
  }

  /** The last of these execution receipts with this id. */
  function PrimaryOf(receipts: seq<Envelope>, id: Key): Option<ExecutionReceipt> {
    if receipts == [] then None
    else
      var e := receipts[|receipts| - 1];
      if e.payload.ExecReceipt? && e.payload.receipt.receiptId == id then Some(e.payload.receipt)
      else PrimaryOf(receipts[..|receipts| - 1], id)
  }

  ghost function Called(issuer: Key, log: Log, e: Envelope): Option<Attestation> {
    match e.payload
    case ExecReceipt(r) => Some(ExecutionAttestation(issuer, r))
    case VerifReceipt(r) => Some(VerificationAttestation(issuer, r,
        PrimaryOf(ExecutionReceipts(log), r.primaryReceiptId)))
    case _ => None
  }

  function AttestedIds(log: Log): seq<AttestationId> {
    if log == [] then []
    else
      var e := log[|log| - 1];
      AttestedIds(log[..|log| - 1]) + if e.payload.Attest? then [e.payload.attestation.id] else []
  }

  /** The ids known are those of the attestations logged. */
  lemma {:induction false} AttestedIff(log: Log, id: AttestationId)
    ensures id in AttestedIds(log) <==> exists e :: e in log && e.payload.Attest? && e.payload.attestation.id == id
  {
    if log != [] {
      var init, e := log[..|log| - 1], log[|log| - 1];
      AttestedIff(init, id);
      assert log == init + [e];
      assert forall f :: f in log <==> f in init || f == e;
    }
  }

  function Ids(pending: seq<Attestation>): (ids: seq<AttestationId>)
    ensures |ids| == |pending| && forall i :: 0 <= i < |pending| ==> ids[i] == pending[i].id
  {
    seq(|pending|, i requires 0 <= i < |pending| => pending[i].id)
  }

  /** Goes over the receipts, keeping the first attestation under each id that is not known yet. */
  ghost function Fill(issuer: Key, log: Log, receipts: seq<Envelope>): seq<Attestation> {
    if receipts == [] then []
    else
      var init, a := Fill(issuer, log, receipts[..|receipts| - 1]), Called(issuer, log, receipts[|receipts| - 1]);
      if a.None? || a.value.id in AttestedIds(log) || a.value.id in Ids(init) then init else init + [a.value]
  }

  ghost function Backfill(issuer: Key, log: Log): seq<Attestation> {
    Fill(issuer, log, ExecutionReceipts(log) + VerificationReceipts(log))
  }

  ghost predicate CalledFor(issuer: Key, log: Log, receipts: seq<Envelope>, id: AttestationId) {
    exists e :: e in receipts && Called(issuer, log, e).Some? && Called(issuer, log, e).value.id == id
  }

  /** The backfill holds exactly the ids that receipts call for and the log lacks, each once. */
  lemma {:induction false} FillIs(issuer: Key, log: Log, receipts: seq<Envelope>)
    ensures NoDup(Ids(Fill(issuer, log, receipts)))
    ensures forall id :: id in Ids(Fill(issuer, log, receipts)) <==>
              id !in AttestedIds(log) && CalledFor(issuer, log, receipts, id)
  {
    if receipts == [] {
    } else {
      var init, e := receipts[..|receipts| - 1], receipts[|receipts| - 1];
      FillIs(issuer, log, init);
      var before, after, a := Fill(issuer, log, init), Fill(issuer, log, receipts), Called(issuer, log, e);
      assert receipts == init + [e];
      forall id
        ensures CalledFor(issuer, log, receipts, id) <==>
                  CalledFor(issuer, log, init, id) || (a.Some? && a.value.id == id)
      {
        if CalledFor(issuer, log, init, id) {
          var f :| f in init && Called(issuer, log, f).Some? && Called(issuer, log, f).value.id == id;
          assert f in receipts;
        }
        if a.Some? && a.value.id == id {
          assert e in receipts;
        }
      }
      assert after != before ==> Ids(after) == Ids(before) + [a.value.id];
    }
  }

  // ---- what they say ----

  /** receipts[p] is the last execution receipt with this id. */
  ghost predicate PrimaryAt(receipts: seq<Envelope>, id: Key, p: nat) {
    && p < |receipts| && receipts[p].payload.ExecReceipt? && receipts[p].payload.receipt.receiptId == id
    && forall k :: p < k < |receipts| && receipts[k].payload.ExecReceipt? ==>
        receipts[k].payload.receipt.receiptId != id
  }

  lemma {:induction false} PrimaryIsAt(receipts: seq<Envelope>, id: Key, p: nat)
    requires PrimaryAt(receipts, id, p)
    ensures PrimaryOf(receipts, id) == Some(receipts[p].payload.receipt)
  {
    if p < |receipts| - 1 {
      var init := receipts[..|receipts| - 1];
      assert forall k :: p < k < |init| ==> init[k] == receipts[k];
      PrimaryIsAt(init, id, p);
    }
  }

  lemma {:induction false} PrimaryIsNone(receipts: seq<Envelope>, id: Key)
    requires forall e :: e in receipts && e.payload.ExecReceipt? ==> e.payload.receipt.receiptId != id
    ensures PrimaryOf(receipts, id) == None
  {
    if receipts != [] {
      assert receipts[|receipts| - 1] in receipts;
      PrimaryIsNone(receipts[..|receipts| - 1], id);
    }
  }

  /** An execution is attested in favour of its worker if and only if it succeeded. */
  ghost predicate AttestsExecution(issuer: Key, x: ExecutionReceipt, a: Attestation) {
    && a.id == OfExecution(x.receiptId) && a.receiptId == x.receiptId && a.jobId == x.jobId && a.issuer == issuer
    && a.subject == x.workerPeer && (a.favourable <==> x.result.success)
  }

  /** A verification is attested about the worker of the receipt it checked, or about the verifier when that is unknown
      or nameless, and favourably if and only if it found no mismatch. */
  ghost predicate AttestsVerification(issuer: Key, executions: seq<Envelope>, x: VerificationReceipt, a: Attestation) {
    && a.id == OfVerification(x.receiptId) && a.receiptId == x.receiptId && a.jobId == x.result.jobId
    && a.issuer == issuer && (a.favourable <==> !x.mismatch)
    && (forall p: nat :: PrimaryAt(executions, x.primaryReceiptId, p) ==>
          var worker := executions[p].payload.receipt.workerPeer;
          a.subject == if worker.text != "" then worker else x.verifierPeer)
    && ((forall e :: e in executions && e.payload.ExecReceipt? ==>
           e.payload.receipt.receiptId != x.primaryReceiptId) ==>
          a.subject == x.verifierPeer)
  }

  ghost predicate Attests(issuer: Key, log: Log, e: Envelope, a: Attestation) {
    match e.payload
    case ExecReceipt(x) => AttestsExecution(issuer, x, a)
    case VerifReceipt(x) => AttestsVerification(issuer, ExecutionReceipts(log), x, a)
    case _ => false
  }

  lemma CalledAttests(issuer: Key, log: Log, e: Envelope)
    requires Called(issuer, log, e).Some?
    ensures Attests(issuer, log, e, Called(issuer, log, e).value)
  {
    if e.payload.VerifReceipt? {
      var executions, x := ExecutionReceipts(log), e.payload.verified;
      forall p: nat | PrimaryAt(executions, x.primaryReceiptId, p)
        ensures PrimaryOf(executions, x.primaryReceiptId) == Some(executions[p].payload.receipt)
      {
        PrimaryIsAt(executions, x.primaryReceiptId, p);
      }
      if forall f :: f in executions && f.payload.ExecReceipt? ==> f.payload.receipt.receiptId != x.primaryReceiptId {
        PrimaryIsNone(executions, x.primaryReceiptId);
      }
    }
  }

  /** Each attestation added says of the receipt it is for whose work it attests, and whether it speaks for it; the
      receipts come in the order in which they were gone over. */
  lemma {:induction false} FillAttests(issuer: Key, log: Log, receipts: seq<Envelope>) returns (of: seq<nat>)
    ensures var added := Fill(issuer, log, receipts);
            && |of| == |added| && (forall i, j :: 0 <= i < j < |of| ==> of[i] < of[j])
            && forall i :: 0 <= i < |of| ==> of[i] < |receipts| && Attests(issuer, log, receipts[of[i]], added[i])
  {
    if receipts == [] {
      of := [];
    } else {
      var init, e := receipts[..|receipts| - 1], receipts[|receipts| - 1];
      of := FillAttests(issuer, log, init);
      if Fill(issuer, log, receipts) != Fill(issuer, log, init) {
        CalledAttests(issuer, log, e);
        of := of + [|init|];
      }
    }
  }

  // ---- writing them ----

  /** `longer` is `log` with these attestations appended, in order, in envelopes of their own. */
  ghost predicate Attested(log: Log, pending: seq<Attestation>, longer: Log) {
    && |longer| == |log| + |pending| && longer[..|log|] == log
    && forall i :: 0 <= i < |pending| ==> longer[|log| + i].payload == Attest(pending[i])
  }

  lemma AttestedNext(log: Log, pending: seq<Attestation>, k: nat, longer: Log, e: Envelope)
    requires k < |pending| && Attested(log, pending[..k], longer) && e.payload == Attest(pending[k])
    ensures Attested(log, pending[..k + 1], longer + [e])
  {
  }

  lemma FreshStay(log: Log, e: Envelope, ids: seq<Key>, k: nat)
    requires k < |ids| && NoDup(ids) && e.eventId == ids[k] && forall j :: k <= j < |ids| ==> !HasEvent(log, ids[j])
    ensures forall j :: k < j < |ids| ==> !HasEvent(log + [e], ids[j])
  {
  }

  lemma {:induction false} AttestedLog(log: Log, pending: seq<Attestation>, longer: Log)
    requires Attested(log, pending, longer)
    ensures AttestedIds(longer) == AttestedIds(log) + Ids(pending)
    ensures ExecutionReceipts(longer) == ExecutionReceipts(log)
              && VerificationReceipts(longer) == VerificationReceipts(log)
    decreases |pending|
  {
    if pending == [] {
      assert longer == log && Ids(pending) == [];
      assert AttestedIds(log) + [] == AttestedIds(log);
    } else {
      var init, last := pending[..|pending| - 1], pending[|pending| - 1];
      var shorter := longer[..|longer| - 1];
      assert shorter[..|log|] == log;
      forall i | 0 <= i < |init|
        ensures shorter[|log| + i].payload == Attest(init[i])
      {
        assert longer[|log| + i].payload == Attest(pending[i]);
      }
      AttestedLog(log, init, shorter);
      assert longer[|log| + (|pending| - 1)].payload == Attest(last);
      assert Ids(pending) == Ids(init) + [last.id];
      assert AttestedIds(log) + Ids(init) + [last.id] == AttestedIds(log) + (Ids(init) + [last.id]);
    }
  }

  /** After a backfill every receipt is attested, no id twice if none was before, and a second backfill has
      nothing to add. */
  lemma BackfillCompletes(issuer: Key, log: Log, longer: Log)
    requires Attested(log, Backfill(issuer, log), longer)
    ensures forall e :: e in ExecutionReceipts(log) + VerificationReceipts(log) && Called(issuer, log, e).Some? ==>
              Called(issuer, log, e).value.id in AttestedIds(longer)
    ensures NoDup(AttestedIds(log)) ==> NoDup(AttestedIds(longer))
    ensures Backfill(issuer, longer) == []
  {
    var receipts := ExecutionReceipts(log) + VerificationReceipts(log);
    var pending := Backfill(issuer, log);
    FillIs(issuer, log, receipts);
    AttestedLog(log, pending, longer);
    forall e | e in receipts && Called(issuer, log, e).Some?
      ensures Called(issuer, log, e).value.id in AttestedIds(longer)
    {
      var id := Called(issuer, log, e).value.id;
      assert CalledFor(issuer, log, receipts, id);
      assert id in AttestedIds(log) || id in Ids(pending);
    }
    if NoDup(AttestedIds(log)) {
      forall i, j | 0 <= i < j < |AttestedIds(longer)|
        ensures AttestedIds(longer)[i] != AttestedIds(longer)[j]
      {
        var n := |AttestedIds(log)|;
        if i < n <= j {
          assert Ids(pending)[j - n] in Ids(pending);
          assert AttestedIds(log)[i] in AttestedIds(log);
        }
      }
    }
    SecondBackfill(issuer, log, longer);
  }

  lemma SecondBackfill(issuer: Key, log: Log, longer: Log)
    requires ExecutionReceipts(longer) == ExecutionReceipts(log)
              && VerificationReceipts(longer) == VerificationReceipts(log)
    requires forall e :: e in ExecutionReceipts(log) + VerificationReceipts(log) && Called(issuer, log, e).Some? ==>
               Called(issuer, log, e).value.id in AttestedIds(longer)
    ensures Backfill(issuer, longer) == []
  {
    var receipts := ExecutionReceipts(log) + VerificationReceipts(log);
    var again := Fill(issuer, longer, receipts);
    FillIs(issuer, longer, receipts);
    forall id
      ensures id !in Ids(again)
    {
      if CalledFor(issuer, longer, receipts, id) {
        var e :| e in receipts && Called(issuer, longer, e).Some? && Called(issuer, longer, e).value.id == id;
        assert Called(issuer, longer, e) == Called(issuer, log, e);
      }
    }
    if again != [] {
      SomeId(again);
    }
  }

  lemma SomeId(pending: seq<Attestation>)
    requires pending != []
    ensures exists id :: id in Ids(pending)
  {
    assert Ids(pending)[0] in Ids(pending);
  }

  class DaemonRuntime {
    const store: LocalEventStore
    const peerId: Key

    constructor (peerId: Key)
      ensures fresh(store) && this.peerId == peerId && store.AllEnvelopes() == []
    {
      store := new LocalEventStore();
      this.peerId := peerId;
    }

    method ExistingAttestationIds() returns (ids: set<AttestationId>)
      ensures ids == Elements(AttestedIds(store.AllEnvelopes()))
    {
      var log := store.AllEnvelopes();
      ids := {};
      for i := 0 to |log|
        invariant ids == Elements(AttestedIds(log[..i]))
      {
        assert log[..i + 1][..i] == log[..i];
        if log[i].payload.Attest? {
          ids := ids + {log[i].payload.attestation.id};
        }
      }
      assert log[..|log|] == log;
    }

    /** backfill_attestations; `newIds` are the ids of the envelopes it signs. */
    method BackfillAttestations(newIds: seq<Key>, now: Time)
      requires |newIds| >= |ExecutionReceipts(store.AllEnvelopes())| + |VerificationReceipts(store.AllEnvelopes())|
      requires NoDup(newIds) && forall id :: id in newIds ==> !HasEvent(store.AllEnvelopes(), id)
      modifies store
      ensures Attested(old(store.AllEnvelopes()), Backfill(peerId, old(store.AllEnvelopes())), store.AllEnvelopes())
      ensures forall e :: e in store.AllEnvelopes() && e !in old(store.AllEnvelopes()) ==> e.signer == peerId
    {
      var pending := Pending();
      ghost var log := store.AllEnvelopes();
      for k := 0 to |pending|
        invariant Attested(log, pending[..k], store.AllEnvelopes())
        invariant forall e :: e in store.AllEnvelopes() && e !in log ==> e.signer == peerId
        invariant forall j :: k <= j < |newIds| ==> !HasEvent(store.AllEnvelopes(), newIds[j])
      {
        ghost var before := store.AllEnvelopes();
        var e := Envelope(newIds[k], peerId, now, Attest(pending[k]));
        var _ := store.Append(e, now);
        AttestedNext(log, pending, k, before, e);
        FreshStay(before, e, newIds, k);
      }
      assert pending[..|pending|] == pending;
    }

    /** The attestations to add: the execution receipts' first, then the verification receipts'. */
    method Pending() returns (pending: seq<Attestation>)
      ensures pending == Backfill(peerId, store.AllEnvelopes())
      ensures |pending| <= |ExecutionReceipts(store.AllEnvelopes())| + |VerificationReceipts(store.AllEnvelopes())|
    {
      var executions, verifications := ExecutionReceipts(store.AllEnvelopes()),
          VerificationReceipts(store.AllEnvelopes());
      ReceiptKinds(store.AllEnvelopes());
      var existing, primaries;
      pending, existing, primaries := PendingExecutions(executions);
      ghost var receipts := executions + verifications;
      assert receipts[|executions|..] == verifications;
      pending, existing := PendingVerifications(verifications, pending, existing, primaries, receipts, |executions|);
      assert receipts[..|receipts|] == receipts;
    }

    /** Carries on from the first n of the receipts with the verification receipts that follow. */
    method PendingVerifications(verifications: seq<Envelope>, first: seq<Attestation>, taken: set<AttestationId>,
                                primaries: map<Key, ExecutionReceipt>, ghost receipts: seq<Envelope>, ghost n: nat)
      returns (pending: seq<Attestation>, existing: set<AttestationId>)
      requires n <= |receipts| && receipts[n..] == verifications
      requires forall e :: e in verifications ==> e.payload.VerifReceipt?
      requires Filled(peerId, store.AllEnvelopes(), receipts, n, first, taken)
      requires Indexed(ExecutionReceipts(store.AllEnvelopes()), primaries)
      ensures Filled(peerId, store.AllEnvelopes(), receipts, |receipts|, pending, existing)
    {
      ghost var log := store.AllEnvelopes();
      pending, existing := first, taken;
      for i := 0 to |verifications|
        invariant Filled(peerId, log, receipts, n + i, pending, existing)
      {
        assert receipts[n + i] == verifications[i] && verifications[i] in verifications;
        var r := verifications[i].payload.verified;
        var primary := if r.primaryReceiptId in primaries then Some(primaries[r.primaryReceiptId]) else None;
        var a := VerificationAttestation(peerId, r, primary);
        FilledVerification(peerId, log, receipts, n + i, pending, existing, primaries, a);
        if a.id !in existing {
          pending, existing := pending + [a], existing + {a.id};
        }
      }
    }

    method PendingExecutions(executions: seq<Envelope>)
      returns (pending: seq<Attestation>, existing: set<AttestationId>, primaries: map<Key, ExecutionReceipt>)
      requires executions == ExecutionReceipts(store.AllEnvelopes())
      ensures Filled(peerId, store.AllEnvelopes(), executions + VerificationReceipts(store.AllEnvelopes()),
                |executions|, pending, existing)
      ensures Indexed(executions, primaries)
    {
      ghost var log := store.AllEnvelopes();
      ghost var receipts := executions + VerificationReceipts(log);
      ReceiptKinds(log);
      existing := ExistingAttestationIds();
      pending, primaries := [], map[];
      FilledNone(peerId, log, receipts, existing);
      for i := 0 to |executions|
        invariant Filled(peerId, log, receipts, i, pending, existing)
        invariant Indexed(executions[..i], primaries)
      {
        assert receipts[i] == executions[i] && executions[i] in executions;
        var r := executions[i].payload.receipt;
        IndexedNext(executions, i, primaries);
        primaries := primaries[r.receiptId := r];
        var a := ExecutionAttestation(peerId, r);
        FilledNext(peerId, log, receipts, i, pending, existing, a);
        if a.id !in existing {
          pending, existing := pending + [a], existing + {a.id};
        }
      }
      assert executions[..|executions|] == executions;
    }
  }

  /** The dictionary holds the last of these execution receipts under each id. */
  ghost predicate Indexed(receipts: seq<Envelope>, primaries: map<Key, ExecutionReceipt>) {
    forall id :: PrimaryOf(receipts, id) == if id in primaries then Some(primaries[id]) else None
  }

  lemma CalledVerification(issuer: Key, log: Log, e: Envelope, primaries: map<Key, ExecutionReceipt>)
    requires e.payload.VerifReceipt? && Indexed(ExecutionReceipts(log), primaries)
    ensures var r := e.payload.verified;
            Called(issuer, log, e) ==
            Some(VerificationAttestation(issuer, r,
                   if r.primaryReceiptId in primaries then Some(primaries[r.primaryReceiptId]) else None))
  {
  }

  lemma FilledVerification(issuer: Key, log: Log, receipts: seq<Envelope>, n: nat, pending: seq<Attestation>,
          existing: set<AttestationId>, primaries: map<Key, ExecutionReceipt>, a: Attestation)
    requires n < |receipts| && receipts[n].payload.VerifReceipt? && Indexed(ExecutionReceipts(log), primaries)
    requires Filled(issuer, log, receipts, n, pending, existing)
    requires var r := receipts[n].payload.verified;
             a == VerificationAttestation(issuer, r,
                    if r.primaryReceiptId in primaries then Some(primaries[r.primaryReceiptId]) else None)
    ensures a.id in existing ==> Filled(issuer, log, receipts, n + 1, pending, existing)
    ensures a.id !in existing ==> Filled(issuer, log, receipts, n + 1, pending + [a], existing + {a.id})
  {
    CalledVerification(issuer, log, receipts[n], primaries);
    FilledNext(issuer, log, receipts, n, pending, existing, a);
  }

  lemma IndexedNext(receipts: seq<Envelope>, i: nat, primaries: map<Key, ExecutionReceipt>)
    requires i < |receipts| && receipts[i].payload.ExecReceipt? && Indexed(receipts[..i], primaries)
    ensures Indexed(receipts[..i + 1], primaries[receipts[i].payload.receipt.receiptId := receipts[i].payload.receipt])
  {
    assert receipts[..i + 1][..i] == receipts[..i];
  }

  /** The first n receipts have been gone over; `existing` holds every id that is now taken. */
  ghost predicate Filled(issuer: Key, log: Log, receipts: seq<Envelope>, n: nat, pending: seq<Attestation>,
          existing: set<AttestationId>) {
    && n <= |receipts| && pending == Fill(issuer, log, receipts[..n]) && |pending| <= n
    && forall id :: id in existing <==> id in AttestedIds(log) || id in Ids(pending)
  }

  lemma FilledNone(issuer: Key, log: Log, receipts: seq<Envelope>, existing: set<AttestationId>)
    requires existing == Elements(AttestedIds(log))
    ensures Filled(issuer, log, receipts, 0, [], existing)
  {
  }

  lemma FilledNext(issuer: Key, log: Log, receipts: seq<Envelope>, n: nat, pending: seq<Attestation>,
          existing: set<AttestationId>, a: Attestation)
    requires Filled(issuer, log, receipts, n, pending, existing) && n < |receipts|
              && Called(issuer, log, receipts[n]) == Some(a)
    ensures a.id in existing ==> Filled(issuer, log, receipts, n + 1, pending, existing)
    ensures a.id !in existing ==> Filled(issuer, log, receipts, n + 1, pending + [a], existing + {a.id})
  {
    assert receipts[..n + 1][..n] == receipts[..n];
    assert Ids(pending + [a]) == Ids(pending) + [a.id];
  }

  lemma {:induction false} ReceiptKinds(log: Log)
    ensures forall e :: e in ExecutionReceipts(log) ==> e.payload.ExecReceipt?
    ensures forall e :: e in VerificationReceipts(log) ==> e.payload.VerifReceipt?
  {
    if log != [] {
      ReceiptKinds(log[..|log| - 1]);
    }
  }
}
