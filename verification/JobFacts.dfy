/** The job list and the job report read off the log: which positions of it each entry rests on. */
module JobFacts {
  import opened Collections
  import opened PyDict
  import opened EventLog
  import opened SettlementFold
  import opened JobViews

  datatype Kind = Execution | Verification

  /** The envelope is an execution or verification receipt for the job. */
  predicate IsFor(kind: Kind, e: Envelope, id: Key) {
    match kind
    case Execution => e.payload.ExecReceipt? && e.payload.receipt.jobId == id
    case Verification => e.payload.VerifReceipt? && e.payload.verified.result.jobId == id
  }

  /** These are the positions of the log that hold such receipts for the job, in order. */
  ghost predicate Positions(log: Log, kind: Kind, id: Key, ps: seq<nat>) {
    && (forall i, j :: 0 <= i < j < |ps| ==> ps[i] < ps[j])
    && (forall i :: 0 <= i < |ps| ==> ps[i] < |log| && IsFor(kind, log[ps[i]], id))
    && (forall k: nat :: k < |log| && IsFor(kind, log[k], id) ==> k in ps)
  }

  lemma PositionsStay(log: Log, e: Envelope, kind: Kind, id: Key, ps: seq<nat>)
    requires Positions(log, kind, id, ps)
    ensures Positions(log + [e], kind, id, if IsFor(kind, e, id) then ps + [|log|] else ps)
  {
    var longer, qs := log + [e], if IsFor(kind, e, id) then ps + [|log|] else ps;
    forall k: nat | k < |longer| && IsFor(kind, longer[k], id)
      ensures k in qs
    {
      if k < |log| {
        assert log[k] == longer[k] && k in ps;
      } else {
        assert qs[|ps|] == k;
      }
    }
  }

  // ---- receipts ----

  ghost predicate HoldReceipts(log: Log, ps: seq<nat>, rs: seq<ExecutionReceipt>) {
    |ps| == |rs| && forall k :: 0 <= k < |ps| ==> ps[k] < |log| && log[ps[k]].payload == ExecReceipt(rs[k])
  }

  ghost predicate HoldChecks(log: Log, ps: seq<nat>, rs: seq<VerificationReceipt>) {
    |ps| == |rs| && forall k :: 0 <= k < |ps| ==> ps[k] < |log| && log[ps[k]].payload == VerifReceipt(rs[k])
  }

  lemma ReceiptsNext(log: Log, e: Envelope, id: Key)
    ensures ReceiptsOf(log + [e], id)
              == ReceiptsOf(log, id) + if IsFor(Execution, e, id) then [e.payload.receipt] else []
    ensures VerificationsOf(log + [e], id)
              == VerificationsOf(log, id) + if IsFor(Verification, e, id) then [e.payload.verified] else []
  {
    assert (log + [e])[..|log|] == log;
  }

  lemma HoldReceiptsNext(log: Log, e: Envelope, ps: seq<nat>, rs: seq<ExecutionReceipt>)
    requires HoldReceipts(log, ps, rs)
    ensures HoldReceipts(log + [e], ps, rs)
    ensures e.payload.ExecReceipt? ==> HoldReceipts(log + [e], ps + [|log|], rs + [e.payload.receipt])
  {
  }

  lemma HoldChecksNext(log: Log, e: Envelope, ps: seq<nat>, rs: seq<VerificationReceipt>)
    requires HoldChecks(log, ps, rs)
    ensures HoldChecks(log + [e], ps, rs)
    ensures e.payload.VerifReceipt? ==> HoldChecks(log + [e], ps + [|log|], rs + [e.payload.verified])
  {
  }

  lemma ReceiptsAtNext(init: Log, e: Envelope, id: Key, qs: seq<nat>) returns (ps: seq<nat>)
    requires Positions(init, Execution, id, qs) && HoldReceipts(init, qs, ReceiptsOf(init, id))
    ensures Positions(init + [e], Execution, id, ps) && HoldReceipts(init + [e], ps, ReceiptsOf(init + [e], id))
  {
    PositionsStay(init, e, Execution, id, qs);
    ReceiptsNext(init, e, id);
    HoldReceiptsNext(init, e, qs, ReceiptsOf(init, id));
    ps := if IsFor(Execution, e, id) then qs + [|init|] else qs;
  }

  lemma {:induction false} ReceiptsAt(log: Log, id: Key) returns (ps: seq<nat>)
    ensures Positions(log, Execution, id, ps) && HoldReceipts(log, ps, ReceiptsOf(log, id))
  {
    if log == [] {
      ps := [];
    } else {
      var qs := ReceiptsAt(log[..|log| - 1], id);
      ps := ReceiptsAtNext(log[..|log| - 1], log[|log| - 1], id, qs);
      assert log[..|log| - 1] + [log[|log| - 1]] == log;
    }
  }

  lemma ChecksAtNext(init: Log, e: Envelope, id: Key, qs: seq<nat>) returns (ps: seq<nat>)
    requires Positions(init, Verification, id, qs) && HoldChecks(init, qs, VerificationsOf(init, id))
    ensures Positions(init + [e], Verification, id, ps) && HoldChecks(init + [e], ps, VerificationsOf(init + [e], id))
  {
    PositionsStay(init, e, Verification, id, qs);
    ReceiptsNext(init, e, id);
    HoldChecksNext(init, e, qs, VerificationsOf(init, id));
    ps := if IsFor(Verification, e, id) then qs + [|init|] else qs;
  }

  lemma {:induction false} ChecksAt(log: Log, id: Key) returns (ps: seq<nat>)
    ensures Positions(log, Verification, id, ps) && HoldChecks(log, ps, VerificationsOf(log, id))
  {
    if log == [] {
      ps := [];
    } else {
      var qs := ChecksAt(log[..|log| - 1], id);
      ps := ChecksAtNext(log[..|log| - 1], log[|log| - 1], id, qs);
      assert log[..|log| - 1] + [log[|log| - 1]] == log;
    }
  }

  // ---- the last request and the last plan ----

  ghost predicate RequestedAt(log: Log, id: Key, k: nat) {
    && k < |log| && log[k].payload.ExecRequest? && log[k].payload.request.jobId == id
    && forall j :: k < j < |log| && log[j].payload.ExecRequest? ==> log[j].payload.request.jobId != id
  }

  ghost predicate PlannedAt(log: Log, id: Key, k: nat) {
    && k < |log| && log[k].payload.Plan? && log[k].payload.plan.jobId == id
    && forall j :: k < j < |log| && log[j].payload.Plan? ==> log[j].payload.plan.jobId != id
  }

  ghost predicate Unplanned(log: Log, id: Key) {
    forall j :: 0 <= j < |log| && log[j].payload.Plan? ==> log[j].payload.plan.jobId != id
  }

  lemma {:induction false} RequestIsAt(log: Log, id: Key, k: nat)
    requires RequestedAt(log, id, k)
    ensures RequestOf(log, id) == Some(Submission(log[k].payload.request, StampOf(log[k])))
  {
    if k < |log| - 1 {
      var init := log[..|log| - 1];
      assert forall j :: k < j < |init| ==> init[j] == log[j];
      RequestIsAt(init, id, k);
    }
  }

  lemma {:induction false} RequestExists(log: Log, id: Key) returns (k: nat)
    requires RequestOf(log, id).Some?
    ensures RequestedAt(log, id, k)
  {
    var e := log[|log| - 1];
    if e.payload.ExecRequest? && e.payload.request.jobId == id {
      k := |log| - 1;
    } else {
      k := RequestExists(log[..|log| - 1], id);
    }
  }

  lemma {:induction false} PlanIsAt(log: Log, id: Key, k: nat)
    requires PlannedAt(log, id, k)
    ensures PlanOf(log, id) == Some(log[k].payload.plan)
  {
    if k < |log| - 1 {
      var init := log[..|log| - 1];
      assert forall j :: k < j < |init| ==> init[j] == log[j];
      PlanIsAt(init, id, k);
    }
  }

  lemma {:induction false} NoPlan(log: Log, id: Key)
    requires Unplanned(log, id)
    ensures PlanOf(log, id) == None
  {
    if log != [] {
      var init := log[..|log| - 1];
      assert forall j :: 0 <= j < |init| ==> init[j] == log[j];
      NoPlan(init, id);
    }
  }

  // ---- what the views show ----

  /** Exactly the requested jobs are listed. */
  lemma ListedIff(log: Log, id: Key)
    ensures (exists l :: l in ListView(log) && l.id == id)
            <==> exists e :: e in log && e.payload.ExecRequest? && e.payload.request.jobId == id
  {
    ListViewIs(log);
    if RequestOf(log, id).Some? {
      var k := RequestExists(log, id);
      assert log[k] in log && ListingOf(log, id) in ListView(log);
    }
    if e :| e in log && e.payload.ExecRequest? && e.payload.request.jobId == id {
      RequestIsSome(log, id, e);
      assert ListingOf(log, id) in ListView(log);
    }
  }

  lemma {:induction false} RequestIsSome(log: Log, id: Key, e: Envelope)
    requires e in log && e.payload.ExecRequest? && e.payload.request.jobId == id
    ensures RequestOf(log, id).Some?
  {
    var last := log[|log| - 1];
    if !(last.payload.ExecRequest? && last.payload.request.jobId == id) {
      assert log == log[..|log| - 1] + [last];
      RequestIsSome(log[..|log| - 1], id, e);
    }
  }

  /** Task, lease and submission time of a listed job are those of the last request for it. */
  lemma ListedRequest(log: Log, l: JobListing, k: nat)
    requires l in ListView(log) && RequestedAt(log, l.id, k)
    ensures var q := log[k].payload.request; l.taskType == q.taskType && l.leaseId == q.leaseId
    ensures l.submittedAt.local == log[k].timestamp + log[k].offset * 1_000_000
              && l.submittedAt.offset == log[k].offset
  {
    ListViewIs(log);
    RequestIsAt(log, l.id, k);
  }

  /** Mode and regions of a listed job are those of the last plan for it, or "deterministic" and none. */
  lemma ListedPlan(log: Log, l: JobListing)
    requires l in ListView(log)
    ensures forall k: nat :: PlannedAt(log, l.id, k) ==>
              l.plannerMode == log[k].payload.plan.plannerMode && l.regions == log[k].payload.plan.regions
    ensures Unplanned(log, l.id) ==> l.plannerMode == Key("deterministic") && l.regions == []
  {
    ListViewIs(log);
    forall k: nat | PlannedAt(log, l.id, k)
      ensures l.plannerMode == log[k].payload.plan.plannerMode && l.regions == log[k].payload.plan.regions
    {
      PlanIsAt(log, l.id, k);
    }
    if Unplanned(log, l.id) {
      NoPlan(log, l.id);
    }
  }

  /** Two lists of the same positions are equally long. */
  lemma {:induction false} SamePositions(log: Log, kind: Kind, id: Key, ps: seq<nat>, qs: seq<nat>)
    requires Positions(log, kind, id, ps) && Positions(log, kind, id, qs)
    ensures |ps| == |qs|
  {
    NoDupSize(ps);
    NoDupSize(qs);
    assert forall k :: k in ps <==> k in qs;
    assert Elements(ps) == Elements(qs);
  }

  /** A listed job is COMPLETED if and only if an execution receipt for it is logged; the counts are the numbers of
      positions in the log that hold its receipts. */
  lemma ListedReceipts(log: Log, l: JobListing, ps: seq<nat>, qs: seq<nat>)
    requires l in ListView(log)
    requires Positions(log, Execution, l.id, ps) && Positions(log, Verification, l.id, qs)
    ensures l.primaryCount == |ps| && l.verificationCount == |qs|
    ensures l.status == Completed <==> exists e :: e in log && e.payload.ExecReceipt? && e.payload.receipt.jobId == l.id
    ensures l.status == Running <==> !exists e :: e in log && e.payload.ExecReceipt? && e.payload.receipt.jobId == l.id
  {
    ListViewIs(log);
    var rs := ReceiptsAt(log, l.id);
    var cs := ChecksAt(log, l.id);
    SamePositions(log, Execution, l.id, ps, rs);
    SamePositions(log, Verification, l.id, qs, cs);
    SomeReceiptIff(log, l.id, rs);
  }

  lemma SomeReceiptIff(log: Log, id: Key, rs: seq<nat>)
    requires Positions(log, Execution, id, rs)
    ensures rs != [] <==> exists e :: e in log && e.payload.ExecReceipt? && e.payload.receipt.jobId == id
  {
    if rs != [] {
      assert IsFor(Execution, log[rs[0]], id) && log[rs[0]] in log;
    }
    if e :| e in log && e.payload.ExecReceipt? && e.payload.receipt.jobId == id {
      var k: nat :| k < |log| && log[k] == e;
      assert k in rs;
    }
  }

  /** The report of a requested job: COMPLETED if and only if a receipt for it is logged, one row per receipt in the
      order of the log, the last request, and the mode of the last plan or "deterministic". */
  lemma ReportIs(log: Log, id: Key, k: nat, ps: seq<nat>, qs: seq<nat>)
    requires RequestedAt(log, id, k)
    requires Positions(log, Execution, id, ps) && Positions(log, Verification, id, qs)
    ensures Report(log, id).Some?
    ensures var r := Report(log, id).value;
            && r.jobId == id && r.request == log[k].payload.request
            && (r.status == Completed <==> ps != []) && (r.status == Running <==> ps == [])
            && |r.results| == |ps| && |r.verification| == |qs|
            && (forall i :: 0 <= i < |ps| ==> r.results[i].receiptId == log[ps[i]].payload.receipt.receiptId)
            && (forall i :: 0 <= i < |qs| ==> r.verification[i].receiptId == log[qs[i]].payload.verified.receiptId)
            && (forall j: nat :: PlannedAt(log, id, j) ==> r.plannerMode == log[j].payload.plan.plannerMode)
            && (Unplanned(log, id) ==> r.plannerMode == Key("deterministic"))
  {
    RequestIsAt(log, id, k);
    var rs := ReceiptsAt(log, id);
    var cs := ChecksAt(log, id);
    PositionsEqual(log, Execution, id, ps, rs);
    PositionsEqual(log, Verification, id, qs, cs);
    ResultRowsAre(log, ReceiptsOf(log, id));
    VerificationRowsAre(log, VerificationsOf(log, id));
    forall j: nat | PlannedAt(log, id, j)
      ensures PlanOf(log, id) == Some(log[j].payload.plan)
    {
      PlanIsAt(log, id, j);
    }
    if Unplanned(log, id) {
      NoPlan(log, id);
    }
  }

  /** The positions that a property holds of can be listed in one way only. */
  lemma {:induction false} PositionsEqual(log: Log, kind: Kind, id: Key, ps: seq<nat>, qs: seq<nat>)
    requires Positions(log, kind, id, ps) && Positions(log, kind, id, qs)
    ensures ps == qs
    decreases |ps|
  {
    SamePositions(log, kind, id, ps, qs);
    SameUpTo(log, kind, id, ps, qs, |ps|);
    assert ps[..|ps|] == ps && qs[..|ps|] == qs;
  }

  lemma {:induction false} SameUpTo(log: Log, kind: Kind, id: Key, ps: seq<nat>, qs: seq<nat>, n: nat)
    requires Positions(log, kind, id, ps) && Positions(log, kind, id, qs) && n <= |ps| == |qs|
    ensures ps[..n] == qs[..n]
  {
    if n > 0 {
      SameUpTo(log, kind, id, ps, qs, n - 1);
      NextIsLeast(log, kind, id, ps, qs, n - 1);
      NextIsLeast(log, kind, id, qs, ps, n - 1);
      assert ps[..n] == ps[..n - 1] + [ps[n - 1]] && qs[..n] == qs[..n - 1] + [qs[n - 1]];
    }
  }

  lemma NextIsLeast(log: Log, kind: Kind, id: Key, ps: seq<nat>, qs: seq<nat>, n: nat)
    requires Positions(log, kind, id, ps) && Positions(log, kind, id, qs) && n < |ps| == |qs| && ps[..n] == qs[..n]
    ensures ps[n] <= qs[n]
  {
    assert qs[n] in ps;
    var i :| 0 <= i < |ps| && ps[i] == qs[n];
    assert forall k :: 0 <= k < n ==> ps[..n][k] == ps[k] && qs[..n][k] == qs[k];
    assert i >= n;
  }
}
