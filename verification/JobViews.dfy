/** The job list and the job report, both folded from the log: what each shows, and that they agree. */
module JobViews {
  import opened Collections
  import opened PyDict
  import opened EventLog
  import opened SettlementFold

  datatype JobStatus = Running | Completed

  /** What isoformat() shows of a moment: the local time, then the offset from UTC. */
  datatype Stamp = Stamp(local: Time, offset: int)

  const SECOND := 1_000_000
  const DAY := 86_400

  function StampOf(e: Envelope): Stamp {
    Stamp(e.timestamp + e.offset * SECOND, e.offset)
  }

  function Moment(s: Stamp): Time {
    s.local - s.offset * SECOND
  }

  /** Offsets as their texts compare: "+..." comes before "-...". */
  function OffsetRank(offset: int): int {
    if offset >= 0 then offset else DAY - offset
  }

  datatype Submission = Submission(request: ExecutionRequest, at: Stamp)

  datatype JobListing = JobListing(
    id: Key, taskType: Key, status: JobStatus, regions: seq<Key>, leaseId: Option<Key>,
    primaryCount: nat, verificationCount: nat, plannerMode: Key, submittedAt: Stamp)

  datatype Row = Row(receiptId: Key, settlement: Option<SettlementRecord>)

  datatype JobReport = JobReport(
    jobId: Key, status: JobStatus, results: seq<Row>, verification: seq<Row>, plannerMode: Key,
        request: ExecutionRequest)

  const DETERMINISTIC := Key("deterministic")

  // ---- what the log says about one job ----

  /** The last request for the job, if any. */
  function RequestOf(log: Log, id: Key): Option<Submission> {
    if log == [] then None
    else
      var e := log[|log| - 1];
      if e.payload.ExecRequest? && e.payload.request.jobId == id then Some(Submission(e.payload.request, StampOf(e)))
      else RequestOf(log[..|log| - 1], id)
  }

  function ReceiptsOf(log: Log, id: Key): seq<ExecutionReceipt> {
    if log == [] then []
    else
      var e := log[|log| - 1];
      ReceiptsOf(log[..|log| - 1], id) +
      if e.payload.ExecReceipt? && e.payload.receipt.jobId == id then [e.payload.receipt] else []
  }

  function VerificationsOf(log: Log, id: Key): seq<VerificationReceipt> {
    if log == [] then []
    else
      var e := log[|log| - 1];
      VerificationsOf(log[..|log| - 1], id) +
      if e.payload.VerifReceipt? && e.payload.verified.result.jobId == id then [e.payload.verified] else []
  }

  /** The last plan for the job, if any. */
  function PlanOf(log: Log, id: Key): Option<JobPlan> {
    if log == [] then None
    else
      var e := log[|log| - 1];
      if e.payload.Plan? && e.payload.plan.jobId == id then Some(e.payload.plan) else PlanOf(log[..|log| - 1], id)
  }

  /** Requested jobs, in the order of their first requests. */
  function JobIds(log: Log): seq<Key> {
    if log == [] then []
    else
      var e, ids := log[|log| - 1], JobIds(log[..|log| - 1]);
      if e.payload.ExecRequest? && e.payload.request.jobId !in ids then ids + [e.payload.request.jobId] else ids
  }

  // ---- the list view ----

  function StatusOf(receipts: seq<ExecutionReceipt>): JobStatus {
    if receipts == [] then Running else Completed
  }

  function ModeOf(plan: Option<JobPlan>): Key {
    if plan.Some? then plan.value.plannerMode else DETERMINISTIC
  }

  function ListingOf(log: Log, id: Key): JobListing
    requires RequestOf(log, id).Some?
  {
    var s, plan := RequestOf(log, id).value, PlanOf(log, id);
    JobListing(id, s.request.taskType, StatusOf(ReceiptsOf(log, id)), if plan.Some? then plan.value.regions else [],
               s.request.leaseId, |ReceiptsOf(log, id)|, |VerificationsOf(log, id)|, ModeOf(plan), s.at)
  }

  /** The larger text of the submission time first, then the larger id. */
  predicate Before(a: JobListing, b: JobListing) {
    var s, t := a.submittedAt, b.submittedAt;
    || s.local > t.local
    || (s.local == t.local && OffsetRank(s.offset) > OffsetRank(t.offset))
    || (s.local == t.local && OffsetRank(s.offset) == OffsetRank(t.offset) && TextLe(b.id.text, a.id.text))
  }

  function ListingsOf(log: Log, ids: seq<Key>): (ls: seq<JobListing>)
    requires forall id :: id in ids ==> RequestOf(log, id).Some?
    ensures |ls| == |ids| && forall i :: 0 <= i < |ids| ==> ls[i] == ListingOf(log, ids[i])
  {
    if ids == [] then [] else ListingsOf(log, ids[..|ids| - 1]) + [ListingOf(log, ids[|ids| - 1])]
  }

  function ListView(log: Log): seq<JobListing> {
    JobIdsAre(log);
    Sorted((a, b) => Before(a, b), ListingsOf(log, JobIds(log)))
  }

  // ---- the detail view ----

  function ResultRows(log: Log, receipts: seq<ExecutionReceipt>): seq<Row> {
    if receipts == [] then []
    else
      var r := receipts[|receipts| - 1];
      ResultRows(log, receipts[..|receipts| - 1]) + [Row(r.receiptId, LastFor(View(TrailOf(log)), r.receiptId))]
  }

  function VerificationRows(log: Log, receipts: seq<VerificationReceipt>): seq<Row> {
    if receipts == [] then []
    else
      var r := receipts[|receipts| - 1];
      VerificationRows(log, receipts[..|receipts| - 1]) + [Row(r.receiptId, LastFor(View(TrailOf(log)), r.receiptId))]
  }

  function Report(log: Log, id: Key): Option<JobReport> {
    if RequestOf(log, id).None? then None
    else
      Some(JobReport(id, StatusOf(ReceiptsOf(log, id)), ResultRows(log, ReceiptsOf(log, id)),
                     VerificationRows(log, VerificationsOf(log, id)), ModeOf(PlanOf(log, id)),
                         RequestOf(log, id).value.request))
  }

  // ---- agreement ----

  lemma {:induction false} JobIdsAre(log: Log)
    ensures forall id :: id in JobIds(log) <==> RequestOf(log, id).Some?
    ensures NoDup(JobIds(log))
  {
    if log != [] {
      JobIdsAre(log[..|log| - 1]);
    }
  }

  lemma {:induction false} ResultRowsAre(log: Log, receipts: seq<ExecutionReceipt>)
    ensures |ResultRows(log, receipts)| == |receipts|
    ensures forall i :: 0 <= i < |receipts| ==>
              ResultRows(log, receipts)[i]
                  == Row(receipts[i].receiptId, LastFor(View(TrailOf(log)), receipts[i].receiptId))
  {
    if receipts != [] {
      ResultRowsAre(log, receipts[..|receipts| - 1]);
    }
  }

  lemma {:induction false} VerificationRowsAre(log: Log, checks: seq<VerificationReceipt>)
    ensures |VerificationRows(log, checks)| == |checks|
    ensures forall i :: 0 <= i < |checks| ==>
              VerificationRows(log, checks)[i]
                  == Row(checks[i].receiptId, LastFor(View(TrailOf(log)), checks[i].receiptId))
  {
    if checks != [] {
      VerificationRowsAre(log, checks[..|checks| - 1]);
    }
  }

  lemma RowsPerReceipt(log: Log, receipts: seq<ExecutionReceipt>, checks: seq<VerificationReceipt>)
    ensures |ResultRows(log, receipts)| == |receipts| && |VerificationRows(log, checks)| == |checks|
    ensures forall row :: row in ResultRows(log, receipts) || row in VerificationRows(log, checks) ==>
              row.settlement == LastFor(View(TrailOf(log)), row.receiptId)
  {
    ResultRowsAre(log, receipts);
    VerificationRowsAre(log, checks);
  }

  /** The list shows each requested job exactly once. */
  lemma ListViewIs(log: Log)
    ensures forall l :: l in ListView(log) <==> RequestOf(log, l.id).Some? && l == ListingOf(log, l.id)
    ensures |ListView(log)| == |JobIds(log)|
  {
    JobIdsAre(log);
    var ls := ListingsOf(log, JobIds(log));
    SortedKeeps((a, b) => Before(a, b), ls);
    forall l: JobListing | RequestOf(log, l.id).Some? && l == ListingOf(log, l.id)
      ensures l in ls
    {
      var i :| 0 <= i < |JobIds(log)| && JobIds(log)[i] == l.id;
      assert ls[i] == l;
    }
  }

  lemma BeforeIsTotalPreorder()
    ensures TotalPreorder((a: JobListing, b: JobListing) => Before(a, b))
  {
    var le := (a: JobListing, b: JobListing) => Before(a, b);
    forall a, b
      ensures le(a, b) || le(b, a)
    {
      TextLeTotal(a.id.text, b.id.text);
    }
    forall a, b, c | le(a, b) && le(b, c)
      ensures le(a, c)
    {
      if TextLe(b.id.text, a.id.text) && TextLe(c.id.text, b.id.text) {
        TextLeTransitive(c.id.text, b.id.text, a.id.text);
      }
    }
  }

  /** The list is in the order of the texts of the submission times. */
  lemma ListViewSorted(log: Log)
    ensures SortedBy((a, b) => Before(a, b), ListView(log))
  {
    JobIdsAre(log);
    BeforeIsTotalPreorder();
    SortedIsSorted((a, b) => Before(a, b), ListingsOf(log, JobIds(log)));
  }

  /** Later local time first; at one local time zones west of UTC first, then by how far they are from it; then the
      larger id. */
  lemma ListInOrder(log: Log, i: nat, j: nat)
    requires i < j < |ListView(log)|
    ensures var a, b := ListView(log)[i], ListView(log)[j];
            var s, t := a.submittedAt, b.submittedAt;
            && s.local >= t.local
            && (s.local == t.local && 0 <= s.offset < 86_400 ==> 0 <= t.offset <= s.offset)
            && (s.local == t.local && s.offset < 0 && -86_400 < s.offset && -86_400 < t.offset < 0 ==>
                  s.offset <= t.offset)
            && (s == t ==> TextLe(b.id.text, a.id.text))
  {
    ListViewSorted(log);
    assert Before(ListView(log)[i], ListView(log)[j]);
  }

  // ---- newest first ----

  /** No request of the log is written in another zone than these. */
  ghost predicate WrittenIn(log: Log, offsets: set<int>) {
    forall e :: e in log && e.payload.ExecRequest? ==> e.offset in offsets
  }

  ghost predicate NewestFirst(view: seq<JobListing>) {
    forall i, j :: 0 <= i < j < |view| ==> Moment(view[i].submittedAt) >= Moment(view[j].submittedAt)
  }

  ghost predicate AlwaysNewestFirst(offsets: set<int>) {
    forall log :: WrittenIn(log, offsets) ==> NewestFirst(ListView(log))
  }

  lemma {:induction false} SubmittedIn(log: Log, offsets: set<int>, id: Key)
    requires WrittenIn(log, offsets) && RequestOf(log, id).Some?
    ensures RequestOf(log, id).value.at.offset in offsets
  {
    var init, e := log[..|log| - 1], log[|log| - 1];
    assert e in log;
    if !(e.payload.ExecRequest? && e.payload.request.jobId == id) {
      SubmittedIn(init, offsets, id);
    }
  }

  lemma OneZoneIsNewestFirst(log: Log, offsets: set<int>)
    requires WrittenIn(log, offsets) && forall o, p :: o in offsets && p in offsets ==> o == p
    ensures NewestFirst(ListView(log))
  {
    var view := ListView(log);
    ListViewIs(log);
    ListViewSorted(log);
    forall i, j | 0 <= i < j < |view|
      ensures Moment(view[i].submittedAt) >= Moment(view[j].submittedAt)
    {
      assert view[i] in view && view[j] in view && Before(view[i], view[j]);
      SubmittedIn(log, offsets, view[i].id);
      SubmittedIn(log, offsets, view[j].id);
    }
  }

  function RequestAt(id: Key, at: Time, offset: int): Envelope {
    Envelope(id, id, at, ExecRequest(ExecutionRequest(id, None, id, id, None, None)), offset)
  }

  lemma TwoRequests(a: Envelope, b: Envelope)
    requires a.payload.ExecRequest? && b.payload.ExecRequest?
    requires a.payload.request.jobId != b.payload.request.jobId
    ensures RequestOf([a, b], a.payload.request.jobId) == Some(Submission(a.payload.request, StampOf(a)))
    ensures RequestOf([a, b], b.payload.request.jobId) == Some(Submission(b.payload.request, StampOf(b)))
  {
    var log := [a, b];
    assert log[..1] == [a];
    assert RequestOf([a], a.payload.request.jobId) == Some(Submission(a.payload.request, StampOf(a)));
  }

  lemma ListedInOrder(log: Log, a: Key, b: Key)
    requires RequestOf(log, a).Some? && RequestOf(log, b).Some?
    requires !Before(ListingOf(log, b), ListingOf(log, a)) && ListingOf(log, a) != ListingOf(log, b)
    requires Moment(ListingOf(log, a).submittedAt) < Moment(ListingOf(log, b).submittedAt)
    ensures !NewestFirst(ListView(log))
  {
    var view := ListView(log);
    ListViewIs(log);
    ListViewSorted(log);
    assert ListingOf(log, a) in view && ListingOf(log, b) in view;
    var i :| 0 <= i < |view| && view[i] == ListingOf(log, a);
    var j :| 0 <= j < |view| && view[j] == ListingOf(log, b);
    ComesFirst(view, i, j);
  }

  lemma ComesFirst(view: seq<JobListing>, i: nat, j: nat)
    requires SortedBy((a, b) => Before(a, b), view) && i < |view| && j < |view| && i != j
    requires !Before(view[j], view[i])
    ensures i < j
  {
  }

  /** An older job written in a zone further east comes first. */
  lemma TwoZonesMislead(west: int, east: int) returns (log: Log)
    requires west < east
    ensures WrittenIn(log, {west, east}) && !NewestFirst(ListView(log))
  {
    var a, b := Key("a"), Key("b");
    var older, newer := RequestAt(a, 0, east), RequestAt(b, 1, west);
    log := [older, newer];
    assert "a"[0] != "b"[0];
    TwoRequests(older, newer);
    ListedInOrder(log, a, b);
  }

  /** The list is newest first whatever is logged if and only if all requests are written in one zone, as the
      daemon's own are: it sorts the texts of the submission times. */
  lemma NewestFirstIff(offsets: set<int>)
    ensures AlwaysNewestFirst(offsets) <==> forall o, p :: o in offsets && p in offsets ==> o == p
  {
    if o, p :| o in offsets && p in offsets && o < p {
      var log := TwoZonesMislead(o, p);
      assert WrittenIn(log, offsets);
    } else {
      assert forall o, p :: o in offsets && p in offsets ==> o == p;
      forall log | WrittenIn(log, offsets)
        ensures NewestFirst(ListView(log))
      {
        OneZoneIsNewestFirst(log, offsets);
      }
    }
  }

  /** A job has a report exactly when the list shows it, and then both show the same status, planner mode
      and numbers of primary and verification receipts: the one-pass group-by refines the per-id filter. */
  lemma ViewsAgree(log: Log, id: Key)
    ensures Report(log, id).Some? <==> exists l :: l in ListView(log) && l.id == id
    ensures forall l :: l in ListView(log) && l.id == id ==>
              && Report(log, id).Some?
              && var r := Report(log, id).value;
              && r.status == l.status && r.plannerMode == l.plannerMode
              && |r.results| == l.primaryCount && |r.verification| == l.verificationCount
              && r.request.taskType == l.taskType && r.request.leaseId == l.leaseId
  {
    ListViewIs(log);
    RowsPerReceipt(log, ReceiptsOf(log, id), VerificationsOf(log, id));
    if RequestOf(log, id).Some? {
      assert ListingOf(log, id) in ListView(log);
    }
  }
}
