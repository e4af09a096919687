/** The LocalEventStore object of state.py: a log file updated in place, and the loops that fold its views,
    each proved to compute the value-level view of the log. */
module EventStore {
  import opened Collections
  import opened PyDict
  import opened EventLog
  import opened SettlementFold
  import opened JobViews

  datatype Record = Record(envelope: Envelope, storedAt: Time)

  /** defaultdict(list).get(k, []) */
  function GetList<K, V>(m: map<K, seq<V>>, k: K): seq<V> {
    if k in m then m[k] else []
  }

  /** The four dicts jobs() fills in one pass over the log. */
  datatype Groups = Groups(
    requests: Dict<Key, Submission>, primary: map<Key, seq<ExecutionReceipt>>,
    verification: map<Key, seq<VerificationReceipt>>, plans: map<Key, JobPlan>)

  function PlanIn(g: Groups, id: Key): Option<JobPlan> {
    if id in g.plans then Some(g.plans[id]) else None
  }

  function Filed(g: Groups, e: Envelope): Groups {
    match e.payload
    case ExecRequest(r) => g.(requests := Put(g.requests, r.jobId, Submission(r, StampOf(e))))
    case ExecReceipt(r) => g.(primary := g.primary[r.jobId := GetList(g.primary, r.jobId) + [r]])
    case VerifReceipt(r) =>
      g.(verification := g.verification[r.result.jobId := GetList(g.verification, r.result.jobId) + [r]])
    case Plan(p) => g.(plans := g.plans[p.jobId := p])
    case _ => g
  }

  /** Each group holds what filtering the log by that job id would give. */
  ghost predicate GroupOf(log: Log, g: Groups, id: Key) {
    && RequestOf(log, id) == (if id in g.requests.at then Some(g.requests.at[id]) else None)
    && GetList(g.primary, id) == ReceiptsOf(log, id)
    && GetList(g.verification, id) == VerificationsOf(log, id)
    && PlanIn(g, id) == PlanOf(log, id)
  }

  ghost predicate Grouped(log: Log, g: Groups) {
    g.requests.keys == JobIds(log) && forall id :: GroupOf(log, g, id)
  }

  lemma GroupOfStep(init: Log, g: Groups, e: Envelope, id: Key)
    requires GroupOf(init, g, id)
    ensures GroupOf(init + [e], Filed(g, e), id)
  {
    RequestFiled(init, g, e, id);
    PrimaryFiled(init, g, e, id);
    VerificationFiled(init, g, e, id);
    PlanFiled(init, g, e, id);
  }

  lemma RequestFiled(init: Log, g: Groups, e: Envelope, id: Key)
    requires RequestOf(init, id) == if id in g.requests.at then Some(g.requests.at[id]) else None
    ensures RequestOf(init + [e], id) == if id in Filed(g, e).requests.at then Some(Filed(g, e).requests.at[id])
              else None
  {
    assert (init + [e])[..|init|] == init;
  }

  lemma PrimaryFiled(init: Log, g: Groups, e: Envelope, id: Key)
    requires GetList(g.primary, id) == ReceiptsOf(init, id)
    ensures GetList(Filed(g, e).primary, id) == ReceiptsOf(init + [e], id)
  {
    assert (init + [e])[..|init|] == init;
  }

  lemma VerificationFiled(init: Log, g: Groups, e: Envelope, id: Key)
    requires GetList(g.verification, id) == VerificationsOf(init, id)
    ensures GetList(Filed(g, e).verification, id) == VerificationsOf(init + [e], id)
  {
    assert (init + [e])[..|init|] == init;
  }

  lemma PlanFiled(init: Log, g: Groups, e: Envelope, id: Key)
    requires PlanIn(g, id) == PlanOf(init, id)
    ensures PlanIn(Filed(g, e), id) == PlanOf(init + [e], id)
  {
    assert (init + [e])[..|init|] == init;
  }

  lemma GroupedStep(init: Log, g: Groups, e: Envelope)
    requires Grouped(init, g)
    ensures Grouped(init + [e], Filed(g, e))
  {
    assert (init + [e])[..|init|] == init;
    JobIdsAre(init);
    forall id
      ensures GroupOf(init + [e], Filed(g, e), id)
    {
      GroupOfStep(init, g, e, id);
    }
    if e.payload.ExecRequest? {
      assert GroupOf(init, g, e.payload.request.jobId);
    }
  }

  /** The entry jobs() builds for one requested job out of its groups. */
  function ListingFrom(g: Groups, id: Key): JobListing
    requires id in g.requests.at
  {
    var s, receipts, plan := g.requests.at[id], GetList(g.primary, id), PlanIn(g, id);
    JobListing(id, s.request.taskType, if receipts == [] then Running else Completed,
               if plan.Some? then plan.value.regions else [], s.request.leaseId,
               |receipts|, |GetList(g.verification, id)|,
               if plan.Some? then plan.value.plannerMode else DETERMINISTIC, s.at)
  }

  lemma ListingIs(log: Log, g: Groups, id: Key)
    requires GroupOf(log, g, id) && RequestOf(log, id).Some?
    ensures id in g.requests.at && ListingFrom(g, id) == ListingOf(log, id)
  {
  }

  lemma ListingsNext(log: Log, ids: seq<Key>, k: nat)
    requires k < |ids| && forall id :: id in ids ==> RequestOf(log, id).Some?
    ensures forall id :: id in ids[..k] ==> id in ids
    ensures forall id :: id in ids[..k + 1] ==> id in ids
    ensures ListingsOf(log, ids[..k + 1]) == ListingsOf(log, ids[..k]) + [ListingOf(log, ids[k])]
  {
    assert ids[..k + 1][..k] == ids[..k];
  }

  class LocalEventStore {
    /** The lines of events.jsonl, oldest first. */
    var records: seq<Record>

    function Envelopes(rs: seq<Record>): (es: seq<Envelope>)
      ensures |es| == |rs| && forall i :: 0 <= i < |rs| ==> es[i] == rs[i].envelope
    {
      if rs == [] then [] else Envelopes(rs[..|rs| - 1]) + [rs[|rs| - 1].envelope]
    }

    /** all_envelopes() */
    function AllEnvelopes(): Log
      reads this
    {
      Envelopes(records)
    }

    constructor ()
      ensures AllEnvelopes() == []
    {
      records := [];
    }

    method Has(id: Key) returns (found: bool)
      ensures found <==> HasEvent(AllEnvelopes(), id)
    {
      var log := AllEnvelopes();
      for i := 0 to |log|
        invariant forall j :: 0 <= j < i ==> log[j].eventId != id
      {
        if log[i].eventId == id {
          assert log[i] in log;
          return true;
        }
      }
      return false;
    }

    /** Stores the envelope, or returns the record already stored under its event id. */
    method Append(e: Envelope, now: Time) returns (r: Record)
      modifies this
      ensures AllEnvelopes() == Appended(old(AllEnvelopes()), e)
      ensures old(records) <= records && r in records && r.envelope.eventId == e.eventId
      ensures HasEvent(old(AllEnvelopes()), e.eventId) ==> r in old(records)
      ensures !HasEvent(old(AllEnvelopes()), e.eventId) ==> r == Record(e, now)
    {
      var known := Has(e.eventId);
      if known {
        var i := 0;
        while i < |records| && records[i].envelope.eventId != e.eventId
          invariant 0 <= i <= |records|
          invariant forall j :: 0 <= j < i ==> records[j].envelope.eventId != e.eventId
        {
          i := i + 1;
        }
        r := records[i];
      } else {
        r := Record(e, now);
        records := records + [r];
        assert Envelopes(records) == Envelopes(old(records)) + [e];
      }
    }

    method ImportMany(es: seq<Envelope>, now: Time)
      modifies this
      ensures AllEnvelopes() == Imported(old(AllEnvelopes()), es)
      ensures old(records) <= records
    {
      for i := 0 to |es|
        invariant Imported(old(AllEnvelopes()), es) == Imported(AllEnvelopes(), es[i..])
        invariant old(records) <= records
      {
        assert es[i..][1..] == es[i + 1..];
        var _ := Append(es[i], now);
      }
    }

    method LatestNodeAdvertisementEnvelopes() returns (ads: seq<Envelope>)
      ensures forall k :: k in LatestAds(AllEnvelopes()).keys ==> k in LatestAds(AllEnvelopes()).at
      ensures ads == Values(LatestAds(AllEnvelopes()))
    {
      var log := AllEnvelopes();
      var latest: Dict<Key, Envelope> := Empty();
      for i := 0 to |log|
        invariant latest == LatestAds(log[..i])
      {
        assert log[..i + 1][..i] == log[..i];
        var e := log[i];
        if e.payload.NodeAd?
            && (e.payload.ad.peer !in latest.at || e.timestamp > latest.at[e.payload.ad.peer].timestamp) {
          latest := Put(latest, e.payload.ad.peer, e);
        }
      }
      assert log[..|log|] == log;
      LatestAdsAre(log);
      assert forall k :: k in latest.keys ==> k in Elements(latest.keys);
      ads := Values(latest);
    }

    method Settlements() returns (items: seq<SettlementRecord>)
      ensures items == View(TrailOf(AllEnvelopes()))
    {
      var log := AllEnvelopes();
      var latest: Dict<SettlementId, SettlementRecord> := Empty();
      for i := 0 to |log|
        invariant latest == Fold(TrailOf(log[..i]))
      {
        assert log[..i + 1][..i] == log[..i];
        if log[i].payload.Settlement? {
          var r := log[i].payload.record;
          assert TrailOf(log[..i + 1]) == TrailOf(log[..i]) + [r];
          assert TrailOf(log[..i + 1])[..|TrailOf(log[..i])|] == TrailOf(log[..i]);
          if r.id !in latest.at || r.updatedAt >= latest.at[r.id].updatedAt {
            latest := Put(latest, r.id, r);
          }
        } else {
          assert TrailOf(log[..i + 1]) == TrailOf(log[..i]);
        }
      }
      assert log[..|log|] == log;
      FoldWellFormed(TrailOf(log));
      items := Newest(Values(latest));
    }

    method SettlementByReceipt(receipt: Key) returns (found: Option<SettlementRecord>)
      ensures found == ByReceipt(TrailOf(AllEnvelopes()), receipt)
    {
      var view := Settlements();
      for i := 0 to |view|
        invariant FirstFor(view, receipt) == FirstFor(view[i..], receipt)
      {
        if view[i].receiptId == receipt {
          return Some(view[i]);
        }
        assert view[i..][1..] == view[i + 1..];
      }
      assert view[|view|..] == [];
      return None;
    }

    method GroupByJob() returns (g: Groups)
      ensures Grouped(AllEnvelopes(), g)
    {
      var log := AllEnvelopes();
      g := Groups(Empty(), map[], map[], map[]);
      for i := 0 to |log|
        invariant Grouped(log[..i], g)
      {
        GroupedStep(log[..i], g, log[i]);
        assert log[..i + 1] == log[..i] + [log[i]];
        g := Filed(g, log[i]);
      }
      assert log[..|log|] == log;
    }

    method Jobs() returns (jobs: seq<JobListing>)
      ensures jobs == ListView(AllEnvelopes())
    {
      var g := GroupByJob();
      ghost var log := AllEnvelopes();
      JobIdsAre(log);
      var ids := g.requests.keys;
      var items: seq<JobListing> := [];
      for k := 0 to |ids|
        invariant forall id :: id in ids[..k] ==> RequestOf(log, id).Some?
        invariant items == ListingsOf(log, ids[..k])
      {
        assert ids[k] in ids && GroupOf(log, g, ids[k]);
        ListingIs(log, g, ids[k]);
        ListingsNext(log, ids, k);
        items := items + [ListingFrom(g, ids[k])];
      }
      assert ids[..|ids|] == ids;
      jobs := Sorted((a, b) => Before(a, b), items);
    }

    method Report(id: Key) returns (report: Option<JobReport>)
      ensures report == JobViews.Report(AllEnvelopes(), id)
    {
      var request, plan, primary, verification := Scan(id);
      if request.None? {
        return None;
      }
      var view := Settlements();
      var results := Results(view, primary);
      var checks := Checks(view, verification);
      return Some(JobReport(id, if primary == [] then Running else Completed, results, checks,
                            if plan.Some? then plan.value.plannerMode else DETERMINISTIC, request.value.request));
    }

    /** The pass over the log: what it says about one job. */
    method Scan(id: Key)
      returns (request: Option<Submission>, plan: Option<JobPlan>,
               primary: seq<ExecutionReceipt>, verification: seq<VerificationReceipt>)
      ensures request == RequestOf(AllEnvelopes(), id) && plan == PlanOf(AllEnvelopes(), id)
      ensures primary == ReceiptsOf(AllEnvelopes(), id) && verification == VerificationsOf(AllEnvelopes(), id)
    {
      var log := AllEnvelopes();
      request, plan, primary, verification := None, None, [], [];
      for i := 0 to |log|
        invariant request == RequestOf(log[..i], id) && plan == PlanOf(log[..i], id)
        invariant primary == ReceiptsOf(log[..i], id) && verification == VerificationsOf(log[..i], id)
      {
        assert log[..i + 1][..i] == log[..i];
        var e := log[i];
        match e.payload
        case ExecRequest(r) => request := if r.jobId == id then Some(Submission(r, StampOf(e))) else request;
        case ExecReceipt(r) => primary := if r.jobId == id then primary + [r] else primary;
        case VerifReceipt(r) => verification := if r.result.jobId == id then verification + [r] else verification;
        case Plan(p) => plan := if p.jobId == id then Some(p) else plan;
        case _ =>
      }
      assert log[..|log|] == log;
    }

    /** Each execution receipt with its settlement, the last match in the view. */
    method Results(view: seq<SettlementRecord>, primary: seq<ExecutionReceipt>) returns (rows: seq<Row>)
      requires view == View(TrailOf(AllEnvelopes()))
      ensures rows == ResultRows(AllEnvelopes(), primary)
    {
      rows := [];
      for k := 0 to |primary|
        invariant rows == ResultRows(AllEnvelopes(), primary[..k])
      {
        assert primary[..k + 1][..k] == primary[..k];
        rows := rows + [Row(primary[k].receiptId, LastFor(view, primary[k].receiptId))];
      }
      assert primary[..|primary|] == primary;
    }

    method Checks(view: seq<SettlementRecord>, verification: seq<VerificationReceipt>) returns (rows: seq<Row>)
      requires view == View(TrailOf(AllEnvelopes()))
      ensures rows == VerificationRows(AllEnvelopes(), verification)
    {
      rows := [];
      for k := 0 to |verification|
        invariant rows == VerificationRows(AllEnvelopes(), verification[..k])
      {
        assert verification[..k + 1][..k] == verification[..k];
        rows := rows + [Row(verification[k].receiptId, LastFor(view, verification[k].receiptId))];
      }
      assert verification[..|verification|] == verification;
    }
  }
}
