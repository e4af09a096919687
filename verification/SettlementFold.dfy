/** The settlement view folded from the log: what it returns for each settlement, in which order, and what
    the two ways of finding a receipt's settlement have in common. */
module SettlementFold {
  import opened Collections
  import opened PyDict
  import opened EventLog

  type Trail = seq<SettlementRecord>

  /** The settlement records of a log, oldest first. */
  function TrailOf(log: Log): Trail {
    if log == [] then []
    else
      var e := log[|log| - 1];
      TrailOf(log[..|log| - 1]) + if e.payload.Settlement? then [e.payload.record] else []
  }

  /** Per settlement id, a record at least as new replaces the current one. */
  function Fold(trail: Trail): Dict<SettlementId, SettlementRecord> {
    if trail == [] then Empty()
    else
      var d, r := Fold(trail[..|trail| - 1]), trail[|trail| - 1];
      if r.id !in d.at || r.updatedAt >= d.at[r.id].updatedAt then Put(d, r.id, r) else d
  }

  predicate Newer(a: SettlementRecord, b: SettlementRecord) {
    a.updatedAt >= b.updatedAt
  }

  function Newest(rs: seq<SettlementRecord>): seq<SettlementRecord> {
    Sorted((a, b) => Newer(a, b), rs)
  }

  /** settlements(): the folded records, newest first. */
  function View(trail: Trail): seq<SettlementRecord> {
    FoldWellFormed(trail);
    Newest(Values(Fold(trail)))
  }

  /** settlement_by_receipt: the first match in the view. */
  function FirstFor(rs: seq<SettlementRecord>, receipt: Key): Option<SettlementRecord> {
    if rs == [] then None
    else if rs[0].receiptId == receipt then Some(rs[0])
    else FirstFor(rs[1..], receipt)
  }

  /** The report's join: a dict built over the view, in which the last match wins. */
  function LastFor(rs: seq<SettlementRecord>, receipt: Key): Option<SettlementRecord> {
    if rs == [] then None
    else if rs[|rs| - 1].receiptId == receipt then Some(rs[|rs| - 1])
    else LastFor(rs[..|rs| - 1], receipt)
  }

  function ByReceipt(trail: Trail, receipt: Key): Option<SettlementRecord> {
    FirstFor(View(trail), receipt)
  }

  // ---- the fold ----

  ghost predicate Recorded(trail: Trail, id: SettlementId) {
    exists r :: r in trail && r.id == id
  }

  lemma {:induction false} FoldWellFormed(trail: Trail)
    ensures WellFormed(Fold(trail))
    ensures forall k :: k in Fold(trail).keys ==> k in Fold(trail).at
  {
    if trail == [] {
    } else {
      var d, r := Fold(trail[..|trail| - 1]), trail[|trail| - 1];
      FoldWellFormed(trail[..|trail| - 1]);
      PutWellFormed(d, r.id, r);
    }
    assert forall k :: k in Fold(trail).keys ==> k in Elements(Fold(trail).keys);
  }

  /** r is the last of the newest records of its settlement. */
  ghost predicate IsLatestAt(trail: Trail, r: SettlementRecord, i: nat) {
    && i < |trail| && trail[i] == r
    && (forall j :: 0 <= j < |trail| && trail[j].id == r.id ==>
          trail[j].updatedAt <= r.updatedAt && (j > i ==> trail[j].updatedAt < r.updatedAt))
  }

  ghost predicate IsLatest(trail: Trail, r: SettlementRecord) {
    exists i :: IsLatestAt(trail, r, i)
  }

  lemma {:induction false} FoldIsLatest(trail: Trail, id: SettlementId)
    ensures id in Fold(trail).at <==> Recorded(trail, id)
    ensures id in Fold(trail).at ==> Fold(trail).at[id].id == id && IsLatest(trail, Fold(trail).at[id])
  {
    if trail == [] {
    } else {
      var init, r := trail[..|trail| - 1], trail[|trail| - 1];
      FoldIsLatest(init, id);
      assert trail == init + [r];
      var d, d' := Fold(init), Fold(trail);
      if id in d'.at {
        if r.id == id && d'.at[id] == r {
          assert IsLatestAt(trail, r, |init|) by {
            if id in d.at {
              var i: nat :| IsLatestAt(init, d.at[id], i);
            }
          }
        } else {
          var i: nat :| IsLatestAt(init, d.at[id], i);
          assert IsLatestAt(trail, d.at[id], i);
        }
      }
      assert r in trail;
      assert forall q :: q in init ==> q in trail;
    }
  }

  ghost function LastRecord(trail: Trail, id: SettlementId): SettlementRecord
    requires Recorded(trail, id)
  {
    if trail[|trail| - 1].id == id then trail[|trail| - 1]
    else
      assert trail == trail[..|trail| - 1] + [trail[|trail| - 1]];
      LastRecord(trail[..|trail| - 1], id)
  }

  lemma {:induction false} LastRecordIs(trail: Trail, id: SettlementId) returns (i: nat)
    requires Recorded(trail, id)
    ensures i < |trail| && trail[i] == LastRecord(trail, id) && trail[i].id == id
    ensures forall j :: i < j < |trail| ==> trail[j].id != id
  {
    if trail[|trail| - 1].id == id {
      i := |trail| - 1;
    } else {
      assert trail == trail[..|trail| - 1] + [trail[|trail| - 1]];
      i := LastRecordIs(trail[..|trail| - 1], id);
    }
  }

  /** The view shows a settlement's last written record exactly when no earlier one carries a later time. */
  lemma LastWriteWinsIff(trail: Trail, id: SettlementId)
    requires Recorded(trail, id)
    ensures id in Fold(trail).at
    ensures Fold(trail).at[id] == LastRecord(trail, id)
            <==> forall r :: r in trail && r.id == id ==> r.updatedAt <= LastRecord(trail, id).updatedAt
  {
    FoldIsLatest(trail, id);
    var k := LastRecordIs(trail, id);
    var i: nat :| IsLatestAt(trail, Fold(trail).at[id], i);
    if forall r :: r in trail && r.id == id ==> r.updatedAt <= LastRecord(trail, id).updatedAt {
      assert trail[i] in trail;
      assert i == k;
    }
  }

  // ---- the view ----

  lemma NewerIsTotalPreorder()
    ensures TotalPreorder((a: SettlementRecord, b: SettlementRecord) => Newer(a, b))
  {
  }

  /** The view lists the latest record of each recorded settlement, once each, newest first. */
  lemma ViewLists(trail: Trail)
    ensures forall r :: r in View(trail) <==> r.id in Fold(trail).at && Fold(trail).at[r.id] == r
    ensures SortedBy((a, b) => Newer(a, b), View(trail))
    ensures forall i, j :: 0 <= i < j < |View(trail)| ==> View(trail)[i].id != View(trail)[j].id
  {
    FoldWellFormed(trail);
    NewerIsTotalPreorder();
    var vs := Values(Fold(trail));
    SortedKeeps((a, b) => Newer(a, b), vs);
    SortedIsSorted((a, b) => Newer(a, b), vs);
    forall k | k in Fold(trail).at
      ensures Fold(trail).at[k].id == k
    {
      FoldIsLatest(trail, k);
    }
    ValuesAre(Fold(trail));
    DistinctIds(vs, View(trail));
  }

  /** The settlement is first recorded at position p. */
  ghost predicate FirstRecordAt(trail: Trail, id: SettlementId, p: nat) {
    p < |trail| && trail[p].id == id && forall k :: 0 <= k < p ==> trail[k].id != id
  }

  /** The folded settlements are in the order of their first records. */
  lemma {:induction false} FoldInOrder(trail: Trail, i: nat, j: nat, p: nat, q: nat)
    requires i < |Fold(trail).keys| && FirstRecordAt(trail, Fold(trail).keys[i], p)
    requires j < |Fold(trail).keys| && FirstRecordAt(trail, Fold(trail).keys[j], q)
    ensures i < j ==> p < q
  {
    if trail != [] && i < j {
      var init, r := trail[..|trail| - 1], trail[|trail| - 1];
      var d, d' := Fold(init), Fold(trail);
      FoldWellFormed(init);
      assert forall k :: k in d.keys ==> k in Elements(d.keys);
      FoldIsLatest(init, d'.keys[i]);
      assert d'.keys[i] == d.keys[i];
      if j < |d.keys| {
        assert d.keys[j] in d.keys;
        FoldIsLatest(init, d.keys[j]);
        FirstRecordStays(init, d.keys[i], p, r);
        FirstRecordStays(init, d.keys[j], q, r);
        FoldInOrder(init, i, j, p, q);
      } else {
        FirstRecordStays(init, d.keys[i], p, r);
        FoldIsLatest(init, r.id);
        assert forall k :: 0 <= k < |init| ==> init[k] in init;
      }
    }
  }

  lemma FirstRecordStays(init: Trail, id: SettlementId, p: nat, r: SettlementRecord)
    requires Recorded(init, id) && FirstRecordAt(init + [r], id, p)
    ensures FirstRecordAt(init, id, p)
  {
    var q :| q in init && q.id == id;
    var k :| 0 <= k < |init| && init[k] == q;
    assert (init + [r])[k] == q;
    forall l | 0 <= l < p
      ensures init[l].id != id
    {
      assert (init + [r])[l].id != id;
    }
  }

  /** Where a settlement shown at i stands among the folded ones. */
  lemma KeyOfShown(trail: Trail, i: nat) returns (x: nat)
    requires i < |View(trail)|
    ensures (forall k :: k in Fold(trail).keys ==> k in Fold(trail).at) && x < |Fold(trail).keys|
    ensures x < |Values(Fold(trail))|
    ensures Values(Fold(trail))[x] == View(trail)[i] && Fold(trail).keys[x] == View(trail)[i].id
  {
    FoldWellFormed(trail);
    ViewLists(trail);
    assert View(trail)[i] in View(trail);
    var id := View(trail)[i].id;
    assert id in Elements(Fold(trail).keys);
    x :| 0 <= x < |Fold(trail).keys| && Fold(trail).keys[x] == id;
  }

  /** Settlements with equal times are shown in the order in which they were folded. */
  lemma TiesKeepOrder(trail: Trail, i: nat, j: nat, x: nat, y: nat)
    requires i < j < |View(trail)| && View(trail)[i].updatedAt == View(trail)[j].updatedAt
    requires (forall k :: k in Fold(trail).keys ==> k in Fold(trail).at) && x < |Values(Fold(trail))|
    requires y < |Values(Fold(trail))|
    requires Values(Fold(trail))[x] == View(trail)[i] && Values(Fold(trail))[y] == View(trail)[j]
    ensures x < y
  {
    ViewLists(trail);
    if y < x {
      NewerIsTotalPreorder();
      SortedKeepsOrder((a, b) => Newer(a, b), Values(Fold(trail)), y, x);
      OnceOnly(View(trail), i, j);
    }
  }

  /** settlements() is newest first, and settlements with equal times come in the order they were first recorded. */
  lemma ViewInOrder(trail: Trail, i: nat, j: nat)
    requires i < j < |View(trail)|
    ensures View(trail)[i].updatedAt >= View(trail)[j].updatedAt
    ensures forall p, q ::
              View(trail)[i].updatedAt == View(trail)[j].updatedAt && FirstRecordAt(trail, View(trail)[i].id, p)
              && FirstRecordAt(trail, View(trail)[j].id, q) ==>
              p < q
  {
    ViewLists(trail);
    if View(trail)[i].updatedAt == View(trail)[j].updatedAt {
      var x := KeyOfShown(trail, i);
      var y := KeyOfShown(trail, j);
      TiesKeepOrder(trail, i, j, x, y);
      forall p, q | FirstRecordAt(trail, View(trail)[i].id, p) && FirstRecordAt(trail, View(trail)[j].id, q)
        ensures p < q
      {
        FoldInOrder(trail, x, y, p, q);
      }
    }
  }

  lemma OnceOnly(view: seq<SettlementRecord>, i: nat, j: nat)
    requires i < j < |view| && forall k, l :: 0 <= k < l < |view| ==> view[k].id != view[l].id
    ensures !Precedes(view, view[j], view[i])
  {
  }

  lemma ValuesAre(d: Dict<SettlementId, SettlementRecord>)
    requires WellFormed(d) && (forall k :: k in d.keys ==> k in d.at) && forall k :: k in d.at ==> d.at[k].id == k
    ensures forall r :: r in Values(d) <==> r.id in d.at && d.at[r.id] == r
    ensures forall i, j :: 0 <= i < j < |Values(d)| ==> Values(d)[i].id != Values(d)[j].id
  {
    var vs := Values(d);
    forall r: SettlementRecord | r.id in d.at && d.at[r.id] == r
      ensures r in vs
    {
      assert r.id in Elements(d.keys);
      var i :| 0 <= i < |d.keys| && d.keys[i] == r.id;
      assert vs[i] == r;
    }
    forall i | 0 <= i < |vs|
      ensures vs[i].id == d.keys[i]
    {
      assert d.keys[i] in d.keys;
    }
  }

  /** A permutation of records with distinct ids has distinct ids. */
  lemma DistinctIds(a: seq<SettlementRecord>, b: seq<SettlementRecord>)
    requires multiset(a) == multiset(b)
    requires forall i, j :: 0 <= i < j < |a| ==> a[i].id != a[j].id
    ensures forall i, j :: 0 <= i < j < |b| ==> b[i].id != b[j].id
  {
    forall i, j | 0 <= i < j < |b|
      ensures b[i].id != b[j].id
    {
      if b[i].id == b[j].id {
        assert b[i] in multiset(a) && b[j] in multiset(a);
        var x :| 0 <= x < |a| && a[x] == b[i];
        var y :| 0 <= y < |a| && a[y] == b[j];
        assert x == y;
        OnceEach(a, x);
        TwiceThere(b, i, j);
        assert false;
      }
    }
  }

  lemma OnceEach(a: seq<SettlementRecord>, x: nat)
    requires x < |a| && forall i, j :: 0 <= i < j < |a| ==> a[i].id != a[j].id
    ensures multiset(a)[a[x]] == 1
  {
    assert a == a[..x] + [a[x]] + a[x + 1..];
    assert a[x] !in a[..x] && a[x] !in a[x + 1..];
  }

  lemma TwiceThere(b: seq<SettlementRecord>, i: nat, j: nat)
    requires i < j < |b| && b[i] == b[j]
    ensures multiset(b)[b[i]] >= 2
  {
    assert b == b[..i] + [b[i]] + b[i + 1..j] + [b[j]] + b[j + 1..];
  }

  // ---- lookups ----

  ghost predicate FirstMatch(rs: seq<SettlementRecord>, receipt: Key, i: nat) {
    i < |rs| && rs[i].receiptId == receipt && forall j :: 0 <= j < i ==> rs[j].receiptId != receipt
  }

  ghost predicate LastMatch(rs: seq<SettlementRecord>, receipt: Key, i: nat) {
    i < |rs| && rs[i].receiptId == receipt && forall j :: i < j < |rs| ==> rs[j].receiptId != receipt
  }

  lemma {:induction false} FirstForMatches(rs: seq<SettlementRecord>, receipt: Key, i: nat)
    requires FirstMatch(rs, receipt, i)
    ensures FirstFor(rs, receipt) == Some(rs[i])
  {
    if i > 0 {
      FirstForMatches(rs[1..], receipt, i - 1);
    }
  }

  lemma {:induction false} LastForMatches(rs: seq<SettlementRecord>, receipt: Key, i: nat)
    requires LastMatch(rs, receipt, i)
    ensures LastFor(rs, receipt) == Some(rs[i])
    decreases |rs|
  {
    if i < |rs| - 1 {
      LastForMatches(rs[..|rs| - 1], receipt, i);
    }
  }

  /** Of several settlements of a receipt one lookup shows the first of the view, the other the last. */
  lemma LookupsAre(trail: Trail, receipt: Key, i: nat, j: nat)
    requires FirstMatch(View(trail), receipt, i) && LastMatch(View(trail), receipt, j)
    ensures ByReceipt(trail, receipt) == Some(View(trail)[i]) && LastFor(View(trail), receipt) == Some(View(trail)[j])
  {
    FirstForMatches(View(trail), receipt, i);
    LastForMatches(View(trail), receipt, j);
  }

  lemma {:induction false} FirstForIs(rs: seq<SettlementRecord>, receipt: Key)
    ensures FirstFor(rs, receipt).Some? ==>
              FirstFor(rs, receipt).value in rs && FirstFor(rs, receipt).value.receiptId == receipt
    ensures FirstFor(rs, receipt).None? <==> forall r :: r in rs ==> r.receiptId != receipt
  {
    if rs != [] {
      FirstForIs(rs[1..], receipt);
      assert rs == [rs[0]] + rs[1..];
    }
  }

  lemma {:induction false} LastForIs(rs: seq<SettlementRecord>, receipt: Key)
    ensures LastFor(rs, receipt).Some? ==>
              LastFor(rs, receipt).value in rs && LastFor(rs, receipt).value.receiptId == receipt
    ensures LastFor(rs, receipt).None? <==> forall r :: r in rs ==> r.receiptId != receipt
  {
    if rs != [] {
      LastForIs(rs[..|rs| - 1], receipt);
      assert rs == rs[..|rs| - 1] + [rs[|rs| - 1]];
    }
  }

  /** Both lookups find the same record whenever no receipt has two settlements in the trail. */
  lemma LookupsAgree(trail: Trail, receipt: Key)
    requires forall r, q :: r in trail && q in trail && r.receiptId == q.receiptId ==> r.id == q.id
    ensures FirstFor(View(trail), receipt) == LastFor(View(trail), receipt)
  {
    var view := View(trail);
    FirstForIs(view, receipt);
    LastForIs(view, receipt);
    ViewLists(trail);
    if FirstFor(view, receipt).Some? {
      var a, b := FirstFor(view, receipt).value, LastFor(view, receipt).value;
      FoldIsLatest(trail, a.id);
      FoldIsLatest(trail, b.id);
      assert a in trail && b in trail;
    }
  }

  /** A receipt is found in the view exactly when some record of the trail, made the latest of its
      settlement, names it. */
  lemma ByReceiptIs(trail: Trail, receipt: Key)
    ensures ByReceipt(trail, receipt).Some? ==>
              var r := ByReceipt(trail, receipt).value;
              r in trail && r.receiptId == receipt && r.id in Fold(trail).at && Fold(trail).at[r.id] == r
    ensures (forall r, q :: r in trail && q in trail && r.id == q.id ==> r.receiptId == q.receiptId) ==>
              (ByReceipt(trail, receipt).None? <==> forall r :: r in trail ==> r.receiptId != receipt)
  {
    var view := View(trail);
    FirstForIs(view, receipt);
    ViewLists(trail);
    forall r | r in view
      ensures r in trail
    {
      FoldIsLatest(trail, r.id);
    }
    if forall r, q :: r in trail && q in trail && r.id == q.id ==> r.receiptId == q.receiptId {
      if r :| r in trail && r.receiptId == receipt {
        FoldIsLatest(trail, r.id);
        var shown := Fold(trail).at[r.id];
        assert shown in view && shown in trail;
      }
    }
  }
}
