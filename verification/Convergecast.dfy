/** Convergecast: every node of a spanning tree waits for its children's data, merges it with its own and sends
    the result to its parent.  What a node ends up with, by induction on the tree below it. */
module Convergecast {
  import opened Collections

  datatype Key = Key(hex: string)

  type Data<V> = map<string, V>

  /** One entry of the topology's tree; an empty parent counts as none. */
  datatype Entry = Entry(publicKey: Key, parent: Option<Key>)

  datatype Topology = Topology(ourKey: Key, tree: seq<Entry>)

  datatype TreePosition = TreePosition(ourKey: Key, parent: Option<Key>, children: set<Key>)

  predicate IsRoot(p: TreePosition) {
    p.parent.None?
  }

  // ---- the position in the tree ----

  /** The parent field, read as `e.get("parent") or None`. */
  function ParentOf(e: Entry): Option<Key> {
    if e.parent.Some? && e.parent.value.hex != "" then e.parent else None
  }

  /** A later entry for the same key overrides an earlier one. */
  function TreeMap(tree: seq<Entry>): map<Key, Option<Key>> {
    if tree == [] then map[] else TreeMap(tree[..|tree| - 1])[tree[|tree| - 1].publicKey := ParentOf(tree[|tree| - 1])]
  }

  function DeriveTreePosition(t: Topology): TreePosition {
    var m := TreeMap(t.tree);
    TreePosition(t.ourKey, if t.ourKey in m then m[t.ourKey] else None,
                 set k | k in m && m[k] == Some(t.ourKey))
  }

  /** e is the entry that decides for its key: no later entry names it. */
  ghost predicate Decides(tree: seq<Entry>, i: int) {
    0 <= i < |tree| && forall j :: i < j < |tree| ==> tree[j].publicKey != tree[i].publicKey
  }

  lemma {:induction false} TreeMapIs(tree: seq<Entry>, k: Key)
    ensures k in TreeMap(tree) <==> exists i :: Decides(tree, i) && tree[i].publicKey == k
    ensures forall i :: Decides(tree, i) && tree[i].publicKey == k ==>
              k in TreeMap(tree) && TreeMap(tree)[k] == ParentOf(tree[i])
  {
    if tree == [] {
    } else {
      var init, last := tree[..|tree| - 1], |tree| - 1;
      TreeMapIs(init, k);
      assert Decides(tree, last);
      forall i | 0 <= i < last && tree[last].publicKey != tree[i].publicKey
        ensures Decides(tree, i) <==> Decides(init, i)
      {
        DecidesStays(tree, i);
      }
    }
  }

  lemma DecidesStays(tree: seq<Entry>, i: nat)
    requires i < |tree| - 1 && tree[|tree| - 1].publicKey != tree[i].publicKey
    ensures Decides(tree, i) <==> Decides(tree[..|tree| - 1], i)
  {
    if Decides(tree[..|tree| - 1], i) {
      forall j | i < j < |tree|
        ensures tree[j].publicKey != tree[i].publicKey
      {
        if j < |tree| - 1 {
          assert tree[..|tree| - 1][j] == tree[j];
        }
      }
    }
  }

  /** A node's parent is what its deciding entry says, and its children are the keys whose deciding entries name it. */
  lemma PositionIs(t: Topology, k: Key)
    ensures var p := DeriveTreePosition(t);
            && (forall i :: Decides(t.tree, i) && t.tree[i].publicKey == t.ourKey ==>
                  p.parent == if t.tree[i].parent.Some? && t.tree[i].parent.value.hex == "" then None
                              else t.tree[i].parent)
            && (p.parent.Some? ==> exists i :: Decides(t.tree, i) && t.tree[i].publicKey == t.ourKey)
            && (k in p.children <==>
                  exists i :: Decides(t.tree, i) && t.tree[i].publicKey == k
                              && t.tree[i].parent == Some(t.ourKey) && t.ourKey.hex != "")
            && (IsRoot(p) <==> p.parent == None)
  {
    TreeMapIs(t.tree, t.ourKey);
    TreeMapIs(t.tree, k);
  }

  // ---- collecting from the children ----

  /** NoMap is what msgpack decodes to something other than a map. */
  datatype Incoming<V> =
    | Undecodable
    | NoMap
    | Note(kind: string, sessionId: string, from: Key, data: Data<V>)

  const CONVERGECAST_DATA := "convergecast_data"

  datatype Collected<V> = Collected(aggregated: Data<V>, pending: set<Key>, received: set<Key>)

  predicate Counts<V>(session: string, m: Incoming<V>) {
    m.Note? && m.kind == CONVERGECAST_DATA && m.sessionId == session
  }

  /** What one message does to a waiting node: only the first message of the session from each child counts. */
  function Received<V>(session: string, c: Collected<V>, m: Incoming<V>): Collected<V> {
    if Counts(session, m) && m.from in c.pending
    then Collected(c.aggregated + m.data, c.pending - {m.from}, c.received + {m.from})
    else c
  }

  function Collect<V>(session: string, local: Data<V>, children: set<Key>, inbox: seq<Incoming<V>>): Collected<V> {
    if inbox == [] then Collected(local, children, {})
    else Received(session, Collect(session, local, children, inbox[..|inbox| - 1]), inbox[|inbox| - 1])
  }

  /** The message carries a child's data for this session. */
  ghost predicate IsDataOf<V>(session: string, m: Incoming<V>) {
    m.Note? && m.kind == "convergecast_data" && m.sessionId == session
  }

  /** k has value v in the node's own data, or in a message that counts from one of its children. */
  ghost predicate Offered<V(!new)>(session: string, local: Data<V>, children: set<Key>, inbox: seq<Incoming<V>>,
          k: string, v: V) {
    || (k in local && local[k] == v)
    || (exists m :: m in inbox && IsDataOf(session, m) && m.from in children && k in m.data && m.data[k] == v)
  }

  /** Received and pending always partition the children; everything aggregated was offered; every key of the node
      and of a message from each child received is there. */
  lemma {:induction false} CollectIs<V(!new)>(session: string, local: Data<V>, children: set<Key>,
          inbox: seq<Incoming<V>>)
    ensures var c := Collect(session, local, children, inbox);
            && c.received + c.pending == children && c.received !! c.pending
            && (forall k :: k in c.aggregated ==> Offered(session, local, children, inbox, k, c.aggregated[k]))
            && local.Keys <= c.aggregated.Keys
            && (forall x :: x in c.received ==>
                  exists m :: m in inbox && IsDataOf(session, m) && m.from == x && m.data.Keys <= c.aggregated.Keys)
  {
    var c := Collect(session, local, children, inbox);
    if inbox == [] {
    } else {
      var init, m := inbox[..|inbox| - 1], inbox[|inbox| - 1];
      var d := Collect(session, local, children, init);
      CollectIs(session, local, children, init);
      assert inbox == init + [m];
      forall k | k in c.aggregated
        ensures Offered(session, local, children, inbox, k, c.aggregated[k])
      {
        if k in d.aggregated && c.aggregated[k] == d.aggregated[k] {
          assert Offered(session, local, children, init, k, d.aggregated[k]);
        } else {
          assert m in inbox && m.from in children;
        }
      }
      forall x | x in c.received
        ensures exists n :: n in inbox && IsDataOf(session, n) && n.from == x && n.data.Keys <= c.aggregated.Keys
      {
        if x in d.received {
          var n :| n in init && IsDataOf(session, n) && n.from == x && n.data.Keys <= d.aggregated.Keys;
          assert n in inbox;
        } else {
          assert m in inbox;
        }
      }
    }
  }

  /** Once nothing is pending, further messages change nothing: stopping early loses nothing. */
  lemma {:induction false} NothingPending<V>(session: string, local: Data<V>, children: set<Key>,
          inbox: seq<Incoming<V>>, n: nat)
    requires n <= |inbox| && Collect(session, local, children, inbox[..n]).pending == {}
    ensures Collect(session, local, children, inbox) == Collect(session, local, children, inbox[..n])
    decreases |inbox|
  {
    if n == |inbox| {
      assert inbox[..n] == inbox;
    } else {
      assert inbox[..|inbox| - 1][..n] == inbox[..n];
      NothingPending(session, local, children, inbox[..|inbox| - 1], n);
    }
  }

  // ---- what is passed over ----

  /** A message that is none of this session's data. */
  predicate Foreign<V>(session: string, m: Incoming<V>) {
    m.Undecodable? || (m.Note? && (m.kind != "convergecast_data" || m.sessionId != session))
  }

  /** One message: this session's data from a child not heard yet is merged over what there is and the child counts as
      heard; anything else changes nothing. */
  lemma MessageIs<V>(session: string, local: Data<V>, children: set<Key>, inbox: seq<Incoming<V>>, m: Incoming<V>)
    ensures Collect(session, local, children, []) == Collected(local, children, {})
    ensures var c, d := Collect(session, local, children, inbox), Collect(session, local, children, inbox + [m]);
            if m.Note? && m.kind == "convergecast_data" && m.sessionId == session && m.from in c.pending then
              && d.pending == c.pending - {m.from} && d.received == c.received + {m.from}
              && d.aggregated.Keys == c.aggregated.Keys + m.data.Keys
              && (forall k :: k in m.data ==> d.aggregated[k] == m.data[k])
              && (forall k :: k in c.aggregated && k !in m.data ==> d.aggregated[k] == c.aggregated[k])
            else d == c
  {
    assert (inbox + [m])[..|inbox|] == inbox;
  }

  lemma {:induction false} ForeignSkipped<V>(session: string, local: Data<V>, children: set<Key>, a: seq<Incoming<V>>,
          m: Incoming<V>, b: seq<Incoming<V>>)
    requires Foreign(session, m)
    ensures Collect(session, local, children, a + [m] + b) == Collect(session, local, children, a + b)
    decreases |b|
  {
    if b == [] {
      assert a + [m] + b == a + [m] && a + b == a;
      MessageIs(session, local, children, a, m);
    } else {
      var init := b[..|b| - 1];
      ForeignSkipped(session, local, children, a, m, init);
      assert (a + [m] + b)[..|a + [m] + b| - 1] == a + [m] + init;
      assert (a + b)[..|a + b| - 1] == a + init;
    }
  }

  // ---- one node ----

  datatype Outcome<V> = Outcome(
    success: bool, isRoot: bool, data: Data<V>, receivedFrom: set<Key>, missing: set<Key>)

  function OutcomeOf<V>(session: string, local: Data<V>, t: Topology, inbox: seq<Incoming<V>>): Outcome<V> {
    var p := DeriveTreePosition(t);
    var c := Collect(session, local, p.children, inbox);
    Outcome(c.pending == {}, IsRoot(p), c.aggregated, c.received, c.pending)
  }

  /** The i-th message is no map and comes while children are awaited: reading it raises, and nothing is sent. */
  ghost predicate RaisesAt<V>(session: string, local: Data<V>, children: set<Key>, inbox: seq<Incoming<V>>, i: nat) {
    i < |inbox| && inbox[i].NoMap? && Collect(session, local, children, inbox[..i]).pending != {}
  }

  ghost predicate Raises<V(!new)>(session: string, local: Data<V>, children: set<Key>, inbox: seq<Incoming<V>>) {
    exists i: nat :: RaisesAt(session, local, children, inbox, i)
  }

  lemma PastPending<V>(session: string, local: Data<V>, children: set<Key>, inbox: seq<Incoming<V>>, n: nat, i: nat)
    requires n <= i <= |inbox| && Collect(session, local, children, inbox[..n]).pending == {}
    ensures Collect(session, local, children, inbox[..i]).pending == {}
  {
    assert inbox[..i][..n] == inbox[..n];
    NothingPending(session, local, children, inbox[..i], n);
  }

  lemma RaisesWith<V(!new)>(session: string, local: Data<V>, children: set<Key>, a: seq<Incoming<V>>, m: Incoming<V>,
          b: seq<Incoming<V>>, i: nat)
    requires Foreign(session, m) && i <= |a + b|
    ensures RaisesAt(session, local, children, a + b, i) <==>
            RaisesAt(session, local, children, a + [m] + b, if i < |a| then i else i + 1)
  {
    var with, without := a + [m] + b, a + b;
    if i < |a| {
      assert with[..i] == without[..i];
    } else {
      var rest := b[..i - |a|];
      assert with[..i + 1] == a + [m] + rest && without[..i] == a + rest;
      ForeignSkipped(session, local, children, a, m, rest);
    }
  }

  /** A message of another kind or another session, or one that cannot be decoded, changes nothing wherever it comes in
      the inbox: neither what a node returns, and with it what it sends to its parent, nor whether it raises. */
  lemma ForeignIgnored<V(!new)>(session: string, local: Data<V>, t: Topology, a: seq<Incoming<V>>, m: Incoming<V>,
          b: seq<Incoming<V>>)
    requires m.Undecodable? || (m.Note? && (m.kind != "convergecast_data" || m.sessionId != session))
    ensures OutcomeOf(session, local, t, a + [m] + b) == OutcomeOf(session, local, t, a + b)
    ensures Raises(session, local, DeriveTreePosition(t).children, a + [m] + b)
            <==> Raises(session, local, DeriveTreePosition(t).children, a + b)
  {
    var children := DeriveTreePosition(t).children;
    ForeignSkipped(session, local, children, a, m, b);
    if i: nat :| RaisesAt(session, local, children, a + b, i) {
      RaisesWith(session, local, children, a, m, b, i);
    }
    if j: nat :| RaisesAt(session, local, children, a + [m] + b, j) {
      assert (a + [m] + b)[|a|] == m;
      RaisesWith(session, local, children, a, m, b, if j < |a| then j else j - 1);
    }
  }

  /** The waiting loop: until every child has been heard or no more messages come in time, unless a message raises. */
  method AwaitChildren<V(!new)>(local: Data<V>, session: string, children: set<Key>, inbox: seq<Incoming<V>>)
    returns (raised: bool, aggregated: Data<V>, received: set<Key>, pending: set<Key>)
    ensures raised <==> Raises(session, local, children, inbox)
    ensures !raised ==> Collected(aggregated, pending, received) == Collect(session, local, children, inbox)
  {
    aggregated, received, pending := local, {}, children;
    raised := false;
    var i := 0;
    while pending != {} && i < |inbox|
      invariant 0 <= i <= |inbox|
      invariant Collected(aggregated, pending, received) == Collect(session, local, children, inbox[..i])
      invariant forall j :: 0 <= j < i ==> !RaisesAt(session, local, children, inbox, j)
      decreases |inbox| - i
    {
      assert inbox[..i + 1][..i] == inbox[..i];
      var m := inbox[i];
      if m.NoMap? {
        assert RaisesAt(session, local, children, inbox, i);
        return true, aggregated, received, pending;
      }
      i := i + 1;
      if m.Undecodable? {
        continue;
      }
      if m.kind != CONVERGECAST_DATA {
        continue;
      }
      if m.sessionId != session {
        continue;
      }
      if m.from in pending {
        aggregated, received, pending := aggregated + m.data, received + {m.from}, pending - {m.from};
      }
    }
    if pending == {} {
      NothingPending(session, local, children, inbox, i);
      forall j | i <= j < |inbox|
        ensures !RaisesAt(session, local, children, inbox, j)
      {
        PastPending(session, local, children, inbox, i, j);
      }
    } else {
      assert inbox[..i] == inbox;
    }
  }

  lemma ChildlessCollects<V(!new)>(session: string, local: Data<V>, inbox: seq<Incoming<V>>)
    ensures Collect(session, local, {}, inbox) == Collected(local, {}, {}) && !Raises(session, local, {}, inbox)
  {
    assert inbox[..0] == [];
    NothingPending(session, local, {}, inbox, 0);
    forall i | 0 <= i < |inbox|
      ensures !RaisesAt(session, local, {}, inbox, i)
    {
      PastPending(session, local, {}, inbox, 0, i);
    }
  }

  /** run_convergecast.  `inbox` holds the messages that arrive before the deadline; `sent` is the message for the
      parent, with the parent's key. */
  method RunConvergecast<V(!new)>(local: Data<V>, session: string, topology: Option<Topology>, inbox: seq<Incoming<V>>)
    returns (raised: bool, r: Option<Outcome<V>>, sent: Option<(Key, Incoming<V>)>)
    ensures raised <==>
            topology.Some? && Raises(session, local, DeriveTreePosition(topology.value).children, inbox)
    ensures r == if topology.None? || raised then None else Some(OutcomeOf(session, local, topology.value, inbox))
    ensures r.Some? ==> r.value.receivedFrom + r.value.missing == DeriveTreePosition(topology.value).children
    ensures r.Some? ==> (r.value.isRoot <==> DeriveTreePosition(topology.value).parent == None)
    ensures r.Some? ==> r.value.receivedFrom !! r.value.missing && (r.value.success <==> r.value.missing == {})
    ensures sent == if topology.None? || raised || DeriveTreePosition(topology.value).parent.None? then None
                    else Some((DeriveTreePosition(topology.value).parent.value,
                               Note(CONVERGECAST_DATA, session, topology.value.ourKey, r.value.data)))
  {
    if topology.None? {
      return false, None, None;
    }
    raised, r, sent := false, None, None;
    var tree := DeriveTreePosition(topology.value);
    var aggregated, received, pending := local, {}, tree.children;
    CollectIs(session, local, tree.children, inbox);
    if tree.children != {} {
      raised, aggregated, received, pending := AwaitChildren(local, session, tree.children, inbox);
      if raised {
        return;
      }
    } else {
      ChildlessCollects(session, local, inbox);
    }
    if !IsRoot(tree) {
      sent := Some((tree.parent.value, Note(CONVERGECAST_DATA, session, tree.ourKey, aggregated)));
    }
    var missing := tree.children - received;
    assert missing == pending;
    r := Some(Outcome(missing == {}, IsRoot(tree), aggregated, received, missing));
  }

  // ---- the whole tree ----

  /** A subtree of the spanning tree: a node's own data, its view of the topology, what reached it in time, and
      the subtrees of its children. */
  datatype Tree<V> = Node(local: Data<V>, topology: Topology, inbox: seq<Incoming<V>>, children: seq<Tree<V>>)

  function Result<V>(session: string, t: Tree<V>): Outcome<V> {
    OutcomeOf(session, t.local, t.topology, t.inbox)
  }

  /** Every node's topology names exactly the nodes below it as its children. */
  ghost predicate Spanning<V>(t: Tree<V>) {
    && (forall i, j :: 0 <= i < j < |t.children| ==> t.children[i].topology.ourKey != t.children[j].topology.ourKey)
    && (forall k :: k in DeriveTreePosition(t.topology).children <==>
          exists i :: 0 <= i < |t.children| && t.children[i].topology.ourKey == k)
    && (forall i :: 0 <= i < |t.children| ==> Spanning(t.children[i]))
  }

  /** What counts as coming from a child is what that child sends: its result.  Copies, messages of other
      sessions, of other kinds and from strangers may be mixed in, in any order. */
  ghost predicate Honest<V(!new)>(session: string, t: Tree<V>) {
    && (forall m, i ::
          m in t.inbox && 0 <= i < |t.children| && IsDataOf(session, m) && m.from == t.children[i].topology.ourKey ==>
          m.data == Result(session, t.children[i]).data)
    && (forall i :: 0 <= i < |t.children| ==> Honest(session, t.children[i]))
  }

  ghost predicate AllSucceed<V>(session: string, t: Tree<V>) {
    && Result(session, t).success
    && (forall i :: 0 <= i < |t.children| ==> AllSucceed(session, t.children[i]))
  }

  /** Some node of the subtree has value v under k in its own data. */
  ghost predicate Held<V(!new)>(t: Tree<V>, k: string, v: V) {
    || (k in t.local && t.local[k] == v)
    || (exists i :: 0 <= i < |t.children| && Held(t.children[i], k, v))
  }

  /** No two nodes of the subtree give a key different values; disjoint keys are the usual case. */
  ghost predicate Compatible<V(!new)>(t: Tree<V>) {
    forall k, v, w :: Held(t, k, v) && Held(t, k, w) ==> v == w
  }

  /** Nothing is invented: whatever a node returns, even after a timeout, some node below it holds. */
  lemma {:induction false} ResultIsHeld<V(!new)>(session: string, t: Tree<V>, k: string)
    requires Spanning(t) && Honest(session, t) && k in Result(session, t).data
    ensures Held(t, k, Result(session, t).data[k])
  {
    var children := DeriveTreePosition(t.topology).children;
    var v := Result(session, t).data[k];
    CollectIs(session, t.local, children, t.inbox);
    assert Offered(session, t.local, children, t.inbox, k, v);
    if !(k in t.local && t.local[k] == v) {
      var m :| m in t.inbox && IsDataOf(session, m) && m.from in children && k in m.data && m.data[k] == v;
      var i :| 0 <= i < |t.children| && t.children[i].topology.ourKey == m.from;
      assert m.data == Result(session, t.children[i]).data;
      ResultIsHeld(session, t.children[i], k);
    }
  }

  /** Nothing is missed: when every node below succeeds, every key held below is in the result. */
  lemma {:induction false} HeldIsInResult<V(!new)>(session: string, t: Tree<V>, k: string, v: V)
    requires Spanning(t) && Honest(session, t) && AllSucceed(session, t) && Held(t, k, v)
    ensures k in Result(session, t).data
    decreases t
  {
    var children := DeriveTreePosition(t.topology).children;
    var c := Collect(session, t.local, children, t.inbox);
    CollectIs(session, t.local, children, t.inbox);
    if !(k in t.local && t.local[k] == v) {
      var i :| 0 <= i < |t.children| && Held(t.children[i], k, v);
      HeldIsInResult(session, t.children[i], k, v);
      var child := t.children[i].topology.ourKey;
      assert child in children && child in c.received;
      var m :| m in t.inbox && IsDataOf(session, m) && m.from == child && m.data.Keys <= c.aggregated.Keys;
      assert m.data == Result(session, t.children[i]).data;
    }
  }

  predicate Has<V(==)>(data: Data<V>, k: string, v: V) {
    k in data && data[k] == v
  }

  /** The data is exactly the union of what the nodes of the subtree hold. */
  ghost predicate IsUnion<V(!new)>(data: Data<V>, t: Tree<V>) {
    forall k, v :: Has(data, k, v) <==> Held(t, k, v)
  }

  /** When every node of the subtree succeeds, the data a node returns and sends up is exactly the union of the
      data held in its subtree, for every arrival order and whatever else is mixed in, if and only if no two
      nodes give a key different values. */
  lemma ResultIsUnionIff<V(!new)>(session: string, t: Tree<V>)
    requires Spanning(t) && Honest(session, t) && AllSucceed(session, t)
    ensures IsUnion(Result(session, t).data, t) <==> Compatible(t)
  {
    var data := Result(session, t).data;
    if Compatible(t) {
      forall k, v
        ensures Has(data, k, v) <==> Held(t, k, v)
      {
        if k in data {
          ResultIsHeld(session, t, k);
        }
        if Held(t, k, v) {
          HeldIsInResult(session, t, k, v);
        }
      }
    }
    if IsUnion(data, t) {
      forall k, v, w | Held(t, k, v) && Held(t, k, w)
        ensures v == w
      {
        assert Has(data, k, v) && Has(data, k, w);
      }
    }
  }

  // ---- one arrival order against another ----

  /** Two runs of the same tree: the same nodes, data and topologies, with any messages in any order. */
  ghost predicate SameTree<V>(a: Tree<V>, b: Tree<V>) {
    && a.local == b.local && a.topology == b.topology && |a.children| == |b.children|
    && (forall i :: 0 <= i < |a.children| ==> SameTree(a.children[i], b.children[i]))
  }

  lemma {:induction false} SameHeld<V(!new)>(a: Tree<V>, b: Tree<V>, k: string, v: V)
    requires SameTree(a, b) && Held(a, k, v)
    ensures Held(b, k, v)
    decreases a
  {
    if !(k in a.local && a.local[k] == v) {
      var i :| 0 <= i < |a.children| && Held(a.children[i], k, v);
      SameHeld(a.children[i], b.children[i], k, v);
    }
  }

  lemma {:induction false} SameTreeSymmetric<V>(a: Tree<V>, b: Tree<V>)
    requires SameTree(a, b)
    ensures SameTree(b, a)
    decreases a
  {
    forall i | 0 <= i < |b.children|
      ensures SameTree(b.children[i], a.children[i])
    {
      SameTreeSymmetric(a.children[i], b.children[i]);
    }
  }

  /** Two complete runs over the same tree return the same data, however the messages were ordered. */
  lemma OrderDoesNotMatter<V(!new)>(session: string, a: Tree<V>, b: Tree<V>)
    requires SameTree(a, b) && Compatible(a)
    requires Spanning(a) && Honest(session, a) && AllSucceed(session, a)
    requires Spanning(b) && Honest(session, b) && AllSucceed(session, b)
    ensures Result(session, a).data == Result(session, b).data
  {
    var da, db := Result(session, a).data, Result(session, b).data;
    SameTreeSymmetric(a, b);
    forall k | k in da
      ensures k in db
    {
      ResultIsHeld(session, a, k);
      SameHeld(a, b, k, da[k]);
      HeldIsInResult(session, b, k, da[k]);
    }
    forall k | k in db
      ensures k in da && da[k] == db[k]
    {
      ResultIsHeld(session, b, k);
      SameHeld(b, a, k, db[k]);
      HeldIsInResult(session, a, k, db[k]);
      ResultIsHeld(session, a, k);
    }
  }
}
