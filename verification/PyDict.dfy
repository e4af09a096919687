/** Python's insertion-ordered dict and its stable sort, as values. */
module PyDict {
  import opened Collections

  datatype Dict<K, V> = Dict(keys: seq<K>, at: map<K, V>)

  ghost predicate WellFormed<K, V>(d: Dict<K, V>) {
    NoDup(d.keys) && Elements(d.keys) == d.at.Keys
  }

  /** d[k] = v: a new key goes last, a known key keeps its place. */
  function Put<K(==), V>(d: Dict<K, V>, k: K, v: V): Dict<K, V> {
    Dict(if k in d.at then d.keys else d.keys + [k], d.at[k := v])
  }

  function Empty<K, V>(): Dict<K, V> {
    Dict([], map[])
  }

  function Values<K, V>(d: Dict<K, V>): (vs: seq<V>)
    requires forall k :: k in d.keys ==> k in d.at
    ensures |vs| == |d.keys| && forall i :: 0 <= i < |vs| ==> vs[i] == d.at[d.keys[i]]
    decreases |d.keys|
  {
    if d.keys == [] then []
    else [d.at[d.keys[0]]] + Values(Dict(d.keys[1..], d.at))
  }

  lemma PutWellFormed<K, V>(d: Dict<K, V>, k: K, v: V)
    requires WellFormed(d)
    ensures WellFormed(Put(d, k, v))
  {
    if k !in d.at {
      assert k !in Elements(d.keys);
      assert Elements(d.keys + [k]) == Elements(d.keys) + {k};
    }
  }

  // ---- stable sort ----

  ghost predicate TotalPreorder<T(!new)>(le: (T, T) -> bool) {
    && (forall a, b :: le(a, b) || le(b, a))
    && (forall a, b, c :: le(a, b) && le(b, c) ==> le(a, c))
  }

  ghost predicate SortedBy<T>(le: (T, T) -> bool, xs: seq<T>) {
    forall i, j :: 0 <= i < j < |xs| ==> le(xs[i], xs[j])
  }

  /** x goes before the first item it may precede, hence before the items it ties with. */
  function Insert<T>(le: (T, T) -> bool, x: T, xs: seq<T>): seq<T> {
    if xs == [] || le(x, xs[0]) then [x] + xs else [xs[0]] + Insert(le, x, xs[1..])
  }

  /** Python's sorted(): items that tie keep their order. */
  function Sorted<T>(le: (T, T) -> bool, xs: seq<T>): seq<T> {
    if xs == [] then [] else Insert(le, xs[0], Sorted(le, xs[1..]))
  }

  lemma {:induction false} InsertKeeps<T>(le: (T, T) -> bool, x: T, xs: seq<T>)
    ensures multiset(Insert(le, x, xs)) == multiset(xs) + multiset{x}
  {
    if xs == [] || le(x, xs[0]) {
    } else {
      InsertKeeps(le, x, xs[1..]);
      MultisetCons(xs[0], Insert(le, x, xs[1..]));
      MultisetCons(xs[0], xs[1..]);
      assert xs == [xs[0]] + xs[1..];
    }
  }

  lemma MultisetCons<T>(h: T, t: seq<T>)
    ensures multiset([h] + t) == multiset{h} + multiset(t)
  {
  }

  lemma {:induction false} SortedKeeps<T>(le: (T, T) -> bool, xs: seq<T>)
    ensures multiset(Sorted(le, xs)) == multiset(xs)
    ensures |Sorted(le, xs)| == |xs| && forall x :: x in Sorted(le, xs) <==> x in xs
  {
    if xs == [] {
    } else {
      SortedKeeps(le, xs[1..]);
      InsertKeeps(le, xs[0], Sorted(le, xs[1..]));
      assert xs == [xs[0]] + xs[1..];
      assert |multiset(Sorted(le, xs))| == |multiset(xs)|;
      assert forall x :: x in Sorted(le, xs) <==> x in multiset(Sorted(le, xs));
    }
  }

  lemma {:induction false} InsertSorted<T(!new)>(le: (T, T) -> bool, x: T, xs: seq<T>)
    requires TotalPreorder(le) && SortedBy(le, xs)
    ensures SortedBy(le, Insert(le, x, xs))
  {
    if xs == [] || le(x, xs[0]) {
    } else {
      var rest := Insert(le, x, xs[1..]);
      InsertSorted(le, x, xs[1..]);
      InsertKeeps(le, x, xs[1..]);
      forall j | 0 <= j < |rest|
        ensures le(xs[0], rest[j])
      {
        assert rest[j] in multiset(xs[1..]) + multiset{x};
      }
    }
  }

  lemma {:induction false} SortedIsSorted<T(!new)>(le: (T, T) -> bool, xs: seq<T>)
    requires TotalPreorder(le)
    ensures SortedBy(le, Sorted(le, xs))
  {
    if xs == [] {
    } else {
      SortedIsSorted(le, xs[1..]);
      InsertSorted(le, xs[0], Sorted(le, xs[1..]));
    }
  }

  /** The items that tie with x, in order. */
  ghost function Tied<T(!new)>(le: (T, T) -> bool, x: T, xs: seq<T>): seq<T> {
    if xs == [] then []
    else (if le(x, xs[0]) && le(xs[0], x) then [xs[0]] else []) + Tied(le, x, xs[1..])
  }

  lemma {:induction false} InsertBeforeTies<T(!new)>(le: (T, T) -> bool, x: T, y: T, xs: seq<T>)
    requires TotalPreorder(le)
    ensures Tied(le, x, Insert(le, y, xs)) == Tied(le, x, [y] + xs)
  {
    assert ([y] + xs)[1..] == xs;
    if xs == [] || le(y, xs[0]) {
    } else {
      InsertBeforeTies(le, x, y, xs[1..]);
      assert ([y] + xs[1..])[1..] == xs[1..];
      assert Insert(le, y, xs)[1..] == Insert(le, y, xs[1..]);
    }
  }

  /** Stability: items that tie come out in the order they went in. */
  lemma {:induction false} SortedIsStable<T(!new)>(le: (T, T) -> bool, x: T, xs: seq<T>)
    requires TotalPreorder(le)
    ensures Tied(le, x, Sorted(le, xs)) == Tied(le, x, xs)
  {
    if xs == [] {
    } else {
      SortedIsStable(le, x, xs[1..]);
      InsertBeforeTies(le, x, xs[0], Sorted(le, xs[1..]));
      assert ([xs[0]] + Sorted(le, xs[1..]))[1..] == Sorted(le, xs[1..]);
    }
  }

  /** x stands somewhere before y. */
  ghost predicate Precedes<T(!new)>(xs: seq<T>, x: T, y: T) {
    exists i, j :: 0 <= i < j < |xs| && xs[i] == x && xs[j] == y
  }

  lemma PrecedesCons<T(!new)>(h: T, xs: seq<T>, x: T, y: T)
    requires Precedes(xs, x, y) || (h == x && y in xs)
    ensures Precedes([h] + xs, x, y)
  {
    var all := [h] + xs;
    if Precedes(xs, x, y) {
      var i, j :| 0 <= i < j < |xs| && xs[i] == x && xs[j] == y;
      assert all[i + 1] == x && all[j + 1] == y;
    } else {
      var j :| 0 <= j < |xs| && xs[j] == y;
      assert all[0] == x && all[j + 1] == y;
    }
  }

  lemma {:induction false} InsertKeepsOrder<T(!new)>(le: (T, T) -> bool, z: T, xs: seq<T>, x: T, y: T)
    requires Precedes(xs, x, y)
    ensures Precedes(Insert(le, z, xs), x, y)
  {
    if le(z, xs[0]) {
      PrecedesCons(z, xs, x, y);
    } else {
      var i, j :| 0 <= i < j < |xs| && xs[i] == x && xs[j] == y;
      InsertKeeps(le, z, xs[1..]);
      if i == 0 {
        assert xs[1..][j - 1] == y;
        assert y in multiset(Insert(le, z, xs[1..]));
      } else {
        assert xs[1..][i - 1] == x && xs[1..][j - 1] == y;
        InsertKeepsOrder(le, z, xs[1..], x, y);
      }
      PrecedesCons(xs[0], Insert(le, z, xs[1..]), x, y);
    }
  }

  lemma {:induction false} InsertGoesBefore<T(!new)>(le: (T, T) -> bool, x: T, xs: seq<T>, y: T)
    requires TotalPreorder(le) && SortedBy(le, xs) && y in xs && le(x, y)
    ensures Precedes(Insert(le, x, xs), x, y)
  {
    if le(x, xs[0]) {
      PrecedesCons(x, xs, x, y);
    } else {
      var j :| 0 <= j < |xs| && xs[j] == y;
      assert j > 0 && xs[1..][j - 1] == y;
      InsertGoesBefore(le, x, xs[1..], y);
      PrecedesCons(xs[0], Insert(le, x, xs[1..]), x, y);
    }
  }

  /** Of two items the earlier one stays before the later one unless the order says otherwise. */
  lemma {:induction false} SortedKeepsOrder<T(!new)>(le: (T, T) -> bool, xs: seq<T>, i: nat, j: nat)
    requires TotalPreorder(le) && i < j < |xs| && le(xs[i], xs[j])
    ensures Precedes(Sorted(le, xs), xs[i], xs[j])
  {
    var rest := xs[1..];
    SortedKeeps(le, rest);
    if i == 0 {
      assert rest[j - 1] == xs[j];
      SortedIsSorted(le, rest);
      InsertGoesBefore(le, xs[0], Sorted(le, rest), xs[j]);
    } else {
      assert rest[i - 1] == xs[i] && rest[j - 1] == xs[j];
      SortedKeepsOrder(le, rest, i - 1, j - 1);
      InsertKeepsOrder(le, xs[0], Sorted(le, rest), xs[i], xs[j]);
    }
  }

  // ---- order on strings ----

  /** Code-point order on strings, as Python compares them. */
  predicate TextLe(a: string, b: string) {
    a == "" || (b != "" && (a[0] < b[0] || (a[0] == b[0] && TextLe(a[1..], b[1..]))))
  }

  /** a comes no later than b if and only if it is a beginning of b, or has the smaller character where they first
      differ. */
  lemma {:induction false} TextLeIff(a: string, b: string)
    ensures TextLe(a, b) <==> a <= b || exists k: nat :: DiffersAt(a, b, k) && a[k] < b[k]
  {
    if a != "" && b != "" && a[0] == b[0] {
      TextLeIff(a[1..], b[1..]);
      if k: nat :| DiffersAt(a[1..], b[1..], k) && a[1..][k] < b[1..][k] {
        assert DiffersAt(a, b, k + 1);
      }
      if k: nat :| DiffersAt(a, b, k) && a[k] < b[k] {
        assert DiffersAt(a[1..], b[1..], k - 1);
      }
      assert a[1..] <= b[1..] <==> a <= b;
    } else if a != "" && b != "" {
      assert DiffersAt(a, b, 0);
    }
  }

  /** k is the first position at which they have different characters. */
  ghost predicate DiffersAt(a: string, b: string, k: nat) {
    k < |a| && k < |b| && a[k] != b[k] && forall i :: 0 <= i < k ==> a[i] == b[i]
  }

  lemma {:induction false} TextLeTotal(a: string, b: string)
    ensures TextLe(a, b) || TextLe(b, a)
  {
    if a != "" && b != "" && a[0] == b[0] {
      TextLeTotal(a[1..], b[1..]);
    }
  }

  lemma {:induction false} TextLeTransitive(a: string, b: string, c: string)
    requires TextLe(a, b) && TextLe(b, c)
    ensures TextLe(a, c)
  {
    if a != "" && a[0] == b[0] == c[0] {
      TextLeTransitive(a[1..], b[1..], c[1..]);
    }
  }
}
