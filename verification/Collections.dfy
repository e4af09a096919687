/** Finite sets, sequences and the Python list idioms shared by every model in this project. */
module Collections {

  datatype Option<+T> = None | Some(value: T)

  ghost predicate NoDup<T>(s: seq<T>) {
    forall i, j :: 0 <= i < j < |s| ==> s[i] != s[j]
  }

  function Elements<T>(s: seq<T>): set<T> {
    set x | x in s
  }

  /** `order` lists the members of `xs`, each once, in some order: what random.shuffle may produce. */
  ghost predicate IsShuffle<T>(order: seq<T>, xs: set<T>) {
    NoDup(order) && Elements(order) == xs
  }

  /** Visits a set in an arbitrary order. */
  method Shuffle<T(==)>(xs: set<T>) returns (order: seq<T>)
    ensures IsShuffle(order, xs)
  {
    order := [];
    var rest := xs;
    while rest != {}
      invariant NoDup(order)
      invariant Elements(order) + rest == xs && Elements(order) !! rest
      decreases rest
    {
      var x :| x in rest;
      assert x !in Elements(order);
      assert Elements(order + [x]) == Elements(order) + {x};
      order, rest := order + [x], rest - {x};
    }
  }

  lemma {:induction false} NoDupSize<T>(s: seq<T>)
    requires NoDup(s)
    ensures |Elements(s)| == |s|
  {
    if s == [] {
    } else {
      var init, last := s[..|s| - 1], s[|s| - 1];
      NoDupSize(init);
      assert last !in Elements(init);
      assert s == init + [last];
      assert Elements(s) == Elements(init) + {last};
    }
  }

  /** Python's xs[:k], where a negative k counts from the end. */
  function PyTake<T>(s: seq<T>, k: int): seq<T> {
    if k >= |s| then s
    else if k >= 0 then s[..k]
    else if |s| + k >= 0 then s[..|s| + k]
    else []
  }

  /** Python's xs[-n:]; n == 0 means the whole list. */
  function PyLast<T>(s: seq<T>, n: nat): seq<T> {
    if n == 0 || n >= |s| then s else s[|s| - n..]
  }

  /** x first occurs in xs at position p. */
  ghost predicate FirstAt<T>(xs: seq<T>, x: T, p: nat) {
    p < |xs| && xs[p] == x && forall k :: 0 <= k < p ==> xs[k] != x
  }

  lemma FirstStays<T>(xs: seq<T>, y: T, x: T, p: nat)
    requires x in xs && FirstAt(xs + [y], x, p)
    ensures FirstAt(xs, x, p)
  {
    var k :| 0 <= k < |xs| && xs[k] == x;
    assert (xs + [y])[k] == x;
    forall l | 0 <= l < p
      ensures xs[l] != x
    {
      assert (xs + [y])[l] != x;
    }
  }

  lemma TakeSubset<T>(s: seq<T>, k: int)
    ensures Elements(PyTake(s, k)) <= Elements(s)
  {
  }

  function Min(a: int, b: int): int {
    if a < b then a else b
  }

  /** `s` without the item at position i. */
  function RemoveAt<T>(s: seq<T>, i: nat): seq<T>
    requires i < |s|
  {
    s[..i] + s[i + 1..]
  }

  lemma SubsetSize<T>(a: set<T>, b: set<T>)
    requires a <= b
    ensures |a| <= |b|
  {
    assert b == a + (b - a);
  }

  lemma DisjointSize<T>(a: set<T>, b: set<T>, whole: set<T>)
    requires a + b <= whole && a !! b
    ensures |a| + |b| <= |whole|
  {
    assert |a + b| == |a| + |b|;
    SubsetSize(a + b, whole);
  }

  /** Two parts of a whole cost no more than the whole. */
  lemma {:induction false} Scaled(cost: nat, part: nat, rest: nat, whole: nat)
    requires part + rest <= whole
    ensures cost * part + cost * rest <= cost * whole
  {
    if cost == 0 {
    } else {
      Scaled(cost - 1, part, rest, whole);
      assert cost * part == (cost - 1) * part + part;
      assert cost * rest == (cost - 1) * rest + rest;
      assert cost * whole == (cost - 1) * whole + whole;
    }
  }
}
