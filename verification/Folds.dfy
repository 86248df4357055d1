/** Folding commuting steps in any order gives the same result: the argument behind every
    "whatever the map iteration order" claim; and facts about finite sets and sequences that several
    modules share. */
module Folds {

  function Fold<S, K>(f: (S, K) -> S, s: S, order: seq<K>): S {
    if order == [] then s else f(Fold(f, s, order[..|order| - 1]), order[|order| - 1])
  }

  ghost predicate Commutes<S(!new), K(!new)>(f: (S, K) -> S, keys: set<K>) {
    forall s, j, k :: j in keys && k in keys && j != k ==> f(f(s, j), k) == f(f(s, k), j)
  }

  /** order lists each key once. */
  ghost predicate Enumerates<K(!new)>(order: seq<K>, keys: set<K>) {
    && (forall k :: k in order <==> k in keys)
    && (forall i, j :: 0 <= i < j < |order| ==> order[i] != order[j])
  }

  lemma FoldLast<S, K>(f: (S, K) -> S, s: S, o: seq<K>, k: K)
    ensures Fold(f, s, o + [k]) == f(Fold(f, s, o), k)
  {
    assert (o + [k])[..|o|] == o;
  }

  lemma SwapLast<S(!new), K(!new)>(f: (S, K) -> S, s: S, o: seq<K>, x: K, y: K, keys: set<K>)
    requires Commutes(f, keys) && x in keys && y in keys && x != y
    ensures f(Fold(f, s, o + [x]), y) == Fold(f, s, o + [y] + [x])
  {
    FoldLast(f, s, o, x);
    FoldLast(f, s, o, y);
    FoldLast(f, s, o + [y], x);
    assert f(f(Fold(f, s, o), x), y) == f(f(Fold(f, s, o), y), x);
  }

  lemma {:induction false} MoveToEnd<S(!new), K(!new)>(f: (S, K) -> S, s: S, o: seq<K>, i: nat, n: nat, keys: set<K>)
    requires Commutes(f, keys) && Enumerates(o, keys) && i < n <= |o|
    ensures Fold(f, s, o[..n]) == Fold(f, s, o[..i] + o[i + 1..n] + [o[i]])
  {
    if i == n - 1 {
      assert o[..i] + o[i + 1..n] + [o[i]] == o[..n];
    } else {
      MoveToEnd(f, s, o, i, n - 1, keys);
      var rest := o[..i] + o[i + 1..n - 1];
      FoldLast(f, s, o[..n - 1], o[n - 1]);
      assert o[..n] == o[..n - 1] + [o[n - 1]];
      assert o[i] in o && o[n - 1] in o;
      SwapLast(f, s, rest, o[i], o[n - 1], keys);
      assert o[..i] + o[i + 1..n] == rest + [o[n - 1]];
    }
  }

  lemma EmptyEnumeration<K(!new)>(o: seq<K>, keys: set<K>)
    requires Enumerates(o, keys)
    ensures o == [] <==> keys == {}
  {
    if o != [] {
      assert o[0] in o;
    }
  }

  lemma DropOne<K(!new)>(o: seq<K>, i: nat, keys: set<K>)
    requires Enumerates(o, keys) && i < |o|
    ensures Enumerates(o[..i] + o[i + 1..], keys - {o[i]})
  {
    var r := o[..i] + o[i + 1..];
    assert forall m :: 0 <= m < |r| ==> r[m] == if m < i then o[m] else o[m + 1];
    forall k
      ensures k in r <==> k in keys - {o[i]}
    {
      if k in o && k != o[i] {
        var m :| 0 <= m < |o| && o[m] == k;
        assert r[if m < i then m else m - 1] == k;
      }
    }
  }

  lemma {:induction false} FoldOrderFree<S(!new), K(!new)>(f: (S, K) -> S, s: S, o1: seq<K>, o2: seq<K>, keys: set<K>)
    requires Commutes(f, keys) && Enumerates(o1, keys) && Enumerates(o2, keys)
    ensures Fold(f, s, o1) == Fold(f, s, o2)
    decreases |o1|
  {
    if o1 == [] {
      EmptyEnumeration(o1, keys);
      EmptyEnumeration(o2, keys);
    } else {
      var n := |o1| - 1;
      var x := o1[n];
      assert x in o1;
      var i :| 0 <= i < |o2| && o2[i] == x;
      var rest := o2[..i] + o2[i + 1..];
      MoveToEnd(f, s, o2, i, |o2|, keys);
      assert o2[..|o2|] == o2 && o2[i + 1..|o2|] == o2[i + 1..];
      FoldLast(f, s, rest, x);
      DropOne(o1, n, keys);
      DropOne(o2, i, keys);
      assert o1[..n] + o1[n + 1..] == o1[..n];
      FewerCommute(f, keys, keys - {x});
      FoldOrderFree(f, s, o1[..n], rest, keys - {x});
    }
  }

  lemma FewerCommute<S(!new), K(!new)>(f: (S, K) -> S, keys: set<K>, fewer: set<K>)
    requires Commutes(f, keys) && fewer <= keys
    ensures Commutes(f, fewer)
  {
  }

  lemma EnumerateOneMore<K(!new)>(order: seq<K>, keys: set<K>, k: K)
    requires Enumerates(order, keys) && k !in keys
    ensures Enumerates(order + [k], keys + {k})
  {
    assert forall i :: 0 <= i < |order| ==> order[i] in keys;
  }

  /** Every finite set can be ranged over. */
  lemma {:induction false} SomeOrder<K(!new)>(keys: set<K>) returns (order: seq<K>)
    ensures Enumerates(order, keys)
    decreases keys
  {
    if keys == {} {
      order := [];
    } else {
      var k :| k in keys;
      order := SomeOrder(keys - {k});
      EnumerateOneMore(order, keys - {k}, k);
      assert keys - {k} + {k} == keys;
      order := order + [k];
    }
  }

  lemma Assoc<T>(a: seq<T>, b: seq<T>, c: seq<T>)
    ensures (a + b) + c == a + (b + c)
  {
  }

  /** What was added in two steps. */
  lemma Added<T>(a: seq<T>, b: seq<T>, c: seq<T>)
    requires a <= b <= c
    ensures c[|a|..] == b[|a|..] + c[|b|..]
  {
    assert c == b + c[|b|..];
  }

  lemma SizeOneMore<K>(s: set<K>, x: K)
    requires x !in s
    ensures |s + {x}| == |s| + 1
  {
  }

  lemma SubsetSize<K>(a: set<K>, b: set<K>)
    requires a <= b
    ensures |a| <= |b|
  {
    assert b == a + (b - a);
  }
}
