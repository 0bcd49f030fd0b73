/** Order-preserving selection, prefixes and a stable sort by an integer key:
    the shapes the document store's queries (`find`, `sort`, `limit`) and the
    pages' `filter` calls take in this model. */
module Sequences {

  /** The elements of `s` that satisfy `f`, in their original order. */
  function Filter<T>(s: seq<T>, f: T -> bool): (r: seq<T>)
    ensures |r| <= |s|
    ensures forall i :: 0 <= i < |r| ==> f(r[i]) && r[i] in s
    ensures forall i :: 0 <= i < |s| && f(s[i]) ==> s[i] in r
  {
    if s == [] then []
    else if f(s[0]) then [s[0]] + Filter(s[1..], f)
    else Filter(s[1..], f)
  }

  lemma {:induction false} FilterAppend<T>(s: seq<T>, x: T, f: T -> bool)
    ensures Filter(s + [x], f) == Filter(s, f) + (if f(x) then [x] else [])
  {
    if s == [] {
      assert s + [x] == [x];
    } else {
      assert (s + [x])[1..] == s[1..] + [x];
      FilterAppend(s[1..], x, f);
    }
  }

  /** A selection keeps at most the copies of each element the input has. */
  lemma {:induction false} FilterIsSubMultiset<T>(s: seq<T>, f: T -> bool)
    ensures multiset(Filter(s, f)) <= multiset(s)
  {
    if s != [] {
      FilterIsSubMultiset(s[1..], f);
      assert s == [s[0]] + s[1..];
    }
  }

  /** A selection that keeps everything is the identity. */
  lemma {:induction false} FilterAll<T>(s: seq<T>, f: T -> bool)
    requires forall i :: 0 <= i < |s| ==> f(s[i])
    ensures Filter(s, f) == s
  {
    if s != [] {
      FilterAll(s[1..], f);
    }
  }

  /** Two conditions that agree on every element select the same elements. */
  lemma {:induction false} FilterSameCondition<T>(s: seq<T>, f: T -> bool, g: T -> bool)
    requires forall i :: 0 <= i < |s| ==> f(s[i]) == g(s[i])
    ensures Filter(s, f) == Filter(s, g)
  {
    if s != [] {
      FilterSameCondition(s[1..], f, g);
    }
  }

  /** A selection is non-empty exactly when some element satisfies the condition. */
  lemma FilterNonEmpty<T>(s: seq<T>, f: T -> bool)
    ensures Filter(s, f) != [] <==> exists i :: 0 <= i < |s| && f(s[i])
  {
    var r := Filter(s, f);
    if r != [] {
      var j :| 0 <= j < |s| && s[j] == r[0];
      assert f(s[j]);
    }
  }

  /** A condition that holds exactly when one of two exclusive conditions
      does selects as many elements as the two together. */
  lemma {:induction false} FilterDisjointUnion<T>(s: seq<T>, f: T -> bool, g: T -> bool, h: T -> bool)
    requires forall i :: 0 <= i < |s| ==> h(s[i]) == (f(s[i]) || g(s[i])) && !(f(s[i]) && g(s[i]))
    ensures |Filter(s, h)| == |Filter(s, f)| + |Filter(s, g)|
  {
    if s != [] {
      FilterDisjointUnion(s[1..], f, g, h);
    }
  }

  /** When no element satisfies two of the three conditions at once, at most
      |s| elements are selected by the three together. */
  lemma {:induction false} DisjointFiltersFit<T>(s: seq<T>, f: T -> bool, g: T -> bool, h: T -> bool)
    requires forall x :: x in s ==> !(f(x) && g(x)) && !(f(x) && h(x)) && !(g(x) && h(x))
    ensures |Filter(s, f)| + |Filter(s, g)| + |Filter(s, h)| <= |s|
  {
    if s != [] {
      DisjointFiltersFit(s[1..], f, g, h);
    }
  }

  /** The first `n` elements (all of them when there are fewer). */
  function Take<T>(s: seq<T>, n: nat): (r: seq<T>)
    ensures |r| == if |s| < n then |s| else n
    ensures forall i :: 0 <= i < |r| ==> r[i] == s[i]
  {
    if |s| <= n then s else s[..n]
  }

  /** `s` is in ascending order of `key`. */
  predicate SortedBy<T>(s: seq<T>, key: T -> int)
  {
    forall i, j :: 0 <= i < j < |s| ==> key(s[i]) <= key(s[j])
  }

  /** Inserts `x` before the first element whose key is not below its own. */
  function Insert<T>(x: T, s: seq<T>, key: T -> int): (r: seq<T>)
    requires SortedBy(s, key)
    ensures SortedBy(r, key)
    ensures multiset(r) == multiset(s) + multiset{x}
    ensures |r| == |s| + 1
    ensures forall i :: 0 <= i < |r| ==> r[i] == x || r[i] in s
  {
    if s == [] then [x]
    else if key(x) <= key(s[0]) then [x] + s
    else
      var rest := Insert(x, s[1..], key);
      assert s == [s[0]] + s[1..];
      assert forall i :: 0 <= i < |rest| ==> key(s[0]) <= key(rest[i]);
      PrependSorted(s[0], rest, key);
      [s[0]] + rest
  }

  /** An element whose key is at most every key of a sorted sequence can lead it. */
  lemma PrependSorted<T>(a: T, s: seq<T>, key: T -> int)
    requires SortedBy(s, key)
    requires forall i :: 0 <= i < |s| ==> key(a) <= key(s[i])
    ensures SortedBy([a] + s, key)
  {
    var r := [a] + s;
    forall i, j | 0 <= i < j < |r| ensures key(r[i]) <= key(r[j]) {
      assert r[j] == s[j - 1];
      if i > 0 {
        assert r[i] == s[i - 1];
      }
    }
  }

  /** A stable insertion sort of `s` into ascending order of `key`. */
  function SortBy<T>(s: seq<T>, key: T -> int): (r: seq<T>)
    ensures SortedBy(r, key)
    ensures multiset(r) == multiset(s)
    ensures |r| == |s|
  {
    if s == [] then []
    else
      assert s == [s[0]] + s[1..];
      Insert(s[0], SortBy(s[1..], key), key)
  }

  /** An order-preserving selection of a sorted sequence is sorted. */
  lemma {:induction false} FilterKeepsSorted<T>(s: seq<T>, f: T -> bool, key: T -> int)
    requires SortedBy(s, key)
    ensures SortedBy(Filter(s, f), key)
  {
    if s != [] {
      assert SortedBy(s[1..], key);
      FilterKeepsSorted(s[1..], f, key);
      assert forall y :: y in Filter(s[1..], f) ==> y in s[1..];
    }
  }

  /** Every element of `s` taken from the sorted order at or after position
      `n` has a key no smaller than the keys of the first `n`. */
  lemma TakeHoldsSmallestKeys<T>(s: seq<T>, n: nat, key: T -> int, x: T)
    requires x in SortBy(s, key) && x !in Take(SortBy(s, key), n)
    ensures forall y :: y in Take(SortBy(s, key), n) ==> key(y) <= key(x)
  {
    var r := SortBy(s, key);
    var t := Take(r, n);
    var j :| 0 <= j < |r| && r[j] == x;
    assert t == r[..|t|];
    assert j >= |t|;
    forall y | y in t ensures key(y) <= key(x) {
      var i :| 0 <= i < |t| && t[i] == y;
      assert r[i] == y;
    }
  }

  /** An element whose key is strictly below every other element's key
      comes first in the sorted order. */
  lemma StrictMinimumFirst<T>(s: seq<T>, key: T -> int, x: T)
    requires x in s
    requires forall i :: 0 <= i < |s| && s[i] != x ==> key(x) < key(s[i])
    ensures SortBy(s, key) != [] && SortBy(s, key)[0] == x
  {
    var r := SortBy(s, key);
    assert x in multiset(r);
    assert r[0] in multiset(s);
  }

  /** Sum of `f` over the elements of `s`. */
  function SumOf<T>(s: seq<T>, f: T -> real): real
  {
    if s == [] then 0.0 else f(s[0]) + SumOf(s[1..], f)
  }

  /** Bounds on each term bound the sum. */
  lemma {:induction false} SumOfBounds<T>(s: seq<T>, f: T -> real, lo: real, hi: real)
    requires forall x :: x in s ==> lo <= f(x) <= hi
    ensures |s| as real * lo <= SumOf(s, f) <= |s| as real * hi
  {
    if s != [] {
      SumOfBounds(s[1..], f, lo, hi);
    }
  }
}
