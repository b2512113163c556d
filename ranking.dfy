/** The list operations the scorers share: building one result per input in input
    order, a count as a fraction of a total, Python's `list.sort(key=..., reverse=True)`
    and the slice `s[:n]`. Python's sort is stable, also with `reverse=True`: elements
    with equal keys keep their original relative order. */
module Ranking {

  /** `[f(x) for x in s[:i]]`: one result per input, in input order, as an append loop
      builds it. */
  function MapPrefix<A, B>(f: A -> B, s: seq<A>, i: nat): (r: seq<B>)
    requires i <= |s|
    ensures |r| == i
  {
    if i == 0 then [] else MapPrefix(f, s, i - 1) + [f(s[i - 1])]
  }

  lemma {:induction false} MapPrefixAt<A, B>(f: A -> B, s: seq<A>, i: nat, j: nat)
    requires j < i <= |s|
    ensures MapPrefix(f, s, i)[j] == f(s[j])
  {
    if j < i - 1 {
      MapPrefixAt(f, s, i - 1, j);
    }
  }

  /** `count / total` as Python's true division: the share of a list that passes a test. */
  function Fraction(count: nat, total: nat): (r: real)
    requires total > 0
    ensures 0.0 <= r
    ensures count <= total ==> r <= 1.0
    ensures r == 1.0 <==> count == total
  {
    assert count as real / total as real * total as real == count as real;
    count as real / total as real
  }

  ghost predicate SortedDesc<T>(s: seq<T>, key: T -> real) {
    forall i, j :: 0 <= i < j < |s| ==> key(s[i]) >= key(s[j])
  }

  /** Places `x` in front of the first element whose key is not larger than its own. */
  function InsertDesc<T>(x: T, t: seq<T>, key: T -> real): (r: seq<T>)
    ensures |r| == |t| + 1
    ensures multiset(r) == multiset(t) + multiset{x}
  {
    if t == [] || key(x) >= key(t[0]) then [x] + t
    else
      assert t == [t[0]] + t[1..];
      [t[0]] + InsertDesc(x, t[1..], key)
  }

  /** Stable insertion sort, largest key first. */
  function SortDesc<T>(s: seq<T>, key: T -> real): (r: seq<T>)
    ensures |r| == |s|
    ensures multiset(r) == multiset(s)
  {
    if s == [] then []
    else
      assert s == [s[0]] + s[1..];
      InsertDesc(s[0], SortDesc(s[1..], key), key)
  }

  /** The elements whose key is exactly `k`, in their order in `s`. */
  function KeyFilter<T>(s: seq<T>, key: T -> real, k: real): (r: seq<T>)
    ensures |r| <= |s|
    ensures forall i :: 0 <= i < |r| ==> key(r[i]) == k
  {
    if s == [] then []
    else (if key(s[0]) == k then [s[0]] else []) + KeyFilter(s[1..], key, k)
  }

  /** Python's `s[:n]`, where a negative `n` counts from the end. */
  function Take<T>(s: seq<T>, n: int): (r: seq<T>)
    ensures r <= s
    ensures n >= 0 ==> |r| == (if n <= |s| then n else |s|)
    ensures n < 0 ==> |r| == (if |s| + n >= 0 then |s| + n else 0)
  {
    if n >= 0 then (if n <= |s| then s[..n] else s)
    else if |s| + n >= 0 then s[..|s| + n] else []
  }

  lemma {:induction false} InsertDescMembers<T>(x: T, t: seq<T>, key: T -> real, y: T)
    requires y in InsertDesc(x, t, key)
    ensures y == x || y in t
    decreases |t|
  {
    if !(t == [] || key(x) >= key(t[0])) && y != t[0] {
      InsertDescMembers(x, t[1..], key, y);
    }
  }

  lemma {:induction false} InsertDescSorted<T>(x: T, t: seq<T>, key: T -> real)
    requires SortedDesc(t, key)
    ensures SortedDesc(InsertDesc(x, t, key), key)
    decreases |t|
  {
    if t != [] && key(x) < key(t[0]) {
      var rest := InsertDesc(x, t[1..], key);
      InsertDescSorted(x, t[1..], key);
      var r := [t[0]] + rest;
      forall i, j | 0 <= i < j < |r| ensures key(r[i]) >= key(r[j]) {
        if i == 0 {
          InsertDescMembers(x, t[1..], key, r[j]);
        } else {
          assert r[i] == rest[i - 1] && r[j] == rest[j - 1];
        }
      }
    }
  }

  lemma {:induction false} SortDescSorted<T>(s: seq<T>, key: T -> real)
    ensures SortedDesc(SortDesc(s, key), key)
  {
    if s != [] {
      SortDescSorted(s[1..], key);
      InsertDescSorted(s[0], SortDesc(s[1..], key), key);
    }
  }

  lemma {:induction false} InsertDescFilter<T>(x: T, t: seq<T>, key: T -> real, k: real)
    requires SortedDesc(t, key)
    ensures KeyFilter(InsertDesc(x, t, key), key, k)
         == (if key(x) == k then [x] else []) + KeyFilter(t, key, k)
    decreases |t|
  {
    if t == [] || key(x) >= key(t[0]) {
      assert ([x] + t)[1..] == t;
    } else {
      var rest := InsertDesc(x, t[1..], key);
      assert ([t[0]] + rest)[1..] == rest;
      InsertDescFilter(x, t[1..], key, k);
    }
  }

  /** Sorting is stable: among the elements of any one key, the order is unchanged. */
  lemma {:induction false} SortDescStable<T>(s: seq<T>, key: T -> real, k: real)
    ensures KeyFilter(SortDesc(s, key), key, k) == KeyFilter(s, key, k)
  {
    if s != [] {
      SortDescStable(s[1..], key, k);
      SortDescSorted(s[1..], key);
      InsertDescFilter(s[0], SortDesc(s[1..], key), key, k);
    }
  }

  lemma {:induction false} KeyFilterPrefix<T>(a: seq<T>, b: seq<T>, key: T -> real, k: real)
    requires a <= b
    ensures KeyFilter(a, key, k) <= KeyFilter(b, key, k)
  {
    if a != [] {
      assert a[1..] <= b[1..];
      KeyFilterPrefix(a[1..], b[1..], key, k);
    }
  }

  lemma PrefixSorted<T>(a: seq<T>, b: seq<T>, key: T -> real)
    requires a <= b && SortedDesc(b, key)
    ensures SortedDesc(a, key)
  {
    forall i, j | 0 <= i < j < |a| ensures key(a[i]) >= key(a[j]) {
      assert a[i] == b[i] && a[j] == b[j];
    }
  }

  /** What `sorted(s, key=key, reverse=True)[:n]` guarantees: a sorted, stable
      selection taken from `s` without repetition, and no element left out has a larger
      key than one kept. */
  lemma RankedTake<T>(s: seq<T>, key: T -> real, n: int)
    ensures var r := Take(SortDesc(s, key), n);
      && SortedDesc(r, key)
      && multiset(r) <= multiset(s)
      && (n >= |s| ==> multiset(r) == multiset(s))
      && (forall k :: KeyFilter(r, key, k) <= KeyFilter(s, key, k))
      && (forall x, y :: x in r && y in multiset(s) - multiset(r) ==> key(y) <= key(x))
  {
    var sorted := SortDesc(s, key);
    var r := Take(sorted, n);
    SortDescSorted(s, key);
    PrefixSorted(r, sorted, key);
    PrefixMultiset(r, sorted);
    PrefixKeepsLargest(r, sorted, key);
    if n >= |s| {
      assert r == sorted;
    }
    forall k ensures KeyFilter(r, key, k) <= KeyFilter(s, key, k) {
      KeyFilterPrefix(r, sorted, key, k);
      SortDescStable(s, key, k);
    }
  }

  /** A prefix of a sorted list holds its largest elements: nothing left out has a
      larger key than anything kept. */
  lemma PrefixKeepsLargest<T>(a: seq<T>, b: seq<T>, key: T -> real)
    requires a <= b && SortedDesc(b, key)
    ensures forall x, y :: x in a && y in multiset(b) - multiset(a) ==> key(y) <= key(x)
  {
    var rest := b[|a|..];
    assert b == a + rest;
    assert multiset(b) - multiset(a) == multiset(rest);
    forall x, y | x in a && y in multiset(b) - multiset(a) ensures key(y) <= key(x) {
      var i :| 0 <= i < |a| && a[i] == x;
      assert y in rest;
      var j :| 0 <= j < |rest| && rest[j] == y;
      assert b[i] == x && b[|a| + j] == y;
    }
  }

  lemma PrefixMultiset<T>(a: seq<T>, b: seq<T>)
    requires a <= b
    ensures multiset(a) <= multiset(b)
  {
    assert b == a + b[|a|..];
  }
}
