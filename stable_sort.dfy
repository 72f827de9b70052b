/**
 * Python's `list.sort(key=...)` is stable: elements whose keys compare equal keep
 * their input order. Its result is therefore the one produced by a stable insertion
 * sort, which is what this module defines (as a function) and implements (as a method
 * that sorts a list in place, i.e. reassigns it).
 *
 * Keys are pairs compared lexicographically, the shape of the tuple keys the agents use.
 */
module StableSort {

  datatype SortKey = SortKey(primary: real, secondary: real)

  /** Strict lexicographic order on keys (Python's `<` on a 2-tuple of numbers). */
  predicate KeyLess(a: SortKey, b: SortKey) {
    a.primary < b.primary || (a.primary == b.primary && a.secondary < b.secondary)
  }

  predicate KeyLe(a: SortKey, b: SortKey) {
    !KeyLess(b, a)
  }

  ghost predicate Sorted<T>(s: seq<T>, key: T -> SortKey) {
    forall i, j :: 0 <= i < j < |s| ==> KeyLe(key(s[i]), key(s[j]))
  }

  /** Inserts `x` after every element whose key is not greater than its own. */
  function Insert<T>(x: T, s: seq<T>, key: T -> SortKey): (r: seq<T>)
    ensures |r| == |s| + 1
  {
    if s == [] then [x]
    else if KeyLess(key(x), key(s[0])) then [x] + s
    else [s[0]] + Insert(x, s[1..], key)
  }

  /** The stable sort of `s`: the sort of all but the last element, with the last inserted. */
  function Sort<T>(s: seq<T>, key: T -> SortKey): (r: seq<T>)
    ensures |r| == |s|
  {
    if s == [] then [] else Insert(s[|s| - 1], Sort(s[..|s| - 1], key), key)
  }

  /** The elements of `s` whose key is `k`, in order. */
  function WithKey<T>(s: seq<T>, key: T -> SortKey, k: SortKey): seq<T> {
    if s == [] then []
    else (if key(s[0]) == k then [s[0]] else []) + WithKey(s[1..], key, k)
  }

  /** Index of the first element of `s` whose key is minimal. */
  function FirstMin<T>(s: seq<T>, key: T -> SortKey): (m: nat)
    requires |s| > 0
    ensures m < |s|
    ensures forall j :: 0 <= j < |s| ==> KeyLe(key(s[m]), key(s[j]))
    ensures forall j :: 0 <= j < m ==> KeyLess(key(s[m]), key(s[j]))
  {
    if |s| == 1 then 0
    else
      var m := FirstMin(s[..|s| - 1], key);
      if KeyLess(key(s[|s| - 1]), key(s[m])) then |s| - 1 else m
  }

  predicate DistinctBy<T, U(==)>(s: seq<T>, f: T -> U) {
    forall i, j :: 0 <= i < j < |s| ==> f(s[i]) != f(s[j])
  }

  lemma {:induction false} InsertPermutes<T>(x: T, s: seq<T>, key: T -> SortKey)
    ensures multiset(Insert(x, s, key)) == multiset(s) + multiset{x}
  {
    if s != [] && !KeyLess(key(x), key(s[0])) {
      InsertPermutes(x, s[1..], key);
      assert s == [s[0]] + s[1..];
    }
  }

  lemma {:induction false} SortPermutes<T>(s: seq<T>, key: T -> SortKey)
    ensures multiset(Sort(s, key)) == multiset(s)
  {
    if s != [] {
      var p := s[..|s| - 1];
      SortPermutes(p, key);
      InsertPermutes(s[|s| - 1], Sort(p, key), key);
      assert s == p + [s[|s| - 1]];
    }
  }

  lemma {:induction false} InsertSorted<T>(x: T, s: seq<T>, key: T -> SortKey)
    requires Sorted(s, key)
    ensures Sorted(Insert(x, s, key), key)
  {
    if s != [] && !KeyLess(key(x), key(s[0])) {
      InsertSorted(x, s[1..], key);
      var r := Insert(x, s[1..], key);
      InsertPermutes(x, s[1..], key);
      forall y | y in r ensures KeyLe(key(s[0]), key(y)) {
        assert y in multiset(r);
        if y != x {
          assert y in multiset(s[1..]);
          var j :| 0 <= j < |s[1..]| && s[1..][j] == y;
          assert s[j + 1] == y;
        }
      }
      forall i, j | 0 <= i < j < |[s[0]] + r|
        ensures KeyLe(key(([s[0]] + r)[i]), key(([s[0]] + r)[j]))
      {
        if i == 0 {
          assert ([s[0]] + r)[j] == r[j - 1];
          assert r[j - 1] in r;
        } else {
          assert ([s[0]] + r)[i] == r[i - 1];
          assert ([s[0]] + r)[j] == r[j - 1];
        }
      }
    }
  }

  lemma {:induction false} SortSorted<T>(s: seq<T>, key: T -> SortKey)
    ensures Sorted(Sort(s, key), key)
  {
    if s != [] {
      SortSorted(s[..|s| - 1], key);
      InsertSorted(s[|s| - 1], Sort(s[..|s| - 1], key), key);
    }
  }

  lemma {:induction false} WithKeyAppend<T>(a: seq<T>, b: seq<T>, key: T -> SortKey, k: SortKey)
    ensures WithKey(a + b, key, k) == WithKey(a, key, k) + WithKey(b, key, k)
  {
    if a != [] {
      WithKeyAppend(a[1..], b, key, k);
      assert (a + b)[1..] == a[1..] + b;
    } else {
      assert a + b == b;
    }
  }

  /** Inserting `x` puts it last among the elements of its own key, and nowhere else. */
  lemma {:induction false} InsertWithKey<T>(x: T, s: seq<T>, key: T -> SortKey, k: SortKey)
    requires Sorted(s, key)
    ensures WithKey(Insert(x, s, key), key, k)
         == WithKey(s, key, k) + (if key(x) == k then [x] else [])
  {
    if s == [] {
    } else if KeyLess(key(x), key(s[0])) {
      assert Insert(x, s, key) == [x] + s;
      FrontWithKey(x, s, key, k);
    } else {
      var r := Insert(x, s[1..], key);
      assert Sorted(s[1..], key) by {
        forall i, j | 0 <= i < j < |s[1..]| ensures KeyLe(key(s[1..][i]), key(s[1..][j])) {
          assert s[1..][i] == s[i + 1] && s[1..][j] == s[j + 1];
        }
      }
      InsertWithKey(x, s[1..], key, k);
      assert Insert(x, s, key) == [s[0]] + r;
      assert ([s[0]] + r)[1..] == r;
    }
  }

  /** An `x` keyed below the whole of a sorted `s`, put in front, is last among the elements of its key. */
  lemma FrontWithKey<T>(x: T, s: seq<T>, key: T -> SortKey, k: SortKey)
    requires Sorted(s, key) && s != [] && KeyLess(key(x), key(s[0]))
    ensures WithKey([x] + s, key, k) == WithKey(s, key, k) + (if key(x) == k then [x] else [])
  {
    assert ([x] + s)[1..] == s;
    if key(x) == k {
      // every element of s has a key above k, so none of them is kept
      forall i | 0 <= i < |s| ensures key(s[i]) != k {
        assert KeyLe(key(s[0]), key(s[i])) || i == 0;
      }
      WithKeyNone(s, key, k);
    }
  }

  lemma {:induction false} WithKeyNone<T>(s: seq<T>, key: T -> SortKey, k: SortKey)
    requires forall i :: 0 <= i < |s| ==> key(s[i]) != k
    ensures WithKey(s, key, k) == []
  {
    if s != [] {
      WithKeyNone(s[1..], key, k);
    }
  }

  /** Stability: for every key, the elements with that key appear in the same order before and after sorting. */
  lemma {:induction false} SortStable<T>(s: seq<T>, key: T -> SortKey, k: SortKey)
    ensures WithKey(Sort(s, key), key, k) == WithKey(s, key, k)
  {
    if s != [] {
      var p, x := s[..|s| - 1], s[|s| - 1];
      SortStable(p, key, k);
      SortSorted(p, key);
      InsertWithKey(x, Sort(p, key), key, k);
      assert s == p + [x];
      WithKeyAppend(p, [x], key, k);
    }
  }

  /** The first element of the sorted list is the first element of minimal key. */
  lemma {:induction false} SortHead<T>(s: seq<T>, key: T -> SortKey)
    requires |s| > 0
    ensures Sort(s, key)[0] == s[FirstMin(s, key)]
  {
    if |s| > 1 {
      var p := s[..|s| - 1];
      SortHead(p, key);
    }
  }

  /** The splitting point the in-place insertion finds gives the same list as `Insert`. */
  lemma {:induction false} InsertAt<T>(x: T, s: seq<T>, key: T -> SortKey, j: nat)
    requires j <= |s|
    requires forall i :: 0 <= i < j ==> !KeyLess(key(x), key(s[i]))
    requires forall i :: j <= i < |s| ==> KeyLess(key(x), key(s[i]))
    ensures Insert(x, s, key) == s[..j] + [x] + s[j..]
  {
    if j > 0 {
      InsertAt(x, s[1..], key, j - 1);
      assert s[..j] == [s[0]] + s[1..][..j - 1];
      assert s[j..] == s[1..][j - 1..];
    } else if s != [] {
      assert KeyLess(key(x), key(s[0]));
    }
  }

  lemma {:induction false} InsertKeepsDistinct<T, U>(x: T, s: seq<T>, key: T -> SortKey, f: T -> U)
    requires DistinctBy(s, f)
    requires forall i :: 0 <= i < |s| ==> f(s[i]) != f(x)
    ensures DistinctBy(Insert(x, s, key), f)
  {
    if s != [] && !KeyLess(key(x), key(s[0])) {
      var r := Insert(x, s[1..], key);
      InsertKeepsDistinct(x, s[1..], key, f);
      InsertPermutes(x, s[1..], key);
      forall j | 0 <= j < |r| ensures f(r[j]) != f(s[0]) {
        assert r[j] in multiset(r);
        if r[j] != x {
          assert r[j] in multiset(s[1..]);
          var i :| 0 <= i < |s[1..]| && s[1..][i] == r[j];
          assert s[i + 1] == r[j];
        }
      }
      forall i, j | 0 <= i < j < |[s[0]] + r|
        ensures f(([s[0]] + r)[i]) != f(([s[0]] + r)[j])
      {
        if i == 0 {
          assert ([s[0]] + r)[j] == r[j - 1];
        } else {
          assert ([s[0]] + r)[i] == r[i - 1];
          assert ([s[0]] + r)[j] == r[j - 1];
        }
      }
    } else if s != [] {
      forall i, j | 0 <= i < j < |[x] + s|
        ensures f(([x] + s)[i]) != f(([x] + s)[j])
      {
        if i > 0 {
          assert ([x] + s)[i] == s[i - 1];
        }
        assert ([x] + s)[j] == s[j - 1];
      }
    }
  }

  /** Sorting never introduces two elements that agree on `f` (no element appears twice). */
  lemma {:induction false} SortKeepsDistinct<T, U>(s: seq<T>, key: T -> SortKey, f: T -> U)
    requires DistinctBy(s, f)
    ensures DistinctBy(Sort(s, key), f)
  {
    if s != [] {
      var p, x := s[..|s| - 1], s[|s| - 1];
      SortKeepsDistinct(p, key, f);
      SortPermutes(p, key);
      var t := Sort(p, key);
      forall i | 0 <= i < |t| ensures f(t[i]) != f(x) {
        assert t[i] in multiset(p);
        var j :| 0 <= j < |p| && p[j] == t[i];
        assert s[j] == t[i];
      }
      InsertKeepsDistinct(x, t, key, f);
    }
  }

  /**
   * One pass of insertion sort: shifts the sorted prefix `s[..i]` right until the
   * element at `i` can be dropped into place.
   */
  method InsertInPlace<T>(s0: seq<T>, i: nat, key: T -> SortKey) returns (s: seq<T>)
    requires i < |s0|
    requires Sorted(s0[..i], key)
    ensures |s| == |s0|
    ensures s[..i + 1] == Insert(s0[i], s0[..i], key)
    ensures s[i + 1..] == s0[i + 1..]
  {
    ghost var sorted := s0[..i];
    s := s0;
    var x := s[i];
    var j := i;
    while j > 0 && KeyLess(key(x), key(s[j - 1]))
      invariant 0 <= j <= i
      invariant |s| == |s0|
      invariant s[..j] == sorted[..j]
      invariant s[j + 1..i + 1] == sorted[j..]
      invariant s[i + 1..] == s0[i + 1..]
      invariant forall k :: j <= k < i ==> KeyLess(key(x), key(sorted[k]))
    {
      s := s[j := s[j - 1]];
      j := j - 1;
    }
    forall k | 0 <= k < j ensures !KeyLess(key(x), key(sorted[k])) {
      assert KeyLe(key(sorted[k]), key(sorted[j - 1])) || k == j - 1;
    }
    InsertAt(x, sorted, key, j);
    s := s[j := x];
    assert s[..i + 1] == sorted[..j] + [x] + sorted[j..];
  }

  /** The in-place stable insertion sort of a list; the list is reassigned, element by element. */
  method SortInPlace<T>(a: seq<T>, key: T -> SortKey) returns (s: seq<T>)
    ensures s == Sort(a, key)
  {
    s := a;
    var i := 0;
    while i < |s|
      invariant 0 <= i <= |s| == |a|
      invariant s[..i] == Sort(a[..i], key)
      invariant s[i..] == a[i..]
    {
      SortSorted(a[..i], key);
      assert a[..i + 1][..i] == a[..i];
      s := InsertInPlace(s, i, key);
      i := i + 1;
    }
    assert a[..|a|] == a;
  }
}
