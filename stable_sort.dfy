/** list.sort with a key function: a stable sort of a sequence of T by a
    key of type K under a strict total order on K. The model sort is an
    insertion sort; any sequence that is sorted by the key and keeps the
    records of each key in their input order is that sort's result. */
module StableSort {

  /** less is irreflexive, transitive and total on K: the order of the
      tuple keys the encoders sort by. */
  ghost predicate StrictTotalOrder<K(!new)>(less: (K, K) -> bool) {
    && (forall a :: !less(a, a))
    && (forall a, b, c :: less(a, b) && less(b, c) ==> less(a, c))
    && (forall a, b :: a == b || less(a, b) || less(b, a))
  }

  /** No later element has a key strictly below an earlier one's. */
  ghost predicate Sorted<T, K>(s: seq<T>, key: T -> K, less: (K, K) -> bool) {
    forall i, j :: 0 <= i < j < |s| ==> !less(key(s[j]), key(s[i]))
  }

  /** Inserts x after every element whose key is not greater than x's. */
  function Insert<T, K>(x: T, s: seq<T>, key: T -> K, less: (K, K) -> bool): (r: seq<T>)
    ensures |r| == |s| + 1
  {
    if |s| == 0 then [x]
    else if less(key(x), key(s[0])) then [x] + s
    else [s[0]] + Insert(x, s[1..], key, less)
  }

  /** The stable insertion sort: each element in turn is inserted into the
      sorted prefix before it. */
  function SortBy<T, K>(s: seq<T>, key: T -> K, less: (K, K) -> bool): (r: seq<T>)
    ensures |r| == |s|
  {
    if |s| == 0 then []
    else Insert(s[|s| - 1], SortBy(s[..|s| - 1], key, less), key, less)
  }

  /** The elements of s with key k, in the order of s. */
  ghost function WithKey<T, K>(s: seq<T>, key: T -> K, k: K): seq<T> {
    if |s| == 0 then []
    else WithKey(s[..|s| - 1], key, k) + (if key(s[|s| - 1]) == k then [s[|s| - 1]] else [])
  }

  /** Inserting adds x and nothing else. */
  lemma {:induction false} InsertPermutation<T, K>(x: T, s: seq<T>, key: T -> K, less: (K, K) -> bool)
    ensures multiset(Insert(x, s, key, less)) == multiset(s) + multiset{x}
  {
    if |s| > 0 && !less(key(x), key(s[0])) {
      InsertPermutation(x, s[1..], key, less);
      assert s == [s[0]] + s[1..];
    }
  }

  /** The sort keeps every element, as often as it occurs. */
  lemma {:induction false} SortPermutation<T, K>(s: seq<T>, key: T -> K, less: (K, K) -> bool)
    ensures multiset(SortBy(s, key, less)) == multiset(s)
  {
    if |s| > 0 {
      var s', x := s[..|s| - 1], s[|s| - 1];
      assert SortBy(s, key, less) == Insert(x, SortBy(s', key, less), key, less);
      SortPermutation(s', key, less);
      InsertPermutation(x, SortBy(s', key, less), key, less);
      assert s == s' + [x];
      assert multiset(s) == multiset(s') + multiset{x};
    }
  }

  /** Every element of Insert(x, s) is x or an element of s. */
  lemma InsertMember<T, K>(x: T, s: seq<T>, key: T -> K, less: (K, K) -> bool, y: T)
    requires y in Insert(x, s, key, less)
    ensures y == x || y in s
  {
    InsertPermutation(x, s, key, less);
    assert y in multiset(Insert(x, s, key, less));
  }

  lemma {:induction false} InsertSorted<T, K(!new)>(x: T, s: seq<T>, key: T -> K, less: (K, K) -> bool)
    requires StrictTotalOrder(less) && Sorted(s, key, less)
    ensures Sorted(Insert(x, s, key, less), key, less)
  {
    if |s| == 0 {
    } else if less(key(x), key(s[0])) {
      var r := [x] + s;
      forall i, j | 0 <= i < j < |r| ensures !less(key(r[j]), key(r[i])) {
        if i == 0 {
          assert r[j] == s[j - 1];
        } else {
          assert r[j] == s[j - 1] && r[i] == s[i - 1];
        }
      }
    } else {
      var t := Insert(x, s[1..], key, less);
      InsertSorted(x, s[1..], key, less);
      var r := [s[0]] + t;
      forall i, j | 0 <= i < j < |r| ensures !less(key(r[j]), key(r[i])) {
        if i == 0 {
          assert r[j] == t[j - 1];
          InsertMember(x, s[1..], key, less, r[j]);
          if r[j] != x {
            var m :| 0 <= m < |s[1..]| && s[1..][m] == r[j];
            assert s[m + 1] == r[j];
          }
        } else {
          assert r[j] == t[j - 1] && r[i] == t[i - 1];
        }
      }
    }
  }

  /** The sort leaves the elements in key order. */
  lemma {:induction false} SortSorted<T, K(!new)>(s: seq<T>, key: T -> K, less: (K, K) -> bool)
    requires StrictTotalOrder(less)
    ensures Sorted(SortBy(s, key, less), key, less)
  {
    if |s| > 0 {
      SortSorted(s[..|s| - 1], key, less);
      InsertSorted(s[|s| - 1], SortBy(s[..|s| - 1], key, less), key, less);
    }
  }

  lemma {:induction false} WithKeyConcat<T, K>(a: seq<T>, b: seq<T>, key: T -> K, k: K)
    ensures WithKey(a + b, key, k) == WithKey(a, key, k) + WithKey(b, key, k)
    decreases |b|
  {
    if |b| == 0 {
      assert a + b == a;
    } else {
      assert (a + b)[..|a + b| - 1] == a + b[..|b| - 1];
      WithKeyConcat(a, b[..|b| - 1], key, k);
    }
  }

  lemma WithKeySingle<T, K>(x: T, key: T -> K, k: K)
    ensures WithKey([x], key, k) == if key(x) == k then [x] else []
  {
    assert [x][..0] == [];
  }

  lemma {:induction false} WithKeyNone<T, K>(s: seq<T>, key: T -> K, k: K)
    requires forall i :: 0 <= i < |s| ==> key(s[i]) != k
    ensures WithKey(s, key, k) == []
  {
    if |s| > 0 { WithKeyNone(s[..|s| - 1], key, k); }
  }

  /** Every element of WithKey(s, key, k) is an element of s with key k. */
  lemma {:induction false} WithKeyMembers<T, K>(s: seq<T>, key: T -> K, k: K)
    ensures forall x :: x in WithKey(s, key, k) ==> x in s && key(x) == k
  {
    if |s| > 0 {
      var s' := s[..|s| - 1];
      WithKeyMembers(s', key, k);
      assert forall x :: x in s' ==> x in s;
    }
  }

  /** An element of s with key k makes WithKey(s, key, k) non-empty. */
  lemma {:induction false} WithKeyNonEmpty<T, K>(s: seq<T>, key: T -> K, i: nat)
    requires i < |s|
    ensures WithKey(s, key, key(s[i])) != []
  {
    if i < |s| - 1 {
      WithKeyNonEmpty(s[..|s| - 1], key, i);
    }
  }

  /** With s sorted, inserting x appends x to the elements of its key and
      leaves those of every other key alone. */
  lemma {:induction false} InsertWithKey<T, K(!new)>(x: T, s: seq<T>, key: T -> K, less: (K, K) -> bool, k: K)
    requires StrictTotalOrder(less) && Sorted(s, key, less)
    ensures WithKey(Insert(x, s, key, less), key, k) == WithKey(s, key, k) + (if key(x) == k then [x] else [])
  {
    WithKeySingle(x, key, k);
    if |s| == 0 {
    } else if less(key(x), key(s[0])) {
      WithKeyConcat([x], s, key, k);
      if key(x) == k {
        SortedAboveNone(x, s, key, less);
      }
    } else {
      var t := s[1..];
      assert Insert(x, s, key, less) == [s[0]] + Insert(x, t, key, less);
      assert s == [s[0]] + t;
      InsertWithKey(x, t, key, less, k);
      WithKeyConsBoth(s[0], Insert(x, t, key, less), t, key, k, if key(x) == k then [x] else []);
    }
  }

  /** Putting the same element in front of u and v keeps WithKey(u) equal
      to WithKey(v) followed by xs. */
  lemma WithKeyConsBoth<T, K>(y: T, u: seq<T>, v: seq<T>, key: T -> K, k: K, xs: seq<T>)
    requires WithKey(u, key, k) == WithKey(v, key, k) + xs
    ensures WithKey([y] + u, key, k) == WithKey([y] + v, key, k) + xs
  {
    WithKeyCons(y, u, key, k);
    WithKeyCons(y, v, key, k);
    ConcatAssoc(if key(y) == k then [y] else [], WithKey(v, key, k), xs);
  }

  lemma ConcatAssoc<T>(a: seq<T>, b: seq<T>, c: seq<T>)
    ensures a + (b + c) == (a + b) + c
  {
  }

  /** No element of a sorted s has the key of an x that goes before s[0]. */
  lemma SortedAboveNone<T, K(!new)>(x: T, s: seq<T>, key: T -> K, less: (K, K) -> bool)
    requires StrictTotalOrder(less) && Sorted(s, key, less)
    requires |s| > 0 && less(key(x), key(s[0]))
    ensures WithKey(s, key, key(x)) == []
  {
    forall i | 0 <= i < |s| ensures key(s[i]) != key(x) {
      assert i == 0 || !less(key(s[i]), key(s[0]));
    }
    WithKeyNone(s, key, key(x));
  }

  lemma WithKeyCons<T, K>(y: T, s: seq<T>, key: T -> K, k: K)
    ensures WithKey([y] + s, key, k) == (if key(y) == k then [y] else []) + WithKey(s, key, k)
  {
    WithKeyConcat([y], s, key, k);
    WithKeySingle(y, key, k);
  }

  /** The sort is stable: the elements of each key keep their order. */
  lemma {:induction false} SortStable<T, K(!new)>(s: seq<T>, key: T -> K, less: (K, K) -> bool, k: K)
    requires StrictTotalOrder(less)
    ensures WithKey(SortBy(s, key, less), key, k) == WithKey(s, key, k)
  {
    if |s| > 0 {
      var s' := s[..|s| - 1];
      SortStable(s', key, less, k);
      SortSorted(s', key, less);
      InsertWithKey(s[|s| - 1], SortBy(s', key, less), key, less, k);
    }
  }

  /** WithKey of s with its last element dropped. */
  lemma WithKeyDropLast<T, K>(s: seq<T>, key: T -> K, k: K)
    requires |s| > 0
    ensures WithKey(s, key, k) == WithKey(s[..|s| - 1], key, k) + (if key(s[|s| - 1]) == k then [s[|s| - 1]] else [])
  {
  }

  /** Of two sorted sequences with the same elements under every key, the
      last elements are the same. */
  lemma SortedSameLast<T, K(!new)>(t: seq<T>, u: seq<T>, key: T -> K, less: (K, K) -> bool)
    requires StrictTotalOrder(less) && Sorted(t, key, less) && Sorted(u, key, less)
    requires forall k :: WithKey(t, key, k) == WithKey(u, key, k)
    requires |t| > 0 && |u| > 0
    ensures t[|t| - 1] == u[|u| - 1]
  {
    var a, b := t[|t| - 1], u[|u| - 1];
    assert key(a) == key(b) by {
      assert a in WithKey(u, key, key(a)) by {
        WithKeyDropLast(t, key, key(a));
        assert WithKey(u, key, key(a)) == WithKey(t, key, key(a));
      }
      WithKeyMembers(u, key, key(a));
      assert b in WithKey(t, key, key(b)) by {
        WithKeyDropLast(u, key, key(b));
        assert WithKey(t, key, key(b)) == WithKey(u, key, key(b));
      }
      WithKeyMembers(t, key, key(b));
      var i :| 0 <= i < |u| && u[i] == a;
      var j :| 0 <= j < |t| && t[j] == b;
      assert i == |u| - 1 || !less(key(u[|u| - 1]), key(u[i]));
      assert j == |t| - 1 || !less(key(t[|t| - 1]), key(t[j]));
    }
    var w := WithKey(t, key, key(a));
    WithKeyDropLast(t, key, key(a));
    WithKeyDropLast(u, key, key(a));
    assert w == WithKey(u[..|u| - 1], key, key(a)) + [b];
    assert w[|w| - 1] == a && w[|w| - 1] == b;
  }

  /** Dropping the same last element keeps the per-key sequences equal. */
  lemma WithKeyCancelLast<T, K>(t: seq<T>, u: seq<T>, key: T -> K, k: K)
    requires |t| > 0 && |u| > 0 && t[|t| - 1] == u[|u| - 1]
    requires WithKey(t, key, k) == WithKey(u, key, k)
    ensures WithKey(t[..|t| - 1], key, k) == WithKey(u[..|u| - 1], key, k)
  {
    var x := if key(t[|t| - 1]) == k then [t[|t| - 1]] else [];
    var wt := WithKey(t, key, k);
    assert wt == WithKey(t[..|t| - 1], key, k) + x;
    assert wt == WithKey(u[..|u| - 1], key, k) + x;
    assert WithKey(t[..|t| - 1], key, k) == wt[..|wt| - |x|];
    assert WithKey(u[..|u| - 1], key, k) == wt[..|wt| - |x|];
  }

  /** Two sorted sequences with the same elements under every key are equal. */
  lemma {:induction false} SortedUnique<T, K(!new)>(t: seq<T>, u: seq<T>, key: T -> K, less: (K, K) -> bool)
    requires StrictTotalOrder(less) && Sorted(t, key, less) && Sorted(u, key, less)
    requires forall k :: WithKey(t, key, k) == WithKey(u, key, k)
    ensures t == u
    decreases |t| + |u|
  {
    if |t| == 0 && |u| > 0 {
      WithKeyNonEmpty(u, key, 0);
      assert false;
    } else if |u| == 0 && |t| > 0 {
      WithKeyNonEmpty(t, key, 0);
      assert false;
    } else if |t| > 0 {
      SortedSameLast(t, u, key, less);
      var t', u' := t[..|t| - 1], u[..|u| - 1];
      forall k ensures WithKey(t', key, k) == WithKey(u', key, k) {
        WithKeyCancelLast(t, u, key, k);
      }
      SortedUnique(t', u', key, less);
      assert t == t[..|t| - 1] + [t[|t| - 1]] && u == u[..|u| - 1] + [u[|u| - 1]];
    }
  }

  /** Whatever is sorted by the key and keeps each key's elements in their
      input order is SortBy's result: any stable sort agrees with it. */
  lemma StableSortIsSortBy<T, K(!new)>(s: seq<T>, t: seq<T>, key: T -> K, less: (K, K) -> bool)
    requires StrictTotalOrder(less) && Sorted(t, key, less)
    requires forall k :: WithKey(t, key, k) == WithKey(s, key, k)
    ensures t == SortBy(s, key, less)
  {
    SortSorted(s, key, less);
    forall k ensures WithKey(t, key, k) == WithKey(SortBy(s, key, less), key, k) {
      SortStable(s, key, less, k);
    }
    SortedUnique(t, SortBy(s, key, less), key, less);
  }

  /** Where x goes when s is sorted: after the first j elements. */
  lemma {:induction false} InsertAt<T, K(!new)>(x: T, s: seq<T>, key: T -> K, less: (K, K) -> bool, j: nat)
    requires StrictTotalOrder(less) && Sorted(s, key, less) && j <= |s|
    requires j > 0 ==> !less(key(x), key(s[j - 1]))
    requires forall k :: j <= k < |s| ==> less(key(x), key(s[k]))
    ensures Insert(x, s, key, less) == s[..j] + [x] + s[j..]
  {
    if j == 0 {
      assert s[..0] + [x] + s[0..] == [x] + s;
    } else {
      assert !less(key(x), key(s[0])) by {
        if j - 1 > 0 {
          assert !less(key(s[j - 1]), key(s[0]));
        }
      }
      InsertAt(x, s[1..], key, less, j - 1);
      assert s[1..][..j - 1] == s[1..j] && s[1..][j - 1..] == s[j..];
      assert s[..j] == [s[0]] + s[1..j];
    }
  }

  /** A sequence holding s[..j], then x, then s[j..] is Insert(x, s) when j
      is where x belongs. */
  lemma InsertPlaced<T, K(!new)>(x: T, s: seq<T>, key: T -> K, less: (K, K) -> bool, j: nat, b: seq<T>)
    requires StrictTotalOrder(less) && Sorted(s, key, less) && j <= |s| && |b| == |s| + 1
    requires j > 0 ==> !less(key(x), key(s[j - 1]))
    requires forall k :: j <= k < |s| ==> less(key(x), key(s[k]))
    requires forall k :: 0 <= k < j ==> b[k] == s[k]
    requires b[j] == x
    requires forall k :: j < k <= |s| ==> b[k] == s[k - 1]
    ensures b == Insert(x, s, key, less)
  {
    InsertAt(x, s, key, less, j);
    var r := s[..j] + [x] + s[j..];
    forall k | 0 <= k < |b| ensures b[k] == r[k] {
      if k < j {
        assert r[k] == s[k];
      } else if j < k {
        assert r[k] == s[k - 1];
      }
    }
  }

  /** Sorting one more element inserts it into the sorted prefix. */
  lemma SortSnoc<T, K>(s: seq<T>, key: T -> K, less: (K, K) -> bool, i: nat)
    requires i < |s|
    ensures SortBy(s[..i + 1], key, less) == Insert(s[i], SortBy(s[..i], key, less), key, less)
  {
    assert s[..i + 1][..i] == s[..i];
  }
}
