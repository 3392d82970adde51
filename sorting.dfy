/**
 * Python's `list.sort(key=..., reverse=True)`: a stable sort in descending key
 * order. Elements with equal keys keep their original relative order. An ascending
 * sort by `k` is the descending sort by `-k` (Python keeps equal keys in original
 * order in both directions).
 */
module Sorting {

  ghost predicate SortedDesc<T>(s: seq<T>, key: T -> real) {
    forall i, j :: 0 <= i < j < |s| ==> key(s[i]) >= key(s[j])
  }

  /** The elements of `s` whose key is `k`, in their order in `s`. */
  function WithKey<T>(s: seq<T>, key: T -> real, k: real): seq<T> {
    if s == [] then []
    else (if key(s[0]) == k then [s[0]] else []) + WithKey(s[1..], key, k)
  }

  /** Places `x` after every element whose key is at least `key(x)`. */
  function Insert<T>(sorted: seq<T>, x: T, key: T -> real): seq<T> {
    if sorted == [] then [x]
    else if key(sorted[0]) >= key(x) then [sorted[0]] + Insert(sorted[1..], x, key)
    else [x] + sorted
  }

  /** Stable insertion sort in descending key order. */
  function SortDesc<T>(s: seq<T>, key: T -> real): seq<T> {
    if s == [] then [] else Insert(SortDesc(s[..|s| - 1], key), s[|s| - 1], key)
  }

  lemma SortedTail<T>(t: seq<T>, key: T -> real)
    requires t != [] && SortedDesc(t, key)
    ensures SortedDesc(t[1..], key)
    ensures forall i :: 0 <= i < |t| ==> key(t[0]) >= key(t[i])
  {
  }

  lemma {:induction false} InsertElements<T>(t: seq<T>, x: T, key: T -> real)
    ensures |Insert(t, x, key)| == |t| + 1
    ensures forall y :: y in Insert(t, x, key) ==> y in t || y == x
    ensures forall y :: y in t ==> y in Insert(t, x, key)
    ensures x in Insert(t, x, key)
  {
    if t != [] && key(t[0]) >= key(x) {
      InsertElements(t[1..], x, key);
      assert t == [t[0]] + t[1..];
    }
  }

  lemma {:induction false} InsertMultiset<T>(t: seq<T>, x: T, key: T -> real)
    ensures multiset(Insert(t, x, key)) == multiset(t) + multiset{x}
  {
    if t != [] && key(t[0]) >= key(x) {
      InsertMultiset(t[1..], x, key);
      assert t == [t[0]] + t[1..];
    }
  }

  lemma {:induction false} InsertSorted<T>(t: seq<T>, x: T, key: T -> real)
    requires SortedDesc(t, key)
    ensures SortedDesc(Insert(t, x, key), key)
  {
    if t == [] {
    } else if key(t[0]) >= key(x) {
      var t1 := t[1..];
      SortedTail(t, key);
      InsertSorted(t1, x, key);
      InsertElements(t1, x, key);
      var r := Insert(t1, x, key);
      forall i | 0 <= i < |r| ensures key(t[0]) >= key(r[i]) {
        var y := r[i];
        assert y in r;
        if y != x {
          assert y in t1;
          var j :| 0 <= j < |t1| && t1[j] == y;
          assert t[j + 1] == y;
        }
      }
      assert Insert(t, x, key) == [t[0]] + r;
    } else {
      SortedTail(t, key);
    }
  }

  lemma {:induction false} SortDescCorrect<T>(s: seq<T>, key: T -> real)
    ensures SortedDesc(SortDesc(s, key), key)
    ensures multiset(SortDesc(s, key)) == multiset(s)
    ensures |SortDesc(s, key)| == |s|
  {
    if s != [] {
      SortDescCorrect(s[..|s| - 1], key);
      InsertSorted(SortDesc(s[..|s| - 1], key), s[|s| - 1], key);
      InsertElements(SortDesc(s[..|s| - 1], key), s[|s| - 1], key);
      InsertMultiset(SortDesc(s[..|s| - 1], key), s[|s| - 1], key);
      assert s == s[..|s| - 1] + [s[|s| - 1]];
    }
  }

  lemma {:induction false} WithKeyConcat<T>(a: seq<T>, b: seq<T>, key: T -> real, k: real)
    ensures WithKey(a + b, key, k) == WithKey(a, key, k) + WithKey(b, key, k)
  {
    if a == [] {
      assert a + b == b;
    } else {
      WithKeyConcat(a[1..], b, key, k);
      assert (a + b)[0] == a[0];
      assert (a + b)[1..] == a[1..] + b;
      var h := if key(a[0]) == k then [a[0]] else [];
      assert WithKey(a + b, key, k) == h + WithKey(a[1..] + b, key, k);
      assert WithKey(a, key, k) == h + WithKey(a[1..], key, k);
    }
  }

  lemma {:induction false} WithKeyNone<T>(s: seq<T>, key: T -> real, k: real)
    requires forall i :: 0 <= i < |s| ==> key(s[i]) < k
    ensures WithKey(s, key, k) == []
  {
    if s != [] {
      WithKeyNone(s[1..], key, k);
    }
  }

  lemma {:induction false} WithKeyInsert<T>(t: seq<T>, x: T, key: T -> real, k: real)
    requires SortedDesc(t, key)
    ensures WithKey(Insert(t, x, key), key, k) == WithKey(t, key, k) + (if key(x) == k then [x] else [])
  {
    if t == [] {
    } else if key(t[0]) >= key(x) {
      SortedTail(t, key);
      WithKeyInsert(t[1..], x, key, k);
      var r := Insert(t[1..], x, key);
      var h := if key(t[0]) == k then [t[0]] else [];
      assert Insert(t, x, key) == [t[0]] + r;
      assert ([t[0]] + r)[1..] == r;
      assert WithKey([t[0]] + r, key, k) == h + WithKey(r, key, k);
      assert WithKey(t, key, k) == h + WithKey(t[1..], key, k);
    } else {
      SortedTail(t, key);
      if key(x) == k {
        WithKeyNone(t, key, k);
      }
      WithKeyConcat([x], t, key, k);
    }
  }

  /** Stability: for every key, the elements carrying it keep their input order. */
  lemma {:induction false} SortDescStable<T>(s: seq<T>, key: T -> real, k: real)
    ensures WithKey(SortDesc(s, key), key, k) == WithKey(s, key, k)
  {
    if s != [] {
      var init, x := s[..|s| - 1], s[|s| - 1];
      SortDescStable(init, key, k);
      SortDescCorrect(init, key);
      WithKeyInsert(SortDesc(init, key), x, key, k);
      assert s == init + [x];
      WithKeyConcat(init, [x], key, k);
    }
  }

  lemma {:induction false} WithKeyAll<T>(s: seq<T>, key: T -> real, k: real)
    requires forall i :: 0 <= i < |s| ==> key(s[i]) == k
    ensures WithKey(s, key, k) == s
  {
    if s != [] {
      WithKeyAll(s[1..], key, k);
    }
  }

  /** When every key is the same, sorting leaves the list as it was. */
  lemma {:induction false} SortDescConstantKey<T>(s: seq<T>, key: T -> real, k: real)
    requires forall i :: 0 <= i < |s| ==> key(s[i]) == k
    ensures SortDesc(s, key) == s
  {
    SortDescCorrect(s, key);
    var r := SortDesc(s, key);
    forall i | 0 <= i < |r| ensures key(r[i]) == k {
      assert r[i] in multiset(r);
      assert r[i] in multiset(s);
    }
    WithKeyAll(s, key, k);
    WithKeyAll(r, key, k);
    SortDescStable(s, key, k);
  }
}
