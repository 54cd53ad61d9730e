// The stable sort the dashboard relies on. `Array.prototype.sort` is stable,
// and every sort in the dashboard is by an integer-valued key: a balance
// entry's date, a chart point's date, or the negated interest rate for the
// descending avalanche order. `SortBy` is a stable insertion sort by key;
// `SortByUnique` shows that any sorted, stable rearrangement equals it, so it
// stands for the library sort whatever algorithm that uses.

module Sorting {

  /** Keys never decrease along `s`. */
  predicate SortedBy<T>(s: seq<T>, key: T -> int)
  {
    forall i, j :: 0 <= i < j < |s| ==> key(s[i]) <= key(s[j])
  }

  /** Keys strictly increase along `s`. */
  predicate StrictlySortedBy<T>(s: seq<T>, key: T -> int)
  {
    forall i, j :: 0 <= i < j < |s| ==> key(s[i]) < key(s[j])
  }

  /** The elements of `s` whose key is `k`, in their order in `s`. */
  function WithKey<T>(s: seq<T>, key: T -> int, k: int): seq<T>
  {
    if s == [] then []
    else WithKey(s[..|s| - 1], key, k) + (if key(s[|s| - 1]) == k then [s[|s| - 1]] else [])
  }

  /** `r` keeps, for every key, the relative order that elements with that key had in `s`. */
  ghost predicate Stable<T>(s: seq<T>, r: seq<T>, key: T -> int)
  {
    forall k :: WithKey(r, key, k) == WithKey(s, key, k)
  }

  /**
   * Inserts `x` into `s` just after the last element, counted from the end of
   * the sequence, whose key is at most `key(x)`: where a stable sort puts an
   * element appended after a sorted prefix.
   */
  function InsertLast<T>(s: seq<T>, x: T, key: T -> int): (r: seq<T>)
    ensures |r| == |s| + 1
    ensures multiset(r) == multiset(s) + multiset{x}
    decreases |s|
  {
    if s == [] || key(s[|s| - 1]) <= key(x) then s + [x]
    else
      assert s == s[..|s| - 1] + [s[|s| - 1]];
      InsertLast(s[..|s| - 1], x, key) + [s[|s| - 1]]
  }

  /** Stable sort of `s`, ascending by `key`. */
  function SortBy<T>(s: seq<T>, key: T -> int): (r: seq<T>)
    ensures |r| == |s|
    ensures multiset(r) == multiset(s)
  {
    if s == [] then []
    else
      assert s == s[..|s| - 1] + [s[|s| - 1]];
      InsertLast(SortBy(s[..|s| - 1], key), s[|s| - 1], key)
  }

  lemma {:induction false} InsertLastSorted<T>(s: seq<T>, x: T, key: T -> int)
    requires SortedBy(s, key)
    ensures SortedBy(InsertLast(s, x, key), key)
    decreases |s|
  {
    if s == [] || key(s[|s| - 1]) <= key(x) {
    } else {
      var s', last := s[..|s| - 1], s[|s| - 1];
      InsertLastSorted(s', x, key);
      var r' := InsertLast(s', x, key);
      forall i | 0 <= i < |r'|
        ensures key(r'[i]) <= key(last)
      {
        assert r'[i] in multiset(r');
        assert r'[i] in multiset(s') || r'[i] == x;
      }
    }
  }

  lemma {:induction false} InsertLastStrict<T>(s: seq<T>, x: T, key: T -> int)
    requires StrictlySortedBy(s, key)
    requires forall i :: 0 <= i < |s| ==> key(s[i]) != key(x)
    ensures StrictlySortedBy(InsertLast(s, x, key), key)
    decreases |s|
  {
    if s == [] || key(s[|s| - 1]) <= key(x) {
    } else {
      var s', last := s[..|s| - 1], s[|s| - 1];
      InsertLastStrict(s', x, key);
      var r' := InsertLast(s', x, key);
      forall i | 0 <= i < |r'|
        ensures key(r'[i]) < key(last)
      {
        assert r'[i] in multiset(r');
        assert r'[i] in multiset(s') || r'[i] == x;
      }
    }
  }

  lemma {:induction false} InsertLastWithKey<T>(s: seq<T>, x: T, key: T -> int, k: int)
    ensures WithKey(InsertLast(s, x, key), key, k)
         == WithKey(s, key, k) + (if key(x) == k then [x] else [])
    decreases |s|
  {
    if s == [] || key(s[|s| - 1]) <= key(x) {
      assert (s + [x])[..|s|] == s;
    } else {
      var s', last := s[..|s| - 1], s[|s| - 1];
      InsertLastWithKey(s', x, key, k);
      var r := InsertLast(s, x, key);
      assert r[..|r| - 1] == InsertLast(s', x, key);
    }
  }

  /** `SortBy` orders by key. */
  lemma {:induction false} SortBySorted<T>(s: seq<T>, key: T -> int)
    ensures SortedBy(SortBy(s, key), key)
  {
    if s != [] {
      SortBySorted(s[..|s| - 1], key);
      InsertLastSorted(SortBy(s[..|s| - 1], key), s[|s| - 1], key);
    }
  }

  /** `SortBy` keeps elements with equal keys in their original order. */
  lemma {:induction false} SortByStable<T>(s: seq<T>, key: T -> int)
    ensures Stable(s, SortBy(s, key), key)
  {
    forall k
      ensures WithKey(SortBy(s, key), key, k) == WithKey(s, key, k)
    {
      SortByStableAt(s, key, k);
    }
  }

  lemma {:induction false} SortByStableAt<T>(s: seq<T>, key: T -> int, k: int)
    ensures WithKey(SortBy(s, key), key, k) == WithKey(s, key, k)
  {
    if s != [] {
      SortByStableAt(s[..|s| - 1], key, k);
      InsertLastWithKey(SortBy(s[..|s| - 1], key), s[|s| - 1], key, k);
    }
  }

  /** When no two keys of `s` are equal, `SortBy` orders them strictly. */
  lemma {:induction false} SortByDistinctKeys<T>(s: seq<T>, key: T -> int)
    requires forall i, j :: 0 <= i < j < |s| ==> key(s[i]) != key(s[j])
    ensures StrictlySortedBy(SortBy(s, key), key)
  {
    if s != [] {
      var s', x := s[..|s| - 1], s[|s| - 1];
      SortByDistinctKeys(s', key);
      var t := SortBy(s', key);
      forall i | 0 <= i < |t|
        ensures key(t[i]) != key(x)
      {
        assert t[i] in multiset(t);
        var j :| 0 <= j < |s'| && s'[j] == t[i];
      }
      InsertLastStrict(t, x, key);
    }
  }

  lemma {:induction false} WithKeyMembers<T>(s: seq<T>, key: T -> int, k: int, y: T)
    ensures y in WithKey(s, key, k) <==> y in s && key(y) == k
  {
    if s != [] {
      WithKeyMembers(s[..|s| - 1], key, k, y);
      assert s == s[..|s| - 1] + [s[|s| - 1]];
    }
  }

  /** Sorted and stable determine the result: any stable sort of `s` is `SortBy(s)`. */
  lemma {:induction false} SortByUnique<T>(s: seq<T>, r: seq<T>, key: T -> int)
    requires SortedBy(r, key) && Stable(s, r, key)
    ensures r == SortBy(s, key)
  {
    SortBySorted(s, key);
    SortByStable(s, key);
    SortedStableEqual(r, SortBy(s, key), key);
  }

  lemma {:induction false} SortedStableEqual<T>(r1: seq<T>, r2: seq<T>, key: T -> int)
    requires SortedBy(r1, key) && SortedBy(r2, key)
    requires forall k :: WithKey(r1, key, k) == WithKey(r2, key, k)
    ensures r1 == r2
    decreases |r1|
  {
    if r1 == [] || r2 == [] {
      BothEmpty(r1, r2, key);
    } else {
      var n1, n2 := |r1| - 1, |r2| - 1;
      SameLast(r1, r2, key);
      forall k
        ensures WithKey(r1[..n1], key, k) == WithKey(r2[..n2], key, k)
      {
        WithKeyDropLast(r1, key, k);
        WithKeyDropLast(r2, key, k);
      }
      SortedStableEqual(r1[..n1], r2[..n2], key);
      assert r1 == r1[..n1] + [r1[n1]];
      assert r2 == r2[..n2] + [r2[n2]];
    }
  }

  lemma BothEmpty<T>(r1: seq<T>, r2: seq<T>, key: T -> int)
    requires r1 == [] || r2 == []
    requires forall k :: WithKey(r1, key, k) == WithKey(r2, key, k)
    ensures r1 == [] && r2 == []
  {
    if r1 != [] {
      WithKeyMembers(r1, key, key(r1[0]), r1[0]);
    } else if r2 != [] {
      WithKeyMembers(r2, key, key(r2[0]), r2[0]);
    }
  }

  lemma SameLast<T>(r1: seq<T>, r2: seq<T>, key: T -> int)
    requires r1 != [] && r2 != []
    requires SortedBy(r1, key) && SortedBy(r2, key)
    requires forall k :: WithKey(r1, key, k) == WithKey(r2, key, k)
    ensures r1[|r1| - 1] == r2[|r2| - 1]
  {
    var x1, x2 := r1[|r1| - 1], r2[|r2| - 1];
    var m1, m2 := key(x1), key(x2);
    assert WithKey(r1, key, m1) == WithKey(r2, key, m1);
    assert WithKey(r1, key, m2) == WithKey(r2, key, m2);
    WithKeyMembers(r2, key, m2, x2);
    WithKeyMembers(r1, key, m2, x2);
    WithKeyMembers(r1, key, m1, x1);
    WithKeyMembers(r2, key, m1, x1);
    AtMostLastKey(r1, x2, key);
    AtMostLastKey(r2, x1, key);
    WithKeyLast(r1, key);
    WithKeyLast(r2, key);
  }

  lemma AtMostLastKey<T>(r: seq<T>, y: T, key: T -> int)
    requires SortedBy(r, key) && y in r
    ensures key(y) <= key(r[|r| - 1])
  {
  }

  lemma WithKeyLast<T>(r: seq<T>, key: T -> int)
    requires r != []
    ensures var w := WithKey(r, key, key(r[|r| - 1])); w != [] && w[|w| - 1] == r[|r| - 1]
  {
  }

  lemma WithKeyDropLast<T>(r: seq<T>, key: T -> int, k: int)
    requires r != []
    ensures var w := WithKey(r, key, k);
      if key(r[|r| - 1]) == k
      then w != [] && WithKey(r[..|r| - 1], key, k) == w[..|w| - 1]
      else WithKey(r[..|r| - 1], key, k) == w
  {
  }

  /** Sorting an already sorted sequence changes nothing. */
  lemma {:induction false} SortBySortedIdentity<T>(s: seq<T>, key: T -> int)
    requires SortedBy(s, key)
    ensures SortBy(s, key) == s
  {
    SortByUnique(s, s, key);
  }

  /** Appending an element whose key is at least every key, then sorting, puts it last. */
  lemma {:induction false} SortAppendLatest<T>(s: seq<T>, x: T, key: T -> int)
    requires forall i :: 0 <= i < |s| ==> key(s[i]) <= key(x)
    ensures SortBy(s + [x], key) == SortBy(s, key) + [x]
  {
    assert (s + [x])[..|s|] == s;
    var t := SortBy(s, key);
    if t != [] {
      assert t[|t| - 1] in multiset(s);
    }
  }

  /**
   * Appending to a sorted sequence an element whose key is below the last
   * key, then sorting, leaves the last element where it was.
   */
  lemma {:induction false} SortAppendEarlier<T>(s: seq<T>, x: T, key: T -> int)
    requires SortedBy(s, key) && s != []
    requires key(x) < key(s[|s| - 1])
    ensures SortBy(s + [x], key)[|s|] == s[|s| - 1]
  {
    assert (s + [x])[..|s|] == s;
    SortBySortedIdentity(s, key);
  }
}
