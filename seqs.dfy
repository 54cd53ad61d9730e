// Generic sequence helpers standing for the JavaScript array methods the
// dashboard uses: `filter` and a `reduce` that sums a numeric field.

module Seqs {

  /** The elements of `s` that satisfy `p`, in their original order. */
  function Filter<T>(s: seq<T>, p: T -> bool): (r: seq<T>)
    ensures |r| <= |s|
    ensures forall i :: 0 <= i < |r| ==> p(r[i])
  {
    if s == [] then []
    else Filter(s[..|s| - 1], p) + (if p(s[|s| - 1]) then [s[|s| - 1]] else [])
  }

  lemma FilterLast<T>(s: seq<T>, x: T, p: T -> bool)
    ensures Filter(s + [x], p) == Filter(s, p) + (if p(x) then [x] else [])
  {
    assert (s + [x])[..|s|] == s;
  }

  /** `Filter` keeps exactly the elements that satisfy `p`. */
  lemma {:induction false} FilterMembers<T>(s: seq<T>, p: T -> bool, x: T)
    ensures x in Filter(s, p) <==> x in s && p(x)
  {
    if s != [] {
      FilterMembers(s[..|s| - 1], p, x);
      assert s == s[..|s| - 1] + [s[|s| - 1]];
    }
  }

  /** A filter that every element passes keeps the whole sequence. */
  lemma {:induction false} FilterAll<T>(s: seq<T>, p: T -> bool)
    requires forall i :: 0 <= i < |s| ==> p(s[i])
    ensures Filter(s, p) == s
  {
    if s != [] {
      FilterAll(s[..|s| - 1], p);
    }
  }

  /** A filter that no element passes keeps nothing. */
  lemma {:induction false} FilterNone<T>(s: seq<T>, p: T -> bool)
    requires forall i :: 0 <= i < |s| ==> !p(s[i])
    ensures Filter(s, p) == []
  {
    if s != [] {
      FilterNone(s[..|s| - 1], p);
    }
  }

  lemma {:induction false} FilterConcat<T>(s: seq<T>, t: seq<T>, p: T -> bool)
    ensures Filter(s + t, p) == Filter(s, p) + Filter(t, p)
    decreases |t|
  {
    if t == [] {
      assert s + t == s;
    } else {
      var t' := t[..|t| - 1];
      assert (s + t)[..|s + t| - 1] == s + t';
      FilterConcat(s, t', p);
    }
  }

  /** Filtering out the one failing element between two passing stretches closes the gap. */
  lemma FilterSplice<T>(pre: seq<T>, x: T, post: seq<T>, p: T -> bool)
    requires Filter(pre, p) == pre && Filter(post, p) == post && !p(x)
    ensures Filter(pre + [x] + post, p) == pre + post
  {
    FilterConcat(pre + [x], post, p);
    FilterLast(pre, x, p);
  }

  /** Left-to-right sum of `f` over `s` (a `reduce` starting from 0). */
  function SumBy<T>(s: seq<T>, f: T -> real): real
  {
    if s == [] then 0.0 else SumBy(s[..|s| - 1], f) + f(s[|s| - 1])
  }

  lemma {:induction false} SumConcat<T>(s: seq<T>, t: seq<T>, f: T -> real)
    ensures SumBy(s + t, f) == SumBy(s, f) + SumBy(t, f)
    decreases |t|
  {
    if t == [] {
      assert s + t == s;
    } else {
      var t' := t[..|t| - 1];
      assert (s + t)[..|s + t| - 1] == s + t';
      SumConcat(s, t', f);
    }
  }

  /** A sum does not depend on the order of its terms. */
  lemma {:induction false} SumPermutation<T>(s: seq<T>, t: seq<T>, f: T -> real)
    requires multiset(s) == multiset(t)
    ensures SumBy(s, f) == SumBy(t, f)
    decreases |s|
  {
    if s == [] {
      assert |multiset(t)| == 0;
    } else {
      var x := s[|s| - 1];
      var s' := s[..|s| - 1];
      assert s == s' + [x];
      assert x in multiset(t);
      var i :| 0 <= i < |t| && t[i] == x;
      var t' := t[..i] + t[i + 1..];
      assert t == t[..i] + [x] + t[i + 1..];
      calc {
        multiset(t);
        multiset(t[..i]) + multiset{x} + multiset(t[i + 1..]);
        multiset(t') + multiset{x};
      }
      assert multiset(s) == multiset(s') + multiset{x};
      assert multiset(t') == multiset(t) - multiset{x};
      assert multiset(s') == multiset(s) - multiset{x};
      SumPermutation(s', t', f);
      SumConcat(t[..i] + [x], t[i + 1..], f);
      SumConcat(t[..i], [x], f);
      SumConcat(t[..i], t[i + 1..], f);
      assert SumBy([x], f) == f(x) by {
        assert [x][..0] == [];
      }
    }
  }

  /** Changing one element changes the sum by the difference of its terms. */
  lemma {:induction false} SumUpdate<T>(s: seq<T>, i: nat, y: T, f: T -> real)
    requires i < |s|
    ensures SumBy(s[i := y], f) == SumBy(s, f) - f(s[i]) + f(y)
  {
    assert s == s[..i] + [s[i]] + s[i + 1..];
    assert s[i := y] == s[..i] + [y] + s[i + 1..];
    SumConcat(s[..i] + [s[i]], s[i + 1..], f);
    SumConcat(s[..i] + [y], s[i + 1..], f);
    SumConcat(s[..i], [s[i]], f);
    SumConcat(s[..i], [y], f);
    assert [s[i]][..0] == [] && [y][..0] == [];
  }
}
