/**
 * List comprehensions with a condition and Python's stable `sort`, over
 * sequences.
 */
module Seqs {

  /** `[x for x in s if keep(x)]` */
  function Filter<T>(s: seq<T>, keep: T -> bool): (r: seq<T>)
    ensures |r| <= |s|
    ensures forall i :: 0 <= i < |r| ==> keep(r[i])
    decreases |s|
  {
    if |s| == 0 then []
    else if keep(s[|s| - 1]) then Filter(s[..|s| - 1], keep) + [s[|s| - 1]]
    else Filter(s[..|s| - 1], keep)
  }

  /** Filtering keeps exactly the elements that pass, each as often as it occurs. */
  lemma {:induction false} FilterMultiset<T>(s: seq<T>, keep: T -> bool, x: T)
    ensures multiset(Filter(s, keep))[x] == if keep(x) then multiset(s)[x] else 0
    decreases |s|
  {
    if |s| > 0 {
      assert s == s[..|s| - 1] + [s[|s| - 1]];
      FilterMultiset(s[..|s| - 1], keep, x);
    }
  }

  /** An element passing `keep` is in the filtered sequence; one failing is not. */
  lemma FilterMembership<T>(s: seq<T>, keep: T -> bool, x: T)
    ensures x in Filter(s, keep) <==> x in s && keep(x)
  {
    FilterMultiset(s, keep, x);
    assert x in Filter(s, keep) <==> multiset(Filter(s, keep))[x] > 0;
    assert x in s <==> multiset(s)[x] > 0;
  }

  /** Filtering distributes over concatenation. */
  lemma {:induction false} FilterAppend<T>(a: seq<T>, b: seq<T>, keep: T -> bool)
    ensures Filter(a + b, keep) == Filter(a, keep) + Filter(b, keep)
    decreases |b|
  {
    if |b| == 0 {
      assert a + b == a;
    } else {
      var c := a + b;
      assert c[..|c| - 1] == a + b[..|b| - 1];
      assert c[|c| - 1] == b[|b| - 1];
      FilterAppend(a, b[..|b| - 1], keep);
    }
  }

  /** Two filters can be applied in either order. */
  lemma {:induction false} FilterCommute<T>(s: seq<T>, a: T -> bool, b: T -> bool)
    ensures Filter(Filter(s, a), b) == Filter(Filter(s, b), a)
    decreases |s|
  {
    if |s| > 0 {
      var init := s[..|s| - 1];
      var x := s[|s| - 1];
      FilterCommute(init, a, b);
      if a(x) {
        assert Filter(s, a) == Filter(init, a) + [x];
        assert Filter(s, a)[..|Filter(s, a)| - 1] == Filter(init, a);
      }
      if b(x) {
        assert Filter(s, b) == Filter(init, b) + [x];
        assert Filter(s, b)[..|Filter(s, b)| - 1] == Filter(init, b);
      }
    }
  }

  /**
   * The filtered sequence is the subsequence of `s` at increasing positions
   * `idx`, and those positions are exactly the ones whose element passes.
   */
  lemma {:induction false} FilterSubsequence<T>(s: seq<T>, keep: T -> bool) returns (idx: seq<nat>)
    ensures |idx| == |Filter(s, keep)|
    ensures forall k :: 0 <= k < |idx| ==> idx[k] < |s| && Filter(s, keep)[k] == s[idx[k]]
    ensures forall k, l :: 0 <= k < l < |idx| ==> idx[k] < idx[l]
    ensures forall j :: 0 <= j < |s| && keep(s[j]) ==> j in idx
    decreases |s|
  {
    if |s| == 0 {
      idx := [];
    } else {
      var init := s[..|s| - 1];
      var prev := FilterSubsequence(init, keep);
      assert forall j :: 0 <= j < |init| ==> init[j] == s[j];
      if keep(s[|s| - 1]) {
        idx := prev + [|s| - 1];
      } else {
        idx := prev;
      }
    }
  }

  /** A condition and its negation split a sequence: the two parts together are a permutation of it. */
  lemma {:induction false} FilterSplit<T>(s: seq<T>, keep: T -> bool, drop: T -> bool)
    requires forall x :: drop(x) <==> !keep(x)
    ensures multiset(Filter(s, keep)) + multiset(Filter(s, drop)) == multiset(s)
    ensures |Filter(s, keep)| + |Filter(s, drop)| == |s|
    decreases |s|
  {
    if |s| > 0 {
      assert s == s[..|s| - 1] + [s[|s| - 1]];
      FilterSplit(s[..|s| - 1], keep, drop);
    }
  }

  /** Two conditions that never hold together select, between them, the elements passing `either`, their disjunction. */
  lemma {:induction false} FilterDisjoint<T>(s: seq<T>, f: T -> bool, g: T -> bool, either: T -> bool)
    requires forall x :: !(f(x) && g(x))
    requires forall x :: either(x) <==> f(x) || g(x)
    ensures |Filter(s, f)| + |Filter(s, g)| == |Filter(s, either)|
    decreases |s|
  {
    if |s| > 0 {
      FilterDisjoint(s[..|s| - 1], f, g, either);
    }
  }

  /** Keys are compared as Python compares pairs: lexicographically. */
  predicate KeyLe(a: (int, int), b: (int, int)) {
    a.0 < b.0 || (a.0 == b.0 && a.1 <= b.1)
  }

  /** Largest key first. */
  predicate SortedDesc<T>(s: seq<T>, key: T -> (int, int)) {
    forall i, j :: 0 <= i < j < |s| ==> KeyLe(key(s[j]), key(s[i]))
  }

  /**
   * Inserts `x` into a sequence sorted largest key first, ahead of every
   * element whose key is not larger than its own. Elements inserted this way
   * from last to first keep input order among equal keys, which is what
   * `sort(key=..., reverse=True)` guarantees.
   */
  function InsertDesc<T>(x: T, s: seq<T>, key: T -> (int, int)): (r: seq<T>)
    ensures |r| == |s| + 1
    decreases |s|
  {
    if |s| == 0 then [x]
    else if KeyLe(key(s[0]), key(x)) then [x] + s
    else [s[0]] + InsertDesc(x, s[1..], key)
  }

  /** `sorted(s, key=key, reverse=True)` */
  function SortDesc<T>(s: seq<T>, key: T -> (int, int)): (r: seq<T>)
    ensures |r| == |s|
    decreases |s|
  {
    if |s| == 0 then [] else InsertDesc(s[0], SortDesc(s[1..], key), key)
  }

  /** The elements whose key is `k`, as a condition. */
  function KeyIs<T>(key: T -> (int, int), k: (int, int)): T -> bool {
    y => key(y) == k
  }

  /**
   * Inserting `x` puts it ahead of every element with its own key, since
   * it goes before the first element whose key is not larger.
   */
  lemma {:induction false} InsertDescTies<T>(x: T, t: seq<T>, key: T -> (int, int), k: (int, int))
    ensures Filter(InsertDesc(x, t, key), KeyIs(key, k)) == Filter([x], KeyIs(key, k)) + Filter(t, KeyIs(key, k))
    decreases |t|
  {
    var p := KeyIs(key, k);
    if |t| == 0 {
      assert InsertDesc(x, t, key) == [x];
    } else if KeyLe(key(t[0]), key(x)) {
      FilterAppend([x], t, p);
    } else {
      InsertDescTies(x, t[1..], key, k);
      FilterAppend([t[0]], InsertDesc(x, t[1..], key), p);
      FilterAppend([t[0]], t[1..], p);
      assert t == [t[0]] + t[1..];
      assert key(t[0]) != key(x);
      if key(x) == k {
        assert Filter([t[0]], p) == [];
      } else {
        assert Filter([x], p) == [];
      }
    }
  }

  /** Stability: among elements with equal keys, the sort keeps input order. */
  lemma {:induction false} SortDescStable<T>(s: seq<T>, key: T -> (int, int), k: (int, int))
    ensures Filter(SortDesc(s, key), KeyIs(key, k)) == Filter(s, KeyIs(key, k))
    decreases |s|
  {
    if |s| > 0 {
      SortDescStable(s[1..], key, k);
      InsertDescTies(s[0], SortDesc(s[1..], key), key, k);
      FilterAppend([s[0]], s[1..], KeyIs(key, k));
      assert s == [s[0]] + s[1..];
    }
  }

  /** Inserting adds `x` and keeps every element. */
  lemma {:induction false} InsertDescMultiset<T>(x: T, s: seq<T>, key: T -> (int, int))
    ensures multiset(InsertDesc(x, s, key)) == multiset(s) + multiset{x}
    decreases |s|
  {
    if |s| > 0 && !KeyLe(key(s[0]), key(x)) {
      InsertDescMultiset(x, s[1..], key);
      assert s == [s[0]] + s[1..];
    }
  }

  /** An element no smaller than every element of a sorted sequence can go in front of it. */
  lemma ConsSorted<T>(h: T, t: seq<T>, key: T -> (int, int))
    requires SortedDesc(t, key)
    requires forall k :: 0 <= k < |t| ==> KeyLe(key(t[k]), key(h))
    ensures SortedDesc([h] + t, key)
  {
    var r := [h] + t;
    forall i, j | 0 <= i < j < |r|
      ensures KeyLe(key(r[j]), key(r[i]))
    {
      assert r[j] == t[j - 1];
      if i > 0 {
        assert r[i] == t[i - 1];
      }
    }
  }

  /** Inserting into a sorted sequence keeps it sorted. */
  lemma {:induction false} InsertDescSorted<T>(x: T, s: seq<T>, key: T -> (int, int))
    requires SortedDesc(s, key)
    ensures SortedDesc(InsertDesc(x, s, key), key)
    decreases |s|
  {
    if |s| == 0 {
    } else if KeyLe(key(s[0]), key(x)) {
      forall k | 0 <= k < |s|
        ensures KeyLe(key(s[k]), key(x))
      {
        if k > 0 {
          assert KeyLe(key(s[k]), key(s[0]));
        }
      }
      ConsSorted(x, s, key);
    } else {
      var rest := InsertDesc(x, s[1..], key);
      InsertDescSorted(x, s[1..], key);
      InsertDescMultiset(x, s[1..], key);
      forall k | 0 <= k < |rest|
        ensures KeyLe(key(rest[k]), key(s[0]))
      {
        var y := rest[k];
        assert y in multiset(rest);
        if y != x {
          assert y in multiset(s[1..]);
          var j :| 0 <= j < |s[1..]| && s[1..][j] == y;
          assert s[j + 1] == y;
        }
      }
      ConsSorted(s[0], rest, key);
    }
  }

  lemma {:induction false} SortDescSorted<T>(s: seq<T>, key: T -> (int, int))
    ensures SortedDesc(SortDesc(s, key), key)
    decreases |s|
  {
    if |s| > 0 {
      SortDescSorted(s[1..], key);
      InsertDescSorted(s[0], SortDesc(s[1..], key), key);
    }
  }

  lemma {:induction false} SortDescMultiset<T>(s: seq<T>, key: T -> (int, int))
    ensures multiset(SortDesc(s, key)) == multiset(s)
    decreases |s|
  {
    if |s| > 0 {
      var t := SortDesc(s[1..], key);
      SortDescMultiset(s[1..], key);
      InsertDescMultiset(s[0], t, key);
      assert s == [s[0]] + s[1..];
      assert multiset(s) == multiset(s[1..]) + multiset{s[0]};
    }
  }

  /**
   * The result is sorted largest key first, is a permutation of the input,
   * and keeps input order among equal keys.
   */
  lemma SortDescSpec<T>(s: seq<T>, key: T -> (int, int))
    ensures SortedDesc(SortDesc(s, key), key)
    ensures multiset(SortDesc(s, key)) == multiset(s)
    ensures forall k :: Filter(SortDesc(s, key), KeyIs(key, k)) == Filter(s, KeyIs(key, k))
  {
    SortDescSorted(s, key);
    SortDescMultiset(s, key);
    forall k
      ensures Filter(SortDesc(s, key), KeyIs(key, k)) == Filter(s, KeyIs(key, k))
    {
      SortDescStable(s, key, k);
    }
  }
}
