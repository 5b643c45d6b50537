/**
 * `Array.prototype.sort` with a numeric comparator, as the source uses it
 * (`(a, b) => key(b) - key(a)` and friends). Since ECMAScript 2019 the sort
 * is stable, so the result is fully determined: a stable insertion sort by
 * a real-valued key, largest key first. An ascending sort is the descending
 * sort by the negated key.
 */
module Sorting {
  import opened Common

  /** Keys never increase from left to right. */
  ghost predicate SortedDesc<T>(s: seq<T>, key: T -> real)
  {
    forall i, j :: 0 <= i < j < |s| ==> key(s[i]) >= key(s[j])
  }

  /** Inserts `x` in front of the first element whose key is not larger. */
  function InsertDesc<T>(x: T, s: seq<T>, key: T -> real): seq<T>
  {
    if s == [] || key(x) >= key(s[0]) then [x] + s
    else [s[0]] + InsertDesc(x, s[1..], key)
  }

  /**
   * Stable sort, largest key first: the tail is sorted, then the head is
   * inserted before every element with an equal key, so equal keys keep
   * their input order.
   */
  function SortDesc<T>(s: seq<T>, key: T -> real): seq<T>
  {
    if s == [] then [] else InsertDesc(s[0], SortDesc(s[1..], key), key)
  }

  lemma {:induction false} InsertDescPermutes<T>(x: T, s: seq<T>, key: T -> real)
    ensures multiset(InsertDesc(x, s, key)) == multiset(s) + multiset{x}
  {
    if s != [] && key(x) < key(s[0]) {
      InsertDescPermutes(x, s[1..], key);
      assert s == [s[0]] + s[1..];
    }
  }

  lemma {:induction false} InsertDescSorted<T>(x: T, s: seq<T>, key: T -> real)
    requires SortedDesc(s, key)
    ensures SortedDesc(InsertDesc(x, s, key), key)
  {
    if s != [] && key(x) < key(s[0]) {
      var tail := s[1..];
      InsertDescSorted(x, tail, key);
      InsertDescPermutes(x, tail, key);
      var r := InsertDesc(x, tail, key);
      forall k | 0 <= k < |r|
        ensures key(r[k]) <= key(s[0])
      {
        assert r[k] in multiset(r);
        assert r[k] in multiset(tail) || r[k] == x;
        if r[k] != x {
          assert r[k] in tail;
        }
      }
    }
  }

  /** The sorted sequence is a rearrangement of the input. */
  lemma {:induction false} SortDescPermutes<T>(s: seq<T>, key: T -> real)
    ensures multiset(SortDesc(s, key)) == multiset(s)
    ensures |SortDesc(s, key)| == |s|
  {
    if s != [] {
      SortDescPermutes(s[1..], key);
      InsertDescPermutes(s[0], SortDesc(s[1..], key), key);
      assert s == [s[0]] + s[1..];
    }
  }

  /** The sorted sequence has the largest key first. */
  lemma {:induction false} SortDescSorted<T>(s: seq<T>, key: T -> real)
    ensures SortedDesc(SortDesc(s, key), key)
  {
    if s != [] {
      SortDescSorted(s[1..], key);
      InsertDescSorted(s[0], SortDesc(s[1..], key), key);
    }
  }

  /** An element is in the sorted sequence exactly when it is in the input. */
  lemma SortDescMember<T>(s: seq<T>, key: T -> real, x: T)
    ensures x in SortDesc(s, key) <==> x in s
  {
    SortDescPermutes(s, key);
    assert x in SortDesc(s, key) <==> x in multiset(SortDesc(s, key));
    assert x in s <==> x in multiset(s);
  }

  /** The head of a sorted non-empty list is one of its elements with the largest key. */
  lemma SortDescHead<T>(s: seq<T>, key: T -> real)
    requires s != []
    ensures SortDesc(s, key) != [] && SortDesc(s, key)[0] in s
    ensures forall x :: x in s ==> key(x) <= key(SortDesc(s, key)[0])
  {
    var r := SortDesc(s, key);
    SortDescPermutes(s, key);
    SortDescSorted(s, key);
    assert |r| == |s|;
    SortDescMember(s, key, r[0]);
    forall x | x in s ensures key(x) <= key(r[0]) {
      SortDescMember(s, key, x);
      var k :| 0 <= k < |r| && r[k] == x;
      if k > 0 {
        assert key(r[0]) >= key(r[k]);
      }
    }
  }

  /**
   * Inserting `x` puts it in front of every element with the same key and
   * leaves the order of the others alone.
   */
  lemma {:induction false} InsertDescStable<T>(x: T, s: seq<T>, key: T -> real, k: real)
    ensures Filter(InsertDesc(x, s, key), KeyIs(key, k)) == (if key(x) == k then [x] else []) + Filter(s, KeyIs(key, k))
  {
    var p := KeyIs(key, k);
    if s == [] || key(x) >= key(s[0]) {
      FilterAppend([x], s, p);
      assert [x][..0] == [];
    } else {
      var rest := InsertDesc(x, s[1..], key);
      InsertDescStable(x, s[1..], key, k);
      FilterAppend([s[0]], rest, p);
      FilterAppend([s[0]], s[1..], p);
      assert s == [s[0]] + s[1..];
      assert [s[0]][..0] == [];
    }
  }

  /**
   * The sort is stable: keeping only the elements with any one key gives
   * the same sequence before and after sorting, so elements with equal
   * keys keep their input order.
   */
  lemma {:induction false} SortDescStable<T>(s: seq<T>, key: T -> real, k: real)
    ensures Filter(SortDesc(s, key), KeyIs(key, k)) == Filter(s, KeyIs(key, k))
  {
    if s != [] {
      var p := KeyIs(key, k);
      var t := SortDesc(s[1..], key);
      var head := if key(s[0]) == k then [s[0]] else [];
      assert [s[0]][..0] == [];
      assert s == [s[0]] + s[1..];
      calc {
        Filter(SortDesc(s, key), p);
        Filter(InsertDesc(s[0], t, key), p);
        { InsertDescStable(s[0], t, key, k); }
        head + Filter(t, p);
        { SortDescStable(s[1..], key, k); }
        head + Filter(s[1..], p);
        Filter([s[0]], p) + Filter(s[1..], p);
        { FilterAppend([s[0]], s[1..], p); }
        Filter(s, p);
      }
    }
  }
}
