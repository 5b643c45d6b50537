/**
 * Grouping a list into a plain object keyed by a string, the
 * `reduce((acc, x) => { if (!acc[k]) acc[k] = …; … return acc }, {})`
 * idiom of the expense views. An object is an association list in
 * insertion order: a key takes the position of the first element that has
 * it, as a non-integer property name does.
 *
 * `Group` is the specification: the elements of each key, in input order.
 * The loops of the views (`GroupBy`, `TallyBy`, `SumBy`) are proved to build
 * exactly `Group` or a per-key summary of it.
 */
module Grouping {
  import opened Common

  /** The position of key `k` (the `k in acc` / `acc[k]` lookup), or -1. */
  function KeyIndex<V>(entries: seq<(string, V)>, k: string): (r: int)
    ensures -1 <= r < |entries|
    ensures r >= 0 ==> entries[r].0 == k && forall j :: 0 <= j < r ==> entries[j].0 != k
    ensures r == -1 <==> forall j :: 0 <= j < |entries| ==> entries[j].0 != k
  {
    if entries == [] then -1
    else if entries[0].0 == k then 0
    else
      var r := KeyIndex(entries[1..], k);
      if r == -1 then -1 else r + 1
  }

  /** No key occurs twice. */
  predicate DistinctKeys<V>(entries: seq<(string, V)>)
  {
    forall i, j :: 0 <= i < j < |entries| ==> entries[i].0 != entries[j].0
  }

  /** Two association lists with the same keys in the same order. */
  predicate SameKeys<V, W>(a: seq<(string, V)>, b: seq<(string, W)>)
  {
    |a| == |b| && forall i :: 0 <= i < |a| ==> a[i].0 == b[i].0
  }

  /** A key is found at the same place in lists with the same keys. */
  lemma KeyIndexSameKeys<V, W>(a: seq<(string, V)>, b: seq<(string, W)>, k: string)
    requires SameKeys(a, b)
    ensures KeyIndex(a, k) == KeyIndex(b, k)
  {
  }

  /** One reduce step: `x` joins the group of key `k`, opened at the end if new. */
  function AddTo<T>(groups: seq<(string, seq<T>)>, k: string, x: T): seq<(string, seq<T>)>
  {
    var i := KeyIndex(groups, k);
    if i >= 0 then groups[i := (k, groups[i].1 + [x])] else groups + [(k, [x])]
  }

  /** The whole reduce: the groups of `s` by `key`. */
  function Group<T>(s: seq<T>, key: T -> string): seq<(string, seq<T>)>
  {
    if s == [] then [] else AddTo(Group(s[..|s| - 1], key), key(s[|s| - 1]), s[|s| - 1])
  }

  /** Each key appears once, and every element's key has a group. */
  lemma {:induction false} GroupKeys<T>(s: seq<T>, key: T -> string)
    ensures DistinctKeys(Group(s, key))
    ensures forall x :: x in s ==> KeyIndex(Group(s, key), key(x)) >= 0
  {
    if s != [] {
      var n := |s| - 1;
      var init, x := s[..n], s[n];
      GroupKeys(init, key);
      var g0, g := Group(init, key), Group(s, key);
      var j := KeyIndex(g0, key(x));
      assert g == AddTo(g0, key(x), x);
      forall y | y in s
        ensures KeyIndex(g, key(y)) >= 0
      {
        if y in init {
          var m := KeyIndex(g0, key(y));
          assert g[m].0 == g0[m].0 == key(y);
        } else if j < 0 {
          assert g[|g0|].0 == key(y);
        } else {
          assert g[j].0 == key(y);
        }
      }
    }
  }

  /**
   * The group of a key holds exactly the elements with that key, in input
   * order, and is never empty.
   */
  lemma {:induction false} GroupContents<T>(s: seq<T>, key: T -> string)
    ensures forall i :: 0 <= i < |Group(s, key)| ==>
      Group(s, key)[i].1 == Filter(s, KeyIs(key, Group(s, key)[i].0)) && Group(s, key)[i].1 != []
  {
    if s != [] {
      var n := |s| - 1;
      var init, x := s[..n], s[n];
      GroupContents(init, key);
      GroupKeys(init, key);
      var g0, g := Group(init, key), Group(s, key);
      var j := KeyIndex(g0, key(x));
      assert g == AddTo(g0, key(x), x);
      forall i | 0 <= i < |g|
        ensures g[i].1 == Filter(s, KeyIs(key, g[i].0)) && g[i].1 != []
      {
        var p := KeyIs(key, g[i].0);
        assert Filter(s, p) == Filter(init, p) + (if p(x) then [x] else []);
        if i == j {
          assert g[i] == (key(x), g0[i].1 + [x]);
        } else if i < |g0| {
          assert g[i] == g0[i] && g0[i].0 != key(x);
        } else {
          assert g[i] == (key(x), [x]);
          forall k | 0 <= k < |init| ensures !p(init[k]) {
            assert KeyIndex(g0, key(init[k])) >= 0;
          }
          FilterNone(init, p);
        }
      }
    }
  }

  /** The sum of `f` over one group. */
  function GroupTotal<T>(f: T -> real): ((string, seq<T>)) -> real
  {
    (e: (string, seq<T>)) => SumOf(e.1, f)
  }

  /** Summing group by group gives the sum over the whole list. */
  lemma {:induction false} GroupSum<T>(s: seq<T>, key: T -> string, f: T -> real)
    ensures SumOf(Group(s, key), GroupTotal(f)) == SumOf(s, f)
  {
    if s != [] {
      var n := |s| - 1;
      var init, x := s[..n], s[n];
      GroupSum(init, key, f);
      var g0 := Group(init, key);
      var j := KeyIndex(g0, key(x));
      if j >= 0 {
        var v := (key(x), g0[j].1 + [x]);
        SumOfUpdate(g0, j, v, GroupTotal(f));
        assert (g0[j].1 + [x])[..|g0[j].1|] == g0[j].1;
      } else {
        var v := (key(x), [x]);
        assert (g0 + [v])[..|g0|] == g0;
        assert [x][..0] == [];
        assert GroupTotal(f)(v) == SumOf([x], f) == f(x);
      }
    }
  }

  /** Counting one per element counts the list. */
  lemma {:induction false} SumOfOnes<T>(s: seq<T>)
    ensures SumOf(s, (x: T) => 1.0) == |s| as real
  {
    if s != [] {
      SumOfOnes(s[..|s| - 1]);
    }
  }

  /** The group sizes add up to the length of the list. */
  lemma GroupSizes<T>(s: seq<T>, key: T -> string)
    ensures SumOf(Group(s, key), (e: (string, seq<T>)) => |e.1| as real) == |s| as real
  {
    var g := Group(s, key);
    GroupSum(s, key, (x: T) => 1.0);
    SumOfOnes(s);
    forall i | 0 <= i < |g|
      ensures GroupTotal((x: T) => 1.0)(g[i]) == |g[i].1| as real
    {
      SumOfOnes(g[i].1);
    }
    SumOfAgree(g, GroupTotal((x: T) => 1.0), (e: (string, seq<T>)) => |e.1| as real);
  }

  /** The loop building the groups. */
  method GroupBy<T>(s: seq<T>, key: T -> string) returns (acc: seq<(string, seq<T>)>)
    ensures acc == Group(s, key)
  {
    acc := [];
    var i := 0;
    while i < |s|
      invariant 0 <= i <= |s|
      invariant acc == Group(s[..i], key)
    {
      assert s[..i + 1][..i] == s[..i];
      var k := key(s[i]);
      var j := KeyIndex(acc, k);
      if j < 0 {
        acc := acc + [(k, [s[i]])];
      } else {
        acc := acc[j := (k, acc[j].1 + [s[i]])];
      }
      i := i + 1;
    }
    assert s[..i] == s;
  }

  /** A running total and count, `{ total, count }`. */
  datatype Tally = Tally(total: real, count: nat)

  /** The per-key total of `f` and element count. */
  function Tallies<T>(s: seq<T>, key: T -> string, f: T -> real): (r: seq<(string, Tally)>)
    ensures SameKeys(r, Group(s, key))
  {
    var g := Group(s, key);
    seq(|g|, i requires 0 <= i < |g| => (g[i].0, Tally(SumOf(g[i].1, f), |g[i].1|)))
  }

  /** One element more bumps its key's tally, opening it at zero if new. */
  lemma TallyStep<T>(s: seq<T>, x: T, key: T -> string, f: T -> real)
    ensures var t := Tallies(s, key, f);
      var j := KeyIndex(t, key(x));
      Tallies(s + [x], key, f) ==
        if j >= 0 then t[j := (key(x), Tally(t[j].1.total + f(x), t[j].1.count + 1))]
        else t + [(key(x), Tally(f(x), 1))]
  {
    assert (s + [x])[..|s|] == s;
    var g0 := Group(s, key);
    KeyIndexSameKeys(Tallies(s, key, f), g0, key(x));
    var j := KeyIndex(g0, key(x));
    if j >= 0 {
      assert (g0[j].1 + [x])[..|g0[j].1|] == g0[j].1;
    } else {
      assert [x][..0] == [];
      assert Group(s + [x], key) == g0 + [(key(x), [x])];
      assert SumOf([x], f) == f(x);
      var t, t' := Tallies(s, key, f), Tallies(s + [x], key, f);
      assert t'[|t|] == (key(x), Tally(f(x), 1));
      assert t' == t + [(key(x), Tally(f(x), 1))];
    }
  }

  /** The loop building per-key totals and counts. */
  method TallyBy<T>(s: seq<T>, key: T -> string, f: T -> real) returns (acc: seq<(string, Tally)>)
    ensures acc == Tallies(s, key, f)
  {
    acc := [];
    var i := 0;
    while i < |s|
      invariant 0 <= i <= |s|
      invariant acc == Tallies(s[..i], key, f)
    {
      assert s[..i + 1] == s[..i] + [s[i]];
      TallyStep(s[..i], s[i], key, f);
      var k := key(s[i]);
      var j := KeyIndex(acc, k);
      if j < 0 {
        ghost var t := acc;
        acc := acc + [(k, Tally(0.0, 0))];
        j := |acc| - 1;
        assert acc[j := (k, Tally(0.0 + f(s[i]), 0 + 1))] == t + [(k, Tally(f(s[i]), 1))];
      }
      acc := acc[j := (k, Tally(acc[j].1.total + f(s[i]), acc[j].1.count + 1))];
      i := i + 1;
    }
    assert s[..i] == s;
  }

  /** The per-key total of `f`. */
  function Totals<T>(s: seq<T>, key: T -> string, f: T -> real): (r: seq<(string, real)>)
    ensures SameKeys(r, Group(s, key))
  {
    var g := Group(s, key);
    seq(|g|, i requires 0 <= i < |g| => (g[i].0, SumOf(g[i].1, f)))
  }

  /** One element more adds its value to its key's total, opened at zero if new. */
  lemma TotalStep<T>(s: seq<T>, x: T, key: T -> string, f: T -> real)
    ensures var t := Totals(s, key, f);
      var j := KeyIndex(t, key(x));
      Totals(s + [x], key, f) ==
        if j >= 0 then t[j := (key(x), t[j].1 + f(x))] else t + [(key(x), f(x))]
  {
    assert (s + [x])[..|s|] == s;
    var g0 := Group(s, key);
    KeyIndexSameKeys(Totals(s, key, f), g0, key(x));
    var j := KeyIndex(g0, key(x));
    if j >= 0 {
      assert (g0[j].1 + [x])[..|g0[j].1|] == g0[j].1;
    } else {
      assert [x][..0] == [];
      assert Group(s + [x], key) == g0 + [(key(x), [x])];
      assert SumOf([x], f) == f(x);
      var t, t' := Totals(s, key, f), Totals(s + [x], key, f);
      assert t'[|t|] == (key(x), f(x));
      assert t' == t + [(key(x), f(x))];
    }
  }

  /** The loop building per-key totals. */
  method SumBy<T>(s: seq<T>, key: T -> string, f: T -> real) returns (acc: seq<(string, real)>)
    ensures acc == Totals(s, key, f)
  {
    acc := [];
    var i := 0;
    while i < |s|
      invariant 0 <= i <= |s|
      invariant acc == Totals(s[..i], key, f)
    {
      assert s[..i + 1] == s[..i] + [s[i]];
      TotalStep(s[..i], s[i], key, f);
      var k := key(s[i]);
      var j := KeyIndex(acc, k);
      if j < 0 {
        ghost var t := acc;
        acc := acc + [(k, 0.0)];
        j := |acc| - 1;
        assert acc[j := (k, 0.0 + f(s[i]))] == t + [(k, f(s[i]))];
      }
      acc := acc[j := (k, acc[j].1 + f(s[i]))];
      i := i + 1;
    }
    assert s[..i] == s;
  }

  /** The totals add up to the sum over the whole list. */
  lemma TotalsSum<T>(s: seq<T>, key: T -> string, f: T -> real)
    ensures SumOf(Totals(s, key, f), (e: (string, real)) => e.1) == SumOf(s, f)
  {
    var g := Group(s, key);
    var t := Totals(s, key, f);
    GroupSum(s, key, f);
    SumOfMapped(g, t, GroupTotal(f), (e: (string, real)) => e.1);
  }

  /** Sums over two lists that agree element by element under their own terms. */
  lemma {:induction false} SumOfMapped<A, B>(a: seq<A>, b: seq<B>, f: A -> real, g: B -> real)
    requires |a| == |b| && forall i :: 0 <= i < |a| ==> f(a[i]) == g(b[i])
    ensures SumOf(a, f) == SumOf(b, g)
  {
    if a != [] {
      SumOfMapped(a[..|a| - 1], b[..|b| - 1], f, g);
    }
  }
}
