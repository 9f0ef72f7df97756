/**
 * A stable sort on sequences, parameterised by a "sorts no later than"
 * relation. It stands for `Array.prototype.sort` with a comparator: the
 * dashboard only relies on the result being an ordered permutation of the
 * input, which is what this module proves.
 */
module Sorting {
  import opened Strings

  /** Every element sorts no later than every element after it. */
  ghost predicate SortedBy<T>(s: seq<T>, le: (T, T) -> bool) {
    forall i, j :: 0 <= i < j < |s| ==> le(s[i], s[j])
  }

  /** `le` relates any two elements of `s` one way or the other. */
  ghost predicate TotalOn<T>(le: (T, T) -> bool, s: seq<T>) {
    forall x, y :: x in s && y in s ==> le(x, y) || le(y, x)
  }

  /** `le` is transitive on the elements of `s`. */
  ghost predicate TransitiveOn<T>(le: (T, T) -> bool, s: seq<T>) {
    forall x, y, z :: x in s && y in s && z in s && le(x, y) && le(y, z) ==> le(x, z)
  }

  /** `x` placed before the first element of `s` it sorts no later than. */
  function Insert<T>(x: T, s: seq<T>, le: (T, T) -> bool): (r: seq<T>)
    ensures multiset(r) == multiset(s) + multiset{x}
    decreases |s|
  {
    if s == [] then [x]
    else if le(x, s[0]) then [x] + s
    else
      assert s == [s[0]] + s[1..];
      [s[0]] + Insert(x, s[1..], le)
  }

  /** Insertion sort: the result is a permutation of `s`. */
  function Sort<T>(s: seq<T>, le: (T, T) -> bool): (r: seq<T>)
    ensures multiset(r) == multiset(s)
    ensures |r| == |s|
    decreases |s|
  {
    if s == [] then []
    else
      assert s == [s[0]] + s[1..];
      Insert(s[0], Sort(s[1..], le), le)
  }

  lemma {:induction false} InsertSorted<T>(x: T, s: seq<T>, le: (T, T) -> bool, all: seq<T>)
    requires SortedBy(s, le)
    requires x in all && forall y :: y in s ==> y in all
    requires TotalOn(le, all) && TransitiveOn(le, all)
    ensures SortedBy(Insert(x, s, le), le)
    decreases |s|
  {
    if s != [] && !le(x, s[0]) {
      var t := Insert(x, s[1..], le);
      InsertSorted(x, s[1..], le, all);
      assert le(s[0], x);
      forall k | 0 <= k < |t| ensures le(s[0], t[k]) {
        assert t[k] in multiset(s[1..]) + multiset{x};
        if t[k] != x {
          assert t[k] in s[1..];
        }
      }
    }
  }

  /** Under a total preorder, `Sort` yields an ordered sequence. */
  lemma {:induction false} SortSorted<T>(s: seq<T>, le: (T, T) -> bool)
    requires TotalOn(le, s) && TransitiveOn(le, s)
    ensures SortedBy(Sort(s, le), le)
    decreases |s|
  {
    if s != [] {
      var tail := s[1..];
      assert TotalOn(le, tail) && TransitiveOn(le, tail) by {
        forall y | y in tail ensures y in s { }
      }
      SortSorted(tail, le);
      var sorted := Sort(tail, le);
      forall y | y in sorted ensures y in s {
        assert y in multiset(tail);
      }
      InsertSorted(s[0], sorted, le, s);
    }
  }
  /** No two elements of `s` share a key. */
  ghost predicate DistinctKeys<T, K>(s: seq<T>, key: T -> K) {
    forall i, j | 0 <= i < j < |s| :: key(s[i]) != key(s[j])
  }

  lemma {:induction false} InsertKeepsKeysDistinct<T, K>(x: T, s: seq<T>, le: (T, T) -> bool, key: T -> K)
    requires DistinctKeys(s, key) && forall y | y in s :: key(y) != key(x)
    ensures DistinctKeys(Insert(x, s, le), key)
    decreases |s|
  {
    if s != [] && !le(x, s[0]) {
      var t := Insert(x, s[1..], le);
      InsertKeepsKeysDistinct(x, s[1..], le, key);
      forall k | 0 <= k < |t| ensures key(t[k]) != key(s[0]) {
        assert t[k] in multiset(s[1..]) + multiset{x};
        if t[k] != x {
          assert t[k] in s[1..];
          var m :| 0 <= m < |s[1..]| && s[1..][m] == t[k];
          assert s[m + 1] == t[k];
        }
      }
      assert Insert(x, s, le) == [s[0]] + t;
    }
  }

  /** Sorting never makes two elements share a key. */
  lemma {:induction false} SortKeepsKeysDistinct<T, K>(s: seq<T>, le: (T, T) -> bool, key: T -> K)
    requires DistinctKeys(s, key)
    ensures DistinctKeys(Sort(s, le), key)
    decreases |s|
  {
    if s != [] {
      var sorted := Sort(s[1..], le);
      SortKeepsKeysDistinct(s[1..], le, key);
      forall y | y in sorted ensures key(y) != key(s[0]) {
        assert y in multiset(s[1..]);
        var m :| 0 <= m < |s[1..]| && s[1..][m] == y;
        assert s[m + 1] == y;
      }
      InsertKeepsKeysDistinct(s[0], sorted, le, key);
    }
  }

  /** `Array.from(new Set(xs)).sort()`: the distinct values, in ascending order. */
  function SortedDistinct(xs: seq<string>): (r: seq<string>)
    ensures forall x :: x in r <==> x in xs
    ensures NoDuplicates(r)
    ensures SortedBy(r, LexLe)
  {
    var d := Distinct(xs);
    var r := Sort(d, LexLe);
    assert forall x :: x in r <==> x in d by {
      forall x ensures x in r <==> x in d {
        assert x in r <==> x in multiset(r);
      }
    }
    assert NoDuplicates(r) by {
      SortKeepsKeysDistinct(d, LexLe, (x: string) => x);
    }
    assert SortedBy(r, LexLe) by {
      SortStrings(d);
    }
    r
  }

  lemma SortStrings(d: seq<string>)
    ensures SortedBy(Sort(d, LexLe), LexLe)
  {
    forall a, b ensures LexLe(a, b) || LexLe(b, a) {
      LexLeTotal(a, b);
    }
    forall a, b, c | LexLe(a, b) && LexLe(b, c) ensures LexLe(a, c) {
      LexLeTransitive(a, b, c);
    }
    SortSorted(d, LexLe);
  }
}
