/**
 * `Array.prototype.filter` and `map`, on sequences: the list operations the
 * dashboard's components chain together.
 */
module Lists {

  /** The elements of `s` that satisfy `p`, in their order in `s`. */
  function Filter<T>(s: seq<T>, p: T -> bool): (r: seq<T>)
    ensures |r| <= |s|
    decreases |s|
  {
    if s == [] then []
    else Filter(s[..|s| - 1], p) + if p(s[|s| - 1]) then [s[|s| - 1]] else []
  }

  /** Filtering distributes over concatenation, so it keeps the relative order. */
  lemma {:induction false} FilterConcat<T>(s: seq<T>, t: seq<T>, p: T -> bool)
    ensures Filter(s + t, p) == Filter(s, p) + Filter(t, p)
    decreases |t|
  {
    if t == [] {
      assert s + t == s;
    } else {
      var u := t[..|t| - 1];
      FilterConcat(s, u, p);
      assert (s + t)[..|s + t| - 1] == s + u;
    }
  }

  /** A filter that keeps every element returns the sequence unchanged. */
  lemma {:induction false} FilterAll<T>(s: seq<T>, p: T -> bool)
    requires forall x | x in s :: p(x)
    ensures Filter(s, p) == s
    decreases |s|
  {
    if s != [] {
      var u := s[..|s| - 1];
      assert forall x | x in u :: x in s;
      FilterAll(u, p);
    }
  }

  /** With one element, the filter keeps it or drops it. */
  lemma FilterOne<T>(x: T, p: T -> bool)
    ensures Filter([x], p) == if p(x) then [x] else []
  {
    assert [x][..0] == [];
  }

  /** The filter keeps exactly the elements that satisfy `p`. */
  lemma {:induction false} FilterMembers<T>(s: seq<T>, p: T -> bool)
    ensures forall x :: x in Filter(s, p) <==> x in s && p(x)
    decreases |s|
  {
    if s != [] {
      var u := s[..|s| - 1];
      FilterMembers(u, p);
      assert s == u + [s[|s| - 1]];
    }
  }

  /** Two filters in a row are one filter by both tests. */
  lemma {:induction false} FilterTwice<T>(s: seq<T>, p: T -> bool, q: T -> bool, pq: T -> bool)
    requires forall x :: pq(x) == (p(x) && q(x))
    ensures Filter(Filter(s, p), q) == Filter(s, pq)
    decreases |s|
  {
    if s != [] {
      var u := s[..|s| - 1];
      var x := s[|s| - 1];
      FilterTwice(u, p, q, pq);
      FilterConcat(Filter(u, p), if p(x) then [x] else [], q);
      if p(x) {
        assert Filter([x], q) == (if q(x) then [x] else []) by {
          assert [x][..0] == [];
        }
      }
    }
  }

  /** `s.map(f)`: one value per element, in order. */
  function Map<A, B>(s: seq<A>, f: A -> B): (r: seq<B>)
    ensures |r| == |s|
    ensures forall i | 0 <= i < |s| :: r[i] == f(s[i])
  {
    seq(|s|, i requires 0 <= i < |s| => f(s[i]))
  }

  /** Mapping one more element appends its image, as a loop's push does. */
  lemma MapStep<A, B>(s: seq<A>, i: nat, f: A -> B)
    requires i < |s|
    ensures Map(s[..i + 1], f) == Map(s[..i], f) + [f(s[i])]
  {
    var a := Map(s[..i + 1], f);
    var b := Map(s[..i], f) + [f(s[i])];
    forall k | 0 <= k < |a| ensures a[k] == b[k] {
      if k < i { assert s[..i + 1][k] == s[..i][k]; }
    }
  }

  /** A value is mapped to exactly when some element maps to it. */
  lemma MapMembers<A, B>(s: seq<A>, f: A -> B)
    ensures forall y :: y in Map(s, f) <==> exists x | x in s :: f(x) == y
  {
    forall y ensures y in Map(s, f) <==> exists x | x in s :: f(x) == y {
      if exists x | x in s :: f(x) == y {
        var x :| x in s && f(x) == y;
        var i :| 0 <= i < |s| && s[i] == x;
        assert Map(s, f)[i] == y;
      }
    }
  }

  /** The number of elements of `s` that satisfy `p`. */
  function Count<T>(s: seq<T>, p: T -> bool): (n: nat)
    ensures n <= |s|
  {
    |Filter(s, p)|
  }

  /** None counted exactly when none satisfies `p`; all exactly when all do. */
  lemma {:induction false} CountBounds<T>(s: seq<T>, p: T -> bool)
    ensures Count(s, p) == 0 <==> forall x | x in s :: !p(x)
    ensures Count(s, p) == |s| <==> forall x | x in s :: p(x)
    decreases |s|
  {
    if s != [] {
      var u := s[..|s| - 1];
      CountBounds(u, p);
      assert forall x | x in s :: x in u || x == s[|s| - 1] by {
        assert s == u + [s[|s| - 1]];
      }
    }
  }
}
