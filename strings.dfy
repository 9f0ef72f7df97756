/**
 * The JavaScript string built-ins the dashboard relies on, restricted to
 * Latin-1 case folding: `toLowerCase`, `toUpperCase`,
 * `includes`, `trim`, `split`, `join`, `parseInt`, number-to-string
 * conversion and the code-point order used by `localeCompare` and the
 * default `Array.prototype.sort`.
 */
module Strings {
  import opened Wrappers

  // ---------------------------------------------------------------------
  // Characters

  /**
   * ECMAScript WhiteSpace and LineTerminator: what `\s` matches and what
   * `trim` removes. Below U+0080 these are the space and tab, line feed,
   * vertical tab, form feed and carriage return (U+0009 to U+000D).
   */
  predicate IsSpace(c: char) {
    if c < '\U{80}' then c == ' ' || '\t' <= c <= '\r'
    else
      c == '\U{A0}' || c == '\U{1680}' || '\U{2000}' <= c <= '\U{200A}' ||
      c == '\U{2028}' || c == '\U{2029}' || c == '\U{202F}' || c == '\U{205F}' ||
      c == '\U{3000}' || c == '\U{FEFF}'
  }

  predicate IsDigit(c: char) { '0' <= c <= '9' }
  predicate IsLowerLetter(c: char) { 'a' <= c <= 'z' }
  predicate IsUpperLetter(c: char) { 'A' <= c <= 'Z' }

  /**
   * The letters whose case `toLowerCase` / `toUpperCase` change one for one
   * within Latin-1: A-Z and U+00C0 to U+00DE except U+00D7, and a-z and
   * U+00E0 to U+00FE except U+00F7.
   */
  predicate IsUpperCased(c: char) {
    IsUpperLetter(c) || ('\U{C0}' <= c <= '\U{DE}' && c != '\U{D7}')
  }

  predicate IsLowerCased(c: char) {
    IsLowerLetter(c) || ('\U{E0}' <= c <= '\U{FE}' && c != '\U{F7}')
  }

  function LowerChar(c: char): char {
    if IsUpperCased(c) then (c as int + 32) as char else c
  }

  function UpperChar(c: char): char {
    if IsLowerCased(c) then (c as int - 32) as char else c
  }

  /** `s.toLowerCase()` on Latin-1 letters; every other character is kept. */
  function ToLower(s: string): string {
    seq(|s|, i requires 0 <= i < |s| => LowerChar(s[i]))
  }

  /** `s.toUpperCase()` on Latin-1 letters; every other character is kept. */
  function ToUpper(s: string): string {
    seq(|s|, i requires 0 <= i < |s| => UpperChar(s[i]))
  }

  /** Lower-casing twice is lower-casing once. */
  lemma ToLowerIdempotent(s: string)
    ensures ToLower(ToLower(s)) == ToLower(s)
  {
  }

  /** A lower-cased string holds no upper-case letter. */
  lemma ToLowerHasNoUpper(s: string)
    ensures forall i :: 0 <= i < |s| ==> !IsUpperCased(ToLower(s)[i])
  {
  }

  // ---------------------------------------------------------------------
  // Substring search: `s.includes(t)`

  predicate MatchAt(s: string, t: string, i: nat) {
    i + |t| <= |s| && s[i..i + |t|] == t
  }

  predicate Contains(s: string, t: string) {
    exists i: nat | i <= |s| :: MatchAt(s, t, i)
  }

  /** `t` occurs in `s` at position `i`. */
  lemma ContainsAt(s: string, t: string, i: nat)
    requires MatchAt(s, t, i)
    ensures Contains(s, t)
  {
  }

  /** A pattern holding a character that `s` lacks does not occur in `s`. */
  lemma NotContains(s: string, t: string, k: nat)
    requires k < |t| && t[k] !in s
    ensures !Contains(s, t)
  {
    forall i: nat | i <= |s| ensures !MatchAt(s, t, i) {
      if i + |t| <= |s| {
        assert s[i..i + |t|][k] == s[i + k];
      }
    }
  }

  /** Every character of `s` is drawn from `alphabet`. */
  predicate Within(s: string, alphabet: set<char>) {
    forall i | 0 <= i < |s| :: s[i] in alphabet
  }

  /** A pattern holding a character outside the alphabet of `s` does not occur in `s`. */
  lemma NotContainsOutside(s: string, t: string, k: nat, alphabet: set<char>)
    requires Within(s, alphabet) && k < |t| && t[k] !in alphabet
    ensures !Contains(s, t)
  {
    NotContains(s, t, k);
  }

  /** A pattern holding two adjacent characters that never occur adjacently in `s` does not occur in `s`. */
  lemma NotContainsPair(s: string, t: string, k: nat)
    requires k + 1 < |t|
    requires forall i :: 0 <= i < |s| - 1 ==> s[i] != t[k] || s[i + 1] != t[k + 1]
    ensures !Contains(s, t)
  {
    forall i: nat | i <= |s| ensures !MatchAt(s, t, i) {
      if i + |t| <= |s| {
        assert s[i..i + |t|][k] == s[i + k];
        assert s[i..i + |t|][k + 1] == s[i + k + 1];
      }
    }
  }

  /** A string contains every string it is built around. */
  lemma ContainsInfix(a: string, t: string, b: string)
    ensures Contains(a + t + b, t)
  {
    assert (a + t + b)[|a|..|a| + |t|] == t;
    ContainsAt(a + t + b, t, |a|);
  }

  // ---------------------------------------------------------------------
  // Trimming: `trim`, `trimStart`, `trimEnd`

  predicate AllSpace(s: string) {
    forall i :: 0 <= i < |s| ==> IsSpace(s[i])
  }

  /** The suffix left after dropping the leading whitespace. */
  function TrimStart(s: string): (r: string)
    ensures |r| <= |s| && r == s[|s| - |r|..]
    ensures AllSpace(s[..|s| - |r|])
    ensures r != [] ==> !IsSpace(r[0])
    decreases |s|
  {
    if s != [] && IsSpace(s[0]) then TrimStart(s[1..]) else s
  }

  /** The prefix left after dropping the trailing whitespace. */
  function TrimEnd(s: string): (r: string)
    ensures |r| <= |s| && r == s[..|r|]
    ensures AllSpace(s[|r|..])
    ensures r != [] ==> !IsSpace(r[|r| - 1])
    decreases |s|
  {
    if s != [] && IsSpace(s[|s| - 1]) then TrimEnd(s[..|s| - 1]) else s
  }

  /** `s.trim()`: the longest infix of `s` with no whitespace at either end. */
  function Trim(s: string): (r: string)
  {
    TrimEnd(TrimStart(s))
  }

  /** `Trim` takes off whitespace only. */
  lemma TrimIsInfix(s: string)
    ensures exists a: nat, b: nat | a <= b <= |s| ::
      Trim(s) == s[a..b] && AllSpace(s[..a]) && AllSpace(s[b..])
  {
    var t := TrimStart(s);
    var a := |s| - |t|;
    var r := TrimEnd(t);
    assert r == s[a..a + |r|];
    assert s[a + |r|..] == t[|r|..];
  }

  /** `Trim` leaves no whitespace at either end. */
  lemma TrimEnds(s: string)
    ensures Trim(s) != [] ==> !IsSpace(Trim(s)[0]) && !IsSpace(Trim(s)[|Trim(s)| - 1])
  {
    var t := TrimStart(s);
    var r := TrimEnd(t);
    if r != [] {
      assert r[0] == t[0];
    }
  }

  /** `s.trim() === ''` exactly when `s` is whitespace only (or empty). */
  lemma TrimEmptyIffAllSpace(s: string)
    ensures Trim(s) == [] <==> AllSpace(s)
  {
    var t := TrimStart(s);
    if Trim(s) == [] && t == [] {
      assert s[..|s| - |t|] == s;
    }
  }

  /** Trimming a string that has no whitespace at either end changes nothing. */
  lemma TrimOfTrimmed(s: string)
    requires s == [] || (!IsSpace(s[0]) && !IsSpace(s[|s| - 1]))
    ensures Trim(s) == s
  {
  }

  // ---------------------------------------------------------------------
  // Splitting and joining: `split(c)`, `join(sep)`

  /** The position of the first `c` in `s`, or `|s|` when there is none. */
  function IndexOf(s: string, c: char): (r: nat)
    ensures r <= |s|
    ensures r < |s| ==> s[r] == c
    ensures c !in s[..r]
    decreases |s|
  {
    if s == [] then 0
    else if s[0] == c then 0
    else 1 + IndexOf(s[1..], c)
  }

  /** `s.split(c)` for a one-character separator. */
  function Split(s: string, c: char): (parts: seq<string>)
    ensures |parts| >= 1
    ensures forall j :: 0 <= j < |parts| ==> c !in parts[j]
    decreases |s|
  {
    var i := IndexOf(s, c);
    if i == |s| then [s] else [s[..i]] + Split(s[i + 1..], c)
  }

  /** `parts.join(sep)`. */
  function Join(parts: seq<string>, sep: string): string
    decreases |parts|
  {
    if |parts| == 0 then ""
    else if |parts| == 1 then parts[0]
    else parts[0] + sep + Join(parts[1..], sep)
  }

  /** Splitting on a character and joining with it again restores the string. */
  lemma {:induction false} JoinSplit(s: string, c: char)
    ensures Join(Split(s, c), [c]) == s
    decreases |s|
  {
    var i := IndexOf(s, c);
    if i < |s| {
      JoinSplit(s[i + 1..], c);
      assert s == s[..i] + [c] + s[i + 1..];
    }
  }

  /** Joining pieces free of the separator and splitting again gives the pieces back. */
  lemma {:induction false} SplitJoin(parts: seq<string>, c: char)
    requires |parts| >= 1 && forall j :: 0 <= j < |parts| ==> c !in parts[j]
    ensures Split(Join(parts, [c]), c) == parts
    decreases |parts|
  {
    if |parts| > 1 {
      var a := parts[0];
      var rest := Join(parts[1..], [c]);
      var s := a + [c] + rest;
      assert s[..|a|] == a && s[|a| + 1..] == rest;
      assert IndexOf(s, c) == |a| by {
        IndexOfFirst(s, c, |a|);
      }
      SplitJoin(parts[1..], c);
      assert parts == [a] + parts[1..];
    }
  }

  /** A character found with nothing like it before is found by `IndexOf`. */
  lemma IndexOfFirst(s: string, c: char, i: nat)
    requires i < |s| && s[i] == c && c !in s[..i]
    ensures IndexOf(s, c) == i
  {
  }

  /** `s.split(c)[0]`: everything before the first `c`. */
  function BeforeFirst(s: string, c: char): (r: string)
    ensures r == Split(s, c)[0]
  {
    s[..IndexOf(s, c)]
  }

  /** The first piece of a split is a prefix of the string without the separator. */
  lemma BeforeFirstIsPrefix(s: string, c: char)
    ensures var r := BeforeFirst(s, c);
      |r| <= |s| && r == s[..|r|] && c !in r && (|r| < |s| ==> s[|r|] == c)
  {
  }

  // ---------------------------------------------------------------------
  // Numbers: `String(n)` and `parseInt(s, 10)`

  function DigitChar(d: nat): (c: char)
    requires d < 10
    ensures IsDigit(c)
  {
    ('0' as int + d) as char
  }

  function DigitValue(c: char): nat
    requires IsDigit(c)
  {
    c as int - '0' as int
  }

  /** The decimal text of a natural number, as `String(n)` writes it. */
  function NatToString(n: nat): (r: string)
    ensures |r| >= 1
    ensures forall i :: 0 <= i < |r| ==> IsDigit(r[i])
    decreases n
  {
    if n < 10 then [DigitChar(n)] else NatToString(n / 10) + [DigitChar(n % 10)]
  }

  function IntToString(i: int): string {
    if i < 0 then "-" + NatToString(-i) else NatToString(i)
  }

  /** The value of a string of digits, read most significant first. */
  function DigitsValue(s: string): nat
    requires forall i :: 0 <= i < |s| ==> IsDigit(s[i])
    decreases |s|
  {
    if s == [] then 0 else DigitsValue(s[..|s| - 1]) * 10 + DigitValue(s[|s| - 1])
  }

  /** The longest prefix of `s` made of digits. */
  function LeadingDigits(s: string): (r: string)
    ensures |r| <= |s| && r == s[..|r|]
    ensures forall i :: 0 <= i < |r| ==> IsDigit(r[i])
    ensures |r| < |s| ==> !IsDigit(s[|r|])
    decreases |s|
  {
    if s != [] && IsDigit(s[0]) then [s[0]] + LeadingDigits(s[1..]) else []
  }

  /**
   * `parseInt(s, 10)`: leading whitespace, an optional sign, then the longest
   * run of digits; `None` is `NaN`, what JavaScript gives when no digit follows.
   */
  function ParseInt(s: string): (r: Option<int>)
    ensures r.None? <==> LeadingDigits(SkipSign(TrimStart(s))) == []
  {
    var t := TrimStart(s);
    var d := LeadingDigits(SkipSign(t));
    if d == [] then None
    else
      var v: int := DigitsValue(d);
      Some(if t[0] == '-' then -v else v)
  }

  function SkipSign(t: string): string {
    if t != [] && (t[0] == '-' || t[0] == '+') then t[1..] else t
  }

  lemma {:induction false} DigitsValueOfNatToString(n: nat)
    ensures DigitsValue(NatToString(n)) == n
    decreases n
  {
    if n >= 10 {
      var s := NatToString(n);
      DigitsValueOfNatToString(n / 10);
      assert s[..|s| - 1] == NatToString(n / 10);
    }
  }

  lemma {:induction false} LeadingDigitsOfDigits(s: string)
    requires forall i :: 0 <= i < |s| ==> IsDigit(s[i])
    ensures LeadingDigits(s) == s
    decreases |s|
  {
    if s != [] {
      LeadingDigitsOfDigits(s[1..]);
    }
  }

  /** `parseInt(String(n))` gives back `n`. */
  lemma ParseIntNatToString(n: nat)
    ensures ParseInt(NatToString(n)) == Some(n)
  {
    var s := NatToString(n);
    assert !IsSpace(s[0]) && s[0] != '-' && s[0] != '+';
    LeadingDigitsOfDigits(s);
    DigitsValueOfNatToString(n);
  }

  // ---------------------------------------------------------------------
  // Ordering: `a.localeCompare(b)` and the default sort, as code-point order

  /** `a` sorts no later than `b` (lexicographic order on characters). */
  predicate LexLe(a: string, b: string)
    decreases |a|
  {
    a == [] || (b != [] && (a[0] < b[0] || (a[0] == b[0] && LexLe(a[1..], b[1..]))))
  }

  lemma {:induction false} LexLeTotal(a: string, b: string)
    ensures LexLe(a, b) || LexLe(b, a)
    decreases |a|
  {
    if a != [] && b != [] && a[0] == b[0] {
      LexLeTotal(a[1..], b[1..]);
    }
  }

  lemma {:induction false} LexLeTransitive(a: string, b: string, c: string)
    requires LexLe(a, b) && LexLe(b, c)
    ensures LexLe(a, c)
    decreases |a|
  {
    if a != [] && b != [] && c != [] && a[0] == b[0] && b[0] == c[0] {
      LexLeTransitive(a[1..], b[1..], c[1..]);
    }
  }

  lemma {:induction false} LexLeAntisymmetric(a: string, b: string)
    requires LexLe(a, b) && LexLe(b, a)
    ensures a == b
    decreases |a|
  {
    if a != [] && b != [] {
      LexLeAntisymmetric(a[1..], b[1..]);
      assert a == [a[0]] + a[1..] && b == [b[0]] + b[1..];
    }
  }

  lemma LexLeReflexive(a: string)
    ensures LexLe(a, a)
  {
    LexLeTotal(a, a);
  }

  // ---------------------------------------------------------------------
  // De-duplication: `Array.from(new Set(xs))`

  predicate NoDuplicates<T(==)>(s: seq<T>) {
    forall i, j :: 0 <= i < j < |s| ==> s[i] != s[j]
  }

  /** The distinct elements of `s`, each where it first occurs. */
  function Distinct<T(==, !new)>(s: seq<T>): (r: seq<T>)
    ensures forall x :: x in r <==> x in s
    ensures NoDuplicates(r)
    decreases |s|
  {
    if s == [] then []
    else
      var d := Distinct(s[..|s| - 1]);
      if s[|s| - 1] in d then d else d + [s[|s| - 1]]
  }

  /** The position of the first occurrence of `x` in `s`. */
  function FirstIndex<T(==)>(s: seq<T>, x: T): (k: nat)
    requires x in s
    ensures k < |s| && s[k] == x && x !in s[..k]
  {
    if s[0] == x then 0 else 1 + FirstIndex(s[1..], x)
  }

  /** `Distinct` keeps the order in which elements first occur. */
  lemma {:induction false} DistinctFirstOccurrenceOrder<T(!new)>(s: seq<T>, i: nat, j: nat)
    requires i < j < |Distinct(s)|
    ensures FirstIndex(s, Distinct(s)[i]) < FirstIndex(s, Distinct(s)[j])
    decreases |s|
  {
    var p := s[..|s| - 1];
    var d := Distinct(p);
    var x, y := Distinct(s)[i], Distinct(s)[j];
    FirstIndexOfPrefix(s, x);
    if j < |d| {
      DistinctFirstOccurrenceOrder(p, i, j);
      FirstIndexOfPrefix(s, y);
    } else {
      assert y == s[|s| - 1] && y !in p;
      assert FirstIndex(s, y) == |s| - 1 by {
        FirstIndexOfPrefixFree(s, y);
      }
    }
  }

  lemma FirstIndexOfPrefix<T>(s: seq<T>, x: T)
    requires |s| > 0 && x in s[..|s| - 1]
    ensures FirstIndex(s, x) == FirstIndex(s[..|s| - 1], x)
  {
    var p := s[..|s| - 1];
    var k := FirstIndex(p, x);
    assert s[..k] == p[..k];
    FirstIndexUnique(s, x, k);
  }

  lemma FirstIndexOfPrefixFree<T>(s: seq<T>, x: T)
    requires |s| > 0 && s[|s| - 1] == x && x !in s[..|s| - 1]
    ensures FirstIndex(s, x) == |s| - 1
  {
    FirstIndexUnique(s, x, |s| - 1);
  }

  lemma FirstIndexUnique<T>(s: seq<T>, x: T, k: nat)
    requires k < |s| && s[k] == x && x !in s[..k]
    ensures FirstIndex(s, x) == k
  {
  }
}
