/**
  The string operations the core relies on, as Ruby and ActiveSupport define them:
  `Array#join`, `String#<=>` with `Array#sort`, and `String#blank?`.
  `SplitOn` is not used by the core: it is the inverse that the round-trip lemmas
  use to show that a joined string still determines its parts.
 */
module Strings {
  import opened Wrappers

  // ---------------------------------------------------------------- join / split

  /** `parts.join(sep)`: the parts in order with `sep` between neighbours; "" when there are none. */
  function Join(parts: seq<string>, sep: string): string
  {
    if |parts| == 0 then ""
    else if |parts| == 1 then parts[0]
    else parts[0] + sep + Join(parts[1..], sep)
  }

  predicate StartsWith(s: string, prefix: string)
  {
    |prefix| <= |s| && s[..|prefix|] == prefix
  }

  /** The first position at or after `k` where `sep` occurs in `s`. */
  function IndexFrom(s: string, sep: string, k: nat): (r: Option<nat>)
    requires k <= |s|
    decreases |s| - k
    ensures r.Some? ==> k <= r.value <= |s| && StartsWith(s[r.value..], sep)
    ensures r.Some? ==> forall j :: k <= j < r.value ==> !StartsWith(s[j..], sep)
    ensures r.None? ==> forall j :: k <= j <= |s| ==> !StartsWith(s[j..], sep)
  {
    if StartsWith(s[k..], sep) then Some(k)
    else if k == |s| then None
    else IndexFrom(s, sep, k + 1)
  }

  /** Cuts `s` at every occurrence of `sep`, left to right; the pieces in order. */
  function SplitOn(s: string, sep: string): (r: seq<string>)
    requires |sep| > 0
    decreases |s|
    ensures |r| > 0
  {
    match IndexFrom(s, sep, 0)
    case None => [s]
    case Some(i) => [s[..i]] + SplitOn(s[i + |sep|..], sep)
  }

  /** A string without the separator's first character holds no occurrence of the separator. */
  lemma NoSeparatorIn(x: string, sep: string)
    requires |sep| > 0 && sep[0] !in x
    ensures IndexFrom(x, sep, 0) == None
  {
    forall j | 0 <= j <= |x|
      ensures !StartsWith(x[j..], sep)
    {
      if j < |x| {
        assert x[j..][0] == x[j];
      }
    }
  }

  /** In `x + sep + rest`, when `x` lacks the separator's first character, the first
      occurrence of the separator is the one right after `x`. */
  lemma SeparatorAfter(x: string, sep: string, rest: string)
    requires |sep| > 0 && sep[0] !in x
    ensures IndexFrom(x + sep + rest, sep, 0) == Some(|x|)
  {
    var s := x + sep + rest;
    assert s[|x|..][..|sep|] == sep;
    forall j | 0 <= j < |x|
      ensures !StartsWith(s[j..], sep)
    {
      assert s[j..][0] == x[j];
    }
  }

  /** Joining and then cutting at the separator gives the parts back, when no part holds
      the separator's first character (a single empty part and no parts both join to "",
      so the list must be non-empty). */
  lemma {:induction false} SplitJoin(parts: seq<string>, sep: string)
    requires |sep| > 0 && |parts| > 0
    requires forall p :: p in parts ==> sep[0] !in p
    ensures SplitOn(Join(parts, sep), sep) == parts
  {
    if |parts| == 1 {
      NoSeparatorIn(parts[0], sep);
    } else {
      var x, rest := parts[0], Join(parts[1..], sep);
      var s := x + sep + rest;
      SeparatorAfter(x, sep, rest);
      assert s[..|x|] == x;
      assert s[|x| + |sep|..] == rest;
      SplitJoin(parts[1..], sep);
      assert parts == [x] + parts[1..];
    }
  }

  /** Two or more parts joined with a separator that holds `c` contain `c`. */
  lemma JoinContains(parts: seq<string>, sep: string, c: char)
    requires |parts| >= 2 && c in sep
    ensures c in Join(parts, sep)
  {
    var s := Join(parts, sep);
    assert s == parts[0] + sep + Join(parts[1..], sep);
    var k :| 0 <= k < |sep| && sep[k] == c;
    assert s[|parts[0]| + k] == c;
  }

  // ---------------------------------------------------------------- String#<=> and sort

  /** `a <= b` under `String#<=>`: code point by code point, a proper prefix first.
      (Comparing code points orders strings as comparing their UTF-8 bytes does.) */
  predicate LessEq(a: string, b: string)
  {
    |a| == 0 || (|b| > 0 && (a[0] < b[0] || (a[0] == b[0] && LessEq(a[1..], b[1..]))))
  }

  lemma {:induction false} LessEqTotal(a: string, b: string)
    ensures LessEq(a, b) || LessEq(b, a)
  {
    if |a| > 0 && |b| > 0 && a[0] == b[0] {
      LessEqTotal(a[1..], b[1..]);
    }
  }

  lemma {:induction false} LessEqAntisymmetric(a: string, b: string)
    requires LessEq(a, b) && LessEq(b, a)
    ensures a == b
  {
    if |a| > 0 && |b| > 0 {
      LessEqAntisymmetric(a[1..], b[1..]);
      assert a == [a[0]] + a[1..] && b == [b[0]] + b[1..];
    }
  }

  lemma {:induction false} LessEqTransitive(a: string, b: string, c: string)
    requires LessEq(a, b) && LessEq(b, c)
    ensures LessEq(a, c)
  {
    if |a| > 0 && a[0] == b[0] && b[0] == c[0] {
      LessEqTransitive(a[1..], b[1..], c[1..]);
    }
  }

  /** Ascending: each string is `<=` its successor. */
  predicate Sorted(s: seq<string>)
  {
    forall i :: 0 < i < |s| ==> LessEq(s[i - 1], s[i])
  }

  function Insert(x: string, s: seq<string>): (r: seq<string>)
    requires Sorted(s)
    ensures Sorted(r)
    ensures multiset(r) == multiset(s) + multiset{x}
    ensures r[0] == x || (|s| > 0 && r[0] == s[0])
  {
    if s == [] || LessEq(x, s[0]) then [x] + s
    else
      LessEqTotal(x, s[0]);
      var tail := Insert(x, s[1..]);
      assert s == [s[0]] + s[1..];
      [s[0]] + tail
  }

  /** `Array#sort` of strings: an ascending permutation of its input. */
  function Sort(s: seq<string>): (r: seq<string>)
    ensures Sorted(r)
    ensures multiset(r) == multiset(s)
    ensures |r| == |s|
  {
    if s == [] then []
    else
      assert s == [s[0]] + s[1..];
      var r := Insert(s[0], Sort(s[1..]));
      assert |r| == |multiset(r)|;
      r
  }

  /** Any two positions of a sorted sequence are in order, not only neighbours. */
  lemma {:induction false} SortedInOrder(s: seq<string>, i: nat, j: nat)
    requires Sorted(s) && i <= j < |s|
    ensures LessEq(s[i], s[j])
    decreases j - i
  {
    if i == j {
      LessEqReflexive(s[i]);
    } else {
      SortedInOrder(s, i, j - 1);
      LessEqTransitive(s[i], s[j - 1], s[j]);
    }
  }

  lemma {:induction false} LessEqReflexive(a: string)
    ensures LessEq(a, a)
  {
    if |a| > 0 {
      LessEqReflexive(a[1..]);
    }
  }

  /** The first string of a sorted sequence is `<=` every string in it. */
  lemma SortedHeadIsLeast(s: seq<string>, x: string)
    requires Sorted(s) && x in s
    ensures LessEq(s[0], x)
  {
    var i :| 0 <= i < |s| && s[i] == x;
    SortedInOrder(s, 0, i);
  }

  lemma TailMultiset(s: seq<string>)
    requires s != []
    ensures multiset(s[1..]) == multiset(s) - multiset{s[0]}
  {
    assert s == [s[0]] + s[1..];
  }

  /** There is only one ascending arrangement of a multiset of strings, so `Sort`
      agrees with every other correct sort. */
  lemma {:induction false} SortedPermutationIsUnique(a: seq<string>, b: seq<string>)
    requires Sorted(a) && Sorted(b) && multiset(a) == multiset(b)
    ensures a == b
  {
    assert |a| == |multiset(a)| == |multiset(b)| == |b|;
    if a != [] {
      assert a[0] in multiset(b) && b[0] in multiset(a);
      SortedHeadIsLeast(b, a[0]);
      SortedHeadIsLeast(a, b[0]);
      LessEqAntisymmetric(a[0], b[0]);
      TailMultiset(a);
      TailMultiset(b);
      SortedPermutationIsUnique(a[1..], b[1..]);
      assert a == [a[0]] + a[1..] && b == [b[0]] + b[1..];
    }
  }

  // ---------------------------------------------------------------- String#blank?

  /** `[[:space:]]` on a Unicode string: the characters with the White_Space property. */
  predicate IsSpace(c: char)
  {
    || c == ' ' || ('\t' <= c <= '\r')
    || c == '\U{85}' || c == '\U{A0}' || c == '\U{1680}'
    || ('\U{2000}' <= c <= '\U{200A}')
    || c == '\U{2028}' || c == '\U{2029}' || c == '\U{202F}' || c == '\U{205F}' || c == '\U{3000}'
  }

  /** ActiveSupport's `String#blank?`: empty or white space only. */
  predicate Blank(s: string)
  {
    forall i :: 0 <= i < |s| ==> IsSpace(s[i])
  }
}
