/** The few .NET string operations the provider relies on: null/blank tests,
    prefix tests, case-insensitive equality, the ordering used to sort
    technology names, and string.Join. */
module Strings {
  import opened Wrappers

  /** char.IsWhiteSpace: the Unicode space separators, line and paragraph
      separators, and the control characters U+0009..U+000D and U+0085. */
  predicate IsWhiteSpace(c: char) {
    || ('\t' <= c <= '\r')
    || c == ' ' || c == '\U{0085}' || c == '\U{00A0}' || c == '\U{1680}'
    || ('\U{2000}' <= c <= '\U{200A}')
    || c == '\U{2028}' || c == '\U{2029}' || c == '\U{202F}' || c == '\U{205F}' || c == '\U{3000}'
  }

  /** string.IsNullOrEmpty */
  predicate IsNullOrEmpty(s: Option<string>) {
    s.None? || s.value == ""
  }

  /** string.IsNullOrWhiteSpace */
  predicate IsNullOrWhiteSpace(s: Option<string>) {
    s.None? || forall i :: 0 <= i < |s.value| ==> IsWhiteSpace(s.value[i])
  }

  /** string.StartsWith for an ASCII prefix */
  predicate StartsWith(s: string, prefix: string) {
    |prefix| <= |s| && s[..|prefix|] == prefix
  }

  function ToUpperAscii(c: char): char {
    if 'a' <= c <= 'z' then (c as int - 32) as char else c
  }

  /** string.Equals(a, b, InvariantCultureIgnoreCase), with case folding
      restricted to the ASCII letters. */
  predicate EqualsIgnoreCase(a: string, b: string) {
    |a| == |b| && forall i :: 0 <= i < |a| ==> ToUpperAscii(a[i]) == ToUpperAscii(b[i])
  }

  /** Ordinal lexicographic order, the order OrderBy(t => t) sorts by. */
  predicate LessEq(a: string, b: string)
    decreases |a|
  {
    if a == [] then true
    else if b == [] then false
    else if a[0] != b[0] then a[0] < b[0]
    else LessEq(a[1..], b[1..])
  }

  lemma {:induction false} LessEqTotal(a: string, b: string)
    ensures LessEq(a, b) || LessEq(b, a)
    decreases |a|
  {
    if a != [] && b != [] && a[0] == b[0] {
      LessEqTotal(a[1..], b[1..]);
    }
  }

  lemma {:induction false} LessEqTransitive(a: string, b: string, c: string)
    requires LessEq(a, b) && LessEq(b, c)
    ensures LessEq(a, c)
    decreases |a|
  {
    if a != [] && a[0] == b[0] && b[0] == c[0] {
      LessEqTransitive(a[1..], b[1..], c[1..]);
    }
  }

  ghost predicate Sorted(s: seq<string>) {
    forall i, j :: 0 <= i < j < |s| ==> LessEq(s[i], s[j])
  }

  /** Every element of t is at least h, when t holds x and the elements of s. */
  lemma LowerBoundOfPermutation(h: string, x: string, s: seq<string>, t: seq<string>)
    requires multiset(t) == multiset(s) + multiset{x}
    requires LessEq(h, x)
    requires forall j :: 0 <= j < |s| ==> LessEq(h, s[j])
    ensures forall k :: 0 <= k < |t| ==> LessEq(h, t[k])
  {
    forall k | 0 <= k < |t|
      ensures LessEq(h, t[k])
    {
      assert t[k] in multiset(t);
      if t[k] != x {
        assert t[k] in multiset(s);
        var j :| 0 <= j < |s| && s[j] == t[k];
      }
    }
  }

  /** Inserts x before the first element it does not follow. */
  function Insert(x: string, s: seq<string>): seq<string> {
    if s == [] then [x]
    else if LessEq(x, s[0]) then [x] + s
    else [s[0]] + Insert(x, s[1..])
  }

  /** OrderBy(t => t) by insertion. */
  function Sort(s: seq<string>): seq<string> {
    if s == [] then [] else Insert(s[0], Sort(s[1..]))
  }

  /** Prepending an element no greater than any other keeps a list sorted. */
  lemma PrependSorted(x: string, s: seq<string>)
    requires Sorted(s)
    requires forall j :: 0 <= j < |s| ==> LessEq(x, s[j])
    ensures Sorted([x] + s)
  {
    forall i, j | 0 <= i < j < |[x] + s|
      ensures LessEq(([x] + s)[i], ([x] + s)[j])
    {
      assert ([x] + s)[j] == s[j - 1];
      if i > 0 { assert ([x] + s)[i] == s[i - 1]; }
    }
  }

  /** Insertion adds exactly x, whatever the order of s. */
  lemma {:induction false} InsertMultiset(x: string, s: seq<string>)
    ensures multiset(Insert(x, s)) == multiset(s) + multiset{x}
    decreases |s|
  {
    if s != [] && !LessEq(x, s[0]) {
      InsertMultiset(x, s[1..]);
      assert s == [s[0]] + s[1..];
    }
  }

  /** Inserting into a sorted list keeps it sorted. */
  lemma {:induction false} InsertSorted(x: string, s: seq<string>)
    requires Sorted(s)
    ensures Sorted(Insert(x, s))
    decreases |s|
  {
    if s == [] {
    } else if LessEq(x, s[0]) {
      forall j | 0 <= j < |s| ensures LessEq(x, s[j]) {
        if j > 0 { LessEqTransitive(x, s[0], s[j]); }
      }
      PrependSorted(x, s);
    } else {
      var tail := s[1..];
      assert Sorted(tail) by {
        forall i, j | 0 <= i < j < |tail| ensures LessEq(tail[i], tail[j]) {
          assert tail[i] == s[i + 1] && tail[j] == s[j + 1];
        }
      }
      InsertSorted(x, tail);
      InsertAfterHead(x, s);
    }
  }

  /** When x follows the head of s, the head stays first and bounds the rest. */
  lemma InsertAfterHead(x: string, s: seq<string>)
    requires Sorted(s) && s != [] && !LessEq(x, s[0])
    requires Sorted(Insert(x, s[1..]))
    ensures Sorted(Insert(x, s))
  {
    LessEqTotal(x, s[0]);
    var tail := s[1..];
    var t := Insert(x, tail);
    assert forall j :: 0 <= j < |tail| ==> LessEq(s[0], tail[j]) by {
      forall j | 0 <= j < |tail| ensures LessEq(s[0], tail[j]) {
        assert tail[j] == s[j + 1];
      }
    }
    InsertMultiset(x, tail);
    LowerBoundOfPermutation(s[0], x, tail, t);
    PrependSorted(s[0], t);
  }

  /** The sort yields a sorted permutation: every duplicate is kept. */
  lemma {:induction false} SortSorted(s: seq<string>)
    ensures Sorted(Sort(s))
    ensures multiset(Sort(s)) == multiset(s)
    decreases |s|
  {
    if s != [] {
      SortSorted(s[1..]);
      InsertSorted(s[0], Sort(s[1..]));
      InsertMultiset(s[0], Sort(s[1..]));
      assert s == [s[0]] + s[1..];
    }
  }

  /** string.Join(sep, parts) */
  function Join(sep: string, parts: seq<string>): string {
    if parts == [] then ""
    else if |parts| == 1 then parts[0]
    else parts[0] + sep + Join(sep, parts[1..])
  }
}
