/** The JavaScript built-ins the assessment logic relies on, stated over Dafny values:
    the white-space class shared by `String.prototype.trim` and the regular-expression
    escape `\s`, `Math.round` of a ratio of integers, `[...new Set(xs)]`, `xs.slice(0, n)`,
    and "push this entry if its condition holds" (`Select`). */
module Js {

  datatype Option<+T> = None | Some(value: T)

  function Min(a: int, b: int): int { if a <= b then a else b }

  // ---------------------------------------------------------------------------
  // White space and trim
  // ---------------------------------------------------------------------------

  /** ECMAScript WhiteSpace and LineTerminator code points: what `\s` matches and
      what `trim` removes from both ends. */
  predicate IsWhitespace(c: char) {
    c == '\t' || c == '\n' || c == '\U{000B}' || c == '\U{000C}' || c == '\r' || c == ' '
    || c == '\U{00A0}' || c == '\U{1680}' || ('\U{2000}' <= c <= '\U{200A}')
    || c == '\U{2028}' || c == '\U{2029}' || c == '\U{202F}' || c == '\U{205F}'
    || c == '\U{3000}' || c == '\U{FEFF}'
  }

  predicate IsBlank(s: string) {
    forall i :: 0 <= i < |s| ==> IsWhitespace(s[i])
  }

  /** Drops leading white space: the result is a suffix of `s` that starts with a
      non-white-space character (or is empty), and everything dropped is white space. */
  function TrimStart(s: string): (r: string)
    ensures |r| <= |s| && r == s[|s| - |r|..]
    ensures r == [] || !IsWhitespace(r[0])
    ensures forall i :: 0 <= i < |s| - |r| ==> IsWhitespace(s[i])
  {
    if s != [] && IsWhitespace(s[0]) then TrimStart(s[1..]) else s
  }

  /** Drops trailing white space, symmetrically to TrimStart. */
  function TrimEnd(s: string): (r: string)
    ensures |r| <= |s| && r == s[..|r|]
    ensures r == [] || !IsWhitespace(r[|r| - 1])
    ensures forall i :: |r| <= i < |s| ==> IsWhitespace(s[i])
  {
    if s != [] && IsWhitespace(s[|s| - 1]) then TrimEnd(s[..|s| - 1]) else s
  }

  /** `s.trim()` */
  function Trim(s: string): string {
    TrimEnd(TrimStart(s))
  }

  /** `!s.trim()` holds exactly for the strings made only of white space (including ""). */
  lemma TrimEmptyIffBlank(s: string)
    ensures Trim(s) == "" <==> IsBlank(s)
  {
    var t := TrimStart(s);
    if Trim(s) == "" {
      assert t == [];
    } else {
      var r := Trim(s);
      assert r == t[..|r|];
      assert t[0] == s[|s| - |t|];
      assert !IsWhitespace(s[|s| - |t|]);
    }
  }

  /** `!value.trim()` as the forms compute it: true exactly for a value made only of
      white space. */
  method TrimmedIsEmpty(value: string) returns (empty: bool)
    ensures empty <==> IsBlank(value)
  {
    TrimEmptyIffBlank(value);
    empty := Trim(value) == "";
  }

  // ---------------------------------------------------------------------------
  // Math.round
  // ---------------------------------------------------------------------------

  /** `Math.round(score / max * 100)` computed in integers: floor(100*score/max + 1/2).
      The result is the integer nearest to 100*score/max, halves rounding up as
      `Math.round` does. */
  function RoundedPercent(score: int, max: int): (p: int)
    requires max > 0
    ensures 2 * max * p - max <= 200 * score < 2 * max * p + max
  {
    var a, d := 200 * score + max, 2 * max;
    assert a == d * (a / d) + a % d;
    a / d
  }

  lemma MulMonotone(a: int, b: int, c: int)
    requires a >= 0
    ensures b <= c ==> a * b <= a * c
  {
    assert a * c - a * b == a * (c - b);
  }

  /** Math.round of a ratio is monotone in the numerator. */
  lemma RoundedPercentMonotone(s: int, t: int, max: int)
    requires max > 0 && s <= t
    ensures RoundedPercent(s, max) <= RoundedPercent(t, max)
  {
    var p, q := RoundedPercent(s, max), RoundedPercent(t, max);
    assert 2 * max * p < 2 * max * (q + 1);
    MulMonotone(2 * max, q + 1, p);
  }

  // ---------------------------------------------------------------------------
  // Sequences: Set de-duplication, slice, conditional pushes
  // ---------------------------------------------------------------------------

  predicate NoDuplicates<T(==)>(s: seq<T>) {
    forall i, j :: 0 <= i < j < |s| ==> s[i] != s[j]
  }

  /** `[...new Set(s)]`: the elements of s, each once; a list without repeats comes
      back unchanged. */
  function Dedupe<T(==)>(s: seq<T>): (r: seq<T>)
    ensures NoDuplicates(r)
    ensures forall i :: 0 <= i < |r| ==> r[i] in s
    ensures forall i :: 0 <= i < |s| ==> s[i] in r
    ensures |r| <= |s|
    ensures NoDuplicates(s) ==> r == s
  {
    if s == [] then []
    else
      var d := Dedupe(s[..|s| - 1]);
      assert s == s[..|s| - 1] + [s[|s| - 1]];
      if s[|s| - 1] in d then d else d + [s[|s| - 1]]
  }

  /** `s.slice(0, n)` */
  function Take<T>(s: seq<T>, n: nat): (r: seq<T>)
    ensures |r| == Min(n, |s|)
    ensures forall i :: 0 <= i < |r| ==> r[i] == s[i]
  {
    if |s| <= n then s else s[..n]
  }

  /** The entries `x` of `rules` whose flag is set, in rule order: the list a run of
      `if (flag) list.push(x)` statements builds. */
  function Select<T>(rules: seq<(T, bool)>): seq<T> {
    if rules == [] then []
    else (if rules[0].1 then [rules[0].0] else []) + Select(rules[1..])
  }

  function Items<T>(rules: seq<(T, bool)>): (r: seq<T>)
    ensures |r| == |rules| && forall i :: 0 <= i < |rules| ==> r[i] == rules[i].0
  {
    if rules == [] then [] else [rules[0].0] + Items(rules[1..])
  }

  lemma SelectOne<T>(x: T, p: bool)
    ensures Select([(x, p)]) == if p then [x] else []
  {
    assert [(x, p)][1..] == [];
  }

  lemma SelectTwo<T>(x: T, p: bool, y: T, q: bool)
    ensures Select([(x, p), (y, q)]) == (if p then [x] else []) + (if q then [y] else [])
  {
    var pair, single := [(x, p), (y, q)], [(y, q)];
    assert pair[1..] == single && single[1..] == [];
    assert Select(single) == (if q then [y] else []) + Select([]);
    assert Select(pair) == (if p then [x] else []) + Select(single);
  }

  /** `r` can be obtained from `s` by deleting elements (greedy matching). */
  predicate IsSubsequence<T(==)>(r: seq<T>, s: seq<T>)
    decreases |s|
  {
    r == [] || (s != [] && if r[0] == s[0] then IsSubsequence(r[1..], s[1..]) else IsSubsequence(r, s[1..]))
  }

  lemma {:induction false} SelectAppend<T>(a: seq<(T, bool)>, b: seq<(T, bool)>)
    ensures Select(a + b) == Select(a) + Select(b)
  {
    if a != [] {
      var head := if a[0].1 then [a[0].0] else [];
      assert (a + b)[0] == a[0];
      assert (a + b)[1..] == a[1..] + b;
      SelectAppend(a[1..], b);
      calc {
        Select(a + b);
        head + Select(a[1..] + b);
        head + (Select(a[1..]) + Select(b));
        (head + Select(a[1..])) + Select(b);
        Select(a) + Select(b);
      }
    } else {
      assert a + b == b;
    }
  }

  /** Every pushed entry is one of the items. */
  lemma {:induction false} SelectWithinItems<T>(rules: seq<(T, bool)>, x: T)
    requires x in Select(rules)
    ensures x in Items(rules)
  {
    assert rules != [];
    if x != rules[0].0 {
      SelectWithinItems(rules[1..], x);
      assert Items(rules) == [rules[0].0] + Items(rules[1..]);
    }
  }

  /** With pairwise different items, the first item does not occur among the rest. */
  lemma HeadNotInTail<T>(rules: seq<(T, bool)>)
    requires rules != [] && NoDuplicates(Items(rules))
    ensures NoDuplicates(Items(rules[1..]))
    ensures rules[0].0 !in Items(rules[1..])
  {
    var tail := rules[1..];
    forall k | 0 <= k < |tail| ensures Items(tail)[k] != rules[0].0 {
      assert Items(tail)[k] == Items(rules)[k + 1];
    }
    forall k, m | 0 <= k < m < |tail| ensures Items(tail)[k] != Items(tail)[m] {
      assert Items(tail)[k] == Items(rules)[k + 1] && Items(tail)[m] == Items(rules)[m + 1];
    }
  }

  /** With pairwise different items, item i is in the result exactly when flag i is set. */
  lemma {:induction false} SelectMember<T>(rules: seq<(T, bool)>, i: nat)
    requires NoDuplicates(Items(rules)) && i < |rules|
    ensures rules[i].0 in Select(rules) <==> rules[i].1
  {
    var tail := rules[1..];
    HeadNotInTail(rules);
    if i == 0 {
      if rules[0].0 in Select(tail) {
        SelectWithinItems(tail, rules[0].0);
      }
    } else {
      assert rules[i] == tail[i - 1];
      SelectMember(tail, i - 1);
      assert Items(rules)[0] != Items(rules)[i];
    }
  }

  /** The pushed entries keep rule order and never repeat when the items are distinct. */
  lemma {:induction false} SelectOrdered<T>(rules: seq<(T, bool)>)
    requires NoDuplicates(Items(rules))
    ensures IsSubsequence(Select(rules), Items(rules))
    ensures NoDuplicates(Select(rules))
  {
    if rules != [] {
      var tail := rules[1..];
      HeadNotInTail(rules);
      SelectOrdered(tail);
      assert Items(rules) == [rules[0].0] + Items(tail);
      assert rules[0].0 !in Select(tail) by {
        if rules[0].0 in Select(tail) {
          SelectWithinItems(tail, rules[0].0);
        }
      }
      if rules[0].1 {
        assert Select(rules) == [rules[0].0] + Select(tail);
        assert Select(rules)[1..] == Select(tail);
      } else {
        assert Select(rules) == Select(tail);
        SubsequenceSkip(Select(tail), Items(tail), rules[0].0);
      }
    }
  }

  /** A subsequence of s that avoids x is a subsequence of [x] + s. */
  lemma SubsequenceSkip<T>(r: seq<T>, s: seq<T>, x: T)
    requires IsSubsequence(r, s) && x !in r
    ensures IsSubsequence(r, [x] + s)
  {
    assert ([x] + s)[1..] == s;
  }
}
