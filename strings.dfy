/**
 * The JavaScript string operations the application relies on, stated on
 * `seq<char>`: `trim`, ASCII case folding (what a `/i` regular expression and
 * `toLowerCase` do on the ASCII patterns used here), `includes`, `indexOf`,
 * `lastIndexOf`, `split` on one character and `join`.
 */
module Strings {
  import opened Wrappers

  /** ECMAScript LineTerminator code points: what `.` in a regular expression does not match. */
  predicate IsLineTerminator(c: char)
  {
    c == '\n' || c == '\r' || c == '\U{2028}' || c == '\U{2029}'
  }

  /** ECMAScript WhiteSpace and LineTerminator code points: what `String.prototype.trim` removes. */
  predicate IsWhiteSpace(c: char)
  {
    || IsLineTerminator(c)
    || c == '\t' || c == '\U{000B}' || c == '\U{000C}' || c == ' '
    || c == '\U{00A0}' || c == '\U{FEFF}' || c == '\U{1680}'
    || ('\U{2000}' <= c <= '\U{200A}')
    || c == '\U{202F}' || c == '\U{205F}' || c == '\U{3000}'
  }

  /** True iff no character of `s` is a line terminator (the whole of `s` is one line). */
  predicate SingleLine(s: string)
  {
    forall i :: 0 <= i < |s| ==> !IsLineTerminator(s[i])
  }

  predicate Blank(s: string)
  {
    forall i :: 0 <= i < |s| ==> IsWhiteSpace(s[i])
  }

  /** Leading white space removed: the longest suffix that starts with a non-white-space character. */
  function TrimStart(s: string): (r: string)
    ensures |r| <= |s| && r == s[|s| - |r|..]
    ensures r == [] || !IsWhiteSpace(r[0])
    ensures forall i :: 0 <= i < |s| - |r| ==> IsWhiteSpace(s[i])
  {
    if |s| > 0 && IsWhiteSpace(s[0]) then TrimStart(s[1..]) else s
  }

  /** Trailing white space removed: the longest prefix that ends with a non-white-space character. */
  function TrimEnd(s: string): (r: string)
    ensures |r| <= |s| && r == s[..|r|]
    ensures r == [] || !IsWhiteSpace(r[|r| - 1])
    ensures forall i :: |r| <= i < |s| ==> IsWhiteSpace(s[i])
  {
    if |s| > 0 && IsWhiteSpace(s[|s| - 1]) then TrimEnd(s[..|s| - 1]) else s
  }

  /** `s.trim()`. */
  function Trim(s: string): (r: string)
    ensures |r| <= |s|
    ensures r == [] || (!IsWhiteSpace(r[0]) && !IsWhiteSpace(r[|r| - 1]))
    ensures r == [] <==> Blank(s)
  {
    TrimEnd(TrimStart(s))
  }

  /** Trimming is the identity on a string that neither starts nor ends with white space. */
  lemma TrimmedIsFixed(s: string)
    requires s == [] || (!IsWhiteSpace(s[0]) && !IsWhiteSpace(s[|s| - 1]))
    ensures Trim(s) == s
  {
  }

  /** Trimming is idempotent. */
  lemma TrimIdempotent(s: string)
    ensures Trim(Trim(s)) == Trim(s)
  {
    TrimmedIsFixed(Trim(s));
  }

  /** ASCII lower-casing of one character; every other character is kept. */
  function LowerChar(c: char): (r: char)
    ensures 'A' <= c <= 'Z' ==> 'a' <= r <= 'z' && r as int == c as int + 32
    ensures !('A' <= c <= 'Z') ==> r == c
  {
    if 'A' <= c <= 'Z' then (c as int + 32) as char else c
  }

  /** `s.toLowerCase()` on ASCII letters. */
  function Lower(s: string): (r: string)
    ensures |r| == |s|
    ensures forall i :: 0 <= i < |s| ==> r[i] == LowerChar(s[i])
  {
    if s == [] then [] else [LowerChar(s[0])] + Lower(s[1..])
  }

  predicate StartsWith(s: string, prefix: string)
  {
    |prefix| <= |s| && s[..|prefix|] == prefix
  }

  /**
   * `/^prefix/i` matches `s`: the first |prefix| characters of `s` equal `prefix`
   * up to ASCII case.
   */
  predicate StartsWithIgnoreCase(s: string, prefix: string)
  {
    |prefix| <= |s| && forall i :: 0 <= i < |prefix| ==> LowerChar(s[i]) == LowerChar(prefix[i])
  }

  /** `s.includes(sub)`. */
  predicate Contains(s: string, sub: string)
    decreases |s|
  {
    StartsWith(s, sub) || (|s| > 0 && Contains(s[1..], sub))
  }

  /** `sub` occurs in `s` at index `i`. */
  predicate OccursAt(s: string, sub: string, i: int)
  {
    0 <= i <= |s| - |sub| && s[i..i + |sub|] == sub
  }

  /** `includes` holds exactly when `sub` occurs at some index of `s`. */
  lemma {:induction false} ContainsIff(s: string, sub: string)
    ensures Contains(s, sub) <==> exists i :: OccursAt(s, sub, i)
    decreases |s|
  {
    if StartsWith(s, sub) {
      assert OccursAt(s, sub, 0);
    } else if |s| > 0 {
      ContainsIff(s[1..], sub);
      if Contains(s[1..], sub) {
        var i :| OccursAt(s[1..], sub, i);
        assert s[1..][i..i + |sub|] == s[i + 1..i + 1 + |sub|];
        assert OccursAt(s, sub, i + 1);
      }
      if exists i :: OccursAt(s, sub, i) {
        var i :| OccursAt(s, sub, i);
        assert i > 0;
        assert s[1..][i - 1..i - 1 + |sub|] == s[i..i + |sub|];
        assert OccursAt(s[1..], sub, i - 1);
      }
    } else {
      assert forall i :: !OccursAt(s, sub, i);
    }
  }

  /** `s.indexOf(c)`: the first position of `c`, or None for -1. */
  function IndexOf(s: string, c: char): (r: Option<nat>)
    ensures r.Some? ==> r.value < |s| && s[r.value] == c
  {
    if s == [] then None
    else if s[0] == c then Some(0)
    else match IndexOf(s[1..], c)
      case None => None
      case Some(i) => Some(i + 1)
  }

  /** `s.lastIndexOf(c)`: the last position of `c`, or None for -1. */
  function LastIndexOf(s: string, c: char): (r: Option<nat>)
    ensures r.Some? ==> r.value < |s| && s[r.value] == c
  {
    if s == [] then None
    else if s[|s| - 1] == c then Some(|s| - 1)
    else LastIndexOf(s[..|s| - 1], c)
  }

  /** `indexOf` finds nothing exactly when `c` is absent, and otherwise no `c` comes before the position it finds. */
  lemma {:induction false} IndexOfIsFirst(s: string, c: char)
    ensures IndexOf(s, c).None? <==> c !in s
    ensures IndexOf(s, c).Some? ==> forall k :: 0 <= k < IndexOf(s, c).value ==> s[k] != c
    decreases |s|
  {
    if s != [] && s[0] != c {
      IndexOfIsFirst(s[1..], c);
      assert s == [s[0]] + s[1..];
      assert forall k :: 1 <= k < |s| ==> s[k] == s[1..][k - 1];
    }
  }

  /** `lastIndexOf` finds nothing exactly when `c` is absent, and otherwise no `c` comes after the position it finds. */
  lemma {:induction false} LastIndexOfIsLast(s: string, c: char)
    ensures LastIndexOf(s, c).None? <==> c !in s
    ensures LastIndexOf(s, c).Some? ==> forall k :: LastIndexOf(s, c).value < k < |s| ==> s[k] != c
    decreases |s|
  {
    if s != [] && s[|s| - 1] != c {
      var init := s[..|s| - 1];
      LastIndexOfIsLast(init, c);
      assert s == init + [s[|s| - 1]];
      assert forall k :: 0 <= k < |s| - 1 ==> s[k] == init[k];
    }
  }

  /** The last position of `c` is the one with no `c` after it. */
  lemma {:induction false} LastIndexOfUnique(s: string, c: char, k: nat)
    requires k < |s| && s[k] == c
    requires forall m :: k < m < |s| ==> s[m] != c
    ensures LastIndexOf(s, c) == Some(k)
  {
    if k < |s| - 1 {
      assert s[|s| - 1] != c;
      LastIndexOfUnique(s[..|s| - 1], c, k);
    }
  }

  /** `s.split(sep)` for a one-character separator: never empty, no piece holds `sep`. */
  function Split(s: string, sep: char): (parts: seq<string>)
    ensures |parts| >= 1
    ensures forall k :: 0 <= k < |parts| ==> sep !in parts[k]
    decreases |s|
  {
    IndexOfIsFirst(s, sep);
    match IndexOf(s, sep)
    case None => [s]
    case Some(i) => [s[..i]] + Split(s[i + 1..], sep)
  }

  /** `parts.join(sep)`. */
  function Join(parts: seq<string>, sep: string): string
  {
    if parts == [] then []
    else if |parts| == 1 then parts[0]
    else parts[0] + sep + Join(parts[1..], sep)
  }

  /** One step of `join`: a piece put in front of a non-empty list. */
  lemma JoinPrepend(head: string, tail: seq<string>, sep: string)
    requires |tail| >= 1
    ensures Join([head] + tail, sep) == head + sep + Join(tail, sep)
  {
    var parts := [head] + tail;
    assert |parts| >= 2 && parts[0] == head && parts[1..] == tail;
  }

  /** Splitting at the first separator: the piece before it comes first, then the split of the rest. */
  lemma SplitAtFirst(s: string, sep: char, i: nat)
    requires IndexOf(s, sep) == Some(i)
    ensures Split(s, sep) == [s[..i]] + Split(s[i + 1..], sep)
  {
  }

  /** The piece before the first separator, the separator and the rest make up the whole. */
  lemma Reassemble(s: string, sep: char, i: nat)
    requires i < |s| && s[i] == sep
    ensures s[..i] + [sep] + s[i + 1..] == s
  {
    assert s[..i] + [sep] == s[..i + 1];
  }

  /** One induction step of `JoinSplit`. */
  lemma JoinSplitStep(s: string, sep: char, i: nat)
    requires IndexOf(s, sep) == Some(i)
    requires Join(Split(s[i + 1..], sep), [sep]) == s[i + 1..]
    ensures Join(Split(s, sep), [sep]) == s
  {
    var tail := Split(s[i + 1..], sep);
    SplitAtFirst(s, sep, i);
    JoinPrepend(s[..i], tail, [sep]);
    Reassemble(s, sep, i);
  }

  /** Splitting and joining with the same separator is the identity. */
  lemma {:induction false} JoinSplit(s: string, sep: char)
    ensures Join(Split(s, sep), [sep]) == s
    decreases |s|
  {
    match IndexOf(s, sep)
    case None =>
      assert Split(s, sep) == [s];
    case Some(i) =>
      JoinSplit(s[i + 1..], sep);
      JoinSplitStep(s, sep, i);
  }
}
