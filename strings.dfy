/** The JavaScript string operations the core relies on: `toLowerCase`,
    `includes`, `trim` and `split` with a one-character separator. */
module Strings {

  // ---------------------------------------------------------------------------
  // Case folding

  /** `toLowerCase` on one character, restricted to the ASCII letters. */
  function LowerChar(c: char): char {
    if 'A' <= c <= 'Z' then (c as int + 32) as char else c
  }

  function Lower(s: string): (r: string)
    ensures |r| == |s|
    ensures forall i :: 0 <= i < |s| ==> r[i] == LowerChar(s[i])
  {
    if s == [] then [] else [LowerChar(s[0])] + Lower(s[1..])
  }

  /** `a.toLowerCase() === b.toLowerCase()`. */
  predicate SameIgnoringCase(a: string, b: string) {
    Lower(a) == Lower(b)
  }

  /** `xs.map(c => c.toLowerCase())`. */
  function LowerAll(xs: seq<string>): (r: seq<string>)
    ensures |r| == |xs|
    ensures forall i :: 0 <= i < |xs| ==> r[i] == Lower(xs[i])
  {
    if xs == [] then [] else [Lower(xs[0])] + LowerAll(xs[1..])
  }

  /** Membership in the lower-cased list is a case-insensitive match against the original list. */
  lemma LowerAllMembership(xs: seq<string>, s: string)
    ensures Lower(s) in LowerAll(xs) <==> exists i :: 0 <= i < |xs| && SameIgnoringCase(xs[i], s)
  {
    var l := LowerAll(xs);
    if Lower(s) in l {
      var i :| 0 <= i < |l| && l[i] == Lower(s);
      assert SameIgnoringCase(xs[i], s);
    }
  }

  // ---------------------------------------------------------------------------
  // Substrings

  /** `t` occurs in `s` at some position. */
  ghost predicate HasSubstring(s: string, t: string) {
    exists i :: 0 <= i && OccursAt(s, t, i)
  }

  ghost predicate OccursAt(s: string, t: string, i: nat) {
    i + |t| <= |s| && s[i..i + |t|] == t
  }

  /** `s.includes(t)`. */
  function Includes(s: string, t: string): (b: bool)
    ensures b <==> HasSubstring(s, t)
    decreases |s|
  {
    if |t| > |s| then false
    else if s[..|t|] == t then
      assert OccursAt(s, t, 0);
      true
    else
      var b := Includes(s[1..], t);
      SubstringShift(s, t);
      b
  }

  /** When `t` is not a prefix of `s`, it occurs in `s` iff it occurs in `s[1..]`. */
  lemma SubstringShift(s: string, t: string)
    requires |t| <= |s| && s[..|t|] != t
    ensures HasSubstring(s, t) <==> HasSubstring(s[1..], t)
  {
    if HasSubstring(s[1..], t) {
      var i :| 0 <= i && OccursAt(s[1..], t, i);
      assert s[1..][i..i + |t|] == s[i + 1..i + 1 + |t|];
      assert OccursAt(s, t, i + 1);
    }
    if HasSubstring(s, t) {
      var i :| 0 <= i && OccursAt(s, t, i);
      assert i != 0;
      assert s[1..][i - 1..i - 1 + |t|] == s[i..i + |t|];
      assert OccursAt(s[1..], t, i - 1);
    }
  }

  /** A string occurs in any text it is written into. */
  lemma InfixOccurs(pre: string, t: string, post: string)
    ensures HasSubstring(pre + t + post, t)
  {
    var s := pre + t + post;
    assert s[|pre|..|pre| + |t|] == t;
    assert OccursAt(s, t, |pre|);
  }

  /** A string with a character missing from `s` does not occur in `s`. */
  lemma MissingCharNoSubstring(s: string, t: string, k: nat)
    requires k < |t| && t[k] !in s
    ensures !HasSubstring(s, t)
  {
    forall i | 0 <= i && i + |t| <= |s|
      ensures !OccursAt(s, t, i)
    {
      assert s[i..i + |t|][k] == s[i + k];
    }
  }

  // ---------------------------------------------------------------------------
  // Trimming

  /** The characters `String.prototype.trim` removes: the ECMAScript WhiteSpace
      and LineTerminator code points. */
  predicate IsWhitespace(c: char) {
    || c == ' ' || c == '\t' || c == '\n' || c == '\r'
    || c == '\U{B}' || c == '\U{C}' || c == '\U{A0}' || c == '\U{1680}'
    || ('\U{2000}' <= c <= '\U{200A}')
    || c == '\U{2028}' || c == '\U{2029}' || c == '\U{202F}' || c == '\U{205F}'
    || c == '\U{3000}' || c == '\U{FEFF}'
  }

  ghost predicate AllWhitespace(s: string) {
    forall i :: 0 <= i < |s| ==> IsWhitespace(s[i])
  }

  /** The number of whitespace characters `s` starts with. */
  function LeadingSpace(s: string): (n: nat)
    ensures n <= |s|
    ensures forall i :: 0 <= i < n ==> IsWhitespace(s[i])
    ensures n < |s| ==> !IsWhitespace(s[n])
  {
    if |s| > 0 && IsWhitespace(s[0]) then
      var m := LeadingSpace(s[1..]);
      assert forall i :: 1 <= i < 1 + m ==> s[i] == s[1..][i - 1];
      1 + m
    else 0
  }

  /** The number of whitespace characters `s` ends with. */
  function TrailingSpace(s: string): (n: nat)
    ensures n <= |s|
    ensures forall i :: |s| - n <= i < |s| ==> IsWhitespace(s[i])
    ensures n < |s| ==> !IsWhitespace(s[|s| - n - 1])
  {
    if |s| > 0 && IsWhitespace(s[|s| - 1]) then
      var m := TrailingSpace(s[..|s| - 1]);
      assert forall i :: |s| - 1 - m <= i < |s| - 1 ==> s[i] == s[..|s| - 1][i];
      1 + m
    else 0
  }

  /** A whitespace prefix followed by a non-whitespace character (or nothing) is the
      whole leading whitespace. */
  lemma LeadingSpaceUnique(s: string, n: nat)
    requires n <= |s|
    requires forall i :: 0 <= i < n ==> IsWhitespace(s[i])
    requires n < |s| ==> !IsWhitespace(s[n])
    ensures LeadingSpace(s) == n
  {
  }

  /** The mirror image of `LeadingSpaceUnique`. */
  lemma TrailingSpaceUnique(s: string, n: nat)
    requires n <= |s|
    requires forall i :: |s| - n <= i < |s| ==> IsWhitespace(s[i])
    requires n < |s| ==> !IsWhitespace(s[|s| - n - 1])
    ensures TrailingSpace(s) == n
  {
  }

  /** `s.trimStart()`. */
  function TrimStart(s: string): (r: string)
    ensures r == [] || !IsWhitespace(r[0])
  {
    s[LeadingSpace(s)..]
  }

  /** `s.trimEnd()`. */
  function TrimEnd(s: string): (r: string)
    ensures r == [] || !IsWhitespace(r[|r| - 1])
  {
    s[..|s| - TrailingSpace(s)]
  }

  /** `s.trim()`: the longest infix of `s` that neither starts nor ends with whitespace,
      and the empty string exactly when `s` is all whitespace. */
  function Trim(s: string): (r: string)
    ensures |r| <= |s|
    ensures r == [] || (!IsWhitespace(r[0]) && !IsWhitespace(r[|r| - 1]))
    ensures r == [] <==> AllWhitespace(s)
  {
    var t := TrimStart(s);
    TrimEmptyWhenAllWhitespace(s);
    TrimEnd(t)
  }

  lemma TrimEmptyWhenAllWhitespace(s: string)
    ensures TrimEnd(TrimStart(s)) == [] <==> AllWhitespace(s)
  {
  }

  /** Trimming removes exactly the whitespace around a string that neither starts nor
      ends with whitespace. */
  lemma TrimPadded(pre: string, s: string, post: string)
    requires AllWhitespace(pre) && AllWhitespace(post)
    requires s == [] || (!IsWhitespace(s[0]) && !IsWhitespace(s[|s| - 1]))
    ensures Trim(pre + s + post) == s
  {
    var whole := pre + s + post;
    if s == [] {
      assert AllWhitespace(whole) by {
        assert whole == pre + post;
        forall i | 0 <= i < |whole| ensures IsWhitespace(whole[i]) {
          if i < |pre| { assert whole[i] == pre[i]; } else { assert whole[i] == post[i - |pre|]; }
        }
      }
      TrimEmptyWhenAllWhitespace(whole);
    } else {
      assert whole == pre + (s + post);
      TrimStartPadded(pre, s + post);
      TrimEndPadded(s, post);
    }
  }

  lemma TrimStartPadded(pre: string, s: string)
    requires AllWhitespace(pre)
    requires s == [] || !IsWhitespace(s[0])
    ensures TrimStart(pre + s) == s
  {
    var w := pre + s;
    forall i | 0 <= i < |pre| ensures IsWhitespace(w[i]) {
      assert w[i] == pre[i];
    }
    if |pre| < |w| {
      assert w[|pre|] == s[0];
    }
    LeadingSpaceUnique(w, |pre|);
    assert w[|pre|..] == s;
  }

  lemma TrimEndPadded(s: string, post: string)
    requires AllWhitespace(post)
    requires s == [] || !IsWhitespace(s[|s| - 1])
    ensures TrimEnd(s + post) == s
  {
    var w := s + post;
    forall i | |w| - |post| <= i < |w| ensures IsWhitespace(w[i]) {
      assert w[i] == post[i - |s|];
    }
    if |post| < |w| {
      assert w[|w| - |post| - 1] == s[|s| - 1];
    }
    TrailingSpaceUnique(w, |post|);
    assert w[..|s|] == s;
  }

  // ---------------------------------------------------------------------------
  // Splitting

  function Occurrences(s: string, c: char): nat {
    if s == [] then 0 else (if s[0] == c then 1 else 0) + Occurrences(s[1..], c)
  }

  /** `s.split(sep)`: one more piece than there are separators. */
  function Split(s: string, sep: char): (parts: seq<string>)
    ensures |parts| == Occurrences(s, sep) + 1
  {
    if s == [] then [""]
    else
      var rest := Split(s[1..], sep);
      if s[0] == sep then [""] + rest
      else [[s[0]] + rest[0]] + rest[1..]
  }

  /** No piece contains the separator. */
  lemma {:induction false} SplitPiecesFree(s: string, sep: char)
    ensures forall i :: 0 <= i < |Split(s, sep)| ==> sep !in Split(s, sep)[i]
  {
    if s != [] {
      var rest, parts := Split(s[1..], sep), Split(s, sep);
      SplitPiecesFree(s[1..], sep);
      if s[0] == sep {
        assert parts == [""] + rest;
        forall i | 1 <= i < |parts| ensures sep !in parts[i] {
          assert parts[i] == rest[i - 1];
        }
      } else {
        assert parts == [[s[0]] + rest[0]] + rest[1..];
        forall i | 1 <= i < |parts| ensures sep !in parts[i] {
          assert parts[i] == rest[i];
        }
      }
    }
  }

  /** `parts.join(sep)`. */
  function Join(parts: seq<string>, sep: char): string
    requires |parts| > 0
  {
    if |parts| == 1 then parts[0] else parts[0] + [sep] + Join(parts[1..], sep)
  }

  /** Splitting loses nothing: joining the pieces with the separator gives the input back. */
  lemma {:induction false} JoinSplit(s: string, sep: char)
    ensures Join(Split(s, sep), sep) == s
  {
    if s != [] {
      var rest := Split(s[1..], sep);
      JoinSplit(s[1..], sep);
      if s[0] == sep {
        assert Split(s, sep) == [""] + rest;
        assert Split(s, sep)[1..] == rest;
      } else {
        var parts := Split(s, sep);
        assert parts == [[s[0]] + rest[0]] + rest[1..];
        if |rest| == 1 {
          assert Join(parts, sep) == [s[0]] + rest[0];
        } else {
          assert parts[1..] == rest[1..];
          assert Join(rest, sep) == rest[0] + [sep] + Join(rest[1..], sep);
        }
      }
    }
  }
}
