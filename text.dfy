/** The character classes and string operations the editor relies on:
    the JavaScript regular-expression classes `\w` and `\s`,
    `String.prototype.toLowerCase`, `String.prototype.includes`,
    `lastIndexOf`, and the anchored runs `/[\w]+$/` and `/\s*$/`. */
module Text {

  /** `\w`: ASCII letters, digits and underscore. */
  predicate IsWordChar(c: char)
  {
    ('a' <= c <= 'z') || ('A' <= c <= 'Z') || ('0' <= c <= '9') || c == '_'
  }

  /** `\s`: the white-space and line-terminator characters of ECMAScript. */
  predicate IsSpace(c: char)
  {
    c == ' ' || c == '\t' || c == '\n' || c == '\r' || c == '\U{000B}' || c == '\U{000C}'
    || c == '\U{00A0}' || c == '\U{1680}' || ('\U{2000}' <= c <= '\U{200A}')
    || c == '\U{2028}' || c == '\U{2029}' || c == '\U{202F}' || c == '\U{205F}'
    || c == '\U{3000}' || c == '\U{FEFF}'
  }

  function LowerChar(c: char): char
  {
    if 'A' <= c <= 'Z' then (c as int + 32) as char else c
  }

  /** `toLowerCase`, on the ASCII letters. */
  function Lower(s: string): (r: string)
    ensures |r| == |s|
    ensures forall i :: 0 <= i < |s| ==> r[i] == LowerChar(s[i])
  {
    seq(|s|, i requires 0 <= i < |s| => LowerChar(s[i]))
  }

  predicate IsPrefix(p: string, s: string)
  {
    |p| <= |s| && s[..|p|] == p
  }

  /** `haystack.includes(needle)`. */
  predicate Contains(haystack: string, needle: string)
    decreases |haystack|
  {
    IsPrefix(needle, haystack) || (haystack != [] && Contains(haystack[1..], needle))
  }

  /** `needle` occurs in `haystack` starting at offset `i`. */
  predicate OccursAt(haystack: string, needle: string, i: int)
  {
    0 <= i <= |haystack| - |needle| && haystack[i..i + |needle|] == needle
  }

  /** `Contains` holds exactly when the needle occurs at some offset. */
  lemma {:induction false} ContainsAt(haystack: string, needle: string)
    ensures Contains(haystack, needle) <==> exists i :: OccursAt(haystack, needle, i)
  {
    if haystack != [] {
      var tail := haystack[1..];
      ContainsAt(tail, needle);
      if IsPrefix(needle, haystack) {
        assert OccursAt(haystack, needle, 0);
      }
      if Contains(tail, needle) {
        var i :| OccursAt(tail, needle, i);
        assert haystack[i + 1..i + 1 + |needle|] == tail[i..i + |needle|];
        assert OccursAt(haystack, needle, i + 1);
      }
      if i :| OccursAt(haystack, needle, i) {
        if i > 0 {
          assert tail[i - 1..i - 1 + |needle|] == haystack[i..i + |needle|];
          assert OccursAt(tail, needle, i - 1);
        } else {
          assert IsPrefix(needle, haystack);
        }
      }
    } else if needle == [] {
      assert OccursAt(haystack, needle, 0);
    }
  }

  predicate AllWordChars(s: string)
  {
    forall i :: 0 <= i < |s| ==> IsWordChar(s[i])
  }

  /** The match of `/[\w]+$/`, or the empty string when there is none:
      the longest suffix of `s` made of word characters. */
  function TrailingWord(s: string): (w: string)
    ensures |w| <= |s| && w == s[|s| - |w|..]
    ensures AllWordChars(w)
    ensures |w| < |s| ==> !IsWordChar(s[|s| - |w| - 1])
  {
    if s != [] && IsWordChar(s[|s| - 1]) then TrailingWord(s[..|s| - 1]) + [s[|s| - 1]] else []
  }

  /** The three properties in `TrailingWord`'s contract determine it. */
  lemma TrailingWordUnique(s: string, w: string)
    requires |w| <= |s| && w == s[|s| - |w|..] && AllWordChars(w)
    requires |w| < |s| ==> !IsWordChar(s[|s| - |w| - 1])
    ensures TrailingWord(s) == w
  {
  }

  /** `s` without the run that `/\s*$/` matches. */
  function TrimEnd(s: string): (t: string)
    ensures |t| <= |s| && t == s[..|t|]
    ensures forall i :: |t| <= i < |s| ==> IsSpace(s[i])
    ensures t == [] || !IsSpace(t[|t| - 1])
  {
    if s != [] && IsSpace(s[|s| - 1]) then TrimEnd(s[..|s| - 1]) else s
  }

  /** `s.lastIndexOf(c)`: -1 when `c` does not occur. */
  function LastIndexOf(s: string, c: char): (r: int)
    ensures -1 <= r < |s|
    ensures 0 <= r ==> s[r] == c
    ensures forall j :: r < j < |s| ==> s[j] != c
  {
    if s == [] then -1
    else if s[|s| - 1] == c then |s| - 1
    else LastIndexOf(s[..|s| - 1], c)
  }

  /** The first position at or after `from` that holds `c`. */
  function IndexOfFrom(s: string, c: char, from: nat): (r: int)
    decreases |s| - from
    ensures r == -1 || (from <= r < |s| && s[r] == c)
    ensures forall j :: from <= j < |s| && (r == -1 || j < r) ==> s[j] != c
  {
    if from >= |s| then -1
    else if s[from] == c then from
    else IndexOfFrom(s, c, from + 1)
  }
}
