/** The two escaping helpers of the code editor: the HTML-escape pass that
    opens `applySyntaxHighlighting`, and `escapeRegex`, which makes a string
    safe to splice into a regular expression. */
module Escaping {
  import opened Text

  /** `s.replace(/c/g, rep)` for a one-character pattern. */
  function ReplaceAll(s: string, c: char, rep: string): string
  {
    if s == [] then [] else (if s[0] == c then rep else [s[0]]) + ReplaceAll(s[1..], c, rep)
  }

  lemma {:induction false} ReplaceAllAppend(a: string, b: string, c: char, rep: string)
    ensures ReplaceAll(a + b, c, rep) == ReplaceAll(a, c, rep) + ReplaceAll(b, c, rep)
  {
    if a != [] {
      assert (a + b)[0] == a[0] && (a + b)[1..] == a[1..] + b;
      ReplaceAllAppend(a[1..], b, c, rep);
    } else {
      assert a + b == b;
    }
  }

  lemma {:induction false} ReplaceAllAbsent(s: string, c: char, rep: string)
    requires c !in s
    ensures ReplaceAll(s, c, rep) == s
  {
    if s != [] {
      ReplaceAllAbsent(s[1..], c, rep);
    }
  }

  lemma ReplaceAllSingle(x: char, c: char, rep: string)
    ensures ReplaceAll([x], c, rep) == if x == c then rep else [x]
  {
    assert [x][1..] == [];
  }

  /** The three chained replacements, `&` first so that the entities the
      later two insert are not escaped again. */
  function EscapeHtml(code: string): string
  {
    ReplaceAll(ReplaceAll(ReplaceAll(code, '&', "&amp;"), '<', "&lt;"), '>', "&gt;")
  }

  /** `applySyntaxHighlighting` as far as its escape pass: empty text gives
      the empty string, anything else is escaped. The later colouring
      passes are not part of this model. */
  function EscapePass(code: string): (r: string)
    ensures code == "" ==> r == ""
  {
    if code == "" then "" else EscapeHtml(code)
  }

  /** The entity a single character becomes. */
  function EntityOf(c: char): string
  {
    if c == '&' then "&amp;" else if c == '<' then "&lt;" else if c == '>' then "&gt;" else [c]
  }

  /** A one-pass reference for the escape: each character becomes its entity. */
  function EscapeEach(s: string): string
  {
    if s == [] then [] else EntityOf(s[0]) + EscapeEach(s[1..])
  }

  /** The chained replacements distribute over concatenation. */
  lemma EscapeHtmlAppend(a: string, b: string)
    ensures EscapeHtml(a + b) == EscapeHtml(a) + EscapeHtml(b)
  {
    ReplaceAllAppend(a, b, '&', "&amp;");
    var a1, b1 := ReplaceAll(a, '&', "&amp;"), ReplaceAll(b, '&', "&amp;");
    ReplaceAllAppend(a1, b1, '<', "&lt;");
    var a2, b2 := ReplaceAll(a1, '<', "&lt;"), ReplaceAll(b1, '<', "&lt;");
    ReplaceAllAppend(a2, b2, '>', "&gt;");
  }

  /** On one character the chained replacements yield its entity: the
      entities inserted by the earlier replacements hold no `<` or `>`. */
  lemma EscapeHtmlSingle(c: char)
    ensures EscapeHtml([c]) == EntityOf(c)
  {
    ReplaceAllSingle(c, '&', "&amp;");
    if c == '&' {
      ReplaceAllAbsent("&amp;", '<', "&lt;");
      ReplaceAllAbsent("&amp;", '>', "&gt;");
    } else {
      ReplaceAllSingle(c, '<', "&lt;");
      if c == '<' {
        ReplaceAllAbsent("&lt;", '>', "&gt;");
      } else {
        ReplaceAllSingle(c, '>', "&gt;");
      }
    }
  }

  /** The three chained global replacements equal the one-pass escape. */
  lemma {:induction false} EscapeHtmlIsCharwise(s: string)
    ensures EscapeHtml(s) == EscapeEach(s)
  {
    if s != [] {
      var c, t := s[0], s[1..];
      assert s == [c] + t;
      EscapeHtmlAppend([c], t);
      EscapeHtmlSingle(c);
      EscapeHtmlIsCharwise(t);
    }
  }

  /** Position `i` of `r` starts one of the three entities. */
  predicate EntityAt(r: string, i: nat)
  {
    i <= |r| && (IsPrefix("&amp;", r[i..]) || IsPrefix("&lt;", r[i..]) || IsPrefix("&gt;", r[i..]))
  }

  /** Markup-safe text: no raw `<` or `>`, and every `&` starts an entity. */
  predicate MarkupSafe(r: string)
  {
    '<' !in r && '>' !in r && forall i :: 0 <= i < |r| && r[i] == '&' ==> EntityAt(r, i)
  }

  lemma {:induction false} EscapeEachSafe(s: string)
    ensures MarkupSafe(EscapeEach(s))
  {
    if s != [] {
      var e, rest := EntityOf(s[0]), EscapeEach(s[1..]);
      EscapeEachSafe(s[1..]);
      var r := e + rest;
      forall i | 0 <= i < |r| && r[i] == '&' ensures EntityAt(r, i) {
        if i < |e| {
          assert i == 0 && r[..|e|] == e;
        } else {
          assert r[i..] == rest[i - |e|..];
          assert EntityAt(rest, i - |e|);
        }
      }
    }
  }

  /** The escape pass leaves no raw `<` or `>`, and every `&` it leaves
      starts `&amp;`, `&lt;` or `&gt;`. */
  lemma EscapePassSafe(code: string)
    ensures MarkupSafe(EscapePass(code))
  {
    EscapeHtmlIsCharwise(code);
    EscapeEachSafe(code);
  }

  /** Decoding of the three entities, the inverse of the escape. */
  function UnescapeHtml(r: string): string
  {
    if r == [] then []
    else if IsPrefix("&amp;", r) then "&" + UnescapeHtml(r[5..])
    else if IsPrefix("&lt;", r) then "<" + UnescapeHtml(r[4..])
    else if IsPrefix("&gt;", r) then ">" + UnescapeHtml(r[4..])
    else [r[0]] + UnescapeHtml(r[1..])
  }

  /** Decoding reads one character's entity back as that character. */
  lemma UnescapeEntity(c: char, rest: string)
    ensures UnescapeHtml(EntityOf(c) + rest) == [c] + UnescapeHtml(rest)
  {
    var r := EntityOf(c) + rest;
    var n := |EntityOf(c)|;
    assert r[n..] == rest;
    if c == '&' {
      assert IsPrefix("&amp;", r);
    } else if c == '<' {
      assert r[1] == 'l';
      assert !IsPrefix("&amp;", r) by { assert |r| >= 5 ==> r[..5][1] == 'l'; }
    } else if c == '>' {
      assert r[1] == 'g';
      assert !IsPrefix("&amp;", r) by { assert |r| >= 5 ==> r[..5][1] == 'g'; }
      assert !IsPrefix("&lt;", r) by { assert r[..4][1] == 'g'; }
    } else {
      assert r[0] == c;
      assert !IsPrefix("&amp;", r) && !IsPrefix("&lt;", r) && !IsPrefix("&gt;", r);
    }
  }

  lemma {:induction false} EscapeEachRoundTrip(s: string)
    ensures UnescapeHtml(EscapeEach(s)) == s
  {
    if s != [] {
      EscapeEachRoundTrip(s[1..]);
      UnescapeEntity(s[0], EscapeEach(s[1..]));
      assert s == [s[0]] + s[1..];
    }
  }

  /** The escape pass loses nothing: decoding its output gives back the code. */
  lemma EscapePassRoundTrip(code: string)
    ensures UnescapeHtml(EscapePass(code)) == code
  {
    EscapeHtmlIsCharwise(code);
    EscapeEachRoundTrip(code);
  }

  /** The characters `escapeRegex` guards: `. * + ? ^ $ { } ( ) | [ ] \`. */
  predicate IsRegexSpecial(c: char)
  {
    c in ".*+?^${}()|[]\\"
  }

  /** `escapeRegex`: a backslash before every special character. */
  function EscapeRegex(s: string): string
  {
    if s == [] then []
    else (if IsRegexSpecial(s[0]) then ['\\', s[0]] else [s[0]]) + EscapeRegex(s[1..])
  }

  /** A pattern that matches only one literal string: each element is an
      ordinary character or a backslash followed by a special one. */
  predicate LiteralPattern(r: string)
  {
    r == []
    || (!IsRegexSpecial(r[0]) && LiteralPattern(r[1..]))
    || (|r| >= 2 && r[0] == '\\' && IsRegexSpecial(r[1]) && LiteralPattern(r[2..]))
  }

  /** The literal string a `LiteralPattern` matches. */
  function UnescapeRegex(r: string): string
  {
    if r == [] then []
    else if r[0] == '\\' && |r| >= 2 then [r[1]] + UnescapeRegex(r[2..])
    else [r[0]] + UnescapeRegex(r[1..])
  }

  /** `escapeRegex` yields a literal pattern that matches exactly its input. */
  lemma {:induction false} EscapeRegexLiteral(s: string)
    ensures LiteralPattern(EscapeRegex(s))
    ensures UnescapeRegex(EscapeRegex(s)) == s
  {
    if s != [] {
      var rest := EscapeRegex(s[1..]);
      EscapeRegexLiteral(s[1..]);
      var r := EscapeRegex(s);
      if IsRegexSpecial(s[0]) {
        assert r == ['\\', s[0]] + rest && r[2..] == rest;
      } else {
        assert r == [s[0]] + rest && r[1..] == rest;
      }
    }
  }
}
