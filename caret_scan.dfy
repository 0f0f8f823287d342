/** The regular-expression logic of `checkAutocomplete`: given the text
    before the caret, decide whether the caret sits inside an unterminated
    `[` whose prefix names a product context (by `REL_…` identifier or by a
    product label found in the static pool), inside a `[` with no usable
    prefix, or after a bare word. */
module CaretScan {
  import opened Text
  import opened Suggestions

  const GroupPrefix: string := "REL_ProductComponentGroup_"
  const RelatedPrefix: string := "REL_ProductRelatedComponent_"

  /** What the text before the caret amounts to. */
  datatype Caret =
    | Contextual(contextValue: string, searchTerm: string)   // a context trigger: fetch for `contextValue`
    | UnresolvedBracket                                       // inside `[` but no context: hide the popup
    | Bare(word: string)                                      // outside brackets: the trailing `\w` run

  /** Position `i` holds a `[` with no `]` anywhere after it. */
  predicate Unclosed(s: string, i: int)
  {
    0 <= i < |s| && s[i] == '[' && ']' !in s[i + 1..]
  }

  /** Some position holds an unclosed `[`. */
  predicate HasUnclosed(s: string)
  {
    exists i :: 0 <= i < |s| && Unclosed(s, i)
  }

  /** Position `i` is the leftmost unclosed `[`. */
  predicate FirstUnclosed(s: string, i: int)
  {
    Unclosed(s, i) && forall j :: 0 <= j < i ==> !Unclosed(s, j)
  }

  /** Where `/\[([^\]]*?)$/` matches: the first `[` after the last `]`, or -1. */
  function OpenBracket(s: string): (r: int)
    ensures -1 <= r < |s|
  {
    IndexOfFrom(s, '[', LastIndexOf(s, ']') + 1)
  }

  /** The match position is the leftmost unclosed `[`, and there is none
      exactly when every `[` is closed. */
  lemma OpenBracketSpec(s: string)
    ensures OpenBracket(s) == -1 <==> !HasUnclosed(s)
    ensures OpenBracket(s) != -1 ==> FirstUnclosed(s, OpenBracket(s))
  {
    var k := LastIndexOf(s, ']');
    var r := IndexOfFrom(s, '[', k + 1);
    forall i | Unclosed(s, i) ensures k < i {
    }
    if r != -1 {
      assert Unclosed(s, r);
    }
    if HasUnclosed(s) {
      var i :| 0 <= i < |s| && Unclosed(s, i);
      assert k < i && s[i] == '[';
    }
  }

  /** A match of `REL_ProductComponentGroup_[\w]+` or `REL_ProductRelatedComponent_[\w]+`. */
  predicate RelToken(x: string)
  {
    AllWordChars(x)
    && ((|x| > |GroupPrefix| && x[..|GroupPrefix|] == GroupPrefix)
        || (|x| > |RelatedPrefix| && x[..|RelatedPrefix|] == RelatedPrefix))
  }

  /** The leftmost position at or after `from` where a `RelToken` suffix of `w` starts, or -1. */
  function RelFrom(w: string, from: nat): (r: int)
    requires from <= |w|
    decreases |w| - from
    ensures r == -1 || (from <= r <= |w| && RelToken(w[r..]))
  {
    if RelToken(w[from..]) then from
    else if from == |w| then -1
    else RelFrom(w, from + 1)
  }

  /** `RelFrom` finds the leftmost such start: none begins before it. */
  lemma {:induction false} RelFromFirst(w: string, from: nat)
    requires from <= |w|
    decreases |w| - from
    ensures forall k :: from <= k <= |w| && (RelFrom(w, from) == -1 || k < RelFrom(w, from)) ==> !RelToken(w[k..])
  {
    var r := RelFrom(w, from);
    if !RelToken(w[from..]) && from < |w| {
      RelFromFirst(w, from + 1);
      assert r == RelFrom(w, from + 1);
      forall k | from <= k <= |w| && (r == -1 || k < r) ensures !RelToken(w[k..]) {
        if k == from {
        } else {
          assert from + 1 <= k;
        }
      }
    }
  }

  /** The lookup `attr.actualName === displayName && (type is ProductComponentGroup or Product)`. */
  predicate LabelsContext(a: RawItem, w: string)
  {
    a.Record? && a.actualName == w
    && (a.kind == Wrappers.Some(ProductComponentGroup) || a.kind == Wrappers.Some(Product))
  }

  /** `Array.prototype.find` for `LabelsContext`, from position `from`: the index, or -1. */
  function FindLabel(defs: seq<RawItem>, w: string, from: nat): (r: int)
    requires from <= |defs|
    decreases |defs| - from
    ensures r == -1 || (from <= r < |defs| && LabelsContext(defs[r], w))
  {
    if from == |defs| then -1
    else if LabelsContext(defs[from], w) then from
    else FindLabel(defs, w, from + 1)
  }

  /** `FindLabel` finds the first matching record: none matches before it. */
  lemma {:induction false} FindLabelFirst(defs: seq<RawItem>, w: string, from: nat)
    requires from <= |defs|
    decreases |defs| - from
    ensures forall j :: from <= j < |defs| && (FindLabel(defs, w, from) == -1 || j < FindLabel(defs, w, from)) ==>
      !LabelsContext(defs[j], w)
  {
    if from < |defs| && !LabelsContext(defs[from], w) {
      FindLabelFirst(defs, w, from + 1);
    }
  }

  /** The word that may name the context: the `\w` run that ends the text
      before the LAST `[`, once trailing white space is ignored. */
  function ContextWord(before: string): string
  {
    var last := LastIndexOf(before, '[');
    if last < 0 then "" else TrailingWord(TrimEnd(before[..last]))
  }

  /** Inside a bracket: the context that the word `w` before it names,
      by a `REL_…` token ending the word or else by a label in the static
      pool, with `term` as the search term. */
  function Resolve(defs: seq<RawItem>, w: string, term: string): (c: Caret)
    ensures !c.Bare?
    ensures c.Contextual? ==> c.searchTerm == term
  {
    var rel := RelFrom(w, 0);
    if rel != -1 then Contextual(w[rel..], term)
    else if w == "" then UnresolvedBracket
    else
      var found := FindLabel(defs, w, 0);
      if found != -1 then Contextual(RawValue(defs[found]), term) else UnresolvedBracket
  }

  /** `checkAutocomplete`'s decision. The search term of a trigger is the text
      after the LEFTMOST unclosed `[` (where the regular expression matches),
      while the context word is read before the LAST `[`. */
  function Scan(defs: seq<RawItem>, before: string): Caret
  {
    var open := OpenBracket(before);
    if open == -1 then Bare(TrailingWord(before))
    else Resolve(defs, ContextWord(before), before[open + 1..])
  }

  /** `term` is the whole text after the leftmost unclosed `[` of `before`,
      and holds no `]`. */
  predicate TermAfterFirstBracket(before: string, term: string)
  {
    |term| < |before|
    && FirstUnclosed(before, |before| - |term| - 1)
    && term == before[|before| - |term|..]
    && ']' !in term
  }

  lemma TermAfterBracket(before: string, open: int)
    requires FirstUnclosed(before, open)
    ensures TermAfterFirstBracket(before, before[open + 1..])
  {
    assert |before| - |before[open + 1..]| - 1 == open;
  }

  /** Outside every bracket the caret is on the trailing word; inside one,
      a trigger's search term is the text after the leftmost unclosed `[`. */
  lemma ScanSpec(defs: seq<RawItem>, before: string)
    ensures Scan(defs, before).Bare? <==> !HasUnclosed(before)
    ensures Scan(defs, before).Bare? ==> Scan(defs, before).word == TrailingWord(before)
    ensures Scan(defs, before).Contextual? ==> TermAfterFirstBracket(before, Scan(defs, before).searchTerm)
  {
    OpenBracketSpec(before);
    var open := OpenBracket(before);
    if open != -1 {
      TermAfterBracket(before, open);
    }
  }

  /** Inside a bracket the decision is the resolution of the context word,
      with the text after the leftmost unclosed `[` as the search term. */
  lemma ScanInBracket(defs: seq<RawItem>, before: string)
    requires HasUnclosed(before)
    ensures 0 <= OpenBracket(before) < |before|
    ensures Scan(defs, before) == Resolve(defs, ContextWord(before), before[OpenBracket(before) + 1..])
  {
    OpenBracketSpec(before);
  }

  /** Precedence of identifiers: when the context word ends in a `REL_…`
      token, the trigger is that token (the longest such suffix of the word),
      whatever the static pool holds. */
  lemma RelTriggerWins(defs: seq<RawItem>, w: string, term: string, k: nat)
    requires k <= |w| && RelToken(w[k..])
    ensures var c := Resolve(defs, w, term);
      c.Contextual? && c.searchTerm == term && RelToken(c.contextValue)
      && |w| - k <= |c.contextValue| <= |w| && c.contextValue == w[|w| - |c.contextValue|..]
      && forall j :: 0 <= j < |w| - |c.contextValue| ==> !RelToken(w[j..])
    ensures forall other: seq<RawItem> :: Resolve(other, w, term) == Resolve(defs, w, term)
  {
    var rel := RelFrom(w, 0);
    RelFromFirst(w, 0);
    assert rel != -1 && rel <= k;
    assert |w[rel..]| == |w| - rel;
  }

  /** Label lookup: when the context word is no `REL_…` token, a trigger
      fires exactly when some static-pool record of type
      ProductComponentGroup or Product has that word as its `actualName`; the
      context value is the `value` of the first such record. */
  lemma LabelTrigger(defs: seq<RawItem>, w: string, term: string)
    requires forall k :: 0 <= k <= |w| ==> !RelToken(w[k..])
    ensures Resolve(defs, w, term).Contextual? <==>
      w != "" && exists j :: 0 <= j < |defs| && LabelsContext(defs[j], w)
    ensures Resolve(defs, w, term).Contextual? ==>
      exists j :: 0 <= j < |defs| && LabelsContext(defs[j], w)
        && (forall i :: 0 <= i < j ==> !LabelsContext(defs[i], w))
        && Resolve(defs, w, term).contextValue == defs[j].value
    ensures !Resolve(defs, w, term).Contextual? ==> Resolve(defs, w, term) == UnresolvedBracket
  {
    assert RelFrom(w, 0) == -1;
    if w != "" {
      var found := FindLabel(defs, w, 0);
      FindLabelFirst(defs, w, 0);
      if found != -1 {
        assert LabelsContext(defs[found], w);
      }
    }
  }

  /** A `[` typed after bracket-free text, followed by a term with no
      brackets, is both the match position and the last `[`. */
  lemma BracketAfter(bb: string, term: string)
    requires '[' !in bb && '[' !in term && ']' !in term
    ensures OpenBracket(bb + "[" + term) == |bb|
    ensures LastIndexOf(bb + "[" + term, '[') == |bb|
  {
    var s := bb + "[" + term;
    var o := |bb|;
    forall j | 0 <= j < o ensures s[j] != '[' {
      assert s[j] == bb[j];
    }
    forall j | o < j < |s| ensures s[j] != '[' && s[j] != ']' {
      assert s[j] == term[j - o - 1];
    }
    SoleBracket(s, o);
  }

  /** A `[` at `o` with no other `[` anywhere and no `]` after it. */
  lemma SoleBracket(s: string, o: nat)
    requires o < |s| && s[o] == '['
    requires forall j :: 0 <= j < o ==> s[j] != '['
    requires forall j :: o < j < |s| ==> s[j] != '[' && s[j] != ']'
    ensures OpenBracket(s) == o
    ensures LastIndexOf(s, '[') == o
  {
    var k := LastIndexOf(s, ']');
    assert k < o;
  }

  /** A concrete trigger: after a `REL_…` identifier that starts a word,
      typing `[` and a bracket-free term triggers a contextual fetch for that
      identifier with that term, e.g. `x = REL_ProductComponentGroup_42[wid`
      gives `Contextual("REL_ProductComponentGroup_42", "wid")`. */
  lemma IdentifierTrigger(defs: seq<RawItem>, lead: string, id: string, term: string)
    requires RelToken(id)
    requires lead == [] || !IsWordChar(lead[|lead| - 1])
    requires '[' !in lead && '[' !in term && ']' !in term
    ensures Scan(defs, lead + id + "[" + term) == Contextual(id, term)
  {
    var s := lead + id + "[" + term;
    IdentifierBeforeBracket(lead, id, term);
    assert s[|lead + id| + 1..] == term;
    assert RelFrom(id, 0) == 0 by {
      assert id[0..] == id;
    }
  }

  /** In that text the bracket follows `lead + id` and the context word is `id`. */
  lemma IdentifierBeforeBracket(lead: string, id: string, term: string)
    requires id != [] && AllWordChars(id)
    requires lead == [] || !IsWordChar(lead[|lead| - 1])
    requires '[' !in lead && '[' !in term && ']' !in term
    ensures OpenBracket(lead + id + "[" + term) == |lead + id|
    ensures ContextWord(lead + id + "[" + term) == id
  {
    var bb := lead + id;
    var s := bb + "[" + term;
    assert '[' !in bb by {
      forall j | 0 <= j < |bb| ensures bb[j] != '[' {
        if j < |lead| { assert bb[j] == lead[j]; } else { assert bb[j] == id[j - |lead|]; }
      }
    }
    BracketAfter(bb, term);
    assert s[..|bb|] == bb;
    assert bb[|bb| - 1] == id[|id| - 1];
    assert TrimEnd(bb) == bb;
    assert bb[|bb| - |id|..] == id;
    TrailingWordUnique(bb, id);
  }
}
