/** The suggestion records of the code editor and its two filters: the
    `filteredOptions` getter over the static pool `attributeDefinitions`
    and `getContextualFilteredOptions` over the pool fetched for a
    bracketed context. */
module Suggestions {
  import opened Wrappers
  import opened Text
  import opened Seqs

  datatype Kind = Attribute | ProductComponentGroup | Product | ProductRelatedComponent | Picklist

  /** A suggestion as the parent hands it in: either a bare string, or a
      record whose optional fields (`actualName`, `color`) are "" when the
      record lacks them, and whose `type` may be missing. */
  datatype RawItem =
    | Plain(text: string)
    | Record(value: string, displayName: string, actualName: string, color: string, kind: Option<Kind>)

  /** The single record shape every suggestion is normalised to. */
  datatype SuggestionItem = SuggestionItem(value: string, displayName: string, actualName: string, color: string, kind: Kind)

  /** One row of the popup list. */
  datatype PopupOption = PopupOption(item: SuggestionItem, isSelected: bool)

  /** `attr.value || attr`: a bare string is its own value. */
  function RawValue(a: RawItem): string
  {
    match a
    case Plain(s) => s
    case Record(v, _, _, _, _) => v
  }

  /** `attr.displayName || attr`. */
  function RawDisplayName(a: RawItem): string
  {
    match a
    case Plain(s) => s
    case Record(_, d, _, _, _) => d
  }

  /** `attr.actualName || value`. */
  function RawActualName(a: RawItem): string
  {
    match a
    case Plain(s) => s
    case Record(v, _, n, _, _) => if n != "" then n else v
  }

  /** `attr.color || 'black'`. */
  function RawColor(a: RawItem): string
  {
    match a
    case Plain(_) => "black"
    case Record(_, _, _, c, _) => if c != "" then c else "black"
  }

  /** `attr.type || defaultKind`: the static filter defaults to `Attribute`,
      the contextual one to `Product`. */
  function RawKind(a: RawItem, defaultKind: Kind): Kind
  {
    match a
    case Plain(_) => defaultKind
    case Record(_, _, _, _, k) => k.GetOr(defaultKind)
  }

  function Normalize(a: RawItem, defaultKind: Kind): SuggestionItem
  {
    SuggestionItem(RawValue(a), RawDisplayName(a), RawActualName(a), RawColor(a), RawKind(a, defaultKind))
  }

  /** The static pool's test: the lowered value or display name contains `term`. */
  predicate StaticMatch(a: RawItem, term: string)
  {
    Contains(Lower(RawValue(a)), term) || Contains(Lower(RawDisplayName(a)), term)
  }

  /** The contextual pool's test: an empty term keeps everything, otherwise the
      lowered value, display name or actual name contains `term`. */
  predicate ContextMatch(a: RawItem, term: string)
  {
    term == ""
    || Contains(Lower(RawValue(a)), term)
    || Contains(Lower(RawDisplayName(a)), term)
    || Contains(Lower(RawActualName(a)), term)
  }

  /** The `.map((attr, index) => …)` step: normalise and mark the row at `selected`. */
  function Present(items: seq<RawItem>, defaultKind: Kind, selected: nat): seq<PopupOption>
  {
    seq(|items|, k requires 0 <= k < |items| => PopupOption(Normalize(items[k], defaultKind), k == selected))
  }

  /** `filteredOptions` outside contextual mode. */
  function StaticOptions(defs: seq<RawItem>, word: string, selected: nat): seq<PopupOption>
  {
    if |word| < 2 then []
    else
      var term := Lower(word);
      Present(Filter(defs, a => StaticMatch(a, term)), Attribute, selected)
  }

  /** `getContextualFilteredOptions`; `None` is a null pool. */
  function ContextualOptions(pool: Option<seq<RawItem>>, word: string, selected: nat): seq<PopupOption>
  {
    if pool.None? || |pool.value| == 0 then []
    else
      var term := Lower(word);
      Present(Filter(pool.value, a => ContextMatch(a, term)), Product, selected)
  }

  /** The static filter: nothing for a word shorter than two characters;
      otherwise exactly the definitions whose lowered value or display name
      contains the lowered word, in their original order (`picked` lists their
      positions), each normalised with the default kind `Attribute`, and only
      the row at `selected` marked selected. */
  lemma StaticOptionsSpec(defs: seq<RawItem>, word: string, selected: nat) returns (picked: seq<nat>)
    ensures |word| < 2 ==> StaticOptions(defs, word, selected) == [] && picked == []
    ensures Increasing(picked)
    ensures |StaticOptions(defs, word, selected)| == |picked|
    ensures forall k :: 0 <= k < |picked| ==>
      picked[k] < |defs|
      && StaticOptions(defs, word, selected)[k].item == Normalize(defs[picked[k]], Attribute)
      && (StaticOptions(defs, word, selected)[k].isSelected <==> k == selected)
    ensures |word| >= 2 ==>
      forall j :: 0 <= j < |defs| ==> (j in picked <==> StaticMatch(defs[j], Lower(word)))
  {
    if |word| < 2 {
      picked := [];
    } else {
      var term := Lower(word);
      var keep := a => StaticMatch(a, term);
      FilterIndices(defs, keep);
      picked := KeptIndices(defs, keep);
    }
  }

  /** The static popup has something to show exactly when the word has two
      or more characters and some definition matches it. */
  lemma StaticOptionsNonEmpty(defs: seq<RawItem>, word: string, selected: nat)
    ensures StaticOptions(defs, word, selected) != [] <==>
      |word| >= 2 && exists j :: 0 <= j < |defs| && StaticMatch(defs[j], Lower(word))
  {
    var picked := StaticOptionsSpec(defs, word, selected);
    if |word| >= 2 && exists j :: 0 <= j < |defs| && StaticMatch(defs[j], Lower(word)) {
      var j :| 0 <= j < |defs| && StaticMatch(defs[j], Lower(word));
      assert j in picked;
    }
    if picked != [] {
      assert picked[0] in picked;
    }
  }

  /** The contextual filter: a null or empty pool gives nothing; otherwise
      exactly the pool items that `ContextMatch` the lowered word, in pool
      order, normalised with the default kind `Product`, with only the row at
      `selected` marked selected. */
  lemma ContextualOptionsSpec(pool: Option<seq<RawItem>>, word: string, selected: nat) returns (picked: seq<nat>)
    ensures (pool.None? || pool == Some([])) ==> ContextualOptions(pool, word, selected) == [] && picked == []
    ensures Increasing(picked)
    ensures |ContextualOptions(pool, word, selected)| == |picked|
    ensures forall k :: 0 <= k < |picked| ==>
      pool.Some? && picked[k] < |pool.value|
      && ContextualOptions(pool, word, selected)[k].item == Normalize(pool.value[picked[k]], Product)
      && (ContextualOptions(pool, word, selected)[k].isSelected <==> k == selected)
    ensures pool.Some? ==>
      forall j :: 0 <= j < |pool.value| ==>
        (j in picked <==> ContextMatch(pool.value[j], Lower(word)))
  {
    if pool.None? || |pool.value| == 0 {
      picked := [];
    } else {
      var term := Lower(word);
      var keep := a => ContextMatch(a, term);
      FilterIndices(pool.value, keep);
      picked := KeptIndices(pool.value, keep);
    }
  }

  /** With an empty search term the contextual filter returns the whole
      non-empty pool, in order. */
  lemma ContextualEmptyTermKeepsPool(pool: seq<RawItem>, selected: nat)
    requires pool != []
    ensures |ContextualOptions(Some(pool), "", selected)| == |pool|
    ensures forall k :: 0 <= k < |pool| ==>
      ContextualOptions(Some(pool), "", selected)[k].item == Normalize(pool[k], Product)
  {
    var keep := a => ContextMatch(a, Lower(""));
    FilterKeepsAll(pool, keep);
  }
}
