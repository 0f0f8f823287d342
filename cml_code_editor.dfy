/** The code editor widget: the popup state it keeps between keystrokes,
    the arithmetic behind selection cycling, the popup anchor and the text
    splice on acceptance, and the event handlers that tie them to the
    scanner and the suggestion filters. */
module CodeEditor {
  import opened Wrappers
  import opened Text
  import opened Suggestions
  import opened CaretScan
  import opened Seqs

  /** Approximate line height and character width of the textarea, in pixels. */
  const LineHeight: int := 24
  const CharWidth: int := 8

  datatype Position = Position(top: int, left: int)

  datatype Key = ArrowDown | ArrowUp | Enter | Tab | Escape | OtherKey

  /** The custom events the editor dispatches to its parent. */
  datatype EditorEvent =
    | Change(value: string)
    | RequestContext(contextValue: string, searchTerm: string)
    | IdMapping(displayName: string, actualValue: string, kind: Kind)

  /** How an attempt to accept the selected option ends. `SelectionOutOfRange`
      is the case where `filteredOptions[selectedIndex]` is undefined and the
      handler throws before changing anything. */
  datatype InsertOutcome = NoOptions | SelectionOutOfRange | Inserted(caret: nat)

  // ---------------------------------------------------------------------
  // Selection cycling (ArrowDown / ArrowUp)

  /** ArrowDown: `(i + 1) % n`. */
  function NextIndex(i: nat, n: nat): (r: nat)
    requires n > 0
    ensures r < n
    ensures i + 1 < n ==> r == i + 1
    ensures i + 1 == n ==> r == 0
  {
    (i + 1) % n
  }

  /** ArrowUp: 0 wraps to `n - 1`, anything else is decremented. */
  function PrevIndex(i: nat, n: nat): (r: nat)
    requires n > 0
  {
    if i == 0 then n - 1 else i - 1
  }

  /** For an index inside the list, ArrowUp stays inside it and undoes
      ArrowDown, and ArrowDown undoes ArrowUp. */
  lemma UpUndoesDown(i: nat, n: nat)
    requires i < n
    ensures PrevIndex(i, n) < n
    ensures PrevIndex(NextIndex(i, n), n) == i
    ensures NextIndex(PrevIndex(i, n), n) == i
  {
  }

  /** The index after `k` presses of ArrowDown. */
  function Downs(i: nat, n: nat, k: nat): nat
    requires n > 0
  {
    if k == 0 then i else NextIndex(Downs(i, n, k - 1), n)
  }

  lemma {:induction false} DownsAdd(i: nat, n: nat, a: nat, b: nat)
    requires n > 0
    ensures Downs(i, n, a + b) == Downs(Downs(i, n, a), n, b)
  {
    if b > 0 {
      DownsAdd(i, n, a, b - 1);
    }
  }

  /** Without reaching the end of the list, ArrowDown just counts up. */
  lemma {:induction false} DownsCountUp(i: nat, n: nat, k: nat)
    requires i + k < n
    ensures Downs(i, n, k) == i + k
  {
    if k > 0 {
      DownsCountUp(i, n, k - 1);
    }
  }

  /** `n` presses of ArrowDown over `n` options come back to the start. */
  lemma DownsCycle(i: nat, n: nat)
    requires i < n
    ensures Downs(i, n, n) == i
  {
    DownsCountUp(i, n, n - 1 - i);
    DownsAdd(i, n, n - i, i);
    DownsCountUp(0, n, i);
  }

  /** Fewer than `n` presses never come back to the start: ArrowDown visits
      every row before repeating one. */
  lemma DownsNoEarlyReturn(i: nat, n: nat, k: nat)
    requires i < n && 0 < k < n
    ensures Downs(i, n, k) != i
  {
    if i + k < n {
      DownsCountUp(i, n, k);
    } else {
      DownsCountUp(i, n, n - 1 - i);
      DownsAdd(i, n, n - i, k - (n - i));
      DownsCountUp(0, n, k - (n - i));
    }
  }

  // ---------------------------------------------------------------------
  // Popup anchor (calculateAutocompletePosition)

  /** `s.split('\n')`. */
  function SplitLines(s: string): (lines: seq<string>)
    ensures |lines| >= 1
  {
    if s == [] then [""]
    else
      var init := SplitLines(s[..|s| - 1]);
      if s[|s| - 1] == '\n' then init + [""]
      else init[..|init| - 1] + [init[|init| - 1] + [s[|s| - 1]]]
  }

  function NewlineCount(s: string): nat
  {
    if s == [] then 0 else NewlineCount(s[..|s| - 1]) + (if s[|s| - 1] == '\n' then 1 else 0)
  }

  /** The anchor: `lines.length` rows down and the length of the last line
      across, scaled by the fixed line height and character width. */
  function Anchor(before: string): Position
  {
    var lines := SplitLines(before);
    Position(|lines| * LineHeight, |lines[|lines| - 1]| * CharWidth)
  }

  /** `last` is the newline-free tail of `s`: all of it, or what follows
      its last newline. */
  predicate IsLastLine(s: string, last: string)
  {
    |last| <= |s| && last == s[|s| - |last|..]
    && (forall j :: |s| - |last| <= j < |s| ==> s[j] != '\n')
    && (|last| == |s| || s[|s| - |last| - 1] == '\n')
  }

  /** What `split` yields for the anchor: one more line than there are
      newlines, and a last line that is the newline-free tail of the text
      (all of it, or what follows its last newline). */
  lemma SplitLinesSpec(s: string)
    ensures |SplitLines(s)| == NewlineCount(s) + 1
    ensures IsLastLine(s, SplitLines(s)[|SplitLines(s)| - 1])
  {
    SplitLinesCount(s);
    SplitLinesLast(s);
  }

  lemma {:induction false} SplitLinesCount(s: string)
    ensures |SplitLines(s)| == NewlineCount(s) + 1
  {
    if s != [] {
      SplitLinesCount(s[..|s| - 1]);
    }
  }

  lemma {:induction false} SplitLinesLast(s: string)
    ensures IsLastLine(s, SplitLines(s)[|SplitLines(s)| - 1])
  {
    if s != [] {
      var n := |s| - 1;
      var init, c := s[..n], s[n];
      assert s == init + [c];
      SplitLinesLast(init);
      var lines := SplitLines(init);
      var prev := lines[|lines| - 1];
      if c == '\n' {
        assert SplitLines(s)[|SplitLines(s)| - 1] == "";
      } else {
        assert SplitLines(s)[|SplitLines(s)| - 1] == prev + [c];
        LastLineStep(init, prev, c);
      }
    }
  }

  /** A character other than a newline extends the last line. */
  lemma LastLineStep(init: string, prev: string, c: char)
    requires IsLastLine(init, prev)
    requires c != '\n'
    ensures IsLastLine(init + [c], prev + [c])
  {
    var s, last := init + [c], prev + [c];
    assert s[|s| - |last|..] == init[|init| - |prev|..] + [c];
    forall j | |s| - |last| <= j < |s| ensures s[j] != '\n' {
      if j < |init| { assert s[j] == init[j]; }
    }
    if |last| < |s| {
      assert s[|s| - |last| - 1] == init[|init| - |prev| - 1];
    }
  }

  /** The popup sits one line height per line down (newlines plus one) and
      one character width per character of the current line across, the
      current line being what follows the last newline. */
  lemma AnchorSpec(before: string)
    ensures Anchor(before).top == (NewlineCount(before) + 1) * LineHeight
    ensures Anchor(before).left == (|before| - 1 - LastIndexOf(before, '\n')) * CharWidth
  {
    SplitLinesSpec(before);
    var lines := SplitLines(before);
    var last := lines[|lines| - 1];
    LastLineFollowsNewline(before, last);
    assert |lines| == NewlineCount(before) + 1;
    assert |last| == |before| - 1 - LastIndexOf(before, '\n');
  }

  /** A newline-free tail that is all of `s` or follows a newline starts
      right after the last newline. */
  lemma LastLineFollowsNewline(s: string, last: string)
    requires IsLastLine(s, last)
    ensures LastIndexOf(s, '\n') == |s| - |last| - 1
  {
    var start := |s| - |last|;
    var r := LastIndexOf(s, '\n');
    assert r < start by {
      if 0 <= r { assert s[r] == '\n'; }
    }
    assert start - 1 <= r by {
      if 0 < start { assert s[start - 1] == '\n'; }
    }
  }

  // ---------------------------------------------------------------------
  // The splice on acceptance (insertAutocomplete)

  /** Only these two kinds insert their human-readable name and report an id mapping. */
  predicate IsIdentifierBearing(k: Kind)
  {
    k == ProductComponentGroup || k == Product
  }

  /** `actualName || value` for identifier-bearing kinds, `value` otherwise. */
  function InsertionText(o: SuggestionItem): string
  {
    if IsIdentifierBearing(o.kind) then (if o.actualName != "" then o.actualName else o.value)
    else o.value
  }

  /** Where the replaced word starts: the caret minus the trailing `\w` run. */
  function WordStart(text: string, cursor: nat): nat
    requires cursor <= |text|
  {
    cursor - |TrailingWord(text[..cursor])|
  }

  /** `text.substring(0, wordStart) + insertValue + text.substring(cursorPos)`. */
  function Splice(text: string, cursor: nat, ins: string): string
    requires cursor <= |text|
  {
    text[..WordStart(text, cursor)] + ins + text[cursor..]
  }

  /** The splice replaces exactly the word run that ends at the caret: the
      text before it and after the caret survive, `ins` sits in between, and
      the caret placed at `WordStart + |ins|` lands right after `ins`. */
  lemma SpliceSpec(text: string, cursor: nat, ins: string)
    requires cursor <= |text|
    ensures var ws := WordStart(text, cursor); var r := Splice(text, cursor, ins);
      ws <= cursor
      && AllWordChars(text[ws..cursor])
      && (ws == 0 || !IsWordChar(text[ws - 1]))
      && |r| == |text| - (cursor - ws) + |ins|
      && r[..ws] == text[..ws]
      && r[ws..ws + |ins|] == ins
      && r[ws + |ins|..] == text[cursor..]
  {
    var before := text[..cursor];
    var w := TrailingWord(before);
    var ws := cursor - |w|;
    assert text[ws..cursor] == w;
    if ws > 0 {
      assert text[ws - 1] == before[|before| - |w| - 1];
    }
  }

  /** Accepting a normalised suggestion inserts its actual name (falling back
      to its value) when it is a ProductComponentGroup or Product, and its
      value for every other kind. */
  lemma InsertionTextOfRaw(a: RawItem, defaultKind: Kind)
    ensures IsIdentifierBearing(RawKind(a, defaultKind)) ==>
      InsertionText(Normalize(a, defaultKind)) == RawActualName(a)
    ensures !IsIdentifierBearing(RawKind(a, defaultKind)) ==>
      InsertionText(Normalize(a, defaultKind)) == RawValue(a)
  {
  }

  // ---------------------------------------------------------------------
  // The popup as a value, and how each handler moves it

  /** The popup fields of the editor (`showAutocomplete`, `selectedIndex`,
      `currentWord`, `contextualMode`, `contextualSuggestions`,
      `autocompletePosition`) taken together. */
  datatype Popup = Popup(show: bool, selected: nat, word: string, contextual: bool,
                         pool: Option<seq<RawItem>>, position: Position)

  /** The `filteredOptions` getter: the contextual filter while in contextual
      mode with a pool, the static filter otherwise. */
  function Options(p: Popup, defs: seq<RawItem>): seq<PopupOption>
  {
    if p.contextual && p.pool.Some? then ContextualOptions(p.pool, p.word, p.selected)
    else StaticOptions(defs, p.word, p.selected)
  }

  /** Keys act only while the popup is shown and has options. */
  predicate Active(p: Popup, defs: seq<RawItem>)
  {
    p.show && Options(p, defs) != []
  }

  /** `hideAutocomplete`: everything but the position is reset. */
  function Hide(p: Popup): Popup
  {
    p.(show := false, selected := 0, word := "", contextual := false, pool := None)
  }

  /** `checkAutocomplete` once the text before the caret has been scanned to
      `c`. A context trigger only replaces the word (the parent is asked for a
      pool); inside an unresolved bracket the popup is hidden; a bare word
      leaves contextual mode and is shown, at index 0 and anchored at the
      caret, when it has two or more characters and the static pool matches
      it. */
  function AfterScan(p: Popup, defs: seq<RawItem>, c: Caret, before: string): Popup
  {
    match c
    case Contextual(_, term) => p.(word := term)
    case UnresolvedBracket => Hide(p)
    case Bare(w) =>
      if |w| >= 2 && StaticOptions(defs, w, p.selected) != [] then
        Popup(true, 0, w, false, if p.contextual then None else p.pool, Anchor(before))
      else
        Hide(p)
  }

  /** `showContextualSuggestions`: contextual mode with the given pool; shown
      at index 0 and anchored at the caret if the pool, filtered by the
      current word, is non-empty, and otherwise left as it was. */
  function AfterContext(p: Popup, suggestions: Option<seq<RawItem>>, before: string): Popup
  {
    var q := p.(contextual := true, pool := suggestions);
    if ContextualOptions(suggestions, p.word, p.selected) != [] then
      q.(selected := 0, position := Anchor(before), show := true)
    else q
  }

  /** The keys that do not accept an option: ArrowDown and ArrowUp cycle the
      selection and Escape hides the popup, all only while it is active. */
  function Navigate(p: Popup, defs: seq<RawItem>, key: Key): Popup
  {
    if !Active(p, defs) then p
    else
      var n := |Options(p, defs)|;
      match key
      case ArrowDown => p.(selected := NextIndex(p.selected, n))
      case ArrowUp => p.(selected := PrevIndex(p.selected, n))
      case Escape => Hide(p)
      case _ => p
  }

  /** Outside contextual mode no pool is held: the two fields are only ever
      set together (by `showContextualSuggestions`) or cleared together. */
  predicate PoolOnlyInContext(p: Popup)
  {
    !p.contextual ==> p.pool == None
  }

  /** Every transition keeps `PoolOnlyInContext`. */
  lemma PoolOnlyInContextKept(p: Popup, defs: seq<RawItem>, c: Caret, before: string,
                              suggestions: Option<seq<RawItem>>, key: Key)
    requires PoolOnlyInContext(p)
    ensures PoolOnlyInContext(Hide(p))
    ensures PoolOnlyInContext(AfterScan(p, defs, c, before))
    ensures PoolOnlyInContext(AfterContext(p, suggestions, before))
    ensures PoolOnlyInContext(Navigate(p, defs, key))
  {
  }

  /** After a scan the popup is shown exactly when a context trigger kept an
      already shown popup, or when the bare word has two or more characters
      and some static definition's lowered value or display name contains it
      lowered. */
  lemma ScanShows(p: Popup, defs: seq<RawItem>, c: Caret, before: string)
    ensures AfterScan(p, defs, c, before).show <==>
      match c
      case Contextual(_, _) => p.show
      case UnresolvedBracket => false
      case Bare(w) => |w| >= 2 && exists j :: 0 <= j < |defs| && StaticMatch(defs[j], Lower(w))
  {
    if c.Bare? {
      StaticOptionsNonEmpty(defs, c.word, p.selected);
    }
  }

  /** A popup shown for a bare word is active, selects its first row, lists
      the static options for that word, and sits at the caret. */
  lemma BareScanSelectsFirst(p: Popup, defs: seq<RawItem>, w: string, before: string)
    requires AfterScan(p, defs, Bare(w), before).show
    ensures var q := AfterScan(p, defs, Bare(w), before);
      Active(q, defs) && q.selected == 0 && !q.contextual && q.word == w
      && Options(q, defs) == StaticOptions(defs, w, 0)
      && q.position == Anchor(before)
  {
  }

  /** A context trigger changes the search word but keeps the selection:
      the contextual options are refiltered under the OLD index. */
  lemma TriggerKeepsSelection(p: Popup, defs: seq<RawItem>, v: string, term: string, before: string)
    ensures var q := AfterScan(p, defs, Contextual(v, term), before);
      q.selected == p.selected && q.show == p.show && q.word == term
      && (p.contextual && p.pool.Some? ==>
            Options(q, defs) == ContextualOptions(p.pool, term, p.selected))
  {
  }

  /** The stale selection that results: a popup at row 1 of two contextual
      options, then a trigger whose search term `ab` narrows the list to one
      option, leaves the popup shown with index 1 past the end of a one-row
      list, so that accepting it ends in `SelectionOutOfRange`. */
  lemma NarrowingLeavesStaleIndex(defs: seq<RawItem>, v: string, before: string)
    ensures var p := Popup(true, 1, "", true, Some([Plain("ab"), Plain("cd")]), Position(24, 0));
      var q := AfterScan(p, defs, Contextual(v, "ab"), before);
      Active(p, defs) && p.selected < |Options(p, defs)|
      && q.show && |Options(q, defs)| == 1 && q.selected == 1
  {
    var pool := [Plain("ab"), Plain("cd")];
    var all := a => ContextMatch(a, Lower(""));
    FilterKeepsAll(pool, all);
    var keep := a => ContextMatch(a, Lower("ab"));
    assert Lower("ab") == "ab";
    assert Lower("cd") == "cd";
    assert ContextMatch(Plain("ab"), "ab") by { assert IsPrefix("ab", "ab"); }
    assert !Contains("cd", "ab") by {
      assert "cd"[..2][0] == 'c';
      assert "cd"[1..] == "d" && !IsPrefix("ab", "d");
      assert "d"[1..] == "" && !IsPrefix("ab", "");
    }
    assert !ContextMatch(Plain("cd"), "ab");
    assert Filter(pool, keep) == [Plain("ab")] by {
      FilterSnoc([Plain("ab")], Plain("cd"), keep);
      FilterSnoc([], Plain("ab"), keep);
      assert pool == [Plain("ab")] + [Plain("cd")];
      assert [Plain("ab")] == [] + [Plain("ab")];
    }
  }

  /** The same through the scanner: typing `x = REL_ProductComponentGroup_…[ab`
      (any `REL_…` identifier that starts a word) is such a trigger. */
  lemma StaleSelectionAfterTrigger(defs: seq<RawItem>, lead: string, id: string)
    requires RelToken(id)
    requires lead == [] || !IsWordChar(lead[|lead| - 1])
    requires '[' !in lead
    ensures var p := Popup(true, 1, "", true, Some([Plain("ab"), Plain("cd")]), Position(24, 0));
      var before := lead + id + "[" + "ab";
      var q := AfterScan(p, defs, Scan(defs, before), before);
      q.show && |Options(q, defs)| == 1 && q.selected == 1
  {
    var before := lead + id + "[" + "ab";
    IdentifierTrigger(defs, lead, id, "ab");
    NarrowingLeavesStaleIndex(defs, id, before);
  }

  /** The parent's reply to a trigger resets the selection whenever the
      refiltered pool is non-empty: the popup is then active at row 0. */
  lemma ContextReplySelectsFirst(p: Popup, defs: seq<RawItem>, suggestions: seq<RawItem>, before: string)
    requires ContextualOptions(Some(suggestions), p.word, 0) != []
    ensures var q := AfterContext(p, Some(suggestions), before);
      Active(q, defs) && q.selected == 0 && q.contextual
      && Options(q, defs) == ContextualOptions(Some(suggestions), p.word, 0)
  {
  }

  /** While active, ArrowDown keeps the selection in range, ArrowUp keeps an
      in-range selection in range, and Escape hides the popup. */
  lemma NavigateSpec(p: Popup, defs: seq<RawItem>, key: Key)
    requires Active(p, defs)
    ensures key == ArrowDown ==> Navigate(p, defs, key).selected < |Options(p, defs)|
    ensures key == ArrowUp && p.selected < |Options(p, defs)| ==>
      Navigate(p, defs, key).selected < |Options(p, defs)|
    ensures key == Escape ==> !Active(Navigate(p, defs, key), defs)
    ensures key in {ArrowDown, ArrowUp} ==>
      |Options(Navigate(p, defs, key), defs)| == |Options(p, defs)|
      && forall k :: 0 <= k < |Options(p, defs)| ==>
           Options(Navigate(p, defs, key), defs)[k].item == Options(p, defs)[k].item
  {
    if key == ArrowUp && p.selected < |Options(p, defs)| {
      UpUndoesDown(p.selected, |Options(p, defs)|);
    }
    SelectionKeepsRows(p, defs, Navigate(p, defs, key).selected);
  }

  /** Moving the selection changes which row is marked, never the rows. */
  lemma SelectionKeepsRows(p: Popup, defs: seq<RawItem>, sel: nat)
    ensures |Options(p.(selected := sel), defs)| == |Options(p, defs)|
    ensures forall k :: 0 <= k < |Options(p, defs)| ==>
      Options(p.(selected := sel), defs)[k].item == Options(p, defs)[k].item
  {
  }

  // ---------------------------------------------------------------------
  // The editor object

  class CmlCodeEditor {
    var attributeDefinitions: seq<RawItem>
    var showAutocomplete: bool
    var autocompletePosition: Position
    var selectedIndex: nat
    var internalValue: string
    var currentWord: string
    var cursorPosition: int
    var contextualMode: bool
    var contextualSuggestions: Option<seq<RawItem>>
    /** The events dispatched so far, oldest first. */
    ghost var emitted: seq<EditorEvent>

    constructor (defs: seq<RawItem>)
      ensures attributeDefinitions == defs && internalValue == "" && cursorPosition == 0
      ensures State() == Popup(false, 0, "", false, None, Position(0, 0)) && emitted == []
    {
      attributeDefinitions := defs;
      showAutocomplete := false;
      autocompletePosition := Position(0, 0);
      selectedIndex := 0;
      internalValue := "";
      currentWord := "";
      cursorPosition := 0;
      contextualMode := false;
      contextualSuggestions := None;
      emitted := [];
    }

    function State(): Popup
      reads this
    {
      Popup(showAutocomplete, selectedIndex, currentWord, contextualMode, contextualSuggestions, autocompletePosition)
    }

    /** The `filteredOptions` getter. */
    function FilteredOptions(): seq<PopupOption>
      reads this
    {
      Options(State(), attributeDefinitions)
    }

    method HideAutocomplete()
      modifies this`showAutocomplete, this`currentWord, this`selectedIndex
      modifies this`contextualMode, this`contextualSuggestions
      ensures State() == Hide(old(State()))
    {
      showAutocomplete := false;
      currentWord := "";
      selectedIndex := 0;
      contextualMode := false;
      contextualSuggestions := None;
    }

    method CalculateAutocompletePosition(text: string, cursor: nat)
      requires cursor <= |text|
      modifies this`autocompletePosition
      ensures autocompletePosition == Anchor(text[..cursor])
    {
      var lines := SplitLines(text[..cursor]);
      var currentLine := |lines|;
      var currentColumn := |lines[|lines| - 1]|;
      autocompletePosition := Position(currentLine * LineHeight, currentColumn * CharWidth);
    }

    /** The `requestcontext` event a scan result asks for, if any. */
    static function ContextRequests(c: Caret): seq<EditorEvent>
    {
      if c.Contextual? then [RequestContext(c.contextValue, c.searchTerm)] else []
    }

    method CheckAutocomplete(text: string, cursor: nat)
      requires cursor <= |text|
      modifies this`showAutocomplete, this`currentWord, this`selectedIndex
      modifies this`contextualMode, this`contextualSuggestions, this`autocompletePosition, this`emitted
      ensures State() == AfterScan(old(State()), attributeDefinitions, Scan(attributeDefinitions, text[..cursor]), text[..cursor])
      ensures emitted == old(emitted) + ContextRequests(Scan(attributeDefinitions, text[..cursor]))
    {
      var scan := Scan(attributeDefinitions, text[..cursor]);
      ApplyScan(scan, text, cursor);
    }

    /** The branches of `checkAutocomplete` once the scan result is known. */
    method ApplyScan(scan: Caret, text: string, cursor: nat)
      requires cursor <= |text|
      modifies this`showAutocomplete, this`currentWord, this`selectedIndex
      modifies this`contextualMode, this`contextualSuggestions, this`autocompletePosition, this`emitted
      ensures State() == AfterScan(old(State()), attributeDefinitions, scan, text[..cursor])
      ensures emitted == old(emitted) + ContextRequests(scan)
    {
      match scan {
        case Contextual(contextValue, term) =>
          currentWord := term;
          emitted := emitted + [RequestContext(contextValue, term)];
        case UnresolvedBracket =>
          HideAutocomplete();
        case Bare(word) =>
          if contextualMode {
            contextualMode := false;
            contextualSuggestions := None;
          }
          if |word| >= 2 {
            currentWord := word;
            var options := FilteredOptions();
            if |options| > 0 {
              selectedIndex := 0;
              CalculateAutocompletePosition(text, cursor);
              showAutocomplete := true;
            } else {
              HideAutocomplete();
            }
          } else {
            HideAutocomplete();
          }
      }
    }

    /** `handleInput`: take the new text and caret, report the change, rescan. */
    method HandleInput(text: string, cursor: nat)
      requires cursor <= |text|
      modifies this
      ensures internalValue == text && cursorPosition == cursor
      ensures attributeDefinitions == old(attributeDefinitions)
      ensures State() == AfterScan(old(State()), attributeDefinitions, Scan(attributeDefinitions, text[..cursor]), text[..cursor])
      ensures emitted == old(emitted) + [Change(text)] + ContextRequests(Scan(attributeDefinitions, text[..cursor]))
    {
      ghost var popup := State();
      internalValue := text;
      cursorPosition := cursor;
      emitted := emitted + [Change(text)];
      assert State() == popup;
      CheckAutocomplete(text, cursor);
    }

    /** The effect of accepting option `sel` of the options shown before the
        call. With no options nothing happens; with `sel` past the end the
        handler fails before changing anything; otherwise the word run before
        the caret is replaced by the option's insertion text, an `idmapping`
        event is reported for identifier-bearing kinds, then a `change`
        event, the popup is hidden, and the caret goes right after the
        inserted text. */
    twostate predicate Inserts(sel: nat, text: string, cursor: nat, outcome: InsertOutcome)
      requires cursor <= |text|
      reads this
    {
      var opts := old(FilteredOptions());
      if |opts| == 0 || sel >= |opts| then
        outcome == (if |opts| == 0 then NoOptions else SelectionOutOfRange)
        && internalValue == old(internalValue) && emitted == old(emitted)
        && State() == old(State()).(selected := sel)
      else
        var o := opts[sel].item;
        var ins := InsertionText(o);
        outcome == Inserted(WordStart(text, cursor) + |ins|)
        && internalValue == Splice(text, cursor, ins)
        && emitted == old(emitted)
             + (if IsIdentifierBearing(o.kind) then [IdMapping(ins, o.value, o.kind)] else [])
             + [Change(internalValue)]
        && State() == Hide(old(State()))
    }

    method InsertAutocomplete(text: string, cursor: nat) returns (outcome: InsertOutcome)
      requires cursor <= |text|
      modifies this`internalValue, this`emitted, this`showAutocomplete, this`currentWord
      modifies this`selectedIndex, this`contextualMode, this`contextualSuggestions
      ensures Inserts(old(selectedIndex), text, cursor, outcome)
    {
      var options := FilteredOptions();
      if |options| == 0 {
        return NoOptions;
      }
      if selectedIndex >= |options| {
        return SelectionOutOfRange;
      }
      outcome := Accept(text, cursor, options[selectedIndex].item);
    }

    /** The accepting half of `insertAutocomplete`: splice the option's
        insertion text over the word before the caret, report the id mapping
        for identifier-bearing kinds and the new value, and hide the popup. */
    method Accept(text: string, cursor: nat, selectedOption: SuggestionItem) returns (outcome: InsertOutcome)
      requires cursor <= |text|
      modifies this`internalValue, this`emitted, this`showAutocomplete, this`currentWord
      modifies this`selectedIndex, this`contextualMode, this`contextualSuggestions
      ensures var ins := InsertionText(selectedOption);
        outcome == Inserted(WordStart(text, cursor) + |ins|)
        && internalValue == Splice(text, cursor, ins)
        && emitted == old(emitted)
             + (if IsIdentifierBearing(selectedOption.kind)
                then [IdMapping(ins, selectedOption.value, selectedOption.kind)] else [])
             + [Change(internalValue)]
        && State() == Hide(old(State()))
    {
      var wordStart := WordStart(text, cursor);
      var insertValue := InsertionText(selectedOption);
      var newValue := text[..wordStart] + insertValue + text[cursor..];
      var mapping := if IsIdentifierBearing(selectedOption.kind)
        then [IdMapping(insertValue, selectedOption.value, selectedOption.kind)] else [];
      internalValue := newValue;
      emitted := emitted + mapping + [Change(newValue)];
      HideAutocomplete();
      outcome := Inserted(wordStart + |insertValue|);
    }

    /** `handleKeyDown`: while the popup is active, Enter and Tab accept the
        selected option and the other keys navigate; otherwise nothing changes. */
    method HandleKeyDown(key: Key, text: string, cursor: nat) returns (outcome: Option<InsertOutcome>)
      requires cursor <= |text|
      modifies this
      ensures if old(Active(State(), attributeDefinitions)) && key in {Enter, Tab} then
          outcome.Some? && Inserts(old(selectedIndex), text, cursor, outcome.value)
        else
          outcome == None && State() == Navigate(old(State()), attributeDefinitions, key)
          && internalValue == old(internalValue) && emitted == old(emitted)
      ensures attributeDefinitions == old(attributeDefinitions) && cursorPosition == old(cursorPosition)
    {
      outcome := None;
      var n := |FilteredOptions()|;
      if showAutocomplete && n > 0 {
        match key {
          case ArrowDown =>
            selectedIndex := NextIndex(selectedIndex, n);
          case ArrowUp =>
            selectedIndex := PrevIndex(selectedIndex, n);
          case Enter =>
            var o := InsertAutocomplete(text, cursor);
            outcome := Some(o);
          case Tab =>
            var o := InsertAutocomplete(text, cursor);
            outcome := Some(o);
          case Escape =>
            HideAutocomplete();
          case OtherKey =>
        }
      }
    }

    /** `handleOptionClick`: select the clicked row, then accept it. */
    method HandleOptionClick(index: nat, text: string, cursor: nat) returns (outcome: InsertOutcome)
      requires cursor <= |text|
      modifies this`internalValue, this`emitted, this`showAutocomplete, this`currentWord
      modifies this`selectedIndex, this`contextualMode, this`contextualSuggestions
      ensures Inserts(index, text, cursor, outcome)
    {
      SelectionKeepsRows(State(), attributeDefinitions, index);
      selectedIndex := index;
      outcome := InsertAutocomplete(text, cursor);
    }

    /** `showContextualSuggestions`, the parent's reply to a `requestcontext`
        event. */
    method ShowContextualSuggestions(suggestions: Option<seq<RawItem>>, text: string, cursor: nat)
      requires cursor <= |text|
      modifies this`contextualMode, this`contextualSuggestions, this`selectedIndex
      modifies this`autocompletePosition, this`showAutocomplete
      ensures State() == AfterContext(old(State()), suggestions, text[..cursor])
    {
      contextualMode := true;
      contextualSuggestions := suggestions;
      var options := ContextualOptions(contextualSuggestions, currentWord, selectedIndex);
      if |options| > 0 {
        selectedIndex := 0;
        CalculateAutocompletePosition(text, cursor);
        showAutocomplete := true;
      }
    }
  }
}
