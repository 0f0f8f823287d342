# CML code editor and constraint studio — a Dafny model

This project models the two Lightning Web Components at the heart of the CML
authoring tools:

- **`cmlCodeEditor`** is a text area with an autocomplete popup.
  - **Static pool.** Outside brackets, the `\w` run before the caret is
    looked up in a static pool of attribute definitions
    (`filteredOptions`).
  - **Context trigger.** Inside an unclosed `[`, the word before the bracket
    may name a product context. It can be a `REL_ProductComponentGroup_…` or
    `REL_ProductRelatedComponent_…` identifier, or a product's human-readable
    name found in the static pool. The editor then asks its parent for a
    contextual pool (`requestcontext`) and filters the reply
    (`showContextualSuggestions`, `getContextualFilteredOptions`).
  - **Keys.** ArrowDown and ArrowUp cycle the selection, Enter and Tab accept
    it, and Escape hides the popup (`handleKeyDown`).
  - **Accepting.** Accepting splices the option over the word before the
    caret and reports `idmapping` and `change` events (`insertAutocomplete`).
  - **Escaping helpers.** The syntax highlighter's HTML escape pass and
    `escapeRegex` are also modelled.
- **`constraintStudio`** sorts CML snippets into five collapsible sections by
  the keywords their CML text contains (`groupSnippets`). It toggles a
  section (`handleToggleSection`) and lists the sections for the template
  (`sections`).

Layout, one module per file:

| file | module | what it holds |
|---|---|---|
| `wrappers.dfy` | `Wrappers` | `Option` |
| `text.dfy` | `Text` | `\w`, `\s`, ASCII `toLowerCase`, `includes`, `/[\w]+$/`, `/\s*$/`, `lastIndexOf`, a forward `indexOf` |
| `seqs.dfy` | `Seqs` | order-preserving `Filter` and the positions it keeps |
| `suggestions.dfy` | `Suggestions` | suggestion records, their normalisation, both filters |
| `caret_scan.dfy` | `CaretScan` | the regular-expression decisions of `checkAutocomplete` |
| `escaping.dfy` | `Escaping` | the HTML escape pass and `escapeRegex` |
| `cml_code_editor.dfy` | `CodeEditor` | the popup as a value, its transitions, and the `CmlCodeEditor` class |
| `constraint_studio.dfy` | `Studio` | snippet groups, their transitions, and the `ConstraintStudio` class |

The two components keep state between events, so each one is a class.
- **Code editor fields.**
  - The popup fields (`showAutocomplete`, `selectedIndex`, `currentWord`,
    `contextualMode`, `contextualSuggestions`, `autocompletePosition`).
  - `internalValue` and `cursorPosition`.
  - `attributeDefinitions`, the static pool, which no handler changes.
  - A ghost list of the events dispatched so far.
- **Studio fields.** `snippets` and `groupedSnippets`.

Every handler is a method that changes only these fields. Its `ensures`
gives the new state as a function of the old one (`AfterScan`,
`AfterContext`, `Navigate`, `Hide`, `Regrouped`, `Toggled`), and lemmas prove
what the components promise about those functions.

Behaviour of the code that the model follows, and that a reader might not
expect:

- **Leftmost bracket.**
  - The search term of a bracket trigger is what `/\[([^\]]*?)$/` captures:
    the text after the leftmost `[` with no `]` after it.
  - The word that names the context is read before the last `[`
    (`lastIndexOf('[')`).
  - In `a[b[c` the term is therefore `b[c` and the context word is `b`.
- **Stale selection.**
  - A context trigger replaces `currentWord` without resetting
    `selectedIndex`. So a narrower term can leave the selection past the
    end of the contextual list while the popup stays shown.
  - If the user accepts that selection, `filteredOptions[selectedIndex]` is
    `undefined` and `insertAutocomplete` throws before changing anything.
  - The model gives this outcome a name, `SelectionOutOfRange`, and leaves
    the state unchanged.
  - `CodeEditor.NarrowingLeavesStaleIndex` and
    `CodeEditor.StaleSelectionAfterTrigger` exhibit the case.
- **Missing fields.** A missing optional field of a suggestion record
  (JavaScript `undefined`) is the empty string. A suggestion given as a bare
  string is `Plain`.

## Model

| member | source | states |
|---|---|---|
| Text.Lower | force-app/main/default/lwc/cmlCodeEditor/cmlCodeEditor.js:102 | the lowered word has the input's length and each character is the character lowered |
| Text.ContainsAt | force-app/main/default/lwc/cmlCodeEditor/cmlCodeEditor.js:108-109 | `includes` holds exactly when the needle occurs at some offset of the haystack |
| Text.TrailingWord | force-app/main/default/lwc/cmlCodeEditor/cmlCodeEditor.js:234 | the match of `/[\w]+$/` (empty when none) is a suffix made of `\w` characters and is not preceded by one |
| Text.TrailingWordUnique | force-app/main/default/lwc/cmlCodeEditor/cmlCodeEditor.js:279-280 | any suffix of `\w` characters not preceded by one is the trailing word |
| Text.TrimEnd | force-app/main/default/lwc/cmlCodeEditor/cmlCodeEditor.js:181 | dropping the run `\s*$` leaves a prefix, all dropped characters are white space, and the prefix does not end in white space |
| Text.LastIndexOf | force-app/main/default/lwc/cmlCodeEditor/cmlCodeEditor.js:178 | `lastIndexOf` is -1 or a position holding the character, with no later occurrence |
| Text.IndexOfFrom | force-app/main/default/lwc/cmlCodeEditor/cmlCodeEditor.js:174 | the first occurrence at or after a position, or -1 when there is none |
| Seqs.FilterIndices | force-app/main/default/lwc/cmlCodeEditor/cmlCodeEditor.js:103-110 | `filter` keeps exactly the elements that pass, in their original order (ascending kept positions) |
| Seqs.FilterKeepsAll | force-app/main/default/lwc/cmlCodeEditor/cmlCodeEditor.js:366-368 | a filter every element passes returns its input |
| Suggestions.StaticOptionsSpec | force-app/main/default/lwc/cmlCodeEditor/cmlCodeEditor.js:92-130 | static options: none for a word under two characters; otherwise exactly the definitions whose lowered value or display name contains the lowered word, in order, normalised with default type Attribute, only row `selectedIndex` marked |
| Suggestions.StaticOptionsNonEmpty | force-app/main/default/lwc/cmlCodeEditor/cmlCodeEditor.js:98-110 | the static list is non-empty iff the word has two or more characters and some definition matches it |
| Suggestions.ContextualOptionsSpec | force-app/main/default/lwc/cmlCodeEditor/cmlCodeEditor.js:359-397 | contextual options: none for a null or empty pool; otherwise exactly the pool items whose value, display name or actual name contains the lowered word, in order, default type Product, only row `selectedIndex` marked |
| Suggestions.ContextualEmptyTermKeepsPool | force-app/main/default/lwc/cmlCodeEditor/cmlCodeEditor.js:364-368 | with an empty search term the whole non-empty pool is listed, in order |
| CaretScan.OpenBracketSpec | force-app/main/default/lwc/cmlCodeEditor/cmlCodeEditor.js:174-176 | `/\[([^\]]*?)$/` matches iff some `[` has no `]` after it, and it matches at the leftmost such `[` |
| CaretScan.RelFromFirst | force-app/main/default/lwc/cmlCodeEditor/cmlCodeEditor.js:181 | the `REL_…` match found is the leftmost one: no `REL_…` token starts earlier |
| CaretScan.FindLabelFirst | force-app/main/default/lwc/cmlCodeEditor/cmlCodeEditor.js:203-206 | `find` returns the first record whose actualName is the word and whose type is ProductComponentGroup or Product |
| CaretScan.Resolve | force-app/main/default/lwc/cmlCodeEditor/cmlCodeEditor.js:180-224 | inside a bracket the outcome is never a bare word, and a trigger carries the captured search term |
| CaretScan.ScanSpec | force-app/main/default/lwc/cmlCodeEditor/cmlCodeEditor.js:166-250 | the caret is on a bare word iff no `[` is unclosed, that word is the trailing `\w` run, and a trigger's search term is the `]`-free text after the leftmost unclosed `[` |
| CaretScan.ScanInBracket | force-app/main/default/lwc/cmlCodeEditor/cmlCodeEditor.js:176-224 | inside a bracket the decision is the context word's resolution with the text after the match as the term |
| CaretScan.RelTriggerWins | force-app/main/default/lwc/cmlCodeEditor/cmlCodeEditor.js:181-195 | when the word before the bracket ends in a `REL_…` token the trigger is that token (the longest one), whatever the static pool holds |
| CaretScan.LabelTrigger | force-app/main/default/lwc/cmlCodeEditor/cmlCodeEditor.js:197-224 | otherwise a trigger fires iff the word is non-empty and labels some product record, with the first such record's value; else the popup is hidden |
| CaretScan.BracketAfter | force-app/main/default/lwc/cmlCodeEditor/cmlCodeEditor.js:174-178 | a single `[` followed by a bracket-free term is both the match position and `lastIndexOf('[')` |
| CaretScan.IdentifierBeforeBracket | force-app/main/default/lwc/cmlCodeEditor/cmlCodeEditor.js:178-198 | for an identifier typed before `[`, the match sits right after it and the context word is the identifier |
| CaretScan.IdentifierTrigger | force-app/main/default/lwc/cmlCodeEditor/cmlCodeEditor.js:171-195 | typing `REL_…[term` triggers a contextual fetch for that identifier with that term |
| Escaping.EscapePass | force-app/main/default/lwc/cmlCodeEditor/cmlCodeEditor.js:43-44 | empty code yields the empty string |
| Escaping.EscapeHtmlAppend | force-app/main/default/lwc/cmlCodeEditor/cmlCodeEditor.js:47-50 | the three chained global replacements distribute over concatenation |
| Escaping.EscapeHtmlSingle | force-app/main/default/lwc/cmlCodeEditor/cmlCodeEditor.js:47-50 | on one character the chain yields that character's entity (`&` is not escaped twice) |
| Escaping.EscapeHtmlIsCharwise | force-app/main/default/lwc/cmlCodeEditor/cmlCodeEditor.js:47-50 | the chain equals the one-pass, character-by-character escape |
| Escaping.EscapePassSafe | force-app/main/default/lwc/cmlCodeEditor/cmlCodeEditor.js:43-50 | the escaped text has no raw `<` or `>` and every `&` starts `&amp;`, `&lt;` or `&gt;` |
| Escaping.EscapeEachRoundTrip | force-app/main/default/lwc/cmlCodeEditor/cmlCodeEditor.js:47-50 | decoding the one-pass escape gives back the input |
| Escaping.EscapePassRoundTrip | force-app/main/default/lwc/cmlCodeEditor/cmlCodeEditor.js:43-50 | decoding the escape pass's output gives back the code |
| Escaping.EscapeRegexLiteral | force-app/main/default/lwc/cmlCodeEditor/cmlCodeEditor.js:88-90 | `escapeRegex` yields a pattern of plain characters and escaped specials that matches exactly its input |
| CodeEditor.NextIndex | force-app/main/default/lwc/cmlCodeEditor/cmlCodeEditor.js:153 | ArrowDown stays below the option count, counts up, and wraps from the last row to 0 |
| CodeEditor.UpUndoesDown | force-app/main/default/lwc/cmlCodeEditor/cmlCodeEditor.js:151-156 | for an in-range index ArrowUp stays in range and ArrowUp and ArrowDown undo each other |
| CodeEditor.DownsCycle | force-app/main/default/lwc/cmlCodeEditor/cmlCodeEditor.js:153 | `n` presses of ArrowDown over `n` options return to the start |
| CodeEditor.DownsNoEarlyReturn | force-app/main/default/lwc/cmlCodeEditor/cmlCodeEditor.js:153 | fewer than `n` presses never return to the start: every row is visited |
| CodeEditor.SplitLinesSpec | force-app/main/default/lwc/cmlCodeEditor/cmlCodeEditor.js:255-257 | `split('\n')` yields one more line than there are newlines, and the last line is the newline-free tail |
| CodeEditor.AnchorSpec | force-app/main/default/lwc/cmlCodeEditor/cmlCodeEditor.js:252-267 | the popup's top is 24 times (newlines + 1), its left is 8 times the characters after the last newline |
| CodeEditor.SpliceSpec | force-app/main/default/lwc/cmlCodeEditor/cmlCodeEditor.js:277-293 | the splice replaces exactly the `\w` run ending at the caret: text before it and after the caret survive, the insertion sits between, and the new caret lands after it |
| CodeEditor.InsertionTextOfRaw | force-app/main/default/lwc/cmlCodeEditor/cmlCodeEditor.js:283-290 | ProductComponentGroup and Product insert their actual name (else value); all other types insert their value |
| CodeEditor.PoolOnlyInContextKept | force-app/main/default/lwc/cmlCodeEditor/cmlCodeEditor.js:227-231 | every transition keeps "no contextual pool outside contextual mode" |
| CodeEditor.ScanShows | force-app/main/default/lwc/cmlCodeEditor/cmlCodeEditor.js:176-249 | after a keystroke the popup is shown iff a trigger kept a shown popup, or the bare word has two or more characters and matches some static definition |
| CodeEditor.BareScanSelectsFirst | force-app/main/default/lwc/cmlCodeEditor/cmlCodeEditor.js:236-243 | a popup shown for a bare word is active on row 0 with the static options for that word, anchored at the caret |
| CodeEditor.TriggerKeepsSelection | force-app/main/default/lwc/cmlCodeEditor/cmlCodeEditor.js:183-195 | a trigger replaces the word but keeps the selection and visibility, so the pool is refiltered under the old index |
| CodeEditor.NarrowingLeavesStaleIndex | force-app/main/default/lwc/cmlCodeEditor/cmlCodeEditor.js:183-195 | a concrete narrowing trigger leaves a shown popup at index 1 of a one-row list |
| CodeEditor.StaleSelectionAfterTrigger | force-app/main/default/lwc/cmlCodeEditor/cmlCodeEditor.js:171-195 | typing `REL_…[ab` over a two-row pool at row 1 leaves that stale index |
| CodeEditor.ContextReplySelectsFirst | force-app/main/default/lwc/cmlCodeEditor/cmlCodeEditor.js:334-357 | a reply whose refiltered pool is non-empty makes the popup active, contextual, on row 0 |
| CodeEditor.SelectionKeepsRows | force-app/main/default/lwc/cmlCodeEditor/cmlCodeEditor.js:111-112 | changing the selected index changes which row is marked, never the number or content of the rows |
| CodeEditor.NavigateSpec | force-app/main/default/lwc/cmlCodeEditor/cmlCodeEditor.js:149-164 | while active, ArrowDown keeps the selection in range, ArrowUp keeps an in-range one in range, Escape deactivates, and the arrow keys leave the rows (count and items) unchanged |
| CodeEditor.CmlCodeEditor.constructor | force-app/main/default/lwc/cmlCodeEditor/cmlCodeEditor.js:4-13 | the initial field values: hidden popup, index 0, empty word and value, no context |
| CodeEditor.CmlCodeEditor.HideAutocomplete | force-app/main/default/lwc/cmlCodeEditor/cmlCodeEditor.js:399-405 | hides and resets word, index and contextual state, keeping the position |
| CodeEditor.CmlCodeEditor.CalculateAutocompletePosition | force-app/main/default/lwc/cmlCodeEditor/cmlCodeEditor.js:252-267 | stores the anchor of the text before the caret |
| CodeEditor.CmlCodeEditor.CheckAutocomplete | force-app/main/default/lwc/cmlCodeEditor/cmlCodeEditor.js:166-250 | the popup becomes `AfterScan` of the scan of the text before the caret, and a `requestcontext` event is reported exactly for a trigger |
| CodeEditor.CmlCodeEditor.ApplyScan | force-app/main/default/lwc/cmlCodeEditor/cmlCodeEditor.js:176-249 | each branch of `checkAutocomplete` moves the popup as `AfterScan` says |
| CodeEditor.CmlCodeEditor.HandleInput | force-app/main/default/lwc/cmlCodeEditor/cmlCodeEditor.js:136-147 | stores value and caret, reports `change`, then rescans |
| CodeEditor.CmlCodeEditor.InsertAutocomplete | force-app/main/default/lwc/cmlCodeEditor/cmlCodeEditor.js:269-319 | no options: nothing; stale index: failure with nothing changed; else splice, `idmapping` for product kinds, `change`, hide, caret after the insertion |
| CodeEditor.CmlCodeEditor.Accept | force-app/main/default/lwc/cmlCodeEditor/cmlCodeEditor.js:277-316 | the accepting half: splice, events in order, popup hidden, caret after the insertion |
| CodeEditor.CmlCodeEditor.HandleKeyDown | force-app/main/default/lwc/cmlCodeEditor/cmlCodeEditor.js:149-164 | while active Enter and Tab accept as `InsertAutocomplete` does; every other key moves the popup as `Navigate` says and changes neither value nor events |
| CodeEditor.CmlCodeEditor.HandleOptionClick | force-app/main/default/lwc/cmlCodeEditor/cmlCodeEditor.js:321-326 | accepts the clicked row as `InsertAutocomplete` would with that index |
| CodeEditor.CmlCodeEditor.ShowContextualSuggestions | force-app/main/default/lwc/cmlCodeEditor/cmlCodeEditor.js:334-357 | enters contextual mode with the pool, and shows it on row 0 at the caret when the refiltered pool is non-empty |
| Studio.Groups.Set | force-app/main/default/lwc/constraintStudio/constraintStudio.js:94 | writing one key changes that key and no other |
| Studio.KeyOrderComplete | force-app/main/default/lwc/constraintStudio/constraintStudio.js:40 | `Object.keys` lists every section key |
| Studio.SectionsOf | force-app/main/default/lwc/constraintStudio/constraintStudio.js:78-85 | five sections in key order, each with its group's label, items and flag, and `hasItems` iff it has items |
| Studio.BucketSpec | force-app/main/default/lwc/constraintStudio/constraintStudio.js:45-75 | a section holds exactly the snippets that belong to it, in snippet order |
| Studio.DefaultToConstraints | force-app/main/default/lwc/constraintStudio/constraintStudio.js:46-74 | a snippet with no keyword, or no CML text, goes to Constraints and nowhere else |
| Studio.EverySnippetGrouped | force-app/main/default/lwc/constraintStudio/constraintStudio.js:45-75 | every snippet lands in at least one section |
| Studio.BucketTotalAtLeast | force-app/main/default/lwc/constraintStudio/constraintStudio.js:45-75 | the sections together hold at least as many entries as there are snippets |
| Studio.RegroupedSnoc | force-app/main/default/lwc/constraintStudio/constraintStudio.js:45-75 | grouping one more snippet appends it to its sections after the earlier ones |
| Studio.RegroupedStep | force-app/main/default/lwc/constraintStudio/constraintStudio.js:45-75 | the loop step: grouping the first j+1 snippets places snippet j after the first j |
| Studio.RegroupSpec | force-app/main/default/lwc/constraintStudio/constraintStudio.js:38-76 | the result depends only on labels, flags and snippets, so regrouping is idempotent |
| Studio.PushesPlace | force-app/main/default/lwc/constraintStudio/constraintStudio.js:49-74 | the five keyword pushes and the fallback push append the snippet to exactly its sections, once each |
| Studio.Cleared | force-app/main/default/lwc/constraintStudio/constraintStudio.js:39-42 | the reset loop yields the groups of zero snippets |
| Studio.ToggleSpec | force-app/main/default/lwc/constraintStudio/constraintStudio.js:92-97 | toggling flips one flag, touches no items or labels, and twice is the identity |
| Studio.SectionsAfterGrouping | force-app/main/default/lwc/constraintStudio/constraintStudio.js:78-85 | after grouping, a section has items iff some snippet belongs to it |
| Studio.ConstraintStudio.constructor | force-app/main/default/lwc/constraintStudio/constraintStudio.js:12-19 | no snippets and five empty, expanded, labelled groups |
| Studio.ConstraintStudio.LoadSnippets | force-app/main/default/lwc/constraintStudio/constraintStudio.js:30-32 | stores the data and regroups it |
| Studio.ConstraintStudio.Push | force-app/main/default/lwc/constraintStudio/constraintStudio.js:51 | appends the snippet to one section's items |
| Studio.ConstraintStudio.PushIfMentioned | force-app/main/default/lwc/constraintStudio/constraintStudio.js:50-53 | pushes iff the lowered CML contains the keyword, and reports whether it did |
| Studio.ConstraintStudio.Place | force-app/main/default/lwc/constraintStudio/constraintStudio.js:46-74 | the loop body places the snippet in exactly its sections |
| Studio.ConstraintStudio.GroupSnippets | force-app/main/default/lwc/constraintStudio/constraintStudio.js:38-76 | the new groups are `Regrouped` of the old ones over the snippets: labels and flags kept, items rebuilt |
| Studio.ConstraintStudio.HandleToggleSection | force-app/main/default/lwc/constraintStudio/constraintStudio.js:92-97 | the groups become `Toggled` for the key |
| Studio.ConstraintStudio.Sections | force-app/main/default/lwc/constraintStudio/constraintStudio.js:78-85 | the getter lists five sections in key order, each with its group's current label, items and flag, and `hasItems` exactly when it has items |

## Left out

- The keyword, string, number, function, operator, product and attribute colouring passes of `applySyntaxHighlighting` are not modelled: they are regular-expression rewrites of markup and feed only the display.
- DOM access is not modelled: `renderedCallback`, `updateSyntaxHighlighting`, `querySelector`, `innerHTML` and focus. The text and caret that the handlers read from the text area are parameters instead.
- `Text.Lower`: lowers only the ASCII letters, because `toLowerCase` on the rest of Unicode is outside the model.
- `CodeEditor.CmlCodeEditor.CalculateAutocompletePosition`: stores the pixel numbers, not the `'px'` strings built from them.
- `CodeEditor.CmlCodeEditor.InsertAutocomplete`: returns the caret position rather than setting it in a `setTimeout` callback, because timers are outside the model.
- `CodeEditor.CmlCodeEditor.ShowContextualSuggestions`: assumes the text area exists, so the `if (textarea)` guard is not modelled.
- `handleBlur` is not modelled: it hides the popup after a 300 ms timer.
- `handleOptionMouseDown`, `preventDefault` and `stopPropagation` are not modelled: they have no effect on state.
- `console.log`, the popup's class names and `style` strings, and the `autocompleteStyle` getter are presentation only.
- `CodeEditor.CmlCodeEditor.HandleOptionClick`: takes the parsed row index as a natural number, so a `parseInt` that yields `NaN` is not modelled.
- Dispatched events are recorded in a ghost sequence, and the parent's handling of them is not modelled.
- `Suggestions.StaticOptionsSpec` and `Suggestions.ContextualOptionsSpec`: a record with an empty or missing `value` (or `displayName`) is filtered out or kept by its empty string, whereas `attr.value || attr` yields the record object itself and the filter then throws a TypeError on `toLowerCase`; record values and display names are taken to be non-empty, and a `type` string other than the five kinds is not represented.
- Offsets and lengths (the caret, `Anchor`'s column, `Inserted`'s caret) are counted in Unicode characters, not in the UTF-16 code units of JavaScript strings and `selectionStart`; they differ for text with characters outside the Basic Multilingual Plane, and lone surrogates cannot be represented.
- Section keys are a closed datatype, so a `data-key` naming no section (where the source would throw) cannot be expressed.
- The wire adapter's error branch with its toast, `handleSearchChange`, `handleAddSnippet`, `handleDeleteSnippet` and `handleSnippetClick` are not modelled: they are server calls and notifications.
- `cmlGeneratorButton` and the `CMLGeneratorUtility` Aura component are not part of this model.
