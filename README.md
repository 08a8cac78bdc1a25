# Multi-select autocomplete widget — a Dafny model

This project models the state logic of a React Native multi-select
autocomplete component (`AutocompleteComponent`). The component takes a
`data` prop: named categories, each holding a list of option strings. The
user types a query. The results panel shows each category's options that
contain the query, ignoring letter case. The user taps options to select
them; selections show up as removable tags. A clear button empties the
selection, and an arrow button opens and closes the panel.

The component keeps four pieces of state: `query`, `isFocused`,
`selectedItems` and `parentHeight`. Its event handlers overwrite them. The
filtered view `filteredData` is computed again on every render. The model
follows that split:

- `text.dfy` (module `Text`): the two string primitives the filter uses.
  `Lower` is `toLowerCase` restricted to ASCII letters. `Contains` is
  `includes`, tied to the reference meaning "occurs at some position".
- `array_ops.dfy` (module `ArrayOps`): `Array.prototype.filter` as `KeepIf`,
  with its characterisation. The result is the subsequence at exactly the
  positions whose element passes the test, in their original order. The
  module also defines the `NoDuplicates` invariant.
- `query_filter.dfy` (module `QueryFilter`): `filteredData` as `Filter`.
  Categories are a sequence of `Category(key, options)` in `Object.keys`
  order. The module also proves lemmas about the filter's keys, its
  per-category subsequences, the empty query and letter case.
- `selection.dfy` (module `Selection`): the pure updates the selection
  handlers perform. `Select` appends an option unless it is already
  selected; `Deselect` keeps every option other than the removed one.
- `widget.dfy` (module `Widget`): the component. `State` and `Step` give one
  atomic transition per event, and `Run` applies a sequence of events in
  order. `Render` builds the view model. The `Autocomplete` class has the
  four state fields and one method per handler. Each method's contract
  states the new value of every field and ties the object to `Step`.

## Model

| member | source | states |
|---|---|---|
| `Text.LowerChar` | components/AutoCompleteComponent.tsx:34 | a lower-cased character is never an ASCII capital; capitals map to the matching small letter and other characters are unchanged |
| `Text.Lower` | components/AutoCompleteComponent.tsx:34 | lower-casing keeps the length and lowers each character in place |
| `Text.LowerIdempotent` | components/AutoCompleteComponent.tsx:34 | lower-casing twice equals lower-casing once |
| `Text.Contains` | components/AutoCompleteComponent.tsx:34 | `includes` always finds the empty needle and never finds a needle longer than the text |
| `Text.ContainsIffOccurs` | components/AutoCompleteComponent.tsx:34 | `includes` holds exactly when the needle occurs at some start position of the text |
| `ArrayOps.KeepIf` | components/AutoCompleteComponent.tsx:33-35 | `filter` never lengthens its input, and every element it returns passes the test |
| `ArrayOps.KeepIfPositions` | components/AutoCompleteComponent.tsx:33-35 | `filter` returns the elements at increasing positions, and those positions are exactly the ones whose element passes the test: the passing subsequence in input order |
| `ArrayOps.KeepIfCount` | components/AutoCompleteComponent.tsx:33-35 | an element occurs in the result as often as in the input if it passes the test, and not at all otherwise |
| `ArrayOps.KeepIfAll` | components/AutoCompleteComponent.tsx:33-35 | when every element passes, `filter` returns its input unchanged |
| `ArrayOps.KeepIfAppend` | components/AutoCompleteComponent.tsx:49 | filtering a concatenation concatenates the filtered parts |
| `ArrayOps.KeepIfAgree` | components/AutoCompleteComponent.tsx:33-35 | two tests that agree on every element filter identically |
| `ArrayOps.KeepIfNoDuplicates` | components/AutoCompleteComponent.tsx:49 | filtering a duplicate-free sequence yields a duplicate-free sequence |
| `QueryFilter.Matches` | components/AutoCompleteComponent.tsx:34 | an option matches exactly when the lower-cased query occurs at some position of the lower-cased option; every option matches the empty query |
| `QueryFilter.FilterOptions` | components/AutoCompleteComponent.tsx:33-35 | an option is in a category's filtered list exactly when it is among the category's options and its lower-case form contains the lower-cased query |
| `QueryFilter.Filter` | components/AutoCompleteComponent.tsx:28-39 | the result has one entry per input category, in key order, and each entry holds the filtered options of that same category |
| `QueryFilter.Lookup` | components/AutoCompleteComponent.tsx:33 | `data[key]` is absent exactly when no category has that key, and otherwise holds the options of the first category with that key |
| `QueryFilter.FilterLookup` | components/AutoCompleteComponent.tsx:31-39 | `filteredData[key]` exists exactly when `data[key]` does, and holds that category's filtered options |
| `QueryFilter.FilterOptionsPositions` | components/AutoCompleteComponent.tsx:33-35 | a category's filtered list is its options at exactly the positions whose option matches the query, in their original order |
| `QueryFilter.FilterOptionsEmptyQuery` | components/AutoCompleteComponent.tsx:33-34 | with the empty query a category keeps all its options unchanged |
| `QueryFilter.FilterEmptyQuery` | components/AutoCompleteComponent.tsx:31-39 | with the empty query the filtered view equals the input categories |
| `QueryFilter.FilterIgnoresQueryCase` | components/AutoCompleteComponent.tsx:34 | two queries with the same lower-case form give the same filtered view |
| `QueryFilter.MatchesIgnoresItemCase` | components/AutoCompleteComponent.tsx:34 | an option matches exactly when its lower-case form matches |
| `Selection.Select` | components/AutoCompleteComponent.tsx:41-46 | the option is selected afterwards; the old selection is a prefix of the new one, which is at most one longer; nothing but the option is added; no duplicate is introduced. On a duplicate-free selection these clauses fix the result (see `SelectContractIsExact`) |
| `Selection.SelectIdempotent` | components/AutoCompleteComponent.tsx:41-46 | selecting the same option twice equals selecting it once |
| `Selection.SelectContractIsExact` | components/AutoCompleteComponent.tsx:42-44 | any result meeting `Select`'s contract on a duplicate-free selection is the old selection if the option was already selected, and the old selection with the option appended otherwise |
| `Selection.Deselect` | components/AutoCompleteComponent.tsx:48-51 | every occurrence of the option is removed and every other option keeps its count; no duplicate is introduced |
| `Selection.DeselectPositions` | components/AutoCompleteComponent.tsx:49 | the remaining options are the old ones at exactly the positions not holding the removed option, in their old relative order |
| `Selection.DeselectAbsent` | components/AutoCompleteComponent.tsx:49 | removing an option that is not selected leaves the selection unchanged |
| `Selection.DeselectUnique` | components/AutoCompleteComponent.tsx:48-51 | in a duplicate-free selection, removing an option deletes its single occurrence and closes the gap |
| `Selection.SelectionSession` | components/AutoCompleteComponent.tsx:41-51 | selecting a, b, a gives [a, b], not [b, a]; removing a then gives [b] |
| `Widget.Step` | components/AutoCompleteComponent.tsx:41-68 | only typing changes the query, only the two focus handlers change the open state, only a layout event changes the height, and no handler introduces a duplicate selection |
| `Widget.Run` | components/AutoCompleteComponent.tsx:41-68 | the handlers applied one at a time in delivery order never introduce a duplicate into a duplicate-free selection |
| `Widget.RunAppend` | components/AutoCompleteComponent.tsx:41-68 | handling two batches of events in turn is the same as handling their concatenation: the state depends only on the events so far, in order |
| `Widget.InitialView` | components/AutoCompleteComponent.tsx:23-26 | on mount the query is empty, the results view holds every category in full, nothing is selected, the panel is closed and its offset is 5 |
| `Widget.FocusTransitions` | components/AutoCompleteComponent.tsx:57-63 | a request to open always opens the panel and repeating it changes nothing; a toggle flips the flag and two toggles restore the state; neither touches the query, the selection or the height |
| `Widget.OnlyFocusEventsChangeFocus` | components/AutoCompleteComponent.tsx:41-68 | a sequence of typing, selection and layout events never opens or closes the panel |
| `Widget.LatestMeasurementWins` | components/AutoCompleteComponent.tsx:65-68 | after a measurement followed by any non-measurement events, the height is that measurement and the panel offset is that height plus 5 |
| `Widget.Render` | components/AutoCompleteComponent.tsx:100-102 | the rendered results have one section per category key, in key order |
| `Widget.ResultsDependOnlyOnQuery` | components/AutoCompleteComponent.tsx:113-125 | events other than typing leave the filtered results unchanged; typing sets them to the filter of the new text; a tapped option is rendered disabled afterwards |
| `Widget.IsDisabled` | components/AutoCompleteComponent.tsx:120-125 | a result row is disabled exactly when selecting its option would leave the selection unchanged, the guard of `handleSelectItem` |
| `Widget.DisabledTapIsNoOp` | components/AutoCompleteComponent.tsx:41-46 | a row is disabled exactly when tapping its option would leave the whole state unchanged: the disabled flag and the handler's guard agree in both directions |
| `Widget.Autocomplete.constructor` | components/AutoCompleteComponent.tsx:23-26 | a new widget has an empty query, a closed panel, no selection and height 0 |
| `Widget.Autocomplete.HandleChangeText` | components/AutoCompleteComponent.tsx:89 | the query becomes the typed text verbatim; nothing else changes |
| `Widget.Autocomplete.HandleSelectItem` | components/AutoCompleteComponent.tsx:41-46 | the selection becomes `Select` of the old one; the invariant holds; nothing else changes |
| `Widget.Autocomplete.HandleRemoveItem` | components/AutoCompleteComponent.tsx:48-51 | the selection becomes `Deselect` of the old one; the invariant holds; nothing else changes |
| `Widget.Autocomplete.HandleRemoveAllSelectedItems` | components/AutoCompleteComponent.tsx:53-55 | the selection becomes empty; nothing else changes |
| `Widget.Autocomplete.HandleSetFocus` | components/AutoCompleteComponent.tsx:57-60 | the panel is open afterwards; nothing else changes |
| `Widget.Autocomplete.HandleChangeFocus` | components/AutoCompleteComponent.tsx:61-63 | the open flag is negated; nothing else changes |
| `Widget.Autocomplete.HandleParentLayout` | components/AutoCompleteComponent.tsx:65-68 | the height becomes the measured height; nothing else changes |

Two points where the code's behaviour is narrower or broader than the
widget's intent:

- Removing a tag filters out every occurrence of the option
  (`components/AutoCompleteComponent.tsx:49`), not just the one tag tapped.
  The model follows the code. `Selection.DeselectUnique` shows that this is
  the same as deleting the one occurrence on any duplicate-free selection,
  and the contract of `Widget.Run` shows that the widget only ever holds
  such selections.
- The component has no handler for a tap outside the widget. A tap on the
  widget outside its buttons requests opening (lines 71 and 84), and only
  the arrow button toggles (line 95). The model has exactly these two focus
  events.

## Left out

- `toLowerCase` is modelled for ASCII letters only. Unicode case mapping
  (including mappings that change a string's length) is host-library
  behaviour.
- `inputRef.current?.focus()` (line 59) calls into the native text input.
  Only its effect on the `isFocused` flag is modelled.
- React's state scheduling is not modelled: batching, asynchronous
  `setState`, and handlers that read a stale closure (such as `!isFocused`
  on line 62). Each handler is one atomic transition on the current state.
- Heights are JavaScript numbers, which may be fractional. They are
  modelled as `int`, because only "latest value wins" and "+ 5" matter.
- `Object.keys` lists integer-like keys first, in ascending order. The model
  takes the categories in the order `Object.keys` returns them. It reads a
  key as the first category with that name, so the model does not assume
  distinct keys.
- Everything about rendering is left out: styles, JSX layout, `FlatList`,
  the "No options found" text, category-title capitalisation (line 103), tag
  keys, and the whole of `components/SelectedItemsDisplay.tsx`. That file
  only shows a clear button while the selection is non-empty and forwards
  the two callbacks.
- The component does not check a tapped option against the category data,
  and neither does the model: any string can be selected.
