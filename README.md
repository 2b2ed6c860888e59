# tagInput: a verified model of the tag-collection state machine

`tagInput` is a jQuery plugin that turns a text field into a tag editor. The
user types one or more keywords, then presses Enter or clicks a button. Each
keyword becomes a removable "chip". A keyword already present is refused, and
so is any keyword beyond a configured limit. A message element shows the
last error.

This project models the `TagInput` prototype's state and its operations in
Dafny and proves what they do:

- `tokens.dfy`, module `Tokens`: the text handling of `addTagEvent`. This
  covers the emptiness test on the trimmed input, the rewriting of `；`
  (U+FF1B), `，` (U+FF0C) and `;` to `,`, and the split on `,`. It proves
  that split and join are inverse in both directions.
- `tag_list.dfy`, module `TagList`: the abstract state (ordered tags plus
  the last error message) and plain functions for each operation's effect:
  - `AddStep` is one `addTag`.
  - `AddAll` is `addTag` applied to a sequence in order.
  - `Submitted` is `addTagEvent`.
  - `RemoveFirst` is `removeValue`.

  It also holds the lemmas about these functions: the invariant (no
  duplicates, at most `limit` tags, never `""`), rejection without change,
  insertion order, and the error reflecting only the last call.
- `tag_input.dfy`, module `TagInputWidget`: the widget object as a class
  `TagInput` with fields `tagList`, `limit`, `lastError` and `enabled`.
  - Its methods update these fields in place, looping where the source
    loops.
  - Each method is proved against the functions of `TagList`.
  - `IndexOfValue` and `RemoveValue` take the list as a parameter, as in
    the source.
  - Three client methods replay the array and tag scenarios of the
    plugin's unit tests. A fourth exercises the enable/disable gate: a
    submission while disabled, then one after re-enabling. The unit tests
    of `disable` and `able` inspect jQuery's handler table, which is not
    modelled.

## Behaviour as written

The model follows the code. A reader may expect otherwise in these places:

- The split pieces are not trimmed. `addTag` refuses only the empty string,
  so `"a; "` stores both `"a"` and `" "` (`TagList.BlankPieceIsStored`), and
  `"a, a"` stores `"a"` and `" a"`.
- The ASCII comma separates pieces too, besides the three delimiters that
  are rewritten to it.
- Every `addTag` clears the error first. After a submission with several
  pieces, the error is that of the last piece only
  (`TagList.AddAllErrorIsLast`).
- `val(list)` adds to the tags already present. It does not replace them.
- Removing a tag that is absent changes nothing and reports nothing.
- `addTagEvent` itself is not guarded. Disabling only unbinds the Enter-key
  and button handlers, which are modelled by `TagInput.Submit`.
  `addTag`, `val` and `removeTag` still work on a disabled widget.

## Model

| member | source | states |
|---|---|---|
| `Tokens.TrimStart` | tagInput.js:84 | the result is `s` minus a blank prefix and does not start with white space |
| `Tokens.TrimEnd` | tagInput.js:84 | the result is `s` minus a blank suffix and does not end with white space |
| `Tokens.Trim` | tagInput.js:84 | neither end of the result is white space, and it is empty exactly when every character is white space |
| `Tokens.Normalize` | tagInput.js:85 | same length; each `；`, `，`, `;` becomes `,`, every other character is kept; no delimiter remains |
| `Tokens.Split` | tagInput.js:85 | at least one piece, and no piece contains `,` |
| `Tokens.JoinSplit` | tagInput.js:85 | joining the pieces with `,` gives back the split string |
| `Tokens.SplitJoin` | tagInput.js:85 | splitting comma-free pieces joined with `,` gives back the pieces |
| `Tokens.Join` | tagInput.js:85 | the joined string starts with the first piece, followed by a comma when more pieces come |
| `Tokens.Pieces` | tagInput.js:85 | at least one piece, none holding a comma, and joined with `,` they give the normalised input |
| `Tokens.PiecesExample` | tagInput.js:85-88 | `"x；y,z"` gives the pieces `"x"`, `"y"`, `"z"` in that order |
| `Tokens.PiecesBlankExample` | tagInput.js:85 | `"a; "` gives the untrimmed pieces `"a"` and `" "` |
| `TagList.Message.Html` | tagInput.js:91-153 | the error text written is empty exactly when there is no error |
| `TagList.FirstIndex` | tagInput.js:103-110 | the smallest index holding `v` |
| `TagList.Valid` | tagInput.js:132-156 | the invariant: no tag twice, at most `limit` tags, never the empty tag (kept by every operation, see the lemmas below) |
| `TagList.ValidLookup` | tagInput.js:103-110 | in a list satisfying the invariant, each tag's first index is its own position |
| `TagList.RemoveFirst` | tagInput.js:119-124 | an absent value leaves the list as is; a present one shortens it by one |
| `TagList.RemoveFirstAt` | tagInput.js:120-122 | removal splices out exactly the element at the first index of `v` |
| `TagList.RemoveFirstMultiset` | tagInput.js:119-124 | removal takes away one copy of `v` and keeps every other element |
| `TagList.RemoveFirstKeepsValid` | tagInput.js:119-124 | on a valid list removal keeps the invariant, removes `v` entirely and keeps exactly the other tags |
| `TagList.AddStep` | tagInput.js:132-156 | one `addTag` either keeps the tags or appends `v`; it never reports "input empty"; it clears the error exactly when `v` is empty or stored |
| `TagList.AddAll` | tagInput.js:86-88 | `addTag` over a sequence keeps the old tags first and in order, and after at least one call the error is not "input empty" |
| `TagList.Submitted` | tagInput.js:83-93 | `addTagEvent` reports "input empty" exactly when the input is all white space, and then keeps the tags |
| `TagList.SubmittedBlank` | tagInput.js:83-93 | an all-white-space submission sets "input empty" and keeps the tags; any other adds its pieces in order |
| `TagList.AddStepAccepts` | tagInput.js:132-150 | the tags change exactly when `v` is non-empty, new and there is room; then `v` is appended and the error cleared |
| `TagList.AddStepRejects` | tagInput.js:133-154 | `""` leaves tags and no error; a duplicate reports "already exists", even at full capacity; a new value at capacity reports "limit exceeded"; tags unchanged in each case |
| `TagList.AddStepIgnoresPriorError` | tagInput.js:133 | the outcome of `addTag` does not depend on the previous error |
| `TagList.AddStepKeepsValid` | tagInput.js:132-156 | `addTag` keeps "no duplicates, at most `limit`, no empty tag" |
| `TagList.AddStepTwice` | tagInput.js:135-154 | adding a non-empty tag twice stores it once and the second call reports "already exists" |
| `TagList.RemoveThenAdd` | tagInput.js:119-156 | after removing a tag, adding it again appends it (removal is not exclusion) |
| `TagList.AddAllSnoc` | tagInput.js:86-88 | adding one more element is one more `addTag` after the others |
| `TagList.AddAllKeepsValid` | tagInput.js:86-88 | adding a sequence of values keeps the invariant |
| `TagList.AddAllAppends` | tagInput.js:86-88 | the old tags stay first and in order; each new tag comes from the input; at most one tag per element |
| `TagList.AddAllErrorIsLast` | tagInput.js:86-88 | after several pieces the error is that of the last `addTag` alone |
| `TagList.AddAllIgnoresPriorError` | tagInput.js:133 | a non-empty submission's outcome does not depend on the previous error |
| `TagList.AddAllNeverExceeds` | tagInput.js:136-138 | no sequence of additions takes a valid list past `limit`, and a full list keeps its tags whatever is added |
| `TagList.FullListRefuses` | tagInput.js:136-138 | in a full valid list, a new non-empty tag is refused with "limit exceeded" and the tags are unchanged |
| `TagList.ScenarioInitialTags` | tagInputSpec.js:44-49 | limit 5, adding `"a"`, `"b"`, `"c"` gives exactly those tags and no error |
| `TagList.ScenarioSubmitXYZ` | tagInput.js:86-88 | limit 5, adding `"x"`, `"y"`, `"z"` keeps them in that order |
| `TagList.ScenarioRemove` | tagInputSpec.js:77-81 | removing `"c"` from five tags leaves the other four in order |
| `TagList.ScenarioLimit` | tagInputSpec.js:68-75 | five tags at limit 5: adding `"f"` reports "limit exceeded" and keeps the five |
| `TagList.AddAllBlankPiece` | tagInput.js:134-141 | the blank string `" "` passes the `if (value)` test and is stored |
| `TagList.BlankPieceIsStored` | tagInput.js:83-88 | submitting `"a; "` stores `"a"` and the untrimmed `" "` |
| `TagInputWidget.IndexOfValue` | tagInput.js:103-110 | -1 exactly when absent; otherwise the smallest index holding exactly `val` |
| `TagInputWidget.RemoveValue` | tagInput.js:119-124 | the result is the list without the first occurrence of `val`, one shorter; unchanged when absent |
| `TagInputWidget.TagInput.constructor` | tagInput.js:44-49 | empty list, the given limit, no error, enabled |
| `TagInputWidget.TagInput.AddTag` | tagInput.js:132-156 | the new tags and error are exactly one `addTag` step of the old ones; the invariant is kept |
| `TagInputWidget.TagInput.AddTagEvent` | tagInput.js:83-93 | blank input sets "input empty" only; otherwise the state is `addTag` folded over the pieces; the invariant is kept |
| `TagInputWidget.TagInput.Submit` | tagInput.js:59-68 | while enabled, an `addTagEvent`; while disabled, tags and error unchanged |
| `TagInputWidget.TagInput.RemoveTag` | tagInput.js:164-166 | the tags lose the first occurrence of the value; error unchanged; the invariant is kept and the value is gone |
| `TagInputWidget.TagInput.Val` | tagInput.js:174-181 | no argument: returns the tags, changes nothing; a list: `addTag` over it in order, on top of the existing tags |
| `TagInputWidget.TagInput.Disable` | tagInput.js:183-188 | disabled; tags and error unchanged |
| `TagInputWidget.TagInput.Able` | tagInput.js:190-194 | enabled; tags and error unchanged |
| `TagInputWidget.TagInput.Clean` | tagInput.js:196-201 | no tags and no error, whatever came before |
| `TagInputWidget.InnerArrayScenario` | tagInputSpec.js:28-38 | in `["a", "b", "c"]`, `"a"` is at index 0, and removing it leaves `["b", "c"]` |
| `TagInputWidget.TagsScenario` | tagInputSpec.js:44-66 | `val` sets `["a", "b", "c"]`, `val()` returns it, `"d"` is added, and `"b"` is refused as a duplicate |
| `TagInputWidget.LimitScenario` | tagInputSpec.js:68-88 | five tags refuse `"f"` with "limit exceeded", removing `"c"` leaves four in order, and `clean` leaves no tags and no error |
| `TagInputWidget.GateScenario` | tagInput.js:183-194 | a submission while disabled adds nothing; after `able`, `"x；y,z"` adds `"x"`, `"y"`, `"z"` in order |

## Left out

- jQuery plumbing: option merging with `$.extend`, binding and delegating
  the event handlers, and the per-element instance registry in
  `$.fn.tagInput`. These have no logic of their own. The handlers appear
  only as `TagInput.Submit`.
- Rendering: the `_.template` chip markup, `$view.append` and
  `$view.empty`. The template library is not part of this model. A chip is
  assumed to exist for each tag.
- Clearing the text field (`$input.val('')` in `addTag` and `clean`). The
  field is not modelled. This matters only when a submit handler is bound
  twice (see `TagInput.Able` below). In that case the second handler reads
  the cleared field.
- The CSS and class changes in `disable` and `able`. In the source, removing
  the `action-del` class also makes the delete buttons of existing chips
  inert. `TagInput.RemoveTag` is therefore not gated by `enabled`. `able`
  re-delegating the delete handler a second time is not modelled either. A
  second run of `removeTag` on the same value would change nothing.
- `Tokens.IsWhitespace`: `$.trim` is modelled with ECMAScript's white space
  and line terminator characters. The jQuery version in use is not part of
  this model, so this set is an approximation. It only affects the
  emptiness test of `addTagEvent`.
- `TagInput.Able`: the model only sets `enabled`. In the source, `able`
  always calls `bindEvents`, and jQuery's `bind` adds another handler each
  time. On a widget that is already bound (straight after `init`, or after
  `able` twice), every Enter key or click then runs `addTagEvent` twice. The
  second run reads the field the first run cleared and writes "input
  empty". For a fresh widget, `able()` and then Enter on `"x"` ends with
  tags `["x"]` and the error "input empty". The model ends with no error.
  Only one `disable` followed by one `able` leaves a single binding, as
  the model assumes.
- `TagInput.Val`: the getter returns the tags as a value. The source
  returns the live `this.tagList` array. Later additions and removals show
  through it, and a caller's `push` on it skips `addTag` and all its
  checks. That aliasing is not modelled.
- `TagInput.Val`: a missing or `null` argument is `None`. Elements that are
  not strings, and JavaScript truthiness of non-strings, are not modelled.
- `TagInput.constructor`: `limit` is a natural number. An undefined limit,
  for which `length >= undefined` is always false and the list is unbounded,
  is not modelled.
- `RemoveValue` takes a sequence and returns the new one. In the source it
  mutates the array passed in, which is always `this.tagList`, so the
  aliasing is left out.
- The shared `tagList: []` on the prototype is not modelled. `init`
  replaces it before any use.
