# Call Reminder: form validation, record store and card stack

A model of the logic in `script.js` of the Call Reminder page: a form collects a
call note (image URL, full name, home town, purpose, category), validates it
field by field, appends it to the list kept in the browser's local storage under
the key `"tasks"`, and the saved notes are shown as a stack of up to three cards
with circular previous/next navigation.

Modules, one per part of the page:

- `Wrappers` (`wrappers.dfy`): `Option`, used for an input's error slot and for
  the stored value that may be absent.
- `Text` (`text.dfy`): `String.prototype.trim` as `Trim`, which strips the
  ECMAScript white-space and line-terminator code points from both ends, with
  its characterisation (`TrimExact`) and idempotence.
- `Validation` (`validation.dfy`): the four field rules (`FieldError`), the
  overall verdict (`FormValid`), and the classes `Input` (value, error slot,
  border mark) and `Form` (four inputs and `createBtn.disabled`) whose methods
  are `showError`, `removeError`, `validateForm` and `callForm.reset()`.
- `Storage` (`storage.dfy`): the `Record` of a call note and the class
  `TaskStore`, whose field `stored` is the value under `"tasks"` (`None` while
  the key has never been written); `Save` is `savetoLocalStorage`.
- `Cards` (`cards.dfy`): the class `Deck` holding the module-level state
  `allTasks` and `currentIndex` and the drawn cards; `ShowCards`,
  `ShowPrevious`, `ShowNext`, `LoadTasksAndRender`; the window of drawn cards
  (`Window`) and the cursor moves (`Next`, `Previous`) as functions with their
  properties.
- `App` (`app.dfy`): the submit handler, which ties the three together.

Whether a string is a valid URL is decided in the source by the browser's URL
parser (`new URL(...)`); every member that needs it takes that decision as a
parameter `urlOk: string -> bool` and assumes nothing about it.

Deck invariant (`Deck.Valid`): when there are records the cursor is on one of
them, and the card list always shows the window below the cursor. The
constructor establishes it and `ShowPrevious`, `ShowNext` and
`LoadTasksAndRender` keep it; each of them moves the cursor and then calls
`ShowCards` at the cursor, which is the only way the source calls `showCards`,
and `ShowCards` keeps the invariant when called at the cursor.

Store invariant (`App.AllValid`): every stored record would pass validation if
typed into the form again. `App.Submit` keeps it, because a record is saved only
when the form is valid and trimming is idempotent (`App.SubmittedRecordValid`).

A consequence visible in the model: after a successful submit the inputs are
empty while every error slot is clear and the create button is enabled
(`App.Submit`), because `reset()` does not run validation; the next input event
or submit validates again, so no invalid record can be saved.

Integer division: `showNext` and `showPrevious` use JavaScript's `%`, which
truncates; both operands are non-negative there, so Dafny's `%` gives the same
value.

## Model

| member | source | states |
|---|---|---|
| `Text.Trim` | script.js:53 | the trimmed value neither starts nor ends with white space and is no longer than the input |
| `Text.TrimExact` | script.js:53 | trimming any white space around a value that neither starts nor ends with white space gives exactly that value |
| `Text.TrimEmptyIff` | script.js:53 | a value trims to the empty string exactly when it is all white space, which is when a field counts as blank |
| `Text.TrimIdempotent` | script.js:158-161 | trimming twice is trimming once |
| `Validation.FieldError` | script.js:53-85 | the rule of one field: any message it gives is one of that field's own messages, and a blank trimmed value always gives one; `MessageChoice` says which message for which input |
| `Validation.FormValid` | script.js:52-97 | the value `validateForm` returns: true exactly when no field, whichever it is, has an error; `FormValidIff` restates it as the four conditions on the trimmed values |
| `Validation.FormValidIff` | script.js:51-98 | `validateForm` returns true exactly when the trimmed image URL is non-empty and a valid URL, the trimmed name has at least 2 characters, and the trimmed home town and purpose are non-empty |
| `Validation.MessageChoice` | script.js:53-85 | a field gets its "required" message exactly when its trimmed value is empty; otherwise the image URL gets "Please enter a valid URL" exactly when the URL check fails, the name gets "Name must be at least 2 characters" exactly when shorter than 2, and home town and purpose get no message |
| `Validation.FieldErrorOfTrimmed` | script.js:53-85 | a field's verdict is the same whether or not its value was trimmed beforehand |
| `Validation.Input.ShowError` | script.js:101-113 | the input is marked and its error slot holds exactly the new message, replacing any earlier one; the value is untouched |
| `Validation.Input.RemoveError` | script.js:116-120 | the mark is cleared and the error slot is empty; the value is untouched |
| `Validation.Form.constructor` | script.js:133-136 | the create button starts disabled; the inputs start empty, with no error message and no mark |
| `Validation.Form.ValidateForm` | script.js:51-98 | all four rules run whatever the others give: every error slot holds its own field's message or none, each input is marked exactly when it has a message, the result is `FormValid` of the unchanged values, a valid form leaves every slot and mark clear, and the button is disabled exactly when the result is false |
| `Validation.Form.Reset` | script.js:168 | the inputs become empty and the error slots and marks stay as they were |
| `Storage.TaskStore.Load` | script.js:303 | a store whose key was never written reads as the empty list, otherwise as the stored list |
| `Storage.TaskStore.Save` | script.js:139-150 | the loaded list becomes the old one with the record appended: one longer, old prefix unchanged, last element the record, whether or not the key existed before |
| `Cards.Window` | script.js:181-188 | what `showCards(base)` draws, through the helper `WindowFrom` that follows the loop: at most three cards, each for an existing record and carrying that record; `WindowShape` gives its closed form |
| `Cards.WindowShape` | script.js:181-188 | nothing is drawn for an empty list; otherwise `min(3, base + 1)` cards for the indices base, base-1, ... in that order, each with its record, z-index `3 - offset`, and a shadow on the first card only |
| `Cards.WindowFromShape` | script.js:278-280 | from a given offset the loop draws cards whose index, offset, z-index and shadow follow the offset, stopping at offset 3 or at the first negative index |
| `Cards.Deck.ShowCards` | script.js:181-285 | the card list is replaced by the window below the given index; called at the cursor of a valid deck, the deck stays valid |
| `Cards.Next` | script.js:297 | the next cursor is in range, one on from the current one, and wraps from the last record to the first |
| `Cards.Previous` | script.js:290 | the previous cursor is in range, one back from the current one, and wraps from the first record to the last |
| `Cards.NextPreviousInverse` | script.js:288-299 | next then previous, and previous then next, return the cursor to where it was; with one record both leave it unchanged |
| `Cards.NextTimesIsModular` | script.js:295-298 | after `k` clicks on next the cursor is `(c + k) mod len` |
| `Cards.PreviousTimesIsModular` | script.js:288-291 | after `k` clicks on previous the cursor is `(c - k) mod len` |
| `Cards.FullCycle` | script.js:288-299 | `len` clicks in either direction bring the cursor back to its start |
| `Cards.NewestInFront` | script.js:302-305 | after a reload of a non-empty list the foreground card is the newest record, with z-index 3 and the shadow |
| `Cards.Deck.constructor` | script.js:20-21 | before the first load the list is empty and the cursor is 0 |
| `Cards.Deck.ShowPrevious` | script.js:288-292 | nothing changes on an empty list; otherwise the cursor moves by `Previous`, the list is unchanged and the cards are redrawn |
| `Cards.Deck.ShowNext` | script.js:295-299 | nothing changes on an empty list; otherwise the cursor moves by `Next`, the list is unchanged and the cards are redrawn |
| `Cards.Deck.LoadTasksAndRender` | script.js:302-306 | the list is reloaded from the store, the cursor is set to the last index (-1 for an empty list) and the cards are redrawn |
| `App.RecordOf` | script.js:157-163 | the record the submit handler builds: its four text fields carry no outer white space and its category is the chosen one; `SubmittedRecordValid` relates it to the form's verdict |
| `App.SubmittedRecordValid` | script.js:156-163 | the record built from the trimmed inputs passes validation again exactly when the form did |
| `App.SaveKeepsValid` | script.js:156-165 | appending the record of a valid form keeps every stored record valid |
| `App.Submit` | script.js:153-178 | a record is saved exactly when `validateForm` passes; it is the trimmed inputs plus the category, appended to the store; the inputs are then emptied and the deck reloaded with the new record in front, shadowed; on failure the store and deck are unchanged and the inputs show their errors |

## Left out

- The display toggles of the add and close buttons and of a successful submit (script.js:25-38, 169-172): they only show and hide page sections.
- The event wiring (script.js:123-131, 309-313): every input and blur event runs `validateForm`, and the buttons call `showPrevious` and `showNext`; the model exposes those operations directly.
- `alert` (script.js:174): a blocking notification with no effect on the state.
- The DOM construction of each card, its styling strings and the SVG icon (script.js:191-277), including the placeholder image when a record has no URL; a drawn card is modelled as its index, offset, z-index, shadow flag and record.
- The `translateY`/`scale` transform (script.js:279): floating-point presentation.
- The URL parser behind `isValidURL` (script.js:41-48): a browser parser, taken as the parameter `urlOk`.
- `localStorage` and JSON (script.js:140-148, 303): the store is a field holding the list; `JSON.parse(JSON.stringify(x))` is taken to give `x` back, and a stored value that is not valid JSON (on which `JSON.parse` would throw) is not modelled.
- Storage.TaskStore.Save: always succeeds; `localStorage.setItem` can throw when the quota is exceeded or storage is unavailable (script.js:143, 148), which would abort the submit handler before the reset and the reload, and `App.Submit` does not model that abort.
- The category radio lookup (script.js:162): the category is a parameter of `App.Submit`; when no radio is checked the source throws instead of saving, which the model does not capture.
- Text.Trim: lengths are counted in code points, not in UTF-16 code units as JavaScript's `length` counts them, so a name made of one character outside the Basic Multilingual Plane counts as 1 here and as 2 in the source.
- Cards.Deck.ShowCards: requires the index to be below the list length when the list is non-empty; the source would fail reading a missing record there, and its callers only pass the cursor.
- The opacity and cursor style of the create button (script.js:89-94, 135-136): presentation; only `disabled` is modelled.
- Validation.Form.Reset: assumes the inputs' default values are empty; the page's markup is not part of this model.
- Validation.Form.constructor: the empty initial inputs come from the page's markup, which is not part of this model; script.js itself only disables the create button (script.js:134).
