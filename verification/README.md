# Task board state model

A Dafny model of the state machine at the heart of the Task Master single-page app
(`src/App.jsx`): a list of tasks, each with text, a done flag, a priority (Low, Medium,
High), an optional due date and an edit flag; a new-task draft; two view filters; a
theme flag; and a last-error slot.

- `wrappers.dfy` (`Wrappers`): `Option`, used for the absent due date, the error slot
  and values that storage may not hold.
- `text.dfy` (`Text`): JavaScript's `trim` over the ECMAScript whitespace and
  line-terminator characters, and the blank-text test used by `addTask` and
  `saveEditedTask`.
- `tasks.dfy` (`Tasks`): the task record and the list operations by position
  (`toggleDone`, `startEditing`, `saveEditedTask`, `deleteTask`). These are pure
  functions, because the source builds a new array with `map`/`filter` each time. The
  module also has the lemmas about them, including that these operations preserve
  the property that every task's text is non-blank. The program as a whole does not
  keep that property: see the inline-edit and persistence lines under "Left out".
- `filtering.dfy` (`Filtering`): the filter selectors, `handleFilterChange` and the
  `filteredTasks` projection. The projection is proved to be an order-preserving
  subsequence that keeps exactly the passing tasks.
- `board.dfy` (`Board`): the component's state slots as the fields of class
  `TaskBoard`. Its handlers overwrite those fields. `addTask` validates the draft
  (blank text first, then a past due date) and exits early with an error message. The
  file ends with three small client methods that use only the handlers' contracts.

Due dates are abstract instants (`int`). `None` stands for an empty or unparseable date
string, which JavaScript turns into an invalid `Date` that compares false with
everything. The current instant is a parameter of `AddTask`.

A blank edit in `saveEditedTask` raises a browser alert (src/App.jsx:78) and does not
use the error slot. The model returns this as `alerted` and leaves `error` untouched.

## Model

| member | source | states |
|---|---|---|
| `Text.TrimStart` | src/App.jsx:39 | the result is the suffix of the text that starts at its first non-whitespace character; everything dropped is whitespace |
| `Text.TrimEnd` | src/App.jsx:39 | the result is the prefix of the text that ends at its last non-whitespace character; everything dropped is whitespace |
| `Text.Trim` | src/App.jsx:77 | `trim()` yields text with no whitespace at either end, and it is empty exactly when the text is all whitespace (the test behind both `task.trim() === ''` and `!newText.trim()`) |
| `Board.ValidateDraft` | src/App.jsx:38-46 | the draft is accepted iff its text is not blank and its due date is absent or not before now; blank text yields "Task cannot be empty." (checked first); otherwise a past due date yields "Due date cannot be in the past." |
| `Board.AddingValidDraftKeepsTextsNonBlank` | src/App.jsx:48 | appending a task built from a validated draft keeps every task's text non-blank |
| `Board.TaskBoard.constructor` | src/App.jsx:5-22 | the initial state: the saved list and theme, or `[]` and `false` when storage held nothing; empty draft with Medium priority, no filters, no error |
| `Board.TaskBoard.AddTask` | src/App.jsx:37-55 | a rejected draft changes only the error slot (list and draft kept); an accepted one appends exactly one task `{text, done=false, priority, dueDate, isEditing=false}` after the unchanged earlier tasks, resets the draft to `''`/Medium/no date and clears the error; filters and theme are outside its frame |
| `Board.TaskBoard.ToggleDone` | src/App.jsx:58-63 | the list becomes `Tasks.ToggleDone` of the old list; nothing but the list changes |
| `Board.TaskBoard.DeleteTask` | src/App.jsx:65-67 | the list becomes `Tasks.DeleteTask` of the old list; nothing but the list changes |
| `Board.TaskBoard.StartEditing` | src/App.jsx:69-74 | the list becomes `Tasks.StartEditing` of the old list; nothing but the list changes |
| `Board.TaskBoard.SaveEditedTask` | src/App.jsx:76-85 | the alert is raised exactly when the new text is blank; the list becomes `Tasks.SaveEditedTask` of the old list; the error slot is not touched |
| `Board.TaskBoard.HandleFilterChange` | src/App.jsx:87-89 | the filters become `ChangeFilter` of the old ones; nothing else changes |
| `Board.TaskBoard.ToggleDarkMode` | src/App.jsx:91-93 | the theme flag is negated and nothing else changes |
| `Tasks.UpdateAt` | src/App.jsx:59-61 | `tasks.map((t, i) => i === index ? edit(t) : t)` has the same length; only the position `index` is rewritten (when it is in range) and every other task is kept |
| `Tasks.ToggleDone` | src/App.jsx:58-63 | same length; only the task at the index changes, its `done` is negated and its other fields are kept; an out-of-range index leaves the list equal |
| `Tasks.ToggleDoneTwice` | src/App.jsx:58-63 | toggling the same position twice gives back the original list |
| `Tasks.StartEditing` | src/App.jsx:69-74 | same length; only the task at the index gets `isEditing = true`, with its other fields kept; other tasks keep their own edit flags; out of range is a no-op |
| `Tasks.StartEditingIdempotent` | src/App.jsx:69-74 | starting to edit the same position twice is the same as once |
| `Tasks.SaveEditedTask` | src/App.jsx:76-85 | blank new text or an out-of-range index leaves the list equal (so a set edit flag stays set); otherwise the task at the index becomes `{newText, its own done, newPriority, newDueDate, isEditing=false}` and every other task is kept |
| `Tasks.SaveAfterStartEditing` | src/App.jsx:69-85 | for non-blank text, starting an edit and then saving gives the same list as saving directly |
| `Tasks.DeleteTask` | src/App.jsx:65-67 | filtering out the index yields `tasks[..i] + tasks[i+1..]` for an in-range `i`, and the unchanged list otherwise |
| `Tasks.DeleteTaskShifts` | src/App.jsx:65-67 | an in-range delete shortens the list by one, keeps earlier tasks in place, moves each later task down one position unchanged, and removes exactly that one task (multiset) |
| `Tasks.OperationsKeepTextsNonBlank` | src/App.jsx:58-85 | toggling, starting an edit, deleting and saving an edit each keep every task's text non-blank |
| `Filtering.Filtered` | src/App.jsx:111-116 | the view is no longer than the list, every task in it passes both selectors, and it holds no task the list does not hold (multiset inclusion) |
| `Filtering.KeptPositions` | src/App.jsx:111-116 | the kept positions are strictly increasing and in range; a position is kept iff its task passes (done selector unset or matching `done`, and priority selector unset or equal) |
| `Filtering.FilteredIsSubsequence` | src/App.jsx:111-116 | the view is exactly the list's tasks at the kept positions, in order: an order-preserving subsequence |
| `Filtering.FilteredAppend` | src/App.jsx:111-116 | filtering distributes over concatenation |
| `Filtering.NoFiltersKeepsAll` | src/App.jsx:8 | with both selectors unset (the initial `{ done: '', priority: '' }`) the view equals the list |
| `Filtering.FilteredIdempotent` | src/App.jsx:111-116 | filtering the view again changes nothing |
| `Filtering.DoneSelectorsPartition` | src/App.jsx:113 | under any priority selector, the 'done' view and the 'undone' view together are as long as the view with the status selector unset |
| `Filtering.ChangeFilter` | src/App.jsx:87-89 | the named selector takes the new value and the other keeps its old one |
| `Filtering.ResetFiltersShowsAll` | src/App.jsx:87-89 | setting both selectors back to "all", from any filters, shows the whole list |

## Left out

- Persistence (src/App.jsx:9-34): `localStorage` and `JSON.parse`/`JSON.stringify` are
  browser I/O and library code. The constructor takes what loading produced as
  `Option` parameters. The save after every change is not modelled, and so neither is
  the save-then-load round trip. The loaded list (src/App.jsx:12) is not checked, so it
  may hold blank texts. The unguarded `JSON.parse` of the theme flag is not
  modelled either.
- Google Calendar link (src/App.jsx:95-109): it depends on `Date` parsing,
  `toISOString`, `window.open` and `alert`.
- Rendering (src/App.jsx:118-246): the JSX markup and React's hook wiring. React's
  batching of state updates is not modelled either; handlers run one after another.
- Draft inputs (src/App.jsx:155, 160, 168): each `onChange` only sets one draft slot.
  Client code assigns the `TaskBoard` draft fields directly instead.
- Inline edit `onChange` handlers (src/App.jsx:186-214): they mutate task objects that
  the old and new arrays share. The model's tasks are values, so this aliasing is not
  modelled. `SaveEditedTask` takes the edited fields as arguments. Clearing the edit
  box writes `''` into the live list before Save's blank check (src/App.jsx:77) runs,
  and Save then only alerts. So these handlers can leave a blank text in the list,
  and `TaskBoard` carries no non-blank-text invariant.
- Row-to-task index mapping: the row index comes from the filtered view
  (src/App.jsx:179) but indexes the full list (src/App.jsx:188, 219, 228-237). With
  filters active, an action can hit a different task. The model keeps full-list
  indices, as the handlers define them, and proves nothing about this correspondence.
- Date semantics: due dates are abstract instants. An unparseable date string counts
  as absent, and the stored string itself is not kept. A date-only string parses as
  midnight UTC, so a due date of "today" can be rejected as past. Time zones and clocks
  are outside the model.
- Loosely typed values: a priority or filter value is one of the strings the `<select>`
  elements offer. A done selector other than `''` and `'done'` acts as "undone" in the
  source. The only such value the UI offers is `'undone'` (`UndoneOnly`). Non-integer
  indices are not modelled.
