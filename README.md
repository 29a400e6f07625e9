# Flexia Experts exercise catalogue: listing and drawer logic in Dafny

This project models the client-side logic of the exercise administration screen
of Flexia Experts, a React single-page application. It covers four parts of that
screen, lifted out of React:

- **The listing page** (`ExercisesPage`). It holds the search box and its
  500-unit debounce, the filter selection from the filter store, the page
  window, the choice between the filter request and the name search, and the
  page count.
- **The generic data table** (`DataTable`). It holds the body rows, the "no
  results" row, the default page-size options `[10, 25, 50, 100]`, and the
  previous/next controls with their guards.
- **The exercise table** (`ExercisesTable`). It holds the cell renderers:
  difficulty stars, the first muscle group and the first piece of equipment,
  the active status and the creation date. It also holds the choice between
  loading skeleton, error message and table, and each row's edit action.
- **The create/edit drawer** (`ExerciseDrawer`). It covers create versus edit
  on submit, and the update sent only when the diff against the stored
  snapshot is non-empty. It also covers the pending flags that gate the
  buttons, and what a settled mutation does: close the drawer and invalidate
  the `["exercises"]` key on success, only raise an error notice on failure.

`Domain` holds the exercise record, `Option` and the notice kinds. `FilterStore`
holds the three optional filters and their clear-all operation.

Each stateful part is written twice, on purpose:

- A value-level state (`PageState`, `DrawerState`) with one pure transition
  function per event. These functions are the specification, and the lemmas
  are stated about them.
- A class (`ExercisesPage.Page`, `ExerciseDrawer.Drawer`) whose fields are the
  component's state. Each of its methods ensures
  `State() == Transition(old(State()))`.

Time is a discrete clock `now`, advanced one unit per `TimeStep`. The debounce
timer is one optional pending `Timer(at, text)`, which each new keystroke
replaces. The page mounts with that timer already pending for `""`, because
the debounce effect also runs on mount.

The drawer's `open` flag and its selected record are state of the listing page
(`openFormDrawer`, `selectedExercise`). The drawer receives them as props and
writes `open` back through `setOpen`. The model keeps them on the drawer
object, which the page owns as `Page.drawer`. The page's "new exercise" button
and each row's edit button drive the drawer through `Drawer.SetOpen`.

Several helpers are not part of this model: `resetFormValues`,
`buildUpdateObject`, `mapLabel` over the muscle, difficulty and equipment
tables, and the `es-ES` date formatter. They appear as function-valued
parameters (`FormHelpers`, `Labels`). Every property is proved for all of
their possible behaviours, except where a lemma's `requires` names the
helper behaviour it needs: `ExerciseDrawer.DeleteMayOverlapUpdate` needs the
reset effect to store the selected record as the snapshot, and
`ExerciseDrawer.NewExerciseFormIsDefault` needs it to load the form's
`defaultValues` when nothing is selected.

Four behaviours of the code are worth stating outright, because a reader
might expect otherwise; the model follows the code in each:

- **"Page 1 of 0".** With zero matching records, `totalPages`
  (src/exercises/pages/ExercisesPage.tsx:65) is `ceil(0 / limit) = 0` while
  the page is 1. So the page is not always in `[1, totalPages]`. `ExercisesPage.EmptyResultShowsPageOneOfZero` proves it.
  The "next" control stays disabled there.
- **Overlapping mutations.** The delete button
  (src/exercises/components/CreateEditExerciseDrawer.tsx:176-178) is gated
  only by the delete's own pending flag, while the submit button (:164-166)
  is gated by the create and update flags. So, provided the reset effect
  stores the selected record as the snapshot (without one, an edit-mode
  submit issues nothing), a delete can be issued while an update is in
  flight, and two mutations of one drawer can be pending together. Only creates and
  updates exclude each other. `ExerciseDrawer.DeleteMayOverlapUpdate` and
  `ExerciseDrawer.Valid` state this.
- **Filters and the page.** Nothing in the page
  (src/exercises/pages/ExercisesPage.tsx:32-34, 56) resets the page when the
  stored filter selection changes; only the debounce (:42-47) does. The
  filter drawer that stores the selection is not part of this model, so
  `FiltersSelected` changes only the filters and keeps the page.
- **Skeleton width.** The loading skeleton
  (src/exercises/components/ExercisesTable.tsx:125-163) is 7 cells wide, and
  the table also has 7 columns. `ExercisesTable.ViewOf` states that the two agree.

## Model

| member | source | states |
|---|---|---|
| `FilterStore.Clear` | src/exercises/pages/ExercisesPage.tsx:91 | after `clearFilters` no axis holds a value, so no filter is active |
| `DataTable.Body` | src/components/ui/data-table.tsx:76-95 | no rows give exactly one "no results" row spanning every column; otherwise one row per data item, holding that item's rendered cells |
| `DataTable.PrevPage` | src/components/ui/data-table.tsx:121-125 | "previous" moves back exactly one page when enabled (page above 1) and not at all otherwise; a page of at least 1 stays at least 1 |
| `DataTable.NextPage` | src/components/ui/data-table.tsx:131-135 | "next" moves forward exactly one page when enabled (page below `totalPages`) and not at all otherwise; a page it moves never exceeds `totalPages` |
| `DataTable.PrevDisabled` | src/components/ui/data-table.tsx:124 | "previous" is enabled exactly when the page before the current one is at least 1 |
| `DataTable.NextDisabled` | src/components/ui/data-table.tsx:134 | "next" is enabled exactly when the page after the current one is within `totalPages` |
| `DataTable.PagerStaysInRange` | src/components/ui/data-table.tsx:121-137 | from a page in `[1, totalPages]`, both controls stay in that range |
| `ExercisesTable.DifficultyStars` | src/exercises/components/ExercisesTable.tsx:45-49 | Beginner, Intermediate and Advanced get 1, 2 and 3 stars; every other value gets 0, and only those three get any |
| `ExercisesTable.StarsDetermineDifficulty` | src/exercises/components/ExercisesTable.tsx:45-49 | two values with the same non-zero star count are the same difficulty |
| `ExercisesTable.Repeat` | src/exercises/components/ExercisesTable.tsx:76 | `repeat(n)` gives `n` copies of the glyph |
| `ExercisesTable.DifficultyCell` | src/exercises/components/ExercisesTable.tsx:72-78 | the cell is star-count stars, then one space, then the difficulty's label |
| `ExercisesTable.LeadingStarsOfRepeat` | src/exercises/components/ExercisesTable.tsx:76-77 | n stars followed by a non-star text start with exactly n stars |
| `ExercisesTable.LeadingStarsOfDifficultyCell` | src/exercises/components/ExercisesTable.tsx:72-78 | counting the stars at the head of a difficulty cell gives back the difficulty's star count, so Advanced shows exactly 3 and Beginner exactly 1 |
| `ExercisesTable.First` | src/exercises/components/ExercisesTable.tsx:57-58 | the list's first element, and `undefined` exactly when the list is empty |
| `ExercisesTable.FirstCellIgnoresRest` | src/exercises/components/ExercisesTable.tsx:56-67 | a non-empty muscle list shows the label of its first element and an empty one the label of `undefined`, and likewise for equipment; so two records whose lists start with the same element show the same cell |
| `ExercisesTable.DifficultyColumnShowsStars` | src/exercises/components/ExercisesTable.tsx:69-79 | the difficulty cell of a table row starts with exactly the record's star count, so an Advanced row shows 3 stars and a Beginner row 1 |
| `ExercisesTable.ActiveCell` | src/exercises/components/ExercisesTable.tsx:83-86 | the active text is shown exactly when the flag is set, and the inactive text exactly when it is not |
| `ExercisesTable.CreatedAtCell` | src/exercises/components/ExercisesTable.tsx:91-101 | an empty creation date renders as the empty string; any other date renders as its formatted text |
| `ExercisesTable.RenderCell` | src/exercises/components/ExercisesTable.tsx:51-123 | the edit button appears in the actions column and in no other |
| `ExercisesTable.RenderRow` | src/exercises/components/ExercisesTable.tsx:51-123 | a row has one cell per configured column, in column order |
| `ExercisesTable.ViewOf` | src/exercises/components/ExercisesTable.tsx:125-163 | loading shows the skeleton (a header and 7 rows, each as wide as the 7 columns); otherwise an error shows the error message; otherwise the table shows the body rows |
| `ExercisesTable.EditClick` | src/exercises/components/ExercisesTable.tsx:109-116 | a row with an id becomes the selection and the drawer opens; a row without one changes nothing |
| `ExercisesTable.EditClickNotice` | src/exercises/components/ExercisesTable.tsx:113-115 | an error notice is raised exactly for a row without an id |
| `ExercisesTable.OnEditClick` | src/exercises/components/ExercisesTable.tsx:108-117 | the click handler moves the drawer as `EditClick` says, returns `EditClickNotice`'s notice, and keeps the drawer's invariant |
| `ExerciseDrawer.SubmitDisabled` | src/exercises/components/CreateEditExerciseDrawer.tsx:166 | the submit button is disabled exactly while a create or an update is pending; when it is enabled, at most one save is in flight |
| `ExerciseDrawer.DeleteOffered` | src/exercises/components/CreateEditExerciseDrawer.tsx:173 | the delete button is shown exactly while a record is selected |
| `ExerciseDrawer.DeleteDisabled` | src/exercises/components/CreateEditExerciseDrawer.tsx:178 | the delete button is disabled exactly while a delete is pending |
| `ExerciseDrawer.Reset` | src/exercises/components/CreateEditExerciseDrawer.tsx:67-69 | the reset effect reloads the form and the stored snapshot from the current selection and changes nothing else |
| `ExerciseDrawer.CreateExercise` | src/exercises/components/CreateEditExerciseDrawer.tsx:116-120 | a create request carrying the current form is issued and the create becomes pending; nothing else changes |
| `ExerciseDrawer.EditExercise` | src/exercises/components/CreateEditExerciseDrawer.tsx:122-134 | without a snapshot nothing changes; otherwise a request is issued exactly when the diff has a key, and it is an update of the snapshot's id carrying the diff, with the update pending; an empty diff only raises an info notice |
| `ExerciseDrawer.Settle` | src/exercises/components/CreateEditExerciseDrawer.tsx:79-114 | a mutation that is not pending changes nothing; a success clears its pending flag, closes the drawer, invalidates `["exercises"]` and raises its success notice (a warning for a delete), issuing nothing new; a failure only clears its pending flag and raises an error, leaving open flag, form, snapshot and invalidations alone; the other mutations' pending flags never change |
| `ExerciseDrawer.Show` | src/exercises/components/CreateEditExerciseDrawer.tsx:67-69 | the new open flag and selection are set; the form and snapshot are reloaded exactly when either of them changed; requests, notices, invalidations and pending flags are untouched |
| `ExerciseDrawer.Initial` | src/exercises/components/CreateEditExerciseDrawer.tsx:56-69 | the drawer starts closed with nothing selected and nothing pending or issued; the form and snapshot come from the mount run of the reset effect |
| `ExerciseDrawer.Submit` | src/exercises/components/CreateEditExerciseDrawer.tsx:164-168 | a submit is ignored while a save is pending; it otherwise issues at most one request: an update when a record is selected, and otherwise always a create of the current form |
| `ExerciseDrawer.ConfirmDelete` | src/exercises/components/CreateEditExerciseDrawer.tsx:196-202 | a delete of the selected record's id is issued exactly when a record is selected, it has an id and no delete is pending; otherwise nothing changes |
| `ExerciseDrawer.StepPreservesValid` | src/exercises/components/CreateEditExerciseDrawer.tsx:164-166 | no event makes a create and an update pending together |
| `ExerciseDrawer.RunPreservesValid` | src/exercises/components/CreateEditExerciseDrawer.tsx:164-166 | no event sequence makes a create and an update pending together |
| `ExerciseDrawer.NewExerciseFormIsDefault` | src/exercises/components/CreateEditExerciseDrawer.tsx:56-69 | when the reset for no selection loads the `defaultValues` (empty texts and lists, "Beginner", active "true"), the drawer mounts with them and opening it for a new exercise shows them again; an enabled submit then creates a record from exactly those values |
| `ExerciseDrawer.EditSubmitUpdatesIffChanged` | src/exercises/components/CreateEditExerciseDrawer.tsx:122-134 | in edit mode, an update with the snapshot's id and the diff is issued exactly when the diff has a key; otherwise an info notice is raised and no request is issued |
| `ExerciseDrawer.EditWithoutSnapshotIsNoOp` | src/exercises/components/CreateEditExerciseDrawer.tsx:124-125 | an edit-mode submit with no stored snapshot changes nothing |
| `ExerciseDrawer.DeleteMayOverlapUpdate` | src/exercises/components/CreateEditExerciseDrawer.tsx:164-181 | when the reset effect stores the selected record as the snapshot, opening a record, editing the form so that it differs from the snapshot, submitting and confirming the delete leaves an update and a delete pending together |
| `ExerciseDrawer.Drawer.constructor` | src/exercises/components/CreateEditExerciseDrawer.tsx:45-69 | a new drawer is in the initial state and satisfies the invariant |
| `ExerciseDrawer.Drawer.SetOpen` | src/exercises/components/CreateEditExerciseDrawer.tsx:67-69 | setting the open flag and selection updates the fields as `Show` says and keeps the invariant |
| `ExerciseDrawer.Drawer.Edit` | src/exercises/components/CreateEditExerciseDrawer.tsx:154-161 | a form edit replaces the form values and nothing else |
| `ExerciseDrawer.Drawer.SubmitClicked` | src/exercises/components/CreateEditExerciseDrawer.tsx:116-134 | the submit handler updates the fields as `Submit` says and keeps the invariant |
| `ExerciseDrawer.Drawer.DeleteConfirmed` | src/exercises/components/CreateEditExerciseDrawer.tsx:196-202 | the delete confirmation updates the fields as `ConfirmDelete` says and keeps the invariant |
| `ExerciseDrawer.Drawer.Settled` | src/exercises/components/CreateEditExerciseDrawer.tsx:79-114 | a mutation callback updates the fields as `Settle` says and keeps the invariant |
| `ExercisesPage.KeyParts` | src/exercises/pages/ExercisesPage.tsx:56 | the listing key has seven parts and its head is `"exercises"` |
| `ExercisesPage.MutationInvalidatesEveryListing` | src/exercises/components/CreateEditExerciseDrawer.tsx:84 | the `["exercises"]` prefix that mutations invalidate matches every listing key, whatever the search, filters and page |
| `ExercisesPage.ChooseRequest` | src/exercises/pages/ExercisesPage.tsx:57-62 | the filter request is chosen exactly when some filter is set, and it carries the three filters; otherwise the name search carries the debounced term; both use the key's page and the page size as the limit |
| `ExercisesPage.FilterModeIgnoresSearch` | src/exercises/pages/ExercisesPage.tsx:58-59 | while a filter is set, changing the search term does not change the request |
| `ExercisesPage.ClearedFiltersSearchByName` | src/exercises/pages/ExercisesPage.tsx:58-61 | with the filters cleared, the request is the name search for the key's term, limit and page |
| `ExercisesPage.TotalPages` | src/exercises/pages/ExercisesPage.tsx:65 | without data the count is 1; with data it is `ceil(total / limit)`, i.e. enough pages to hold `total` records with less than one page to spare |
| `ExercisesPage.TotalPagesIsLeast` | src/exercises/pages/ExercisesPage.tsx:65 | any page count that holds every record is at least `TotalPages` |
| `ExercisesPage.TotalExercises` | src/exercises/pages/ExercisesPage.tsx:116 | the reported total is the data's total, or 0 without data |
| `ExercisesPage.EmptyResultShowsPageOneOfZero` | src/exercises/pages/ExercisesPage.tsx:65 | zero records give 0 pages; on page 1 "next" is then disabled and leaves the page at 1 |
| `ExercisesPage.Initial` | src/exercises/pages/ExercisesPage.tsx:26-30 | the page starts with empty search and debounced search, page 1 and size 10, and a pending mount timer for `""`; the request limit equals the page size |
| `ExercisesPage.Typed` | src/exercises/pages/ExercisesPage.tsx:42-49 | a new search text replaces the pending timer with one for that text 500 units ahead and changes nothing else; the same text changes nothing; typing never changes the listing key |
| `ExercisesPage.Ticked` | src/exercises/pages/ExercisesPage.tsx:43-47 | the clock advances by one; when the timer is due, its text becomes the debounced search, the filters are cleared, the page becomes 1 and the timer is gone, and nothing else changes; otherwise only the clock moves |
| `ExercisesPage.FiltersSelected` | src/exercises/pages/ExercisesPage.tsx:32-34 | a new filter selection replaces the filters and nothing else; the request becomes the filter request exactly when the selection sets some filter; the page, search box and timer are kept |
| `ExercisesPage.ClearFiltersClicked` | src/exercises/pages/ExercisesPage.tsx:90-94 | the clear button is only there while some filter is set, so a click changes the state only then, and then only the filters, which it empties; either way the request ends up as the name search for the debounced term on the current page |
| `ExercisesPage.FiltersToggled` | src/exercises/pages/ExercisesPage.tsx:87 | the filters button flips the filter drawer's open flag, leaves the listing key alone, and a second press restores the state |
| `ExercisesPage.QueryUpdated` | src/exercises/pages/ExercisesPage.tsx:51-56 | a query report replaces the previous one and nothing else; the page count follows the new report's data |
| `ExercisesPage.FiltersCleared` | src/exercises/pages/ExercisesPage.tsx:90-93 | "clear filters" empties the filters and changes nothing else: the search box, the pending debounce timer, the debounced search, the page, the clock, the query report and the filter drawer are kept; the request becomes the name search |
| `ExercisesPage.PageSizeChanged` | src/components/ui/data-table.tsx:51-54 | a page-size change sets the size, resets the page to 1 and changes nothing else |
| `ExercisesPage.PrevClicked` | src/components/ui/data-table.tsx:123-124 | "previous" changes only the page, as `PrevPage` says, and keeps it at least 1 |
| `ExercisesPage.NextClicked` | src/components/ui/data-table.tsx:133-134 | "next" changes only the page, as `NextPage` says against the current page count, and never moves it past that count |
| `ExercisesPage.StepPreservesValid` | src/components/ui/data-table.tsx:121-137 | every event the page can receive keeps the page at least 1, the size among the options and the timer consistent with the search box |
| `ExercisesPage.RunPreservesValid` | src/components/ui/data-table.tsx:121-137 | the same holds along any sequence of such events |
| `ExercisesPage.NothingFiresBeforeDeadline` | src/exercises/pages/ExercisesPage.tsx:42-49 | time passing before the deadline, or with no timer pending, applies nothing and moves only the clock |
| `ExercisesPage.DebounceFiresAtDeadline` | src/exercises/pages/ExercisesPage.tsx:43-47 | once the deadline has passed, exactly the pending text has been applied, once: it is the debounced search, the filters are empty and the page is 1 |
| `ExercisesPage.BurstAppliesNothing` | src/exercises/pages/ExercisesPage.tsx:42-49 | during a burst of keystrokes with pauses under 500 units, nothing is applied and the listing key does not change; afterwards one timer is pending, for the last text |
| `ExercisesPage.BurstAppliesOnlyLast` | src/exercises/pages/ExercisesPage.tsx:42-49 | after a burst and a quiet period, only the last text of the burst has been applied, exactly once; the request is then the name search for it on page 1 |
| `ExercisesPage.Page.constructor` | src/exercises/pages/ExercisesPage.tsx:19-34 | a new page is in the initial state with a fresh drawer in its initial state |
| `ExercisesPage.Page.Request` | src/exercises/pages/ExercisesPage.tsx:55-62 | the current request uses the page size as its limit and the current page; it is filter-driven exactly when a filter is set, and otherwise searches for the debounced term |
| `ExercisesPage.Page.Type` | src/exercises/pages/ExercisesPage.tsx:82-86 | the search box handler updates the fields as `Typed` says and keeps the invariant |
| `ExercisesPage.Page.Tick` | src/exercises/pages/ExercisesPage.tsx:42-49 | a clock tick updates the fields as `Ticked` says and keeps the invariant |
| `ExercisesPage.Page.SelectFilters` | src/exercises/pages/ExercisesPage.tsx:32-34 | a new filter selection replaces the filters only |
| `ExercisesPage.Page.ClearFilters` | src/exercises/pages/ExercisesPage.tsx:90-94 | a click on the clear button updates the fields as `ClearFiltersClicked` says |
| `ExercisesPage.Page.ToggleFilters` | src/exercises/pages/ExercisesPage.tsx:87 | the filters button flips the filter drawer's open flag only |
| `ExercisesPage.Page.ChangePageSize` | src/components/ui/data-table.tsx:51-54 | the page-size handler updates the fields as `PageSizeChanged` says and keeps the invariant |
| `ExercisesPage.Page.Prev` | src/components/ui/data-table.tsx:121-125 | the previous handler updates the fields as `PrevClicked` says and keeps the page at least 1 |
| `ExercisesPage.Page.Next` | src/components/ui/data-table.tsx:131-135 | the next handler updates the fields as `NextClicked` says and keeps the invariant |
| `ExercisesPage.Page.UpdateQuery` | src/exercises/pages/ExercisesPage.tsx:51-63 | a query report replaces the query result only |
| `ExercisesPage.Page.NewExercise` | src/exercises/pages/ExercisesPage.tsx:96-104 | "new exercise" clears the selection and opens the drawer as `Show` says, leaving the page's own state unchanged |

## Left out

- HTTP calls, the query client's cache and refetching: the listing result arrives as a `QueryUpdate` event, and a mutation's outcome as a `Settled` event. Invalidation is recorded as a logged key prefix.
- Real timers and asynchronous scheduling: modelled as the discrete `TimeStep` clock and the `Settled` completion events.
- JSX layout, styling, icons and toast texts: notices are the `Notice` kinds only.
- `resetFormValues`, `buildUpdateObject`, `buildExerciseObject`, `mapLabel`, the MUSCLES/DIFFICULTIES/EQUIPMENTS tables and the `es-ES` date format: their source is not part of this model. They are parameters, and a create request carries the raw form values instead of `buildExerciseObject`'s payload.
- The preview image of the drawer: only display state.
- Logout and navigation: session and routing state are outside this model.
- The filter drawer component and the internals of the Redux store: the store is the `Filters` value with set and clear.
- `Math.ceil` on floating point: `TotalPages` uses exact integer ceiling, which agrees for the integer totals and page sizes used here.
- The login page: it only composes a form.
- ExerciseDrawer.Initial: the form's `defaultValues` are replaced at mount by whatever `resetFormValues(undefined)` loads, whose source is not part of this model; so a create form holds those values, and they equal the `defaultValues` only under the assumption `NewExerciseFormIsDefault` states.
- Events the rendered page cannot deliver are still accepted: the pager and page-size selector exist only while the table is rendered (src/exercises/components/ExercisesTable.tsx:127-161), yet `ExercisesPage.Step` takes `PrevClick`, `NextClick` and `PageSizeSelection` in any query state, and `ExerciseDrawer.Step` takes `SubmitClick` and `DeleteConfirm` while the drawer is closed. The invariants and debounce properties are proved over this larger set of event sequences, so they hold for the real ones too.
- ExerciseDrawer.Show: compares the selection by value, whereas React re-runs the reset effect when the selection is a different object; two distinct but equal records count as the same selection here.
- ExercisesPage.Typed: a keystroke that leaves the text unchanged re-runs nothing, as React skips an effect whose dependency kept its value; the effect's cleanup on unmount is not modelled.
