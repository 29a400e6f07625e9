/** The create/edit drawer: the form, the stored snapshot of the record under
    edit, the three mutations (create, update, delete) with their pending
    flags, and what a settled mutation does to the drawer and to the listing
    cache. The drawer's `open` flag and selected record are the listing
    page's state, handed down as props; they are kept here, on the object
    the page drives. */
module ExerciseDrawer {
  import opened Domain

  /** The form's values as react-hook-form holds them. */
  datatype FormValues = FormValues(
    id: string,
    title: string,
    description: string,
    difficulty: string,
    muscles: seq<string>,
    equipments: seq<string>,
    active: string)

  /** The form's `defaultValues`: the form before the mount run of the reset
      effect replaces it with whatever `resetFormValues` loads. */
  const DefaultFormValues := FormValues("", "", "", "Beginner", [], [], "true")

  /** One field of a partial update payload. */
  datatype FieldValue = Text(s: string) | Texts(ss: seq<string>) | Flag(b: bool)

  /** A partial record: the changed fields by name. */
  type Payload = map<string, FieldValue>

  /** A mutation request handed to the API. */
  datatype Request =
    | CreateRequest(values: FormValues)
    | UpdateRequest(id: string, changes: Payload)
    | DeleteRequest(id: string)

  datatype MutationKind = CreateKind | UpdateKind | DeleteKind

  /** The helpers whose definitions are not part of this model
      (`resetFormValues`, `buildUpdateObject`), as parameters: the form
      values and the snapshot the reset effect stores for a selection, and
      the field-level diff of the form against the snapshot. */
  datatype FormHelpers = FormHelpers(
    resetValues: Option<Exercise> -> FormValues,
    snapshot: Option<Exercise> -> Option<Exercise>,
    diff: (FormValues, Exercise) -> Payload)

  /** The query-key prefix every successful mutation invalidates. */
  const ListingKeyPrefix: seq<string> := ["exercises"]

  datatype DrawerState = DrawerState(
    open: bool,
    selected: Option<Exercise>,
    form: FormValues,
    original: Option<Exercise>,
    createPending: bool,
    updatePending: bool,
    deletePending: bool,
    requests: seq<Request>,
    notices: seq<Notice>,
    invalidated: seq<seq<string>>)

  /** The submit button is disabled while a create or an update is pending. */
  function SubmitDisabled(d: DrawerState): (r: bool)
    ensures r <==> Pending(d, CreateKind) || Pending(d, UpdateKind)
    ensures !r ==> Valid(d)
  {
    d.createPending || d.updatePending
  }

  /** The delete button is shown only while a record is selected. */
  function DeleteOffered(d: DrawerState): (r: bool)
    ensures r <==> d.selected != None
  {
    d.selected.Some?
  }

  /** The delete button is disabled while a delete is pending, whatever the
      create and update mutations are doing. */
  function DeleteDisabled(d: DrawerState): (r: bool)
    ensures r <==> Pending(d, DeleteKind)
  {
    d.deletePending
  }

  function Pending(d: DrawerState, kind: MutationKind): bool {
    match kind
    case CreateKind => d.createPending
    case UpdateKind => d.updatePending
    case DeleteKind => d.deletePending
  }

  /** At most one save (create or update) is in flight: the submit button
      that starts either is disabled while one is pending. */
  predicate Valid(d: DrawerState) {
    !(d.createPending && d.updatePending)
  }

  /** The effect keyed on the selection and the open flag: reload the form
      and the stored snapshot from the selection, and touch nothing else. */
  function Reset(d: DrawerState, h: FormHelpers): (r: DrawerState)
    ensures r.form == h.resetValues(d.selected) && r.original == h.snapshot(d.selected)
    ensures r.(form := d.form, original := d.original) == d
  {
    d.(form := h.resetValues(d.selected), original := h.snapshot(d.selected))
  }

  /** Set the open flag and the selection as the page does; the reset effect
      runs when either of them changed. */
  function Show(d: DrawerState, h: FormHelpers, open: bool, selected: Option<Exercise>): (r: DrawerState)
    ensures r.open == open && r.selected == selected
    ensures (open != d.open || selected != d.selected) ==>
              r.form == h.resetValues(selected) && r.original == h.snapshot(selected)
    ensures (open == d.open && selected == d.selected) ==> r == d
    ensures r.requests == d.requests && r.notices == d.notices && r.invalidated == d.invalidated
    ensures Pending(r, CreateKind) == Pending(d, CreateKind) && Pending(r, UpdateKind) == Pending(d, UpdateKind)
    ensures Pending(r, DeleteKind) == Pending(d, DeleteKind)
  {
    var d' := d.(open := open, selected := selected);
    if open != d.open || selected != d.selected then Reset(d', h) else d'
  }

  /** The drawer as first rendered: closed, nothing selected, and the mount
      run of the reset effect applied to the default form. */
  function Initial(h: FormHelpers): (r: DrawerState)
    ensures !r.open && r.selected.None?
    ensures r.form == h.resetValues(None) && r.original == h.snapshot(None)
    ensures !r.createPending && !r.updatePending && !r.deletePending
    ensures r.requests == [] && r.notices == [] && r.invalidated == []
  {
    Reset(DrawerState(false, None, DefaultFormValues, None, false, false, false, [], [], []), h)
  }

  /** A form edit by the user. */
  function EditForm(d: DrawerState, values: FormValues): DrawerState {
    d.(form := values)
  }

  /** `handleCreateExercise`: send the whole form as a new record. */
  function CreateExercise(d: DrawerState): (r: DrawerState)
    ensures r.requests == d.requests + [CreateRequest(d.form)] && Pending(r, CreateKind)
    ensures r.(requests := d.requests, createPending := d.createPending) == d
  {
    d.(requests := d.requests + [CreateRequest(d.form)], createPending := true)
  }

  /** `handleEditExercise`: nothing without a stored snapshot; otherwise an
      update of the snapshot's id when the diff has a key, else an info notice. */
  function EditExercise(d: DrawerState, h: FormHelpers): (r: DrawerState)
    ensures d.original.None? ==> r == d
    ensures d.original.Some? ==>
              var changes := h.diff(d.form, d.original.value);
              && (|changes| > 0 <==> r.requests != d.requests)
              && (|changes| > 0 ==> r == d.(requests := d.requests + [UpdateRequest(d.original.value.id, changes)],
                                            updatePending := true))
              && (|changes| == 0 ==> r == d.(notices := d.notices + [Info]))
  {
    match d.original
    case None => d
    case Some(original) =>
      var changes := h.diff(d.form, original);
      if |changes| > 0 then
        d.(requests := d.requests + [UpdateRequest(original.id, changes)], updatePending := true)
      else
        d.(notices := d.notices + [Info])
  }

  /** A click on the submit button: ignored while disabled, else edit when a
      record is selected and create otherwise. */
  function Submit(d: DrawerState, h: FormHelpers): (r: DrawerState)
    ensures SubmitDisabled(d) ==> r == d
    ensures r.open == d.open && r.selected == d.selected && r.form == d.form && r.original == d.original
    ensures r.invalidated == d.invalidated && r.deletePending == d.deletePending
    ensures r.requests == d.requests || (|r.requests| == |d.requests| + 1 && r.requests[..|d.requests|] == d.requests)
    ensures |r.requests| > |d.requests| ==>
              !SubmitDisabled(d) &&
              (if d.selected.Some? then r.requests[|d.requests|].UpdateRequest? && r.updatePending
               else r.requests[|d.requests|] == CreateRequest(d.form) && r.createPending)
    ensures !SubmitDisabled(d) && d.selected.None? ==> |r.requests| == |d.requests| + 1
  {
    if SubmitDisabled(d) then d
    else if d.selected.Some? then EditExercise(d, h)
    else CreateExercise(d)
  }

  /** The confirmation of the delete dialog: issues a delete of the selected
      record only when it has an id and the button is enabled. */
  function ConfirmDelete(d: DrawerState): (r: DrawerState)
    ensures r.requests != d.requests <==>
              DeleteOffered(d) && !DeleteDisabled(d) && d.selected.value.id != ""
    ensures r.requests != d.requests ==>
              r.requests == d.requests + [DeleteRequest(d.selected.value.id)] && r.deletePending
    ensures r.requests == d.requests ==> r == d
    ensures r.open == d.open && r.form == d.form && r.createPending == d.createPending
    ensures r.updatePending == d.updatePending
  {
    if DeleteOffered(d) && !DeleteDisabled(d) && d.selected.value.id != "" then
      d.(requests := d.requests + [DeleteRequest(d.selected.value.id)], deletePending := true)
    else d
  }

  function ClearPending(d: DrawerState, kind: MutationKind): DrawerState {
    match kind
    case CreateKind => d.(createPending := false)
    case UpdateKind => d.(updatePending := false)
    case DeleteKind => d.(deletePending := false)
  }

  /** The toast a successful mutation raises (a delete warns). */
  function SuccessNotice(kind: MutationKind): Notice {
    if kind == DeleteKind then Warning else Success
  }

  /** A pending mutation settles: on success close the drawer (running the
      reset effect if it was open) and invalidate the listing key; on failure
      only raise an error notice. A mutation that is not pending has nothing
      to settle. The other mutations' pending flags are never touched. */
  function Settle(d: DrawerState, h: FormHelpers, kind: MutationKind, ok: bool): (r: DrawerState)
    ensures !Pending(d, kind) ==> r == d
    ensures Pending(d, kind) && ok ==>
              && !r.open && !Pending(r, kind) && r.selected == d.selected
              && r.invalidated == d.invalidated + [ListingKeyPrefix]
              && r.notices == d.notices + [SuccessNotice(kind)]
              && r.requests == d.requests
    ensures Pending(d, kind) && !ok ==>
              && r == ClearPending(d, kind).(notices := d.notices + [Error])
              && r.open == d.open && r.form == d.form && r.original == d.original
              && r.invalidated == d.invalidated && !Pending(r, kind)
    ensures forall k :: k != kind ==> Pending(r, k) == Pending(d, k)
  {
    if !Pending(d, kind) then d
    else
      var d1 := ClearPending(d, kind);
      if ok then
        var d2 := d1.(notices := d1.notices + [SuccessNotice(kind)],
                      invalidated := d1.invalidated + [ListingKeyPrefix]);
        Show(d2, h, false, d2.selected)
      else
        d1.(notices := d1.notices + [Error])
  }

  /** The drawer's events, as one type. */
  datatype Event =
    | Open(open: bool, selected: Option<Exercise>)
    | Edit(values: FormValues)
    | SubmitClick
    | DeleteConfirm
    | Settled(kind: MutationKind, ok: bool)

  function Step(d: DrawerState, h: FormHelpers, e: Event): DrawerState {
    match e
    case Open(open, selected) => Show(d, h, open, selected)
    case Edit(values) => EditForm(d, values)
    case SubmitClick => Submit(d, h)
    case DeleteConfirm => ConfirmDelete(d)
    case Settled(kind, ok) => Settle(d, h, kind, ok)
  }

  function Run(d: DrawerState, h: FormHelpers, events: seq<Event>): DrawerState
    decreases |events|
  {
    if events == [] then d else Run(Step(d, h, events[0]), h, events[1..])
  }

  // ---------------------------------------------------------------------
  // Properties

  /** Every event keeps at most one save in flight. */
  lemma StepPreservesValid(d: DrawerState, h: FormHelpers, e: Event)
    requires Valid(d)
    ensures Valid(Step(d, h, e))
  {
  }

  lemma {:induction false} RunPreservesValid(d: DrawerState, h: FormHelpers, events: seq<Event>)
    requires Valid(d)
    ensures Valid(Run(d, h, events))
    decreases |events|
  {
    if events != [] {
      StepPreservesValid(d, h, events[0]);
      RunPreservesValid(Step(d, h, events[0]), h, events[1..]);
    }
  }

  /** When `resetFormValues` loads the `defaultValues` for no selection, the
      drawer mounts with them, and opening it for a new exercise from any
      other selection or from closed shows them again; an enabled submit
      then creates a record from exactly those values. */
  lemma NewExerciseFormIsDefault(d: DrawerState, h: FormHelpers)
    requires h.resetValues(None) == DefaultFormValues
    requires !d.open || d.selected.Some?
    ensures Initial(h).form == DefaultFormValues
    ensures var r := Show(d, h, true, None);
            && r.form == DefaultFormValues && r.original == h.snapshot(None)
            && (!SubmitDisabled(r) ==> Submit(r, h).requests == r.requests + [CreateRequest(DefaultFormValues)])
  {
  }

  /** In edit mode, submitting issues an update carrying the snapshot's id
      exactly when the diff against the snapshot is non-empty; otherwise it
      raises an info notice and issues no request. */
  lemma EditSubmitUpdatesIffChanged(d: DrawerState, h: FormHelpers)
    requires !SubmitDisabled(d) && d.selected.Some? && d.original.Some?
    ensures var r := Submit(d, h);
            var changes := h.diff(d.form, d.original.value);
            && (|changes| > 0 <==> r.requests == d.requests + [UpdateRequest(d.original.value.id, changes)])
            && (|changes| == 0 <==> r.notices == d.notices + [Info])
            && (|changes| == 0 ==> r.requests == d.requests)
  {
  }

  /** Without a stored snapshot, an edit-mode submit changes nothing. */
  lemma EditWithoutSnapshotIsNoOp(d: DrawerState, h: FormHelpers)
    requires d.selected.Some? && d.original.None?
    ensures Submit(d, h) == d
  {
  }

  /** The submit and delete buttons are gated by different flags, so a
      delete can be issued while an update is still in flight: two mutations
      of one drawer can be pending together. The trace opens a record, edits
      the form so that it differs from the snapshot, saves, then confirms
      the delete before the update has settled. */
  lemma DeleteMayOverlapUpdate(h: FormHelpers, x: Exercise, v: FormValues)
    requires x.id != ""
    requires h.snapshot(Some(x)) == Some(x)
    requires |h.diff(v, x)| > 0
    ensures var d := Run(Initial(h), h, [Open(true, Some(x)), Edit(v), SubmitClick, DeleteConfirm]);
            d.updatePending && d.deletePending
  {
    var d0 := Initial(h);
    var d1 := Step(d0, h, Open(true, Some(x)));
    var d2 := Step(d1, h, Edit(v));
    var d3 := Step(d2, h, SubmitClick);
    var d4 := Step(d3, h, DeleteConfirm);
    assert d3.updatePending;
    assert d4.updatePending && d4.deletePending;
    assert Run(d4, h, []) == d4;
    assert Run(d3, h, [DeleteConfirm]) == Run(d4, h, []);
    assert [SubmitClick, DeleteConfirm][1..] == [DeleteConfirm];
    assert Run(d2, h, [SubmitClick, DeleteConfirm]) == Run(d3, h, [DeleteConfirm]);
    assert [Edit(v), SubmitClick, DeleteConfirm][1..] == [SubmitClick, DeleteConfirm];
    assert Run(d1, h, [Edit(v), SubmitClick, DeleteConfirm]) == Run(d2, h, [SubmitClick, DeleteConfirm]);
    assert [Open(true, Some(x)), Edit(v), SubmitClick, DeleteConfirm][1..] == [Edit(v), SubmitClick, DeleteConfirm];
  }

  // ---------------------------------------------------------------------
  // The drawer as an object

  class Drawer {
    const helpers: FormHelpers
    var open: bool
    var selected: Option<Exercise>
    var form: FormValues
    var original: Option<Exercise>
    var createPending: bool
    var updatePending: bool
    var deletePending: bool
    var requests: seq<Request>
    var notices: seq<Notice>
    var invalidated: seq<seq<string>>

    function State(): DrawerState
      reads this
    {
      DrawerState(open, selected, form, original, createPending, updatePending, deletePending,
                  requests, notices, invalidated)
    }

    constructor (h: FormHelpers)
      ensures helpers == h && State() == Initial(h) && Valid(State())
    {
      helpers := h;
      open, selected := false, None;
      original := h.snapshot(None);
      form := h.resetValues(None);
      createPending, updatePending, deletePending := false, false, false;
      requests, notices, invalidated := [], [], [];
    }

    /** The page's `setOpenFormDrawer` / `setSelectedExercise`, and the
        drawer's own close button (`setOpen(false)`). */
    method SetOpen(open': bool, selected': Option<Exercise>)
      requires Valid(State())
      modifies this
      ensures State() == Show(old(State()), helpers, open', selected') && Valid(State())
    {
      var changed := open' != open || selected' != selected;
      open, selected := open', selected';
      if changed {
        form := helpers.resetValues(selected);
        original := helpers.snapshot(selected);
      }
    }

    method Edit(values: FormValues)
      requires Valid(State())
      modifies this
      ensures State() == EditForm(old(State()), values) && Valid(State())
    {
      form := values;
    }

    /** The submit button's click handler. */
    method SubmitClicked()
      requires Valid(State())
      modifies this
      ensures State() == Submit(old(State()), helpers) && Valid(State())
    {
      if createPending || updatePending {
        return;
      }
      if selected.Some? {
        if original.Some? {
          var changes := helpers.diff(form, original.value);
          if |changes| > 0 {
            requests := requests + [UpdateRequest(original.value.id, changes)];
            updatePending := true;
          } else {
            notices := notices + [Info];
          }
        }
      } else {
        requests := requests + [CreateRequest(form)];
        createPending := true;
      }
    }

    /** The "yes, delete" action of the confirmation dialog. */
    method DeleteConfirmed()
      requires Valid(State())
      modifies this
      ensures State() == ConfirmDelete(old(State())) && Valid(State())
    {
      if selected.Some? && !deletePending && selected.value.id != "" {
        requests := requests + [DeleteRequest(selected.value.id)];
        deletePending := true;
      }
    }

    /** The `onSuccess` / `onError` callback of a pending mutation. */
    method Settled(kind: MutationKind, ok: bool)
      requires Valid(State())
      modifies this
      ensures State() == Settle(old(State()), helpers, kind, ok) && Valid(State())
    {
      if !Pending(State(), kind) {
        return;
      }
      match kind {
        case CreateKind => createPending := false;
        case UpdateKind => updatePending := false;
        case DeleteKind => deletePending := false;
      }
      if ok {
        notices := notices + [SuccessNotice(kind)];
        invalidated := invalidated + [ListingKeyPrefix];
        SetOpen(false, selected);
      } else {
        notices := notices + [Error];
      }
    }
  }
}
