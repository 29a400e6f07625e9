/** The exercise listing table: its seven columns and their cell renderers,
    the loading / error / table choice, and the edit action of each row. */
module ExercisesTable {
  import opened Domain
  import DataTable
  import opened ExerciseDrawer

  // ---------------------------------------------------------------------
  // Difficulty

  const Star: char := '\U{2B50}'

  /** The `difficultyStars` record. */
  const DifficultyStarsTable: map<string, nat> := map["Beginner" := 1, "Intermediate" := 2, "Advanced" := 3]

  /** `difficultyStars[value] || 0`: the stars shown for a difficulty. */
  function DifficultyStars(difficulty: string): (r: nat)
    ensures r <= 3
    ensures r == 0 <==> difficulty !in {"Beginner", "Intermediate", "Advanced"}
    ensures difficulty == "Beginner" ==> r == 1
    ensures difficulty == "Intermediate" ==> r == 2
    ensures difficulty == "Advanced" ==> r == 3
  {
    if difficulty in DifficultyStarsTable then DifficultyStarsTable[difficulty] else 0
  }

  /** Different known difficulties never show the same number of stars. */
  lemma StarsDetermineDifficulty(a: string, b: string)
    requires DifficultyStars(a) == DifficultyStars(b) > 0
    ensures a == b
  {
  }

  /** `c.repeat(n)`. */
  function Repeat(c: char, n: nat): (r: seq<char>)
    ensures |r| == n
    ensures forall i :: 0 <= i < n ==> r[i] == c
  {
    if n == 0 then [] else [c] + Repeat(c, n - 1)
  }

  /** The difficulty cell: the stars, a space, then the difficulty's label. */
  function DifficultyCell(difficulty: string, labelOf: string -> string): (r: string)
    ensures var n := DifficultyStars(difficulty);
            && |r| == n + 1 + |labelOf(difficulty)|
            && (forall i :: 0 <= i < n ==> r[i] == Star)
            && r[n] == ' '
            && r[n + 1..] == labelOf(difficulty)
  {
    Repeat(Star, DifficultyStars(difficulty)) + " " + labelOf(difficulty)
  }

  /** The number of star glyphs a text starts with. */
  function LeadingStars(s: string): nat {
    if s != [] && s[0] == Star then 1 + LeadingStars(s[1..]) else 0
  }

  lemma {:induction false} LeadingStarsOfRepeat(n: nat, rest: string)
    requires rest == [] || rest[0] != Star
    ensures LeadingStars(Repeat(Star, n) + rest) == n
  {
    if n > 0 {
      var s := Repeat(Star, n) + rest;
      assert s[1..] == Repeat(Star, n - 1) + rest;
      LeadingStarsOfRepeat(n - 1, rest);
    }
  }

  /** A reader counting the stars at the head of a difficulty cell gets back
      exactly the difficulty's star count: 3 for "Advanced", 1 for "Beginner". */
  lemma {:induction false} LeadingStarsOfDifficultyCell(difficulty: string, labelOf: string -> string)
    ensures LeadingStars(DifficultyCell(difficulty, labelOf)) == DifficultyStars(difficulty)
  {
    var n := DifficultyStars(difficulty);
    assert DifficultyCell(difficulty, labelOf) == Repeat(Star, n) + (" " + labelOf(difficulty));
    LeadingStarsOfRepeat(n, " " + labelOf(difficulty));
  }

  // ---------------------------------------------------------------------
  // The other cells

  /** The label functions (`mapLabel` over the muscle, difficulty and
      equipment tables) and the date formatter, none of them part of this
      model. `undefined`, the first element of an empty list, is `None`. */
  datatype Labels = Labels(
    muscle: Option<string> -> string,
    difficulty: string -> string,
    equipment: Option<string> -> string,
    date: string -> string)

  /** The first element of a list, `undefined` when it is empty. */
  function First(xs: seq<string>): (r: Option<string>)
    ensures r.Some? <==> |xs| > 0
    ensures r.Some? ==> r.value == xs[0]
  {
    if |xs| > 0 then Some(xs[0]) else None
  }

  /** The muscle and equipment cells show the label of the first element of
      their list and nothing of the rest: a non-empty list shows its first
      element's label, an empty list the label of `undefined`, and two
      records whose lists start alike show the same cell. */
  lemma FirstCellIgnoresRest(x: Exercise, y: Exercise, labels: Labels)
    ensures First(x.muscleGroups) == First(y.muscleGroups) ==>
              RenderCell(x, MuscleColumn, labels) == RenderCell(y, MuscleColumn, labels)
    ensures First(x.equipments) == First(y.equipments) ==>
              RenderCell(x, EquipmentColumn, labels) == RenderCell(y, EquipmentColumn, labels)
    ensures x.muscleGroups == [] ==> RenderCell(x, MuscleColumn, labels) == TextCell(labels.muscle(None))
    ensures x.equipments == [] ==> RenderCell(x, EquipmentColumn, labels) == TextCell(labels.equipment(None))
    ensures |x.muscleGroups| > 0 ==>
              RenderCell(x, MuscleColumn, labels) == TextCell(labels.muscle(Some(x.muscleGroups[0])))
    ensures |x.equipments| > 0 ==>
              RenderCell(x, EquipmentColumn, labels) == TextCell(labels.equipment(Some(x.equipments[0])))
  {
  }

  /** The difficulty cell of a table row starts with exactly the record's
      star count: three stars for "Advanced", one for "Beginner". */
  lemma DifficultyColumnShowsStars(x: Exercise, labels: Labels)
    ensures LeadingStars(RenderCell(x, DifficultyColumn, labels).text) == DifficultyStars(x.difficulty)
  {
    LeadingStarsOfDifficultyCell(x.difficulty, labels.difficulty);
  }

  const ActiveText := "\U{1F7E2} Activo"
  const InactiveText := "\U{1F534} Inactivo"

  /** The status cell for the active flag. */
  function ActiveCell(active: bool): (r: string)
    ensures r == ActiveText <==> active
    ensures r == InactiveText <==> !active
  {
    if active then ActiveText else InactiveText
  }

  /** The creation-date cell: empty for an empty value, else the formatted date. */
  function CreatedAtCell(createdAt: string, format: string -> string): (r: string)
    ensures createdAt == "" ==> r == ""
    ensures createdAt != "" ==> r == format(createdAt)
  {
    if createdAt == "" then "" else format(createdAt)
  }

  // ---------------------------------------------------------------------
  // Columns, rows and the view

  datatype Column = NameColumn | MuscleColumn | EquipmentColumn | DifficultyColumn
                  | ActiveColumn | CreatedAtColumn | ActionsColumn

  const Columns: seq<Column> := [NameColumn, MuscleColumn, EquipmentColumn, DifficultyColumn,
                                 ActiveColumn, CreatedAtColumn, ActionsColumn]

  /** A rendered cell: text, or the row's edit button. */
  datatype Cell = TextCell(text: string) | EditButton

  function RenderCell(x: Exercise, column: Column, labels: Labels): (r: Cell)
    ensures r.EditButton? <==> column == ActionsColumn
  {
    match column
    case NameColumn => TextCell(x.name)
    case MuscleColumn => TextCell(labels.muscle(First(x.muscleGroups)))
    case EquipmentColumn => TextCell(labels.equipment(First(x.equipments)))
    case DifficultyColumn => TextCell(DifficultyCell(x.difficulty, labels.difficulty))
    case ActiveColumn => TextCell(ActiveCell(x.active))
    case CreatedAtColumn => TextCell(CreatedAtCell(x.createdAt, labels.date))
    case ActionsColumn => EditButton
  }

  function RenderRow(x: Exercise, labels: Labels): (r: seq<Cell>)
    ensures |r| == |Columns|
    ensures forall i :: 0 <= i < |r| ==> r[i] == RenderCell(x, Columns[i], labels)
  {
    seq(|Columns|, i requires 0 <= i < |Columns| => RenderCell(x, Columns[i], labels))
  }

  const SkeletonColumns: nat := 7
  const SkeletonRows: nat := 7

  /** What the table area shows. The skeleton is a header of
      `headerCells` placeholders and one row of placeholders per entry of `rows`. */
  datatype View =
    | Skeleton(headerCells: nat, rows: seq<nat>)
    | ErrorMessage
    | TableView(body: seq<DataTable.BodyRow<Cell>>)

  /** Loading wins over an error, an error over the table. */
  function ViewOf(isLoading: bool, isError: bool, exercises: seq<Exercise>, labels: Labels): (r: View)
    ensures r.Skeleton? <==> isLoading
    ensures r.ErrorMessage? <==> !isLoading && isError
    ensures r.TableView? <==> !isLoading && !isError
    ensures r.Skeleton? ==> r.headerCells == |Columns| && |r.rows| == 7 &&
                            forall i :: 0 <= i < |r.rows| ==> r.rows[i] == |Columns|
    ensures r.TableView? && |exercises| == 0 ==> r.body == [DataTable.NoResults(|Columns|)]
    ensures r.TableView? && |exercises| > 0 ==>
              |r.body| == |exercises| &&
              forall i :: 0 <= i < |exercises| ==> r.body[i] == DataTable.DataRow(RenderRow(exercises[i], labels))
  {
    if isLoading then Skeleton(SkeletonColumns, seq(SkeletonRows, _ => SkeletonColumns))
    else if isError then ErrorMessage
    else TableView(DataTable.Body(exercises, |Columns|, x => RenderRow(x, labels)))
  }

  // ---------------------------------------------------------------------
  // The edit action

  /** The drawer after a click on a row's edit button: the row is selected and
      the drawer opened when the row has an id; otherwise nothing changes. */
  function EditClick(d: DrawerState, h: FormHelpers, row: Exercise): (r: DrawerState)
    ensures row.id != "" ==> r.open && r.selected == Some(row)
    ensures row.id == "" ==> r == d
    ensures r.requests == d.requests && r.invalidated == d.invalidated
  {
    if row.id != "" then Show(d, h, true, Some(row)) else d
  }

  /** The toast of an edit click: an error for a row without an id. */
  function EditClickNotice(row: Exercise): (r: Option<Notice>)
    ensures r.Some? <==> row.id == ""
    ensures r.Some? ==> r.value == Error
  {
    if row.id != "" then None else Some(Error)
  }

  method OnEditClick(drawer: Drawer, row: Exercise) returns (notice: Option<Notice>)
    requires Valid(drawer.State())
    modifies drawer
    ensures drawer.State() == EditClick(old(drawer.State()), drawer.helpers, row)
    ensures Valid(drawer.State())
    ensures notice == EditClickNotice(row)
  {
    if row.id != "" {
      drawer.SetOpen(true, Some(row));
      notice := None;
    } else {
      notice := Some(Error);
    }
  }
}
