/** The process-wide filter selection (the Redux `filters` slice): one
    optional value per axis and a clear-all operation. */
module FilterStore {
  import opened Domain

  datatype Filters = Filters(
    muscleGroup: Option<string>,
    difficulty: Option<string>,
    equipment: Option<string>)

  const NoFilters := Filters(None, None, None)

  /** `muscleGroup || difficulty || equipment`: some axis holds a non-empty value. */
  predicate AnyFilter(f: Filters) {
    Truthy(f.muscleGroup) || Truthy(f.difficulty) || Truthy(f.equipment)
  }

  /** The `clearFilters` action: every axis becomes unset. */
  function Clear(f: Filters): (r: Filters)
    ensures !AnyFilter(r)
    ensures r.muscleGroup.None? && r.difficulty.None? && r.equipment.None?
  {
    NoFilters
  }
}
