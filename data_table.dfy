/** The generic paginated table: body rows, the page-size selector and the
    previous/next controls. The page and page size themselves belong to the
    caller; this module gives the rules its handlers apply to them. */
module DataTable {

  /** The page sizes offered when the caller gives none. */
  const DefaultPageSizeOptions: seq<nat> := [10, 25, 50, 100]

  /** A row of the table body: one rendered cell per column, or the single
      "no results" cell spanning every column. */
  datatype BodyRow<C> = DataRow(cells: seq<C>) | NoResults(colSpan: nat)

  /** The body of the table for `rows`, each rendered into its cells by `render`. */
  function Body<T, C>(rows: seq<T>, columnCount: nat, render: T -> seq<C>): (r: seq<BodyRow<C>>)
    ensures |rows| == 0 ==> r == [NoResults(columnCount)]
    ensures |rows| > 0 ==> |r| == |rows|
    ensures |rows| > 0 ==> forall i :: 0 <= i < |r| ==> r[i] == DataRow(render(rows[i]))
  {
    if |rows| == 0 then [NoResults(columnCount)] else DataRows(rows, render)
  }

  function DataRows<T, C>(rows: seq<T>, render: T -> seq<C>): (r: seq<BodyRow<C>>)
    ensures |r| == |rows|
    ensures forall i :: 0 <= i < |r| ==> r[i] == DataRow(render(rows[i]))
  {
    if rows == [] then [] else [DataRow(render(rows[0]))] + DataRows(rows[1..], render)
  }

  /** The "previous" control is disabled at or below the first page, so
      while it is enabled the page before is still a page. */
  function PrevDisabled(page: int): (r: bool)
    ensures !r <==> page - 1 >= 1
  {
    page <= 1
  }

  /** The "next" control is disabled at or beyond the last page, so while it
      is enabled the page after is still within the page count. */
  function NextDisabled(page: int, totalPages: int): (r: bool)
    ensures !r <==> page + 1 <= totalPages
  {
    page >= totalPages
  }

  /** The page after a click on "previous": one back, unless the control is disabled. */
  function PrevPage(page: int): (r: int)
    ensures page >= 1 ==> r >= 1
    ensures r < page <==> !PrevDisabled(page)
    ensures r == page || r == page - 1
  {
    if PrevDisabled(page) then page else page - 1
  }

  /** The page after a click on "next": one forward, unless the control is disabled. */
  function NextPage(page: int, totalPages: int): (r: int)
    ensures r > page <==> !NextDisabled(page, totalPages)
    ensures r == page || r == page + 1
    ensures r != page ==> r <= totalPages
  {
    if NextDisabled(page, totalPages) then page else page + 1
  }

  /** Neither control ever leaves `[1, max(page, totalPages)]`: a page in range stays in range. */
  lemma PagerStaysInRange(page: int, totalPages: int)
    requires 1 <= page <= totalPages
    ensures 1 <= PrevPage(page) <= totalPages
    ensures 1 <= NextPage(page, totalPages) <= totalPages
  {
  }
}
