/** The exercise listing page: the search box and its debounce, the filter
    selection, the page window, the choice of listing request and the page
    count. Time is a discrete clock `now`; the debounce timer is a single
    pending deadline that each new keystroke cancels and replaces. */
module ExercisesPage {
  import opened Domain
  import opened FilterStore
  import DataTable
  import ExerciseDrawer

  /** The quiet period of the search debounce. */
  const DebounceDelay: nat := 500

  /** The page size the page starts with. */
  const InitialPageSize: nat := 10

  type PageSize = n: nat | n > 0 witness 10

  // ---------------------------------------------------------------------
  // The listing query

  /** One page of listing results and the total count of matching records. */
  datatype Response = Response(rows: seq<Exercise>, total: nat)

  /** What the query client reports for the current key. */
  datatype QueryResult = QueryResult(isLoading: bool, isError: bool, data: Option<Response>)

  /** The components of the listing query key after its constant head
      `"exercises"`: the debounced search, the three filters, the page and
      the page size. */
  datatype QueryKey = QueryKey(search: string, filters: Filters, page: int, pageSize: PageSize)

  datatype KeyPart = Name(name: string) | Value(value: Option<string>) | Number(number: int)

  /** The query key as the query client sees it. */
  function KeyParts(k: QueryKey): (r: seq<KeyPart>)
    ensures |r| == 7 && r[0] == Name("exercises")
  {
    [Name("exercises"), Name(k.search), Value(k.filters.muscleGroup), Value(k.filters.difficulty),
     Value(k.filters.equipment), Number(k.page), Number(k.pageSize)]
  }

  /** Whether invalidating the key prefix `prefix` reaches the key `k`. */
  predicate Invalidates(prefix: seq<string>, k: QueryKey) {
    var parts := KeyParts(k);
    |prefix| <= |parts| && forall i :: 0 <= i < |prefix| ==> parts[i] == Name(prefix[i])
  }

  /** The prefix a successful drawer mutation invalidates covers every
      listing key, so any listing shown is refetched. */
  lemma MutationInvalidatesEveryListing(k: QueryKey)
    ensures Invalidates(ExerciseDrawer.ListingKeyPrefix, k)
  {
    assert KeyParts(k)[0] == Name(ExerciseDrawer.ListingKeyPrefix[0]);
  }

  /** The listing request the query function issues. */
  datatype ListingRequest =
    | FilterRequest(muscleGroup: Option<string>, difficulty: Option<string>, equipment: Option<string>,
                    limit: nat, page: int)
    | NameSearch(term: string, limit: nat, page: int)

  /** The query function: the filter request when some filter is set, the
      name search otherwise. The limit is always the page size. */
  function ChooseRequest(k: QueryKey): (r: ListingRequest)
    ensures r.FilterRequest? <==> AnyFilter(k.filters)
    ensures r.limit == k.pageSize && r.page == k.page
    ensures r.FilterRequest? ==> r.muscleGroup == k.filters.muscleGroup &&
                                 r.difficulty == k.filters.difficulty &&
                                 r.equipment == k.filters.equipment
    ensures r.NameSearch? ==> r.term == k.search
  {
    if AnyFilter(k.filters) then
      FilterRequest(k.filters.muscleGroup, k.filters.difficulty, k.filters.equipment, k.pageSize, k.page)
    else
      NameSearch(k.search, k.pageSize, k.page)
  }

  /** While a filter is set the search term plays no part in the request. */
  lemma FilterModeIgnoresSearch(k: QueryKey, term: string)
    requires AnyFilter(k.filters)
    ensures ChooseRequest(k.(search := term)) == ChooseRequest(k)
  {
  }

  /** Clearing the filters switches the request back to the name search. */
  lemma ClearedFiltersSearchByName(k: QueryKey)
    ensures ChooseRequest(k.(filters := Clear(k.filters))) == NameSearch(k.search, k.pageSize, k.page)
  {
  }

  /** `data ? Math.ceil(data.total / limit) : 1`. */
  function TotalPages(data: Option<Response>, limit: PageSize): (r: nat)
    ensures data.None? ==> r == 1
    ensures data.Some? ==> data.value.total <= r * limit < data.value.total + limit
  {
    match data
    case None => 1
    case Some(response) =>
      var q := (response.total + limit - 1) / limit;
      assert q * limit <= response.total + limit - 1 < q * limit + limit;
      q
  }

  /** The page count is the least number of pages that holds every record. */
  lemma TotalPagesIsLeast(response: Response, limit: PageSize, n: nat)
    requires response.total <= n * limit
    ensures TotalPages(Some(response), limit) <= n
  {
    var r := TotalPages(Some(response), limit);
    if n < r {
      MultiplyMonotone(n, r - 1, limit);
    }
  }

  /** Multiplication by a fixed factor is monotone; a separate lemma keeps
      the nonlinear step out of `TotalPagesIsLeast`'s own proof context. */
  lemma MultiplyMonotone(a: nat, b: nat, c: nat)
    requires a <= b
    ensures a * c <= b * c
  {
  }

  /** `data?.total || 0`. */
  function TotalExercises(data: Option<Response>): (r: nat)
    ensures data.Some? ==> r == data.value.total
    ensures data.None? ==> r == 0
  {
    if data.Some? then data.value.total else 0
  }

  /** With no matching record there are no pages, yet the page shown is the
      first: "page 1 of 0". The page is then outside `[1, totalPages]` and
      the "next" control stays disabled. */
  lemma EmptyResultShowsPageOneOfZero(limit: PageSize)
    ensures TotalPages(Some(Response([], 0)), limit) == 0
    ensures DataTable.NextDisabled(1, TotalPages(Some(Response([], 0)), limit))
    ensures DataTable.NextPage(1, TotalPages(Some(Response([], 0)), limit)) == 1
  {
  }

  // ---------------------------------------------------------------------
  // Page state and its transitions

  /** A pending debounce timer: when it fires and the search text its
      callback captured. */
  datatype Timer = Timer(at: nat, text: string)

  datatype PageState = PageState(
    search: string,
    debouncedSearch: string,
    filters: Filters,
    page: int,
    pageSize: PageSize,
    now: nat,
    timer: Option<Timer>,
    query: QueryResult,
    filtersOpen: bool)

  /** The page is at least 1, the page size one of the offered sizes, and a
      pending timer carries the current search text and fires within the
      quiet period. */
  predicate Valid(s: PageState) {
    && s.page >= 1
    && s.pageSize in DataTable.DefaultPageSizeOptions
    && (s.timer.Some? ==> s.timer.value.text == s.search && s.now < s.timer.value.at <= s.now + DebounceDelay)
  }

  /** The page as mounted with the filter store's current selection: empty
      search, page 1 of size 10, and the mount run of the debounce effect
      already pending. */
  function Initial(storeFilters: Filters): (r: PageState)
    ensures Valid(r)
    ensures r.search == "" && r.debouncedSearch == "" && r.page == 1 && r.pageSize == 10
    ensures r.timer == Some(Timer(DebounceDelay, ""))
    ensures ChooseRequest(QueryKeyOf(r)).limit == r.pageSize
  {
    PageState("", "", storeFilters, 1, InitialPageSize, 0, Some(Timer(DebounceDelay, "")),
              QueryResult(true, false, None), false)
  }

  function QueryKeyOf(s: PageState): QueryKey {
    QueryKey(s.debouncedSearch, s.filters, s.page, s.pageSize)
  }

  /** The request the current key leads to. */
  function RequestOf(s: PageState): ListingRequest {
    ChooseRequest(QueryKeyOf(s))
  }

  function TotalPagesOf(s: PageState): nat {
    TotalPages(s.query.data, s.pageSize)
  }

  /** A change of the search box: a new text cancels the pending timer and
      starts a fresh one for it; the same text does not re-run the effect.
      Typing never changes the listing query. */
  function Typed(s: PageState, text: string): (r: PageState)
    ensures r.search == text
    ensures text != s.search ==> r.timer == Some(Timer(s.now + DebounceDelay, text))
    ensures text != s.search ==> r == s.(search := text, timer := Some(Timer(s.now + DebounceDelay, text)))
    ensures text == s.search ==> r == s
    ensures QueryKeyOf(r) == QueryKeyOf(s)
    ensures Valid(s) ==> Valid(r)
  {
    if text == s.search then s
    else s.(search := text, timer := Some(Timer(s.now + DebounceDelay, text)))
  }

  /** The pending timer fires on this tick. */
  predicate Fires(s: PageState) {
    s.timer.Some? && s.timer.value.at == s.now + 1
  }

  /** One unit of time. When the timer fires, the captured text becomes the
      debounced search, the filters are cleared and the page goes back to 1. */
  function Ticked(s: PageState): (r: PageState)
    ensures r.now == s.now + 1
    ensures Fires(s) ==> r.debouncedSearch == s.timer.value.text && !AnyFilter(r.filters) &&
                         r.page == 1 && r.timer.None?
    ensures Fires(s) ==> r.search == s.search && r.pageSize == s.pageSize && r.query == s.query
    ensures Fires(s) ==> r == s.(now := s.now + 1, debouncedSearch := s.timer.value.text,
                                 filters := NoFilters, page := 1, timer := None)
    ensures !Fires(s) ==> r == s.(now := s.now + 1)
  {
    var s' := s.(now := s.now + 1);
    if Fires(s) then
      s'.(debouncedSearch := s.timer.value.text, filters := Clear(s.filters), page := 1, timer := None)
    else s'
  }

  /** The filter drawer stores a new selection (the drawer itself is not
      part of this model). The listing switches to the filter request
      exactly when the selection sets some filter; the page is kept. */
  function FiltersSelected(s: PageState, f: Filters): (r: PageState)
    ensures QueryKeyOf(r) == QueryKeyOf(s).(filters := f)
    ensures RequestOf(r).FilterRequest? <==> AnyFilter(f)
    ensures r.page == s.page && r.search == s.search && r.timer == s.timer
    ensures r == s.(filters := f)
  {
    s.(filters := f)
  }

  /** The "clear filters" button is rendered only while some filter is set. */
  predicate ClearFiltersOffered(s: PageState) {
    AnyFilter(s.filters)
  }

  /** A click on "clear filters": it clears only when the button is there to
      be clicked, and either way the listing ends up on the name search. */
  function ClearFiltersClicked(s: PageState): (r: PageState)
    ensures r != s ==> ClearFiltersOffered(s)
    ensures ClearFiltersOffered(s) ==> r == s.(filters := NoFilters)
    ensures !ClearFiltersOffered(s) ==> RequestOf(r) == RequestOf(s)
    ensures RequestOf(r) == NameSearch(s.debouncedSearch, s.pageSize, s.page)
  {
    if ClearFiltersOffered(s) then FiltersCleared(s) else s
  }

  /** The "clear filters" button: empties the selection and keeps the search
      box, the debounced search and the page. */
  function FiltersCleared(s: PageState): (r: PageState)
    ensures r == s.(filters := NoFilters)
    ensures !AnyFilter(r.filters)
    ensures r.search == s.search && r.debouncedSearch == s.debouncedSearch && r.page == s.page
    ensures RequestOf(r) == NameSearch(s.debouncedSearch, s.pageSize, s.page)
  {
    s.(filters := Clear(s.filters))
  }

  /** The "filters" button opens or closes the filter drawer and leaves
      the listing alone; a second press undoes the first. */
  function FiltersToggled(s: PageState): (r: PageState)
    ensures r.filtersOpen != s.filtersOpen
    ensures QueryKeyOf(r) == QueryKeyOf(s)
    ensures r.(filtersOpen := !r.filtersOpen) == s
  {
    s.(filtersOpen := !s.filtersOpen)
  }

  /** The page-size selector: the new size, back on page 1. */
  function PageSizeChanged(s: PageState, size: PageSize): (r: PageState)
    ensures r.pageSize == size && r.page == 1
    ensures r == s.(pageSize := size, page := 1)
  {
    s.(pageSize := size, page := 1)
  }

  /** The "previous" control. */
  function PrevClicked(s: PageState): (r: PageState)
    ensures r == s.(page := DataTable.PrevPage(s.page))
    ensures s.page >= 1 ==> r.page >= 1
  {
    s.(page := DataTable.PrevPage(s.page))
  }

  /** The "next" control, disabled at or beyond the page count. */
  function NextClicked(s: PageState): (r: PageState)
    ensures r == s.(page := DataTable.NextPage(s.page, TotalPagesOf(s)))
    ensures r.page > s.page ==> r.page <= TotalPagesOf(s)
  {
    s.(page := DataTable.NextPage(s.page, TotalPagesOf(s)))
  }

  /** The query client reports on the current key: the report replaces the
      previous one, and the page count follows its data. */
  function QueryUpdated(s: PageState, q: QueryResult): (r: PageState)
    ensures r.query == q && QueryKeyOf(r) == QueryKeyOf(s)
    ensures TotalPagesOf(r) == TotalPages(q.data, s.pageSize)
    ensures r.(query := s.query) == s
  {
    s.(query := q)
  }

  datatype Event =
    | Keystroke(text: string)
    | TimeStep
    | FilterSelection(filters: Filters)
    | ClearFiltersClick
    | FiltersToggle
    | PageSizeSelection(size: PageSize)
    | PrevClick
    | NextClick
    | QueryUpdate(result: QueryResult)

  /** What the page's controls can produce: a page size from the selector's options. */
  predicate Allowed(e: Event) {
    e.PageSizeSelection? ==> e.size in DataTable.DefaultPageSizeOptions
  }

  function Step(s: PageState, e: Event): PageState {
    match e
    case Keystroke(text) => Typed(s, text)
    case TimeStep => Ticked(s)
    case FilterSelection(f) => FiltersSelected(s, f)
    case ClearFiltersClick => ClearFiltersClicked(s)
    case FiltersToggle => FiltersToggled(s)
    case PageSizeSelection(size) => PageSizeChanged(s, size)
    case PrevClick => PrevClicked(s)
    case NextClick => NextClicked(s)
    case QueryUpdate(q) => QueryUpdated(s, q)
  }

  function Run(s: PageState, events: seq<Event>): PageState
    decreases |events|
  {
    if events == [] then s else Run(Step(s, events[0]), events[1..])
  }

  /** The search texts the debounce applied along a run, in order. */
  function Applied(s: PageState, events: seq<Event>): seq<string>
    decreases |events|
  {
    if events == [] then []
    else
      (if events[0].TimeStep? && Fires(s) then [s.timer.value.text] else [])
      + Applied(Step(s, events[0]), events[1..])
  }

  /** `n` units of time with no input. */
  function Quiet(n: nat): (r: seq<Event>)
    ensures |r| == n && forall i :: 0 <= i < n ==> r[i] == TimeStep
  {
    seq(n, _ => TimeStep)
  }

  // ---------------------------------------------------------------------
  // Properties

  /** Every event the page can receive keeps it valid; in particular the
      page never drops below 1. */
  lemma StepPreservesValid(s: PageState, e: Event)
    requires Valid(s) && Allowed(e)
    ensures Valid(Step(s, e))
  {
  }

  lemma {:induction false} RunPreservesValid(s: PageState, events: seq<Event>)
    requires Valid(s) && forall i :: 0 <= i < |events| ==> Allowed(events[i])
    ensures Valid(Run(s, events))
    decreases |events|
  {
    if events != [] {
      StepPreservesValid(s, events[0]);
      RunPreservesValid(Step(s, events[0]), events[1..]);
    }
  }

  lemma {:induction false} RunAppend(s: PageState, a: seq<Event>, b: seq<Event>)
    ensures Run(s, a + b) == Run(Run(s, a), b)
    ensures Applied(s, a + b) == Applied(s, a) + Applied(Run(s, a), b)
    decreases |a|
  {
    if a != [] {
      assert (a + b)[0] == a[0];
      assert (a + b)[1..] == a[1..] + b;
      RunAppend(Step(s, a[0]), a[1..], b);
    } else {
      assert a + b == b;
    }
  }

  /** Time passing before the deadline (or with no timer) changes nothing but the clock. */
  lemma {:induction false} NothingFiresBeforeDeadline(s: PageState, n: nat)
    requires s.timer.None? || s.now + n < s.timer.value.at
    ensures Run(s, Quiet(n)) == s.(now := s.now + n)
    ensures Applied(s, Quiet(n)) == []
    decreases n
  {
    if n > 0 {
      assert Quiet(n)[1..] == Quiet(n - 1);
      assert !Fires(s);
      NothingFiresBeforeDeadline(s.(now := s.now + 1), n - 1);
    }
  }

  /** Once the quiet period has run out, the timer has fired exactly once:
      its text is the debounced search, the filters are empty and the page is 1. */
  lemma DebounceFiresAtDeadline(s: PageState, n: nat)
    requires Valid(s) && s.timer.Some? && s.timer.value.at <= s.now + n
    ensures var r := Run(s, Quiet(n));
            && Applied(s, Quiet(n)) == [s.timer.value.text]
            && r.debouncedSearch == s.timer.value.text == s.search
            && !AnyFilter(r.filters) && r.page == 1 && r.timer.None?
            && r.search == s.search && r.pageSize == s.pageSize && r.now == s.now + n
  {
    var k := s.timer.value.at - s.now;
    assert Quiet(n) == Quiet(k - 1) + ([TimeStep] + Quiet(n - k));
    NothingFiresBeforeDeadline(s, k - 1);
    var s1 := s.(now := s.now + k - 1);
    RunAppend(s, Quiet(k - 1), [TimeStep] + Quiet(n - k));
    assert Fires(s1);
    var s2 := Ticked(s1);
    assert ([TimeStep] + Quiet(n - k))[1..] == Quiet(n - k);
    assert Run(s1, [TimeStep] + Quiet(n - k)) == Run(s2, Quiet(n - k));
    assert Applied(s1, [TimeStep] + Quiet(n - k)) == [s.timer.value.text] + Applied(s2, Quiet(n - k));
    NothingFiresBeforeDeadline(s2, n - k);
  }

  /** A burst of typing: each keystroke gives a new text and is followed by
      a pause shorter than the quiet period. */
  datatype Stroke = Stroke(text: string, pause: nat)

  function BurstEvents(burst: seq<Stroke>): seq<Event>
    decreases |burst|
  {
    if burst == [] then []
    else [Keystroke(burst[0].text)] + Quiet(burst[0].pause) + BurstEvents(burst[1..])
  }

  predicate IsBurst(s: PageState, burst: seq<Stroke>) {
    && |burst| > 0
    && burst[0].text != s.search
    && (forall i :: 1 <= i < |burst| ==> burst[i].text != burst[i - 1].text)
    && (forall i :: 0 <= i < |burst| ==> burst[i].pause < DebounceDelay)
  }

  /** During a burst nothing is applied and the listing query is untouched;
      at its end the one pending timer carries the last text. */
  lemma {:induction false} BurstAppliesNothing(s: PageState, burst: seq<Stroke>)
    requires Valid(s) && IsBurst(s, burst)
    ensures var r := Run(s, BurstEvents(burst));
            var last := burst[|burst| - 1];
            && Applied(s, BurstEvents(burst)) == []
            && Valid(r)
            && QueryKeyOf(r) == QueryKeyOf(s)
            && r.search == last.text
            && r.timer == Some(Timer(r.now + DebounceDelay - last.pause, last.text))
    decreases |burst|
  {
    var t := burst[0].text;
    var s1 := Typed(s, t);
    var rest := Quiet(burst[0].pause) + BurstEvents(burst[1..]);
    assert BurstEvents(burst) == [Keystroke(t)] + rest;
    assert BurstEvents(burst)[1..] == rest;
    assert Run(s, BurstEvents(burst)) == Run(s1, rest);
    assert Applied(s, BurstEvents(burst)) == Applied(s1, rest);
    RunAppend(s1, Quiet(burst[0].pause), BurstEvents(burst[1..]));
    NothingFiresBeforeDeadline(s1, burst[0].pause);
    var s2 := s1.(now := s1.now + burst[0].pause);
    if |burst| == 1 {
      assert BurstEvents(burst[1..]) == [];
    } else {
      BurstAppliesNothing(s2, burst[1..]);
    }
  }

  /** Only the last text of a burst is ever applied, exactly once, once the
      quiet period after it has passed; it then drives the listing query
      with the filters cleared on page 1. */
  lemma BurstAppliesOnlyLast(s: PageState, burst: seq<Stroke>)
    requires Valid(s) && IsBurst(s, burst)
    ensures var events := BurstEvents(burst) + Quiet(DebounceDelay);
            var r := Run(s, events);
            var last := burst[|burst| - 1].text;
            && Applied(s, events) == [last]
            && r.debouncedSearch == last && !AnyFilter(r.filters) && r.page == 1
            && RequestOf(r) == NameSearch(last, s.pageSize, 1)
  {
    BurstAppliesNothing(s, burst);
    var mid := Run(s, BurstEvents(burst));
    RunAppend(s, BurstEvents(burst), Quiet(DebounceDelay));
    DebounceFiresAtDeadline(mid, DebounceDelay);
  }

  // ---------------------------------------------------------------------
  // The page as an object

  class Page {
    const drawer: ExerciseDrawer.Drawer
    var search: string
    var debouncedSearch: string
    var filters: Filters
    var page: int
    var pageSize: PageSize
    var now: nat
    var timer: Option<Timer>
    var query: QueryResult
    var filtersOpen: bool

    function State(): PageState
      reads this
    {
      PageState(search, debouncedSearch, filters, page, pageSize, now, timer, query, filtersOpen)
    }

    constructor (storeFilters: Filters, helpers: ExerciseDrawer.FormHelpers)
      ensures State() == Initial(storeFilters) && Valid(State())
      ensures fresh(drawer) && drawer.helpers == helpers
      ensures drawer.State() == ExerciseDrawer.Initial(helpers)
    {
      drawer := new ExerciseDrawer.Drawer(helpers);
      search, debouncedSearch, filters := "", "", storeFilters;
      page, pageSize := 1, InitialPageSize;
      now, timer := 0, Some(Timer(DebounceDelay, ""));
      query, filtersOpen := QueryResult(true, false, None), false;
    }

    /** The listing request for the current state. */
    function Request(): (r: ListingRequest)
      reads this
      ensures r.limit == pageSize && r.page == page
      ensures r.FilterRequest? <==> AnyFilter(filters)
      ensures r.NameSearch? ==> r.term == debouncedSearch
    {
      ChooseRequest(QueryKeyOf(State()))
    }

    /** The search box's `onChange`. */
    method Type(text: string)
      requires Valid(State())
      modifies this
      ensures State() == Typed(old(State()), text) && Valid(State())
    {
      if text != search {
        search := text;
        timer := Some(Timer(now + DebounceDelay, text));
      }
    }

    method Tick()
      requires Valid(State())
      modifies this
      ensures State() == Ticked(old(State())) && Valid(State())
    {
      now := now + 1;
      if timer.Some? && timer.value.at == now {
        debouncedSearch := timer.value.text;
        filters := NoFilters;
        page := 1;
        timer := None;
      }
    }

    method SelectFilters(f: Filters)
      requires Valid(State())
      modifies this
      ensures State() == FiltersSelected(old(State()), f) && Valid(State())
    {
      filters := f;
    }

    method ClearFilters()
      requires Valid(State())
      modifies this
      ensures State() == ClearFiltersClicked(old(State())) && Valid(State())
    {
      if AnyFilter(filters) {
        filters := NoFilters;
      }
    }

    method ToggleFilters()
      requires Valid(State())
      modifies this
      ensures State() == FiltersToggled(old(State())) && Valid(State())
    {
      filtersOpen := !filtersOpen;
    }

    /** `handlePageSizeChange` of the table, with a size from its options. */
    method ChangePageSize(size: PageSize)
      requires Valid(State()) && size in DataTable.DefaultPageSizeOptions
      modifies this
      ensures State() == PageSizeChanged(old(State()), size) && Valid(State())
    {
      pageSize := size;
      page := 1;
    }

    method Prev()
      requires Valid(State())
      modifies this
      ensures State() == PrevClicked(old(State())) && Valid(State())
    {
      if !DataTable.PrevDisabled(page) {
        page := page - 1;
      }
    }

    method Next()
      requires Valid(State())
      modifies this
      ensures State() == NextClicked(old(State())) && Valid(State())
    {
      var totalPages := TotalPages(query.data, pageSize);
      if !DataTable.NextDisabled(page, totalPages) {
        page := page + 1;
      }
    }

    method UpdateQuery(q: QueryResult)
      requires Valid(State())
      modifies this
      ensures State() == QueryUpdated(old(State()), q) && Valid(State())
    {
      query := q;
    }

    /** The "new exercise" button: no selection, drawer open. */
    method NewExercise()
      requires ExerciseDrawer.Valid(drawer.State())
      modifies drawer
      ensures drawer.State() == ExerciseDrawer.Show(old(drawer.State()), drawer.helpers, true, None)
      ensures ExerciseDrawer.Valid(drawer.State())
      ensures State() == old(State())
    {
      drawer.SetOpen(true, None);
    }
  }
}
