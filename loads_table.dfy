/**
 * The loads table controller (client/src/components/LoadsTable.tsx): six
 * pieces of state, the transitions a loads fetch and a reference-data fetch
 * make on them, the filter handlers that go back to page 1, and the choice of
 * what to show.
 */
module LoadsTableController {
  import opened Wrappers
  import opened Decimal
  import opened SearchParams
  import opened Types
  import opened UrlState
  import Api
  import opened TableView
  import opened PaginationControls
  import opened FilterBar

  datatype TableState = TableState(
    loads: seq<Load>,
    statuses: seq<Status>,
    carriers: seq<Carrier>,
    pagination: Option<Pagination>,
    loading: bool,
    error: Option<string>)

  /** The state on mount: nothing loaded yet, loading. */
  const Initial := TableState([], [], [], None, true, None)

  const PageSize := 10
  const FallbackMessage := "Failed to load data"

  /**
   * What holds in every state the table reaches: no error is set while
   * `loading` is true, and loads are only ever present with their pagination.
   */
  predicate Consistent(t: TableState) {
    (t.loading ==> t.error.None?) && (t.pagination.None? ==> t.loads == [])
  }

  /** The arguments of the loads request for the current filters and the debounced search. */
  function LoadsRequest(f: FilterState, debouncedSearch: string): (p: LoadsQueryParams)
    ensures p.limit == Some(PageSize)
    ensures p.search.None? <==> debouncedSearch == ""
    ensures p.search.Some? ==> p.search.value == debouncedSearch
    ensures p.page == Some(f.page) && p.status == f.status && p.carrier == f.carrier
  {
    LoadsQueryParams(
      Some(f.page), Some(PageSize), f.status, f.carrier,
      if debouncedSearch != "" then Some(debouncedSearch) else None)
  }

  /**
   * The query actually sent: limit=10 always, the search only when the
   * debounced text is non-empty, the page unless it is 0, and status and
   * carrier exactly as the address bar carries them.
   */
  lemma RequestQuery(f: FilterState, debouncedSearch: string)
    ensures Get(Api.LoadsQuery(LoadsRequest(f, debouncedSearch)), "limit") == Some("10")
    ensures Get(Api.LoadsQuery(LoadsRequest(f, debouncedSearch)), "search")
            == if debouncedSearch == "" then None else Some(debouncedSearch)
    ensures Get(Api.LoadsQuery(LoadsRequest(f, debouncedSearch)), "page")
            == if f.page != 0 then Some(IntToString(f.page)) else None
    ensures Get(Api.LoadsQuery(LoadsRequest(f, debouncedSearch)), "status") == Get(Serialise(f), "status")
    ensures Get(Api.LoadsQuery(LoadsRequest(f, debouncedSearch)), "carrier") == Get(Serialise(f), "carrier")
  {
    var p := LoadsRequest(f, debouncedSearch);
    Api.LoadsQueryLookup(p, "limit");
    Api.LoadsQueryLookup(p, "search");
    Api.LoadsQueryLookup(p, "page");
    Api.LoadsQueryLookup(p, "status");
    Api.LoadsQueryLookup(p, "carrier");
    SerialiseLookup(f, "status");
    SerialiseLookup(f, "carrier");
    PageSizeText();
  }

  lemma PageSizeText()
    ensures IdText(Some(PageSize)) == "10"
  {
    assert DigitChar(1) == '1' && DigitChar(0) == '0';
    assert NatToString(10) == NatToString(1) + [DigitChar(0)];
  }

  /** `err instanceof Error ? err.message : "Failed to load data"` */
  function ErrorMessage(e: Thrown): (message: string)
    ensures e.ErrorObject? ==> message == e.message
    ensures e.OtherValue? ==> message == FallbackMessage
  {
    match e
    case ErrorObject(m) => m
    case OtherValue => FallbackMessage
  }

  /** The start of fetchData: loading is set and the error cleared; nothing else changes. */
  function Started(t: TableState): (t': TableState)
    ensures t'.loading && t'.error.None?
    ensures t'.loads == t.loads && t'.pagination == t.pagination
    ensures t'.statuses == t.statuses && t'.carriers == t.carriers
    ensures Consistent(t) ==> Consistent(t')
  {
    t.(loading := true, error := None)
  }

  /**
   * The end of fetchData: on success the loads and pagination are those of
   * the response; on failure the error is set and the loads are kept; in
   * both cases loading ends.
   */
  function Finished(t: TableState, outcome: Result<LoadsResponse, Thrown>): (t': TableState)
    ensures !t'.loading
    ensures outcome.Success? ==>
              t'.loads == outcome.value.data && t'.pagination == Some(outcome.value.pagination) && t'.error == t.error
    ensures outcome.Failure? ==>
              t'.loads == t.loads && t'.pagination == t.pagination && t'.error == Some(ErrorMessage(outcome.error))
    ensures t'.statuses == t.statuses && t'.carriers == t.carriers
    ensures Consistent(t) ==> Consistent(t')
  {
    match outcome
    case Success(response) => t.(loads := response.data, pagination := Some(response.pagination), loading := false)
    case Failure(e) => t.(error := Some(ErrorMessage(e)), loading := false)
  }

  /**
   * The end of fetchFilters: both lists are taken only when both requests
   * succeeded (`Promise.all`); a failure is only logged.
   */
  function FiltersLoaded(t: TableState, statuses: Result<seq<Status>, Thrown>, carriers: Result<seq<Carrier>, Thrown>)
    : (t': TableState)
    ensures statuses.Success? && carriers.Success? ==>
              t'.statuses == statuses.value && t'.carriers == carriers.value
    ensures statuses.Failure? || carriers.Failure? ==> t' == t
    ensures t'.loads == t.loads && t'.pagination == t.pagination && t'.loading == t.loading && t'.error == t.error
  {
    if statuses.Success? && carriers.Success? then t.(statuses := statuses.value, carriers := carriers.value) else t
  }

  datatype Body = EmptyBody | TableBody(rows: seq<Row>, pager: Option<PagerView>)

  /** The four presentations: skeleton, error, or the filter bar over an empty notice or the table. */
  datatype Screen = Skeleton | ErrorScreen(message: string) | Listing(filters: FilterBarView, body: Body)

  /**
   * The render: the skeleton exactly while loading with no loads; otherwise
   * the error when one is set (and non-empty); otherwise the filter bar with
   * the empty notice when there are no loads, else the rows and, when there
   * is pagination, the pager.
   */
  function SelectScreen(t: TableState, f: FilterState): (s: Screen)
    ensures s.Skeleton? <==> t.loading && t.loads == []
    ensures s.ErrorScreen? <==> !(t.loading && t.loads == []) && TruthyText(t.error)
    ensures s.ErrorScreen? ==> s.message == t.error.value
    ensures s.Listing? ==> s.filters == Controls(f.search, f.status, f.carrier, t.statuses, t.carriers)
    ensures s.Listing? ==> (s.body.EmptyBody? <==> t.loads == [])
    ensures s.Listing? && s.body.TableBody? ==>
              s.body.rows == Rows(t.loads, t.statuses, t.carriers)
              && s.body.pager == if t.pagination.Some? then Some(Pager(t.pagination.value)) else None
  {
    if t.loading && t.loads == [] then Skeleton
    else if TruthyText(t.error) then ErrorScreen(t.error.value)
    else
      var filters := Controls(f.search, f.status, f.carrier, t.statuses, t.carriers);
      if t.loads == [] then Listing(filters, EmptyBody)
      else Listing(filters, TableBody(
        Rows(t.loads, t.statuses, t.carriers),
        if t.pagination.Some? then Some(Pager(t.pagination.value)) else None))
  }

  /** In a reachable state the table always comes with its pager. */
  lemma TableAlwaysPaged(t: TableState, f: FilterState)
    requires Consistent(t)
    requires SelectScreen(t, f).Listing? && SelectScreen(t, f).body.TableBody?
    ensures SelectScreen(t, f).body.pager == Some(Pager(t.pagination.value))
  {
  }

  /** A failed loads fetch shows its message and no rows, whatever was shown before. */
  lemma FailureShowsError(t: TableState, f: FilterState, e: Thrown)
    requires ErrorMessage(e) != ""
    ensures SelectScreen(Finished(t, Failure(e)), f) == ErrorScreen(ErrorMessage(e))
  {
  }

  /** A fetch that returns no loads shows the empty notice, not the error. */
  lemma EmptyResultShowsEmpty(t: TableState, f: FilterState, response: LoadsResponse)
    requires response.data == []
    ensures SelectScreen(Finished(Started(t), Success(response)), f).Listing?
    ensures SelectScreen(Finished(Started(t), Success(response)), f).body == EmptyBody
  {
  }

  /** A fetch that returns loads shows exactly their rows, with the response's pager. */
  lemma ResultShowsRows(t: TableState, f: FilterState, response: LoadsResponse)
    requires response.data != []
    ensures SelectScreen(Finished(Started(t), Success(response)), f)
            == Listing(
                 Controls(f.search, f.status, f.carrier, t.statuses, t.carriers),
                 TableBody(Rows(response.data, t.statuses, t.carriers), Some(Pager(response.pagination))))
  {
  }

  /** While a new fetch is in flight, loads already shown stay on screen: no skeleton, no error. */
  lemma RefetchKeepsRows(t: TableState, f: FilterState)
    requires t.loads != []
    ensures SelectScreen(Started(t), f).Listing?
    ensures SelectScreen(Started(t), f).body.TableBody?
  {
  }

  /** A failed reference fetch changes neither the state nor the screen. */
  lemma FiltersFailureIsolated(
    t: TableState, f: FilterState, statuses: Result<seq<Status>, Thrown>, carriers: Result<seq<Carrier>, Thrown>)
    requires statuses.Failure? || carriers.Failure?
    ensures SelectScreen(FiltersLoaded(t, statuses, carriers), f) == SelectScreen(t, f)
  {
  }

  /**
   * The state of the LoadsTable component, with the URL-synchronised filters
   * it reads and the handlers it passes to the filter bar and the pager.
   */
  class LoadsTable {
    var loads: seq<Load>
    var statuses: seq<Status>
    var carriers: seq<Carrier>
    var pagination: Option<Pagination>
    var loading: bool
    var error: Option<string>
    const url: UrlStateHook

    function State(): TableState
      reads this
    {
      TableState(loads, statuses, carriers, pagination, loading, error)
    }

    ghost predicate Valid()
      reads this, url
    {
      Consistent(State()) && url.Valid()
    }

    /** What the component renders now. */
    function Screen(): (s: Screen)
      reads this, url
      ensures s == SelectScreen(State(), url.State())
      ensures s.Listing? ==> s.filters.searchValue == url.search
    {
      SelectScreen(State(), url.State())
    }

    constructor (url: UrlStateHook)
      requires url.Valid()
      ensures Valid() && State() == Initial && this.url == url
    {
      loads, statuses, carriers, pagination, loading, error := [], [], [], None, true, None;
      this.url := url;
    }

    /** fetchData up to its `await`: returns the request it makes. */
    method StartFetch(debouncedSearch: string) returns (request: LoadsQueryParams)
      requires Valid()
      modifies this
      ensures Valid() && State() == Started(old(State()))
      ensures request == LoadsRequest(url.State(), debouncedSearch)
    {
      loading := true;
      error := None;
      request := LoadsQueryParams(
        Some(url.page), Some(PageSize), url.status, url.carrier,
        if debouncedSearch != "" then Some(debouncedSearch) else None);
    }

    /** fetchData after its `await`, with what `api.getLoads` settled to. */
    method FinishFetch(outcome: Result<LoadsResponse, Thrown>)
      requires Valid()
      modifies this
      ensures Valid() && State() == Finished(old(State()), outcome)
    {
      match outcome {
        case Success(response) =>
          loads := response.data;
          pagination := Some(response.pagination);
        case Failure(e) =>
          error := Some(if e.ErrorObject? then e.message else FallbackMessage);
      }
      loading := false;
    }

    /** fetchData run to the end with no other event in between, for the reply the server gave. */
    method FetchData(debouncedSearch: string, reply: Api.Reply<LoadsResponse>) returns (requestUrl: string)
      requires Valid()
      modifies this
      ensures Valid()
      ensures requestUrl == Api.ApiBaseUrl + "/loads?" + Text(Api.LoadsQuery(LoadsRequest(url.State(), debouncedSearch)))
      ensures reply.Received? && reply.ok ==> State() == Finished(Started(old(State())), Success(reply.body))
      ensures reply.Received? && !reply.ok ==>
                State() == Finished(Started(old(State())), Failure(ErrorObject("Failed to fetch loads")))
      ensures reply.Rejected? ==> State() == Finished(Started(old(State())), Failure(reply.reason))
    {
      var request := StartFetch(debouncedSearch);
      var outcome;
      requestUrl, outcome := Api.GetLoads(request, reply);
      FinishFetch(outcome);
    }

    /** fetchFilters after `Promise.all` settled, with what each request settled to. */
    method FinishFilters(statusesOutcome: Result<seq<Status>, Thrown>, carriersOutcome: Result<seq<Carrier>, Thrown>)
      requires Valid()
      modifies this
      ensures Valid() && State() == FiltersLoaded(old(State()), statusesOutcome, carriersOutcome)
    {
      if statusesOutcome.Success? && carriersOutcome.Success? {
        statuses := statusesOutcome.value;
        carriers := carriersOutcome.value;
      }
    }

    /** A new search text (passed through from the input unchanged) also goes back to page 1. */
    method HandleSearchChange(value: string)
      requires Valid()
      modifies url
      ensures Valid() && State() == old(State())
      ensures url.State() == old(url.State()).(search := value, page := 1)
      ensures url.entries == old(url.entries) && url.current == old(url.current) && url.synced == old(url.synced)
    {
      url.SetSearch(value);
      url.SetPage(1);
    }

    /** A new status choice also goes back to page 1. */
    method HandleStatusChange(value: Option<int>)
      requires Valid()
      modifies url
      ensures Valid() && State() == old(State())
      ensures url.State() == old(url.State()).(status := value, page := 1)
      ensures url.entries == old(url.entries) && url.current == old(url.current) && url.synced == old(url.synced)
    {
      url.SetStatus(value);
      url.SetPage(1);
    }

    /** A new carrier choice also goes back to page 1. */
    method HandleCarrierChange(value: Option<int>)
      requires Valid()
      modifies url
      ensures Valid() && State() == old(State())
      ensures url.State() == old(url.State()).(carrier := value, page := 1)
      ensures url.entries == old(url.entries) && url.current == old(url.current) && url.synced == old(url.synced)
    {
      url.SetCarrier(value);
      url.SetPage(1);
    }
  }
}
