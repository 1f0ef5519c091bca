/** The pager (client/src/components/Pagination.tsx): previous/next targets, their disabled flags and the label. */
module PaginationControls {
  import opened Types
  import opened UrlState

  /** What the pager renders: the page each button requests, whether it is disabled, and "Page x of y". */
  datatype PagerView = PagerView(
    previousPage: int,
    previousDisabled: bool,
    page: int,
    totalPages: int,
    nextPage: int,
    nextDisabled: bool)

  function Pager(p: Pagination): (v: PagerView)
    ensures v.previousPage == p.page - 1 && v.nextPage == p.page + 1
    ensures v.previousDisabled <==> !p.hasPreviousPage
    ensures v.nextDisabled <==> !p.hasNextPage
    ensures v.page == p.page && v.totalPages == p.totalPages
  {
    PagerView(p.page - 1, !p.hasPreviousPage, p.page, p.totalPages, p.page + 1, !p.hasNextPage)
  }

  /**
   * When the server's page is at least 1 and it offers a previous page only
   * above page 1, the page an enabled button requests is one the URL keeps:
   * the filter state it leads to reads back from its own query unchanged.
   */
  lemma EnabledTargetsSurviveUrl(p: Pagination, f: FilterState)
    requires InRoundTripDomain(f) && p.page >= 1
    requires p.hasPreviousPage ==> p.page > 1
    ensures WellFormed(Serialise(f.(page := Pager(p).nextPage)))
    ensures WellFormed(Serialise(f.(page := Pager(p).previousPage)))
    ensures !Pager(p).nextDisabled ==>
              Parse(Serialise(f.(page := Pager(p).nextPage))) == f.(page := Pager(p).nextPage)
    ensures !Pager(p).previousDisabled ==>
              Parse(Serialise(f.(page := Pager(p).previousPage))) == f.(page := Pager(p).previousPage)
  {
    var v := Pager(p);
    var next := f.(page := v.nextPage);
    var previous := f.(page := v.previousPage);
    assert InRoundTripDomain(next);
    RoundTrip(next);
    RoundTrip(previous);
  }
}
