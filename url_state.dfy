/**
 * The URL-synchronised filter state (client/src/hooks/useURLState.ts): the
 * page, search text, status id and carrier id live in the address bar's query
 * string. Reading the query gives the state; every change of the state pushes
 * a new history entry whose query omits the values that equal their defaults.
 */
module UrlState {
  import opened Wrappers
  import opened Decimal
  import opened SearchParams
  import opened Types

  datatype FilterState = FilterState(page: int, search: string, status: Option<int>, carrier: Option<int>)

  /** The order in which the URL effect sets its parameters. */
  const UrlKeys: seq<string> := ["page", "search", "status", "carrier"]

  /** A numeric parameter, when present and non-empty, is a decimal literal. */
  predicate NumberParam(q: Query, name: string) {
    TruthyText(Get(q, name)) ==> IsDecimal(Get(q, name).value)
  }

  /** The queries this model reads: page, status and carrier are decimal literals when given. */
  predicate WellFormed(q: Query) {
    NumberParam(q, "page") && NumberParam(q, "status") && NumberParam(q, "carrier")
  }

  /** An id read from the query: absent unless the parameter is present and non-empty. */
  function OptionalNumber(q: Query, name: string): (r: Option<int>)
    requires NumberParam(q, name)
    ensures r.None? <==> !TruthyText(Get(q, name))
    ensures r.Some? ==> r == ParseDecimal(Get(q, name).value)
  {
    if TruthyText(Get(q, name)) then ParseDecimal(Get(q, name).value) else None
  }

  /** getInitialStateFromURL: the filter state a query string describes. */
  function Parse(q: Query): (s: FilterState)
    requires WellFormed(q)
    ensures !TruthyText(Get(q, "page")) ==> s.page == 1
    ensures TruthyText(Get(q, "page")) ==> Some(s.page) == ParseDecimal(Get(q, "page").value)
    ensures s.search == "" <==> !TruthyText(Get(q, "search"))
    ensures TruthyText(Get(q, "search")) ==> s.search == Get(q, "search").value
    ensures s.status.None? <==> !TruthyText(Get(q, "status"))
    ensures TruthyText(Get(q, "status")) ==> s.status == ParseDecimal(Get(q, "status").value)
    ensures s.carrier.None? <==> !TruthyText(Get(q, "carrier"))
    ensures TruthyText(Get(q, "carrier")) ==> s.carrier == ParseDecimal(Get(q, "carrier").value)
  {
    FilterState(
      if TruthyText(Get(q, "page")) then ParseDecimal(Get(q, "page").value).value else 1,
      if TruthyText(Get(q, "search")) then Get(q, "search").value else "",
      OptionalNumber(q, "status"),
      OptionalNumber(q, "carrier"))
  }

  /**
   * The query the URL effect writes for a state: page only above 1, search
   * only when non-empty, status and carrier only when set and non-zero, in
   * that order (see SerialiseGet, SerialiseOrder and SerialiseWellFormed).
   */
  function Serialise(s: FilterState): (q: Query)
    ensures |q| <= 4
    ensures q == [] <==> s.page <= 1 && s.search == "" && !TruthyNumber(s.status) && !TruthyNumber(s.carrier)
  {
    When(s.page > 1, "page", IntToString(s.page))
    + (When(s.search != "", "search", s.search)
    + (When(TruthyNumber(s.status), "status", IdText(s.status))
    + When(TruthyNumber(s.carrier), "carrier", IdText(s.carrier))))
  }

  /** Looking up any name in the written query: the first of the four parts that emits it. */
  lemma SerialiseLookup(s: FilterState, n: string)
    ensures Get(Serialise(s), n) ==
      if n == "page" && s.page > 1 then Some(IntToString(s.page))
      else if n == "search" && s.search != "" then Some(s.search)
      else if n == "status" && TruthyNumber(s.status) then Some(IdText(s.status))
      else if n == "carrier" && TruthyNumber(s.carrier) then Some(IdText(s.carrier))
      else None
  {
    var d := When(TruthyNumber(s.carrier), "carrier", IdText(s.carrier));
    var c := When(TruthyNumber(s.status), "status", IdText(s.status)) + d;
    var b := When(s.search != "", "search", s.search) + c;
    assert d + [] == d;
    GetWhen(TruthyNumber(s.carrier), "carrier", IdText(s.carrier), [], n);
    GetWhen(TruthyNumber(s.status), "status", IdText(s.status), d, n);
    GetWhen(s.search != "", "search", s.search, c, n);
    GetWhen(s.page > 1, "page", IntToString(s.page), b, n);
  }

  /** Each parameter is present exactly when its value differs from the default, with its text. */
  lemma SerialiseGet(s: FilterState)
    ensures Get(Serialise(s), "page") == if s.page > 1 then Some(IntToString(s.page)) else None
    ensures Get(Serialise(s), "search") == if s.search != "" then Some(s.search) else None
    ensures Get(Serialise(s), "status") == if TruthyNumber(s.status) then Some(IntToString(s.status.value)) else None
    ensures Get(Serialise(s), "carrier") == if TruthyNumber(s.carrier) then Some(IntToString(s.carrier.value)) else None
  {
    SerialiseLookup(s, "page");
    SerialiseLookup(s, "search");
    SerialiseLookup(s, "status");
    SerialiseLookup(s, "carrier");
  }

  /** Parameters come in the order page, search, status, carrier, each at most once. */
  lemma SerialiseOrder(s: FilterState)
    ensures Subsequence(Names(Serialise(s)), UrlKeys)
    ensures Distinct(Names(Serialise(s))) && |Serialise(s)| <= 4
  {
    var d := When(TruthyNumber(s.carrier), "carrier", IdText(s.carrier));
    var c := When(TruthyNumber(s.status), "status", IdText(s.status)) + d;
    var b := When(s.search != "", "search", s.search) + c;
    assert d + [] == d;
    WhenSubsequence(TruthyNumber(s.carrier), "carrier", IdText(s.carrier), [], []);
    WhenSubsequence(TruthyNumber(s.status), "status", IdText(s.status), d, ["carrier"]);
    WhenSubsequence(s.search != "", "search", s.search, c, ["status", "carrier"]);
    WhenSubsequence(s.page > 1, "page", IntToString(s.page), b, ["search", "status", "carrier"]);
    assert UrlKeys == ["page"] + ["search", "status", "carrier"];
    SubsequenceOfDistinct(Names(Serialise(s)), UrlKeys);
  }

  /** Every written query is one this model reads back. */
  lemma SerialiseWellFormed(s: FilterState)
    ensures WellFormed(Serialise(s))
  {
    SerialiseGet(s);
    ParseIntToString(s.page);
    IdTextParses(s.status);
    IdTextParses(s.carrier);
  }

  /** The state a trip through the URL gives back: pages below 2 read as 1, a 0 id as absent. */
  function Normalised(s: FilterState): FilterState {
    FilterState(
      if s.page > 1 then s.page else 1,
      s.search,
      if TruthyNumber(s.status) then s.status else None,
      if TruthyNumber(s.carrier) then s.carrier else None)
  }

  /** The states the URL reproduces exactly: page at least 1, ids absent or non-zero. */
  predicate InRoundTripDomain(s: FilterState) {
    s.page >= 1 && (s.status.None? || s.status.value != 0) && (s.carrier.None? || s.carrier.value != 0)
  }

  /** Reading back a written query gives the normalised state, for every state. */
  lemma ParseSerialise(s: FilterState)
    ensures WellFormed(Serialise(s))
    ensures Parse(Serialise(s)) == Normalised(s)
  {
    SerialiseWellFormed(s);
    SerialiseGet(s);
    ParseIntToString(s.page);
    IdTextParses(s.status);
    IdTextParses(s.carrier);
  }

  /** The round trip through the URL is the identity exactly on the round-trip domain. */
  lemma RoundTrip(s: FilterState)
    ensures WellFormed(Serialise(s))
    ensures Parse(Serialise(s)) == s <==> InRoundTripDomain(s)
  {
    ParseSerialise(s);
  }

  /** Writing the state read from a written query writes the same query again. */
  lemma SerialiseParseSerialise(s: FilterState)
    ensures WellFormed(Serialise(s))
    ensures Serialise(Parse(Serialise(s))) == Serialise(s)
  {
    ParseSerialise(s);
  }

  /**
   * The parameters of the URL effect, built as the source does by successive
   * conditional `set` calls on an empty URLSearchParams.
   */
  method BuildParams(s: FilterState) returns (params: Query)
    ensures params == Serialise(s)
  {
    ghost var a := When(s.page > 1, "page", IntToString(s.page));
    ghost var b := When(s.search != "", "search", s.search);
    ghost var c := When(TruthyNumber(s.status), "status", IdText(s.status));
    ghost var d := When(TruthyNumber(s.carrier), "carrier", IdText(s.carrier));
    params := [];
    if s.page > 1 {
      params := Set(params, "page", IntToString(s.page));
    }
    assert params == a;
    if s.search != "" {
      assert Get(params, "search").None?;
      params := Set(params, "search", s.search);
    }
    assert params == a + b;
    if TruthyNumber(s.status) {
      assert Get(params, "status").None?;
      params := Set(params, "status", IntToString(s.status.value));
    }
    assert params == a + b + c;
    if TruthyNumber(s.carrier) {
      assert Get(params, "carrier").None?;
      params := Set(params, "carrier", IntToString(s.carrier.value));
    }
    assert params == a + b + c + d;
    Regroup(a, b, c, d);
  }

  lemma Regroup(a: Query, b: Query, c: Query, d: Query)
    ensures a + b + c + d == a + (b + (c + d))
  {
  }

  /** The URL pushed: the pathname alone when there are no parameters, else `pathname?query`. */
  function Href(pathname: string, q: Query): (url: string)
    ensures q == [] ==> url == pathname
    ensures q != [] ==> url == pathname + "?" + Text(q) && |url| > |pathname| + 1
  {
    var text := Text(q);
    if text != "" then pathname + "?" + text else pathname
  }

  /**
   * The hook's state: the four filter values, and the browser's session
   * history of the page (the query of each entry and the current entry),
   * which stands for `window.location` and `window.history`.
   */
  class UrlStateHook {
    var page: int
    var search: string
    var status: Option<int>
    var carrier: Option<int>
    const pathname: string
    var entries: seq<Query>
    var current: nat
    /** The dependency values the URL effect last ran with; None before its first run. */
    var synced: Option<FilterState>

    ghost predicate Valid()
      reads this
    {
      current < |entries| && forall k :: 0 <= k < |entries| ==> WellFormed(entries[k])
    }

    function State(): FilterState
      reads this
    {
      FilterState(page, search, status, carrier)
    }

    /** The query of the current entry (`window.location.search`). */
    function Location(): Query
      reads this
      requires Valid()
    {
      entries[current]
    }

    function Url(): string
      reads this
      requires Valid()
    {
      Href(pathname, Location())
    }

    predicate CanGoForward()
      reads this
    {
      current + 1 < |entries|
    }

    /** First render: the four values are read from the address bar. */
    constructor (pathname: string, location: Query)
      requires WellFormed(location)
      ensures Valid()
      ensures State() == Parse(location)
      ensures this.pathname == pathname && entries == [location] && current == 0 && synced == None
    {
      var initial := Parse(location);
      page, search, status, carrier := initial.page, initial.search, initial.status, initial.carrier;
      this.pathname := pathname;
      entries, current, synced := [location], 0, None;
    }

    method SetPage(value: int)
      modifies this
      ensures State() == old(State()).(page := value)
      ensures entries == old(entries) && current == old(current) && synced == old(synced)
    {
      page := value;
    }

    method SetSearch(value: string)
      modifies this
      ensures State() == old(State()).(search := value)
      ensures entries == old(entries) && current == old(current) && synced == old(synced)
    {
      search := value;
    }

    method SetStatus(value: Option<int>)
      modifies this
      ensures State() == old(State()).(status := value)
      ensures entries == old(entries) && current == old(current) && synced == old(synced)
    {
      status := value;
    }

    method SetCarrier(value: Option<int>)
      modifies this
      ensures State() == old(State()).(carrier := value)
      ensures entries == old(entries) && current == old(current) && synced == old(synced)
    {
      carrier := value;
    }

    /** `history.pushState`: the entries after the current one are dropped and the new one follows. */
    method PushState(q: Query)
      requires Valid() && WellFormed(q)
      modifies this
      ensures Valid()
      ensures entries == old(entries[..current + 1]) + [q] && current == old(current) + 1
      ensures State() == old(State()) && synced == old(synced)
    {
      entries := entries[..current + 1] + [q];
      current := current + 1;
    }

    /**
     * The URL effect as written: it runs after a render in which one of the
     * four values changed (and on the first render), and then always pushes
     * a new entry, even when the address bar already shows the state.
     */
    method SyncUrlAsWritten()
      requires Valid()
      modifies this
      ensures Valid() && State() == old(State()) && synced == Some(State())
      ensures old(synced) == Some(old(State())) ==> entries == old(entries) && current == old(current)
      ensures old(synced) != Some(old(State())) ==>
                entries == old(entries[..current + 1]) + [Serialise(State())] && current == old(current) + 1
    {
      if synced != Some(State()) {
        var params := BuildParams(State());
        SerialiseWellFormed(State());
        PushState(params);
        synced := Some(State());
      }
    }

    /**
     * The URL effect, corrected: as above, but no entry is pushed when the
     * current entry already reads back as the state (after a back/forward
     * navigation, and on the first render).
     */
    method SyncUrl()
      requires Valid()
      modifies this
      ensures Valid() && State() == old(State()) && synced == Some(State())
      ensures old(synced) == Some(old(State())) || Parse(old(Location())) == old(State()) ==>
                entries == old(entries) && current == old(current)
      ensures old(synced) != Some(old(State())) && Parse(old(Location())) != old(State()) ==>
                entries == old(entries[..current + 1]) + [Serialise(State())] && current == old(current) + 1
      ensures InRoundTripDomain(State()) && old(synced) != Some(old(State())) ==> Parse(Location()) == State()
    {
      if synced != Some(State()) {
        if Parse(Location()) != State() {
          var params := BuildParams(State());
          SerialiseWellFormed(State());
          PushState(params);
          RoundTrip(State());
        }
        synced := Some(State());
      }
    }

    /**
     * A back/forward navigation to another entry of the page, then the
     * `popstate` handler: all four values are replaced by those the entry's
     * query reads as.
     */
    method Traverse(target: nat)
      requires Valid() && target < |entries| && target != current
      modifies this
      ensures Valid() && current == target && State() == Parse(Location())
      ensures entries == old(entries) && synced == old(synced)
    {
      current := target;
      var next := Parse(entries[current]);
      page, search, status, carrier := next.page, next.search, next.status, next.carrier;
    }
  }

  /**
   * With the effect as written, going back from a pushed page and letting the
   * effect run leaves no forward entry: a run that starts at the bare path,
   * moves to page 2 and goes back.
   */
  method ForwardLostAsWritten() returns (canGoForward: bool)
    ensures !canGoForward
  {
    var hook := new UrlStateHook("/", []);
    hook.SyncUrlAsWritten();
    hook.SetPage(2);
    hook.SyncUrlAsWritten();
    hook.Traverse(hook.current - 1);
    hook.SyncUrlAsWritten();
    canGoForward := hook.CanGoForward();
  }

  /** With the corrected effect the same run keeps the forward entry, and going forward restores page 2. */
  method ForwardKept() returns (canGoForward: bool, page: int)
    ensures canGoForward && page == 2
  {
    var hook := new UrlStateHook("/", []);
    hook.SyncUrl();
    hook.SetPage(2);
    hook.SyncUrl();
    hook.Traverse(hook.current - 1);
    hook.SyncUrl();
    canGoForward := hook.CanGoForward();
    hook.Traverse(hook.current + 1);
    ParseSerialise(FilterState(2, "", None, None));
    page := hook.page;
  }
}
