/**
 * The data fetcher (client/src/services/api.ts): the query of a loads
 * request, the request URLs, and how each endpoint turns a response into a
 * value or a failure. The network is a parameter: the reply `fetch` gave.
 */
module Api {
  import opened Wrappers
  import opened Decimal
  import opened SearchParams
  import opened Types

  const ApiBaseUrl := "http://localhost:3001/api"

  /** The order in which `getLoads` appends its parameters. */
  const LoadsKeys: seq<string> := ["page", "limit", "status", "carrier", "search"]

  /** What `fetch` gave: a rejection, or a response with its `ok` flag and its parsed JSON body. */
  datatype Reply<T> = Rejected(reason: Thrown) | Received(ok: bool, body: T)

  /** The query of a loads request: each parameter only when present and truthy, in fixed order. */
  function LoadsQuery(p: LoadsQueryParams): (q: Query)
    ensures |q| <= 5
    ensures q == [] <==> !TruthyNumber(p.page) && !TruthyNumber(p.limit) && !TruthyNumber(p.status)
                         && !TruthyNumber(p.carrier) && !TruthyText(p.search)
  {
    When(TruthyNumber(p.page), "page", IdText(p.page))
    + (When(TruthyNumber(p.limit), "limit", IdText(p.limit))
    + (When(TruthyNumber(p.status), "status", IdText(p.status))
    + (When(TruthyNumber(p.carrier), "carrier", IdText(p.carrier))
    + When(TruthyText(p.search), "search", if p.search.Some? then p.search.value else ""))))
  }

  /** The query of a loads request, built as the source does by successive conditional appends. */
  method BuildLoadsQuery(p: LoadsQueryParams) returns (queryParams: Query)
    ensures queryParams == LoadsQuery(p)
  {
    ghost var a := When(TruthyNumber(p.page), "page", IdText(p.page));
    ghost var b := When(TruthyNumber(p.limit), "limit", IdText(p.limit));
    ghost var c := When(TruthyNumber(p.status), "status", IdText(p.status));
    ghost var d := When(TruthyNumber(p.carrier), "carrier", IdText(p.carrier));
    ghost var e := When(TruthyText(p.search), "search", if p.search.Some? then p.search.value else "");
    queryParams := [];
    if TruthyNumber(p.page) {
      queryParams := Append(queryParams, "page", IntToString(p.page.value));
    }
    assert queryParams == a;
    if TruthyNumber(p.limit) {
      queryParams := Append(queryParams, "limit", IntToString(p.limit.value));
    }
    assert queryParams == a + b;
    if TruthyNumber(p.status) {
      queryParams := Append(queryParams, "status", IntToString(p.status.value));
    }
    assert queryParams == a + b + c;
    if TruthyNumber(p.carrier) {
      queryParams := Append(queryParams, "carrier", IntToString(p.carrier.value));
    }
    assert queryParams == a + b + c + d;
    if TruthyText(p.search) {
      queryParams := Append(queryParams, "search", p.search.value);
    }
    assert queryParams == a + b + c + d + e;
    Regroup5(a, b, c, d, e);
  }

  lemma Regroup5(a: Query, b: Query, c: Query, d: Query, e: Query)
    ensures a + b + c + d + e == a + (b + (c + (d + e)))
  {
  }

  /** Dropping the values `getLoads` would skip: 0 numbers and the empty search. */
  function Truthful(p: LoadsQueryParams): LoadsQueryParams {
    LoadsQueryParams(
      if TruthyNumber(p.page) then p.page else None,
      if TruthyNumber(p.limit) then p.limit else None,
      if TruthyNumber(p.status) then p.status else None,
      if TruthyNumber(p.carrier) then p.carrier else None,
      if TruthyText(p.search) then p.search else None)
  }

  /** Looking up any name in a loads query. */
  lemma LoadsQueryLookup(p: LoadsQueryParams, n: string)
    ensures Get(LoadsQuery(p), n) ==
      if n == "page" && TruthyNumber(p.page) then Some(IdText(p.page))
      else if n == "limit" && TruthyNumber(p.limit) then Some(IdText(p.limit))
      else if n == "status" && TruthyNumber(p.status) then Some(IdText(p.status))
      else if n == "carrier" && TruthyNumber(p.carrier) then Some(IdText(p.carrier))
      else if n == "search" && TruthyText(p.search) then p.search
      else None
  {
    var e := When(TruthyText(p.search), "search", if p.search.Some? then p.search.value else "");
    var d := When(TruthyNumber(p.carrier), "carrier", IdText(p.carrier)) + e;
    var c := When(TruthyNumber(p.status), "status", IdText(p.status)) + d;
    var b := When(TruthyNumber(p.limit), "limit", IdText(p.limit)) + c;
    assert e + [] == e;
    GetWhen(TruthyText(p.search), "search", if p.search.Some? then p.search.value else "", [], n);
    GetWhen(TruthyNumber(p.carrier), "carrier", IdText(p.carrier), e, n);
    GetWhen(TruthyNumber(p.status), "status", IdText(p.status), d, n);
    GetWhen(TruthyNumber(p.limit), "limit", IdText(p.limit), c, n);
    GetWhen(TruthyNumber(p.page), "page", IdText(p.page), b, n);
  }

  /** Parameters come in the order page, limit, status, carrier, search: at most five, no name twice. */
  lemma LoadsQueryOrder(p: LoadsQueryParams)
    ensures Subsequence(Names(LoadsQuery(p)), LoadsKeys)
    ensures Distinct(Names(LoadsQuery(p))) && |LoadsQuery(p)| <= 5
  {
    LoadsQueryNames(p);
    LoadsKeysDistinct();
    SubsequenceOfDistinct(Names(LoadsQuery(p)), LoadsKeys);
  }

  lemma LoadsQueryNames(p: LoadsQueryParams)
    ensures Subsequence(Names(LoadsQuery(p)), LoadsKeys)
  {
    var e := When(TruthyText(p.search), "search", if p.search.Some? then p.search.value else "");
    var d := When(TruthyNumber(p.carrier), "carrier", IdText(p.carrier)) + e;
    var c := When(TruthyNumber(p.status), "status", IdText(p.status)) + d;
    var b := When(TruthyNumber(p.limit), "limit", IdText(p.limit)) + c;
    assert e + [] == e;
    WhenSubsequence(TruthyText(p.search), "search", if p.search.Some? then p.search.value else "", [], []);
    assert ["search"] + [] == ["search"];
    WhenSubsequence(TruthyNumber(p.carrier), "carrier", IdText(p.carrier), e, ["search"]);
    assert ["carrier"] + ["search"] == ["carrier", "search"];
    WhenSubsequence(TruthyNumber(p.status), "status", IdText(p.status), d, ["carrier", "search"]);
    assert ["status"] + ["carrier", "search"] == ["status", "carrier", "search"];
    WhenSubsequence(TruthyNumber(p.limit), "limit", IdText(p.limit), c, ["status", "carrier", "search"]);
    assert ["limit"] + ["status", "carrier", "search"] == ["limit", "status", "carrier", "search"];
    WhenSubsequence(TruthyNumber(p.page), "page", IdText(p.page), b, ["limit", "status", "carrier", "search"]);
    assert LoadsQuery(p) == When(TruthyNumber(p.page), "page", IdText(p.page)) + b;
    assert LoadsKeys == ["page"] + ["limit", "status", "carrier", "search"];
  }

  lemma LoadsKeysDistinct()
    ensures Distinct(LoadsKeys)
  {
  }

  /** A number parameter as a reader of the query sees it; text that is not a decimal literal reads as absent. */
  function ReadNumber(q: Query, name: string): Option<int> {
    match Get(q, name)
    case Some(v) => ParseDecimal(v)
    case None => None
  }

  /** The parameters a loads query carries, read back from it. */
  function DecodeLoadsQuery(q: Query): LoadsQueryParams {
    LoadsQueryParams(
      ReadNumber(q, "page"), ReadNumber(q, "limit"), ReadNumber(q, "status"),
      ReadNumber(q, "carrier"), Get(q, "search"))
  }

  /** Reading a loads query back gives exactly the truthy parameters it was built from. */
  lemma DecodeLoadsQueryInverse(p: LoadsQueryParams)
    ensures DecodeLoadsQuery(LoadsQuery(p)) == Truthful(p)
  {
    LoadsQueryLookup(p, "page");
    LoadsQueryLookup(p, "limit");
    LoadsQueryLookup(p, "status");
    LoadsQueryLookup(p, "carrier");
    LoadsQueryLookup(p, "search");
    IdTextParses(p.page);
    IdTextParses(p.limit);
    IdTextParses(p.status);
    IdTextParses(p.carrier);
  }

  /** Two requests give the same query exactly when they agree on their truthy parameters. */
  lemma LoadsQuerySameIff(p: LoadsQueryParams, p': LoadsQueryParams)
    ensures LoadsQuery(p) == LoadsQuery(p') <==> Truthful(p) == Truthful(p')
  {
    DecodeLoadsQueryInverse(p);
    DecodeLoadsQueryInverse(p');
    if Truthful(p) == Truthful(p') {
      assert LoadsQuery(p) == LoadsQuery(Truthful(p));
      assert LoadsQuery(p') == LoadsQuery(Truthful(p'));
    }
  }

  /** The request URL: base, `/loads?`, then the query, even when the query is empty. */
  function LoadsUrl(q: Query): (url: string)
    ensures |url| >= |ApiBaseUrl + "/loads?"| && url[..|ApiBaseUrl + "/loads?"|] == ApiBaseUrl + "/loads?"
    ensures url == ApiBaseUrl + "/loads?" <==> q == []
  {
    ApiBaseUrl + "/loads?" + Text(q)
  }

  /** A response that is not ok fails with the endpoint's fixed message; a rejection propagates. */
  function Checked<T>(reply: Reply<T>, message: string): (r: Result<T, Thrown>)
    ensures r.Success? <==> reply.Received? && reply.ok
    ensures r.Success? ==> r.value == reply.body
    ensures reply.Rejected? ==> r == Failure(reply.reason)
    ensures reply.Received? && !reply.ok ==> r == Failure(ErrorObject(message))
  {
    match reply
    case Rejected(reason) => Failure(reason)
    case Received(ok, body) => if ok then Success(body) else Failure(ErrorObject(message))
  }

  /** `getLoads`: the URL it fetches, and what the returned promise settles to for the given reply. */
  method GetLoads(params: LoadsQueryParams, reply: Reply<LoadsResponse>)
    returns (url: string, result: Result<LoadsResponse, Thrown>)
    ensures url == ApiBaseUrl + "/loads?" + Text(LoadsQuery(params))
    ensures reply.Rejected? ==> result == Failure(reply.reason)
    ensures reply.Received? && !reply.ok ==> result == Failure(ErrorObject("Failed to fetch loads"))
    ensures reply.Received? && reply.ok ==> result == Success(reply.body)
  {
    var queryParams := BuildLoadsQuery(params);
    url := LoadsUrl(queryParams);
    result := Checked(reply, "Failed to fetch loads");
  }

  const StatusesUrl := ApiBaseUrl + "/statuses"
  const CarriersUrl := ApiBaseUrl + "/carriers"

  /** `getStatuses`: the URL it fetches, and what the returned promise settles to for the given reply. */
  method GetStatuses(reply: Reply<seq<Status>>) returns (url: string, result: Result<seq<Status>, Thrown>)
    ensures url == ApiBaseUrl + "/statuses"
    ensures reply.Rejected? ==> result == Failure(reply.reason)
    ensures reply.Received? && !reply.ok ==> result == Failure(ErrorObject("Failed to fetch statuses"))
    ensures reply.Received? && reply.ok ==> result == Success(reply.body)
  {
    url := StatusesUrl;
    result := Checked(reply, "Failed to fetch statuses");
  }

  /** `getCarriers`: the URL it fetches, and what the returned promise settles to for the given reply. */
  method GetCarriers(reply: Reply<seq<Carrier>>) returns (url: string, result: Result<seq<Carrier>, Thrown>)
    ensures url == ApiBaseUrl + "/carriers"
    ensures reply.Rejected? ==> result == Failure(reply.reason)
    ensures reply.Received? && !reply.ok ==> result == Failure(ErrorObject("Failed to fetch carriers"))
    ensures reply.Received? && reply.ok ==> result == Success(reply.body)
  {
    url := CarriersUrl;
    result := Checked(reply, "Failed to fetch carriers");
  }
}
