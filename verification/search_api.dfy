/** The search façade `searchApi.search` (src/api/search.ts): it posts the
    query with its paging defaults to the search endpoint, returns whatever
    the wrapper returns unchanged, and re-throws every failure with a
    "Search API failed: " prefix. */
module SearchApi {
  import opened Wrappers
  import opened Json
  import ApiClient

  const SearchEndpoint: string := "/api/users/search"
  const DefaultPage: int := 1
  const DefaultPageSize: int := 15
  const FailurePrefix: string := "Search API failed: "
  const UnknownError: string := "Unknown error"

  /** A JavaScript default parameter: it applies when the argument is `undefined`. */
  function Default(arg: Option<int>, fallback: int): int {
    match arg
    case Some(v) => v
    case None => fallback
  }

  /** The options `search` hands to `request`: a POST whose JSON body holds
      the query, the page (1 by default) and the page size (15 by default). */
  function SearchOptions(query: string, page: Option<int>, pageSize: Option<int>): (o: ApiClient.RequestOptions)
    ensures o.verb == Some("POST") && o.headers == [] && o.body.JsonText?
    ensures Get(o.body.value, "query") == Str(query)
    ensures page.None? ==> Get(o.body.value, "page") == Num(DefaultPage)
    ensures page.Some? ==> Get(o.body.value, "page") == Num(page.value)
    ensures pageSize.None? ==> Get(o.body.value, "pageSize") == Num(DefaultPageSize)
    ensures pageSize.Some? ==> Get(o.body.value, "pageSize") == Num(pageSize.value)
    ensures OwnEntries(o.body.value)[0].0 == "query" && |OwnEntries(o.body.value)| == 3
  {
    var body := Obj([("query", Str(query)),
                     ("page", Num(Default(page, DefaultPage))),
                     ("pageSize", Num(Default(pageSize, DefaultPageSize)))]);
    LookupAt(body.fields, 0);
    LookupAt(body.fields, 1);
    LookupAt(body.fields, 2);
    ApiClient.RequestOptions(Some("POST"), ApiClient.JsonText(body), [])
  }

  /** What `fetch` is called with by a search: a POST of the JSON body to the
      search endpoint under the base URL, with the JSON content type. */
  function SearchRequest(env: Option<string>, query: string, page: Option<int>, pageSize: Option<int>): (p: ApiClient.Prepared)
    ensures p.url == ApiClient.BaseUrl(env) + SearchEndpoint
    ensures p.verb == Some("POST")
    ensures p.body == ApiClient.JsonText(SearchOptions(query, page, pageSize).body.value)
    ensures Lookup(p.headers, ApiClient.ContentType) == Some(ApiClient.JsonMediaType)
  {
    var options := SearchOptions(query, page, pageSize);
    ApiClient.Prepare(env, SearchEndpoint, options)
  }

  /** The message of the re-thrown error: `error?.message || 'Unknown error'`
      after the prefix. */
  function Rewrap(message: string): (r: string)
    ensures |r| > |FailurePrefix| && r[..|FailurePrefix|] == FailurePrefix
    ensures message != "" ==> r[|FailurePrefix|..] == message
    ensures message == "" ==> r[|FailurePrefix|..] == UnknownError
  {
    FailurePrefix + (if message != "" then message else UnknownError)
  }

  /** `searchApi.search(query, page, pageSize)` once `fetch` has settled to
      `fetched`: the wrapper's value unchanged (an envelope object or a bare
      array alike), or its error re-thrown under the prefix. */
  function Search(env: Option<string>, query: string, page: Option<int>, pageSize: Option<int>,
                  fetched: ApiClient.Fetched, parse: string -> Option<Json>): (r: Result<Json, string>)
    ensures var settled := ApiClient.Settle(fetched, parse);
            && (r.Success? <==> settled.Success?)
            && (r.Success? ==> r.value == settled.value)
            && (r.Failure? ==> r.error == Rewrap(settled.error.message))
    // the call sent is the search request
    ensures ApiClient.Request(env, SearchEndpoint, SearchOptions(query, page, pageSize), fetched, parse).sent
            == SearchRequest(env, query, page, pageSize)
    // a failure that came from an HTTP response always carries its own text,
    // never the 'Unknown error' fallback
    ensures fetched.Responded? && r.Failure? ==>
              r.error[|FailurePrefix|..] == ApiClient.Settle(fetched, parse).error.message
  {
    var outcome := ApiClient.Request(env, SearchEndpoint, SearchOptions(query, page, pageSize), fetched, parse);
    match outcome.result
    case Success(v) => Success(v)
    case Failure(e) => Failure(Rewrap(e.message))
  }

  /** A successful search hands back exactly the parsed body. */
  lemma SearchReturnsParsedBody(env: Option<string>, query: string, response: ApiClient.HttpResponse,
                                parse: string -> Option<Json>)
    requires response.ok && parse(response.body).Some?
    ensures Search(env, query, None, None, ApiClient.Responded(response), parse)
            == Success(parse(response.body).value)
  {
  }
}
