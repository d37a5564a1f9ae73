/** The fetch wrapper `request` (src/api/apiClient.ts): it builds the URL and
    headers, logs the request and the response status (except for the
    polled per-job applications endpoint), and turns the response into either
    the parsed JSON value or a thrown error whose message starts with the
    HTTP status. `fetch` is replaced by its settled result, an input, and
    `JSON.parse` by a function parameter that yields `None` where it would
    throw. `JSON.parse` never yields `undefined`, so a `parse` that returns
    `Some(Undefined)` stands for no real parser; the contracts below still
    cover it, reading such a body as a value without fields. */
module ApiClient {
  import opened Wrappers
  import opened Strings
  import opened Json

  const DefaultBaseUrl: string := "http://localhost:3000"
  const ContentType: string := "Content-Type"
  const JsonMediaType: string := "application/json"
  /** Requests whose URL contains this path have their logging suppressed. */
  const ApplicationsJobPath: string := "/api/applications/job/"
  const GenericErrorText: string := "An error occurred"
  const InvalidJsonMessage: string := "Invalid JSON response from server"
  /** The `TypeError` a property read on `null` throws (as V8 words it). */
  const NullReadMessage: string := "Cannot read properties of null (reading 'message')"
  const ServerErrorStatus: nat := 500

  /** The request body a caller passes: none, a JSON text (the
      `JSON.stringify` of a value), or a `FormData` upload. */
  datatype Body = NoBody | JsonText(value: Json) | FormData

  /** The `RequestInit` a caller passes: method, body and a headers object. */
  datatype RequestOptions = RequestOptions(verb: Option<string>, body: Body, headers: Fields<string>)

  /** What `fetch` is called with. */
  datatype Prepared = Prepared(url: string, verb: Option<string>, body: Body, headers: Fields<string>)

  /** The part of a `Response` the wrapper reads; `body` is its text. */
  datatype HttpResponse = HttpResponse(status: nat, ok: bool, statusText: string, body: string)

  /** A thrown `Error`: its message, and the `status` property the wrapper
      sets on errors built from a non-ok response. */
  datatype ApiError = ApiError(message: string, status: Option<nat>)

  /** The settled `fetch` call: a response, or a rejection with an error. */
  datatype Fetched = Responded(response: HttpResponse) | Rejected(error: ApiError)

  /** The console output of one call. */
  datatype LogEntry =
    | RequestLog(url: string, verb: string)
    | StatusLog(status: nat, statusText: string)
    | ServerErrorWarning(text: string)
    | ErrorResponseLog(text: string)
    | BodyLog(text: string)
    | ParseFailureLog

  /** One call of `request`: what was sent, what was logged, and what the
      returned promise settles to. */
  datatype Outcome = Outcome(sent: Prepared, logs: seq<LogEntry>, result: Result<Json, ApiError>)

  /** `import.meta.env.VITE_API_BASE_URL || 'http://localhost:3000'`. */
  function BaseUrl(env: Option<string>): string {
    match env
    case Some(url) => if url != "" then url else DefaultBaseUrl
    case None => DefaultBaseUrl
  }

  /** The headers sent: a JSON content type that the caller's headers may
      override, with the content type removed altogether for a `FormData`
      body so that the browser can supply the multipart boundary. */
  function RequestHeaders(options: RequestOptions): (h: Fields<string>)
    requires DistinctKeys(options.headers)
    ensures options.body.FormData? ==> !HasKey(h, ContentType)
    ensures !options.body.FormData? && !HasKey(options.headers, ContentType) ==>
              Lookup(h, ContentType) == Some(JsonMediaType)
    ensures !options.body.FormData? && HasKey(options.headers, ContentType) ==>
              Lookup(h, ContentType) == Lookup(options.headers, ContentType)
    ensures forall k :: k != ContentType ==> Lookup(h, k) == Lookup(options.headers, k)
  {
    var defaults := [(ContentType, JsonMediaType)];
    var merged := Spread(defaults, options.headers);
    forall k ensures Lookup(merged, k) == if HasKey(options.headers, k) then Lookup(options.headers, k) else Lookup(defaults, k) {
      SpreadLookup(defaults, options.headers, k);
    }
    if options.body.FormData? then Remove(merged, ContentType) else merged
  }

  /** The `fetch` arguments: the base URL followed by the endpoint, the
      caller's method and body, and the merged headers. */
  function Prepare(env: Option<string>, endpoint: string, options: RequestOptions): (p: Prepared)
    requires DistinctKeys(options.headers)
    ensures |p.url| == |BaseUrl(env)| + |endpoint|
    ensures p.url[..|BaseUrl(env)|] == BaseUrl(env) && p.url[|BaseUrl(env)|..] == endpoint
    ensures env.None? || env == Some("") ==> p.url == DefaultBaseUrl + endpoint
    ensures p.verb == options.verb && p.body == options.body
    ensures p.headers == RequestHeaders(options)
  {
    Prepared(BaseUrl(env) + endpoint, options.verb, options.body, RequestHeaders(options))
  }

  /** The logging of a request to this URL is suppressed. */
  predicate IsQuietUrl(url: string) {
    Contains(url, ApplicationsJobPath)
  }

  /** The text after the status in the message of an error built from a
      non-ok response: `errorData.message || errorData.error || statusText`,
      where `errorData` is the parsed body, or `{ message: text || 'An error
      occurred' }` when the body does not parse. `None` when the body is the
      JSON text `null`: reading `message` of it throws. */
  function ErrorDetail(parsed: Option<Json>, text: string, statusText: string): (m: Option<Json>)
    ensures m.None? <==> parsed == Some(Null)
    ensures parsed.None? && text != "" ==> m == Some(Str(text))
    ensures parsed.None? && text == "" ==> m == Some(Str(GenericErrorText))
    ensures parsed.Some? && parsed != Some(Null) ==>
              m == Some(FirstTruthy([Get(parsed.value, "message"), Get(parsed.value, "error"), Str(statusText)]))
  {
    match parsed
    case Some(Null) => None
    case Some(data) =>
      OrTripleIsFirstTruthy(Get(data, "message"), Get(data, "error"), Str(statusText));
      Some(Or(Or(Get(data, "message"), Get(data, "error")), Str(statusText)))
    case None =>
      var errorData := Obj([("message", Or(Str(text), Str(GenericErrorText)))]);
      Some(Or(Or(Get(errorData, "message"), Get(errorData, "error")), Str(statusText)))
  }

  /** The message of the error thrown for a non-ok response. */
  function StatusMessage(status: nat, detail: Json): string {
    NatToString(status) + ": " + ToJsString(detail)
  }

  /** `options.verb || 'GET'`, as logged. */
  function MethodName(verb: Option<string>): string {
    match verb
    case Some(m) => if m != "" then m else "GET"
    case None => "GET"
  }

  predicate HasRequestLog(logs: seq<LogEntry>) {
    exists e :: e in logs && e.RequestLog?
  }

  predicate HasStatusLog(logs: seq<LogEntry>) {
    exists e :: e in logs && e.StatusLog?
  }

  /** What the promise returned by `request` settles to, once `fetch` has
      settled to `fetched`. */
  function Settle(fetched: Fetched, parse: string -> Option<Json>): (r: Result<Json, ApiError>)
    // a rejected fetch propagates unchanged
    ensures fetched.Rejected? ==> r == Failure(fetched.error)
    // a non-ok response always throws: "<status>: <detail>" carrying the status ...
    ensures fetched.Responded? && !fetched.response.ok && parse(fetched.response.body) != Some(Null) ==>
              r.Failure? && r.error.status == Some(fetched.response.status)
              && r.error.message ==
                 StatusMessage(fetched.response.status,
                               ErrorDetail(parse(fetched.response.body), fetched.response.body,
                                           fetched.response.statusText).value)
    // ... or, for a `null` body, the TypeError of reading its message
    ensures fetched.Responded? && !fetched.response.ok && parse(fetched.response.body) == Some(Null) ==>
              r == Failure(ApiError(NullReadMessage, None))
    // an ok response yields the parsed body, or throws when it does not parse
    ensures fetched.Responded? && fetched.response.ok && parse(fetched.response.body).Some? ==>
              r == Success(parse(fetched.response.body).value)
    ensures fetched.Responded? && fetched.response.ok && parse(fetched.response.body).None? ==>
              r == Failure(ApiError(InvalidJsonMessage, None))
  {
    match fetched
    case Rejected(e) => Failure(e)
    case Responded(resp) =>
      if !resp.ok then
        match ErrorDetail(parse(resp.body), resp.body, resp.statusText)
        case Some(detail) => Failure(ApiError(StatusMessage(resp.status, detail), Some(resp.status)))
        case None => Failure(ApiError(NullReadMessage, None))
      else
        match parse(resp.body)
        case Some(v) => Success(v)
        case None => Failure(ApiError(InvalidJsonMessage, None))
  }

  /** The console output of a call to `url`. */
  function CallLogs(url: string, verb: Option<string>, fetched: Fetched, parse: string -> Option<Json>): (logs: seq<LogEntry>)
    // the request log is suppressed exactly for the quiet endpoint
    ensures HasRequestLog(logs) <==> !IsQuietUrl(url)
    // the status log, except for a 500 from the quiet endpoint
    ensures HasStatusLog(logs) <==>
              fetched.Responded? && !(IsQuietUrl(url) && fetched.response.status == ServerErrorStatus)
    // a 500 from the quiet endpoint is thrown without any output at all
    ensures (fetched.Responded? && !fetched.response.ok && fetched.response.status == ServerErrorStatus
             && IsQuietUrl(url)) ==> logs == []
  {
    var quiet := IsQuietUrl(url);
    var requestLog := if quiet then [] else [RequestLog(url, MethodName(verb))];
    assert !quiet ==> RequestLog(url, MethodName(verb)) in requestLog;
    match fetched
    case Rejected(_) => requestLog
    case Responded(resp) =>
      var statusLog := if quiet && resp.status == ServerErrorStatus then [] else [StatusLog(resp.status, resp.statusText)];
      assert !(quiet && resp.status == ServerErrorStatus) ==> StatusLog(resp.status, resp.statusText) in statusLog;
      var tail :=
        if !resp.ok then
          if parse(resp.body) == Some(Null) || (resp.status == ServerErrorStatus && quiet) then []
          else if resp.status == ServerErrorStatus then [ServerErrorWarning(resp.body)]
          else [ErrorResponseLog(resp.body)]
        else if parse(resp.body).Some? then [BodyLog(resp.body)]
        else [BodyLog(resp.body), ParseFailureLog];
      assert forall e :: e in tail ==> !e.RequestLog? && !e.StatusLog?;
      assert forall e :: e in statusLog ==> !e.RequestLog?;
      assert forall e :: e in requestLog ==> !e.StatusLog?;
      var logs := requestLog + statusLog + tail;
      assert forall e :: e in logs <==> e in requestLog || e in statusLog || e in tail;
      logs
  }

  /** `request(endpoint, options)` once `fetch` has settled to `fetched`. */
  function Request(env: Option<string>, endpoint: string, options: RequestOptions,
                   fetched: Fetched, parse: string -> Option<Json>): (o: Outcome)
    requires DistinctKeys(options.headers)
    ensures o.sent == Prepare(env, endpoint, options)
    ensures HasRequestLog(o.logs) <==> !IsQuietUrl(o.sent.url)
    ensures HasStatusLog(o.logs) <==>
              fetched.Responded? && !(IsQuietUrl(o.sent.url) && fetched.response.status == ServerErrorStatus)
    ensures o.result == Settle(fetched, parse)
    // the console output is exactly that of the call's logging
    ensures o.logs == CallLogs(o.sent.url, options.verb, fetched, parse)
    // a 500 from the quiet endpoint is thrown without any output at all
    ensures (fetched.Responded? && !fetched.response.ok && fetched.response.status == ServerErrorStatus
             && IsQuietUrl(o.sent.url)) ==> o.logs == [] && o.result.Failure?
  {
    var sent := Prepare(env, endpoint, options);
    Outcome(sent, CallLogs(sent.url, options.verb, fetched, parse), Settle(fetched, parse))
  }

  /** Suppression never changes what is thrown or returned: two calls that
      differ only in endpoint (so possibly in whether they are quiet) settle
      alike. */
  lemma SuppressionKeepsResult(env: Option<string>, quietEndpoint: string, loudEndpoint: string,
                               options: RequestOptions, fetched: Fetched, parse: string -> Option<Json>)
    requires DistinctKeys(options.headers)
    requires IsQuietUrl(BaseUrl(env) + quietEndpoint) && !IsQuietUrl(BaseUrl(env) + loudEndpoint)
    ensures Request(env, quietEndpoint, options, fetched, parse).result
         == Request(env, loudEndpoint, options, fetched, parse).result
  {
  }

  /** Every endpoint under the per-job applications path is quiet, whatever
      the base URL. */
  lemma ApplicationsJobEndpointIsQuiet(env: Option<string>, jobId: string)
    ensures IsQuietUrl(Prepare(env, ApplicationsJobPath + jobId, RequestOptions(None, NoBody, [])).url)
  {
    var p := Prepare(env, ApplicationsJobPath + jobId, RequestOptions(None, NoBody, []));
    assert p.url == BaseUrl(env) + ApplicationsJobPath + jobId;
    ContainsInfix(BaseUrl(env), ApplicationsJobPath, jobId);
  }

  /** The status of a failed response can be read back from the front of the
      error's message, as the dashboard's users see it. */
  lemma {:induction false} StatusLeadsMessage(env: Option<string>, endpoint: string, options: RequestOptions,
                                              response: HttpResponse, parse: string -> Option<Json>)
    requires DistinctKeys(options.headers)
    requires !response.ok && parse(response.body) != Some(Null)
    ensures var e := Request(env, endpoint, options, Responded(response), parse).result.error;
            LeadingDigits(e.message) == NatToString(response.status)
            && DigitsValue(LeadingDigits(e.message)) == response.status
  {
    var detail := ErrorDetail(parse(response.body), response.body, response.statusText).value;
    var rest := ": " + ToJsString(detail);
    assert StatusMessage(response.status, detail) == NatToString(response.status) + rest;
    NumberPrefix(response.status, rest);
  }
}
