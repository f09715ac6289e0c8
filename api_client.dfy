/** The API client: how a call is assembled (headers, query, body, URL),
    which verbs are accepted, and how the transport's answer is classified
    into a result or an ApiException. The transport itself (cURL) is the
    parameter send. */
module ApiClients {
  import opened Wrappers
  import opened Strings
  import opened OrderedMaps
  import opened PhpValues
  import opened HttpHeaders
  import opened ApiExceptions
  import opened Configurations

  const ContentType := "Content-Type"
  const JsonMime := "application/json"
  const FormMime := "application/x-www-form-urlencoded"
  const MultipartMime := "multipart/form-data"
  /** The header lines that select a form-encoded or a multipart body. */
  const FormHeaderLine := ContentType + ": " + FormMime
  const MultipartHeaderLine := ContentType + ": " + MultipartMime

  /** What is handed to the transport; body is None for HEAD and GET. */
  datatype Request = Request(verb: string, url: string, headers: seq<string>, body: Option<Value>)

  /** What the transport hands back: the HTTP status (0 when no response
      arrived), the raw header block, the body and the transport's error
      text. */
  datatype RawResponse = RawResponse(status: int, headerText: string, body: string, error: string)

  /** A successful call: the raw body, the status and the parsed headers. */
  datatype ApiResponse = ApiResponse(data: Value, status: int, headers: HeaderMap)

  /** No media types: an empty list, or a single empty entry. */
  predicate NoMediaTypes(types: seq<string>)
  {
    types == [] || (|types| == 1 && !Truthy(VStr(types[0])))
  }

  /** Some entry mentions application/json, in any letter case. */
  predicate AnyJson(types: seq<string>)
  {
    exists i :: 0 <= i < |types| && ContainsCI(types[i], JsonMime)
  }

  /** selectHeaderAccept: nothing for no media types, application/json when
      any entry mentions it, otherwise the entries joined with commas. */
  function SelectHeaderAccept(accept: seq<string>): (r: Option<string>)
    ensures r.None? <==> NoMediaTypes(accept)
    ensures !NoMediaTypes(accept) && AnyJson(accept) ==> r == Some(JsonMime)
    ensures !NoMediaTypes(accept) && !AnyJson(accept) ==> r == Some(Join(accept, ","))
  {
    if NoMediaTypes(accept) then None
    else if AnyJson(accept) then Some(JsonMime)
    else Some(Join(accept, ","))
  }

  /** selectHeaderContentType: as selectHeaderAccept, except that no media
      types gives application/json. */
  function SelectHeaderContentType(contentType: seq<string>): (r: string)
    ensures NoMediaTypes(contentType) ==> r == JsonMime
    ensures !NoMediaTypes(contentType) ==> Some(r) == SelectHeaderAccept(contentType)
  {
    if NoMediaTypes(contentType) then JsonMime
    else if AnyJson(contentType) then JsonMime
    else Join(contentType, ",")
  }

  /** Both selections pick application/json for the list the client passes. */
  lemma JsonSelected()
    ensures SelectHeaderAccept([JsonMime]) == Some(JsonMime)
    ensures SelectHeaderContentType([JsonMime]) == JsonMime
  {
    assert StartsWithCI(JsonMime, JsonMime);
    assert ContainsCI([JsonMime][0], JsonMime);
  }

  /** The Basic credentials of section 2 of RFC 7617, when a username or a
      password is set (non-empty in PHP's sense). */
  function BasicAuthorization(username: Value, password: Value, codecs: Codecs): (r: Option<string>)
    ensures r.Some? <==> Truthy(username) || Truthy(password)
  {
    if Truthy(username) || Truthy(password) then
      Some("Basic " + codecs.base64Encode(StrOf(username) + ":" + StrOf(password)))
    else None
  }

  /** The caller's header parameters with Accept, Content-Type and, when
      credentials are set, Authorization assigned in that order. */
  function RequestHeaderParams(headerParams: Dict, username: Value, password: Value, codecs: Codecs): (r: Dict)
    ensures Find(r, "Accept") == Some(VStr(JsonMime))
    ensures Find(r, "Content-Type") == Some(VStr(JsonMime))
    ensures Find(r, "Authorization") ==
      match BasicAuthorization(username, password, codecs)
      case Some(auth) => Some(VStr(auth))
      case None => Find(headerParams, "Authorization")
    ensures forall k :: k != "Accept" && k != "Content-Type" && k != "Authorization" ==>
      Find(r, k) == Find(headerParams, k)
  {
    JsonSelected();
    var withAccept :=
      match SelectHeaderAccept([JsonMime])
      case Some(a) => Put(headerParams, "Accept", VStr(a))
      case None => headerParams;
    var withType := Put(withAccept, ContentType, VStr(SelectHeaderContentType([JsonMime])));
    match BasicAuthorization(username, password, codecs)
    case Some(auth) => Put(withType, "Authorization", VStr(auth))
    case None => withType
  }

  /** The header map that is sent: the configured default headers overlaid
      by the request's own, which win on a clash. Accept and Content-Type are
      always application/json, Authorization is the Basic credentials when
      any are set, and every other name comes from the caller's parameters
      or else from the defaults. */
  function SentHeaderMap(defaults: Dict, headerParams: Dict, username: Value, password: Value, codecs: Codecs): (r: Dict)
    ensures Find(r, "Accept") == Some(VStr(JsonMime))
    ensures Find(r, "Content-Type") == Some(VStr(JsonMime))
    ensures Truthy(username) || Truthy(password) ==>
      Find(r, "Authorization") == Some(VStr("Basic " + codecs.base64Encode(StrOf(username) + ":" + StrOf(password))))
    ensures !(Truthy(username) || Truthy(password)) ==>
      Find(r, "Authorization") == if "Authorization" in Keys(headerParams) then Find(headerParams, "Authorization") else Find(defaults, "Authorization")
    ensures forall k :: k != "Accept" && k != "Content-Type" && k != "Authorization" ==>
      Find(r, k) == if k in Keys(headerParams) then Find(headerParams, k) else Find(defaults, k)
    ensures |r| >= |defaults| && forall i :: 0 <= i < |defaults| ==> r[i].0 == defaults[i].0
  {
    Merge(defaults, RequestHeaderParams(headerParams, username, password, codecs))
  }

  /** One header as the transport receives it: "Name: value". */
  function HeaderLine(e: (string, Value)): string
  {
    e.0 + ": " + StrOf(e.1)
  }

  function HeaderLines(d: Entries<Value>): (lines: seq<string>)
    ensures |lines| == |d|
  {
    seq(|d|, i requires 0 <= i < |d| => HeaderLine(d[i]))
  }

  lemma HeaderLinesSnoc(d: Entries<Value>, i: nat)
    requires i < |d|
    ensures HeaderLines(d[..i + 1]) == HeaderLines(d[..i]) + [HeaderLine(d[i])]
  {
    assert d[..i + 1] == d[..i] + [d[i]];
  }

  /** Two "name: value" lines whose names and values hold no colon are
      equal only when their names and their values are. */
  lemma SameLine(k: string, v: string, a: string, b: string)
    requires k + ": " + v == a + ": " + b
    requires ':' !in a && ':' !in b
    ensures k == a && v == b
  {
    var t := a + ": " + b;
    assert t[|k|] == ':';
    if |k| < |a| {
      assert false;
    } else if |k| > |a| + 1 {
      assert false;
    }
    assert t[..|k|] == k;
    assert t[..|a|] == a;
    assert t[|k| + 2..] == v;
    assert t[|a| + 2..] == b;
  }

  /** When Content-Type is application/json, no sent header line asks for a
      form-encoded or a multipart body: the only line that could, the one
      named Content-Type, reads "Content-Type: application/json". */
  lemma NoFormHeader(d: Dict)
    requires Find(d, ContentType) == Some(VStr(JsonMime))
    ensures FormHeaderLine !in HeaderLines(d)
    ensures MultipartHeaderLine !in HeaderLines(d)
  {
    var lines := HeaderLines(d);
    forall i | 0 <= i < |lines|
      ensures lines[i] != FormHeaderLine && lines[i] != MultipartHeaderLine
    {
      var k, v := d[i].0, StrOf(d[i].1);
      assert lines[i] == k + ": " + v;
      if lines[i] == FormHeaderLine {
        SameLine(k, v, ContentType, FormMime);
        FindAt(d, i);
      } else if lines[i] == MultipartHeaderLine {
        SameLine(k, v, ContentType, MultipartMime);
        FindAt(d, i);
      }
    }
  }

  /** The request body: form-encoded when a form Content-Type line was sent
      and the data is non-empty, left as it is when a multipart line was
      sent, otherwise the JSON text of its truthy entries. */
  function EncodedBody(postData: Dict, lines: seq<string>, codecs: Codecs): Value
  {
    if Truthy(VMap(postData)) && FormHeaderLine in lines then VStr(codecs.buildQuery(VMap(postData)))
    else if MultipartHeaderLine !in lines then VStr(codecs.jsonEncode(VMap(FilterTruthy(postData))))
    else VMap(postData)
  }

  /** Content-Type is forced to application/json and overrides the defaults,
      so the form and multipart branches are unreachable: the body is always
      the JSON text of the truthy entries. */
  lemma JsonBodyAlways(defaults: Dict, headerParams: Dict, username: Value, password: Value, postData: Dict, codecs: Codecs)
    ensures EncodedBody(postData, HeaderLines(SentHeaderMap(defaults, headerParams, username, password, codecs)), codecs)
      == VStr(codecs.jsonEncode(VMap(FilterTruthy(postData))))
  {
    NoFormHeader(SentHeaderMap(defaults, headerParams, username, password, codecs));
  }

  /** The query that is sent: exactly the entries with truthy values, in
      ascending key order. */
  function PreparedQuery(queryParams: Dict): (r: Dict)
    ensures StrictlySorted(r)
    ensures forall k ::
      Find(r, k) == if Find(queryParams, k).Some? && Truthy(Find(queryParams, k).value) then Find(queryParams, k) else None
  {
    var sorted := KSort(FilterTruthy(queryParams));
    SortedUnique(sorted);
    sorted
  }

  /** The query is empty exactly when every parameter is falsy. */
  lemma PreparedQueryEmpty(queryParams: Dict)
    ensures PreparedQuery(queryParams) == [] <==> forall i :: 0 <= i < |queryParams| ==> !Truthy(queryParams[i].1)
  {
    FilterTruthyEmpty(queryParams);
    var f := FilterTruthy(queryParams);
    assert |KSort(f)| == |multiset(KSort(f))| == |multiset(f)| == |f|;
  }

  /** The URL: host and path, then "?" and the encoded query when the query
      is not empty. */
  function RequestUrl(host: Value, path: string, query: Dict, codecs: Codecs): string
  {
    if query == [] then StrOf(host) + path
    else StrOf(host) + path + "?" + codecs.buildQuery(VMap(query))
  }

  predicate IsKnownVerb(verb: string)
  {
    verb in ["HEAD", "GET", "POST", "PATCH", "PUT", "DELETE", "OPTIONS"]
  }

  /** HEAD and GET send no body; the other verbs send the encoded body. */
  function RequestBody(verb: string, body: Value): Option<Value>
  {
    if verb == "HEAD" || verb == "GET" then None else Some(body)
  }

  function UnknownVerbMessage(verb: string): string
  {
    "curl method " + verb + " is not recognized."
  }

  /** The message when no HTTP response arrived. */
  function NetworkFailureMessage(url: string, error: string): string
  {
    if Truthy(VStr(error)) then "API call to " + url + " failed: " + error
    else "API call to " + url + " failed, but for an unknown reason." + "This could happen if you are disconnected from the network."
  }

  function HttpErrorMessage(status: int, url: string): string
  {
    "[" + IntToDec(status) + "] Error connecting to the API (" + url + ")"
  }

  /** An error body: its JSON decoding, or the raw text when it does not
      decode. */
  function DecodedBody(body: string, codecs: Codecs): Value
  {
    match codecs.jsonDecode(body)
    case Some(v) => v
    case None => VStr(body)
  }

  /** The response classification: a 2xx status returns the raw body, the
      status and the parsed headers; status 0 throws an ApiException with
      code 0, no headers and no body; any other status throws one with that
      status, the parsed headers and the decoded (or raw) body. */
  function Classify(response: RawResponse, url: string, codecs: Codecs): (r: Result<ApiResponse, Exception>)
    ensures r.Success? <==> 200 <= response.status <= 299
    ensures r.Success? ==> r.value == ApiResponse(VStr(response.body), response.status, ParseHeaders(response.headerText))
    ensures response.status == 0 ==>
      r == Failure(ApiError(ApiException(NetworkFailureMessage(url, response.error), 0, None, VNull)))
    ensures r.Failure? && response.status != 0 ==>
      r == Failure(ApiError(ApiException(HttpErrorMessage(response.status, url), response.status,
                                         Some(ParseHeaders(response.headerText)), DecodedBody(response.body, codecs))))
  {
    var headers := ParseHeaders(response.headerText);
    if 200 <= response.status <= 299 then
      Success(ApiResponse(VStr(response.body), response.status, headers))
    else if response.status == 0 then
      Failure(ApiError(NewApiException(NetworkFailureMessage(url, response.error), 0, None, VNull)))
    else
      Failure(ApiError(NewApiException(HttpErrorMessage(response.status, url), response.status,
                                       Some(headers), DecodedBody(response.body, codecs))))
  }

  /** The outcome of callApi for a configuration with the given username,
      password, default headers and host, with send standing for the
      transport. */
  function CallOutcome(username: Value, password: Value, defaults: Dict, host: Value,
                       path: string, verb: string, queryParams: Dict, postData: Dict, headerParams: Dict,
                       codecs: Codecs, send: Request -> RawResponse): Result<ApiResponse, Exception>
  {
    var lines := HeaderLines(SentHeaderMap(defaults, headerParams, username, password, codecs));
    var body := EncodedBody(postData, lines, codecs);
    var url := RequestUrl(host, path, PreparedQuery(queryParams), codecs);
    if !IsKnownVerb(verb) then Failure(ApiError(NewApiException(UnknownVerbMessage(verb))))
    else Classify(send(Request(verb, url, lines, RequestBody(verb, body))), url, codecs)
  }

  /** A verb outside HEAD, GET, POST, PATCH, PUT, DELETE and OPTIONS throws
      an ApiException naming it, whatever the transport would have done;
      HEAD and GET send one request without a body to the URL with the
      query; every other accepted verb sends one request to the same URL
      whose body is the JSON text of the truthy data entries. */
  lemma VerbHandling(username: Value, password: Value, defaults: Dict, host: Value,
                     path: string, verb: string, queryParams: Dict, postData: Dict, headerParams: Dict,
                     codecs: Codecs, send: Request -> RawResponse)
    ensures !IsKnownVerb(verb) ==>
      CallOutcome(username, password, defaults, host, path, verb, queryParams, postData, headerParams, codecs, send)
        == Failure(ApiError(ApiException(UnknownVerbMessage(verb), 0, None, VNull)))
    ensures verb == "HEAD" || verb == "GET" ==>
      var lines := HeaderLines(SentHeaderMap(defaults, headerParams, username, password, codecs));
      var url := RequestUrl(host, path, PreparedQuery(queryParams), codecs);
      CallOutcome(username, password, defaults, host, path, verb, queryParams, postData, headerParams, codecs, send)
        == Classify(send(Request(verb, url, lines, None)), url, codecs)
    ensures IsKnownVerb(verb) && verb != "HEAD" && verb != "GET" ==>
      var lines := HeaderLines(SentHeaderMap(defaults, headerParams, username, password, codecs));
      var url := RequestUrl(host, path, PreparedQuery(queryParams), codecs);
      CallOutcome(username, password, defaults, host, path, verb, queryParams, postData, headerParams, codecs, send)
        == Classify(send(Request(verb, url, lines, Some(VStr(codecs.jsonEncode(VMap(FilterTruthy(postData))))))), url, codecs)
  {
    JsonBodyAlways(defaults, headerParams, username, password, postData, codecs);
  }

  /** The handling of the transport's answer: a 2xx status is the response,
      status 0 a network failure, any other an HTTP error with the decoded
      body. */
  method HandleResponse(response: RawResponse, url: string, codecs: Codecs) returns (r: Result<ApiResponse, Exception>)
    ensures r == Classify(response, url, codecs)
  {
    var parsed := HttpParseHeaders(response.headerText);
    if 200 <= response.status <= 299 {
      r := Success(ApiResponse(VStr(response.body), response.status, parsed));
    } else if response.status == 0 {
      r := Failure(ApiError(NewApiException(NetworkFailureMessage(url, response.error), 0, None, VNull)));
    } else {
      var data := DecodedBody(response.body, codecs);
      r := Failure(ApiError(NewApiException(HttpErrorMessage(response.status, url), response.status, Some(parsed), data)));
    }
  }

  /** The header lines, one "Name: value" per header, built in order. */
  method HeaderLinesOf(merged: Entries<Value>) returns (headers: seq<string>)
    ensures headers == HeaderLines(merged)
  {
    headers := [];
    var i := 0;
    while i < |merged|
      invariant 0 <= i <= |merged|
      invariant headers == HeaderLines(merged[..i])
    {
      HeaderLinesSnoc(merged, i);
      headers := headers + [HeaderLine(merged[i])];
      i := i + 1;
    }
    assert merged[..i] == merged;
  }

  class ApiClient {
    const config: Configuration

    /** The given configuration, or the process-wide default one. */
    constructor(config: Configuration?, registry: ConfigurationRegistry, project: ProjectConfig, tempDir: string)
      modifies registry
      ensures config != null ==> this.config == config && registry.defaultConfiguration == old(registry.defaultConfiguration)
      ensures config == null ==> this.config == registry.defaultConfiguration
      ensures config == null && old(registry.defaultConfiguration) != null ==> this.config == old(registry.defaultConfiguration)
      ensures config == null && old(registry.defaultConfiguration) == null ==> fresh(this.config) && this.config.IsNew(project, tempDir)
    {
      if config == null {
        var c := registry.GetDefaultConfiguration(project, tempDir);
        this.config := c;
      } else {
        this.config := config;
      }
    }

    function GetConfig(): Configuration
    {
      config
    }

    /** getApiKeyWithPrefix: null without a key, "prefix key" when a prefix
        is set, the bare key otherwise. */
    function GetApiKeyWithPrefix(apiKeyIdentifier: string, queryParams: Dict, resourcePath: string, body: Value,
                                 time: nat, codecs: Codecs): (r: Value)
      reads config
      ensures var key := config.GetApiKey(apiKeyIdentifier, queryParams, resourcePath, body, time, codecs);
        && (key == VNull ==> r == VNull)
        && (key != VNull && config.GetApiKeyPrefix(apiKeyIdentifier) != VNull ==>
              r == VStr(StrOf(config.GetApiKeyPrefix(apiKeyIdentifier)) + " " + StrOf(key)))
        && (key != VNull && config.GetApiKeyPrefix(apiKeyIdentifier) == VNull ==> r == key)
    {
      var prefix := config.GetApiKeyPrefix(apiKeyIdentifier);
      var key := config.GetApiKey(apiKeyIdentifier, queryParams, resourcePath, body, time, codecs);
      if key == VNull then VNull
      else if prefix != VNull then VStr(StrOf(prefix) + " " + StrOf(key))
      else key
    }

    /** The first half of callApi: the header lines, the body and the URL,
        built step by step from the configuration and the call's arguments. */
    method PrepareRequest(path: string, queryParams: Dict, postData: Dict, headerParams: Dict, codecs: Codecs)
      returns (headers: seq<string>, body: Value, url: string)
      ensures headers == HeaderLines(SentHeaderMap(config.defaultHeaders, headerParams, config.username, config.password, codecs))
      ensures body == EncodedBody(postData, headers, codecs)
      ensures url == RequestUrl(config.host, path, PreparedQuery(queryParams), codecs)
    {
      var params := AssignHeaderParams(headerParams, codecs);
      var merged := Merge(config.defaultHeaders, params);
      headers := HeaderLinesOf(merged);

      var query: Entries<Value> := FilterTruthy(queryParams);
      if |query| > 0 {
        query := KSort(query);
      }

      if Truthy(VMap(postData)) && FormHeaderLine in headers {
        body := VStr(codecs.buildQuery(VMap(postData)));
      } else if MultipartHeaderLine !in headers {
        body := VStr(codecs.jsonEncode(VMap(FilterTruthy(postData))));
      } else {
        body := VMap(postData);
      }

      url := StrOf(config.host) + path;
      if query != [] {
        url := url + "?" + codecs.buildQuery(VMap(query));
      }
    }

    /** The caller's header parameters with Accept, Content-Type and, when
        credentials are set, Authorization assigned. */
    method AssignHeaderParams(headerParams: Dict, codecs: Codecs) returns (params: Dict)
      ensures params == RequestHeaderParams(headerParams, config.username, config.password, codecs)
    {
      params := headerParams;
      var accept := SelectHeaderAccept([JsonMime]);
      if accept.Some? {
        params := Put(params, "Accept", VStr(accept.value));
      }
      params := Put(params, ContentType, VStr(SelectHeaderContentType([JsonMime])));
      if Truthy(config.username) || Truthy(config.password) {
        params := Put(params, "Authorization",
                      VStr("Basic " + codecs.base64Encode(StrOf(config.username) + ":" + StrOf(config.password))));
      }
    }

    /** callApi with the transport as the parameter send: the request is
        prepared, the verb checked, the request sent and the response
        classified. */
    method CallApi(path: string, verb: string, queryParams: Dict, postData: Dict, headerParams: Dict,
                   codecs: Codecs, send: Request -> RawResponse) returns (r: Result<ApiResponse, Exception>)
      ensures r == CallOutcome(config.username, config.password, config.defaultHeaders, config.host,
                               path, verb, queryParams, postData, headerParams, codecs, send)
    {
      var headers, body, url := PrepareRequest(path, queryParams, postData, headerParams, codecs);
      var sentBody: Option<Value>;
      if verb == "HEAD" || verb == "GET" {
        sentBody := None;
      } else if IsKnownVerb(verb) {
        sentBody := Some(body);
      } else {
        return Failure(ApiError(NewApiException(UnknownVerbMessage(verb))));
      }

      var response := send(Request(verb, url, headers, sentBody));
      r := HandleResponse(response, url, codecs);
    }
  }
}
