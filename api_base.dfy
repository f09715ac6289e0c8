/** The base of every endpoint class: it holds the API client, checks an
    endpoint's required parameters, and forwards the call to the client. */
module ApiBases {
  import opened Wrappers
  import opened OrderedMaps
  import opened PhpValues
  import opened ApiExceptions
  import opened Configurations
  import opened ApiClients

  /** The message of the InvalidArgumentException for a missing name. */
  function MissingMessage(name: string): string
  {
    "Missing required parameter `" + name + "`."
  }

  /** The index of the first required name whose value, as read by get, is
      empty in PHP's sense; |required| when there is none. */
  function FirstEmpty(required: seq<string>, get: string -> Value): (i: nat)
    ensures i <= |required|
    ensures forall j :: 0 <= j < i ==> Truthy(get(required[j]))
    ensures i < |required| ==> !Truthy(get(required[i]))
  {
    if required == [] then 0
    else if !Truthy(get(required[0])) then 0
    else 1 + FirstEmpty(required[1..], get)
  }

  /** The loop of check_required_params with the value of each name read by
      get: it throws for the first empty one, or returns true. */
  function CheckWith(required: seq<string>, get: string -> Value): (r: Result<bool, Exception>)
  {
    var i := FirstEmpty(required, get);
    if i < |required| then Failure(InvalidArgument(MissingMessage(required[i]))) else Success(true)
  }

  /** Every required name is set in params to a non-empty value. */
  predicate AllSupplied(required: seq<string>, params: Dict)
  {
    forall j :: 0 <= j < |required| ==> Truthy(Lookup(params, required[j]))
  }

  /** check_required_params as documented: the names are examined in order
      and the first one missing or empty in params is reported; when every
      name is set and non-empty the result is true. */
  function RequiredCheck(required: seq<string>, params: Dict): (r: Result<bool, Exception>)
    ensures r.Success? <==> AllSupplied(required, params)
    ensures r.Success? ==> r.value
    ensures r.Failure? ==> exists i ::
      && 0 <= i < |required|
      && r.error == InvalidArgument(MissingMessage(required[i]))
      && !Truthy(Lookup(params, required[i]))
      && forall j :: 0 <= j < i ==> Truthy(Lookup(params, required[j]))
  {
    CheckWith(required, k => Lookup(params, k))
  }

  /** The first empty name depends only on the values read for the
      required names. */
  lemma {:induction false} FirstEmptyAgrees(required: seq<string>, f: string -> Value, g: string -> Value)
    requires forall j :: 0 <= j < |required| ==> f(required[j]) == g(required[j])
    ensures FirstEmpty(required, f) == FirstEmpty(required, g)
  {
    if required != [] {
      assert forall j :: 0 <= j < |required[1..]| ==> required[1..][j] == required[j + 1];
      FirstEmptyAgrees(required[1..], f, g);
    }
  }

  /** The check gives the same outcome on two arrays that agree on the
      required names. */
  lemma RequiredCheckAgrees(required: seq<string>, p: Dict, q: Dict)
    requires forall j :: 0 <= j < |required| ==> Lookup(p, required[j]) == Lookup(q, required[j])
    ensures RequiredCheck(required, p) == RequiredCheck(required, q)
  {
    FirstEmptyAgrees(required, k => Lookup(p, k), k => Lookup(q, k));
  }

  /** The variables in scope inside check_required_params: the two
      parameters and the loop variable; any other name is undefined and reads
      as null. */
  function LocalVariable(required: seq<string>, params: Dict, param: string, name: string): Value
  {
    if name == "required_params" then VList(seq(|required|, i requires 0 <= i < |required| => VStr(required[i])))
    else if name == "params" then VMap(params)
    else if name == "param" then VStr(param)
    else VNull
  }

  /** $v[$k] on a value that may not be an array: null unless v is an array
      holding k. */
  function Element(v: Value, k: string): Value
  {
    match v
    case VMap(es) => (match Find(es, k) case Some(x) => x case None => VNull)
    case _ => VNull
  }

  /** check_required_params as written: each value is read as $$params[$param],
      the element of the variable whose name is the string conversion of the
      params array. */
  function RequiredCheckAsWritten(required: seq<string>, params: Dict): (r: Result<bool, Exception>)
    ensures r.Success? ==> r.value
  {
    CheckWith(required, k => Element(LocalVariable(required, params, k, StrOf(VMap(params))), k))
  }

  /** As written, the supplied values are never consulted: an array converts
      to the string "Array", no variable has that name, and every required
      name reads as null, so the first one is always reported. */
  lemma AsWrittenIgnoresParams(required: seq<string>, params: Dict)
    ensures required == [] ==> RequiredCheckAsWritten(required, params) == Success(true)
    ensures required != [] ==>
      RequiredCheckAsWritten(required, params) == Failure(InvalidArgument(MissingMessage(required[0])))
  {
    var get := k => Element(LocalVariable(required, params, k, StrOf(VMap(params))), k);
    if required != [] {
      assert get(required[0]) == VNull;
    }
  }

  /** The discrepancy on every request that supplies its one required name
      with a non-empty value: the documented check passes it and the check
      as written rejects it. */
  lemma AsWrittenRejectsSupplied(name: string, params: Dict)
    requires Truthy(Lookup(params, name))
    ensures RequiredCheck([name], params) == Success(true)
    ensures RequiredCheckAsWritten([name], params) == Failure(InvalidArgument(MissingMessage(name)))
  {
    assert AllSupplied([name], params);
    AsWrittenIgnoresParams([name], params);
  }

  /** The same on one input: a request for content 42. */
  lemma AsWrittenRejectsSuppliedName()
    ensures RequiredCheck(["contentid"], [("contentid", VStr("42"))]) == Success(true)
    ensures RequiredCheckAsWritten(["contentid"], [("contentid", VStr("42"))])
         == Failure(InvalidArgument(MissingMessage("contentid")))
  {
    var params: Dict := [("contentid", VStr("42"))];
    assert Lookup(params, "contentid") == VStr("42");
    AsWrittenRejectsSupplied("contentid", params);
  }

  /** The arguments an endpoint passes to callApi; header parameters are
      always empty. */
  datatype ApiCall = ApiCall(path: string, verb: string, queryParams: Dict, postData: Dict)

  /** An endpoint call: the required names are checked against params and
      any exception propagates unchanged; otherwise the client makes the
      call. */
  function EndpointOutcome(config: Configuration, required: seq<string>, params: Dict, call: ApiCall,
                           codecs: Codecs, send: Request -> RawResponse): Result<ApiResponse, Exception>
    reads config
  {
    match RequiredCheck(required, params)
    case Failure(e) => Failure(e)
    case Success(_) =>
      CallOutcome(config.username, config.password, config.defaultHeaders, config.host,
                  call.path, call.verb, call.queryParams, call.postData, [], codecs, send)
  }

  /** A GET exchange: one request to the host, the path and the prepared
      query, with the sent headers and no body, and the classification of
      the answer. */
  function GetExchange(config: Configuration, path: string, queryParams: Dict,
                       codecs: Codecs, send: Request -> RawResponse): Result<ApiResponse, Exception>
    reads config
  {
    var lines := HeaderLines(SentHeaderMap(config.defaultHeaders, [], config.username, config.password, codecs));
    var url := RequestUrl(config.host, path, PreparedQuery(queryParams), codecs);
    Classify(send(Request("GET", url, lines, None)), url, codecs)
  }

  /** A POST exchange without query: one request to the host and the path,
      with the sent headers and the JSON text of the truthy data entries as
      the body, and the classification of the answer. */
  function PostExchange(config: Configuration, path: string, postData: Dict,
                        codecs: Codecs, send: Request -> RawResponse): Result<ApiResponse, Exception>
    reads config
  {
    var lines := HeaderLines(SentHeaderMap(config.defaultHeaders, [], config.username, config.password, codecs));
    var url := StrOf(config.host) + path;
    Classify(send(Request("POST", url, lines, Some(VStr(codecs.jsonEncode(VMap(FilterTruthy(postData))))))), url, codecs)
  }

  /** An endpoint call fails with the check's exception when a required name
      is empty, and otherwise is exactly one exchange with the transport. */
  lemma EndpointSends(config: Configuration, required: seq<string>, params: Dict, call: ApiCall,
                      codecs: Codecs, send: Request -> RawResponse)
    ensures !AllSupplied(required, params) ==>
      EndpointOutcome(config, required, params, call, codecs, send) == Failure(RequiredCheck(required, params).error)
    ensures AllSupplied(required, params) && call.verb == "GET" ==>
      EndpointOutcome(config, required, params, call, codecs, send)
        == GetExchange(config, call.path, call.queryParams, codecs, send)
    ensures AllSupplied(required, params) && call.verb == "POST"
            && call.queryParams == [] ==>
      EndpointOutcome(config, required, params, call, codecs, send)
        == PostExchange(config, call.path, call.postData, codecs, send)
  {
    VerbHandling(config.username, config.password, config.defaultHeaders, config.host,
                 call.path, call.verb, call.queryParams, call.postData, [], codecs, send);
    if call.queryParams == [] {
      assert PreparedQuery(call.queryParams) == [] by { PreparedQueryEmpty(call.queryParams); }
    }
  }

  /** A GET endpoint that requires one name: it fails with that name when
      its value is missing or empty, and otherwise is one GET exchange. */
  lemma GetEndpointRequiring(config: Configuration, name: string, params: Dict, path: string,
                             codecs: Codecs, send: Request -> RawResponse)
    ensures !Truthy(Lookup(params, name)) ==>
      EndpointOutcome(config, [name], params, ApiCall(path, "GET", params, []), codecs, send)
        == Failure(InvalidArgument(MissingMessage(name)))
    ensures Truthy(Lookup(params, name)) ==>
      EndpointOutcome(config, [name], params, ApiCall(path, "GET", params, []), codecs, send)
        == GetExchange(config, path, params, codecs, send)
  {
    EndpointSends(config, [name], params, ApiCall(path, "GET", params, []), codecs, send);
  }

  /** A GET endpoint without required names is always one GET exchange. */
  lemma GetEndpointUnchecked(config: Configuration, params: Dict, path: string,
                             codecs: Codecs, send: Request -> RawResponse)
    ensures EndpointOutcome(config, [], params, ApiCall(path, "GET", params, []), codecs, send)
         == GetExchange(config, path, params, codecs, send)
  {
    EndpointSends(config, [], params, ApiCall(path, "GET", params, []), codecs, send);
  }

  /** The check reports the first empty name. */
  lemma FirstMissing(required: seq<string>, params: Dict, i: nat)
    requires i < |required| && !Truthy(Lookup(params, required[i]))
    requires forall j :: 0 <= j < i ==> Truthy(Lookup(params, required[j]))
    ensures RequiredCheck(required, params) == Failure(InvalidArgument(MissingMessage(required[i])))
  {
    var r := RequiredCheck(required, params);
    var i' :| 0 <= i' < |required| && r.error == InvalidArgument(MissingMessage(required[i']))
      && !Truthy(Lookup(params, required[i'])) && forall j :: 0 <= j < i' ==> Truthy(Lookup(params, required[j]));
    assert i' == i;
  }

  /** check_required_params as documented, as a loop over the names. */
  method CheckRequiredParams(required: seq<string>, params: Dict) returns (r: Result<bool, Exception>)
    ensures r == RequiredCheck(required, params)
  {
    var i := 0;
    while i < |required|
      invariant 0 <= i <= |required|
      invariant forall j :: 0 <= j < i ==> Truthy(Lookup(params, required[j]))
    {
      if !Truthy(Lookup(params, required[i])) {
        FirstMissing(required, params, i);
        return Failure(InvalidArgument(MissingMessage(required[i])));
      }
      i := i + 1;
    }
    return Success(true);
  }

  class ApiBase {
    var apiClient: ApiClient

    /** Keeps the given client, or creates one on the default
        configuration. */
    constructor(apiClient: ApiClient?, registry: ConfigurationRegistry, project: ProjectConfig, tempDir: string)
      modifies registry
      ensures apiClient != null ==> this.apiClient == apiClient && registry.defaultConfiguration == old(registry.defaultConfiguration)
      ensures apiClient == null ==> fresh(this.apiClient) && this.apiClient.config == registry.defaultConfiguration
      ensures apiClient == null && old(registry.defaultConfiguration) != null ==>
        this.apiClient.config == old(registry.defaultConfiguration)
      ensures apiClient == null && old(registry.defaultConfiguration) == null ==>
        fresh(this.apiClient.config) && this.apiClient.config.IsNew(project, tempDir)
    {
      if apiClient == null {
        var c := new ApiClient(null, registry, project, tempDir);
        this.apiClient := c;
      } else {
        this.apiClient := apiClient;
      }
    }

    function GetApiClient(): ApiClient
      reads this
    {
      apiClient
    }

    /** Replaces the client and returns this object. */
    method SetApiClient(apiClient: ApiClient) returns (self: ApiBase)
      modifies this`apiClient
      ensures this.apiClient == apiClient && self == this
    {
      this.apiClient := apiClient;
      self := this;
    }

    /** The body every endpoint method shares: check, then call. */
    method Invoke(required: seq<string>, params: Dict, call: ApiCall, codecs: Codecs, send: Request -> RawResponse)
      returns (r: Result<ApiResponse, Exception>)
      ensures r == EndpointOutcome(apiClient.config, required, params, call, codecs, send)
    {
      var check := CheckRequiredParams(required, params);
      if check.Failure? {
        return Failure(check.error);
      }
      r := apiClient.CallApi(call.path, call.verb, call.queryParams, call.postData, [], codecs, send);
    }
  }
}
