/** The Card Eligibility Service API: three POST endpoints that send the
    caller's data as the JSON body, after filling in an empty request
    timestamp. validate and prepay live under the service's cardeligibility
    namespace; redeem lives beside it, under promo. */
module CardEligibilityServiceApi {
  import opened Wrappers
  import opened OrderedMaps
  import opened PhpValues
  import opened ApiExceptions
  import opened Configurations
  import opened ApiClients
  import opened ApiBases

  const Namespace := "/visacardeligibilityservices/v1/cardeligibility/"

  /** The names every endpoint of this API requires. */
  const Required := ["vendorUniqueId", "permanentAccountNumber", "correlationId"]

  const TimestampName := "requestTimeStamp"

  /** The data with an empty or missing request timestamp replaced by now,
      the current time as the caller formats it; a non-empty one is kept and
      every other entry is left alone. */
  function WithTimestamp(postData: Dict, now: Value): (r: Dict)
    ensures Truthy(Lookup(postData, TimestampName)) ==> r == postData
    ensures !Truthy(Lookup(postData, TimestampName)) ==> Find(r, TimestampName) == Some(now)
    ensures forall k :: k != TimestampName ==> Find(r, k) == Find(postData, k)
  {
    if Truthy(Lookup(postData, TimestampName)) then postData else Put(postData, TimestampName, now)
  }

  /** The timestamp default does not change the outcome of the check, since
      the timestamp is not a required name. */
  lemma TimestampDoesNotAffectCheck(postData: Dict, now: Value)
    ensures RequiredCheck(Required, WithTimestamp(postData, now)) == RequiredCheck(Required, postData)
  {
    RequiredApart();
    RequiredCheckAgrees(Required, WithTimestamp(postData, now), postData);
  }

  /** The timestamp is not a required name. */
  lemma RequiredApart()
    ensures forall j :: 0 <= j < |Required| ==> Required[j] != TimestampName
  {
  }

  /** When the current time is non-empty, the body sent always carries a
      request timestamp: the caller's when it was non-empty, else now. */
  lemma TimestampAlwaysSent(postData: Dict, now: Value)
    requires Truthy(now)
    ensures Find(FilterTruthy(WithTimestamp(postData, now)), TimestampName)
         == Some(if Truthy(Lookup(postData, TimestampName)) then Lookup(postData, TimestampName) else now)
  {
  }

  /** PHP's dirname on a path: trailing slashes are dropped, then the last
      component, then the slashes before it; "/" and "." stand for the root
      and for a path without a slash. */
  function Dirname(path: string): string
  {
    if path == [] then []
    else
      var a := DropTrailingSlashes(path);
      if a == [] then "/"
      else
        var b := DropName(a);
        if b == [] then "."
        else
          var c := DropTrailingSlashes(b);
          if c == [] then "/" else c
  }

  function DropTrailingSlashes(s: string): (r: string)
    ensures r == [] || r[|r| - 1] != '/'
    decreases |s|
  {
    if s != [] && s[|s| - 1] == '/' then DropTrailingSlashes(s[..|s| - 1]) else s
  }

  function DropName(s: string): (r: string)
    ensures r == [] || r[|r| - 1] == '/'
    decreases |s|
  {
    if s != [] && s[|s| - 1] != '/' then DropName(s[..|s| - 1]) else s
  }

  lemma {:induction false} DropNameOf(x: string, name: string)
    requires x != [] && x[|x| - 1] == '/' && '/' !in name
    ensures DropName(x + name) == x
    decreases |name|
  {
    if name == [] {
      assert x + name == x;
    } else {
      var shorter := name[..|name| - 1];
      assert (x + name)[..|x + name| - 1] == x + shorter;
      assert (x + name)[|x + name| - 1] == name[|name| - 1];
      DropNameOf(x, shorter);
    }
  }

  /** The parent of a directory path "parent/name/" is "parent". */
  lemma DirnameOfDirectory(parent: string, name: string)
    requires parent != [] && parent[|parent| - 1] != '/'
    requires name != [] && '/' !in name
    ensures Dirname(parent + "/" + name + "/") == parent
  {
    var p := parent + "/" + name + "/";
    var a := parent + "/" + name;
    assert p[..|p| - 1] == a;
    assert a[|a| - 1] == name[|name| - 1];
    assert DropTrailingSlashes(a) == a;
    assert DropTrailingSlashes(p) == a;
    var b := parent + "/";
    assert a == b + name;
    DropNameOf(b, name);
    assert b[..|b| - 1] == parent;
    assert DropTrailingSlashes(b) == DropTrailingSlashes(parent) == parent;
  }

  /** The parent of the namespace is the service's root. */
  lemma NamespaceParent()
    ensures Dirname(Namespace) == "/visacardeligibilityservices/v1"
  {
    assert Namespace == "/visacardeligibilityservices/v1" + "/" + "cardeligibility" + "/";
    DirnameOfDirectory("/visacardeligibilityservices/v1", "cardeligibility");
  }

  /** redeem's path: the parent of the namespace, then /promo/redeem, which
      is not under the namespace its siblings use. */
  function RedeemPath(): (p: string)
    ensures p == "/visacardeligibilityservices/v1/promo/redeem"
  {
    NamespaceParent();
    Dirname(Namespace) + "/promo/" + "redeem"
  }

  /** validate: the timestamp default, then the check, then one POST. */
  method Validate(api: ApiBase, postData: Dict, now: Value, codecs: Codecs, send: Request -> RawResponse)
    returns (r: Result<ApiResponse, Exception>)
    ensures r == EndpointOutcome(api.apiClient.config, Required, WithTimestamp(postData, now),
                                 ApiCall(Namespace + "validate", "POST", [], WithTimestamp(postData, now)), codecs, send)
  {
    var data := WithTimestamp(postData, now);
    r := api.Invoke(Required, data, ApiCall(Namespace + "validate", "POST", [], data), codecs, send);
  }

  /** prepay: as validate, on its own path. */
  method Prepay(api: ApiBase, postData: Dict, now: Value, codecs: Codecs, send: Request -> RawResponse)
    returns (r: Result<ApiResponse, Exception>)
    ensures r == EndpointOutcome(api.apiClient.config, Required, WithTimestamp(postData, now),
                                 ApiCall(Namespace + "prepay", "POST", [], WithTimestamp(postData, now)), codecs, send)
  {
    var data := WithTimestamp(postData, now);
    r := api.Invoke(Required, data, ApiCall(Namespace + "prepay", "POST", [], data), codecs, send);
  }

  /** redeem: as validate, on the promo path beside the namespace. */
  method Redeem(api: ApiBase, postData: Dict, now: Value, codecs: Codecs, send: Request -> RawResponse)
    returns (r: Result<ApiResponse, Exception>)
    ensures r == EndpointOutcome(api.apiClient.config, Required, WithTimestamp(postData, now),
                                 ApiCall(RedeemPath(), "POST", [], WithTimestamp(postData, now)), codecs, send)
  {
    var data := WithTimestamp(postData, now);
    r := api.Invoke(Required, data, ApiCall(Dirname(Namespace) + "/promo/" + "redeem", "POST", [], data), codecs, send);
  }

  /** An eligibility endpoint on path fails with the check's exception,
      judged on the caller's data, when a required name is empty, and
      otherwise is one POST of the timestamped data. */
  lemma EligibilityEndpoint(config: Configuration, path: string, postData: Dict, now: Value,
                            codecs: Codecs, send: Request -> RawResponse)
    ensures !AllSupplied(Required, postData) ==>
      EndpointOutcome(config, Required, WithTimestamp(postData, now),
                      ApiCall(path, "POST", [], WithTimestamp(postData, now)), codecs, send)
        == Failure(RequiredCheck(Required, postData).error)
    ensures AllSupplied(Required, postData) ==>
      EndpointOutcome(config, Required, WithTimestamp(postData, now),
                      ApiCall(path, "POST", [], WithTimestamp(postData, now)), codecs, send)
        == PostExchange(config, path, WithTimestamp(postData, now), codecs, send)
  {
    var data := WithTimestamp(postData, now);
    TimestampDoesNotAffectCheck(postData, now);
    EndpointSends(config, Required, data, ApiCall(path, "POST", [], data), codecs, send);
  }
}
