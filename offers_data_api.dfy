/** The Offers Data API: four GET endpoints under /vmorc/offers/v1/, each
    path the namespace followed by the method's name; the caller's
    parameters are the query. */
module OffersDataApi {
  import opened Wrappers
  import opened PhpValues
  import opened ApiExceptions
  import opened Configurations
  import opened ApiClients
  import opened ApiBases

  const Namespace := "/vmorc/offers/v1/"

  /** all: no required names. */
  method All(api: ApiBase, queryParams: Dict, codecs: Codecs, send: Request -> RawResponse)
    returns (r: Result<ApiResponse, Exception>)
    ensures r == EndpointOutcome(api.apiClient.config, [], queryParams,
                                 ApiCall(Namespace + "all", "GET", queryParams, []), codecs, send)
  {
    r := api.Invoke([], queryParams, ApiCall(Namespace + "all", "GET", queryParams, []), codecs, send);
  }

  /** bycontentid: requires contentid. */
  method ByContentId(api: ApiBase, queryParams: Dict, codecs: Codecs, send: Request -> RawResponse)
    returns (r: Result<ApiResponse, Exception>)
    ensures r == EndpointOutcome(api.apiClient.config, ["contentid"], queryParams,
                                 ApiCall(Namespace + "bycontentid", "GET", queryParams, []), codecs, send)
  {
    r := api.Invoke(["contentid"], queryParams, ApiCall(Namespace + "bycontentid", "GET", queryParams, []), codecs, send);
  }

  /** byfilter: no required names. */
  method ByFilter(api: ApiBase, queryParams: Dict, codecs: Codecs, send: Request -> RawResponse)
    returns (r: Result<ApiResponse, Exception>)
    ensures r == EndpointOutcome(api.apiClient.config, [], queryParams,
                                 ApiCall(Namespace + "byfilter", "GET", queryParams, []), codecs, send)
  {
    r := api.Invoke([], queryParams, ApiCall(Namespace + "byfilter", "GET", queryParams, []), codecs, send);
  }

  /** byofferid: requires offerid. */
  method ByOfferId(api: ApiBase, queryParams: Dict, codecs: Codecs, send: Request -> RawResponse)
    returns (r: Result<ApiResponse, Exception>)
    ensures r == EndpointOutcome(api.apiClient.config, ["offerid"], queryParams,
                                 ApiCall(Namespace + "byofferid", "GET", queryParams, []), codecs, send)
  {
    r := api.Invoke(["offerid"], queryParams, ApiCall(Namespace + "byofferid", "GET", queryParams, []), codecs, send);
  }

  /** all and byfilter always make one GET exchange on their own path. */
  lemma UncheckedOffersEndpoints(config: Configuration, queryParams: Dict, codecs: Codecs, send: Request -> RawResponse)
    ensures EndpointOutcome(config, [], queryParams, ApiCall(Namespace + "all", "GET", queryParams, []), codecs, send)
         == GetExchange(config, Namespace + "all", queryParams, codecs, send)
    ensures EndpointOutcome(config, [], queryParams, ApiCall(Namespace + "byfilter", "GET", queryParams, []), codecs, send)
         == GetExchange(config, Namespace + "byfilter", queryParams, codecs, send)
  {
    GetEndpointUnchecked(config, queryParams, Namespace + "all", codecs, send);
    GetEndpointUnchecked(config, queryParams, Namespace + "byfilter", codecs, send);
  }

  /** bycontentid and byofferid fail, before anything is sent, when their id
      is missing or empty, and otherwise make one GET exchange on their own
      path. */
  lemma CheckedOffersEndpoints(config: Configuration, queryParams: Dict, codecs: Codecs, send: Request -> RawResponse)
    ensures !Truthy(Lookup(queryParams, "contentid")) ==>
      EndpointOutcome(config, ["contentid"], queryParams, ApiCall(Namespace + "bycontentid", "GET", queryParams, []), codecs, send)
        == Failure(InvalidArgument(MissingMessage("contentid")))
    ensures Truthy(Lookup(queryParams, "contentid")) ==>
      EndpointOutcome(config, ["contentid"], queryParams, ApiCall(Namespace + "bycontentid", "GET", queryParams, []), codecs, send)
        == GetExchange(config, Namespace + "bycontentid", queryParams, codecs, send)
    ensures !Truthy(Lookup(queryParams, "offerid")) ==>
      EndpointOutcome(config, ["offerid"], queryParams, ApiCall(Namespace + "byofferid", "GET", queryParams, []), codecs, send)
        == Failure(InvalidArgument(MissingMessage("offerid")))
    ensures Truthy(Lookup(queryParams, "offerid")) ==>
      EndpointOutcome(config, ["offerid"], queryParams, ApiCall(Namespace + "byofferid", "GET", queryParams, []), codecs, send)
        == GetExchange(config, Namespace + "byofferid", queryParams, codecs, send)
  {
    GetEndpointRequiring(config, "contentid", queryParams, Namespace + "bycontentid", codecs, send);
    GetEndpointRequiring(config, "offerid", queryParams, Namespace + "byofferid", codecs, send);
  }
}
