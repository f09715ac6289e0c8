/** The Reference Data API: three GET endpoints under /vmorc/data/v1/, each
    path the namespace followed by the method's name; the caller's
    parameters are the query. */
module ReferenceDataApi {
  import opened Wrappers
  import opened PhpValues
  import opened ApiExceptions
  import opened Configurations
  import opened ApiClients
  import opened ApiBases

  const Namespace := "/vmorc/data/v1/"

  /** merchantAddress: requires merchantIds. */
  method MerchantAddress(api: ApiBase, queryParams: Dict, codecs: Codecs, send: Request -> RawResponse)
    returns (r: Result<ApiResponse, Exception>)
    ensures r == EndpointOutcome(api.apiClient.config, ["merchantIds"], queryParams,
                                 ApiCall(Namespace + "merchantAddress", "GET", queryParams, []), codecs, send)
  {
    r := api.Invoke(["merchantIds"], queryParams,
                    ApiCall(Namespace + "merchantAddress", "GET", queryParams, []), codecs, send);
  }

  /** merchant: no required names. */
  method Merchant(api: ApiBase, queryParams: Dict, codecs: Codecs, send: Request -> RawResponse)
    returns (r: Result<ApiResponse, Exception>)
    ensures r == EndpointOutcome(api.apiClient.config, [], queryParams,
                                 ApiCall(Namespace + "merchant", "GET", queryParams, []), codecs, send)
  {
    r := api.Invoke([], queryParams, ApiCall(Namespace + "merchant", "GET", queryParams, []), codecs, send);
  }

  /** ref: no required names. */
  method Ref(api: ApiBase, queryParams: Dict, codecs: Codecs, send: Request -> RawResponse)
    returns (r: Result<ApiResponse, Exception>)
    ensures r == EndpointOutcome(api.apiClient.config, [], queryParams,
                                 ApiCall(Namespace + "ref", "GET", queryParams, []), codecs, send)
  {
    r := api.Invoke([], queryParams, ApiCall(Namespace + "ref", "GET", queryParams, []), codecs, send);
  }

  /** merchantAddress fails, before anything is sent, when merchantIds is
      missing or empty, and otherwise makes one GET exchange; merchant and
      ref always make one GET exchange. */
  lemma ReferenceDataEndpoints(config: Configuration, queryParams: Dict, codecs: Codecs, send: Request -> RawResponse)
    ensures !Truthy(Lookup(queryParams, "merchantIds")) ==>
      EndpointOutcome(config, ["merchantIds"], queryParams,
                      ApiCall(Namespace + "merchantAddress", "GET", queryParams, []), codecs, send)
        == Failure(InvalidArgument(MissingMessage("merchantIds")))
    ensures Truthy(Lookup(queryParams, "merchantIds")) ==>
      EndpointOutcome(config, ["merchantIds"], queryParams,
                      ApiCall(Namespace + "merchantAddress", "GET", queryParams, []), codecs, send)
        == GetExchange(config, Namespace + "merchantAddress", queryParams, codecs, send)
    ensures EndpointOutcome(config, [], queryParams, ApiCall(Namespace + "merchant", "GET", queryParams, []), codecs, send)
         == GetExchange(config, Namespace + "merchant", queryParams, codecs, send)
    ensures EndpointOutcome(config, [], queryParams, ApiCall(Namespace + "ref", "GET", queryParams, []), codecs, send)
         == GetExchange(config, Namespace + "ref", queryParams, codecs, send)
  {
    GetEndpointRequiring(config, "merchantIds", queryParams, Namespace + "merchantAddress", codecs, send);
    GetEndpointUnchecked(config, queryParams, Namespace + "merchant", codecs, send);
    GetEndpointUnchecked(config, queryParams, Namespace + "ref", codecs, send);
  }
}
