# Visa Developer Center APIs — a Dafny model of the request pipeline

The WordPress plugin wp-visa-developer-center-apis talks to three Visa
Developer Center services:

- the Offers Data API;
- the Reference Data API;
- the Card Eligibility Service.

It does this through a small generated-style PHP client. This project models
that client's core and proves what it promises:

- **`Configuration`** — a mutable settings record. It has validating setters,
  keyed stores for API keys, key prefixes and default headers, the
  x-pay-token signer, and a lazily created process-wide default instance.
- **`API_Client`** — builds the request: headers, query, body, URL and verb.
  It classifies the transport's answer and parses the raw response headers.
- **`API_Base`** — the base of every endpoint class. It holds a client and
  checks required parameters.
- **Endpoint classes** — their paths, verbs and required names. The
  eligibility endpoints default `requestTimeStamp`, and `redeem` lives on a
  `dirname` path.
- **`ApiException`** — the error record.
- **WP-CLI commands** — `offers`, `data` and `eligibility`. Each merges its
  defaults with the common options, configures the client, unsets options,
  renames option names through its mapping, and adds positional ids, the card
  number or the expiration-date split.

PHP values are the datatype `PhpValues.Value`. PHP arrays with string keys
are ordered association lists without repeated keys (`OrderedMaps`).
Assignment `$a[k] = v` is `Put`, `unset` is `Remove`, `wp_parse_args` and
`array_merge` are `Merge`, and `ksort` is `KSort`.

The foreign primitives are passed in as parameters, bundled in
`PhpValues.Codecs`:

- `base64_encode`;
- `json_encode` and `json_decode`;
- `http_build_query`;
- `hash_hmac('sha256', …)`.

Other inputs are passed in the same way:

- the clock is a parameter `time` or `now`;
- the transport (cURL) is a function `send` from the request to the raw
  response (status, header text, body, error text);
- `wp_generate_password` is the parameter `correlationId`;
- `Project_Config::getDefaultVendorUniqueId()` is the parameter `vendor`.

Each command method returns the parameters it would dispatch.

Where the code and its documentation disagree, the model follows the code,
with one exception: the required-parameter check (see the bullet below and
Findings). In particular:

- **SSL verification is off after construction.** The constructor of
  `Configuration` calls `setSSLVerification(false)` after the field
  initialiser set it to true (class-configuration.php:115, 173).
- **Content-Type is always forced.** `callApi` sets it to
  `application/json`, and that overrides any default header. The
  form-urlencoded and multipart branches are therefore unreachable. This is
  proved as `ApiClients.JsonBodyAlways`.
- **`callApi` never calls `getApiKeyWithPrefix`.** The x-pay-token is
  modelled and proved about, but it is never sent.
- **`ssl_verify` is sent.** Every command unsets `'verify'` rather than
  `'ssl_verify'`, so `ssl_verify` stays in the parameters sent to the API.
  The `*ParamsContents` and `*Common` lemmas state this.
- **The required-parameter check ignores the supplied values.**
  `check_required_params` reads `$$params[$param]`, a variable variable, so
  it never looks at the values supplied: as written, bycontentid,
  byofferid, merchantAddress, validate, prepay and redeem always throw.
  Here alone the model follows the documented intent, that the check
  passes when every required parameter is supplied: `ApiBases.ApiBase.Invoke`,
  `OffersDataApi.ByContentId`, `OffersDataApi.ByOfferId`,
  `ReferenceDataApi.MerchantAddress`, `CardEligibilityServiceApi.Validate`,
  `CardEligibilityServiceApi.Prepay`, `CardEligibilityServiceApi.Redeem`
  and `CardEligibilityServiceApi.EligibilityEndpoint` are built on the
  intended check `ApiBases.RequiredCheck`. The code as written is
  `ApiBases.RequiredCheckAsWritten`, beside it (see Findings).
- **`all` nests the merge the other way round.** It writes
  `wp_parse_args($defaults, $common)`, so the common options lie under its
  defaults rather than over them. `OffersCommands.AllParamsContents` states
  the outcome, which is the same for its options.

## Model

| member | source | states |
|---|---|---|
| PhpValues.Lookup | includes/wp-cli/class-eligibility-command.php:88 | `$d[$k]` is null for a key that is not set, otherwise the stored value |
| PhpValues.Truthy | includes/api/includes/class-api-base.php:78 | PHP's conversion to bool, whose negation is `empty()`: null, false, 0, "", "0" and empty arrays are falsy; FilterTruthy, FilterTruthyEmpty, BasicAuthorization and RequiredCheck state the behaviour built on it |
| PhpValues.LooselyNull | includes/api/includes/class-configuration.php:219 | `$v == null` under loose comparison: every falsy value except the string "0"; BodyString states the body text it selects |
| PhpValues.StrOf | includes/api/includes/class-api-client.php:139 | the string conversion interpolation applies: "" for null and false, "1" for true, the decimal text of an integer, "Array" for an array; HeaderLines and AsWrittenIgnoresParams state the results built on it |
| PhpValues.FilterTruthy | includes/api/includes/class-api-client.php:145 | array_filter keeps exactly the truthy entries with their keys and values, and keeps keys unique; FilterTruthyAppend states the order |
| PhpValues.FilterTruthyAppend | includes/api/includes/class-api-client.php:155-157 | filtering two arrays one after the other gives the two filtered arrays one after the other, so the survivors keep their input order |
| PhpValues.FilterTruthyEmpty | includes/api/includes/class-api-client.php:145-147 | array_filter leaves nothing exactly when every value is falsy |
| OrderedMaps.Find | includes/api/includes/class-api-client.php:386 | looking up a key gives nothing exactly when the key is not set |
| OrderedMaps.Put | includes/api/includes/class-api-client.php:387 | assigning `$a[k] = v` makes k map to v, leaves every other key as it was, appends k when it was new, and keeps keys unique |
| OrderedMaps.Remove | includes/wp-cli/class-offers-command.php:77 | unset removes exactly k and leaves every other key's value |
| OrderedMaps.Merge | includes/api/includes/class-api-client.php:133-136 | array_merge / wp_parse_args: a key of the second array has its value there, any other key its value in the first |
| OrderedMaps.KSort | includes/api/includes/class-api-client.php:148 | ksort gives a strictly key-ordered permutation of the entries |
| OrderedMaps.SortedDetermined | includes/api/includes/class-configuration.php:212 | two key-sorted arrays that hold the same entries are equal, so ksort's result does not depend on the input order |
| Strings.Split | includes/api/includes/class-api-client.php:382 | explode gives at least one piece, no piece holds the separator, and a string without the separator is one piece |
| Strings.JoinSplit | includes/api/includes/class-api-client.php:382 | implode of explode with the same separator gives back the input |
| Strings.SplitJoin | includes/wp-cli/class-eligibility-command.php:89 | explode of separator-free pieces joined by the separator gives back the pieces |
| Strings.Join | includes/api/includes/class-api-client.php:345 | implode; JoinSplit and SplitJoin state that it inverts explode, and ByIdParamsContents and MerchantAddressParamsContents state the ids it joins |
| Strings.SplitColon | includes/api/includes/class-api-client.php:383 | `explode(':', $h, 2)` has a second piece exactly when there is a colon, the first piece holds no colon, and the pieces rejoin to the line |
| Strings.SplitColonOf | includes/api/includes/class-api-client.php:383 | a line "name:value" with a colon-free name splits into exactly that name and value, even when the value holds colons |
| Strings.TrimLeft | includes/api/includes/class-api-client.php:387 | the result is a suffix of the input, every dropped character is whitespace, and the first kept one is not |
| Strings.TrimRight | includes/api/includes/class-api-client.php:387 | the result is a prefix of the input, every dropped character is whitespace, and the last kept one is not |
| Strings.Trim | includes/api/includes/class-api-client.php:387 | the trimmed text neither starts nor ends with whitespace |
| Strings.ParseNatToDec | includes/api/includes/class-configuration.php:220-221 | the decimal text of the timestamp reads back as the timestamp |
| Strings.NatToDecInjective | includes/api/includes/class-configuration.php:221 | distinct timestamps have distinct decimal texts |
| ApiExceptions.NewApiException | includes/api/includes/class-api-exception.php:42-47 | the getters return the message, code, headers and body the constructor was given |
| ApiExceptions.ApiExceptionFields | includes/api/includes/class-api-exception.php:42-65 | getResponseHeaders and getResponseBody give back exactly what was passed in; the defaults are an empty message, code 0, null headers and null body |
| HttpHeaders.HttpParseHeaders | includes/api/includes/class-api-client.php:377-410 | the loop over the lines computes the parser's specification, and the map it returns never repeats a name |
| HttpHeaders.ParseLine | includes/api/includes/class-api-client.php:383-405 | the loop body on one line is one step of the specification and keeps names unique |
| HttpHeaders.RunUnique | includes/api/includes/class-api-client.php:382-407 | every run of lines keeps the field names distinct |
| HttpHeaders.ParseHeadersUnique | includes/api/includes/class-api-client.php:377-410 | the parsed header map never repeats a name |
| HttpHeaders.Step | includes/api/includes/class-api-client.php:383-406 | one line of the header text; StepFind, FieldLine and StepFolded state its effect on a field line and on a continuation line |
| HttpHeaders.Run | includes/api/includes/class-api-client.php:382-407 | the foreach over the lines; RunUnique, RunAccumulates, RunFolds and RunKeepsStatus state what it keeps |
| HttpHeaders.ParseHeaders | includes/api/includes/class-api-client.php:377-410 | httpParseHeaders on the raw text; ParseHeadersUnique, RepeatedNamesAccumulate, FoldedValue and StatusLineKept state its result |
| HttpHeaders.ValuesNamed | includes/api/includes/class-api-client.php:383-387 | the values collected for a name are at most one per line |
| HttpHeaders.Collapse | includes/api/includes/class-api-client.php:386-394 | no values means the name is absent, one value is a string, several are the list of all of them |
| HttpHeaders.CollapseAdd | includes/api/includes/class-api-client.php:386-394 | one more value for a name extends its string into a list, or its list by one element |
| HttpHeaders.AddValue | includes/api/includes/class-api-client.php:386-394 | one more value for a name: a string when the name was unset, a two-element list after a string, one more element after a list; CollapseAdd and RepeatedNamesAccumulate state the result |
| HttpHeaders.StepFind | includes/api/includes/class-api-client.php:385-397 | a non-folded line changes only the value of the name it carries |
| HttpHeaders.RunAccumulates | includes/api/includes/class-api-client.php:382-407 | without folded lines, each name ends up with all its trimmed values in arrival order |
| HttpHeaders.RepeatedNamesAccumulate | includes/api/includes/class-api-client.php:386-394 | a name seen once maps to its trimmed value; a name seen several times, case-sensitively, maps to the list of all its values in arrival order |
| HttpHeaders.FieldLine | includes/api/includes/class-api-client.php:383-396 | a line "name:value" sets the running key to the untrimmed name and adds the trimmed value to that name |
| HttpHeaders.StepFolded | includes/api/includes/class-api-client.php:399-400 | a colon-free line starting with a tab appends "\r\n\t" and its trimmed text to the running key's value and keeps the key |
| HttpHeaders.RunFolds | includes/api/includes/class-api-client.php:399-400 | a run of folded lines appends each one's text to the same field |
| HttpHeaders.FoldedValue | includes/api/includes/class-api-client.php:386-400 | a field followed by folded continuation lines is one string: its trimmed value and each continuation |
| HttpHeaders.RunKeepsStatus | includes/api/includes/class-api-client.php:402-403 | once a header has been seen, no later line overwrites the status entry under key 0 |
| HttpHeaders.StatusLineKept | includes/api/includes/class-api-client.php:402-403 | a colon-free first line is stored trimmed under key 0 and survives the rest of the block |
| ApiClients.SelectHeaderAccept | includes/api/includes/class-api-client.php:337-347 | null exactly for no media types; application/json when some entry mentions it in any case; otherwise the comma-joined list |
| ApiClients.SelectHeaderContentType | includes/api/includes/class-api-client.php:357-367 | application/json for no media types, otherwise what selectHeaderAccept picks |
| ApiClients.JsonSelected | includes/api/includes/class-api-client.php:112-116 | both selections give application/json for the list callApi passes |
| ApiClients.BasicAuthorization | includes/api/includes/class-api-client.php:119-130 | there are credentials exactly when the username or the password is non-empty |
| ApiClients.RequestHeaderParams | includes/api/includes/class-api-client.php:112-130 | Accept and Content-Type are application/json; Authorization is "Basic " + base64("user:password") exactly when a credential is non-empty, otherwise the caller's value; every other header is the caller's |
| ApiClients.SentHeaderMap | includes/api/includes/class-api-client.php:133-136 | the sent headers are the defaults overlaid by the computed ones, the computed ones winning on a clash, and the defaults' names come first in their order |
| ApiClients.HeaderLines | includes/api/includes/class-api-client.php:138-140 | one "Name: value" line per header |
| ApiClients.HeaderLine | includes/api/includes/class-api-client.php:139 | one header as "name: value"; HeaderLines and NoFormHeader state the lines sent |
| ApiClients.NoFormHeader | includes/api/includes/class-api-client.php:152-155 | with Content-Type application/json, no sent line asks for a form-urlencoded or multipart body |
| ApiClients.JsonBodyAlways | includes/api/includes/class-api-client.php:152-158 | the body is always the JSON text of the truthy data entries; the form branch cannot be reached |
| ApiClients.PreparedQuery | includes/api/includes/class-api-client.php:142-149 | the query holds exactly the entries with truthy values, in strictly ascending key order |
| ApiClients.PreparedQueryEmpty | includes/api/includes/class-api-client.php:142-149 | the prepared query is empty, so the URL gets no "?", exactly when every parameter is falsy |
| ApiClients.Classify | includes/api/includes/class-api-client.php:284-326 | success exactly for 2xx, with the raw body, status and parsed headers; status 0 throws with code 0, no headers, no body and a message naming the URL; any other status throws with that status, the parsed headers and the decoded (or raw) body |
| ApiClients.EncodedBody | includes/api/includes/class-api-client.php:151-158 | the form, JSON and multipart branches of the body; JsonBodyAlways states that only the JSON branch is reached |
| ApiClients.RequestUrl | includes/api/includes/class-api-client.php:211-213 | the host and path, then "?" and the encoded query when the prepared query is not empty; PreparedQueryEmpty states when it is |
| ApiClients.IsKnownVerb | includes/api/includes/class-api-client.php:215-249 | the seven verbs the switch accepts; VerbHandling states that any other throws |
| ApiClients.UnknownVerbMessage | includes/api/includes/class-api-client.php:248 | the message naming an unrecognised verb; VerbHandling states that such a verb throws it |
| ApiClients.RequestBody | includes/api/includes/class-api-client.php:215-246 | HEAD and GET send no body, the other verbs the encoded body; VerbHandling states the request sent for each |
| ApiClients.NetworkFailureMessage | includes/api/includes/class-api-client.php:288-304 | the status-0 message: with the cURL error text when it is non-empty, otherwise the unknown-reason wording |
| ApiClients.HttpErrorMessage | includes/api/includes/class-api-client.php:319 | the HTTP-error message naming the status and the URL; Classify states where it is used |
| ApiClients.DecodedBody | includes/api/includes/class-api-client.php:312-315 | an error body's JSON decoding, or the raw text when decoding fails; Classify states where it is used |
| ApiClients.CallOutcome | includes/api/includes/class-api-client.php:109-326 | the outcome of callApi; VerbHandling states it per verb, CallApi that the method computes it |
| ApiClients.VerbHandling | includes/api/includes/class-api-client.php:215-249 | a verb outside HEAD, GET, POST, PATCH, PUT, DELETE and OPTIONS throws naming it; HEAD and GET send one request without a body to the URL with the query; the other verbs send one request to that URL with the JSON text of the truthy data |
| ApiClients.HandleResponse | includes/api/includes/class-api-client.php:272-326 | the response handling computes Classify |
| ApiClients.HeaderLinesOf | includes/api/includes/class-api-client.php:138-140 | the loop builds one line per header, in order |
| ApiClients.ApiClient.constructor | includes/api/includes/class-api-client.php:41-47 | keeps a given configuration; otherwise takes the default one, creating it when there is none |
| ApiClients.ApiClient.GetApiKeyWithPrefix | includes/api/includes/class-api-client.php:71-87 | null without a key, "prefix key" when a prefix is set, the bare key otherwise |
| ApiClients.ApiClient.PrepareRequest | includes/api/includes/class-api-client.php:109-213 | the step-by-step assembly produces the sent header lines, the encoded body and the URL of the specification |
| ApiClients.ApiClient.AssignHeaderParams | includes/api/includes/class-api-client.php:112-130 | the assignments of Accept, Content-Type and Authorization produce RequestHeaderParams |
| ApiClients.ApiClient.CallApi | includes/api/includes/class-api-client.php:109-326 | callApi's outcome is one request through the transport, classified, or the unknown-verb exception |
| Configurations.DecimalTimeout | includes/api/includes/class-configuration.php:411-413 | a timeout given as an integer or its decimal text is accepted exactly when it is not negative |
| Configurations.IsIntegerText | includes/api/includes/class-configuration.php:412 | a decimal integer literal with an optional sign, the text IsNumeric accepts; NegativeText, MinusDigits and NonNegativeText state which texts pass |
| Configurations.IsNegative | includes/api/includes/class-configuration.php:412 | `$seconds < 0` for a numeric value; DecimalTimeout states that an integer or its text is rejected exactly when negative |
| Configurations.NegativeText | includes/api/includes/class-configuration.php:412 | the text of a negative integer is numeric and negative |
| Configurations.MinusDigits | includes/api/includes/class-configuration.php:412 | a minus sign before the digits of a positive number is numeric and negative |
| Configurations.IsNumeric | includes/api/includes/class-configuration.php:412 | is_numeric on integers and integer text; DecimalTimeout, NegativeText, MinusDigits and NonNegativeText state which values pass |
| Configurations.ValidTimeout | includes/api/includes/class-configuration.php:412 | the timeout guard: numeric and not below zero; DecimalTimeout states it accepts exactly the non-negative integers and their text |
| Configurations.NonNegativeText | includes/api/includes/class-configuration.php:412 | the text of a non-negative integer is numeric and not negative |
| Configurations.BodyString | includes/api/includes/class-configuration.php:215-219 | arrays are signed as their JSON text, loosely-null values as "", a non-empty string verbatim |
| Configurations.XPayTokenReadBack | includes/api/includes/class-configuration.php:209-224 | the token is "xv2:", the timestamp in decimal, ":" and the HMAC of timestamp + path + sorted query + body; reading it back gives the time and that HMAC |
| Configurations.XPayTokenTimestamp | includes/api/includes/class-configuration.php:221 | tokens made at different times differ |
| Configurations.XPayTokenQueryOrder | includes/api/includes/class-configuration.php:212-213 | the order in which the query parameters are listed does not change the token |
| Configurations.PreHash | includes/api/includes/class-configuration.php:211-220 | the signed text: the time, the resource path, the query built from the key-sorted parameters, and the body text; XPayTokenQueryOrder states that the parameters' order does not change it |
| Configurations.XPayToken | includes/api/includes/class-configuration.php:209-224 | "xv2:", the time, ":" and the HMAC of the signed text under the shared secret; XPayTokenReadBack and XPayTokenTimestamp state its shape and that the time is recoverable |
| Configurations.ReadXPayToken | includes/api/includes/class-configuration.php:221 | reads the time and the HMAC back out of a token; XPayTokenReadBack states it inverts XPayToken |
| Configurations.Configuration.constructor | includes/api/includes/class-configuration.php:164-174 | the field initialisers, the project's username, password and certificate paths, and SSL verification false |
| Configurations.Configuration.SetApiKey | includes/api/includes/class-configuration.php:186-190 | the key is stored under its identifier and reads back; every other identifier is unchanged; it returns the same object |
| Configurations.Configuration.GetApiKey | includes/api/includes/class-configuration.php:201-207 | for x-pay-token the computed token, otherwise the stored key or null |
| Configurations.Configuration.SetApiKeyPrefix | includes/api/includes/class-configuration.php:233-237 | the prefix reads back through getApiKeyPrefix; other identifiers are unchanged; it returns the same object |
| Configurations.Configuration.GetApiKeyPrefix | includes/api/includes/class-configuration.php:246-248 | the stored prefix, or null |
| Configurations.Configuration.SetUsername | includes/api/includes/class-configuration.php:279-283 | sets the username and returns the same object |
| Configurations.Configuration.SetPassword | includes/api/includes/class-configuration.php:301-305 | sets the password and returns the same object |
| Configurations.Configuration.AddDefaultHeader | includes/api/includes/class-configuration.php:324-332 | a non-string name throws InvalidArgumentException and leaves the headers; otherwise exactly that entry is set |
| Configurations.Configuration.DeleteDefaultHeader | includes/api/includes/class-configuration.php:350-354 | only the named entry is removed; an absent name changes nothing |
| Configurations.Configuration.SetHost | includes/api/includes/class-configuration.php:363-367 | sets the host and returns the same object |
| Configurations.Configuration.SetUserAgent | includes/api/includes/class-configuration.php:385-393 | a non-string throws InvalidArgumentException with no change; a string is stored |
| Configurations.Configuration.SetCurlTimeout | includes/api/includes/class-configuration.php:411-419 | a non-numeric or negative value throws InvalidArgumentException with no change; any other value, 0 included, is stored |
| Configurations.Configuration.SetCurlConnectTimeout | includes/api/includes/class-configuration.php:437-445 | as SetCurlTimeout, with its own message |
| Configurations.Configuration.SetDebug | includes/api/includes/class-configuration.php:573-577 | sets the debug flag and returns the same object |
| Configurations.Configuration.SetSSLVerification | includes/api/includes/class-configuration.php:714-718 | sets SSL verification and returns the same object |
| Configurations.Configuration.SetCertificatePath | includes/api/includes/class-configuration.php:639-643 | sets the certificate path and returns the same object |
| Configurations.Configuration.SetPrivateKey | includes/api/includes/class-configuration.php:667-671 | sets the private key and returns the same object |
| Configurations.Configuration.SetCaCertPath | includes/api/includes/class-configuration.php:652-656 | sets the CA certificate path and returns the same object |
| Configurations.Configuration.SetSharedSecret | includes/api/includes/class-configuration.php:674-678 | sets the shared secret and returns the same object |
| Configurations.ConfigurationRegistry.constructor | includes/api/includes/class-configuration.php:15 | there is no default configuration at first |
| Configurations.ConfigurationRegistry.GetDefaultConfiguration | includes/api/includes/class-configuration.php:734-740 | the stored instance on every call; a fresh newly constructed one, which is then stored, when there was none |
| Configurations.ConfigurationRegistry.SetDefaultConfiguration | includes/api/includes/class-configuration.php:749-753 | later calls to getDefaultConfiguration return the given configuration |
| ApiBases.FirstEmpty | includes/api/includes/class-api-base.php:77-78 | the index of the first required name whose value is empty: every earlier one is non-empty |
| ApiBases.CheckWith | includes/api/includes/class-api-base.php:76-86 | the loop of check_required_params with the lookup as a parameter; RequiredCheck (the documented lookup) and RequiredCheckAsWritten (the variable variable) are its two instances |
| ApiBases.RequiredCheck | includes/api/includes/class-api-base.php:76-86 | success (true) exactly when every required name is set and non-empty; otherwise the InvalidArgumentException names the first empty one |
| ApiBases.FirstEmptyAgrees | includes/api/includes/class-api-base.php:77-78 | the first empty name depends only on the values read for the required names |
| ApiBases.RequiredCheckAgrees | includes/api/includes/class-api-base.php:76-86 | the check has the same outcome on two arrays that agree on the required names |
| ApiBases.FirstMissing | includes/api/includes/class-api-base.php:77-82 | the check reports the first empty name, with the message "Missing required parameter `name`." |
| ApiBases.MissingMessage | includes/api/includes/class-api-base.php:80 | "Missing required parameter `name`."; RequiredCheck and FirstMissing state that it names the first empty required name |
| ApiBases.CheckRequiredParams | includes/api/includes/class-api-base.php:76-86 | the loop over the names computes the documented check |
| ApiBases.RequiredCheckAsWritten | includes/api/includes/class-api-base.php:78 | the check as written: any success is true |
| ApiBases.LocalVariable | includes/api/includes/class-api-base.php:76-78 | the variables in scope at line 78: the two parameters and the loop variable, any other name reading as null; AsWrittenIgnoresParams states that the name "Array" reads as null |
| ApiBases.Element | includes/api/includes/class-api-base.php:78 | `$v[$k]` on a value that may not be an array: null unless it is an array holding k; AsWrittenIgnoresParams states that every required name then reads as null |
| ApiBases.AsWrittenIgnoresParams | includes/api/includes/class-api-base.php:78 | as written, the outcome does not depend on the supplied values: it always rejects the first required name |
| ApiBases.AsWrittenRejectsSupplied | includes/api/includes/class-api-base.php:78 | a request that supplies its one required name passes the documented check and fails the check as written |
| ApiBases.AsWrittenRejectsSuppliedName | includes/api/includes/class-api-base.php:78 | the same, on a request for content 42 |
| ApiBases.EndpointSends | includes/api/includes/class-api-base.php:76-86 | an endpoint fails with the check's exception, before anything is sent, when a required name is empty; otherwise it is one GET with the params as query, or one POST with the params as body |
| ApiBases.GetEndpointRequiring | includes/api/class-offers-data-api.php:85-98 | a GET endpoint requiring one name fails naming it when it is empty, and otherwise makes one GET exchange |
| ApiBases.GetEndpointUnchecked | includes/api/class-offers-data-api.php:46-59 | a GET endpoint without required names always makes one GET exchange |
| ApiBases.EndpointOutcome | includes/api/class-offers-data-api.php:84-103 | an endpoint's outcome: the check's exception, or the client's call; EndpointSends states both cases |
| ApiBases.GetExchange | includes/api/includes/class-api-client.php:109-326 | callApi for GET with no header parameters: one request without body to the URL with the prepared query, classified; EndpointSends states when an endpoint makes it |
| ApiBases.PostExchange | includes/api/includes/class-api-client.php:109-326 | callApi for POST with no query: one request carrying the JSON text of the truthy data, classified; EndpointSends states when an endpoint makes it |
| ApiBases.ApiBase.constructor | includes/api/includes/class-api-base.php:36-42 | keeps a given client and leaves the registry's default alone; otherwise a fresh client on the registry's existing default, or on a new configuration, which becomes the default, when there is none |
| ApiBases.ApiBase.SetApiClient | includes/api/includes/class-api-base.php:60-64 | replaces the client and returns the same object |
| ApiBases.ApiBase.Invoke | includes/api/class-offers-data-api.php:90-102 | the shared endpoint body: check, then call, with exceptions passed on unchanged |
| OffersDataApi.All | includes/api/class-offers-data-api.php:46-59 | GET on /vmorc/offers/v1/all with the params as query, no check |
| OffersDataApi.ByContentId | includes/api/class-offers-data-api.php:84-103 | GET on /vmorc/offers/v1/bycontentid after checking contentid |
| OffersDataApi.ByFilter | includes/api/class-offers-data-api.php:164-177 | GET on /vmorc/offers/v1/byfilter, no check |
| OffersDataApi.ByOfferId | includes/api/class-offers-data-api.php:203-222 | GET on /vmorc/offers/v1/byofferid after checking offerid |
| OffersDataApi.UncheckedOffersEndpoints | includes/api/class-offers-data-api.php:164-177 | all and byfilter always make one GET exchange on their own path |
| OffersDataApi.CheckedOffersEndpoints | includes/api/class-offers-data-api.php:203-222 | bycontentid and byofferid fail naming their id when it is empty, and otherwise make one GET exchange |
| ReferenceDataApi.MerchantAddress | includes/api/class-reference-data-api.php:46-65 | GET on /vmorc/data/v1/merchantAddress after checking merchantIds |
| ReferenceDataApi.Merchant | includes/api/class-reference-data-api.php:90-103 | GET on /vmorc/data/v1/merchant, no check |
| ReferenceDataApi.Ref | includes/api/class-reference-data-api.php:128-141 | GET on /vmorc/data/v1/ref, no check |
| ReferenceDataApi.ReferenceDataEndpoints | includes/api/class-reference-data-api.php:46-141 | merchantAddress fails naming merchantIds when it is empty; otherwise it, merchant and ref each make one GET exchange |
| CardEligibilityServiceApi.WithTimestamp | includes/api/class-card-eligibility-service-api.php:64-66 | an empty requestTimeStamp becomes the current time; a non-empty one, and every other entry, is kept |
| CardEligibilityServiceApi.TimestampDoesNotAffectCheck | includes/api/class-card-eligibility-service-api.php:58-70 | the timestamp default does not change the outcome of the check |
| CardEligibilityServiceApi.RequiredApart | includes/api/class-card-eligibility-service-api.php:58-62 | requestTimeStamp is not a required name |
| CardEligibilityServiceApi.TimestampAlwaysSent | includes/api/class-card-eligibility-service-api.php:64-66 | with a non-empty clock, the body always carries a timestamp: the caller's when non-empty, otherwise now |
| CardEligibilityServiceApi.DropTrailingSlashes | includes/api/class-card-eligibility-service-api.php:191 | the result does not end in a slash |
| CardEligibilityServiceApi.Dirname | includes/api/class-card-eligibility-service-api.php:191 | PHP's dirname; DirnameOfDirectory states that the parent of "dir/name/" is "dir" |
| CardEligibilityServiceApi.DropName | includes/api/class-card-eligibility-service-api.php:191 | the result is empty or ends in a slash |
| CardEligibilityServiceApi.DropNameOf | includes/api/class-card-eligibility-service-api.php:191 | dropping the last name of "x/name" gives "x/" |
| CardEligibilityServiceApi.DirnameOfDirectory | includes/api/class-card-eligibility-service-api.php:191 | dirname of "parent/name/" is "parent" |
| CardEligibilityServiceApi.NamespaceParent | includes/api/class-card-eligibility-service-api.php:191 | dirname of the namespace is /visacardeligibilityservices/v1 |
| CardEligibilityServiceApi.RedeemPath | includes/api/class-card-eligibility-service-api.php:188-191 | redeem's path is /visacardeligibilityservices/v1/promo/redeem, outside its siblings' namespace |
| CardEligibilityServiceApi.Validate | includes/api/class-card-eligibility-service-api.php:57-83 | timestamp default, then the check of the three required names, then POST on namespace + validate with no query and the data as body |
| CardEligibilityServiceApi.Prepay | includes/api/class-card-eligibility-service-api.php:115-141 | as validate, on namespace + prepay |
| CardEligibilityServiceApi.Redeem | includes/api/class-card-eligibility-service-api.php:173-201 | as validate, on the promo path |
| CardEligibilityServiceApi.EligibilityEndpoint | includes/api/class-card-eligibility-service-api.php:58-77 | an eligibility endpoint fails, judged on the caller's data, when a required name is empty, and otherwise is one POST of the timestamped data |
| VdcCommands.CommonAbsent | includes/wp-cli/includes/class-vdc-command.php:43-46 | the common options hold no name but vdc_debug and ssl_verify |
| VdcCommands.CommonHolds | includes/wp-cli/includes/class-vdc-command.php:43-46 | the common defaults are ssl_verify true and vdc_debug false |
| VdcCommands.DistinctNamesUnique | includes/wp-cli/includes/class-vdc-command.php:60 | a mapping's option names are distinct keys |
| VdcCommands.Rename | includes/wp-cli/includes/class-vdc-command.php:128-133 | a mapped name is sent under its mapped name, any other under itself |
| VdcCommands.MapParams | includes/wp-cli/includes/class-vdc-command.php:124-137 | the loop assigns each argument, renamed, in order |
| VdcCommands.MappedParamsStep | includes/wp-cli/includes/class-vdc-command.php:127-134 | the last argument decides the value of its renamed name; every other name keeps its value |
| VdcCommands.MappedParamsAbsent | includes/wp-cli/includes/class-vdc-command.php:125-136 | no key appears beyond the renamed input keys |
| VdcCommands.MappedParamsLast | includes/wp-cli/includes/class-vdc-command.php:127-134 | values are not altered, and when two inputs give the same output name the later one wins |
| VdcCommands.MappedParamsIdentity | includes/wp-cli/includes/class-vdc-command.php:124-137 | with the empty base mapping, map_params is the identity |
| VdcCommands.MappedParams | includes/wp-cli/includes/class-vdc-command.php:124-137 | map_params as a function of the arguments; MappedParamsStep, MappedParamsAbsent, MappedParamsLast and MappedParamsIdentity state its result, MapParams that the loop computes it |
| VdcCommands.Shaped | includes/wp-cli/class-offers-command.php:76-79 | the options after the unsets, mapped; ShapedKeeps, ShapedOption and ShapedRenamedOption state what is sent |
| VdcCommands.Options | includes/wp-cli/class-offers-command.php:74 | wp_parse_args: the supplied options over the command's base; ShapedOption, CommandArgsFind and NullDefaultsSent state that a supplied option wins and an absent one keeps its default |
| VdcCommands.SetupConfig | includes/wp-cli/includes/class-vdc-command.php:105-112 | the configuration takes SSL verification from ssl_verify and debug from vdc_debug, and nothing else changes |
| VdcCommands.Trimmed | includes/wp-cli/class-offers-command.php:77 | after the unset, vdc_debug is gone, ssl_verify is kept, and every name other than vdc_debug and verify is unchanged |
| VdcCommands.MappedUntouched | includes/wp-cli/includes/class-vdc-command.php:131-133 | a name the mapping does not touch keeps its value |
| VdcCommands.RenamedToExactly | includes/wp-cli/includes/class-vdc-command.php:128-129 | a name other than the target is renamed to it exactly when it is the mapped option |
| VdcCommands.MappedRenamed | includes/wp-cli/includes/class-vdc-command.php:128-129 | a renamed option is sent under its new name with its value |
| VdcCommands.SentUnder | includes/wp-cli/includes/class-vdc-command.php:127-134 | when exactly the arguments named from are renamed to to, to carries from's value |
| VdcCommands.RenameAvoids | includes/wp-cli/includes/class-vdc-command.php:128-133 | nothing is renamed to a mapped option name that is no target |
| VdcCommands.MappedAway | includes/wp-cli/includes/class-vdc-command.php:128-129 | a renamed option is not sent under its own name |
| VdcCommands.MappedEntry | includes/wp-cli/includes/class-vdc-command.php:127-134 | under a proper mapping each renamed option is sent under its new name and not under its own |
| VdcCommands.Nulls | includes/wp-cli/class-data-command.php:55-57 | a defaults table of nulls has exactly the given names, each null |
| VdcCommands.ArrayOfNulls | includes/wp-cli/class-data-command.php:55-57 | such a table holds null exactly under its names |
| VdcCommands.ArrayOfLast | includes/wp-cli/class-eligibility-command.php:75-82 | an array literal holds each name with its last value |
| VdcCommands.ArrayOfAbsent | includes/wp-cli/class-eligibility-command.php:75-82 | an array literal holds no name outside its entries |
| VdcCommands.ArrayOf | includes/wp-cli/class-eligibility-command.php:75-82 | a PHP array literal, its entries assigned in order; ArrayOfLast, ArrayOfAbsent and ArrayOfNulls state what it holds |
| VdcCommands.PrepareParams | includes/wp-cli/class-offers-command.php:76-79 | the shared command steps: configure from the merged options, unset, map |
| VdcCommands.ShapedKeeps | includes/wp-cli/class-offers-command.php:77-79 | an untouched option is sent unchanged, except vdc_debug, which is never sent |
| VdcCommands.ShapedOption | includes/wp-cli/class-offers-command.php:74-79 | an untouched option is sent with the supplied value when there is one, otherwise its default |
| VdcCommands.ShapedRenamedOption | includes/wp-cli/class-offers-command.php:74-79 | a renamed option is sent under its new name with the supplied value or its default, and not under its own |
| VdcCommands.NullBases | includes/wp-cli/class-offers-command.php:360 | null defaults merged either way with the common options hold ssl_verify true, vdc_debug false and null under each name |
| VdcCommands.NullDefaultsSent | includes/wp-cli/class-offers-command.php:68-79 | a command sends every null-default option it does not rename, with the supplied value or null, sends ssl_verify, and never sends vdc_debug |
| VdcCommands.ConfigSettings | includes/wp-cli/includes/class-vdc-command.php:105-112 | SSL verification is ssl_verify (true unless supplied), debug is vdc_debug (false unless supplied) |
| VdcCommands.NullBaseSettings | includes/wp-cli/class-offers-command.php:360-362 | the same over null defaults, whichever way the merge is nested |
| VdcCommands.CommonOptionsSent | includes/wp-cli/class-offers-command.php:77 | ssl_verify is sent (true unless supplied) because the unset names verify; vdc_debug is never sent |
| VdcCommands.NullOptionSent | includes/wp-cli/class-eligibility-command.php:179 | an option with a null default is sent under its own name, null unless supplied |
| OffersCommands.ByOfferId | includes/wp-cli/class-offers-command.php:67-84 | configures the client from ssl_verify / vdc_debug; the parameters are the shaped options with offerid set to the comma-joined ids |
| OffersCommands.ByContentId | includes/wp-cli/class-offers-command.php:116-133 | as byofferid, with contentid |
| OffersCommands.ByFilter | includes/wp-cli/class-offers-command.php:283-332 | configures the client; the parameters are the shaped options |
| OffersCommands.All | includes/wp-cli/class-offers-command.php:355-369 | configures the client; the parameters are the shaped options over the nested merge |
| OffersCommands.MappingLeaves | includes/wp-cli/class-offers-command.php:33-35 | the mapping touches only non_card_attribute and non_cardAttribute |
| OffersCommands.ByIdNamesApart | includes/wp-cli/class-offers-command.php:68-73 | byofferid's option names are none of the names treated apart |
| OffersCommands.ByFilterNamesApart | includes/wp-cli/class-offers-command.php:284-321 | byfilter's option names are none of the names treated apart |
| OffersCommands.AllNamesApart | includes/wp-cli/class-offers-command.php:356-359 | all's option names are none of the names treated apart |
| OffersCommands.LeavesOptions | includes/wp-cli/class-offers-command.php:33-35 | every option but non_card_attribute, and both common options, pass through unrenamed |
| OffersCommands.NullDefaultsOf | includes/wp-cli/class-offers-command.php:323-328 | each option of a defaults table but non_card_attribute is sent, null unless supplied; ssl_verify is sent and vdc_debug is not |
| OffersCommands.IdParamsSent | includes/wp-cli/class-offers-command.php:79-80 | setting the id after mapping overrides any mapped value and keeps every other sent option |
| OffersCommands.ByIdParamsContents | includes/wp-cli/class-offers-command.php:67-133 | the id parameter is the comma-joined ids; every default option is sent, null unless supplied; ssl_verify is sent; vdc_debug is not |
| OffersCommands.ByIdParams | includes/wp-cli/class-offers-command.php:74-80 | byofferid's and bycontentid's parameters; IdParamsSent and ByIdParamsContents state the id and every default sent |
| OffersCommands.ByFilterParamsContents | includes/wp-cli/class-offers-command.php:283-332 | every default option but non_card_attribute is sent, null unless supplied; ssl_verify is sent; vdc_debug is not |
| OffersCommands.AllParamsContents | includes/wp-cli/class-offers-command.php:355-369 | start_index and max_offers are sent, null unless supplied; ssl_verify is sent; vdc_debug is not |
| OffersCommands.NonCardAttributeRenamed | includes/wp-cli/class-offers-command.php:33-35 | non_card_attribute is sent as non_cardAttribute with its value, and not under its own name |
| OffersCommands.RenamedBase | includes/wp-cli/class-offers-command.php:284-323 | byfilter's merged defaults hold non_card_attribute as null and no non_cardAttribute |
| OffersCommands.ByFilterRenames | includes/wp-cli/class-offers-command.php:323-328 | byfilter sends non_card_attribute as non_cardAttribute, null unless supplied, and not under its own name |
| DataCommands.MerchantAddress | includes/wp-cli/class-data-command.php:54-68 | configures the client; the parameters are the shaped options with merchantIds set to the comma-joined ids |
| DataCommands.Merchant | includes/wp-cli/class-data-command.php:91-105 | configures the client; the parameters are the shaped options |
| DataCommands.Ref | includes/wp-cli/class-data-command.php:131-147 | configures the client; the parameters are the shaped options |
| DataCommands.MerchantAddressNamesApart | includes/wp-cli/class-data-command.php:55-57 | merchantAddress's option names are none of the names treated apart |
| DataCommands.MerchantNamesApart | includes/wp-cli/class-data-command.php:92-95 | merchant's option names are none of the names treated apart |
| DataCommands.RefNamesApart | includes/wp-cli/class-data-command.php:132-136 | ref's option names are none of the names treated apart |
| DataCommands.LeavesOptions | includes/wp-cli/class-data-command.php:29-31 | every option but program_ids, and both common options, pass through unrenamed |
| DataCommands.NullDefaultsOf | includes/wp-cli/class-data-command.php:58-63 | each option of a defaults table but program_ids is sent, null unless supplied; ssl_verify is sent and vdc_debug is not |
| DataCommands.MerchantAddressParamsContents | includes/wp-cli/class-data-command.php:54-68 | merchantIds is the comma-joined ids; start_index is sent, null unless supplied; ssl_verify is sent; vdc_debug is not |
| DataCommands.MerchantAddressParams | includes/wp-cli/class-data-command.php:58-64 | merchantAddress's parameters; MerchantAddressParamsContents states merchantIds and start_index as sent |
| DataCommands.MerchantParamsContents | includes/wp-cli/class-data-command.php:91-105 | start_index and program are sent, null unless supplied; ssl_verify is sent; vdc_debug is not |
| DataCommands.RefParamsContents | includes/wp-cli/class-data-command.php:131-147 | resources and languages are sent, null unless supplied; ssl_verify is sent; vdc_debug is not |
| DataCommands.ProgramIdsRenamed | includes/wp-cli/class-data-command.php:29-31 | program_ids is sent as programIds with its value, and not under its own name |
| DataCommands.RenamedBase | includes/wp-cli/class-data-command.php:132-138 | ref's merged defaults hold program_ids as null and no programIds |
| DataCommands.RefRenames | includes/wp-cli/class-data-command.php:138-143 | ref sends program_ids as programIds, null unless supplied, and not under its own name |
| EligibilityCommands.WithExpiration | includes/wp-cli/class-eligibility-command.php:88-92 | a non-empty expiration_date is replaced by its parts; an empty one, and every other option, is left as it is |
| EligibilityCommands.ValidateDefaults | includes/wp-cli/class-eligibility-command.php:75-82 | validate's defaults: vendor id, current time, correlation id and three nulls; ValidateAligned and DefaultsApart state their names and order |
| EligibilityCommands.PrepayDefaults | includes/wp-cli/class-eligibility-command.php:129-132 | prepay's defaults: vendor id and current time; PrepayAligned and DefaultsApart state their names |
| EligibilityCommands.RedeemDefaults | includes/wp-cli/class-eligibility-command.php:176-180 | redeem's defaults: as prepay's, plus mode as null; RedeemAligned, ModeUntouched and DefaultsApart state their names |
| EligibilityCommands.CommandArgs | includes/wp-cli/class-eligibility-command.php:83-86 | the supplied options over the defaults over the common options, with vdc_debug and verify unset; CommandArgsFind and OptionsCommon state each option's value |
| EligibilityCommands.Expiration | includes/wp-cli/class-eligibility-command.php:88-92 | the value sent for an expiration date: its Month/Year parts when it is non-empty, itself otherwise; WithExpiration and ValidateSends state where it is sent |
| EligibilityCommands.FirstArg | includes/wp-cli/class-eligibility-command.php:95 | array_shift on the positional arguments: the first one, or null when there is none; ValidateDataCommon and PostDataCommon state that it is sent as permanentAccountNumber |
| EligibilityCommands.ValidateBody | includes/wp-cli/class-eligibility-command.php:83-95 | the step-by-step body of validate produces the specified data and configures the client from ssl_verify / vdc_debug |
| EligibilityCommands.Validate | includes/wp-cli/class-eligibility-command.php:74-99 | validate's data and configuration, over its defaults |
| EligibilityCommands.PostBody | includes/wp-cli/class-eligibility-command.php:133-139 | the shared body of prepay and redeem produces the specified data and configuration |
| EligibilityCommands.Prepay | includes/wp-cli/class-eligibility-command.php:128-143 | prepay's data and configuration, without expiration reshaping |
| EligibilityCommands.Redeem | includes/wp-cli/class-eligibility-command.php:175-191 | redeem's data and configuration, without expiration reshaping |
| EligibilityCommands.ExpirationRoundTrip | includes/wp-cli/class-eligibility-command.php:89-91 | "month/year" splits into Month = month and Year = year |
| EligibilityCommands.ExpirationDropsRest | includes/wp-cli/class-eligibility-command.php:89 | whatever follows a second slash is dropped |
| EligibilityCommands.ExpirationWithoutSlash | includes/wp-cli/class-eligibility-command.php:89-91 | a date without a slash is all month, and Year is null |
| EligibilityCommands.ExpirationParts | includes/wp-cli/class-eligibility-command.php:89-91 | the date split into Month and Year; ExpirationRoundTrip, ExpirationDropsRest and ExpirationWithoutSlash state the split |
| EligibilityCommands.ValidateData | includes/wp-cli/class-eligibility-command.php:83-95 | validate's body; ValidateDataContents, ValidateDataCommon and ValidateVendorAndExpiration state its contents |
| EligibilityCommands.PostData | includes/wp-cli/class-eligibility-command.php:133-139 | prepay's and redeem's body; PrepayDataContents, RedeemDataContents and PostDataCommon state its contents |
| EligibilityCommands.MappingProper | includes/wp-cli/class-eligibility-command.php:29-36 | the mapping's targets are distinct from one another and from the names it renames |
| EligibilityCommands.DistinctTargets | includes/wp-cli/class-eligibility-command.php:29-36 | no two options map to the same parameter name |
| EligibilityCommands.MappingApart | includes/wp-cli/class-eligibility-command.php:29-36 | the mapping touches none of the names the commands treat apart, and expiration_date is its last name |
| EligibilityCommands.DefaultsApart | includes/wp-cli/class-eligibility-command.php:75-180 | no defaults table holds a common option |
| EligibilityCommands.CommonSettings | includes/wp-cli/class-eligibility-command.php:83-85 | every eligibility command configures SSL verification from ssl_verify (true unless supplied) and debug from vdc_debug (false unless supplied) |
| EligibilityCommands.ValidateAligned | includes/wp-cli/class-eligibility-command.php:29-82 | validate's defaults list the mapping's names in its order |
| EligibilityCommands.PrepayAligned | includes/wp-cli/class-eligibility-command.php:129-132 | prepay's defaults follow the mapping's order |
| EligibilityCommands.RedeemAligned | includes/wp-cli/class-eligibility-command.php:176-180 | redeem's defaults follow the mapping's order, plus mode, which the mapping does not touch |
| EligibilityCommands.ModeUntouched | includes/wp-cli/class-eligibility-command.php:179 | mode is neither an option name nor a parameter name of the mapping |
| EligibilityCommands.AlignedEntry | includes/wp-cli/class-eligibility-command.php:75-82 | an aligned default is the value of its name in the defaults array, and its parameter name is absent |
| EligibilityCommands.CommandArgsFind | includes/wp-cli/class-eligibility-command.php:83-86 | after the merge and the unsets an option is the supplied value, else its default |
| EligibilityCommands.OptionsHold | includes/wp-cli/class-eligibility-command.php:83-86 | a mapped option holds the supplied value or its default, and its parameter name is not yet set |
| EligibilityCommands.PostDataSends | includes/wp-cli/class-eligibility-command.php:133-138 | prepay and redeem send a mapped option under its parameter name, with the supplied value or its default, and not under its own |
| EligibilityCommands.ValidateSends | includes/wp-cli/class-eligibility-command.php:83-94 | validate sends a mapped option the same way, with the expiration date split when non-empty |
| EligibilityCommands.ValidateSendsAll | includes/wp-cli/class-eligibility-command.php:83-94 | the same for every option of an aligned defaults table |
| EligibilityCommands.CommonUntouched | includes/wp-cli/class-eligibility-command.php:29-36 | the mapping touches neither common option |
| EligibilityCommands.ValidateCommon | includes/wp-cli/class-eligibility-command.php:86-95 | validate sends the card number, ssl_verify (true unless supplied) and never vdc_debug |
| EligibilityCommands.ExpirationKeepsCommon | includes/wp-cli/class-eligibility-command.php:86-92 | the expiration split leaves ssl_verify as set and vdc_debug unset |
| EligibilityCommands.OptionsCommon | includes/wp-cli/class-eligibility-command.php:83-86 | merging and trimming keeps ssl_verify true unless supplied and removes vdc_debug |
| EligibilityCommands.PostDataCommon | includes/wp-cli/class-eligibility-command.php:133-187 | prepay and redeem send the card number, ssl_verify (true unless supplied), never vdc_debug, and every other untouched supplied option as supplied |
| EligibilityCommands.PostDataOver | includes/wp-cli/class-eligibility-command.php:133-139 | the same over any mapping fit for these commands |
| EligibilityCommands.ValidateDataCommon | includes/wp-cli/class-eligibility-command.php:86-95 | validate sends the first positional argument as permanentAccountNumber, ssl_verify, and no vdc_debug |
| EligibilityCommands.ValidateDataContents | includes/wp-cli/class-eligibility-command.php:74-95 | validate sends each default option under its camel-case name, supplied or default, the expiration date split when non-empty, and none under its own name |
| EligibilityCommands.PrepayDataContents | includes/wp-cli/class-eligibility-command.php:128-139 | prepay sends vendorUniqueId and requestTimeStamp, supplied or default, and not under their own names |
| EligibilityCommands.RedeemDataContents | includes/wp-cli/class-eligibility-command.php:175-187 | redeem sends what prepay sends, and mode, null unless supplied |
| EligibilityCommands.ValidateVendorAndExpiration | includes/wp-cli/class-eligibility-command.php:76-94 | validate sends the project's vendor id unless one is supplied, and a supplied expiration date split into month and year |

## Left out

- The cURL transport is a parameter `send` from request to raw response. Left out with it:
  - the wiring of timeouts, proxy, certificates, SSL verification and verbose mode into cURL options (class-api-client.php:162-209, 251-276);
  - the setting of the user agent.
- Debug logging through `error_log` and `fopen` is output only and not modelled.
- `Configuration::toDebugReport` queries the environment (`php_uname`, `phpversion`) and is not modelled.
- The clock (`time()`, `date()`), `wp_generate_password` and `Project_Config::getDefaultVendorUniqueId()` are parameters. The format of the date text is not modelled.
- `base64_encode`, `json_encode`, `json_decode`, `http_build_query` and `hash_hmac` are uninterpreted functions in `Codecs`. `json_decode` failure stands for `json_last_error() > 0`.
- The arguments `$resourcePath`, `$responseType` and `$endpointPath` of `callApi` are unused by its body and not modelled.
- The status-0 message keeps the source's two wordings, chosen by whether the cURL error text is empty. `sprintf`'s formatting beyond plain substitution is not modelled.
- The untranslated message strings stand for `__()`, whose translation is WordPress code.
- These setters and their getters are plain field assignments, not exercised by the modelled code, and not modelled: `setAccessToken`, the proxy setters (`setCurlProxyHost`, `setCurlProxyPort`, `setCurlProxyType`, `setCurlProxyUser`, `setCurlProxyPassword`), `setDebugFile` and `setTempFolderPath`.
- The plain getters are read as the fields themselves.
- Configurations.Configuration.SetCurlTimeout: `is_numeric` is modelled for integers and integer text only, so floats, exponents, and the leading and (since PHP 8) trailing whitespace that `is_numeric` accepts are not modelled. `Configurations.Configuration.SetCurlConnectTimeout` has the same limit.
- `array_merge` renumbers integer-like string keys, and PHP arrays turn such keys into integers. The model keeps every key as a string. A default header named "123" is sent by the source as "0: …"; the model sends "123: …". `map_params` and `wp_parse_args` are affected the same way.
- PHP strings are byte strings; the model uses sequences of characters. `trim`, `explode`, `strlen`-based lengths and the HMAC input are stated over characters, so multi-byte text is not modelled at the byte level.
- `ksort` is modelled as lexicographic order on string keys. PHP's comparison of numeric-string keys is not modelled.
- `OrderedMaps.KSort`'s permutation is stated as a multiset of entries.
- A PHP object passed where an array is expected is not modelled. Bodies and parameters are arrays (`Dict`).
- The command methods return the parameters they would hand to `call_api`. `call_api` itself is WP-CLI output and dispatch (`method_exists`, the dynamic call, pretty printing, `WP_CLI::error`) and is not modelled.
- The command constructors only create the endpoint object and are not modelled.
- `wp_parse_args` is a merge in which the supplied keys win.
- `list($month, $year) = explode(...)` on a date without a slash gives a null year. The model gives null; the PHP notice is not modelled.
- `plugin.php` registers WordPress hooks and writes files. It is not part of this model.
- The ordering lemmas (for example `OrderedMaps.LexLessTransitive`) and the other helper lemmas without a row are proof steps, not claims about the source.

## Findings

| source | as written | input that shows it | evidently intended | confidence | as-written member | corrected member |
|---|---|---|---|---|---|---|
| includes/api/includes/class-api-base.php:78 | `empty( $$params[ $param ] )`, a variable variable, reads the local variable named by the array, which PHP converts to the string "Array"; no such variable exists, so every required name is judged missing | params `["contentid" => "42"]` with required `["contentid"]`: the check throws "Missing required parameter `contentid`." although contentid is supplied | `empty( $params[ $param ] )`: throw for the first required name that is missing or empty, otherwise return true | not executed | ApiBases.RequiredCheckAsWritten, ApiBases.AsWrittenRejectsSuppliedName | ApiBases.RequiredCheck, ApiBases.CheckRequiredParams |
