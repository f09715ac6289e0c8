/** The client configuration: a mutable settings record with validating
    setters, keyed stores for API keys, key prefixes and default headers, the
    x-pay-token signer, and the process-wide default instance. */
module Configurations {
  import opened Wrappers
  import opened Strings
  import opened OrderedMaps
  import opened PhpValues
  import opened ApiExceptions

  const DefaultHost := "https://sandbox.api.visa.com"
  const DefaultUserAgent := "VDP_SampleCode_Php"
  const DefaultDebugFile := "php://output"

  /** The API key identifier whose key is computed rather than stored. */
  const XPayTokenId := "x-pay-token"

  /** The project settings the constructor copies in. */
  datatype ProjectConfig = ProjectConfig(
    username: Value,
    password: Value,
    certificatePath: Value,
    privateKeyPath: Value,
    caCertPath: Value)

  /** A decimal integer literal with an optional sign. */
  predicate IsIntegerText(s: string)
  {
    if |s| > 0 && (s[0] == '-' || s[0] == '+') then |s| > 1 && AllDigits(s[1..])
    else |s| > 0 && AllDigits(s)
  }

  /** is_numeric for integers and integer strings. */
  predicate IsNumeric(v: Value)
  {
    v.VInt? || (v.VStr? && IsIntegerText(v.s))
  }

  /** $v < 0 for a numeric value. */
  predicate IsNegative(v: Value)
    requires IsNumeric(v)
  {
    if v.VInt? then v.i < 0
    else v.s[0] == '-' && ParseDec(v.s[1..]) > 0
  }

  /** What the timeout setters accept: a number that is not negative. */
  predicate ValidTimeout(v: Value)
  {
    IsNumeric(v) && !IsNegative(v)
  }

  /** A timeout given as the decimal text of an integer is accepted exactly
      when the integer is not negative; 0, which means no timeout, is
      accepted. */
  lemma DecimalTimeout(n: int)
    ensures ValidTimeout(VStr(IntToDec(n))) <==> n >= 0
    ensures ValidTimeout(VInt(n)) <==> n >= 0
  {
    if n < 0 {
      NegativeText(n);
    } else {
      NonNegativeText(n);
    }
  }

  /** The text of a negative integer is numeric and negative. */
  lemma NegativeText(n: int)
    requires n < 0
    ensures IsNumeric(VStr(IntToDec(n))) && IsNegative(VStr(IntToDec(n)))
  {
    var digits := NatToDec(-n);
    ParseNatToDec(-n);
    MinusDigits(digits);
    assert IntToDec(n) == "-" + digits;
  }

  /** A minus sign before the digits of a positive number. */
  lemma MinusDigits(digits: string)
    requires |digits| >= 1 && AllDigits(digits) && ParseDec(digits) > 0
    ensures IsNumeric(VStr("-" + digits)) && IsNegative(VStr("-" + digits))
  {
    var s := "-" + digits;
    assert s[0] == '-' && s[1..] == digits;
  }

  /** The text of any other integer is its digits. */
  lemma NonNegativeText(n: int)
    requires n >= 0
    ensures IsNumeric(VStr(IntToDec(n))) && !IsNegative(VStr(IntToDec(n)))
  {
    assert IntToDec(n) == NatToDec(n);
    assert IsDigit(NatToDec(n)[0]);
  }

  /** The request body as the signer reads it: arrays as their JSON text,
      loosely-null values (null, false, 0, "", an empty array) as "", any
      other value as its string form. */
  function BodyString(body: Value, codecs: Codecs): (r: string)
    ensures IsArray(body) ==> r == codecs.jsonEncode(body)
    ensures !IsArray(body) && LooselyNull(body) ==> r == ""
    ensures body.VStr? && body.s != "" ==> r == body.s
  {
    if IsArray(body) then codecs.jsonEncode(body)
    else if LooselyNull(body) then ""
    else StrOf(body)
  }

  /** The text that is signed: the timestamp, the resource path, the query
      string of the key-sorted parameters, and the body string. */
  function PreHash(queryParams: Dict, resourcePath: string, body: Value, time: nat, codecs: Codecs): string
  {
    NatToDec(time) + resourcePath + codecs.buildQuery(VMap(KSort(queryParams))) + BodyString(body, codecs)
  }

  /** The x-pay-token for a request signed at time (seconds since the epoch)
      with the shared secret, null counting as the empty key. */
  function XPayToken(secret: Value, queryParams: Dict, resourcePath: string, body: Value, time: nat, codecs: Codecs): string
  {
    "xv2:" + NatToDec(time) + ":" + codecs.hmacSha256Hex(PreHash(queryParams, resourcePath, body, time, codecs), StrOf(secret))
  }

  /** Reads an x-pay-token back: its timestamp and its MAC. */
  function ReadXPayToken(token: string): Option<(nat, string)>
  {
    match SplitColon(token)
    case Some((scheme, rest)) =>
      if scheme != "xv2" then None
      else (
        match SplitColon(rest)
        case Some((stamp, mac)) =>
          if stamp != "" && AllDigits(stamp) then Some((ParseDec(stamp), mac)) else None
        case None => None)
    case None => None
  }

  /** A token is "xv2:", the timestamp in decimal, ":" and the HMAC of the
      signed text: reading it back gives the time and that HMAC. */
  lemma XPayTokenReadBack(secret: Value, queryParams: Dict, resourcePath: string, body: Value, time: nat, codecs: Codecs)
    ensures ReadXPayToken(XPayToken(secret, queryParams, resourcePath, body, time, codecs))
      == Some((time, codecs.hmacSha256Hex(PreHash(queryParams, resourcePath, body, time, codecs), StrOf(secret))))
  {
    var stamp := NatToDec(time);
    var mac := codecs.hmacSha256Hex(PreHash(queryParams, resourcePath, body, time, codecs), StrOf(secret));
    var token := XPayToken(secret, queryParams, resourcePath, body, time, codecs);
    assert token == "xv2" + ":" + (stamp + ":" + mac);
    SplitColonOf("xv2", stamp + ":" + mac);
    assert ':' !in stamp by {
      forall k | 0 <= k < |stamp| ensures stamp[k] != ':' {
        assert IsDigit(stamp[k]);
      }
    }
    SplitColonOf(stamp, mac);
    ParseNatToDec(time);
  }

  /** Tokens made at different times differ. */
  lemma XPayTokenTimestamp(secret: Value, q1: Dict, p1: string, b1: Value, t1: nat,
                           q2: Dict, p2: string, b2: Value, t2: nat, codecs: Codecs)
    requires XPayToken(secret, q1, p1, b1, t1, codecs) == XPayToken(secret, q2, p2, b2, t2, codecs)
    ensures t1 == t2
  {
    XPayTokenReadBack(secret, q1, p1, b1, t1, codecs);
    XPayTokenReadBack(secret, q2, p2, b2, t2, codecs);
  }

  /** The query parameters are sorted by key before signing, so the order in
      which the caller listed them does not change the token. */
  lemma XPayTokenQueryOrder(secret: Value, q1: Dict, q2: Dict, resourcePath: string, body: Value, time: nat, codecs: Codecs)
    requires forall k :: Find(q1, k) == Find(q2, k)
    ensures XPayToken(secret, q1, resourcePath, body, time, codecs) == XPayToken(secret, q2, resourcePath, body, time, codecs)
  {
    SortedDetermined(KSort(q1), KSort(q2));
  }

  class Configuration {
    var apiKeys: Dict
    var apiKeyPrefixes: Dict
    var accessToken: Value
    var username: Value
    var password: Value
    var defaultHeaders: Dict
    var host: Value
    var curlTimeout: Value
    var curlConnectTimeout: Value
    var userAgent: Value
    var debug: Value
    var debugFile: Value
    var tempFolderPath: Value
    var sslVerification: Value
    var proxyHost: Value
    var proxyPort: Value
    var proxyType: Value
    var proxyUser: Value
    var proxyPassword: Value
    var certificatePath: Value
    var privateKey: Value
    var caCertPath: Value
    var sharedSecret: Value

    /** The state of a freshly constructed configuration. */
    ghost predicate IsNew(project: ProjectConfig, tempDir: string)
      reads this
    {
      && apiKeys == [] && apiKeyPrefixes == [] && defaultHeaders == []
      && accessToken == VStr("")
      && username == project.username && password == project.password
      && host == VStr(DefaultHost)
      && curlTimeout == VInt(0) && curlConnectTimeout == VInt(0)
      && userAgent == VStr(DefaultUserAgent)
      && debug == VBool(false) && debugFile == VStr(DefaultDebugFile)
      && tempFolderPath == VStr(tempDir)
      && sslVerification == VBool(false)
      && proxyHost == VNull && proxyPort == VNull && proxyType == VNull
      && proxyUser == VNull && proxyPassword == VNull
      && certificatePath == project.certificatePath
      && privateKey == project.privateKeyPath
      && caCertPath == project.caCertPath
      && sharedSecret == VNull
    }

    /** The field initialisers, the project settings copied in (the source
        does this through the plain setters), then SSL verification switched
        off through its setter although the initialiser says on. The shared
        secret is not set. */
    constructor(project: ProjectConfig, tempDir: string)
      ensures IsNew(project, tempDir)
    {
      apiKeys := [];
      apiKeyPrefixes := [];
      accessToken := VStr("");
      defaultHeaders := [];
      host := VStr(DefaultHost);
      curlTimeout := VInt(0);
      curlConnectTimeout := VInt(0);
      userAgent := VStr(DefaultUserAgent);
      debug := VBool(false);
      debugFile := VStr(DefaultDebugFile);
      sslVerification := VBool(true);
      proxyHost := VNull;
      proxyPort := VNull;
      proxyType := VNull;
      proxyUser := VNull;
      proxyPassword := VNull;
      sharedSecret := VNull;
      tempFolderPath := VStr(tempDir);
      username := project.username;
      password := project.password;
      certificatePath := project.certificatePath;
      privateKey := project.privateKeyPath;
      caCertPath := project.caCertPath;
      new;
      var c := SetSSLVerification(VBool(false));
    }

    method SetApiKey(apiKeyIdentifier: string, key: Value) returns (self: Configuration)
      modifies this`apiKeys
      ensures self == this
      ensures apiKeys == Put(old(apiKeys), apiKeyIdentifier, key)
      ensures Lookup(apiKeys, apiKeyIdentifier) == key
      ensures forall j :: j != apiKeyIdentifier ==> Find(apiKeys, j) == Find(old(apiKeys), j)
    {
      apiKeys := Put(apiKeys, apiKeyIdentifier, key);
      self := this;
    }

    /** getApiKey: the x-pay-token computed for the request when the
        identifier is "x-pay-token", otherwise the stored key or null. */
    function GetApiKey(apiKeyIdentifier: string, queryParams: Dict, resourcePath: string, body: Value,
                       time: nat, codecs: Codecs): (v: Value)
      reads this
      ensures apiKeyIdentifier == XPayTokenId ==>
        v == VStr(XPayToken(sharedSecret, queryParams, resourcePath, body, time, codecs))
      ensures apiKeyIdentifier != XPayTokenId && apiKeyIdentifier !in Keys(apiKeys) ==> v == VNull
      ensures apiKeyIdentifier != XPayTokenId && apiKeyIdentifier in Keys(apiKeys) ==>
        Find(apiKeys, apiKeyIdentifier) == Some(v)
    {
      if apiKeyIdentifier == XPayTokenId then VStr(XPayToken(sharedSecret, queryParams, resourcePath, body, time, codecs))
      else Lookup(apiKeys, apiKeyIdentifier)
    }

    method SetApiKeyPrefix(apiKeyIdentifier: string, prefix: Value) returns (self: Configuration)
      modifies this`apiKeyPrefixes
      ensures self == this
      ensures apiKeyPrefixes == Put(old(apiKeyPrefixes), apiKeyIdentifier, prefix)
      ensures GetApiKeyPrefix(apiKeyIdentifier) == prefix
      ensures forall j :: j != apiKeyIdentifier ==> Find(apiKeyPrefixes, j) == Find(old(apiKeyPrefixes), j)
    {
      apiKeyPrefixes := Put(apiKeyPrefixes, apiKeyIdentifier, prefix);
      self := this;
    }

    /** getApiKeyPrefix: the stored prefix, or null. */
    function GetApiKeyPrefix(apiKeyIdentifier: string): (v: Value)
      reads this
      ensures apiKeyIdentifier !in Keys(apiKeyPrefixes) ==> v == VNull
      ensures apiKeyIdentifier in Keys(apiKeyPrefixes) ==> Find(apiKeyPrefixes, apiKeyIdentifier) == Some(v)
    {
      Lookup(apiKeyPrefixes, apiKeyIdentifier)
    }

    method SetUsername(u: Value) returns (self: Configuration)
      modifies this`username
      ensures self == this && username == u
    {
      username := u;
      self := this;
    }

    method SetPassword(p: Value) returns (self: Configuration)
      modifies this`password
      ensures self == this && password == p
    {
      password := p;
      self := this;
    }

    /** addDefaultHeader: a name that is not a string is rejected and the
        headers stay as they were; otherwise that one entry is set. */
    method AddDefaultHeader(headerName: Value, headerValue: Value) returns (r: Result<Configuration, Exception>)
      modifies this`defaultHeaders
      ensures !headerName.VStr? ==>
        r == Failure(InvalidArgument("Header name must be a string.")) && defaultHeaders == old(defaultHeaders)
      ensures headerName.VStr? ==>
        r == Success(this) && defaultHeaders == Put(old(defaultHeaders), headerName.s, headerValue)
    {
      if !headerName.VStr? {
        return Failure(InvalidArgument("Header name must be a string."));
      }
      defaultHeaders := Put(defaultHeaders, headerName.s, headerValue);
      r := Success(this);
    }

    /** deleteDefaultHeader: only the named entry goes; an absent name
        leaves the headers as they were. */
    method DeleteDefaultHeader(headerName: string) returns (self: Configuration)
      modifies this`defaultHeaders
      ensures self == this
      ensures defaultHeaders == Remove(old(defaultHeaders), headerName)
      ensures headerName !in Keys(old(defaultHeaders)) ==> defaultHeaders == old(defaultHeaders)
    {
      if headerName !in Keys(defaultHeaders) {
        RemoveAbsent(defaultHeaders, headerName);
      }
      defaultHeaders := Remove(defaultHeaders, headerName);
      self := this;
    }

    method SetHost(h: Value) returns (self: Configuration)
      modifies this`host
      ensures self == this && host == h
    {
      host := h;
      self := this;
    }

    /** setUserAgent: anything but a string is rejected without a change. */
    method SetUserAgent(ua: Value) returns (r: Result<Configuration, Exception>)
      modifies this`userAgent
      ensures !ua.VStr? ==> r == Failure(InvalidArgument("User-agent must be a string.")) && userAgent == old(userAgent)
      ensures ua.VStr? ==> r == Success(this) && userAgent == ua
    {
      if !ua.VStr? {
        return Failure(InvalidArgument("User-agent must be a string."));
      }
      userAgent := ua;
      r := Success(this);
    }

    /** setCurlTimeout: a non-numeric or negative value is rejected without a
        change. */
    method SetCurlTimeout(seconds: Value) returns (r: Result<Configuration, Exception>)
      modifies this`curlTimeout
      ensures !ValidTimeout(seconds) ==>
        r == Failure(InvalidArgument("Timeout value must be numeric and a non-negative number."))
        && curlTimeout == old(curlTimeout)
      ensures ValidTimeout(seconds) ==> r == Success(this) && curlTimeout == seconds
    {
      if !IsNumeric(seconds) || IsNegative(seconds) {
        return Failure(InvalidArgument("Timeout value must be numeric and a non-negative number."));
      }
      curlTimeout := seconds;
      r := Success(this);
    }

    /** setCurlConnectTimeout: as setCurlTimeout, with its own message. */
    method SetCurlConnectTimeout(seconds: Value) returns (r: Result<Configuration, Exception>)
      modifies this`curlConnectTimeout
      ensures !ValidTimeout(seconds) ==>
        r == Failure(InvalidArgument("Connect timeout value must be numeric and a non-negative number."))
        && curlConnectTimeout == old(curlConnectTimeout)
      ensures ValidTimeout(seconds) ==> r == Success(this) && curlConnectTimeout == seconds
    {
      if !IsNumeric(seconds) || IsNegative(seconds) {
        return Failure(InvalidArgument("Connect timeout value must be numeric and a non-negative number."));
      }
      curlConnectTimeout := seconds;
      r := Success(this);
    }

    method SetDebug(d: Value) returns (self: Configuration)
      modifies this`debug
      ensures self == this && debug == d
    {
      debug := d;
      self := this;
    }

    method SetSSLVerification(v: Value) returns (self: Configuration)
      modifies this`sslVerification
      ensures self == this && sslVerification == v
    {
      sslVerification := v;
      self := this;
    }

    method SetCertificatePath(p: Value) returns (self: Configuration)
      modifies this`certificatePath
      ensures self == this && certificatePath == p
    {
      certificatePath := p;
      self := this;
    }

    method SetPrivateKey(p: Value) returns (self: Configuration)
      modifies this`privateKey
      ensures self == this && privateKey == p
    {
      privateKey := p;
      self := this;
    }

    method SetCaCertPath(p: Value) returns (self: Configuration)
      modifies this`caCertPath
      ensures self == this && caCertPath == p
    {
      caCertPath := p;
      self := this;
    }

    method SetSharedSecret(secret: Value) returns (self: Configuration)
      modifies this`sharedSecret
      ensures self == this && sharedSecret == secret
    {
      sharedSecret := secret;
      self := this;
    }
  }

  /** The process-wide default configuration, created on first use. */
  class ConfigurationRegistry {
    var defaultConfiguration: Configuration?

    constructor()
      ensures defaultConfiguration == null
    {
      defaultConfiguration := null;
    }

    /** getDefaultConfiguration: the stored instance; when there is none yet,
        a new one is constructed and stored. */
    method GetDefaultConfiguration(project: ProjectConfig, tempDir: string) returns (c: Configuration)
      modifies this
      ensures defaultConfiguration == c
      ensures old(defaultConfiguration) != null ==> c == old(defaultConfiguration)
      ensures old(defaultConfiguration) == null ==> fresh(c) && c.IsNew(project, tempDir)
    {
      if defaultConfiguration == null {
        defaultConfiguration := new Configuration(project, tempDir);
      }
      c := defaultConfiguration;
    }

    /** setDefaultConfiguration: later calls to getDefaultConfiguration
        return config. */
    method SetDefaultConfiguration(config: Configuration)
      modifies this
      ensures defaultConfiguration == config
    {
      defaultConfiguration := config;
    }
  }
}
