/** The eligibility WP-CLI commands: each merges the common options, its
    defaults and the supplied ones, configures the client, and shapes the
    JSON body of its Card Eligibility Service API endpoint, with the card
    number taken from the first positional argument. The default vendor id,
    the current time (already formatted as month/day/year and time) and the
    generated correlation id are parameters. */
module EligibilityCommands {
  import opened Wrappers
  import opened Strings
  import opened OrderedMaps
  import opened PhpValues
  import opened ApiBases
  import opened VdcCommands

  const Mapping: NameMapping := [
    ("vendor_unique_id", "vendorUniqueId"),
    ("request_time_stamp", "requestTimeStamp"),
    ("correlation_id", "correlationId"),
    ("extended_data", "extendedData"),
    ("number_of_additional_redemptions", "numberOfAdditionalRedemptions"),
    ("expiration_date", "expirationDate")]

  const PanName := "permanentAccountNumber"

  /** validate's defaults: the project's vendor id, the current time, a
      fresh correlation id, and three options defaulting to null. */
  function ValidateDefaults(vendor: Value, now: Value, correlationId: string): Entries<Value>
  {
    [("vendor_unique_id", vendor), ("request_time_stamp", now), ("correlation_id", VStr(correlationId)),
     ("extended_data", VNull), ("number_of_additional_redemptions", VNull), ("expiration_date", VNull)]
  }

  /** prepay's defaults: the vendor id and the current time. */
  function PrepayDefaults(vendor: Value, now: Value): Entries<Value>
  {
    [("vendor_unique_id", vendor), ("request_time_stamp", now)]
  }

  /** redeem's defaults: as prepay's, and mode defaulting to null. */
  function RedeemDefaults(vendor: Value, now: Value): Entries<Value>
  {
    [("vendor_unique_id", vendor), ("request_time_stamp", now), ("mode", VNull)]
  }

  /** A command's options once vdc_debug and verify are unset: the supplied
      ones over the defaults, which are merged over the common options. */
  function CommandArgs(defaults: Entries<Value>, assocArgs: Dict): Dict
  {
    Trimmed(Options(Merge(CommonAssocArgs, ArrayOf(defaults)), assocArgs))
  }

  /** The expiration date as validate sends it, from a date "month/year":
      the first piece as Month, the second as Year, or null when there is
      no slash; pieces after a second slash are dropped. */
  function ExpirationParts(date: string): Value
  {
    var parts := Split(date, '/');
    VMap([("Month", VStr(parts[0])), ("Year", if |parts| > 1 then VStr(parts[1]) else VNull)])
  }

  /** A non-empty expiration_date option replaced by its parts. */
  function WithExpiration(args: Dict): (r: Dict)
    ensures forall k :: k != "expiration_date" ==> Find(r, k) == Find(args, k)
    ensures Find(r, "expiration_date") == Some(Expiration(Lookup(args, "expiration_date")))
         || (Find(r, "expiration_date") == None && Find(args, "expiration_date") == None)
  {
    var date := Lookup(args, "expiration_date");
    if Truthy(date) then Put(args, "expiration_date", ExpirationParts(StrOf(date))) else args
  }

  /** The value validate sends for an expiration date: its parts when it is
      non-empty, the value itself otherwise. */
  function Expiration(date: Value): Value
  {
    if Truthy(date) then ExpirationParts(StrOf(date)) else date
  }

  /** array_shift on the positional arguments: the first one, or null when
      there is none. */
  function FirstArg(args: seq<string>): Value
  {
    if args != [] then VStr(args[0]) else VNull
  }

  /** validate's body: the trimmed options with the expiration date split,
      mapped, and the card number set. */
  function ValidateData(vendor: Value, now: Value, correlationId: string, args: seq<string>, assocArgs: Dict): Dict
  {
    Put(MappedParams(Mapping, WithExpiration(CommandArgs(ValidateDefaults(vendor, now, correlationId), assocArgs))),
        PanName, FirstArg(args))
  }

  /** prepay's and redeem's body: the trimmed options, mapped, and the card
      number set. */
  function PostData(defaults: Entries<Value>, args: seq<string>, assocArgs: Dict): Dict
  {
    Put(MappedParams(Mapping, CommandArgs(defaults, assocArgs)), PanName, FirstArg(args))
  }

  /** validate's body over its defaults: configure the client, unset
      vdc_debug and verify, split a non-empty expiration date, map the
      names, set the card number. */
  method ValidateBody(api: ApiBase, defaults: Entries<Value>, args: seq<string>, assocArgs: Dict)
    returns (postData: Dict)
    requires "ssl_verify" !in Keys(defaults) && "vdc_debug" !in Keys(defaults)
    modifies api.apiClient.config`sslVerification, api.apiClient.config`debug
    ensures postData == Put(MappedParams(Mapping, WithExpiration(CommandArgs(defaults, assocArgs))), PanName, FirstArg(args))
    ensures api.apiClient.config.sslVerification == OptionValue(assocArgs, "ssl_verify", VBool(true))
    ensures api.apiClient.config.debug == OptionValue(assocArgs, "vdc_debug", VBool(false))
  {
    var options := Merge(Merge(CommonAssocArgs, ArrayOf(defaults)), assocArgs);
    SetupConfig(api, options);
    CommonSettings(defaults, assocArgs);
    var trimmed := Remove(options, "vdc_debug");
    trimmed := Remove(trimmed, "verify");
    if Truthy(Lookup(trimmed, "expiration_date")) {
      trimmed := Put(trimmed, "expiration_date", ExpirationParts(StrOf(Lookup(trimmed, "expiration_date"))));
    }
    postData := MapParams(Mapping, trimmed);
    postData := Put(postData, PanName, FirstArg(args));
  }

  method Validate(api: ApiBase, vendor: Value, now: Value, correlationId: string, args: seq<string>, assocArgs: Dict)
    returns (postData: Dict)
    modifies api.apiClient.config`sslVerification, api.apiClient.config`debug
    ensures postData == ValidateData(vendor, now, correlationId, args, assocArgs)
    ensures api.apiClient.config.sslVerification == OptionValue(assocArgs, "ssl_verify", VBool(true))
    ensures api.apiClient.config.debug == OptionValue(assocArgs, "vdc_debug", VBool(false))
  {
    DefaultsApart(vendor, now, correlationId);
    postData := ValidateBody(api, ValidateDefaults(vendor, now, correlationId), args, assocArgs);
  }

  /** The body prepay and redeem share: configure the client, shape the
      options, set the card number. */
  method PostBody(api: ApiBase, defaults: Entries<Value>, args: seq<string>, assocArgs: Dict)
    returns (postData: Dict)
    requires "ssl_verify" !in Keys(defaults) && "vdc_debug" !in Keys(defaults)
    modifies api.apiClient.config`sslVerification, api.apiClient.config`debug
    ensures postData == PostData(defaults, args, assocArgs)
    ensures api.apiClient.config.sslVerification == OptionValue(assocArgs, "ssl_verify", VBool(true))
    ensures api.apiClient.config.debug == OptionValue(assocArgs, "vdc_debug", VBool(false))
  {
    var options := Merge(Merge(CommonAssocArgs, ArrayOf(defaults)), assocArgs);
    postData := PrepareParams(api, Mapping, options);
    CommonSettings(defaults, assocArgs);
    postData := Put(postData, PanName, FirstArg(args));
  }

  method Prepay(api: ApiBase, vendor: Value, now: Value, args: seq<string>, assocArgs: Dict)
    returns (postData: Dict)
    modifies api.apiClient.config`sslVerification, api.apiClient.config`debug
    ensures postData == PostData(PrepayDefaults(vendor, now), args, assocArgs)
    ensures api.apiClient.config.sslVerification == OptionValue(assocArgs, "ssl_verify", VBool(true))
    ensures api.apiClient.config.debug == OptionValue(assocArgs, "vdc_debug", VBool(false))
  {
    DefaultsApart(vendor, now, "");
    postData := PostBody(api, PrepayDefaults(vendor, now), args, assocArgs);
  }

  method Redeem(api: ApiBase, vendor: Value, now: Value, args: seq<string>, assocArgs: Dict)
    returns (postData: Dict)
    modifies api.apiClient.config`sslVerification, api.apiClient.config`debug
    ensures postData == PostData(RedeemDefaults(vendor, now), args, assocArgs)
    ensures api.apiClient.config.sslVerification == OptionValue(assocArgs, "ssl_verify", VBool(true))
    ensures api.apiClient.config.debug == OptionValue(assocArgs, "vdc_debug", VBool(false))
  {
    DefaultsApart(vendor, now, "");
    postData := PostBody(api, RedeemDefaults(vendor, now), args, assocArgs);
  }

  /** A date "month/year" splits back into its month and year. */
  lemma ExpirationRoundTrip(month: string, year: string)
    requires '/' !in month && '/' !in year
    ensures ExpirationParts(month + "/" + year) == VMap([("Month", VStr(month)), ("Year", VStr(year))])
  {
    SplitAfterPiece(month, '/', year);
    assert month + "/" + year == month + ['/'] + year;
  }

  /** Whatever follows a second slash is dropped. */
  lemma ExpirationDropsRest(month: string, year: string, rest: string)
    requires '/' !in month && '/' !in year
    ensures ExpirationParts(month + "/" + year + "/" + rest) == ExpirationParts(month + "/" + year)
  {
    ExpirationRoundTrip(month, year);
    SplitAfterPiece(year, '/', rest);
    SplitAfterPiece(month, '/', year + "/" + rest);
    assert month + "/" + year + "/" + rest == month + ['/'] + (year + ['/'] + rest);
  }

  /** A date without a slash is all month, and the year is null. */
  lemma ExpirationWithoutSlash(date: string)
    requires '/' !in date
    ensures ExpirationParts(date) == VMap([("Month", VStr(date)), ("Year", VNull)])
  {
  }

  /** The mapping's targets are distinct from one another and from the
      names it renames. */
  lemma MappingProper()
    ensures ProperMapping(Mapping)
  {
    SnakeCaseNames();
    CamelCaseTargets();
    DistinctTargets();
  }

  /** The option names are snake case, the parameter names camel case. */
  lemma SnakeCaseNames()
    ensures forall i :: 0 <= i < |Mapping| ==> '_' in Mapping[i].0
  {
  }

  lemma CamelCaseTargets()
    ensures forall i :: 0 <= i < |Mapping| ==> '_' !in Mapping[i].1
  {
  }

  lemma DistinctTargets()
    ensures forall i, j :: 0 <= i < j < |Mapping| ==> Mapping[i].1 != Mapping[j].1
  {
  }

  /** A mapping the eligibility commands can use: proper, and apart from the
      names they treat on their own. */
  predicate EligibilityMapping(m: NameMapping)
  {
    && ProperMapping(m)
    && forall i :: 0 <= i < |m| ==>
      && m[i].0 != "vdc_debug" && m[i].0 != "verify" && m[i].0 != "ssl_verify" && m[i].0 != PanName
      && m[i].1 != "vdc_debug" && m[i].1 != "verify" && m[i].1 != "ssl_verify" && m[i].1 != PanName
      && m[i].1 != "expiration_date"
  }

  /** The mapping's names are none of the names the commands treat apart;
      the expiration date is its last name. */
  lemma MappingApart()
    ensures EligibilityMapping(Mapping)
    ensures forall i :: 0 <= i < |Mapping| - 1 ==> Mapping[i].0 != "expiration_date"
    ensures Mapping[|Mapping| - 1].0 == "expiration_date"
  {
    MappingProper();
    NameLengths();
    TargetLengths();
    CamelCaseTargets();
  }

  /** The lengths of the option names and of the parameter names, which
      tell them apart from the other names the commands use. */
  lemma NameLengths()
    ensures forall i :: 0 <= i < |Mapping| ==> |Mapping[i].0| == [16, 18, 14, 13, 32, 15][i]
  {
  }

  lemma TargetLengths()
    ensures forall i :: 0 <= i < |Mapping| ==> 12 <= |Mapping[i].1| && |Mapping[i].1| != |PanName|
  {
  }

  /** No command's defaults hold the common options. */
  lemma DefaultsApart(vendor: Value, now: Value, correlationId: string)
    ensures "ssl_verify" !in Keys(ValidateDefaults(vendor, now, correlationId))
    ensures "vdc_debug" !in Keys(ValidateDefaults(vendor, now, correlationId))
    ensures "ssl_verify" !in Keys(PrepayDefaults(vendor, now)) && "vdc_debug" !in Keys(PrepayDefaults(vendor, now))
    ensures "ssl_verify" !in Keys(RedeemDefaults(vendor, now)) && "vdc_debug" !in Keys(RedeemDefaults(vendor, now))
  {
  }

  /** Every command over these defaults configures SSL verification from
      ssl_verify (true unless supplied) and debugging from vdc_debug (false
      unless supplied). */
  lemma CommonSettings(defaults: Entries<Value>, assocArgs: Dict)
    requires "ssl_verify" !in Keys(defaults) && "vdc_debug" !in Keys(defaults)
    ensures Lookup(Options(Merge(CommonAssocArgs, ArrayOf(defaults)), assocArgs), "ssl_verify")
         == OptionValue(assocArgs, "ssl_verify", VBool(true))
    ensures Lookup(Options(Merge(CommonAssocArgs, ArrayOf(defaults)), assocArgs), "vdc_debug")
         == OptionValue(assocArgs, "vdc_debug", VBool(false))
  {
    ArrayOfAbsent(defaults, "ssl_verify");
    ArrayOfAbsent(defaults, "vdc_debug");
    ConfigSettings(Merge(CommonAssocArgs, ArrayOf(defaults)), assocArgs);
  }

  /** Each default is either the mapping's name at the same position or a
      name the mapping does not touch. */
  ghost predicate Aligned(m: NameMapping, defaults: Entries<Value>)
  {
    forall j :: 0 <= j < |defaults| ==>
      (j < |m| && defaults[j].0 == m[j].0) || Untouched(m, defaults[j].0)
  }

  /** The parameter names are none of the options the caller supplies. */
  predicate NoParameterNames(assocArgs: Dict)
  {
    forall i :: 0 <= i < |Mapping| ==> Mapping[i].1 !in Keys(assocArgs)
  }

  /** validate's and prepay's defaults follow the mapping's order; redeem's
      add mode, which the mapping does not touch. */
  lemma ValidateAligned(vendor: Value, now: Value, correlationId: string)
    ensures |ValidateDefaults(vendor, now, correlationId)| == |Mapping|
    ensures forall i :: 0 <= i < |Mapping| ==> ValidateDefaults(vendor, now, correlationId)[i].0 == Mapping[i].0
  {
  }

  lemma PrepayAligned(vendor: Value, now: Value)
    ensures Aligned(Mapping, PrepayDefaults(vendor, now))
  {
  }

  lemma RedeemAligned(vendor: Value, now: Value)
    ensures Untouched(Mapping, "mode")
    ensures Aligned(Mapping, RedeemDefaults(vendor, now))
  {
    ModeUntouched();
    var d := RedeemDefaults(vendor, now);
    assert d[0].0 == Mapping[0].0 && d[1].0 == Mapping[1].0 && d[2].0 == "mode";
  }

  /** mode is neither an option name nor a parameter name. */
  lemma ModeUntouched()
    ensures Untouched(Mapping, "mode")
  {
    NameLengths();
    TargetLengths();
  }

  /** An aligned default is the value of its name in the defaults array, and
      its parameter name is not among the defaults. */
  lemma AlignedEntry(m: NameMapping, defaults: Entries<Value>, i: nat)
    requires ProperMapping(m)
    requires Aligned(m, defaults) && i < |defaults| && i < |m| && defaults[i].0 == m[i].0
    ensures Find(ArrayOf(defaults), m[i].0) == Some(defaults[i].1)
    ensures Find(ArrayOf(defaults), m[i].1) == None
  {
    forall j | i < j < |defaults| ensures defaults[j].0 != defaults[i].0 {
      if !Untouched(m, defaults[j].0) {
        assert Keys(m)[i] == m[i].0;
      }
    }
    ArrayOfLast(defaults, i);
    forall j | 0 <= j < |defaults| ensures Keys(defaults)[j] != m[i].1 {
    }
    ArrayOfAbsent(defaults, m[i].1);
  }

  /** A command's option other than the common ones and verify is the
      supplied one, else its default. */
  lemma CommandArgsFind(defaults: Entries<Value>, assocArgs: Dict, k: string)
    requires k != "vdc_debug" && k != "verify" && k != "ssl_verify"
    ensures Find(CommandArgs(defaults, assocArgs), k)
         == if k in Keys(assocArgs) then Find(assocArgs, k) else Find(ArrayOf(defaults), k)
  {
    CommonAbsent(k);
  }

  /** After the merge and the unsets, a mapped option holds the supplied
      value or its default, and its parameter name is not yet set. */
  lemma OptionsHold(m: NameMapping, defaults: Entries<Value>, assocArgs: Dict, i: nat)
    requires EligibilityMapping(m)
    requires Aligned(m, defaults) && i < |defaults| && i < |m| && defaults[i].0 == m[i].0
    requires m[i].1 !in Keys(assocArgs)
    ensures Find(CommandArgs(defaults, assocArgs), m[i].0) == Some(OptionValue(assocArgs, m[i].0, defaults[i].1))
    ensures m[i].1 !in Keys(CommandArgs(defaults, assocArgs))
  {
    AlignedEntry(m, defaults, i);
    CommandArgsFind(defaults, assocArgs, m[i].0);
    CommandArgsFind(defaults, assocArgs, m[i].1);
  }

  /** prepay and redeem send a mapped option under its parameter name, with
      the supplied value or its default, and not under its own name. */
  lemma PostDataSends(m: NameMapping, defaults: Entries<Value>, args: seq<string>, assocArgs: Dict, i: nat)
    requires EligibilityMapping(m)
    requires Aligned(m, defaults) && i < |defaults| && i < |m| && defaults[i].0 == m[i].0
    requires m[i].1 !in Keys(assocArgs)
    ensures Find(Put(MappedParams(m, CommandArgs(defaults, assocArgs)), PanName, FirstArg(args)), m[i].1)
         == Some(OptionValue(assocArgs, m[i].0, defaults[i].1))
    ensures Find(Put(MappedParams(m, CommandArgs(defaults, assocArgs)), PanName, FirstArg(args)), m[i].0) == None
  {
    OptionsHold(m, defaults, assocArgs, i);
    MappedEntry(m, CommandArgs(defaults, assocArgs), i);
  }

  /** validate sends a mapped option as prepay does, the expiration date
      split into its parts when it is non-empty. */
  lemma ValidateSends(m: NameMapping, defaults: Entries<Value>, args: seq<string>, assocArgs: Dict, i: nat)
    requires EligibilityMapping(m)
    requires Aligned(m, defaults) && i < |defaults| && i < |m| && defaults[i].0 == m[i].0
    requires m[i].1 !in Keys(assocArgs)
    ensures Find(Put(MappedParams(m, WithExpiration(CommandArgs(defaults, assocArgs))), PanName, FirstArg(args)), m[i].1)
         == Some(var v := OptionValue(assocArgs, m[i].0, defaults[i].1);
                 if m[i].0 == "expiration_date" then Expiration(v) else v)
    ensures Find(Put(MappedParams(m, WithExpiration(CommandArgs(defaults, assocArgs))), PanName, FirstArg(args)), m[i].0)
         == None
  {
    OptionsHold(m, defaults, assocArgs, i);
    MappedEntry(m, WithExpiration(CommandArgs(defaults, assocArgs)), i);
  }

  /** validate sends every option of defaults that list the mapping's
      names in its order, as ValidateSends states. */
  lemma ValidateSendsAll(m: NameMapping, defaults: Entries<Value>, args: seq<string>, assocArgs: Dict)
    requires EligibilityMapping(m)
    requires |defaults| == |m| && forall i :: 0 <= i < |m| ==> defaults[i].0 == m[i].0
    requires forall i :: 0 <= i < |m| ==> m[i].1 !in Keys(assocArgs)
    ensures forall i :: 0 <= i < |m| ==>
      Find(Put(MappedParams(m, WithExpiration(CommandArgs(defaults, assocArgs))), PanName, FirstArg(args)), m[i].1)
        == Some(var v := OptionValue(assocArgs, m[i].0, defaults[i].1);
                if m[i].0 == "expiration_date" then Expiration(v) else v)
    ensures forall i :: 0 <= i < |m| ==>
      Find(Put(MappedParams(m, WithExpiration(CommandArgs(defaults, assocArgs))), PanName, FirstArg(args)), m[i].0) == None
  {
    assert Aligned(m, defaults);
    forall i | 0 <= i < |m|
      ensures Find(Put(MappedParams(m, WithExpiration(CommandArgs(defaults, assocArgs))), PanName, FirstArg(args)), m[i].1)
           == Some(var v := OptionValue(assocArgs, m[i].0, defaults[i].1);
                   if m[i].0 == "expiration_date" then Expiration(v) else v)
      ensures Find(Put(MappedParams(m, WithExpiration(CommandArgs(defaults, assocArgs))), PanName, FirstArg(args)), m[i].0) == None
    {
      ValidateSends(m, defaults, args, assocArgs, i);
    }
  }

  /** A mapping fit for the eligibility commands touches neither common
      option. */
  lemma CommonUntouched(m: NameMapping)
    requires EligibilityMapping(m)
    ensures Untouched(m, "ssl_verify") && Untouched(m, "vdc_debug")
  {
  }

  /** validate sends the card number, ssl_verify (true unless supplied), and
      never vdc_debug. */
  lemma ValidateCommon(m: NameMapping, defaults: Entries<Value>, args: seq<string>, assocArgs: Dict)
    requires EligibilityMapping(m)
    requires "ssl_verify" !in Keys(defaults) && "vdc_debug" !in Keys(defaults)
    ensures Find(Put(MappedParams(m, WithExpiration(CommandArgs(defaults, assocArgs))), PanName, FirstArg(args)), PanName)
         == Some(FirstArg(args))
    ensures Find(Put(MappedParams(m, WithExpiration(CommandArgs(defaults, assocArgs))), PanName, FirstArg(args)), "ssl_verify")
         == Some(OptionValue(assocArgs, "ssl_verify", VBool(true)))
    ensures Find(Put(MappedParams(m, WithExpiration(CommandArgs(defaults, assocArgs))), PanName, FirstArg(args)), "vdc_debug")
         == None
  {
    var y := WithExpiration(CommandArgs(defaults, assocArgs));
    ExpirationKeepsCommon(defaults, assocArgs);
    CommonUntouched(m);
    MappedUntouched(m, y, "ssl_verify");
    MappedUntouched(m, y, "vdc_debug");
  }

  /** The expiration date leaves the common options as the command set
      them: ssl_verify true unless supplied, vdc_debug unset. */
  lemma ExpirationKeepsCommon(defaults: Entries<Value>, assocArgs: Dict)
    requires "ssl_verify" !in Keys(defaults)
    ensures Find(WithExpiration(CommandArgs(defaults, assocArgs)), "ssl_verify")
         == Some(OptionValue(assocArgs, "ssl_verify", VBool(true)))
    ensures Find(WithExpiration(CommandArgs(defaults, assocArgs)), "vdc_debug") == None
  {
    var base := Merge(CommonAssocArgs, ArrayOf(defaults));
    ArrayOfAbsent(defaults, "ssl_verify");
    CommonHolds();
    assert Find(base, "ssl_verify") == Some(VBool(true));
    OptionsCommon(base, assocArgs);
  }

  /** Options over a base holding ssl_verify true keep it true unless
      supplied, and trimming leaves no vdc_debug. */
  lemma OptionsCommon(base: Dict, assocArgs: Dict)
    requires Find(base, "ssl_verify") == Some(VBool(true))
    ensures Find(Trimmed(Options(base, assocArgs)), "ssl_verify")
         == Some(OptionValue(assocArgs, "ssl_verify", VBool(true)))
    ensures Find(Trimmed(Options(base, assocArgs)), "vdc_debug") == None
  {
  }

  /** prepay and redeem send the card number, ssl_verify (true unless
      supplied), and never vdc_debug; any other supplied option that the
      mapping does not touch is sent as supplied. */
  lemma PostDataCommon(defaults: Entries<Value>, args: seq<string>, assocArgs: Dict)
    requires "ssl_verify" !in Keys(defaults) && "vdc_debug" !in Keys(defaults)
    ensures Find(PostData(defaults, args, assocArgs), PanName) == Some(FirstArg(args))
    ensures Find(PostData(defaults, args, assocArgs), "ssl_verify") == Some(OptionValue(assocArgs, "ssl_verify", VBool(true)))
    ensures Find(PostData(defaults, args, assocArgs), "vdc_debug") == None
    ensures forall k :: k in Keys(assocArgs) && Untouched(Mapping, k) && k != "vdc_debug" && k != "verify" && k != PanName ==>
      Find(PostData(defaults, args, assocArgs), k) == Some(Lookup(assocArgs, k))
  {
    MappingApart();
    PostDataOver(Mapping, defaults, args, assocArgs);
  }

  /** PostDataCommon over any mapping fit for the eligibility commands. */
  lemma PostDataOver(m: NameMapping, defaults: Entries<Value>, args: seq<string>, assocArgs: Dict)
    requires EligibilityMapping(m)
    requires "ssl_verify" !in Keys(defaults)
    ensures Find(Put(MappedParams(m, CommandArgs(defaults, assocArgs)), PanName, FirstArg(args)), "ssl_verify")
         == Some(OptionValue(assocArgs, "ssl_verify", VBool(true)))
    ensures Find(Put(MappedParams(m, CommandArgs(defaults, assocArgs)), PanName, FirstArg(args)), "vdc_debug") == None
    ensures forall k :: k in Keys(assocArgs) && Untouched(m, k) && k != "vdc_debug" && k != "verify" && k != PanName ==>
      Find(Put(MappedParams(m, CommandArgs(defaults, assocArgs)), PanName, FirstArg(args)), k) == Some(Lookup(assocArgs, k))
  {
    CommonUntouched(m);
    ArrayOfAbsent(defaults, "ssl_verify");
    CommonHolds();
    var base := Merge(CommonAssocArgs, ArrayOf(defaults));
    assert Find(base, "ssl_verify") == Some(VBool(true));
    CommonOptionsSent(m, base, assocArgs);
    forall k | k in Keys(assocArgs) && Untouched(m, k) && k != "vdc_debug" && k != "verify"
      ensures Find(MappedParams(m, CommandArgs(defaults, assocArgs)), k) == Some(Lookup(assocArgs, k))
    {
      ShapedOption(m, base, assocArgs, k);
    }
  }

  /** validate sends the card number from the first positional argument,
      ssl_verify (true unless supplied) and never vdc_debug. */
  lemma ValidateDataCommon(vendor: Value, now: Value, correlationId: string, args: seq<string>, assocArgs: Dict)
    ensures Find(ValidateData(vendor, now, correlationId, args, assocArgs), PanName) == Some(FirstArg(args))
    ensures Find(ValidateData(vendor, now, correlationId, args, assocArgs), "ssl_verify")
         == Some(OptionValue(assocArgs, "ssl_verify", VBool(true)))
    ensures Find(ValidateData(vendor, now, correlationId, args, assocArgs), "vdc_debug") == None
  {
    DefaultsApart(vendor, now, correlationId);
    MappingApart();
    ValidateCommon(Mapping, ValidateDefaults(vendor, now, correlationId), args, assocArgs);
  }

  /** validate sends each option of its defaults table under its parameter
      name, with the supplied value or the default: the vendor id, the
      current time, the correlation id, null for the other three; the
      expiration date split into month and year when it is non-empty. No
      option is sent under its own name. */
  lemma ValidateDataContents(vendor: Value, now: Value, correlationId: string, args: seq<string>, assocArgs: Dict)
    requires NoParameterNames(assocArgs)
    ensures forall i :: 0 <= i < |Mapping| ==>
      Find(ValidateData(vendor, now, correlationId, args, assocArgs), Mapping[i].1)
        == Some(var v := OptionValue(assocArgs, Mapping[i].0, ValidateDefaults(vendor, now, correlationId)[i].1);
                if Mapping[i].0 == "expiration_date" then Expiration(v) else v)
    ensures forall i :: 0 <= i < |Mapping| ==> Find(ValidateData(vendor, now, correlationId, args, assocArgs), Mapping[i].0) == None
  {
    ValidateAligned(vendor, now, correlationId);
    MappingApart();
    ValidateSendsAll(Mapping, ValidateDefaults(vendor, now, correlationId), args, assocArgs);
  }

  /** prepay sends the vendor id and the request time stamp under their
      parameter names (supplied, else the project's vendor id and the current
      time) and not under their own. */
  lemma PrepayDataContents(vendor: Value, now: Value, args: seq<string>, assocArgs: Dict)
    requires NoParameterNames(assocArgs)
    ensures Find(PostData(PrepayDefaults(vendor, now), args, assocArgs), "vendorUniqueId")
         == Some(OptionValue(assocArgs, "vendor_unique_id", vendor))
    ensures Find(PostData(PrepayDefaults(vendor, now), args, assocArgs), "requestTimeStamp")
         == Some(OptionValue(assocArgs, "request_time_stamp", now))
    ensures Find(PostData(PrepayDefaults(vendor, now), args, assocArgs), "vendor_unique_id") == None
    ensures Find(PostData(PrepayDefaults(vendor, now), args, assocArgs), "request_time_stamp") == None
  {
    var defaults := PrepayDefaults(vendor, now);
    PrepayAligned(vendor, now);
    MappingApart();
    assert Mapping[0] == ("vendor_unique_id", "vendorUniqueId");
    assert Mapping[1] == ("request_time_stamp", "requestTimeStamp");
    PostDataSends(Mapping, defaults, args, assocArgs, 0);
    PostDataSends(Mapping, defaults, args, assocArgs, 1);
  }

  /** redeem sends what prepay sends, and mode (null unless supplied). */
  lemma RedeemDataContents(vendor: Value, now: Value, args: seq<string>, assocArgs: Dict)
    requires NoParameterNames(assocArgs)
    ensures Find(PostData(RedeemDefaults(vendor, now), args, assocArgs), "vendorUniqueId")
         == Some(OptionValue(assocArgs, "vendor_unique_id", vendor))
    ensures Find(PostData(RedeemDefaults(vendor, now), args, assocArgs), "requestTimeStamp")
         == Some(OptionValue(assocArgs, "request_time_stamp", now))
    ensures Find(PostData(RedeemDefaults(vendor, now), args, assocArgs), "mode") == Some(OptionValue(assocArgs, "mode", VNull))
    ensures Find(PostData(RedeemDefaults(vendor, now), args, assocArgs), "vendor_unique_id") == None
    ensures Find(PostData(RedeemDefaults(vendor, now), args, assocArgs), "request_time_stamp") == None
  {
    var defaults := RedeemDefaults(vendor, now);
    RedeemAligned(vendor, now);
    MappingApart();
    assert Mapping[0] == ("vendor_unique_id", "vendorUniqueId");
    assert Mapping[1] == ("request_time_stamp", "requestTimeStamp");
    PostDataSends(Mapping, defaults, args, assocArgs, 0);
    PostDataSends(Mapping, defaults, args, assocArgs, 1);
    ArrayOfLast(defaults, 2);
    NullOptionSent(Mapping, Merge(CommonAssocArgs, ArrayOf(defaults)), assocArgs, "mode");
  }

  /** validate sends the project's vendor id unless one is supplied, and a
      supplied expiration date split into month and year. */
  lemma ValidateVendorAndExpiration(vendor: Value, now: Value, correlationId: string, args: seq<string>, assocArgs: Dict)
    requires NoParameterNames(assocArgs)
    ensures Find(ValidateData(vendor, now, correlationId, args, assocArgs), "vendorUniqueId")
         == Some(OptionValue(assocArgs, "vendor_unique_id", vendor))
    ensures Find(ValidateData(vendor, now, correlationId, args, assocArgs), "expirationDate")
         == Some(Expiration(OptionValue(assocArgs, "expiration_date", VNull)))
  {
    ValidateDataContents(vendor, now, correlationId, args, assocArgs);
    assert Mapping[0] == ("vendor_unique_id", "vendorUniqueId");
    assert Mapping[5] == ("expiration_date", "expirationDate");
    assert ValidateDefaults(vendor, now, correlationId)[0].1 == vendor;
  }
}
