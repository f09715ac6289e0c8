/** The data WP-CLI commands: each merges its defaults, the common options
    and the supplied ones, configures the client, and shapes the query
    parameters of its Reference Data API endpoint. */
module DataCommands {
  import opened Wrappers
  import opened Strings
  import opened OrderedMaps
  import opened PhpValues
  import opened ApiBases
  import opened VdcCommands

  const Mapping: NameMapping := [("program_ids", "programIds")]

  /** The options of merchantAddress, merchant and ref, each defaulting to
      null. */
  const MerchantAddressNames := ["start_index"]

  const MerchantNames := ["start_index", "program"]

  const RefNames := ["resources", "languages", "program_ids"]

  /** Each command's defaults with the common options merged over them. */
  const MerchantAddressBase: Dict := Merge(ArrayOf(Nulls(MerchantAddressNames)), CommonAssocArgs)

  const MerchantBase: Dict := Merge(ArrayOf(Nulls(MerchantNames)), CommonAssocArgs)

  const RefBase: Dict := Merge(ArrayOf(Nulls(RefNames)), CommonAssocArgs)

  /** merchantAddress's parameters: the shaped options, with merchantIds set
      to the positional merchant ids joined by commas. */
  function MerchantAddressParams(ids: seq<string>, assocArgs: Dict): Dict
  {
    Put(Shaped(Mapping, Options(MerchantAddressBase, assocArgs)), "merchantIds", VStr(Join(ids, ",")))
  }

  method MerchantAddress(api: ApiBase, ids: seq<string>, assocArgs: Dict) returns (queryParams: Dict)
    modifies api.apiClient.config`sslVerification, api.apiClient.config`debug
    ensures queryParams == MerchantAddressParams(ids, assocArgs)
    ensures api.apiClient.config.sslVerification == OptionValue(assocArgs, "ssl_verify", VBool(true))
    ensures api.apiClient.config.debug == OptionValue(assocArgs, "vdc_debug", VBool(false))
  {
    var options := Merge(Merge(ArrayOf(Nulls(MerchantAddressNames)), CommonAssocArgs), assocArgs);
    queryParams := PrepareParams(api, Mapping, options);
    MerchantAddressNamesApart();
    NullBaseSettings(MerchantAddressNames, assocArgs);
    queryParams := Put(queryParams, "merchantIds", VStr(Join(ids, ",")));
  }

  method Merchant(api: ApiBase, assocArgs: Dict) returns (queryParams: Dict)
    modifies api.apiClient.config`sslVerification, api.apiClient.config`debug
    ensures queryParams == Shaped(Mapping, Options(MerchantBase, assocArgs))
    ensures api.apiClient.config.sslVerification == OptionValue(assocArgs, "ssl_verify", VBool(true))
    ensures api.apiClient.config.debug == OptionValue(assocArgs, "vdc_debug", VBool(false))
  {
    var options := Merge(Merge(ArrayOf(Nulls(MerchantNames)), CommonAssocArgs), assocArgs);
    queryParams := PrepareParams(api, Mapping, options);
    MerchantNamesApart();
    NullBaseSettings(MerchantNames, assocArgs);
  }

  method Ref(api: ApiBase, assocArgs: Dict) returns (queryParams: Dict)
    modifies api.apiClient.config`sslVerification, api.apiClient.config`debug
    ensures queryParams == Shaped(Mapping, Options(RefBase, assocArgs))
    ensures api.apiClient.config.sslVerification == OptionValue(assocArgs, "ssl_verify", VBool(true))
    ensures api.apiClient.config.debug == OptionValue(assocArgs, "vdc_debug", VBool(false))
  {
    var options := Merge(Merge(ArrayOf(Nulls(RefNames)), CommonAssocArgs), assocArgs);
    queryParams := PrepareParams(api, Mapping, options);
    RefNamesApart();
    NullBaseSettings(RefNames, assocArgs);
  }

  /** The option names of each command are none of the names the commands
      treat apart. */
  lemma MerchantAddressNamesApart()
    ensures forall k :: k in MerchantAddressNames ==>
      && k != "vdc_debug" && k != "verify" && k != "ssl_verify" && k != "programIds"
      && k != "program_ids" && k != "merchantIds"
  {
  }

  lemma MerchantNamesApart()
    ensures forall k :: k in MerchantNames ==>
      && k != "vdc_debug" && k != "verify" && k != "ssl_verify" && k != "programIds"
      && k != "program_ids"
  {
  }

  lemma RefNamesApart()
    ensures forall k :: k in RefNames ==>
      k != "vdc_debug" && k != "verify" && k != "ssl_verify" && k != "programIds"
  {
  }

  /** The mapping renames program_ids alone; every other option is sent
      under its own name. */
  lemma LeavesOptions(names: seq<string>)
    requires forall k :: k in names ==> k != "programIds"
    ensures Untouched(Mapping, "ssl_verify") && Untouched(Mapping, "vdc_debug")
    ensures forall k :: k in names && k != "program_ids" ==> Untouched(Mapping, k)
  {
  }

  /** A command of this group sends every option of its defaults table but
      program_ids (null unless supplied), ssl_verify (true unless supplied),
      and never vdc_debug. */
  lemma NullDefaultsOf(names: seq<string>, assocArgs: Dict)
    requires forall k :: k in names ==> k != "vdc_debug" && k != "verify" && k != "ssl_verify" && k != "programIds"
    ensures Find(Shaped(Mapping, Options(Merge(ArrayOf(Nulls(names)), CommonAssocArgs), assocArgs)), "vdc_debug") == None
    ensures Find(Shaped(Mapping, Options(Merge(ArrayOf(Nulls(names)), CommonAssocArgs), assocArgs)), "ssl_verify")
         == Some(OptionValue(assocArgs, "ssl_verify", VBool(true)))
    ensures forall k :: k in names && k != "program_ids" ==>
      Find(Shaped(Mapping, Options(Merge(ArrayOf(Nulls(names)), CommonAssocArgs), assocArgs)), k)
        == Some(OptionValue(assocArgs, k, VNull))
  {
    NullBases(names);
    LeavesOptions(names);
    NullDefaultsSent(Mapping, names, Merge(ArrayOf(Nulls(names)), CommonAssocArgs), assocArgs);
  }

  /** merchantAddress sends the joined merchant ids as merchantIds,
      start_index (null unless supplied), ssl_verify (true unless supplied),
      and never vdc_debug. */
  lemma MerchantAddressParamsContents(ids: seq<string>, assocArgs: Dict)
    ensures Find(MerchantAddressParams(ids, assocArgs), "merchantIds") == Some(VStr(Join(ids, ",")))
    ensures Find(MerchantAddressParams(ids, assocArgs), "vdc_debug") == None
    ensures Find(MerchantAddressParams(ids, assocArgs), "ssl_verify")
         == Some(OptionValue(assocArgs, "ssl_verify", VBool(true)))
    ensures forall k :: k in MerchantAddressNames ==>
      Find(MerchantAddressParams(ids, assocArgs), k) == Some(OptionValue(assocArgs, k, VNull))
  {
    MerchantAddressNamesApart();
    NullDefaultsOf(MerchantAddressNames, assocArgs);
  }

  /** merchant sends start_index and program (null unless supplied),
      ssl_verify (true unless supplied), and never vdc_debug. */
  lemma MerchantParamsContents(assocArgs: Dict)
    ensures Find(Shaped(Mapping, Options(MerchantBase, assocArgs)), "vdc_debug") == None
    ensures Find(Shaped(Mapping, Options(MerchantBase, assocArgs)), "ssl_verify")
         == Some(OptionValue(assocArgs, "ssl_verify", VBool(true)))
    ensures forall k :: k in MerchantNames ==>
      Find(Shaped(Mapping, Options(MerchantBase, assocArgs)), k) == Some(OptionValue(assocArgs, k, VNull))
  {
    MerchantNamesApart();
    NullDefaultsOf(MerchantNames, assocArgs);
  }

  /** ref sends resources and languages, every option of its defaults table
      but program_ids, (null unless supplied), ssl_verify (true unless
      supplied), and never vdc_debug. */
  lemma RefParamsContents(assocArgs: Dict)
    ensures Find(Shaped(Mapping, Options(RefBase, assocArgs)), "vdc_debug") == None
    ensures Find(Shaped(Mapping, Options(RefBase, assocArgs)), "ssl_verify")
         == Some(OptionValue(assocArgs, "ssl_verify", VBool(true)))
    ensures forall k :: k in RefNames && k != "program_ids" ==>
      Find(Shaped(Mapping, Options(RefBase, assocArgs)), k) == Some(OptionValue(assocArgs, k, VNull))
  {
    RefNamesApart();
    NullDefaultsOf(RefNames, assocArgs);
  }

  /** Over any defaults without programIds, the command sends program_ids's
      value under the name programIds and not under its own. */
  lemma ProgramIdsRenamed(base: Dict, assocArgs: Dict)
    requires "programIds" !in Keys(base) && "programIds" !in Keys(assocArgs)
    ensures Find(Shaped(Mapping, Options(base, assocArgs)), "programIds")
         == if "program_ids" in Keys(assocArgs) then Some(Lookup(assocArgs, "program_ids"))
            else Find(base, "program_ids")
    ensures Find(Shaped(Mapping, Options(base, assocArgs)), "program_ids") == None
  {
    ShapedRenamedOption(Mapping, base, assocArgs, "program_ids", "programIds");
  }

  /** Null defaults holding program_ids but not programIds, with the common
      options merged over them. */
  lemma RenamedBase(names: seq<string>)
    requires "program_ids" in names && "programIds" !in names
    ensures "programIds" !in Keys(Merge(ArrayOf(Nulls(names)), CommonAssocArgs))
    ensures Find(Merge(ArrayOf(Nulls(names)), CommonAssocArgs), "program_ids") == Some(VNull)
  {
    ArrayOfNulls(names, "programIds");
    ArrayOfNulls(names, "program_ids");
  }

  /** ref sends program_ids under the name programIds (null unless
      supplied) and not under its own. */
  lemma RefRenames(assocArgs: Dict)
    requires "programIds" !in Keys(assocArgs)
    ensures Find(Shaped(Mapping, Options(RefBase, assocArgs)), "programIds")
         == Some(OptionValue(assocArgs, "program_ids", VNull))
    ensures Find(Shaped(Mapping, Options(RefBase, assocArgs)), "program_ids") == None
  {
    RefNamesApart();
    assert "program_ids" in RefNames;
    RenamedBase(RefNames);
    ProgramIdsRenamed(RefBase, assocArgs);
  }
}
