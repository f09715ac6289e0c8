/** The offers WP-CLI commands: each merges its defaults, the common
    options and the supplied ones, configures the client, and shapes the
    query parameters of its Offers Data API endpoint. */
module OffersCommands {
  import opened Wrappers
  import opened Strings
  import opened OrderedMaps
  import opened PhpValues
  import opened Configurations
  import opened ApiBases
  import opened VdcCommands

  const Mapping: NameMapping := [("non_card_attribute", "non_cardAttribute")]

  /** The options of byofferid and bycontentid, each defaulting to null. */
  const ByIdNames := ["updatefrom", "updateto", "start_index", "max_offers"]

  /** The options of byfilter, each defaulting to null. */
  const ByFilterNames := [
    "business_segment", "card_payment_type", "card_product", "category", "subcategory",
    "merchant", "program", "promotion_channel", "promoting_region", "promoting_country",
    "redemption_region", "redemption_country", "merchant_region", "merchant_county",
    "language", "expired", "valid_from", "valid_to", "promoted_from", "promoted_to",
    "update_from", "update_to", "featured", "start_index", "max_offers", "bins", "rpins",
    "bins_to_rpins", "accountranges", "accountranges_to_rpins", "pans", "non_card_attribute",
    "origin", "radius", "unit", "non_geo"]

  /** The options of all, each defaulting to null. */
  const AllNames := ["start_index", "max_offers"]

  /** byofferid's and bycontentid's defaults with the common options merged
      over them. */
  const ByIdBase: Dict := Merge(ArrayOf(Nulls(ByIdNames)), CommonAssocArgs)

  const ByFilterBase: Dict := Merge(ArrayOf(Nulls(ByFilterNames)), CommonAssocArgs)

  /** all's defaults merged over the common options. */
  const AllBase: Dict := Merge(CommonAssocArgs, ArrayOf(Nulls(AllNames)))

  /** byofferid's and bycontentid's parameters: the shaped options, with the
      id parameter set to the positional ids joined by commas. */
  function ByIdParams(idName: string, ids: seq<string>, assocArgs: Dict): Dict
  {
    Put(Shaped(Mapping, Options(ByIdBase, assocArgs)), idName, VStr(Join(ids, ",")))
  }

  method ByOfferId(api: ApiBase, ids: seq<string>, assocArgs: Dict) returns (queryParams: Dict)
    modifies api.apiClient.config`sslVerification, api.apiClient.config`debug
    ensures queryParams == ByIdParams("offerid", ids, assocArgs)
    ensures api.apiClient.config.sslVerification == OptionValue(assocArgs, "ssl_verify", VBool(true))
    ensures api.apiClient.config.debug == OptionValue(assocArgs, "vdc_debug", VBool(false))
  {
    var options := Merge(Merge(ArrayOf(Nulls(ByIdNames)), CommonAssocArgs), assocArgs);
    queryParams := PrepareParams(api, Mapping, options);
    ByIdNamesApart();
    NullBaseSettings(ByIdNames, assocArgs);
    queryParams := Put(queryParams, "offerid", VStr(Join(ids, ",")));
  }

  method ByContentId(api: ApiBase, ids: seq<string>, assocArgs: Dict) returns (queryParams: Dict)
    modifies api.apiClient.config`sslVerification, api.apiClient.config`debug
    ensures queryParams == ByIdParams("contentid", ids, assocArgs)
    ensures api.apiClient.config.sslVerification == OptionValue(assocArgs, "ssl_verify", VBool(true))
    ensures api.apiClient.config.debug == OptionValue(assocArgs, "vdc_debug", VBool(false))
  {
    var options := Merge(Merge(ArrayOf(Nulls(ByIdNames)), CommonAssocArgs), assocArgs);
    queryParams := PrepareParams(api, Mapping, options);
    ByIdNamesApart();
    NullBaseSettings(ByIdNames, assocArgs);
    queryParams := Put(queryParams, "contentid", VStr(Join(ids, ",")));
  }

  method ByFilter(api: ApiBase, assocArgs: Dict) returns (queryParams: Dict)
    modifies api.apiClient.config`sslVerification, api.apiClient.config`debug
    ensures queryParams == Shaped(Mapping, Options(ByFilterBase, assocArgs))
    ensures api.apiClient.config.sslVerification == OptionValue(assocArgs, "ssl_verify", VBool(true))
    ensures api.apiClient.config.debug == OptionValue(assocArgs, "vdc_debug", VBool(false))
  {
    var options := Merge(Merge(ArrayOf(Nulls(ByFilterNames)), CommonAssocArgs), assocArgs);
    queryParams := PrepareParams(api, Mapping, options);
    ByFilterNamesApart();
    NullBaseSettings(ByFilterNames, assocArgs);
  }

  method All(api: ApiBase, assocArgs: Dict) returns (queryParams: Dict)
    modifies api.apiClient.config`sslVerification, api.apiClient.config`debug
    ensures queryParams == Shaped(Mapping, Options(AllBase, assocArgs))
    ensures api.apiClient.config.sslVerification == OptionValue(assocArgs, "ssl_verify", VBool(true))
    ensures api.apiClient.config.debug == OptionValue(assocArgs, "vdc_debug", VBool(false))
  {
    var options := Merge(Merge(CommonAssocArgs, ArrayOf(Nulls(AllNames))), assocArgs);
    queryParams := PrepareParams(api, Mapping, options);
    AllNamesApart();
    NullBaseSettings(AllNames, assocArgs);
  }

  /** The mapping renames non_card_attribute alone; every other option is
      sent under its own name. */
  lemma MappingLeaves(k: string)
    requires k != "non_card_attribute" && k != "non_cardAttribute"
    ensures Untouched(Mapping, k)
  {
  }

  /** The option names of each command are none of the names the commands
      treat apart. */
  lemma ByIdNamesApart()
    ensures forall k :: k in ByIdNames ==>
      && k != "vdc_debug" && k != "verify" && k != "ssl_verify" && k != "non_cardAttribute"
      && k != "non_card_attribute" && k != "offerid" && k != "contentid"
  {
  }

  lemma ByFilterNamesApart()
    ensures forall k :: k in ByFilterNames ==>
      k != "vdc_debug" && k != "verify" && k != "ssl_verify" && k != "non_cardAttribute"
  {
  }

  lemma AllNamesApart()
    ensures forall k :: k in AllNames ==>
      && k != "vdc_debug" && k != "verify" && k != "ssl_verify" && k != "non_cardAttribute"
      && k != "non_card_attribute"
  {
  }

  /** The mapping leaves alone every option of these commands but
      non_card_attribute, and the common options. */
  lemma LeavesOptions(names: seq<string>)
    requires forall k :: k in names ==> k != "non_cardAttribute"
    ensures Untouched(Mapping, "ssl_verify") && Untouched(Mapping, "vdc_debug")
    ensures forall k :: k in names && k != "non_card_attribute" ==> Untouched(Mapping, k)
  {
    MappingLeaves("ssl_verify");
    MappingLeaves("vdc_debug");
    forall k | k in names && k != "non_card_attribute" ensures Untouched(Mapping, k) {
      MappingLeaves(k);
    }
  }

  /** A command of this group sends every option of its defaults table but
      non_card_attribute (null unless supplied), ssl_verify (true unless
      supplied), and never vdc_debug. */
  lemma NullDefaultsOf(names: seq<string>, base: Dict, assocArgs: Dict)
    requires base == Merge(ArrayOf(Nulls(names)), CommonAssocArgs)
          || base == Merge(CommonAssocArgs, ArrayOf(Nulls(names)))
    requires forall k :: k in names ==> k != "vdc_debug" && k != "verify" && k != "ssl_verify" && k != "non_cardAttribute"
    ensures Find(Shaped(Mapping, Options(base, assocArgs)), "vdc_debug") == None
    ensures Find(Shaped(Mapping, Options(base, assocArgs)), "ssl_verify")
         == Some(OptionValue(assocArgs, "ssl_verify", VBool(true)))
    ensures forall k :: k in names && k != "non_card_attribute" ==>
      Find(Shaped(Mapping, Options(base, assocArgs)), k) == Some(OptionValue(assocArgs, k, VNull))
  {
    NullBases(names);
    LeavesOptions(names);
    NullDefaultsSent(Mapping, names, base, assocArgs);
  }

  /** Setting the id parameter after shaping keeps every shaped option
      other than the id itself. */
  lemma IdParamsSent(names: seq<string>, base: Dict, idName: string, ids: seq<string>, assocArgs: Dict)
    requires base == Merge(ArrayOf(Nulls(names)), CommonAssocArgs)
    requires forall k :: k in names ==> k != "vdc_debug" && k != "verify" && k != "ssl_verify" && k != "non_cardAttribute"
    requires idName !in names && idName != "vdc_debug" && idName != "ssl_verify"
    ensures Find(Put(Shaped(Mapping, Options(base, assocArgs)), idName, VStr(Join(ids, ","))), idName)
         == Some(VStr(Join(ids, ",")))
    ensures Find(Put(Shaped(Mapping, Options(base, assocArgs)), idName, VStr(Join(ids, ","))), "vdc_debug") == None
    ensures Find(Put(Shaped(Mapping, Options(base, assocArgs)), idName, VStr(Join(ids, ","))), "ssl_verify")
         == Some(OptionValue(assocArgs, "ssl_verify", VBool(true)))
    ensures forall k :: k in names && k != "non_card_attribute" ==>
      Find(Put(Shaped(Mapping, Options(base, assocArgs)), idName, VStr(Join(ids, ","))), k)
        == Some(OptionValue(assocArgs, k, VNull))
  {
    NullDefaultsOf(names, base, assocArgs);
  }

  /** byofferid and bycontentid send the joined ids under the id name, every
      option of their defaults table (null unless supplied), ssl_verify
      (true unless supplied), and never vdc_debug. */
  lemma ByIdParamsContents(idName: string, ids: seq<string>, assocArgs: Dict)
    requires idName == "offerid" || idName == "contentid"
    ensures Find(ByIdParams(idName, ids, assocArgs), idName) == Some(VStr(Join(ids, ",")))
    ensures Find(ByIdParams(idName, ids, assocArgs), "vdc_debug") == None
    ensures Find(ByIdParams(idName, ids, assocArgs), "ssl_verify") == Some(OptionValue(assocArgs, "ssl_verify", VBool(true)))
    ensures forall k :: k in ByIdNames ==>
      Find(ByIdParams(idName, ids, assocArgs), k) == Some(OptionValue(assocArgs, k, VNull))
  {
    ByIdNamesApart();
    IdParamsSent(ByIdNames, ByIdBase, idName, ids, assocArgs);
  }

  /** byfilter sends every option of its defaults table but
      non_card_attribute under its own name (null unless supplied),
      ssl_verify (true unless supplied), and never vdc_debug. */
  lemma ByFilterParamsContents(assocArgs: Dict)
    ensures Find(Shaped(Mapping, Options(ByFilterBase, assocArgs)), "vdc_debug") == None
    ensures Find(Shaped(Mapping, Options(ByFilterBase, assocArgs)), "ssl_verify")
         == Some(OptionValue(assocArgs, "ssl_verify", VBool(true)))
    ensures forall k :: k in ByFilterNames && k != "non_card_attribute" ==>
      Find(Shaped(Mapping, Options(ByFilterBase, assocArgs)), k) == Some(OptionValue(assocArgs, k, VNull))
  {
    ByFilterNamesApart();
    NullDefaultsOf(ByFilterNames, ByFilterBase, assocArgs);
  }

  /** all sends start_index and max_offers (null unless supplied),
      ssl_verify (true unless supplied), and never vdc_debug. */
  lemma AllParamsContents(assocArgs: Dict)
    ensures Find(Shaped(Mapping, Options(AllBase, assocArgs)), "vdc_debug") == None
    ensures Find(Shaped(Mapping, Options(AllBase, assocArgs)), "ssl_verify")
         == Some(OptionValue(assocArgs, "ssl_verify", VBool(true)))
    ensures forall k :: k in AllNames ==>
      Find(Shaped(Mapping, Options(AllBase, assocArgs)), k) == Some(OptionValue(assocArgs, k, VNull))
  {
    AllNamesApart();
    NullDefaultsOf(AllNames, AllBase, assocArgs);
  }

  /** Over any defaults without non_cardAttribute, the command sends
      non_card_attribute's value under the name non_cardAttribute and not
      under its own. */
  lemma NonCardAttributeRenamed(base: Dict, assocArgs: Dict)
    requires "non_cardAttribute" !in Keys(base) && "non_cardAttribute" !in Keys(assocArgs)
    ensures Find(Shaped(Mapping, Options(base, assocArgs)), "non_cardAttribute")
         == if "non_card_attribute" in Keys(assocArgs) then Some(Lookup(assocArgs, "non_card_attribute"))
            else Find(base, "non_card_attribute")
    ensures Find(Shaped(Mapping, Options(base, assocArgs)), "non_card_attribute") == None
  {
    ShapedRenamedOption(Mapping, base, assocArgs, "non_card_attribute", "non_cardAttribute");
  }

  /** Null defaults holding non_card_attribute but not non_cardAttribute,
      with the common options merged over them. */
  lemma RenamedBase(names: seq<string>)
    requires "non_card_attribute" in names && "non_cardAttribute" !in names
    ensures "non_cardAttribute" !in Keys(Merge(ArrayOf(Nulls(names)), CommonAssocArgs))
    ensures Find(Merge(ArrayOf(Nulls(names)), CommonAssocArgs), "non_card_attribute") == Some(VNull)
  {
    ArrayOfNulls(names, "non_cardAttribute");
    ArrayOfNulls(names, "non_card_attribute");
  }

  /** byfilter sends non_card_attribute under the name non_cardAttribute
      (null unless supplied) and not under its own. */
  lemma ByFilterRenames(assocArgs: Dict)
    requires "non_cardAttribute" !in Keys(assocArgs)
    ensures Find(Shaped(Mapping, Options(ByFilterBase, assocArgs)), "non_cardAttribute")
         == Some(OptionValue(assocArgs, "non_card_attribute", VNull))
    ensures Find(Shaped(Mapping, Options(ByFilterBase, assocArgs)), "non_card_attribute") == None
  {
    ByFilterNamesApart();
    assert "non_card_attribute" in ByFilterNames;
    RenamedBase(ByFilterNames);
    NonCardAttributeRenamed(ByFilterBase, assocArgs);
  }
}
