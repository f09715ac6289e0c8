/** What every WP-CLI command shares: the options common to all commands,
    the renaming of option names to the API's parameter names, and the
    configuration of the client from the debug and SSL options. */
module VdcCommands {
  import opened Wrappers
  import opened OrderedMaps
  import opened PhpValues
  import opened Configurations
  import opened ApiBases

  /** The options every command accepts, with their defaults. */
  const CommonAssocArgs: Dict := [("vdc_debug", VBool(false)), ("ssl_verify", VBool(true))]

  /** The common options hold nothing but vdc_debug and ssl_verify. */
  lemma CommonAbsent(k: string)
    requires k != "vdc_debug" && k != "ssl_verify"
    ensures Find(CommonAssocArgs, k) == None
  {
  }

  /** The common options' defaults: ssl_verify true, vdc_debug false. */
  lemma CommonHolds()
    ensures Find(CommonAssocArgs, "ssl_verify") == Some(VBool(true))
    ensures Find(CommonAssocArgs, "vdc_debug") == Some(VBool(false))
  {
  }

  /** No option name occurs twice in a mapping. */
  predicate DistinctNames(m: Entries<string>)
  {
    forall i, j :: 0 <= i < j < |m| ==> m[i].0 != m[j].0
  }

  /** A command's option mapping: option name to API parameter name. */
  type NameMapping = m: Entries<string> | DistinctNames(m) witness []

  lemma {:induction false} DistinctNamesUnique(m: Entries<string>)
    requires DistinctNames(m)
    ensures UniqueKeys(m)
    decreases |m|
  {
    if m != [] {
      forall k | 0 <= k < |m[1..]| ensures Keys(m[1..])[k] != m[0].0 {
        assert m[1..][k] == m[k + 1];
      }
      DistinctNamesUnique(m[1..]);
    }
  }

  /** The name a parameter is sent under: its mapped name, or itself. */
  function Rename(mapping: NameMapping, name: string): (r: string)
    ensures name !in Keys(mapping) ==> r == name
    ensures name in Keys(mapping) ==> Find(mapping, name) == Some(r)
  {
    match Find(mapping, name)
    case Some(target) => target
    case None => name
  }

  /** map_params on the first |args| entries: each one assigned, in order,
      under its renamed name. */
  function MappedParams(mapping: NameMapping, args: Entries<Value>): (r: Dict)
    decreases |args|
  {
    if args == [] then []
    else
      var n := |args| - 1;
      Put(MappedParams(mapping, args[..n]), Rename(mapping, args[n].0), args[n].1)
  }

  /** map_params, as the loop over the arguments. */
  method MapParams(mapping: NameMapping, args: Entries<Value>) returns (params: Dict)
    ensures params == MappedParams(mapping, args)
  {
    params := [];
    var i := 0;
    while i < |args|
      invariant 0 <= i <= |args|
      invariant params == MappedParams(mapping, args[..i])
    {
      assert args[..i + 1][..i] == args[..i];
      params := Put(params, Rename(mapping, args[i].0), args[i].1);
      i := i + 1;
    }
    assert args[..i] == args;
  }

  /** The last argument decides its renamed name; every other name is
      looked up in what the earlier arguments gave. */
  lemma MappedParamsStep(mapping: NameMapping, args: Entries<Value>, k: string)
    requires args != []
    ensures Find(MappedParams(mapping, args), k)
         == if Rename(mapping, args[|args| - 1].0) == k then Some(args[|args| - 1].1)
            else Find(MappedParams(mapping, args[..|args| - 1]), k)
  {
  }

  /** A name no argument is renamed to is not in the result: nothing else
      appears. */
  lemma {:induction false} MappedParamsAbsent(mapping: NameMapping, args: Entries<Value>, k: string)
    requires forall j :: 0 <= j < |args| ==> Rename(mapping, args[j].0) != k
    ensures Find(MappedParams(mapping, args), k) == None
    decreases |args|
  {
    if args != [] {
      var init := args[..|args| - 1];
      forall j | 0 <= j < |init| ensures Rename(mapping, init[j].0) != k {
        assert init[j] == args[j];
      }
      MappedParamsAbsent(mapping, init, k);
      MappedParamsStep(mapping, args, k);
    }
  }

  /** A name is held with the value of the last argument renamed to it,
      unaltered: renamed keys and unmapped keys are kept and later arguments
      win. */
  lemma {:induction false} MappedParamsLast(mapping: NameMapping, args: Entries<Value>, k: string, i: nat)
    requires i < |args| && Rename(mapping, args[i].0) == k
    requires forall j :: i < j < |args| ==> Rename(mapping, args[j].0) != k
    ensures Find(MappedParams(mapping, args), k) == Some(args[i].1)
    decreases |args|
  {
    var n := |args| - 1;
    MappedParamsStep(mapping, args, k);
    if i < n {
      var init := args[..n];
      assert init[i] == args[i];
      forall j | i < j < |init| ensures Rename(mapping, init[j].0) != k {
        assert init[j] == args[j];
      }
      MappedParamsLast(mapping, init, k, i);
    }
  }

  /** With an empty mapping, map_params gives back its input. */
  lemma {:induction false} MappedParamsIdentity(args: Dict)
    ensures MappedParams([], args) == args
    decreases |args|
  {
    if args != [] {
      var n := |args| - 1;
      UniqueKeysInit(args);
      var init: Dict := args[..n];
      MappedParamsIdentity(init);
      assert Rename([], args[n].0) == args[n].0;
      PutNew(init, args[n].0, args[n].1);
      SplitLast(args);
    }
  }

  /** setup_config: the client's configuration takes its SSL verification
      from ssl_verify and its debug flag from vdc_debug, and nothing else
      changes. */
  method SetupConfig(api: ApiBase, args: Dict)
    modifies api.apiClient.config`sslVerification, api.apiClient.config`debug
    ensures api.apiClient.config.sslVerification == Lookup(args, "ssl_verify")
    ensures api.apiClient.config.debug == Lookup(args, "vdc_debug")
  {
    var config := api.GetApiClient().GetConfig();
    var c := config.SetSSLVerification(Lookup(args, "ssl_verify"));
    c := config.SetDebug(Lookup(args, "vdc_debug"));
  }

  /** The options after setup_config: vdc_debug and verify are unset. The
      second is not an option name, so ssl_verify stays. */
  function Trimmed(args: Dict): (r: Dict)
    ensures Find(r, "vdc_debug") == None
    ensures Find(r, "ssl_verify") == Find(args, "ssl_verify")
    ensures forall k :: k != "vdc_debug" && k != "verify" ==> Find(r, k) == Find(args, k)
  {
    Remove(Remove(args, "vdc_debug"), "verify")
  }

  /** The parameters a command sends: the trimmed options, mapped. */
  function Shaped(mapping: NameMapping, args: Dict): Dict
  {
    MappedParams(mapping, Trimmed(args))
  }

  /** No mapping entry touches k, neither as an option name nor as a
      parameter name. */
  predicate Untouched(mapping: NameMapping, k: string)
  {
    k !in Keys(mapping) && forall i :: 0 <= i < |mapping| ==> mapping[i].1 != k
  }

  /** map_params keeps an untouched name's value as it is. */
  lemma MappedUntouched(mapping: NameMapping, args: Dict, k: string)
    requires Untouched(mapping, k)
    ensures Find(MappedParams(mapping, args), k) == Find(args, k)
  {
    forall i | 0 <= i < |args| ensures Rename(mapping, args[i].0) == k <==> args[i].0 == k {
      if args[i].0 in Keys(mapping) {
        var j :| 0 <= j < |mapping| && mapping[j].0 == args[i].0;
        DistinctNamesUnique(mapping);
        FindAt(mapping, j);
      }
    }
    SentUnder(args, k, k, mapping);
  }

  /** A name other than to is renamed to it exactly when it is from, the one
      entry of the mapping that targets to. */
  lemma RenamedToExactly(mapping: NameMapping, from: string, to: string, name: string)
    requires Find(mapping, from) == Some(to)
    requires forall i :: 0 <= i < |mapping| && mapping[i].1 == to ==> mapping[i].0 == from
    requires name != to
    ensures Rename(mapping, name) == to <==> name == from
  {
    if name in Keys(mapping) {
      var j :| 0 <= j < |mapping| && mapping[j].0 == name;
      DistinctNamesUnique(mapping);
      FindAt(mapping, j);
    }
  }

  /** An option that the mapping renames, to a name that is its own
      target alone and is not already an option, is sent under the new name
      with its value. */
  lemma MappedRenamed(mapping: NameMapping, args: Dict, from: string, to: string)
    requires Find(mapping, from) == Some(to)
    requires forall i :: 0 <= i < |mapping| && mapping[i].1 == to ==> mapping[i].0 == from
    requires to !in Keys(args)
    ensures Find(MappedParams(mapping, args), to) == Find(args, from)
  {
    forall i | 0 <= i < |args| ensures Rename(mapping, args[i].0) == to <==> args[i].0 == from {
      assert Keys(args)[i] == args[i].0;
      RenamedToExactly(mapping, from, to, args[i].0);
    }
    SentUnder(args, from, to, mapping);
  }

  /** When exactly the arguments named from are renamed to to, to is sent
      with from's value, or not at all. */
  lemma SentUnder(args: Dict, from: string, to: string, mapping: NameMapping)
    requires forall i :: 0 <= i < |args| ==> (Rename(mapping, args[i].0) == to <==> args[i].0 == from)
    ensures Find(MappedParams(mapping, args), to) == Find(args, from)
  {
    if Find(args, from).Some? {
      var i :| 0 <= i < |args| && args[i].0 == from;
      FindAt(args, i);
      forall j | i < j < |args| ensures Rename(mapping, args[j].0) != to {
        UniqueKeysDistinct(args, i, j);
      }
      MappedParamsLast(mapping, args, to, i);
    } else {
      forall j | 0 <= j < |args| ensures Rename(mapping, args[j].0) != to {
        assert Keys(args)[j] == args[j].0;
      }
      MappedParamsAbsent(mapping, args, to);
    }
  }

  /** No name is renamed to a name that is not a target, unless it is
      itself that name and not renamed. */
  lemma RenameAvoids(mapping: NameMapping, from: string, name: string)
    requires from in Keys(mapping)
    requires forall i :: 0 <= i < |mapping| ==> mapping[i].1 != from
    ensures Rename(mapping, name) != from
  {
    if name in Keys(mapping) {
      var j :| 0 <= j < |mapping| && mapping[j].0 == name;
      DistinctNamesUnique(mapping);
      FindAt(mapping, j);
    }
  }

  /** An option that the mapping renames is not sent under its own name
      when no entry targets that name. */
  lemma MappedAway(mapping: NameMapping, args: Dict, from: string)
    requires from in Keys(mapping)
    requires forall i :: 0 <= i < |mapping| ==> mapping[i].1 != from
    ensures Find(MappedParams(mapping, args), from) == None
  {
    forall j | 0 <= j < |args| ensures Rename(mapping, args[j].0) != from {
      RenameAvoids(mapping, from, args[j].0);
    }
    MappedParamsAbsent(mapping, args, from);
  }

  /** The targets of the mapping differ from one another and from every
      name it renames. */
  predicate ProperMapping(mapping: NameMapping)
  {
    forall i, j :: 0 <= i < |mapping| && 0 <= j < |mapping| ==>
      (i != j ==> mapping[i].1 != mapping[j].1) && mapping[i].1 != mapping[j].0
  }

  /** Under a proper mapping, each renamed option that is not already set
      under its new name is sent under the new name with its value, and not
      under its own. */
  lemma MappedEntry(mapping: NameMapping, args: Dict, i: nat)
    requires ProperMapping(mapping) && i < |mapping|
    requires mapping[i].1 !in Keys(args)
    ensures Find(MappedParams(mapping, args), mapping[i].1) == Find(args, mapping[i].0)
    ensures Find(MappedParams(mapping, args), mapping[i].0) == None
  {
    DistinctNamesUnique(mapping);
    FindAt(mapping, i);
    assert Keys(mapping)[i] == mapping[i].0;
    MappedRenamed(mapping, args, mapping[i].0, mapping[i].1);
    MappedAway(mapping, args, mapping[i].0);
  }

  /** A PHP array literal: its entries assigned in order. */
  function ArrayOf(entries: Entries<Value>): Dict
  {
    MappedParams([], entries)
  }

  /** The entries of a literal whose values are all null. */
  function Nulls(names: seq<string>): (r: Entries<Value>)
    ensures Keys(r) == names
    ensures forall i :: 0 <= i < |r| ==> r[i].1 == VNull
  {
    seq(|names|, i requires 0 <= i < |names| => (names[i], VNull))
  }

  /** A literal whose values are all null holds null exactly under its
      names. */
  lemma ArrayOfNulls(names: seq<string>, k: string)
    ensures Find(ArrayOf(Nulls(names)), k) == if k in names then Some(VNull) else None
  {
    var entries := Nulls(names);
    if k in names {
      var i := LastOccurrence(names, k);
      assert entries[i].0 == k;
      forall j | i < j < |entries| ensures Rename([], entries[j].0) != k {
        assert entries[j].0 == names[j];
      }
      MappedParamsLast([], entries, k, i);
    } else {
      ArrayOfAbsent(entries, k);
    }
  }

  /** The last place k occurs in s. */
  lemma {:induction false} LastOccurrence(s: seq<string>, k: string) returns (i: nat)
    requires k in s
    ensures i < |s| && s[i] == k && forall j :: i < j < |s| ==> s[j] != k
  {
    var n := |s| - 1;
    if s[n] == k {
      i := n;
    } else {
      var init := s[..n];
      var m :| 0 <= m < |s| && s[m] == k;
      assert init[m] == k;
      i := LastOccurrence(init, k);
      forall j | i < j < |s| ensures s[j] != k {
        if j < n {
          assert s[j] == init[j];
        }
      }
    }
  }

  /** The value a command ends up with for option k: the supplied one, or
      the default. */
  function OptionValue(assocArgs: Dict, k: string, default: Value): Value
  {
    if k in Keys(assocArgs) then Lookup(assocArgs, k) else default
  }

  /** The options a command works on: wp_parse_args of the supplied ones
      over the command's base, which is the supplied ones merged over the
      base. */
  function Options(base: Dict, assocArgs: Dict): Dict
  {
    Merge(base, assocArgs)
  }

  /** The steps every command takes once its options are merged: configure
      the client, unset vdc_debug and verify, map the names. */
  method PrepareParams(api: ApiBase, mapping: NameMapping, options: Dict) returns (params: Dict)
    modifies api.apiClient.config`sslVerification, api.apiClient.config`debug
    ensures params == Shaped(mapping, options)
    ensures api.apiClient.config.sslVerification == Lookup(options, "ssl_verify")
    ensures api.apiClient.config.debug == Lookup(options, "vdc_debug")
  {
    SetupConfig(api, options);
    var trimmed := Remove(options, "vdc_debug");
    trimmed := Remove(trimmed, "verify");
    params := MapParams(mapping, trimmed);
  }

  /** A command sends an untouched option with its value, except vdc_debug,
      which it never sends; ssl_verify is untouched by every mapping here,
      so it is sent. */
  lemma ShapedKeeps(mapping: NameMapping, args: Dict, k: string)
    requires Untouched(mapping, k)
    ensures k != "vdc_debug" && k != "verify" ==> Find(Shaped(mapping, args), k) == Find(args, k)
    ensures k == "vdc_debug" ==> Find(Shaped(mapping, args), k) == None
  {
    MappedUntouched(mapping, Trimmed(args), k);
  }

  /** A command sends an untouched option with the supplied value when there
      is one, and with the value of its merged defaults otherwise. */
  lemma ShapedOption(mapping: NameMapping, base: Dict, assocArgs: Dict, k: string)
    requires Untouched(mapping, k) && k != "vdc_debug" && k != "verify"
    ensures Find(Shaped(mapping, Merge(base, assocArgs)), k)
         == if k in Keys(assocArgs) then Some(Lookup(assocArgs, k)) else Find(base, k)
  {
    ShapedKeeps(mapping, Merge(base, assocArgs), k);
  }

  /** A command sends a renamed option under its new name, with the supplied
      value when there is one and the default otherwise, and not under its
      own name. */
  lemma ShapedRenamedOption(mapping: NameMapping, base: Dict, assocArgs: Dict, from: string, to: string)
    requires Find(mapping, from) == Some(to)
    requires forall i :: 0 <= i < |mapping| && mapping[i].1 == to ==> mapping[i].0 == from
    requires forall i :: 0 <= i < |mapping| ==> mapping[i].1 != from
    requires to !in Keys(base) && to !in Keys(assocArgs)
    requires from != "vdc_debug" && from != "verify"
    ensures Find(Shaped(mapping, Merge(base, assocArgs)), to)
         == if from in Keys(assocArgs) then Some(Lookup(assocArgs, from)) else Find(base, from)
    ensures Find(Shaped(mapping, Merge(base, assocArgs)), from) == None
  {
    var t := Trimmed(Merge(base, assocArgs));
    MappedRenamed(mapping, t, from, to);
    MappedAway(mapping, t, from);
  }

  /** An entry of a literal that no later entry shares a name with is held
      with its value. */
  lemma ArrayOfLast(entries: Entries<Value>, i: nat)
    requires i < |entries|
    requires forall j :: i < j < |entries| ==> entries[j].0 != entries[i].0
    ensures Find(ArrayOf(entries), entries[i].0) == Some(entries[i].1)
  {
    MappedParamsLast([], entries, entries[i].0, i);
  }

  /** A name of no entry is not held by the literal. */
  lemma ArrayOfAbsent(entries: Entries<Value>, k: string)
    requires k !in Keys(entries)
    ensures Find(ArrayOf(entries), k) == None
  {
    forall i | 0 <= i < |entries| ensures Rename([], entries[i].0) != k {
      assert Keys(entries)[i] == entries[i].0;
    }
    MappedParamsAbsent([], entries, k);
  }

  /** Null defaults under names, merged either way with the common
      options: null under each name, and ssl_verify true. */
  lemma NullBases(names: seq<string>)
    requires forall k :: k in names ==> k != "vdc_debug" && k != "ssl_verify"
    ensures Find(Merge(ArrayOf(Nulls(names)), CommonAssocArgs), "ssl_verify") == Some(VBool(true))
    ensures Find(Merge(CommonAssocArgs, ArrayOf(Nulls(names))), "ssl_verify") == Some(VBool(true))
    ensures Find(Merge(ArrayOf(Nulls(names)), CommonAssocArgs), "vdc_debug") == Some(VBool(false))
    ensures Find(Merge(CommonAssocArgs, ArrayOf(Nulls(names))), "vdc_debug") == Some(VBool(false))
    ensures forall k :: k in names ==> Find(Merge(ArrayOf(Nulls(names)), CommonAssocArgs), k) == Some(VNull)
    ensures forall k :: k in names ==> Find(Merge(CommonAssocArgs, ArrayOf(Nulls(names))), k) == Some(VNull)
  {
    ArrayOfNulls(names, "ssl_verify");
    ArrayOfNulls(names, "vdc_debug");
    forall k | k in names
      ensures Find(Merge(ArrayOf(Nulls(names)), CommonAssocArgs), k) == Some(VNull)
      ensures Find(Merge(CommonAssocArgs, ArrayOf(Nulls(names))), k) == Some(VNull)
    {
      ArrayOfNulls(names, k);
    }
  }

  /** A command sends ssl_verify (true unless supplied), never vdc_debug,
      and every option its mapping leaves alone whose merged default is
      null, under its own name and null unless supplied. */
  lemma NullDefaultsSent(mapping: NameMapping, names: seq<string>, base: Dict, assocArgs: Dict)
    requires Untouched(mapping, "ssl_verify") && Untouched(mapping, "vdc_debug")
    requires forall k :: k in names ==> k != "vdc_debug" && k != "verify"
    requires Find(base, "ssl_verify") == Some(VBool(true))
    requires forall k :: k in names ==> Find(base, k) == Some(VNull)
    ensures Find(Shaped(mapping, Merge(base, assocArgs)), "vdc_debug") == None
    ensures Find(Shaped(mapping, Merge(base, assocArgs)), "ssl_verify")
         == Some(OptionValue(assocArgs, "ssl_verify", VBool(true)))
    ensures forall k :: k in names && Untouched(mapping, k) ==>
      Find(Shaped(mapping, Merge(base, assocArgs)), k) == Some(OptionValue(assocArgs, k, VNull))
  {
    CommonOptionsSent(mapping, base, assocArgs);
    forall k | k in names && Untouched(mapping, k)
      ensures Find(Shaped(mapping, Merge(base, assocArgs)), k) == Some(OptionValue(assocArgs, k, VNull))
    {
      NullOptionSent(mapping, base, assocArgs, k);
    }
  }

  /** The configuration a command sets up: SSL verification from
      ssl_verify, true unless supplied, and debugging from vdc_debug, false
      unless supplied. */
  lemma ConfigSettings(base: Dict, assocArgs: Dict)
    requires Find(base, "ssl_verify") == Some(VBool(true)) && Find(base, "vdc_debug") == Some(VBool(false))
    ensures Lookup(Merge(base, assocArgs), "ssl_verify") == OptionValue(assocArgs, "ssl_verify", VBool(true))
    ensures Lookup(Merge(base, assocArgs), "vdc_debug") == OptionValue(assocArgs, "vdc_debug", VBool(false))
  {
  }

  /** The configuration a command over null defaults sets up, whichever
      way round its defaults and the common options are merged. */
  lemma NullBaseSettings(names: seq<string>, assocArgs: Dict)
    requires forall k :: k in names ==> k != "vdc_debug" && k != "ssl_verify"
    ensures Lookup(Options(Merge(ArrayOf(Nulls(names)), CommonAssocArgs), assocArgs), "ssl_verify")
         == OptionValue(assocArgs, "ssl_verify", VBool(true))
    ensures Lookup(Options(Merge(ArrayOf(Nulls(names)), CommonAssocArgs), assocArgs), "vdc_debug")
         == OptionValue(assocArgs, "vdc_debug", VBool(false))
    ensures Lookup(Options(Merge(CommonAssocArgs, ArrayOf(Nulls(names))), assocArgs), "ssl_verify")
         == OptionValue(assocArgs, "ssl_verify", VBool(true))
    ensures Lookup(Options(Merge(CommonAssocArgs, ArrayOf(Nulls(names))), assocArgs), "vdc_debug")
         == OptionValue(assocArgs, "vdc_debug", VBool(false))
  {
    NullBases(names);
    ConfigSettings(Merge(ArrayOf(Nulls(names)), CommonAssocArgs), assocArgs);
    ConfigSettings(Merge(CommonAssocArgs, ArrayOf(Nulls(names))), assocArgs);
  }

  /** Every command sends ssl_verify, true unless supplied, whenever its
      mapping leaves the name alone and its merged defaults hold true there,
      and never sends vdc_debug. */
  lemma CommonOptionsSent(mapping: NameMapping, base: Dict, assocArgs: Dict)
    requires Untouched(mapping, "ssl_verify") && Untouched(mapping, "vdc_debug")
    requires Find(base, "ssl_verify") == Some(VBool(true))
    ensures Find(Shaped(mapping, Merge(base, assocArgs)), "ssl_verify")
         == Some(OptionValue(assocArgs, "ssl_verify", VBool(true)))
    ensures Find(Shaped(mapping, Merge(base, assocArgs)), "vdc_debug") == None
  {
    ShapedOption(mapping, base, assocArgs, "ssl_verify");
    ShapedKeeps(mapping, Merge(base, assocArgs), "vdc_debug");
  }

  /** An option whose merged default is null is sent, under its own name,
      null unless supplied. */
  lemma NullOptionSent(mapping: NameMapping, base: Dict, assocArgs: Dict, k: string)
    requires Untouched(mapping, k) && k != "vdc_debug" && k != "verify"
    requires Find(base, k) == Some(VNull)
    ensures Find(Shaped(mapping, Merge(base, assocArgs)), k) == Some(OptionValue(assocArgs, k, VNull))
  {
    ShapedOption(mapping, base, assocArgs, k);
  }
}
