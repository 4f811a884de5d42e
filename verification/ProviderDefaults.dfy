/** Defaulting a provider and following the catalogue's version (internal/provider/defaults.go, IsLatestVersion of
    internal/controllers/clusterctl/config.go). `parse` is the semantic version parser, applied to the text after
    one leading "v". */
module ProviderDefaults {
  import opened Wrappers
  import opened SemVer
  import opened ClusterctlConfig

  type Strings = map<string, string>
  type Parser = string -> Option<Version>

  datatype Features = Features(clusterResourceSet: bool, clusterTopology: bool, machinePool: bool)

  datatype SecretRef = SecretRef(name: string, ns: string)

  datatype Status = True | False | Unknown

  datatype Condition = Condition(status: Status, message: string)

  /** What the catalogue says of the provider. */
  datatype Catalogue = Catalogue(version: string, known: bool)

  const UPDATED: string := "Updated to latest "
  const AVAILABLE: string := "Provider version update available. Current latest is "

  function UpdatedMessage(version: string): string {
    UPDATED + version + " version"
  }

  function CutV(s: string): string {
    if s != "" && s[0] == 'v' then s[1..] else s
  }

  function Parsed(parse: Parser, s: string): Option<Version> {
    parse(CutV(s))
  }

  /** Neither empty, which means the latest, nor "latest". */
  predicate Concrete(version: string) {
    version != "" && version != LATEST
  }

  /** IsLatestVersion; None is a parse error. */
  function IsLatestVersion(parse: Parser, catalogue: string, expected: string): Option<bool> {
    if catalogue == LATEST then Some(true)
    else if Parsed(parse, catalogue).None? then None
    else if !Concrete(expected) then Some(false)
    else if Parsed(parse, expected).None? then None
    else Some(AtMost(Parsed(parse, catalogue).value, Parsed(parse, expected).value))
  }

  datatype Versioned = Versioned(version: string, condition: Option<Condition>)

  /** setLatestVersion on the version of the spec and the condition; None is an error. */
  function Advance(parse: Parser, v: Versioned, auto: bool, c: Catalogue): Option<Versioned> {
    var latest := IsLatestVersion(parse, c.version, v.version);
    if latest.None? then None
    else if !c.known then Some(v.(condition := Some(Condition(Unknown, "Provider is unknown"))))
    else if latest.value then Some(Versioned(c.version, Some(Condition(True, "Latest version is set"))))
    else if !auto then Some(v.(condition := Some(Condition(False, AVAILABLE + c.version))))
    else if v.condition.Some? && v.condition.value.message == UpdatedMessage(c.version) then Some(v.(version := c.version))
    else Some(Versioned(c.version, Some(Condition(True, UpdatedMessage(c.version)))))
  }

  /** The condition tells the truth: Unknown for an unknown provider, whose version stays; else True exactly when
      the version now is the catalogue's, and False exactly when an update is left to the user. */
  lemma ConditionExactly(parse: Parser, v: Versioned, auto: bool, c: Catalogue)
    requires Advance(parse, v, auto, c).Some? && c.version != "" && Sincere(v, c.version)
    ensures var after := Advance(parse, v, auto, c).value;
      if !c.known then StatusOf(after) == Some(Unknown) && after.version == v.version
      else
        && (StatusOf(after) == Some(True) <==> after.version == c.version)
        && (StatusOf(after) == Some(False) <==> after.version != c.version)
        && (StatusOf(after) == Some(False) ==> !auto && after.version == v.version)
  {
    if c.version != LATEST {
      PrecedenceTotal(Parsed(parse, c.version).value, Parsed(parse, c.version).value);
    }
  }

  /** The catalogue has an update for the version: it is unset or "latest", or comes before the catalogue's. */
  ghost predicate UpdateDue(parse: Parser, version: string, catalogue: string)
    requires catalogue != "latest" ==> Parsed(parse, catalogue).Some? && (version != "" && version != "latest" ==> Parsed(parse, version).Some?)
  {
    && catalogue != "latest"
    && (version == "" || version == "latest" || !AtMost(Parsed(parse, catalogue).value, Parsed(parse, version).value))
  }

  /** A run fails exactly when a version that counts does not parse. Otherwise the version becomes the catalogue's, unless
      the provider is unknown or an update is left to the user; the condition tells these cases apart. */
  lemma AdvanceExactly(parse: Parser, v: Versioned, auto: bool, c: Catalogue)
    ensures var after := Advance(parse, v, auto, c);
      && (after.None? <==>
            && c.version != "latest"
            && (Parsed(parse, c.version).None? || (v.version != "" && v.version != "latest" && Parsed(parse, v.version).None?)))
      && (after.Some? ==>
            var due := UpdateDue(parse, v.version, c.version);
            && after.value.version == (if c.known && (auto || !due) then c.version else v.version)
            && (!c.known ==> StatusOf(after.value) == Some(Unknown))
            && (c.known && !due ==> StatusOf(after.value) == Some(True))
            && (c.known && due && !auto ==> StatusOf(after.value) == Some(False)))
  {
  }

  /** The texts of the condition that name a version. */
  lemma TextsAre(version: string)
    ensures AVAILABLE + version == "Provider version update available. Current latest is " + version
    ensures UpdatedMessage(version) == "Updated to latest " + version + " version"
  {
  }

  /** What the condition says then; an announced update is not announced again. */
  lemma MessagesExactly(parse: Parser, v: Versioned, auto: bool, c: Catalogue)
    requires Advance(parse, v, auto, c).Some?
    ensures var now := Advance(parse, v, auto, c).value.condition;
      if !c.known then now == Some(Condition(Unknown, "Provider is unknown"))
      else
        || now == Some(Condition(True, "Latest version is set"))
        || (!auto && now == Some(Condition(False, AVAILABLE + c.version)))
        || (auto && now.Some? && now.value.message == UpdatedMessage(c.version) && (now.value.status.True? || now == v.condition))
  {
    hide IsLatestVersion, UpdatedMessage;
  }

  /** One leading "v" does not count. */
  lemma ParsedCuts(parse: Parser, s: string)
    ensures Parsed(parse, "v" + s) == parse(s)
    ensures s == "" || s[0] != 'v' ==> Parsed(parse, s) == parse(s)
  {
  }

  // --- The version never goes beyond the catalogue, nor back ---

  ghost predicate Within(parse: Parser, version: string, catalogue: string) {
    Parsed(parse, version).Some? && Parsed(parse, catalogue).Some? && AtMost(Parsed(parse, version).value, Parsed(parse, catalogue).value)
  }

  /** After a successful run the version is unset, "latest" or at most the catalogue's. */
  lemma AdvanceClamps(parse: Parser, v: Versioned, auto: bool, catalogue: string)
    requires catalogue != LATEST && Advance(parse, v, auto, Catalogue(catalogue, true)).Some?
    ensures var after := Advance(parse, v, auto, Catalogue(catalogue, true)).value.version;
      after == "" || after == "latest" || Within(parse, after, catalogue)
    ensures auto ==> Advance(parse, v, auto, Catalogue(catalogue, true)).value.version == catalogue
  {
    PrecedenceTotal(Parsed(parse, catalogue).value, Parsed(parse, catalogue).value);
    if Concrete(v.version) {
      PrecedenceTotal(Parsed(parse, catalogue).value, Parsed(parse, v.version).value);
    }
  }

  /** A run lowers the version if and only if it was beyond the catalogue. */
  lemma AdvanceLowersExactly(parse: Parser, v: Versioned, auto: bool, catalogue: string)
    requires catalogue != LATEST && Concrete(v.version)
    requires Parsed(parse, v.version).Some? && Parsed(parse, catalogue).Some?
    ensures var after := Advance(parse, v, auto, Catalogue(catalogue, true));
      && after.Some? && Parsed(parse, after.value.version).Some?
      && (!AtMost(Parsed(parse, v.version).value, Parsed(parse, after.value.version).value) <==> !Within(parse, v.version, catalogue))
  {
    PrecedenceTotal(Parsed(parse, catalogue).value, Parsed(parse, v.version).value);
    PrecedenceTotal(Parsed(parse, v.version).value, Parsed(parse, v.version).value);
  }

  /** One run: the catalogue of the day, and whether automatic updates are on. */
  datatype Run = Run(auto: bool, catalogue: Catalogue)

  /** A run that fails leaves everything as it was. */
  function AdvanceAll(parse: Parser, v: Versioned, runs: seq<Run>): Versioned
    decreases |runs|
  {
    if runs == [] then v
    else
      var before := AdvanceAll(parse, v, runs[..|runs| - 1]);
      var run := runs[|runs| - 1];
      Advance(parse, before, run.auto, run.catalogue).GetOr(before)
  }

  /** The provider is known, and the catalogue's versions parse and never go back. */
  ghost predicate Growing(parse: Parser, runs: seq<Run>) {
    && (forall i | 0 <= i < |runs| :: Listed(parse, runs[i].catalogue))
    && (forall i | 0 < i < |runs| :: Within(parse, runs[i - 1].catalogue.version, runs[i].catalogue.version))
  }

  ghost predicate Listed(parse: Parser, c: Catalogue) {
    c.known && Concrete(c.version) && Parsed(parse, c.version).Some?
  }

  lemma WithinTransitive(parse: Parser, a: string, b: string, c: string)
    requires Within(parse, a, b) && Within(parse, b, c)
    ensures Within(parse, a, c)
  {
    PrecedenceTransitive(Parsed(parse, a).value, Parsed(parse, b).value, Parsed(parse, c).value);
  }

  lemma WithinItself(parse: Parser, a: string)
    requires Parsed(parse, a).Some?
    ensures Within(parse, a, a)
  {
    PrecedenceTotal(Parsed(parse, a).value, Parsed(parse, a).value);
  }

  lemma OneRun(parse: Parser, v: Versioned, run: Run)
    requires Listed(parse, run.catalogue) && Concrete(v.version) && Within(parse, v.version, run.catalogue.version)
    ensures var after := AdvanceAll(parse, v, [run]).version;
      Concrete(after) && Within(parse, after, run.catalogue.version) && Within(parse, v.version, after)
  {
    assert [run][..0] == [];
    AdvanceLowersExactly(parse, v, run.auto, run.catalogue.version);
    AdvanceClamps(parse, v, run.auto, run.catalogue.version);
  }

  lemma LastRun(parse: Parser, v: Versioned, runs: seq<Run>)
    requires runs != []
    ensures AdvanceAll(parse, v, runs) == AdvanceAll(parse, AdvanceAll(parse, v, runs[..|runs| - 1]), [runs[|runs| - 1]])
  {
    assert [runs[|runs| - 1]][..0] == [];
  }

  /** Over any runs with a growing catalogue, a concrete version within the catalogue never decreases and stays
      within it, however automatic updates are switched. */
  lemma {:induction false} NeverDecreases(parse: Parser, v: Versioned, runs: seq<Run>, i: nat)
    requires Growing(parse, runs) && runs != [] && i <= |runs|
    requires Concrete(v.version) && Within(parse, v.version, runs[0].catalogue.version)
    ensures var mid, end := AdvanceAll(parse, v, runs[..i]).version, AdvanceAll(parse, v, runs).version;
      && Concrete(end) && Within(parse, end, runs[|runs| - 1].catalogue.version)
      && Within(parse, mid, end)
    decreases |runs|
  {
    hide Within, Parsed, AdvanceAll, Concrete;
    var n := |runs| - 1;
    var before := AdvanceAll(parse, v, runs[..n]);
    LastRun(parse, v, runs);
    if n > 0 {
      var j := if i <= n then i else n;
      NeverDecreases(parse, v, runs[..n], j);
      assert runs[..n][..j] == runs[..j];
      WithinTransitive(parse, before.version, runs[n - 1].catalogue.version, runs[n].catalogue.version);
    } else {
      assert runs[..0] == [] && AdvanceAll(parse, v, []) == v by { NoRuns(parse, v); }
    }
    OneRun(parse, before, runs[n]);
    var end := AdvanceAll(parse, v, runs).version;
    if i == |runs| {
      assert runs[..i] == runs;
      ParsedWithin(parse, end, runs[n].catalogue.version);
      WithinItself(parse, end);
    } else if n > 0 {
      WithinTransitive(parse, AdvanceAll(parse, v, runs[..i]).version, before.version, end);
    }
  }

  lemma NoRuns(parse: Parser, v: Versioned)
    ensures AdvanceAll(parse, v, []) == v
  {
  }

  lemma ParsedWithin(parse: Parser, a: string, b: string)
    requires Within(parse, a, b)
    ensures Parsed(parse, a).Some?
  {
  }

  // --- Where the catalogue's version comes from ---

  /** The layered lookup: a provider of the base has its last override, a new one its first. */
  function LayeredCatalogue(base: seq<Provider>, overrides: seq<Provider>, name: string, kind: string): Catalogue {
    var key := name + "-" + kind;
    var found := if FirstNamed(base, key).Some? then Some(LastWith(overrides, key).GetOr(FirstNamed(base, key).value))
                 else FirstNamed(overrides, key);
    if found.Some? then Catalogue(CollectVersion(found.value.url), true) else Catalogue(LATEST, false)
  }

  /** Merging the configuration and searching it finds what the layered lookup finds. */
  method FindCatalogue(base: Config, user: Option<UserConfig>, registry: Registry, name: string, kind: string, fold: string -> string)
    returns (c: Option<Catalogue>)
    ensures c.None? <==> user.None? || registry.Unreadable?
    ensures c.Some? && DistinctKeys(base.providers) && PlainKinds(base.providers, kind, fold) && PlainKinds(user.value.providers, kind, fold) ==>
      c.value == LayeredCatalogue(base.providers, user.value.providers, name, kind)
  {
    hide Layered, CollectVersion;
    var config := ClusterConfig(base, user, registry);
    if config.None? {
      return None;
    }
    var version, known := GetProviderVersion(config.value.providers, name, kind, fold);
    if DistinctKeys(base.providers) && PlainKinds(base.providers, kind, fold) && PlainKinds(user.value.providers, kind, fold) {
      MergedKinds(base.providers, user.value.providers, config.value.providers, kind, fold);
      LookupIsLayered(base.providers, user.value.providers, config.value.providers, name, kind, fold);
    }
    c := Some(Catalogue(version, known));
  }

  lemma MergedKinds(base: seq<Provider>, overrides: seq<Provider>, merged: seq<Provider>, kind: string, fold: string -> string)
    requires Layered(base, overrides, merged)
    requires PlainKinds(base, kind, fold) && PlainKinds(overrides, kind, fold)
    ensures PlainKinds(merged, kind, fold)
  {
    NewOnesFrom(base, overrides);
    forall i | 0 <= i < |merged|
      ensures merged[i] in base || merged[i] in overrides
    {
      if i < |base| {
        LastWithSome(overrides, Key(base[i]));
      } else {
        assert merged[i] == merged[|base|..][i - |base|];
      }
    }
  }

  lemma {:induction false} NewOnesFrom(base: seq<Provider>, overrides: seq<Provider>)
    ensures forall p | p in NewOnes(base, overrides) :: p in overrides
    decreases |overrides|
  {
    if overrides != [] {
      NewOnesFrom(base, overrides[..|overrides| - 1]);
    }
  }

  // --- Spec and variables ---

  datatype Fixed = Fixed(name: string, ns: string, specName: string, specVariables: Strings, features: Option<Features>, auto: bool)

  /** What a run may change. `variables` is None before the status holds any. */
  datatype Mutable = Mutable(versioned: Versioned, configSecret: Option<SecretRef>, manifests: Option<SecretRef>, variables: Option<Strings>)

  function ProviderName(f: Fixed): string {
    if f.specName != "" then f.specName else f.name
  }

  function FormatBool(b: bool): string {
    if b then "true" else "false"
  }

  function FeatureVariables(f: Option<Features>): Strings {
    if f.None? then map[]
    else map[
      "EXP_CLUSTER_RESOURCE_SET" := FormatBool(f.value.clusterResourceSet),
      "CLUSTER_TOPOLOGY" := FormatBool(f.value.clusterTopology),
      "EXP_MACHINE_POOL" := FormatBool(f.value.machinePool)]
  }

  function ProviderVariables(name: string): Strings {
    if name == "azure" then map["EXP_AKS_RESOURCE_HEALTH" := "true"]
    else if name == "gcp" then map["EXP_CAPG_GKE" := "true"]
    else map[]
  }

  function FillNamespace(ref: SecretRef, ns: string): SecretRef {
    if ref.ns == "" then ref.(ns := ns) else ref
  }

  /** Writing into the status needs a map there, except for the variables of a provider by name. */
  predicate NeedsVariables(f: Fixed) {
    f.specVariables != map[] || f.features.Some?
  }

  class CAPIProvider {
    const fixed: Fixed
    var version: string
    var condition: Option<Condition>
    var configSecret: Option<SecretRef>
    var manifests: Option<SecretRef>
    var variables: Option<Strings>

    constructor (fixed: Fixed, m: Mutable)
      ensures this.fixed == fixed && View() == m
    {
      this.fixed := fixed;
      version, condition := m.versioned.version, m.versioned.condition;
      configSecret, manifests, variables := m.configSecret, m.manifests, m.variables;
    }

    ghost function View(): Mutable
      reads this
    {
      Mutable(Versioned(version, condition), configSecret, manifests, variables)
    }

    method SetVariables()
      requires fixed.specVariables != map[] ==> variables.Some?
      modifies this`variables
      ensures variables == if old(variables).None? then None else Some(old(variables).value + fixed.specVariables)
    {
      if variables.Some? {
        variables := Some(variables.value + fixed.specVariables);
      }
    }

    method SetFeatures()
      requires fixed.features.Some? ==> variables.Some?
      modifies this`variables
      ensures variables == if old(variables).None? then None else Some(old(variables).value + FeatureVariables(fixed.features))
      ensures fixed.features.Some? ==> variables.Some? && FeaturesIn(variables.value, fixed.features.value)
    {
      if fixed.features.Some? {
        var f := fixed.features.value;
        ghost var before := variables.value;
        var v := variables.value;
        v := v["EXP_CLUSTER_RESOURCE_SET" := FormatBool(f.clusterResourceSet)];
        v := v["CLUSTER_TOPOLOGY" := FormatBool(f.clusterTopology)];
        v := v["EXP_MACHINE_POOL" := FormatBool(f.machinePool)];
        assert v == before + FeatureVariables(fixed.features);
        variables := Some(v);
      } else if variables.Some? {
        assert variables.value + map[] == variables.value;
      }
    }

    method SetDefaultProviderSpec()
      requires NeedsVariables(fixed) ==> variables.Some?
      modifies this
      ensures View() == Defaulted(fixed, old(View()))
    {
      if configSecret.Some? && configSecret.value.ns == "" {
        configSecret := Some(configSecret.value.(ns := fixed.ns));
      }
      if manifests.Some? && manifests.value.ns == "" {
        manifests := Some(manifests.value.(ns := fixed.ns));
      }
      SetVariables();
      SetFeatures();
      if configSecret.None? {
        configSecret := Some(SecretRef(fixed.name, ""));
      }
      if configSecret.value.ns == "" {
        configSecret := Some(configSecret.value.(ns := fixed.ns));
      }
    }

    method SetLatestVersion(parse: Parser, catalogue: Catalogue) returns (err: bool)
      modifies this`version, this`condition
      ensures var after := Advance(parse, old(Versioned(version, condition)), fixed.auto, catalogue);
        if after.None? then err && version == old(version) && condition == old(condition)
        else !err && Versioned(version, condition) == after.value
    {
      hide IsLatestVersion;
      var latest := IsLatestVersion(parse, catalogue.version, version);
      if latest.None? {
        return true;
      }
      if !catalogue.known {
        condition := Some(Condition(Unknown, "Provider is unknown"));
      } else if latest.value {
        condition := Some(Condition(True, "Latest version is set"));
        version := catalogue.version;
      } else if !fixed.auto {
        condition := Some(Condition(False, AVAILABLE + catalogue.version));
      } else {
        if condition.None? || condition.value.message != UpdatedMessage(catalogue.version) {
          condition := Some(Condition(True, UpdatedMessage(catalogue.version)));
        }
        version := catalogue.version;
      }
      err := false;
    }

    /** The whole run, as SpecSet. */
    method SetProviderSpec(parse: Parser, catalogue: Catalogue) returns (err: bool)
      requires NeedsVariables(fixed) ==> variables.Some?
      modifies this
      ensures (View(), err) == SpecSet(parse, fixed, old(View()), catalogue)
    {
      SetDefaultProviderSpec();
      err := SetLatestVersion(parse, catalogue);
      if err {
        return;
      }
      ghost var before := variables;
      var name := ProviderName(fixed);
      if name == "azure" {
        if variables.None? {
          variables := Some(map[]);
        }
        variables := Some(variables.value["EXP_AKS_RESOURCE_HEALTH" := "true"]);
      } else if name == "gcp" {
        if variables.None? {
          variables := Some(map[]);
        }
        variables := Some(variables.value["EXP_CAPG_GKE" := "true"]);
      }
      assert variables == WithOwn(fixed, before) by { OwnVariables(fixed, before.GetOr(map[])); }
    }
  }

  function Defaulted(f: Fixed, m: Mutable): Mutable {
    m.(configSecret := Some(FillNamespace(m.configSecret.GetOr(SecretRef(f.name, "")), f.ns)),
       manifests := if m.manifests.None? then None else Some(FillNamespace(m.manifests.value, f.ns)),
       variables := if m.variables.None? then None else Some(m.variables.value + f.specVariables + FeatureVariables(f.features)))
  }

  /** SetProviderSpec, and whether it fails. */
  function SpecSet(parse: Parser, f: Fixed, m: Mutable, catalogue: Catalogue): (Mutable, bool) {
    var d := Defaulted(f, m);
    var after := Advance(parse, m.versioned, f.auto, catalogue);
    if after.None? then (d, true) else (d.(versioned := after.value, variables := WithOwn(f, d.variables)), false)
  }

  lemma OwnVariables(f: Fixed, v: Strings)
    ensures ProviderName(f) == "azure" ==> v + ProviderVariables(ProviderName(f)) == v["EXP_AKS_RESOURCE_HEALTH" := "true"]
    ensures ProviderName(f) == "gcp" ==> v + ProviderVariables(ProviderName(f)) == v["EXP_CAPG_GKE" := "true"]
    ensures ProviderVariables(ProviderName(f)) == map[] <==> ProviderName(f) != "azure" && ProviderName(f) != "gcp"
  {
    assert "EXP_AKS_RESOURCE_HEALTH" in ProviderVariables("azure") && "EXP_CAPG_GKE" in ProviderVariables("gcp");
  }

  function WithOwn(f: Fixed, variables: Option<Strings>): Option<Strings> {
    var own := ProviderVariables(ProviderName(f));
    if own == map[] then variables else Some(variables.GetOr(map[]) + own)
  }

  /** Provider-specific variables win over features, features over the spec, the spec over the previous status;
      other keys are kept. The config secret is set. */
  lemma VariablesPrecedence(parse: Parser, f: Fixed, m: Mutable, catalogue: Catalogue, key: string)
    requires m.variables.Some? && !SpecSet(parse, f, m, catalogue).1
    ensures var after := SpecSet(parse, f, m, catalogue).0;
      var own, features := ProviderVariables(ProviderName(f)), FeatureVariables(f.features);
      && after.variables.Some?
      && (if key in own then key in after.variables.value && after.variables.value[key] == own[key]
          else if key in features then key in after.variables.value && after.variables.value[key] == features[key]
          else if key in f.specVariables then key in after.variables.value && after.variables.value[key] == f.specVariables[key]
          else (key in after.variables.value <==> key in m.variables.value)
               && (key in m.variables.value ==> after.variables.value[key] == m.variables.value[key]))
      && after.configSecret.Some? && (f.ns != "" ==> after.configSecret.value.ns != "")
      && after.configSecret.value.name == m.configSecret.GetOr(SecretRef(f.name, "")).name
  {
  }

  /** A feature is the text "true" or "false" under its name. */
  ghost predicate FeaturesIn(v: Strings, f: Features) {
    && "EXP_CLUSTER_RESOURCE_SET" in v && v["EXP_CLUSTER_RESOURCE_SET"] == (if f.clusterResourceSet then "true" else "false")
    && "CLUSTER_TOPOLOGY" in v && v["CLUSTER_TOPOLOGY"] == (if f.clusterTopology then "true" else "false")
    && "EXP_MACHINE_POOL" in v && v["EXP_MACHINE_POOL"] == (if f.machinePool then "true" else "false")
  }

  predicate IsFeature(key: string) {
    key == "EXP_CLUSTER_RESOURCE_SET" || key == "CLUSTER_TOPOLOGY" || key == "EXP_MACHINE_POOL"
  }

  predicate IsOwn(f: Fixed, key: string) {
    var name := if f.specName != "" then f.specName else f.name;
    (name == "azure" && key == "EXP_AKS_RESOURCE_HEALTH") || (name == "gcp" && key == "EXP_CAPG_GKE")
  }

  ghost predicate RefIs(after: Option<SecretRef>, name: string, ns: string, default: string) {
    after == Some(SecretRef(name, if ns == "" then default else ns))
  }

  lemma FeaturesAreNotOwn(f: Fixed)
    ensures forall key | IsFeature(key) :: !IsOwn(f, key)
  {
    assert "EXP_CLUSTER_RESOURCE_SET"[4..6] == "CL" && "CLUSTER_TOPOLOGY"[4..6] == "TE" && "EXP_MACHINE_POOL"[4..6] == "MA";
    assert "EXP_AKS_RESOURCE_HEALTH"[4..6] == "AK" && "EXP_CAPG_GKE"[4..6] == "CA";
  }

  /** The layers of variables, in plain terms. */
  lemma LayersAre(f: Fixed, v: Strings)
    ensures var after := v + f.specVariables + FeatureVariables(f.features) + ProviderVariables(ProviderName(f));
      && (f.features.Some? ==> FeaturesIn(after, f.features.value))
      && (forall key | IsOwn(f, key) :: key in after && after[key] == "true")
      && (forall key | !IsOwn(f, key) && !(f.features.Some? && IsFeature(key)) ::
            if key in f.specVariables then key in after && after[key] == f.specVariables[key]
            else (key in after <==> key in v) && (key in v ==> after[key] == v[key]))
  {
    FeaturesAreNotOwn(f);
    assert forall key :: key in ProviderVariables(ProviderName(f)) <==> IsOwn(f, key);
    assert f.features.Some? ==> forall key :: key in FeatureVariables(f.features) <==> IsFeature(key);
  }

  /** What a successful run leaves, in plain terms. */
  lemma SpecIs(parse: Parser, f: Fixed, m: Mutable, catalogue: Catalogue)
    requires m.variables.Some? && !SpecSet(parse, f, m, catalogue).1
    ensures var after := SpecSet(parse, f, m, catalogue).0;
      && after.variables.Some?
      && (f.features.Some? ==> FeaturesIn(after.variables.value, f.features.value))
      && (forall key | IsOwn(f, key) :: key in after.variables.value && after.variables.value[key] == "true")
      && (forall key | !IsOwn(f, key) && !(f.features.Some? && IsFeature(key)) ::
            if key in f.specVariables then key in after.variables.value && after.variables.value[key] == f.specVariables[key]
            else (key in after.variables.value <==> key in m.variables.value)
                 && (key in m.variables.value ==> after.variables.value[key] == m.variables.value[key]))
    ensures var after := SpecSet(parse, f, m, catalogue).0;
      && (m.configSecret.None? ==> RefIs(after.configSecret, f.name, "", f.ns))
      && (m.configSecret.Some? ==> RefIs(after.configSecret, m.configSecret.value.name, m.configSecret.value.ns, f.ns))
      && (m.manifests.None? ==> after.manifests.None?)
      && (m.manifests.Some? ==> RefIs(after.manifests, m.manifests.value.name, m.manifests.value.ns, f.ns))
  {
    hide Advance, FeatureVariables, ProviderVariables, FeaturesIn, IsOwn, IsFeature, ProviderName;
    LayersAre(f, m.variables.value);
    var layers := m.variables.value + f.specVariables + FeatureVariables(f.features);
    assert layers + map[] == layers;
  }

  /** The condition says "updated" only with status True. Runs keep this. */
  ghost predicate Sincere(v: Versioned, catalogue: string) {
    v.condition.Some? && v.condition.value.message == UpdatedMessage(catalogue) ==> v.condition.value.status.True?
  }

  lemma MessagesDiffer(s: string, t: string)
    ensures AVAILABLE + s != UpdatedMessage(t) && "Provider is unknown" != UpdatedMessage(t) && "Latest version is set" != UpdatedMessage(t)
  {
    assert AVAILABLE[17] == 'u' && UPDATED[17] == ' ';
    assert UPDATED[0] == 'U' && "Provider is unknown"[0] == 'P' && "Latest version is set"[0] == 'L';
    assert (AVAILABLE + s)[17] == AVAILABLE[17] && (UPDATED + t + " version")[17] == UPDATED[17] && (UPDATED + t + " version")[0] == UPDATED[0];
  }

  lemma RunsKeepSincere(parse: Parser, v: Versioned, auto: bool, c: Catalogue, catalogue: string)
    requires Sincere(v, catalogue) && Advance(parse, v, auto, c).Some?
    ensures Sincere(Advance(parse, v, auto, c).value, catalogue)
  {
    MessagesDiffer(c.version, catalogue);
  }

  function StatusOf(v: Versioned): Option<Status> {
    if v.condition.None? then None else Some(v.condition.value.status)
  }

  /** An update is due under a condition that already announces it without being True. */
  ghost predicate AnnouncedUntrue(parse: Parser, v: Versioned, auto: bool, c: Catalogue) {
    && c.known && auto && IsLatestVersion(parse, c.version, v.version) == Some(false)
    && v.condition.Some? && v.condition.value.message == UpdatedMessage(c.version) && !v.condition.value.status.True?
  }

  lemma SincereIsNotUntrue(parse: Parser, v: Versioned, auto: bool, c: Catalogue)
    requires Sincere(v, c.version)
    ensures !AnnouncedUntrue(parse, v, auto, c)
  {
  }

  lemma AdvanceSettles(parse: Parser, v: Versioned, auto: bool, c: Catalogue)
    requires Parsed(parse, "").None? && Advance(parse, v, auto, c).Some?
    ensures var once := Advance(parse, v, auto, c).value; var twice := Advance(parse, once, auto, c);
      && twice.Some? && twice.value.version == once.version
      && (StatusOf(twice.value) == StatusOf(once) <==> !AnnouncedUntrue(parse, v, auto, c))
  {
    if c.version != LATEST {
      PrecedenceTotal(Parsed(parse, c.version).value, Parsed(parse, c.version).value);
    }
  }

  /** A second run with the same catalogue changes neither spec nor variables; it keeps the status of the condition
      too if and only if the condition did not announce the update before it was made, untruly. The empty text is
      no version. */
  lemma SecondRunChangesNothing(parse: Parser, f: Fixed, m: Mutable, catalogue: Catalogue)
    requires Parsed(parse, "").None?
    requires (NeedsVariables(f) ==> m.variables.Some?) && !SpecSet(parse, f, m, catalogue).1
    ensures var once := SpecSet(parse, f, m, catalogue).0; var (twice, err) := SpecSet(parse, f, once, catalogue);
      && !err
      && twice == once.(versioned := twice.versioned) && twice.versioned.version == once.versioned.version
      && (StatusOf(twice.versioned) == StatusOf(once.versioned) <==> !AnnouncedUntrue(parse, m.versioned, f.auto, catalogue))
  {
    hide Advance, AnnouncedUntrue, WithOwn, FeatureVariables;
    AdvanceSettles(parse, m.versioned, f.auto, catalogue);
    VariablesSettle(f, m);
  }

  lemma {:induction false} AllRunsKeepSincere(parse: Parser, v: Versioned, runs: seq<Run>, catalogue: string)
    requires Sincere(v, catalogue)
    ensures Sincere(AdvanceAll(parse, v, runs), catalogue)
    decreases |runs|
  {
    hide Sincere, Advance;
    if runs != [] {
      var run := runs[|runs| - 1];
      var before := AdvanceAll(parse, v, runs[..|runs| - 1]);
      AllRunsKeepSincere(parse, v, runs[..|runs| - 1], catalogue);
      if Advance(parse, before, run.auto, run.catalogue).Some? {
        RunsKeepSincere(parse, before, run.auto, run.catalogue, catalogue);
      }
    }
  }

  /** For a provider that starts without the condition, whatever runs it has seen, a run that succeeds is a fixpoint
      with the same catalogue: neither spec, variables nor the status of the condition change in the next one. */
  lemma SettledAfterAnyRuns(parse: Parser, f: Fixed, m: Mutable, runs: seq<Run>, catalogue: Catalogue)
    requires Parsed(parse, "").None? && m.versioned.condition.None?
    requires var now := m.(versioned := AdvanceAll(parse, m.versioned, runs));
      (NeedsVariables(f) ==> now.variables.Some?) && !SpecSet(parse, f, now, catalogue).1
    ensures var now := m.(versioned := AdvanceAll(parse, m.versioned, runs));
      var once := SpecSet(parse, f, now, catalogue).0; var (twice, err) := SpecSet(parse, f, once, catalogue);
      && !err && twice == once.(versioned := twice.versioned)
      && twice.versioned.version == once.versioned.version && StatusOf(twice.versioned) == StatusOf(once.versioned)
  {
    hide SpecSet, Advance, AnnouncedUntrue;
    var now := m.(versioned := AdvanceAll(parse, m.versioned, runs));
    AllRunsKeepSincere(parse, m.versioned, runs, catalogue.version);
    SincereIsNotUntrue(parse, now.versioned, f.auto, catalogue);
    SecondRunChangesNothing(parse, f, now, catalogue);
  }

  lemma VariablesSettle(f: Fixed, m: Mutable)
    requires NeedsVariables(f) ==> m.variables.Some?
    ensures var once := WithOwn(f, Defaulted(f, m).variables);
      WithOwn(f, Defaulted(f, m.(variables := once)).variables) == once
  {
    hide FeatureVariables, ProviderVariables;
    var own, features := ProviderVariables(ProviderName(f)), FeatureVariables(f.features);
    if m.variables.Some? {
      var v := m.variables.value + f.specVariables + features;
      assert v + own + f.specVariables + features + own == v + own;
      assert v + f.specVariables + features == v;
    } else {
      assert features == map[] by { NoFeatures(); }
      assert own + map[] + map[] == own && map[] + own == own && own + own == own;
    }
  }

  lemma NoFeatures()
    ensures FeatureVariables(None) == map[]
  {
  }
}
