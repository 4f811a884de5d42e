/** Cloud credentials mapped to provider variables (internal/sync/secret_mapper_sync.go). */
module Credentials {
  import opened Wrappers
  import opened Base64

  type Data = map<string, Bytes>

  /** What a template gives for some data, rendering being left to the caller. */
  datatype Rendering = Text(text: Bytes) | Failure(message: Bytes)

  datatype Convert = Raw(source: string) | B64(source: string) | Template(sources: seq<string>)

  datatype Mapping = Mapping(target: string, from: Convert)

  const AWS: seq<Mapping> := [
    Mapping("AWS_ACCESS_KEY_ID", Raw("amazonec2credentialConfig-accessKey")),
    Mapping("AWS_SECRET_ACCESS_KEY", Raw("amazonec2credentialConfig-secretKey")),
    Mapping("AWS_REGION", Raw("amazonec2credentialConfig-defaultRegion")),
    Mapping("AWS_B64ENCODED_CREDENTIALS", Template([
      "amazonec2credentialConfig-accessKey",
      "amazonec2credentialConfig-secretKey",
      "amazonec2credentialConfig-defaultRegion"]))]

  const AZURE: seq<Mapping> := [
    Mapping("AZURE_SUBSCRIPTION_ID", Raw("azurecredentialConfig-subscriptionId")),
    Mapping("AZURE_CLIENT_ID", Raw("azurecredentialConfig-clientId")),
    Mapping("AZURE_CLIENT_SECRET", Raw("azurecredentialConfig-clientSecret")),
    Mapping("AZURE_TENANT_ID", Raw("azurecredentialConfig-tenantId")),
    Mapping("AZURE_SUBSCRIPTION_ID_B64", B64("azurecredentialConfig-subscriptionId")),
    Mapping("AZURE_CLIENT_ID_B64", B64("azurecredentialConfig-clientId")),
    Mapping("AZURE_CLIENT_SECRET_B64", B64("azurecredentialConfig-clientSecret")),
    Mapping("AZURE_TENANT_ID_B64", B64("azurecredentialConfig-tenantId"))]

  const VSPHERE: seq<Mapping> := [
    Mapping("VSPHERE_PASSWORD", Raw("vmwarevspherecredentialConfig-password")),
    Mapping("VSPHERE_USERNAME", Raw("vmwarevspherecredentialConfig-username"))]

  const GCP: seq<Mapping> := [
    Mapping("GCP_B64ENCODED_CREDENTIALS", B64("googlecredentialConfig-authEncodedJson"))]

  const DIGITALOCEAN: seq<Mapping> := [
    Mapping("DIGITALOCEAN_ACCESS_TOKEN", Raw("digitaloceancredentialConfig-accessToken")),
    Mapping("DO_B64ENCODED_CREDENTIALS", B64("digitaloceancredentialConfig-accessToken"))]

  /** knownProviderRequirements; an unknown provider needs nothing. */
  function Requirements(provider: string): seq<Mapping> {
    if provider == "aws" then AWS
    else if provider == "azure" then AZURE
    else if provider == "vsphere" then VSPHERE
    else if provider == "gcp" then GCP
    else if provider == "digitalocean" then DIGITALOCEAN
    else []
  }

  function Sources(c: Convert): set<string> {
    match c
    case Raw(s) => {s}
    case B64(s) => {s}
    case Template(sources) => set s | s in sources
  }

  function Converted(c: Convert, data: Data, render: Data -> Rendering): Bytes {
    match c
    case Raw(s) => if s in data then data[s] else []
    case B64(s) => if s in data then Encode(data[s]) else []
    case Template(_) =>
      if !(Sources(c) <= data.Keys) then []
      else
        match render(data)
        case Text(t) => Encode(t)
        case Failure(message) => message
  }

  /** Everything Into writes for the given mappings. */
  function Mapped(reqs: seq<Mapping>, data: Data, render: Data -> Rendering): Data {
    if reqs == [] then map[]
    else
      var last := reqs[|reqs| - 1];
      Mapped(reqs[..|reqs| - 1], data, render)[last.target := Converted(last.from, data, render)]
  }

  lemma MappedNothing(data: Data, render: Data -> Rendering)
    ensures Mapped([], data, render) == map[]
  {
  }

  lemma MappedStep(reqs: seq<Mapping>, i: nat, to: Data, data: Data, render: Data -> Rendering)
    requires i < |reqs|
    ensures to + Mapped(reqs[..i + 1], data, render) ==
            (to + Mapped(reqs[..i], data, render))[reqs[i].target := Converted(reqs[i].from, data, render)]
  {
    hide Converted;
    assert reqs[..i + 1][..i] == reqs[..i];
  }

  /** Nothing but the targets is written. */
  lemma {:induction false} MappedKeys(reqs: seq<Mapping>, data: Data, render: Data -> Rendering)
    ensures Mapped(reqs, data, render).Keys == set i | 0 <= i < |reqs| :: reqs[i].target
    decreases |reqs|
  {
    hide Converted;
    if reqs != [] {
      var n := |reqs| - 1;
      MappedKeys(reqs[..n], data, render);
      assert (set i | 0 <= i < |reqs| :: reqs[i].target) == (set i | 0 <= i < n :: reqs[..n][i].target) + {reqs[n].target};
    }
  }

  /** The first source that is missing, as validate looks for it. */
  method Validate(c: Convert, data: Data) returns (missing: Option<string>)
    ensures missing.None? <==> Sources(c) <= data.Keys
    ensures missing.Some? ==> missing.value in Sources(c) && missing.value !in data
  {
    var sources := match c case Raw(s) => [s] case B64(s) => [s] case Template(sources) => sources;
    assert Sources(c) == set s | s in sources;
    for i := 0 to |sources|
      invariant forall j | 0 <= j < i :: sources[j] in data
    {
      if sources[i] !in data {
        return Some(sources[i]);
      }
    }
    missing := None;
  }

  /** Fills `to`, also when keys are missing; `errors` names what is missing. */
  method Into(provider: string, data: Data, to: Data, render: Data -> Rendering) returns (out: Data, errors: seq<string>)
    ensures out == to + Mapped(Requirements(provider), data, render)
    ensures forall i | 0 <= i < |Requirements(provider)| ::
      var m := Requirements(provider)[i];
      && (m.from.Raw? ==> RawEntry(out, m.target, data, m.from.source))
      && (m.from.B64? ==> EncodedEntry(out, m.target, data, m.from.source))
      && (m.from.Template? ==> RenderedEntry(out, m.target, data, render, Sources(m.from)))
    ensures errors == [] <==> forall i | 0 <= i < |Requirements(provider)| :: Sources(Requirements(provider)[i].from) <= data.Keys
    ensures forall e | e in errors :: e !in data
  {
    hide Requirements, Sources, Converted, Mapped;
    var reqs := Requirements(provider);
    out, errors := to, [];
    assert to + Mapped(reqs[..0], data, render) == to by { MappedNothing(data, render); }
    for i := 0 to |reqs|
      invariant out == to + Mapped(reqs[..i], data, render)
      invariant errors == [] <==> forall j | 0 <= j < i :: Sources(reqs[j].from) <= data.Keys
      invariant forall e | e in errors :: e !in data
    {
      var missing := Validate(reqs[i].from, data);
      if missing.Some? {
        errors := errors + [missing.value];
      }
      MappedStep(reqs, i, to, data, render);
      out := out[reqs[i].target := Converted(reqs[i].from, data, render)];
    }
    assert reqs[..|reqs|] == reqs;
    HoldsMore(to, Mapped(reqs, data, render));
    MappedHasEntries(provider, data, render, out);
  }

  /** Every target of the provider has its value: the bytes of its source, or a text that decodes to them or to the
      rendered template. */
  ghost predicate HasEntries(provider: string, out: Data, data: Data, render: Data -> Rendering) {
    forall i | 0 <= i < |Requirements(provider)| ::
      var m := Requirements(provider)[i];
      && (m.from.Raw? ==> RawEntry(out, m.target, data, m.from.source))
      && (m.from.B64? ==> EncodedEntry(out, m.target, data, m.from.source))
      && (m.from.Template? ==> RenderedEntry(out, m.target, data, render, Sources(m.from)))
  }

  /** The bytes of the source, or nothing. */
  ghost predicate RawEntry(out: Data, target: string, data: Data, source: string) {
    target in out && out[target] == if source in data then data[source] else []
  }

  /** A text that decodes to the bytes of the source, or nothing. */
  ghost predicate EncodedEntry(out: Data, target: string, data: Data, source: string) {
    target in out && (if source in data then Decode(out[target]) == Some(data[source]) else out[target] == [])
  }

  ghost predicate Holds(out: Data, m: Data) {
    forall q | q in m :: q in out && out[q] == m[q]
  }

  lemma HoldsMore(to: Data, m: Data)
    ensures Holds(to + m, m)
  {
  }

  lemma EntryAt(provider: string, data: Data, render: Data -> Rendering, out: Data, i: nat)
    requires Holds(out, Mapped(Requirements(provider), data, render)) && i < |Requirements(provider)|
    ensures var m := Requirements(provider)[i];
      && (m.from.Raw? ==> RawEntry(out, m.target, data, m.from.source))
      && (m.from.B64? ==> EncodedEntry(out, m.target, data, m.from.source))
  {
    hide Requirements, Mapped;
    MapsEachTarget(provider, data, render, i);
    var m := Requirements(provider)[i];
    if m.from.B64? && m.from.source in data {
      RoundTrip(data[m.from.source]);
    }
  }

  /** When the keys are there, a text that decodes to the rendered template, or why it does not render; else nothing. */
  ghost predicate RenderedEntry(out: Data, target: string, data: Data, render: Data -> Rendering, sources: set<string>) {
    && target in out
    && (sources <= data.Keys && render(data).Text? ==> Decode(out[target]) == Some(render(data).text))
    && (sources <= data.Keys && render(data).Failure? ==> out[target] == render(data).message)
    && (!(sources <= data.Keys) ==> out[target] == [])
  }

  lemma RenderedAt(provider: string, data: Data, render: Data -> Rendering, out: Data, i: nat)
    requires Holds(out, Mapped(Requirements(provider), data, render))
    requires i < |Requirements(provider)| && Requirements(provider)[i].from.Template?
    ensures var m := Requirements(provider)[i]; RenderedEntry(out, m.target, data, render, Sources(m.from))
  {
    hide Requirements, Mapped;
    MapsEachTarget(provider, data, render, i);
    if render(data).Text? {
      RoundTrip(render(data).text);
    }
  }

  lemma MappedHasEntries(provider: string, data: Data, render: Data -> Rendering, out: Data)
    requires Holds(out, Mapped(Requirements(provider), data, render))
    ensures HasEntries(provider, out, data, render)
  {
    hide Requirements, Mapped, RawEntry, EncodedEntry, RenderedEntry, Sources, Holds;
    forall i | 0 <= i < |Requirements(provider)|
      ensures var m := Requirements(provider)[i];
        && (m.from.Raw? ==> RawEntry(out, m.target, data, m.from.source))
        && (m.from.B64? ==> EncodedEntry(out, m.target, data, m.from.source))
        && (m.from.Template? ==> RenderedEntry(out, m.target, data, render, Sources(m.from)))
    {
      EntryAt(provider, data, render, out, i);
      if Requirements(provider)[i].from.Template? {
        RenderedAt(provider, data, render, out, i);
      }
    }
  }

  lemma EntryOf(provider: string, out: Data, data: Data, render: Data -> Rendering, i: nat)
    requires HasEntries(provider, out, data, render) && i < |Requirements(provider)|
    ensures var m := Requirements(provider)[i];
      && (m.from.Raw? ==> RawEntry(out, m.target, data, m.from.source))
      && (m.from.B64? ==> EncodedEntry(out, m.target, data, m.from.source))
      && (m.from.Template? ==> RenderedEntry(out, m.target, data, render, Sources(m.from)))
  {
  }

  lemma ThreeSources(a: string, b: string, c: string)
    ensures Sources(Template([a, b, c])) == {a, b, c}
  {
  }

  lemma AwsTemplate()
    ensures AWS[3].from.Template?
    ensures Sources(AWS[3].from) == {"amazonec2credentialConfig-accessKey", "amazonec2credentialConfig-secretKey",
              "amazonec2credentialConfig-defaultRegion"}
  {
    hide Sources;
    ThreeSources("amazonec2credentialConfig-accessKey", "amazonec2credentialConfig-secretKey", "amazonec2credentialConfig-defaultRegion");
  }

  lemma AwsEntries(data: Data, render: Data -> Rendering, out: Data)
    requires HasEntries("aws", out, data, render)
    ensures |Requirements("aws")| == 4
    ensures RawEntry(out, "AWS_ACCESS_KEY_ID", data, "amazonec2credentialConfig-accessKey")
    ensures RawEntry(out, "AWS_SECRET_ACCESS_KEY", data, "amazonec2credentialConfig-secretKey")
    ensures RawEntry(out, "AWS_REGION", data, "amazonec2credentialConfig-defaultRegion")
    ensures RenderedEntry(out, "AWS_B64ENCODED_CREDENTIALS", data, render, {"amazonec2credentialConfig-accessKey",
              "amazonec2credentialConfig-secretKey", "amazonec2credentialConfig-defaultRegion"})
  {
    hide HasEntries, RawEntry, EncodedEntry, RenderedEntry, Sources;
    AwsTemplate();
    EntryOf("aws", out, data, render, 0);
    EntryOf("aws", out, data, render, 1);
    EntryOf("aws", out, data, render, 2);
    EntryOf("aws", out, data, render, 3);
  }

  lemma AzureEntries(data: Data, render: Data -> Rendering, out: Data)
    requires HasEntries("azure", out, data, render)
    ensures |Requirements("azure")| == 8
    ensures RawEntry(out, "AZURE_SUBSCRIPTION_ID", data, "azurecredentialConfig-subscriptionId")
    ensures RawEntry(out, "AZURE_CLIENT_ID", data, "azurecredentialConfig-clientId")
    ensures RawEntry(out, "AZURE_CLIENT_SECRET", data, "azurecredentialConfig-clientSecret")
    ensures RawEntry(out, "AZURE_TENANT_ID", data, "azurecredentialConfig-tenantId")
    ensures EncodedEntry(out, "AZURE_SUBSCRIPTION_ID_B64", data, "azurecredentialConfig-subscriptionId")
    ensures EncodedEntry(out, "AZURE_CLIENT_ID_B64", data, "azurecredentialConfig-clientId")
    ensures EncodedEntry(out, "AZURE_CLIENT_SECRET_B64", data, "azurecredentialConfig-clientSecret")
    ensures EncodedEntry(out, "AZURE_TENANT_ID_B64", data, "azurecredentialConfig-tenantId")
  {
    hide HasEntries, RawEntry, EncodedEntry;
    forall i: nat | i < 8
      ensures i < |Requirements("azure")|
      ensures var m := AZURE[i];
        && (m.from.Raw? ==> RawEntry(out, m.target, data, m.from.source))
        && (m.from.B64? ==> EncodedEntry(out, m.target, data, m.from.source))
    {
      EntryOf("azure", out, data, render, i);
    }
    assert AZURE[0].from.Raw? && AZURE[1].from.Raw? && AZURE[2].from.Raw? && AZURE[3].from.Raw?;
    assert AZURE[4].from.B64? && AZURE[5].from.B64? && AZURE[6].from.B64? && AZURE[7].from.B64?;
  }

  lemma VsphereEntries(data: Data, render: Data -> Rendering, out: Data)
    requires HasEntries("vsphere", out, data, render)
    ensures |Requirements("vsphere")| == 2
    ensures RawEntry(out, "VSPHERE_PASSWORD", data, "vmwarevspherecredentialConfig-password")
    ensures RawEntry(out, "VSPHERE_USERNAME", data, "vmwarevspherecredentialConfig-username")
  {
    hide HasEntries, RawEntry, EncodedEntry;
    EntryOf("vsphere", out, data, render, 0);
    EntryOf("vsphere", out, data, render, 1);
  }

  lemma GcpEntries(data: Data, render: Data -> Rendering, out: Data)
    requires HasEntries("gcp", out, data, render)
    ensures |Requirements("gcp")| == 1
    ensures EncodedEntry(out, "GCP_B64ENCODED_CREDENTIALS", data, "googlecredentialConfig-authEncodedJson")
  {
    hide HasEntries, RawEntry, EncodedEntry;
    EntryOf("gcp", out, data, render, 0);
  }

  lemma DigitaloceanEntries(data: Data, render: Data -> Rendering, out: Data)
    requires HasEntries("digitalocean", out, data, render)
    ensures |Requirements("digitalocean")| == 2
    ensures RawEntry(out, "DIGITALOCEAN_ACCESS_TOKEN", data, "digitaloceancredentialConfig-accessToken")
    ensures EncodedEntry(out, "DO_B64ENCODED_CREDENTIALS", data, "digitaloceancredentialConfig-accessToken")
  {
    hide HasEntries, RawEntry, EncodedEntry;
    EntryOf("digitalocean", out, data, render, 0);
    EntryOf("digitalocean", out, data, render, 1);
  }

  /** These are the known providers. */
  lemma KnownExactly(provider: string)
    ensures Requirements(provider) != [] <==>
      provider == "aws" || provider == "azure" || provider == "vsphere" || provider == "gcp" || provider == "digitalocean"
  {
  }

  // --- What the mapping means ---

  lemma TargetsDistinct(provider: string)
    ensures var reqs := Requirements(provider);
      forall i, j | 0 <= i < j < |reqs| :: reqs[i].target != reqs[j].target
  {
  }

  /** Each known provider needs some source. */
  lemma KnownNeedsSources(provider: string)
    requires Requirements(provider) != []
    ensures Sources(Requirements(provider)[0].from) != {}
  {
    var reqs := Requirements(provider);
    assert reqs == AWS || reqs == AZURE || reqs == VSPHERE || reqs == GCP || reqs == DIGITALOCEAN;
    assert reqs[0].from.source in Sources(reqs[0].from);
  }

  lemma {:induction false} MappedAt(reqs: seq<Mapping>, data: Data, render: Data -> Rendering, i: nat)
    requires i < |reqs|
    requires forall j, l | 0 <= j < l < |reqs| :: reqs[j].target != reqs[l].target
    ensures reqs[i].target in Mapped(reqs, data, render)
    ensures Mapped(reqs, data, render)[reqs[i].target] == Converted(reqs[i].from, data, render)
    decreases |reqs|
  {
    var n := |reqs| - 1;
    assert forall j | 0 <= j < n :: reqs[..n][j] == reqs[j];
    if i < n {
      MappedAt(reqs[..n], data, render, i);
    }
  }

  /** Each target gets its own conversion, whatever the order. */
  lemma MapsEachTarget(provider: string, data: Data, render: Data -> Rendering, i: nat)
    requires i < |Requirements(provider)|
    ensures var m := Requirements(provider)[i]; var out := Mapped(Requirements(provider), data, render);
      m.target in out && out[m.target] == Converted(m.from, data, render)
  {
    TargetsDistinct(provider);
    MappedAt(Requirements(provider), data, render, i);
  }

  /** A base64 value decodes to the raw value mapped from the same source. */
  lemma EncodedDecodesToRaw(provider: string, data: Data, render: Data -> Rendering, i: nat, j: nat)
    requires i < |Requirements(provider)| && j < |Requirements(provider)|
    requires Requirements(provider)[i].from.B64? && Requirements(provider)[j].from == Raw(Requirements(provider)[i].from.source)
    ensures var reqs := Requirements(provider); var out := Mapped(reqs, data, render);
      && reqs[i].target in out && reqs[j].target in out
      && Decode(out[reqs[i].target]) == Some(out[reqs[j].target])
  {
    var reqs := Requirements(provider);
    MapsEachTarget(provider, data, render, i);
    MapsEachTarget(provider, data, render, j);
    if reqs[i].from.source in data {
      RoundTrip(data[reqs[i].from.source]);
    }
  }

  /** A template that renders is stored encoded, when all its sources are there. */
  lemma TemplateDecodes(provider: string, data: Data, render: Data -> Rendering, i: nat)
    requires i < |Requirements(provider)| && Requirements(provider)[i].from.Template?
    requires Sources(Requirements(provider)[i].from) <= data.Keys && render(data).Text?
    ensures var m := Requirements(provider)[i]; var out := Mapped(Requirements(provider), data, render);
      m.target in out && Decode(out[m.target]) == Some(render(data).text)
  {
    MapsEachTarget(provider, data, render, i);
    RoundTrip(render(data).text);
  }

  /** A target named X_B64 has a raw partner named X with the same source, so the lemma above applies to all. */
  lemma SuffixHasPartner(provider: string, i: nat)
    requires i < |Requirements(provider)|
    requires Suffixed(Requirements(provider)[i].target)
    ensures var reqs := Requirements(provider);
      && reqs[i].from.B64?
      && exists j :: 0 <= j < |reqs| && reqs[j].target + "_B64" == reqs[i].target && reqs[j].from == Raw(reqs[i].from.source)
  {
    var reqs := Requirements(provider);
    if reqs == AZURE && i >= 4 {
      assert reqs[i - 4].target + "_B64" == reqs[i].target;
    } else {
      assert reqs == AWS || reqs == AZURE || reqs == VSPHERE || reqs == GCP || reqs == DIGITALOCEAN;
      NotSuffixed(reqs, i);
    }
  }

  predicate Suffixed(target: string) {
    |target| >= 4 && target[|target| - 4..] == "_B64"
  }

  lemma NotSuffixed(reqs: seq<Mapping>, i: nat)
    requires i < |reqs|
    requires reqs == AWS || (reqs == AZURE && i < 4) || reqs == VSPHERE || reqs == GCP || reqs == DIGITALOCEAN
    ensures !Suffixed(reqs[i].target)
  {
    var t := reqs[i].target;
    assert t[|t| - 1] != '4';
    assert t[|t| - 4..][3] == t[|t| - 1];
  }

  // --- The source secret ---

  datatype SecretName = SecretName(ns: string, name: string)

  const RANCHER_CREDENTIALS_NAMESPACE := "cattle-global-data"

  function IndexOfColon(s: string): (i: nat)
    ensures i <= |s| && (i < |s| ==> s[i] == ':') && ':' !in s[..i]
  {
    if s == [] || s[0] == ':' then 0
    else
      var i := IndexOfColon(s[1..]);
      assert s[..i + 1] == [s[0]] + s[1..][..i];
      i + 1
  }

  /** GetSecret. A non-empty reference without a colon has no name part: the source indexes out of range. */
  function GetSecret(credential: string, namespaceName: string): Option<SecretName> {
    var split := if namespaceName == "" then ":" else namespaceName;
    var i := IndexOfColon(split);
    if i == |split| then None
    else
      var ns, name := split[..i], split[i + 1..];
      Some(SecretName(if ns == "" then RANCHER_CREDENTIALS_NAMESPACE else ns, if name == "" then credential else name))
  }

  lemma GetSecretSplits(credential: string, namespaceName: string)
    ensures GetSecret(credential, namespaceName).None? <==> namespaceName != "" && ':' !in namespaceName
    ensures namespaceName == "" ==> GetSecret(credential, namespaceName) == Some(SecretName("cattle-global-data", credential))
    ensures forall name | namespaceName == ":" + name && name != "" ::
      GetSecret(credential, namespaceName) == Some(SecretName("cattle-global-data", name))
    ensures forall ns | namespaceName == ns + ":" && ':' !in ns && ns != "" ::
      GetSecret(credential, namespaceName) == Some(SecretName(ns, credential))
    ensures forall ns, name | namespaceName == ns + ":" + name && ':' !in ns && ns != "" && name != "" ::
      GetSecret(credential, namespaceName) == Some(SecretName(ns, name))
  {
    var split := if namespaceName == "" then ":" else namespaceName;
    var i := IndexOfColon(split);
    if i == |split| {
      assert split[..i] == split;
    } else {
      assert split[i] == ':';
      forall a, b | split == a + ":" + b && ':' !in a
        ensures ColonAt(split, i, a, b)
      {
        FirstColon(split, i, a, b);
      }
    }
  }

  lemma FirstColon(s: string, i: nat, a: string, b: string)
    requires s == a + ":" + b && ':' !in a
    requires i < |s| && s[i] == ':' && ':' !in s[..i]
    ensures ColonAt(s, i, a, b)
  {
    assert s[|a|] == ':';
    forall j | |a| < j <= |s|
      ensures ':' in s[..j]
    {
      assert s[..j][|a|] == ':';
    }
    assert forall j | 0 <= j < |a| :: s[j] == a[j] && a[j] in a;
    assert s[..|a|] == a && s[|a| + 1..] == b;
  }

  ghost predicate ColonAt(s: string, i: nat, a: string, b: string) {
    i < |s| && s[..i] == a && s[i + 1..] == b
  }
}
