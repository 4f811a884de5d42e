/** Rewriting a provider manifest from cert-manager to wrangler (internal/provider/wrangler.go) and labelling its
    CRDs (internal/provider/rancher.go), as functions of the manifest. */
module ManifestRewrite {
  import opened Wrappers

  type Strings = map<string, string>

  const INJECT := "cert-manager.io/inject-ca-from"
  const NEED_A_CERT := "need-a-cert.cattle.io/secret-name"
  const CLUSTER_INDEXED := "auth.cattle.io/cluster-indexed"

  datatype ServiceRef = ServiceRef(ns: string, name: string)

  /** spec.secretName of a Certificate; reading it fails when it is not a string. */
  datatype Field = Malformed | Missing | Found(value: string)

  /** The parts of an object that are not rewritten. `webhooks` are the services of its webhooks when it decodes
      as a webhook configuration. */
  datatype Meta = Meta(kind: string, ns: string, name: string, secretName: Field, webhooks: Option<seq<Option<ServiceRef>>>)

  datatype Item = Item(meta: Meta, annotations: Option<Strings>, labels: Option<Strings>)

  datatype Service = Service(ref: ServiceRef, secret: string)

  function Key(ns: string, name: string): string {
    ns + "/" + name
  }

  predicate Injected(annotations: Option<Strings>) {
    annotations.Some? && INJECT in annotations.value
  }

  predicate IsWebhook(kind: string) {
    kind == "MutatingWebhookConfiguration" || kind == "ValidatingWebhookConfiguration"
  }

  /** Certificates by "namespace/name"; None is an error. */
  function Certificates(items: seq<Item>): Option<Strings>
    decreases |items|
  {
    if items == [] then Some(map[])
    else AddCertificate(Certificates(items[..|items| - 1]), items[|items| - 1].meta)
  }

  function AddCertificate(certificates: Option<Strings>, m: Meta): Option<Strings> {
    if certificates.None? || m.kind != "Certificate" then certificates
    else if !m.secretName.Found? then None
    else Some(certificates.value[Key(m.ns, m.name) := m.secretName.value])
  }

  function AddRefs(services: map<string, Service>, refs: seq<Option<ServiceRef>>, secret: string): map<string, Service>
    decreases |refs|
  {
    if refs == [] then services
    else
      var before := AddRefs(services, refs[..|refs| - 1], secret);
      match refs[|refs| - 1]
      case None => before
      case Some(ref) => before[Key(ref.ns, ref.name) := Service(ref, secret)]
  }

  /** Services that annotated webhook configurations refer to, by "namespace/name". */
  function Services(items: seq<Item>, certificates: Strings): Option<map<string, Service>>
    decreases |items|
  {
    if items == [] then Some(map[])
    else AddServices(Services(items[..|items| - 1], certificates), items[|items| - 1].meta, items[|items| - 1].annotations, certificates)
  }

  function AddServices(services: Option<map<string, Service>>, m: Meta, annotations: Option<Strings>, certificates: Strings)
    : Option<map<string, Service>>
  {
    if services.None? || !Injected(annotations) then services
    else if annotations.value[INJECT] !in certificates then None
    else if !IsWebhook(m.kind) then services
    else if m.webhooks.None? then None
    else Some(AddRefs(services.value, m.webhooks.value, certificates[annotations.value[INJECT]]))
  }

  function Annotate(m: Meta, annotations: Option<Strings>, services: map<string, Service>): Option<Strings> {
    var key := Key(m.ns, m.name);
    if m.kind == "Service" && key in services && services[key].ref == ServiceRef(m.ns, m.name) then
      Some(annotations.GetOr(map[])[NEED_A_CERT := services[key].secret])
    else annotations
  }

  function Strip(annotations: Option<Strings>): Option<Strings> {
    if annotations.None? then None else Some(annotations.value - {INJECT})
  }

  predicate Kept(kind: string) {
    kind != "Certificate" && kind != "Issuer"
  }

  function Patched(item: Item, services: map<string, Service>): Item {
    item.(annotations := Strip(Annotate(item.meta, item.annotations, services)))
  }

  function Filter(items: seq<Item>, services: map<string, Service>): seq<Item> {
    if items == [] then []
    else if Kept(items[0].meta.kind) then [Patched(items[0], services)] + Filter(items[1..], services)
    else Filter(items[1..], services)
  }

  function ServicesFor(items: seq<Item>): Option<map<string, Service>> {
    var certificates := Certificates(items);
    if certificates.None? then None else Services(items, certificates.value)
  }

  function Rewrite(items: seq<Item>): Option<seq<Item>> {
    var services := ServicesFor(items);
    if services.None? then None else Some(Filter(items, services.value))
  }

  function Indexed(item: Item): Item {
    if item.meta.kind == "CustomResourceDefinition"
    then item.(labels := Some(item.labels.GetOr(map[])[CLUSTER_INDEXED := "true"]))
    else item
  }

  function AddClusterIndexedLabel(items: seq<Item>): seq<Item> {
    seq(|items|, i requires 0 <= i < |items| => Indexed(items[i]))
  }

  // --- Keys ---

  predicate SlashFree(s: string) {
    '/' !in s
  }

  lemma KeyInjective(a: string, b: string, c: string, d: string)
    requires SlashFree(a) && SlashFree(c) && Key(a, b) == Key(c, d)
    ensures a == c && b == d
  {
    var k := Key(a, b);
    assert k[|a|] == '/' && k[|c|] == '/';
    assert forall i | 0 <= i < |a| :: k[i] == a[i] && a[i] in a;
    assert forall i | 0 <= i < |c| :: k[i] == c[i] && c[i] in c;
    assert k[..|a|] == a && k[..|c|] == c && k[|a| + 1..] == b && k[|c| + 1..] == d;
  }

  // --- The secret of a Service ---

  /** The object names a Certificate to inject. */
  ghost predicate Annotated(item: Item) {
    item.annotations.Some? && "cert-manager.io/inject-ca-from" in item.annotations.value
  }

  ghost function Named(item: Item): string
    requires Annotated(item)
  {
    item.annotations.value["cert-manager.io/inject-ca-from"]
  }

  /** The last Certificate with the key. */
  ghost predicate LastCertificate(items: seq<Item>, key: string, c: nat) {
    && c < |items| && IsCertificate(items[c], key)
    && forall i | c < i < |items| :: !IsCertificate(items[i], key)
  }

  ghost predicate IsCertificate(item: Item, key: string) {
    item.meta.kind == "Certificate" && item.meta.ns + "/" + item.meta.name == key
  }

  ghost predicate Refers(item: Item, ref: ServiceRef, j: int) {
    && (item.meta.kind == "MutatingWebhookConfiguration" || item.meta.kind == "ValidatingWebhookConfiguration")
    && Annotated(item) && item.meta.webhooks.Some?
    && 0 <= j < |item.meta.webhooks.value| && item.meta.webhooks.value[j] == Some(ref)
  }

  ghost predicate Mentions(item: Item, ref: ServiceRef) {
    exists j :: Refers(item, ref, j)
  }

  /** The last webhook configuration that refers to the Service. */
  ghost predicate LastReference(items: seq<Item>, ref: ServiceRef, i: nat) {
    && i < |items| && Mentions(items[i], ref)
    && forall l | i < l < |items| :: !Mentions(items[l], ref)
  }

  ghost predicate SlashFreeRefs(items: seq<Item>) {
    forall i, ref | 0 <= i < |items| && Mentions(items[i], ref) :: SlashFree(ref.ns)
  }

  lemma {:induction false} CertificateFound(items: seq<Item>, key: string) returns (c: nat)
    requires Certificates(items).Some?
    ensures key in Certificates(items).value ==>
      LastCertificate(items, key, c) && items[c].meta.secretName == Found(Certificates(items).value[key])
    ensures key !in Certificates(items).value ==> forall i | 0 <= i < |items| :: !IsCertificate(items[i], key)
    decreases |items|
  {
    c := 0;
    if items != [] {
      var n := |items| - 1;
      c := CertificateFound(items[..n], key);
      assert forall i | 0 <= i < n :: items[..n][i] == items[i];
      if IsCertificate(items[n], key) {
        c := n;
      }
    }
  }

  lemma {:induction false} RefsAdded(services: map<string, Service>, refs: seq<Option<ServiceRef>>, secret: string, ref: ServiceRef)
    requires SlashFree(ref.ns) && forall j | 0 <= j < |refs| && refs[j].Some? :: SlashFree(refs[j].value.ns)
    ensures var key := Key(ref.ns, ref.name); var after := AddRefs(services, refs, secret);
      if exists j :: 0 <= j < |refs| && refs[j] == Some(ref) then key in after && after[key] == Service(ref, secret)
      else (key in after <==> key in services) && (key in services ==> after[key] == services[key])
    decreases |refs|
  {
    if refs != [] {
      var n := |refs| - 1;
      RefsAdded(services, refs[..n], secret, ref);
      assert forall j | 0 <= j < n :: refs[..n][j] == refs[j];
      assert (exists j :: 0 <= j < |refs| && refs[j] == Some(ref)) <==>
             (exists j :: 0 <= j < n && refs[..n][j] == Some(ref)) || refs[n] == Some(ref) by {
        if j :| 0 <= j < |refs| && refs[j] == Some(ref) && j != n { assert refs[..n][j] == Some(ref); }
        if j :| 0 <= j < n && refs[..n][j] == Some(ref) { assert refs[j] == Some(ref); }
      }
      if refs[n].Some? && refs[n] != Some(ref) && Key(refs[n].value.ns, refs[n].value.name) == Key(ref.ns, ref.name) {
        KeyInjective(refs[n].value.ns, refs[n].value.name, ref.ns, ref.name);
      }
    }
  }

  lemma {:induction false} ServiceFound(items: seq<Item>, certificates: Strings, ref: ServiceRef) returns (i: nat)
    requires Services(items, certificates).Some? && SlashFreeRefs(items) && SlashFree(ref.ns)
    ensures var services := Services(items, certificates).value; var key := Key(ref.ns, ref.name);
      if key in services then
        && LastReference(items, ref, i)
        && items[i].annotations.value[INJECT] in certificates
        && services[key] == Service(ref, certificates[items[i].annotations.value[INJECT]])
      else forall l | 0 <= l < |items| :: !Mentions(items[l], ref)
    decreases |items|
  {
    i := 0;
    if items != [] {
      var n := |items| - 1;
      var last := items[n];
      assert forall l | 0 <= l < n :: items[..n][l] == items[l];
      i := ServiceFound(items[..n], certificates, ref);
      if Injected(last.annotations) && IsWebhook(last.meta.kind) {
        var refs := last.meta.webhooks.value;
        forall j | 0 <= j < |refs| && refs[j].Some?
          ensures SlashFree(refs[j].value.ns)
        {
          assert Refers(last, refs[j].value, j);
          assert Mentions(items[n], refs[j].value);
        }
        RefsAdded(Services(items[..n], certificates).value, refs, certificates[last.annotations.value[INJECT]], ref);
        assert Mentions(last, ref) <==> exists j :: 0 <= j < |refs| && refs[j] == Some(ref) by {
          if j :| 0 <= j < |refs| && refs[j] == Some(ref) { assert Refers(last, ref, j); }
        }
        if Mentions(last, ref) {
          i := n;
        }
      }
    }
  }

  /** A Service that some annotated webhook configuration refers to needs the secret of the last Certificate that
      the last such configuration names; every other object keeps its annotations, but for the injection. */
  lemma AnnotationCorrect(items: seq<Item>, x: nat) returns (i: nat, c: nat)
    requires ServicesFor(items).Some? && SlashFreeRefs(items) && x < |items| && SlashFree(items[x].meta.ns)
    ensures var item := items[x]; var ref := ServiceRef(item.meta.ns, item.meta.name);
      var after := Patched(item, ServicesFor(items).value).annotations;
      if item.meta.kind == "Service" && exists l :: 0 <= l < |items| && Mentions(items[l], ref) then
        && LastReference(items, ref, i)
        && LastCertificate(items, Named(items[i]), c)
        && items[c].meta.secretName.Found?
        && after == Some(item.annotations.GetOr(map[])["need-a-cert.cattle.io/secret-name" := items[c].meta.secretName.value]
                         - {"cert-manager.io/inject-ca-from"})
      else if item.annotations.None? then after.None?
      else after == Some(item.annotations.value - {"cert-manager.io/inject-ca-from"})
  {
    var item := items[x];
    var certificates := Certificates(items).value;
    i := ServiceFound(items, certificates, ServiceRef(item.meta.ns, item.meta.name));
    c := 0;
    if Key(item.meta.ns, item.meta.name) in ServicesFor(items).value {
      c := CertificateFound(items, items[i].annotations.value[INJECT]);
    }
  }

  // --- Errors ---

  ghost predicate CertificatesOk(items: seq<Item>) {
    forall i | 0 <= i < |items| && items[i].meta.kind == "Certificate" :: items[i].meta.secretName.Found?
  }

  /** Every annotated object, of whatever kind, names a Certificate of the manifest, and annotated webhook
      configurations decode. */
  ghost predicate ReferencesOk(items: seq<Item>) {
    forall i | 0 <= i < |items| && Annotated(items[i]) ::
      && (exists c :: 0 <= c < |items| && IsCertificate(items[c], Named(items[i])))
      && (items[i].meta.kind == "MutatingWebhookConfiguration" || items[i].meta.kind == "ValidatingWebhookConfiguration" ==>
            items[i].meta.webhooks.Some?)
  }

  lemma {:induction false} CertificatesExactly(items: seq<Item>)
    ensures Certificates(items).Some? <==> CertificatesOk(items)
    decreases |items|
  {
    if items != [] {
      var n := |items| - 1;
      CertificatesExactly(items[..n]);
      assert forall i | 0 <= i < n :: items[..n][i] == items[i];
    }
  }

  lemma {:induction false} ServicesExactly(items: seq<Item>, certificates: Strings)
    ensures Services(items, certificates).Some? <==>
      forall i | 0 <= i < |items| && Injected(items[i].annotations) ::
        && items[i].annotations.value[INJECT] in certificates
        && (IsWebhook(items[i].meta.kind) ==> items[i].meta.webhooks.Some?)
    decreases |items|
  {
    if items != [] {
      var n := |items| - 1;
      ServicesExactly(items[..n], certificates);
      assert forall i | 0 <= i < n :: items[..n][i] == items[i];
    }
  }

  lemma RewriteSucceedsExactly(items: seq<Item>)
    ensures Rewrite(items).Some? <==> CertificatesOk(items) && ReferencesOk(items)
  {
    CertificatesExactly(items);
    if Certificates(items).Some? {
      ServicesExactly(items, Certificates(items).value);
      forall key: string
        ensures key in Certificates(items).value <==> exists c :: 0 <= c < |items| && IsCertificate(items[c], key)
      {
        var c := CertificateFound(items, key);
      }
    }
  }

  // --- Algebra ---

  lemma {:induction false} FilterDone(items: seq<Item>, services: map<string, Service>)
    ensures forall item | item in Filter(items, services) :: Kept(item.meta.kind) && !Injected(item.annotations)
  {
    if items != [] {
      FilterDone(items[1..], services);
    }
  }

  /** Nothing of cert-manager is left. */
  lemma RewriteRemovesCertManager(items: seq<Item>)
    requires Rewrite(items).Some?
    ensures forall item | item in Rewrite(items).value ::
      item.meta.kind != "Certificate" && item.meta.kind != "Issuer" && !Annotated(item)
  {
    FilterDone(items, ServicesFor(items).value);
  }

  /** `index` counts up through exactly the objects that are neither Certificate nor Issuer. */
  ghost predicate Selects(kinds: seq<string>, index: seq<nat>) {
    && (forall i | 0 <= i < |index| :: index[i] < |kinds|)
    && (forall i, j | 0 <= i < j < |index| :: index[i] < index[j])
    && (forall n | 0 <= n < |kinds| :: n in index <==> kinds[n] != "Certificate" && kinds[n] != "Issuer")
  }

  function Kinds(items: seq<Item>): seq<string> {
    seq(|items|, i requires 0 <= i < |items| => items[i].meta.kind)
  }

  /** One more kind in front. */
  function Shifted(index: seq<nat>, kept: bool): (r: seq<nat>)
    ensures |r| == |index| + if kept then 1 else 0
    ensures kept ==> r[0] == 0 && forall i | 0 <= i < |index| :: r[i + 1] == index[i] + 1
    ensures !kept ==> forall i | 0 <= i < |index| :: r[i] == index[i] + 1
  {
    var later := seq(|index|, i requires 0 <= i < |index| => index[i] + 1);
    if kept then [0] + later else later
  }

  lemma ShiftedMember(index: seq<nat>, kept: bool, n: nat)
    ensures n in Shifted(index, kept) <==> if n == 0 then kept else n - 1 in index
  {
    hide Shifted;
    if n > 0 && n - 1 in index {
      var i :| 0 <= i < |index| && index[i] == n - 1;
      assert Shifted(index, kept)[if kept then i + 1 else i] == n;
    }
    if n in Shifted(index, kept) {
      UnshiftedMember(index, kept, n);
    }
  }

  lemma UnshiftedMember(index: seq<nat>, kept: bool, n: nat)
    requires n in Shifted(index, kept)
    ensures if n == 0 then kept else n - 1 in index
  {
    hide Shifted;
    var i :| 0 <= i < |Shifted(index, kept)| && Shifted(index, kept)[i] == n;
    if kept && i > 0 {
      assert Shifted(index, kept)[i] == index[i - 1] + 1;
    } else if !kept {
      assert Shifted(index, kept)[i] == index[i] + 1;
    }
  }

  lemma SelectsMore(kind: string, kinds: seq<string>, index: seq<nat>)
    requires Selects(kinds, index)
    ensures Selects([kind] + kinds, Shifted(index, kind != "Certificate" && kind != "Issuer"))
  {
    var kept := kind != "Certificate" && kind != "Issuer";
    var all, r := [kind] + kinds, Shifted(index, kept);
    forall n: nat | n < |all|
      ensures n in r <==> all[n] != "Certificate" && all[n] != "Issuer"
    {
      ShiftedMember(index, kept, n);
      if n > 0 {
        assert all[n] == kinds[n - 1];
      }
    }
    forall i, j | 0 <= i < j < |r|
      ensures r[i] < r[j]
    {
      var d := if kept then 1 else 0;
      assert j >= d && r[j] == index[j - d] + 1;
      if i >= d {
        assert r[i] == index[i - d] + 1;
      }
    }
  }

  ghost predicate Follows(items: seq<Item>, services: map<string, Service>, index: seq<nat>) {
    && |index| == |Filter(items, services)|
    && forall i | 0 <= i < |index| :: index[i] < |items| && Filter(items, services)[i] == Patched(items[index[i]], services)
  }

  lemma FollowsMore(items: seq<Item>, services: map<string, Service>, rest: seq<nat>)
    requires items != [] && Follows(items[1..], services, rest)
    ensures Follows(items, services, Shifted(rest, items[0].meta.kind != "Certificate" && items[0].meta.kind != "Issuer"))
  {
    hide Shifted, Patched;
    var kept := items[0].meta.kind != "Certificate" && items[0].meta.kind != "Issuer";
    var index := Shifted(rest, kept);
    forall i | 0 <= i < |index|
      ensures index[i] < |items| && Filter(items, services)[i] == Patched(items[index[i]], services)
    {
      if !kept || i > 0 {
        var j := if kept then i - 1 else i;
        assert Filter(items, services)[i] == Filter(items[1..], services)[j] && index[i] == rest[j] + 1;
      }
    }
  }

  lemma FilterSelects(items: seq<Item>, services: map<string, Service>) returns (index: seq<nat>)
    ensures Selects(Kinds(items), index) && |index| == |Filter(items, services)|
    ensures forall i | 0 <= i < |index| :: index[i] < |items| && Filter(items, services)[i] == Patched(items[index[i]], services)
  {
    index := FilterFollows(items, services);
  }

  lemma {:induction false} FilterFollows(items: seq<Item>, services: map<string, Service>) returns (index: seq<nat>)
    ensures Selects(Kinds(items), index) && Follows(items, services, index)
  {
    hide Selects, Follows, Shifted;
    index := [];
    if items == [] {
      NothingFollows(services);
    } else {
      var rest := FilterFollows(items[1..], services);
      assert Kinds(items) == [items[0].meta.kind] + Kinds(items[1..]);
      SelectsMore(items[0].meta.kind, Kinds(items[1..]), rest);
      FollowsMore(items, services, rest);
      index := Shifted(rest, items[0].meta.kind != "Certificate" && items[0].meta.kind != "Issuer");
    }
  }

  lemma NothingFollows(services: map<string, Service>)
    ensures Selects(Kinds([]), []) && Follows([], services, [])
  {
  }

  /** Every object that is neither Certificate nor Issuer is kept, in its order, with its annotations as
      AnnotationCorrect says and all else as it was. */
  lemma RewriteSelects(items: seq<Item>) returns (index: seq<nat>)
    requires Rewrite(items).Some?
    ensures var out := Rewrite(items).value;
      && Selects(Kinds(items), index) && |index| == |out|
      && forall i | 0 <= i < |index| ::
        && out[i] == items[index[i]].(annotations := out[i].annotations)
        && out[i].annotations == Patched(items[index[i]], ServicesFor(items).value).annotations
  {
    index := FilterSelects(items, ServicesFor(items).value);
  }

  lemma {:induction false} NothingToDo(items: seq<Item>)
    requires forall item | item in items :: Kept(item.meta.kind) && !Injected(item.annotations)
    ensures Certificates(items) == Some(map[]) && Services(items, map[]) == Some(map[])
    decreases |items|
  {
    if items != [] {
      NothingToDo(items[..|items| - 1]);
    }
  }

  lemma {:induction false} FilterNothing(items: seq<Item>)
    requires forall item | item in items :: Kept(item.meta.kind) && !Injected(item.annotations)
    ensures Filter(items, map[]) == items
  {
    if items != [] {
      FilterNothing(items[1..]);
      assert items[0].annotations.Some? ==> items[0].annotations.value - {INJECT} == items[0].annotations.value;
    }
  }

  lemma RewriteIdempotent(items: seq<Item>)
    requires Rewrite(items).Some?
    ensures Rewrite(Rewrite(items).value) == Rewrite(items)
  {
    RewriteRemovesCertManager(items);
    NothingToDo(Rewrite(items).value);
    FilterNothing(Rewrite(items).value);
  }

  lemma {:induction false} LabelsIrrelevant(items: seq<Item>, certificates: Strings)
    ensures Certificates(AddClusterIndexedLabel(items)) == Certificates(items)
    ensures Services(AddClusterIndexedLabel(items), certificates) == Services(items, certificates)
    decreases |items|
  {
    if items != [] {
      var n := |items| - 1;
      LabelsIrrelevant(items[..n], certificates);
      assert AddClusterIndexedLabel(items)[..n] == AddClusterIndexedLabel(items[..n]);
    }
  }

  lemma {:induction false} FilterLabels(items: seq<Item>, services: map<string, Service>)
    ensures Filter(AddClusterIndexedLabel(items), services) == AddClusterIndexedLabel(Filter(items, services))
  {
    if items != [] {
      FilterLabels(items[1..], services);
      assert AddClusterIndexedLabel(items)[1..] == AddClusterIndexedLabel(items[1..]);
      assert Patched(Indexed(items[0]), services) == Indexed(Patched(items[0], services));
    }
  }

  /** The two rewrites can be applied in either order. */
  lemma RewritesCommute(items: seq<Item>)
    ensures Rewrite(AddClusterIndexedLabel(items)) ==
      if Rewrite(items).None? then None else Some(AddClusterIndexedLabel(Rewrite(items).value))
  {
    LabelsIrrelevant(items, Certificates(items).GetOr(map[]));
    if Rewrite(items).Some? {
      FilterLabels(items, ServicesFor(items).value);
    }
  }
}
