/** The manifest rewriting as it is carried out, on the objects of the manifest in place
    (internal/provider/wrangler.go, internal/provider/rancher.go). */
module WranglerPatcher {
  import opened Wrappers
  import opened ManifestRewrite

  class Resource {
    const meta: Meta
    var annotations: Option<Strings>
    var labels: Option<Strings>

    constructor (item: Item)
      ensures View() == item
    {
      meta, annotations, labels := item.meta, item.annotations, item.labels;
    }

    ghost function View(): Item
      reads this
    {
      Item(meta, annotations, labels)
    }
  }

  ghost function Views(objs: seq<Resource>): seq<Item>
    reads objs
  {
    seq(|objs|, i requires 0 <= i < |objs| reads objs => objs[i].View())
  }

  ghost function KeptObjects(objs: seq<Resource>): seq<Resource> {
    if objs == [] then []
    else if Kept(objs[0].meta.kind) then [objs[0]] + KeptObjects(objs[1..])
    else KeptObjects(objs[1..])
  }

  method GetCertificates(objs: seq<Resource>) returns (certificates: Option<Strings>)
    ensures certificates == Certificates(Views(objs))
  {
    var found: Strings := map[];
    ghost var items := Views(objs);
    for i := 0 to |objs|
      invariant Certificates(items[..i]) == Some(found)
    {
      assert items[..i + 1][..i] == items[..i];
      var m := objs[i].meta;
      if m.kind == "Certificate" {
        if !m.secretName.Found? {
          NoneStays(items, i + 1);
          return None;
        }
        found := found[Key(m.ns, m.name) := m.secretName.value];
      }
    }
    assert items[..|objs|] == items;
    certificates := Some(found);
  }

  lemma {:induction false} NoneStays(items: seq<Item>, n: nat)
    requires n <= |items| && Certificates(items[..n]).None?
    ensures Certificates(items).None?
    decreases |items| - n
  {
    if n < |items| {
      assert items[..n + 1][..n] == items[..n];
      NoneStays(items, n + 1);
    } else {
      assert items[..n] == items;
    }
  }

  lemma {:induction false} NoServicesStays(items: seq<Item>, certificates: Strings, n: nat)
    requires n <= |items| && Services(items[..n], certificates).None?
    ensures Services(items, certificates).None?
    decreases |items| - n
  {
    if n < |items| {
      assert items[..n + 1][..n] == items[..n];
      NoServicesStays(items, certificates, n + 1);
    } else {
      assert items[..n] == items;
    }
  }

  /** The source has one such method for each of the two kinds, with the same body. */
  method AddWebhookServices(refs: seq<Option<ServiceRef>>, services: map<string, Service>, secret: string)
    returns (after: map<string, Service>)
    ensures after == AddRefs(services, refs, secret)
  {
    after := services;
    for j := 0 to |refs|
      invariant after == AddRefs(services, refs[..j], secret)
    {
      assert refs[..j + 1][..j] == refs[..j];
      if refs[j].Some? {
        var ref := refs[j].value;
        after := after[Key(ref.ns, ref.name) := Service(ref, secret)];
      }
    }
    assert refs[..|refs|] == refs;
  }

  method GetServices(objs: seq<Resource>, certificates: Strings) returns (services: Option<map<string, Service>>)
    ensures services == Services(Views(objs), certificates)
  {
    hide AddRefs;
    var found: map<string, Service> := map[];
    ghost var items := Views(objs);
    for i := 0 to |objs|
      invariant Services(items[..i], certificates) == Some(found)
    {
      assert items[..i + 1][..i] == items[..i];
      var o := objs[i];
      if Injected(o.annotations) {
        var name := o.annotations.value[INJECT];
        if name !in certificates || (IsWebhook(o.meta.kind) && o.meta.webhooks.None?) {
          NoServicesStays(items, certificates, i + 1);
          return None;
        }
        if IsWebhook(o.meta.kind) {
          found := AddWebhookServices(o.meta.webhooks.value, found, certificates[name]);
        }
      }
    }
    assert items[..|objs|] == items;
    services := Some(found);
  }

  /** Every service is stored under its own key. */
  ghost predicate WellKeyed(services: map<string, Service>) {
    forall key | key in services :: key == Key(services[key].ref.ns, services[key].ref.name)
  }

  lemma {:induction false} RefsWellKeyed(services: map<string, Service>, refs: seq<Option<ServiceRef>>, secret: string)
    requires WellKeyed(services)
    ensures WellKeyed(AddRefs(services, refs, secret))
    decreases |refs|
  {
    if refs != [] {
      RefsWellKeyed(services, refs[..|refs| - 1], secret);
    }
  }

  lemma {:induction false} ServicesWellKeyed(items: seq<Item>, certificates: Strings)
    requires Services(items, certificates).Some?
    ensures WellKeyed(Services(items, certificates).value)
    decreases |items|
  {
    if items != [] {
      ServicesWellKeyed(items[..|items| - 1], certificates);
      var last := items[|items| - 1];
      if Injected(last.annotations) && IsWebhook(last.meta.kind) {
        RefsWellKeyed(Services(items[..|items| - 1], certificates).value, last.meta.webhooks.value, certificates[last.annotations.value[INJECT]]);
      }
    }
  }

  /** Go visits a map in no particular order: here any key that is left may come next. The result does not depend
      on the choice. */
  method AnnotateService(o: Resource, services: map<string, Service>)
    requires WellKeyed(services)
    modifies o`annotations
    ensures o.annotations == Annotate(o.meta, old(o.annotations), services)
  {
    var left := services.Keys;
    ghost var before := o.annotations;
    while left != {}
      invariant left <= services.Keys
      invariant o.annotations == if Key(o.meta.ns, o.meta.name) in left then before else Annotate(o.meta, before, services)
      decreases |left|
    {
      var key :| key in left;
      var service := services[key];
      if o.meta.kind == "Service" && service.ref == ServiceRef(o.meta.ns, o.meta.name) {
        o.annotations := Some(o.annotations.GetOr(map[])[NEED_A_CERT := service.secret]);
      }
      left := left - {key};
    }
  }

  lemma {:induction false} KeptMore(objs: seq<Resource>, o: Resource)
    ensures KeptObjects(objs + [o]) == KeptObjects(objs) + if Kept(o.meta.kind) then [o] else []
  {
    if objs != [] {
      assert (objs + [o])[1..] == objs[1..] + [o];
      KeptMore(objs[1..], o);
    } else {
      assert objs + [o] == [o] && [o][1..] == [];
    }
  }

  lemma {:induction false} KeptSelects(objs: seq<Resource>) returns (index: seq<nat>)
    ensures Selects(KindsOf(objs), index) && |index| == |KeptObjects(objs)|
    ensures forall i | 0 <= i < |index| :: KeptObjects(objs)[i] == objs[index[i]]
  {
    index := [];
    if objs != [] {
      var rest := KeptSelects(objs[1..]);
      assert KindsOf(objs) == [objs[0].meta.kind] + KindsOf(objs[1..]);
      SelectsMore(objs[0].meta.kind, KindsOf(objs[1..]), rest);
      index := Shifted(rest, objs[0].meta.kind != "Certificate" && objs[0].meta.kind != "Issuer");
    }
  }

  function KindsOf(objs: seq<Resource>): seq<string> {
    seq(|objs|, i requires 0 <= i < |objs| => objs[i].meta.kind)
  }

  lemma {:induction false} KeptViews(objs: seq<Resource>, items: seq<Item>, services: map<string, Service>)
    requires |items| == |objs|
    requires forall i | 0 <= i < |objs| :: objs[i].View() == Patched(items[i], services)
    ensures Views(KeptObjects(objs)) == Filter(items, services)
  {
    hide Patched;
    if objs != [] {
      KeptViews(objs[1..], items[1..], services);
      assert objs[0].View() == Patched(items[0], services);
      PatchedMeta(items[0], services);
      if Kept(objs[0].meta.kind) {
        assert Views(KeptObjects(objs)) == [objs[0].View()] + Views(KeptObjects(objs[1..]));
      }
    }
  }

  lemma PatchedMeta(item: Item, services: map<string, Service>)
    ensures Patched(item, services).meta == item.meta
  {
  }

  /** An object that is listed twice is rewritten twice, to the same effect. */
  lemma Twice(item: Item, services: map<string, Service>)
    ensures Annotate(item.meta, Annotate(item.meta, item.annotations, services), services) == Annotate(item.meta, item.annotations, services)
    ensures Strip(Strip(item.annotations)) == Strip(item.annotations)
    ensures Indexed(Indexed(item)) == Indexed(item)
  {
    var annotations, labels := item.annotations.GetOr(map[]), item.labels.GetOr(map[]);
    var key := Key(item.meta.ns, item.meta.name);
    if key in services {
      var secret := services[key].secret;
      assert annotations[NEED_A_CERT := secret][NEED_A_CERT := secret] == annotations[NEED_A_CERT := secret];
    }
    assert annotations - {INJECT} - {INJECT} == annotations - {INJECT};
    assert labels[CLUSTER_INDEXED := "true"][CLUSTER_INDEXED := "true"] == labels[CLUSTER_INDEXED := "true"];
  }

  /** Step 3 of WranglerPatcher. */
  method AnnotateServices(objs: seq<Resource>, services: map<string, Service>)
    requires WellKeyed(services)
    modifies set o | o in objs :: o`annotations
    ensures forall o | o in objs :: o.annotations == Annotate(o.meta, old(o.annotations), services)
  {
    for i := 0 to |objs|
      invariant forall o | o in objs :: o.annotations == if o in objs[..i] then Annotate(o.meta, old(o.annotations), services) else old(o.annotations)
    {
      assert objs[i] in objs;
      Twice(old(objs[i].View()), services);
      AnnotateService(objs[i], services);
      assert objs[..i + 1] == objs[..i] + [objs[i]];
    }
    assert objs[..|objs|] == objs;
  }

  /** Step 4. */
  method StripAndFilter(objs: seq<Resource>) returns (filtered: seq<Resource>, ghost index: seq<nat>)
    modifies set o | o in objs :: o`annotations
    ensures filtered == KeptObjects(objs)
    ensures Selects(KindsOf(objs), index) && |index| == |filtered| && forall i | 0 <= i < |index| :: filtered[i] == objs[index[i]]
    ensures forall o | o in objs ::
      o.annotations == if old(o.annotations).None? then None else Some(old(o.annotations).value - {"cert-manager.io/inject-ca-from"})
  {
    filtered := [];
    for i := 0 to |objs|
      invariant filtered == KeptObjects(objs[..i])
      invariant forall o | o in objs :: o.annotations == if o in objs[..i] then Strip(old(o.annotations)) else old(o.annotations)
    {
      var o := objs[i];
      assert o in objs;
      Twice(old(o.View()), map[]);
      if o.annotations.Some? {
        o.annotations := Some(o.annotations.value - {INJECT});
      }
      assert objs[..i + 1] == objs[..i] + [o];
      KeptMore(objs[..i], o);
      if Kept(o.meta.kind) {
        filtered := filtered + [o];
      }
    }
    assert objs[..|objs|] == objs;
    index := KeptSelects(objs);
  }

  /** An error leaves every object as it was. Otherwise the kept objects are returned in their order, themselves
      rewritten in place; the Certificates and Issuers left out lose the annotation too. */
  method WranglerPatcher(objs: seq<Resource>) returns (filtered: Option<seq<Resource>>, ghost index: seq<nat>)
    modifies set o | o in objs :: o`annotations
    ensures filtered.None? ==> Views(objs) == old(Views(objs))
    ensures filtered.None? <==> Rewrite(old(Views(objs))).None?
    ensures filtered.Some? ==>
      && Selects(KindsOf(objs), index) && |index| == |filtered.value|
      && forall i | 0 <= i < |index| :: filtered.value[i] == objs[index[i]]
    ensures filtered.Some? ==> filtered.value == KeptObjects(objs) && Views(filtered.value) == Rewrite(old(Views(objs))).value
    ensures filtered.Some? ==> forall o | o in objs :: o.View() == Patched(old(o.View()), ServicesFor(old(Views(objs))).value)
  {
    hide Certificates, Services, Annotate, Kept;
    index := [];
    ghost var items := Views(objs);
    if |objs| == 0 {
      filtered := Some([]);
      assert KindsOf(objs) == [];
      EmptyRewrite();
      return;
    }
    var certificates := GetCertificates(objs);
    if certificates.None? {
      return None, [];
    }
    var services := GetServices(objs, certificates.value);
    if services.None? {
      return None, [];
    }
    ServicesWellKeyed(items, certificates.value);
    AnnotateServices(objs, services.value);
    var kept;
    kept, index := StripAndFilter(objs);
    forall i | 0 <= i < |objs|
      ensures objs[i].View() == Patched(items[i], services.value)
    {
      assert objs[i] in objs;
    }
    KeptViews(objs, items, services.value);
    filtered := Some(kept);
  }

  lemma EmptyRewrite()
    ensures Rewrite([]) == Some([]) && ServicesFor([]).Some?
  {
  }

  method AddClusterIndexedLabelFn(objs: seq<Resource>)
    modifies set o | o in objs :: o`labels
    ensures Views(objs) == AddClusterIndexedLabel(old(Views(objs)))
    ensures forall o | o in objs && o.meta.kind == "CustomResourceDefinition" ::
      o.labels == Some(old(o.labels).GetOr(map[])["auth.cattle.io/cluster-indexed" := "true"])
    ensures forall o | o in objs && o.meta.kind != "CustomResourceDefinition" :: o.labels == old(o.labels)
  {
    for i := 0 to |objs|
      invariant forall o | o in objs :: o.View() == if o in objs[..i] then Indexed(old(o.View())) else old(o.View())
    {
      var o := objs[i];
      assert o in objs;
      Twice(old(o.View()), map[]);
      if o.meta.kind == "CustomResourceDefinition" {
        o.labels := Some(o.labels.GetOr(map[])[CLUSTER_INDEXED := "true"]);
      }
      assert objs[..i + 1] == objs[..i] + [o];
    }
    assert objs[..|objs|] == objs;
    assert forall i | 0 <= i < |objs| :: objs[i] in objs;
  }
}
