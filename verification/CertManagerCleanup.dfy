/** Removing what cert-manager left of a provider (CleanupCertManagerResources in internal/provider/wrangler.go),
    request by request, each of which may fail. */
module CertManagerCleanup {
  import opened Wrappers
  import opened Network
  import opened ManifestRewrite

  datatype Id = Id(kind: string, ns: string, name: string)

  /** `provider` is the value of the provider label, `restartedAt` that annotation of a Deployment's pod template. */
  datatype Stored = Stored(provider: Option<string>, annotations: Option<Strings>, restartedAt: Option<string>)

  type Objects = map<Id, Stored>

  const CERTIFICATE := "Certificate"
  const ISSUER := "Issuer"
  const DEPLOYMENT := "Deployment"
  const CLEANUP_KINDS: seq<string> := ["CustomResourceDefinition", "MutatingWebhookConfiguration", "ValidatingWebhookConfiguration"]

  predicate Namespaced(kind: string) {
    kind == CERTIFICATE || kind == ISSUER || kind == DEPLOYMENT
  }

  predicate Alphanumeric(c: char) {
    'a' <= c <= 'z' || 'A' <= c <= 'Z' || '0' <= c <= '9'
  }

  /** What Kubernetes allows as the value of a label. */
  predicate LabelValue(s: string) {
    && |s| <= 63
    && (s != "" ==> Alphanumeric(s[0]) && Alphanumeric(s[|s| - 1]))
    && forall c | c in s :: Alphanumeric(c) || c == '-' || c == '_' || c == '.'
  }

  /** getSelector: the namespace and the values the provider label may have. */
  datatype Selector = Selector(ns: string, values: set<string>)

  function SelectorFor(ns: string, typeName: string, specName: string, name: string): Option<Selector> {
    var base := if specName != "" then specName else name;
    if LabelValue(typeName + base) && LabelValue(base) then Some(Selector(ns, {typeName + base, base})) else None
  }

  predicate Selected(s: Selector, id: Id, o: Stored) {
    && (Namespaced(id.kind) ==> id.ns == s.ns)
    && o.provider.Some? && o.provider.value in s.values
  }

  /** A resource of the provider: it carries one of the two label values, and if its kind has a namespace it is in that
      of the provider. */
  ghost predicate OfProvider(ns: string, typeName: string, specName: string, name: string, id: Id, o: Stored) {
    && (id.kind == "Certificate" || id.kind == "Issuer" || id.kind == "Deployment" ==> id.ns == ns)
    && o.provider.Some?
    && (if specName == "" then o.provider.value == typeName + name || o.provider.value == name
        else o.provider.value == typeName + specName || o.provider.value == specName)
  }

  /** Nothing of cert-manager is left in it. */
  ghost predicate Rid(id: Id, o: Stored) {
    && id.kind != "Certificate" && id.kind != "Issuer"
    && (id.kind == "CustomResourceDefinition" || id.kind == "MutatingWebhookConfiguration" || id.kind == "ValidatingWebhookConfiguration" ==>
          o.annotations.None? || "cert-manager.io/inject-ca-from" !in o.annotations.value)
  }

  /** What may become of a resource of the provider; `after` is None when it is deleted. */
  ghost predicate MayBecome(id: Id, o: Stored, after: Option<Stored>) {
    if after.None? then id.kind == "Certificate" || id.kind == "Issuer"
    else
      || after.value == o
      || (id.kind == "Deployment" && after.value == o.(restartedAt := after.value.restartedAt))
      || ((id.kind == "CustomResourceDefinition" || id.kind == "MutatingWebhookConfiguration" || id.kind == "ValidatingWebhookConfiguration")
          && o.annotations.Some? && after.value == o.(annotations := Some(o.annotations.value - {"cert-manager.io/inject-ca-from"})))
  }

  /** The resources selected are those of the provider, where both label values are allowed; what remains of them is
      what is not rid of cert-manager. */
  lemma SelectedExactly(ns: string, typeName: string, specName: string, name: string, id: Id, o: Stored)
    requires SelectorFor(ns, typeName, specName, name).Some?
    ensures var s := SelectorFor(ns, typeName, specName, name).value;
      && (Selected(s, id, o) <==> OfProvider(ns, typeName, specName, name, id, o))
      && (Pending(s, id, o) <==> OfProvider(ns, typeName, specName, name, id, o) && !Rid(id, o))
  {
    hide LabelValue;
    CleanupKindsAre(id.kind);
  }

  lemma CleanupKindsAre(kind: string)
    ensures kind in CLEANUP_KINDS <==>
      kind == "CustomResourceDefinition" || kind == "MutatingWebhookConfiguration" || kind == "ValidatingWebhookConfiguration"
  {
    assert CLEANUP_KINDS[0] in CLEANUP_KINDS && CLEANUP_KINDS[1] in CLEANUP_KINDS && CLEANUP_KINDS[2] in CLEANUP_KINDS;
  }

  /** There is a selector exactly when both values are empty or begin and end with a letter or digit, hold nothing but
      those, "-", "_" and "." and have 63 characters at most. */
  lemma SelectorExactly(ns: string, typeName: string, specName: string, name: string)
    ensures var base := if specName == "" then name else specName;
      SelectorFor(ns, typeName, specName, name).Some? <==>
        forall value | value == typeName + base || value == base ::
          && |value| <= 63
          && forall i | 0 <= i < |value| ::
               || 'a' <= value[i] <= 'z' || 'A' <= value[i] <= 'Z' || '0' <= value[i] <= '9'
               || (0 < i < |value| - 1 && (value[i] == '-' || value[i] == '_' || value[i] == '.'))
  {
    var base := if specName == "" then name else specName;
    LabelValueIs(typeName + base);
    LabelValueIs(base);
  }

  lemma LabelValueIs(s: string)
    ensures LabelValue(s) <==>
      |s| <= 63 && forall i | 0 <= i < |s| :: Alphanumeric(s[i]) || (0 < i < |s| - 1 && (s[i] == '-' || s[i] == '_' || s[i] == '.'))
  {
  }

  predicate CertManagerKind(kind: string) {
    kind == CERTIFICATE || kind == ISSUER
  }

  /** Selected and still to be deleted or stripped. */
  predicate Pending(s: Selector, id: Id, o: Stored) {
    Selected(s, id, o) && (CertManagerKind(id.kind) || (id.kind in CLEANUP_KINDS && Injected(o.annotations)))
  }

  function Remaining(objs: Objects, s: Selector): set<Id> {
    set id | id in objs && Pending(s, id, objs[id])
  }

  /** Only selected objects changed: Certificates and Issuers went, others lost the annotation, Deployments were
      restarted. */
  ghost predicate Cleaned(objs: Objects, after: Objects, s: Selector) {
    && (forall id | id in after :: id in objs)
    && (forall id | id in objs && id !in after :: Selected(s, id, objs[id]) && CertManagerKind(id.kind))
    && (forall id | id in after && after[id] != objs[id] :: Selected(s, id, objs[id]) && ChangedAs(id.kind, objs[id], after[id]))
  }

  ghost predicate ChangedAs(kind: string, o: Stored, after: Stored) {
    || (kind in CLEANUP_KINDS && Injected(o.annotations) && after == o.(annotations := Strip(o.annotations)))
    || (kind == DEPLOYMENT && after == o.(restartedAt := after.restartedAt))
  }

  lemma CleanedTrans(a: Objects, b: Objects, c: Objects, s: Selector)
    requires Cleaned(a, b, s) && Cleaned(b, c, s)
    ensures Cleaned(a, c, s)
  {
  }

  lemma CleanedRefl(objs: Objects, s: Selector)
    ensures Cleaned(objs, objs, s)
  {
  }

  lemma DeleteOne(objs: Objects, s: Selector, id: Id)
    requires id in objs && Selected(s, id, objs[id]) && CertManagerKind(id.kind)
    ensures Cleaned(objs, objs - {id}, s)
    ensures id in Remaining(objs, s) && Remaining(objs - {id}, s) == Remaining(objs, s) - {id}
  {
  }

  lemma StripOne(objs: Objects, s: Selector, id: Id)
    requires id in objs && Selected(s, id, objs[id]) && id.kind in CLEANUP_KINDS && Injected(objs[id].annotations)
    ensures var after := objs[id := objs[id].(annotations := Strip(objs[id].annotations))];
      && Cleaned(objs, after, s)
      && id in Remaining(objs, s) && Remaining(after, s) == Remaining(objs, s) - {id}
  {
    NotCertManager(id.kind);
  }

  lemma NotCertManager(kind: string)
    requires kind in CLEANUP_KINDS
    ensures !CertManagerKind(kind) && kind != DEPLOYMENT
  {
    assert kind == CLEANUP_KINDS[0] || kind == CLEANUP_KINDS[1] || kind == CLEANUP_KINDS[2];
    assert CERTIFICATE[0] == 'C' && CERTIFICATE[1] == 'e' && ISSUER[0] == 'I' && DEPLOYMENT[0] == 'D';
  }

  lemma RestartOne(objs: Objects, s: Selector, id: Id, now: string)
    requires id in objs && Selected(s, id, objs[id]) && id.kind == DEPLOYMENT
    ensures var after := objs[id := objs[id].(restartedAt := Some(now))];
      Cleaned(objs, after, s) && Remaining(after, s) == Remaining(objs, s)
  {
    var after := objs[id := objs[id].(restartedAt := Some(now))];
    forall j | j in objs
      ensures Pending(s, j, after[j]) == Pending(s, j, objs[j])
    {
    }
  }

  lemma RemainingAre(objs: Objects, s: Selector)
    ensures forall id :: id in Remaining(objs, s) <==> id in objs && Pending(s, id, objs[id])
    ensures forall id | id in Remaining(objs, s) :: Selected(s, id, objs[id]) && (CertManagerKind(id.kind) || (id.kind in CLEANUP_KINDS && Injected(objs[id].annotations)))
  {
  }

  class Cluster {
    var objs: Objects
    /** Whether the kinds of cert-manager are known to the server. */
    const installed: bool
    /** The fate of the coming requests; when it is used up, every request is answered. */
    var fates: seq<Net>

    constructor (objs: Objects, installed: bool, fates: seq<Net>)
      ensures this.objs == objs && this.installed == installed && this.fates == fates
    {
      this.objs, this.installed, this.fates := objs, installed, fates;
    }

    ghost predicate Valid()
      reads this
    {
      !installed ==> forall id | id in objs :: !CertManagerKind(id.kind)
    }

    method Next() returns (net: Net)
      modifies this`fates
      ensures net == First(old(fates)) && fates == Later(old(fates))
    {
      net, fates := First(fates), Later(fates);
    }

    /** `writes` counts the deletions that were carried out. */
    method DeleteAll(s: Selector, kind: string) returns (err: bool, ghost writes: nat)
      requires Valid() && CertManagerKind(kind)
      modifies this
      ensures Valid() && Cleaned(old(objs), objs, s)
      ensures Remaining(objs, s) <= Remaining(old(objs), s)
      ensures |Remaining(old(objs), s)| == |Remaining(objs, s)| + writes
      ensures !err ==> forall id | id in Remaining(objs, s) :: id.kind != kind
      ensures old(fates) == [] ==> fates == [] && !err
    {
      hide Cleaned, Remaining, Selected, Pending;
      writes := 0;
      CleanedRefl(objs, s);
      var net := Next();
      if net != Delivered {
        return true, 0;
      }
      var left := set id | id in objs && id.kind == kind && Selected(s, id, objs[id]);
      while left != {}
        invariant Valid() && Cleaned(old(objs), objs, s)
        invariant Remaining(objs, s) <= Remaining(old(objs), s)
        invariant |Remaining(old(objs), s)| == |Remaining(objs, s)| + writes
        invariant forall id :: id in left <==> id in objs && id.kind == kind && Selected(s, id, objs[id])
        invariant old(fates) == [] ==> fates == []
        decreases |left|
      {
        var id :| id in left;
        net := Next();
        if net != Lost {
          DeleteOne(objs, s, id);
          CleanedTrans(old(objs), objs, objs - {id}, s);
          objs := objs - {id};
          writes := writes + 1;
        }
        if net != Delivered {
          return true, writes;
        }
        left := left - {id};
      }
      err := false;
      RemainingAre(objs, s);
    }

    method StripObject(s: Selector, id: Id) returns (err: bool, ghost writes: nat)
      requires Valid() && id in objs && Selected(s, id, objs[id]) && id.kind in CLEANUP_KINDS && Injected(objs[id].annotations)
      modifies this
      ensures Valid() && Cleaned(old(objs), objs, s) && objs.Keys == old(objs).Keys
      ensures forall j | j in objs :: Selected(s, j, objs[j]) == Selected(s, j, old(objs[j]))
      ensures Remaining(objs, s) <= Remaining(old(objs), s)
      ensures |Remaining(old(objs), s)| == |Remaining(objs, s)| + writes
      ensures !err ==> id !in Remaining(objs, s)
      ensures old(fates) == [] ==> fates == [] && !err
    {
      hide Cleaned, Remaining, Selected, Pending, Injected, Strip;
      writes := 0;
      CleanedRefl(objs, s);
      StripOne(objs, s, id);
      StripKeepsSelected(s, objs, id);
      var net := Next();
      if net != Lost {
        objs := objs[id := objs[id].(annotations := Strip(objs[id].annotations))];
        writes := 1;
      }
      err := net != Delivered;
    }

    method StripAll(s: Selector, kind: string) returns (err: bool, ghost writes: nat)
      requires Valid() && kind in CLEANUP_KINDS
      modifies this
      ensures Valid() && Cleaned(old(objs), objs, s)
      ensures Remaining(objs, s) <= Remaining(old(objs), s)
      ensures |Remaining(old(objs), s)| == |Remaining(objs, s)| + writes
      ensures !err ==> forall id | id in Remaining(objs, s) :: id.kind != kind
      ensures old(fates) == [] ==> fates == [] && !err
    {
      hide Cleaned, Remaining, Selected, Pending, Injected, Strip;
      writes := 0;
      CleanedRefl(objs, s);
      NotCertManager(kind);
      var net := Next();
      if net != Delivered {
        return true, 0;
      }
      var left := set id | id in objs && id.kind == kind && Selected(s, id, objs[id]);
      RemainingAre(objs, s);
      while left != {}
        invariant Valid() && Cleaned(old(objs), objs, s)
        invariant Remaining(objs, s) <= Remaining(old(objs), s)
        invariant |Remaining(old(objs), s)| == |Remaining(objs, s)| + writes
        invariant forall id | id in left :: id in objs && id.kind == kind && Selected(s, id, objs[id])
        invariant forall id | id in Remaining(objs, s) && id.kind == kind :: id in left
        invariant old(fates) == [] ==> fates == []
        decreases |left|
      {
        var id :| id in left;
        RemainingAre(objs, s);
        if Injected(objs[id].annotations) {
          ghost var before, n := objs, 0;
          err, n := StripObject(s, id);
          CleanedTrans(old(objs), before, objs, s);
          writes := writes + n;
          if err {
            return;
          }
        }
        left := left - {id};
      }
      err := false;
    }

    /** providerDeploymentRestart; its writes are repeated by every run. */
    method RestartAll(s: Selector, now: string) returns (err: bool)
      requires Valid()
      modifies this
      ensures Valid() && Cleaned(old(objs), objs, s) && Remaining(objs, s) == Remaining(old(objs), s)
      ensures !err ==> forall id | id in objs && id.kind == DEPLOYMENT && Selected(s, id, objs[id]) :: objs[id].restartedAt == Some(now)
      ensures old(fates) == [] ==> fates == [] && !err
    {
      hide Cleaned, Remaining, Pending, Selected;
      CleanedRefl(objs, s);
      var net := Next();
      if net != Delivered {
        return true;
      }
      var left := set id | id in objs && id.kind == DEPLOYMENT && Selected(s, id, objs[id]);
      while left != {}
        invariant Valid() && Cleaned(old(objs), objs, s) && Remaining(objs, s) == Remaining(old(objs), s)
        invariant forall id | id in left :: id in objs && id.kind == DEPLOYMENT && Selected(s, id, objs[id])
        invariant forall id | id in objs && id.kind == DEPLOYMENT && Selected(s, id, objs[id]) && id !in left :: objs[id].restartedAt == Some(now)
        invariant old(fates) == [] ==> fates == []
        decreases |left|
      {
        var id :| id in left;
        net := Next();
        if net != Lost {
          var restarted := objs[id := objs[id].(restartedAt := Some(now))];
          RestartOne(objs, s, id, now);
          CleanedTrans(old(objs), objs, restarted, s);
          RestartKeepsSelected(s, objs, id, now);
          objs := restarted;
        }
        if net != Delivered {
          return true;
        }
        left := left - {id};
      }
      err := false;
    }
  }

  lemma StripKeepsSelected(s: Selector, objs: Objects, id: Id)
    requires id in objs
    ensures Selected(s, id, objs[id].(annotations := Strip(objs[id].annotations))) == Selected(s, id, objs[id])
  {
  }

  lemma RestartKeepsSelected(s: Selector, objs: Objects, id: Id, now: string)
    requires id in objs
    ensures Selected(s, id, objs[id].(restartedAt := Some(now))) == Selected(s, id, objs[id])
  {
  }

  class CAPIProvider {
    const ns: string
    const typeName: string
    const specName: string
    const name: string
    /** The WranglerManagedCertificates condition. */
    var managed: Option<bool>

    constructor (ns: string, typeName: string, specName: string, name: string)
      ensures managed == None && this.ns == ns && this.typeName == typeName && this.specName == specName && this.name == name
    {
      this.ns, this.typeName, this.specName, this.name, managed := ns, typeName, specName, name, None;
    }

    function GetSelector(): Option<Selector> {
      SelectorFor(ns, typeName, specName, name)
    }
  }

  /** Resources of others are as they were, none appear, and those of the provider changed as they may. */
  ghost predicate OnlyCleaned(objs: Objects, after: Objects, ns: string, typeName: string, specName: string, name: string) {
    && (forall id | id in after :: id in objs)
    && forall id | id in objs ::
         if OfProvider(ns, typeName, specName, name, id, objs[id])
         then MayBecome(id, objs[id], if id in after then Some(after[id]) else None)
         else id in after && after[id] == objs[id]
  }

  lemma CleanedExactly(objs: Objects, after: Objects, ns: string, typeName: string, specName: string, name: string)
    requires SelectorFor(ns, typeName, specName, name).Some?
    ensures var s := SelectorFor(ns, typeName, specName, name).value;
      && (Cleaned(objs, after, s) ==> OnlyCleaned(objs, after, ns, typeName, specName, name))
      && (Remaining(objs, s) == {} <==> forall id | id in objs && OfProvider(ns, typeName, specName, name, id, objs[id]) :: Rid(id, objs[id]))
  {
    hide SelectorFor, Selected, Pending, OfProvider, Rid;
    var s := SelectorFor(ns, typeName, specName, name).value;
    forall id, o
      ensures Selected(s, id, o) <==> OfProvider(ns, typeName, specName, name, id, o)
      ensures Pending(s, id, o) <==> OfProvider(ns, typeName, specName, name, id, o) && !Rid(id, o)
    {
      SelectedExactly(ns, typeName, specName, name, id, o);
    }
    forall id: Id
      ensures id.kind in CLEANUP_KINDS <==>
        id.kind == "CustomResourceDefinition" || id.kind == "MutatingWebhookConfiguration" || id.kind == "ValidatingWebhookConfiguration"
    {
      CleanupKindsAre(id.kind);
    }
    RemainingAre(objs, s);
  }

  /** The requests of one run for what the selector selects. */
  method CleanupSelected(cl: Cluster, s: Selector, now: string) returns (err: bool, ghost writes: nat)
    requires cl.Valid()
    modifies cl
    ensures cl.Valid() && Cleaned(old(cl.objs), cl.objs, s)
    ensures |Remaining(old(cl.objs), s)| == |Remaining(cl.objs, s)| + writes
    ensures !err ==> Remaining(cl.objs, s) == {}
    ensures old(cl.fates) == [] ==> cl.fates == [] && !err
  {
    hide Cleaned, Remaining;
    ghost var before, n := cl.objs, 0;
    CleanedRefl(before, s);
    err, writes := cl.DeleteAll(s, CERTIFICATE);
    if err {
      return;
    }
    ghost var between := cl.objs;
    err, n := cl.DeleteAll(s, ISSUER);
    CleanedTrans(before, between, cl.objs, s);
    writes := writes + n;
    if err {
      return;
    }
    for i := 0 to |CLEANUP_KINDS|
      invariant cl.Valid() && Cleaned(before, cl.objs, s)
      invariant |Remaining(before, s)| == |Remaining(cl.objs, s)| + writes
      invariant forall id | id in Remaining(cl.objs, s) :: !CertManagerKind(id.kind) && id.kind !in CLEANUP_KINDS[..i]
      invariant old(cl.fates) == [] ==> cl.fates == []
    {
      between := cl.objs;
      err, n := cl.StripAll(s, CLEANUP_KINDS[i]);
      CleanedTrans(before, between, cl.objs, s);
      writes := writes + n;
      if err {
        return;
      }
      assert CLEANUP_KINDS[..i + 1] == CLEANUP_KINDS[..i] + [CLEANUP_KINDS[i]];
    }
    assert CLEANUP_KINDS[..|CLEANUP_KINDS|] == CLEANUP_KINDS;
    RemainingAre(cl.objs, s);
    assert Remaining(cl.objs, s) == {};
    between := cl.objs;
    err := cl.RestartAll(s, now);
    CleanedTrans(before, between, cl.objs, s);
  }

  /** Wherever a run fails, each write that was carried out lowered what remains by one, and nothing of others
      changed. The condition is set only when the provider's resources are rid of cert-manager; after that a run does
      nothing. */
  method CleanupCertManagerResources(cl: Cluster, provider: CAPIProvider, now: string) returns (err: bool, ghost writes: nat)
    requires cl.Valid()
    modifies cl, provider
    ensures cl.Valid()
    ensures old(provider.managed) == Some(true) ==> !err && cl.objs == old(cl.objs) && provider.managed == Some(true)
    ensures provider.GetSelector().None? ==> cl.objs == old(cl.objs) && provider.managed == old(provider.managed)
    ensures provider.GetSelector().Some? ==>
      var s := provider.GetSelector().value;
      && Cleaned(old(cl.objs), cl.objs, s)
      && |Remaining(old(cl.objs), s)| == |Remaining(cl.objs, s)| + writes
      && (provider.managed != old(provider.managed) ==> provider.managed == Some(true) && Remaining(cl.objs, s) == {})
      && (!err ==> provider.managed == Some(true))
      && (old(cl.fates) == [] ==> !err)
    ensures OnlyCleaned(old(cl.objs), cl.objs, provider.ns, provider.typeName, provider.specName, provider.name)
    ensures provider.managed != old(provider.managed) ==>
      forall id | id in cl.objs && OfProvider(provider.ns, provider.typeName, provider.specName, provider.name, id, cl.objs[id]) ::
        Rid(id, cl.objs[id])
    ensures old(cl.fates) == [] ==> cl.fates == []
  {
    hide Cleaned, Remaining, SelectorFor, OnlyCleaned, OfProvider, Rid;
    writes := 0;
    NothingCleaned(cl.objs, provider.ns, provider.typeName, provider.specName, provider.name);
    if provider.managed == Some(true) {
      if provider.GetSelector().Some? { CleanedRefl(cl.objs, provider.GetSelector().value); }
      return false, 0;
    }
    var selector := provider.GetSelector();
    if selector.None? {
      return true, 0;
    }
    ghost var before := cl.objs;
    err, writes := CleanupSelected(cl, selector.value, now);
    CleanedExactly(before, cl.objs, provider.ns, provider.typeName, provider.specName, provider.name);
    CleanedExactly(cl.objs, cl.objs, provider.ns, provider.typeName, provider.specName, provider.name);
    if err {
      return;
    }
    provider.managed := Some(true);
  }

  lemma NothingCleaned(objs: Objects, ns: string, typeName: string, specName: string, name: string)
    ensures OnlyCleaned(objs, objs, ns, typeName, specName, name)
  {
  }

  /** Runs that the manager repeats, whatever requests fail in them, followed by one without faults: all that
      remained is gone after exactly that many writes in total. */
  method CleanupEventually(cl: Cluster, provider: CAPIProvider, attempts: seq<seq<Net>>, now: string) returns (ghost writes: nat)
    requires cl.Valid() && provider.managed != Some(true) && provider.GetSelector().Some?
    modifies cl, provider
    ensures provider.managed == Some(true)
    ensures var s := provider.GetSelector().value;
      Cleaned(old(cl.objs), cl.objs, s) && Remaining(cl.objs, s) == {} && writes == |Remaining(old(cl.objs), s)|
  {
    hide Cleaned, Remaining, SelectorFor;
    var err;
    ghost var n;
    ghost var s := provider.GetSelector().value;
    writes := 0;
    CleanedRefl(cl.objs, s);
    for i := 0 to |attempts|
      invariant cl.Valid() && Cleaned(old(cl.objs), cl.objs, s)
      invariant |Remaining(old(cl.objs), s)| == |Remaining(cl.objs, s)| + writes
      invariant provider.managed == Some(true) ==> Remaining(cl.objs, s) == {}
    {
      ghost var between := cl.objs;
      cl.fates := attempts[i];
      err, n := CleanupCertManagerResources(cl, provider, now);
      CleanedTrans(old(cl.objs), between, cl.objs, s);
      writes := writes + n;
    }
    ghost var between := cl.objs;
    cl.fates := [];
    err, n := CleanupCertManagerResources(cl, provider, now);
    CleanedTrans(old(cl.objs), between, cl.objs, s);
    writes := writes + n;
  }
}
