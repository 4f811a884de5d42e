/** What the reconciles of one key do through a given cache, exactly: when they create a Rancher cluster, and so when
    they import an annotated cluster again and when they make a second Rancher cluster. */
module ImportCache {
  import opened Wrappers
  import opened Network
  import opened Tables
  import opened Downstream
  import opened ImportDecision
  import opened ImportProtocol
  import opened ImportSafety
  import opened ImportOnce

  /** What the cache may show for one key: CAPI clusters, labels of the namespace, and lists of owned Rancher
      clusters. */
  datatype Cache = Cache(capis: set<Capi>, labels: set<Option<string>>, lists: set<seq<Found>>)

  ghost predicate Shows(cache: Cache, a: Action) {
    match a
    case Begin(seen) => seen.Some? ==> seen.value in cache.capis
    case ReadAgain(seen) => seen.Some? ==> seen.value in cache.capis
    case List(items) => items.Some? ==> items.value in cache.lists
    case CheckNamespace(mark) => mark.Some? ==> mark.value in cache.labels
    case _ => true
  }

  /** The reconciles of `k` alone, with this cache. */
  ghost predicate OwnRun(w: World, steps: seq<Step>, k: Key, cache: Cache)
    decreases |steps|
  {
    steps == [] ||
    (steps[0].Import? && steps[0].k == k && CachedStep(w, steps[0]) && Shows(cache, steps[0].act)
     && OwnRun(Apply(w, steps[0]), steps[1..], k, cache))
  }

  /** Gets past the guards once it holds the finalizer, and is not being deleted. */
  predicate Eligible(c: Capi) {
    c.spec.imported.None? && c.spec.controlPlane && !c.deleting
  }

  predicate Passes(c: Capi) {
    Eligible(c) && Turtles in c.finalizers
  }

  /** Some cluster that the cache shows gets past the guards: it holds the finalizer, or it is the stored one, to which
      the finalizer can be added. */
  ghost predicate Enters(t: CapiTable, k: Key, cache: Cache) {
    exists c :: c in cache.capis && Eligible(c) && (Turtles in c.finalizers || Lookup(t, k) == Some(c))
  }

  ghost predicate SomeAdmits(cache: Cache) {
    exists m :: m in cache.labels && ShouldImport(m).1
  }

  function Verdict(c: CapiSpec): ImportDecision.Verdict {
    ClusterVerdict(c.mark, c.imported.Some?)
  }

  /** The stored cluster is accepted by its own label, or asks the namespace, which the cache shows labelled true. */
  ghost predicate Admitted(c: CapiSpec, cache: Cache) {
    Verdict(c) == Accept || (Verdict(c) == AskNamespace && SomeAdmits(cache))
  }

  /** Everything on the way to a create: the guards, an empty list, the decision on what is stored. */
  ghost predicate Creatable(t: CapiTable, k: Key, cache: Cache) {
    k in t.objs && [] in cache.lists && Enters(t, k, cache) && Admitted(t.objs[k].spec, cache)
  }

  // --- What own requests do to the stored cluster ---

  /** Unchanged, or marked by reconcileDelete. */
  predicate SameOrMarked(c: CapiSpec, d: CapiSpec) {
    d == c || d == c.(imported := Some("true"))
  }

  ghost predicate KeepsSpec(t: CapiTable, u: CapiTable, k: Key) {
    k in u.objs ==> k in t.objs && SameOrMarked(t.objs[k].spec, u.objs[k].spec)
  }

  lemma AddFinalizerKeepsSpec(t: CapiTable, k: Key, c: Capi)
    requires Genuine(t, k, c)
    ensures var u := SendFinalizer(t, k, c).0; k in u.objs ==> k in t.objs && u.objs[k].spec == t.objs[k].spec
    ensures var (u, r) := SendFinalizer(t, k, c); r.Applied? ==> k in t.objs && t.objs[k] == c
  {
    hide Evolves, OnlyAt;
  }

  lemma PatchKeepsSpec(t: CapiTable, k: Key, base: Capi, copy: Capi)
    requires Genuine(t, k, base)
    requires SameOrMarked(base.spec, copy.spec) || Superseded(t, k, base)
    ensures KeepsSpec(t, SendCapiPatch(t, k, base, copy).0, k)
  {
    hide Evolves, OnlyAt;
  }

  lemma WithoutKeepsSpec(t: CapiTable, k: Key, base: Capi)
    requires Genuine(t, k, base)
    ensures KeepsSpec(t, SendWithout(t, k, base), k)
  {
    hide Evolves, OnlyAt;
  }

  lemma WriteCapiKeepsSpec(w: World, k: Key, a: Action)
    requires MemoryInv(w) && Enabled(w.imports, k, a)
    requires a.Annotate? || a.DropFinalizer? || a.PatchCapi?
    ensures KeepsSpec(w.capis, DoWriteCapi(w, k, a).capis, k)
  {
    hide Evolves, OnlyAt, Sound, OwnChange, SendCapiPatch, SendWithout, KeepsSpec, Genuine, Superseded;
    assert LocalGenuine(w, k, w.imports[k]);
    var l := w.imports[k];
    UnchangedKeepsSpec(w.capis, k);
    PatchKeepsSpec(w.capis, k, l.base, MarkImported(l.base));
    PatchKeepsSpec(w.capis, k, l.base, l.copy);
    WithoutKeepsSpec(w.capis, k, l.base);
  }

  lemma UnchangedKeepsSpec(t: CapiTable, k: Key)
    ensures KeepsSpec(t, t, k)
  {
  }

  lemma OwnKeepsSpec(w: World, k: Key, a: Action)
    requires MemoryInv(w)
    ensures KeepsSpec(w.capis, Do(w, k, a).capis, k)
  {
    hide OwnChange, DoRead, DoWriteCapi, DoWriteRancher, SendFinalizer;
    if Enabled(w.imports, k, a) {
      if a.Annotate? || a.DropFinalizer? || a.PatchCapi? {
        WriteCapiKeepsSpec(w, k, a);
      } else if a.AddFinalizer? {
        assert LocalGenuine(w, k, w.imports[k]);
        AddFinalizerKeepsSpec(w.capis, k, w.imports[k].capi);
      }
    }
  }

  // --- No create without all of that ---

  /** Where the reconcile of `k` may stand, when it started with `t` stored. */
  ghost predicate ShutLocal(t: CapiTable, k: Key, cache: Cache, l: Local) {
    match l
    case ReadingAgain => true
    case AddingFinalizer(c) => c in cache.capis
    case Inside(base, _, stage) => ShutStage(t, k, cache, base.deleting, stage)
  }

  ghost predicate ShutStage(t: CapiTable, k: Key, cache: Cache, deleting: bool, stage: Stage) {
    match stage
    case Listing => deleting || Enters(t, k, cache)
    case Rechecking => Enters(t, k, cache) && [] in cache.lists
    case CheckingNamespace => Enters(t, k, cache) && [] in cache.lists && k in t.objs && Verdict(t.objs[k].spec) == AskNamespace
    case Creating => false
    case _ => true
  }

  ghost predicate Shut(t: CapiTable, w: World, k: Key, cache: Cache) {
    && Evolves(t, w.capis) && KeepsSpec(t, w.capis, k)
    && (k in w.imports ==> ShutLocal(t, k, cache, w.imports[k]))
  }

  /** What the cache shows was not stored after the start. */
  ghost predicate Old(t: CapiTable, k: Key, cache: Cache) {
    forall c | c in cache.capis :: Genuine(t, k, c)
  }

  lemma BeginShut(t: CapiTable, w: World, k: Key, seen: Option<Capi>, cache: Cache)
    requires k !in w.imports && Shows(cache, Begin(seen))
    ensures var v := Do(w, k, Begin(seen)); k in v.imports ==> ShutLocal(t, k, cache, v.imports[k])
  {
    hide OwnChange, DoRead, DoWriteCapi, DoWriteRancher, DoAddFinalizer;
    if seen.Some? && Passes(seen.value) {
      assert Enters(t, k, cache);
    }
  }

  lemma FinalizerShut(t: CapiTable, w: World, k: Key, net: Net, again: bool, cache: Cache)
    requires MemoryInv(w) && Old(t, k, cache) && Shut(t, w, k, cache)
    requires k in w.imports && w.imports[k].AddingFinalizer?
    ensures var v := DoAddFinalizer(w, k, w.imports[k].capi, net, again); k in v.imports ==> ShutLocal(t, k, cache, v.imports[k])
  {
    hide OwnChange, OnlyAt, SendFinalizer, MemoryInv;
    var c := w.imports[k].capi;
    assert Genuine(w.capis, k, c) by { AddingGenuine(w, k); }
    AddFinalizerKeepsSpec(w.capis, k, c);
    SentDeleting(w.capis, k, c);
    var (u, r) := SendFinalizer(w.capis, k, c);
    if r.Applied? {
      StoredSince(t, w.capis, k, c);
      assert Eligible(c) ==> Enters(t, k, cache);
    }
  }

  lemma AddingGenuine(w: World, k: Key)
    requires MemoryInv(w) && k in w.imports && w.imports[k].AddingFinalizer?
    ensures Genuine(w.capis, k, w.imports[k].capi)
  {
    assert LocalGenuine(w, k, w.imports[k]);
  }

  lemma SentDeleting(t: CapiTable, k: Key, c: Capi)
    requires Genuine(t, k, c)
    ensures var (u, r) := SendFinalizer(t, k, c); r.Applied? && k in u.objs ==> u.objs[k].deleting == c.deleting && u.objs[k].spec == c.spec
  {
    hide Evolves, OnlyAt;
  }

  lemma StoredSince(t: CapiTable, u: CapiTable, k: Key, c: Capi)
    requires Evolves(t, u) && c.version < t.next && k in u.objs && u.objs[k] == c
    ensures Lookup(t, k) == Some(c)
  {
  }

  lemma OutsideShut(t: CapiTable, w: World, k: Key, a: Action, cache: Cache)
    requires MemoryInv(w) && Old(t, k, cache) && Shut(t, w, k, cache) && Enabled(w.imports, k, a) && Shows(cache, a)
    requires a.Begin? || a.ReadAgain? || a.AddFinalizer? || a.Crash?
    ensures var v := Do(w, k, a); k in v.imports ==> ShutLocal(t, k, cache, v.imports[k])
  {
    hide OwnChange, DoAddFinalizer, DoBegin, DoRead, DoWriteCapi, DoWriteRancher, Evolves, KeepsSpec, MemoryInv, ShutStage, Old;
    if a.Begin? {
      BeginShut(t, w, k, a.seen, cache);
    } else if a.AddFinalizer? {
      FinalizerShut(t, w, k, a.net, a.again, cache);
    }
  }

  /** The verdict on the stored cluster is the one at the start, or that of a marked one. */
  lemma RecheckVerdict(t: CapiTable, u: CapiTable, k: Key, cache: Cache)
    requires KeepsSpec(t, u, k) && k in u.objs
    requires Enters(t, k, cache) && [] in cache.lists && !Creatable(t, k, cache)
    ensures k in t.objs && Verdict(u.objs[k].spec) != Accept
    ensures Verdict(u.objs[k].spec) == AskNamespace ==> Verdict(t.objs[k].spec) == AskNamespace
  {
    hide ParseBool, SomeAdmits, Enters;
  }

  lemma ReadShut(t: CapiTable, w: World, k: Key, a: Action, cache: Cache)
    requires Shut(t, w, k, cache) && !Creatable(t, k, cache) && Enabled(w.imports, k, a) && Shows(cache, a)
    requires a.List? || a.Recheck? || a.CheckNamespace? || a.Work?
    ensures ShutLocal(t, k, cache, DoRead(w, k, a).imports[k])
  {
    hide Evolves, OnlyAt, OwnChange, ClusterVerdict, Decorate, Enters, SomeAdmits, KeepsSpec, ShouldImport;
    if a.CheckNamespace? && a.mark.Some? && ShouldImport(a.mark.value).1 {
      Admits(cache, a.mark.value);
    }
    if a.Recheck? && k in w.capis.objs {
      RecheckVerdict(t, w.capis, k, cache);
    }
  }

  lemma Admits(cache: Cache, m: Option<string>)
    requires m in cache.labels && ShouldImport(m).1
    ensures SomeAdmits(cache)
  {
  }

  lemma LeadsShut(t: CapiTable, k: Key, cache: Cache, imports: map<Key, Local>, base: Capi)
    requires LeadsOn(imports, k, base)
    ensures k in imports ==> ShutLocal(t, k, cache, imports[k])
  {
  }

  lemma NoCreate(t: CapiTable, w: World, k: Key, a: Action, cache: Cache)
    requires Shut(t, w, k, cache) && Enabled(w.imports, k, a)
    ensures !a.CreateRancher?
  {
  }

  lemma OwnShut(t: CapiTable, w: World, k: Key, a: Action, cache: Cache)
    requires MemoryInv(w) && Old(t, k, cache) && Shut(t, w, k, cache) && !Creatable(t, k, cache) && Enabled(w.imports, k, a) && Shows(cache, a)
    ensures !a.CreateRancher?
    ensures var v := Do(w, k, a); k in v.imports ==> ShutLocal(t, k, cache, v.imports[k])
  {
    hide OwnChange, DoOutside, DoRead, DoWriteCapi, DoWriteRancher, MemoryInv, Old, Evolves, KeepsSpec, Shows, Creatable, Enters, LeadsOn, ShutLocal;
    NoCreate(t, w, k, a, cache);
    if a.Begin? || a.ReadAgain? || a.AddFinalizer? || a.Crash? {
      OutsideShut(t, w, k, a, cache);
    } else if a.List? || a.Recheck? || a.CheckNamespace? || a.Work? {
      ReadShut(t, w, k, a, cache);
    } else {
      WriteLeads(w, k, a);
      LeadsShut(t, k, cache, Do(w, k, a).imports, w.imports[k].base);
    }
  }

  lemma EvolvesOn(t: CapiTable, u: CapiTable, v: CapiTable)
    requires Evolves(t, u) && Evolves(u, v)
    ensures Evolves(t, v)
  {
  }

  lemma ShutStep(t: CapiTable, w: World, k: Key, a: Action, cache: Cache)
    requires MemoryInv(w) && Old(t, k, cache) && Shut(t, w, k, cache) && !Creatable(t, k, cache) && Shows(cache, a)
    ensures Shut(t, Do(w, k, a), k, cache)
    ensures OwnedNames(Do(w, k, a).ranchers, k) <= OwnedNames(w.ranchers, k)
  {
    hide DoOutside, DoRead, DoWriteCapi, DoWriteRancher, MemoryInv, Old, Evolves, OnlyAt, Shows, Creatable, ShutLocal;
    var v := Do(w, k, a);
    OwnKeepsSpec(w, k, a);
    EvolvesOn(t, w.capis, v.capis);
    if Enabled(w.imports, k, a) {
      OwnShut(t, w, k, a, cache);
      OwnKeepsOwned(w, k, a);
    }
  }

  lemma {:induction false} ShutRun(t: CapiTable, w: World, steps: seq<Step>, k: Key, cache: Cache)
    requires MemoryInv(w) && Old(t, k, cache) && Shut(t, w, k, cache) && !Creatable(t, k, cache) && OwnRun(w, steps, k, cache)
    ensures NeverGains(w, steps, k)
    decreases |steps|
  {
    hide Do, MemoryInv, Old, Shut, Creatable, CachedStep, Shows;
    if steps != [] {
      ShutStep(t, w, k, steps[0].act, cache);
      MemoryStep(w, steps[0]);
      ShutRun(t, Apply(w, steps[0]), steps[1..], k, cache);
    }
  }

  // --- A create with all of that ---

  lemma OwnAfter(w: World, k: Key, a: Action, rest: seq<Step>, cache: Cache) returns (steps: seq<Step>)
    requires CachedStep(w, Import(k, a)) && Shows(cache, a) && OwnRun(Do(w, k, a), rest, k, cache)
    ensures OwnRun(w, steps, k, cache) && Exec(w, steps) == Exec(Do(w, k, a), rest)
  {
    hide Do, CachedStep, Shows;
    steps := [Import(k, a)] + rest;
    assert steps[1..] == rest;
  }

  lemma NoOwnSteps(w: World, k: Key, cache: Cache)
    ensures OwnRun(w, [], k, cache) && Exec(w, []) == w
  {
  }

  lemma CreateAdds(w: World, k: Key, name: string)
    requires k in w.imports && w.imports[k].Inside? && w.imports[k].stage.Creating? && name !in w.ranchers.objs
    ensures OwnedNames(Do(w, k, CreateRancher(Delivered, name)).ranchers, k) == OwnedNames(w.ranchers, k) + {name}
  {
  }

  lemma CreateOwn(w: World, k: Key, cache: Cache, base: Capi, copy: Capi, name: string) returns (steps: seq<Step>)
    requires name !in w.ranchers.objs
    ensures var u := Goto(w, k, Inside(base, copy, Creating));
      OwnRun(u, steps, k, cache) && OwnedNames(Exec(u, steps).ranchers, k) == OwnedNames(w.ranchers, k) + {name}
  {
    hide Do, OwnRun, Exec;
    var u := Goto(w, k, Inside(base, copy, Creating));
    CreateAdds(u, k, name);
    NoOwnSteps(Do(u, k, CreateRancher(Delivered, name)), k, cache);
    steps := OwnAfter(u, k, CreateRancher(Delivered, name), [], cache);
  }

  lemma Rechecks(w: World, k: Key, base: Capi, copy: Capi)
    requires k in w.capis.objs
    ensures Do(Goto(w, k, Inside(base, copy, Rechecking)), k, Recheck(Delivered)) ==
            Goto(w, k, AfterRecheck(base, copy, Some(w.capis.objs[k])))
  {
    hide Evolves, OnlyAt, OwnChange, DoWriteCapi, DoWriteRancher, DoOutside, AfterRecheck;
    assert w.imports[k := Inside(base, copy, Rechecking)][k := AfterRecheck(base, copy, Some(w.capis.objs[k]))]
        == w.imports[k := AfterRecheck(base, copy, Some(w.capis.objs[k]))];
  }

  lemma AsksAndCreates(w: World, k: Key, base: Capi, copy: Capi, m: Option<string>)
    requires ShouldImport(m).1
    ensures Do(Goto(w, k, Inside(base, copy, CheckingNamespace)), k, CheckNamespace(Some(m))) == Goto(w, k, Inside(base, copy, Creating))
  {
    hide Evolves, OnlyAt, OwnChange, DoWriteCapi, DoWriteRancher, DoOutside, ShouldImport;
    assert w.imports[k := Inside(base, copy, CheckingNamespace)][k := Inside(base, copy, Creating)] == w.imports[k := Inside(base, copy, Creating)];
  }

  lemma RecheckOwn(w: World, k: Key, cache: Cache, base: Capi, copy: Capi, name: string) returns (steps: seq<Step>)
    requires name !in w.ranchers.objs && k in w.capis.objs && Admitted(w.capis.objs[k].spec, cache)
    ensures var u := Goto(w, k, Inside(base, copy, Rechecking));
      OwnRun(u, steps, k, cache) && OwnedNames(Exec(u, steps).ranchers, k) == OwnedNames(w.ranchers, k) + {name}
  {
    hide Do, OwnRun, Exec, ClusterVerdict, ShouldImport, Goto;
    var u := Goto(w, k, Inside(base, copy, Rechecking));
    var now := w.capis.objs[k];
    Rechecks(w, k, base, copy);
    steps := CreateOwn(w, k, cache, base, now, name);
    if Verdict(now.spec) != Accept {
      var m :| m in cache.labels && ShouldImport(m).1;
      AsksAndCreates(w, k, base, now, m);
      steps := OwnAfter(Goto(w, k, Inside(base, now, CheckingNamespace)), k, CheckNamespace(Some(m)), steps, cache);
    }
    steps := OwnAfter(u, k, Recheck(Delivered), steps, cache);
  }

  lemma ListsNothing(w: World, k: Key, base: Capi)
    requires !base.deleting
    ensures Do(Goto(w, k, Inside(base, base, Listing)), k, List(Some([]))) ==
            Goto(w, k, Inside(base, WithoutFleetAddon(w.caapf, base), Rechecking))
  {
    hide Evolves, OnlyAt, OwnChange, DoWriteCapi, DoWriteRancher, DoOutside, WithoutFleetAddon;
    var l := Inside(base, WithoutFleetAddon(w.caapf, base), Rechecking);
    assert w.imports[k := Inside(base, base, Listing)][k := l] == w.imports[k := l];
  }

  lemma ListOwn(w: World, k: Key, cache: Cache, base: Capi, name: string) returns (steps: seq<Step>)
    requires name !in w.ranchers.objs && k in w.capis.objs && Admitted(w.capis.objs[k].spec, cache)
    requires !base.deleting && [] in cache.lists
    ensures var u := Goto(w, k, Inside(base, base, Listing));
      OwnRun(u, steps, k, cache) && OwnedNames(Exec(u, steps).ranchers, k) == OwnedNames(w.ranchers, k) + {name}
  {
    hide Do, OwnRun, Exec, Goto, Admitted, WithoutFleetAddon;
    ListsNothing(w, k, base);
    steps := RecheckOwn(w, k, cache, base, WithoutFleetAddon(w.caapf, base), name);
    steps := OwnAfter(Goto(w, k, Inside(base, base, Listing)), k, List(Some([])), steps, cache);
  }

  lemma BeginsInside(w: World, k: Key, c: Capi)
    requires k !in w.imports && Passes(c)
    ensures Do(w, k, Begin(Some(c))) == Goto(w, k, Inside(c, c, Listing))
  {
    hide Evolves, OnlyAt, OwnChange, DoWriteCapi, DoWriteRancher, DoRead, DoAddFinalizer;
  }

  /** The first requests for the stored cluster without the finalizer. */
  lemma BeginsWithFinalizer(w: World, k: Key, c: Capi)
    requires k !in w.imports && Lookup(w.capis, k) == Some(c) && Eligible(c) && Turtles !in c.finalizers
    ensures var w1 := Do(w, k, Begin(Some(c)));
      var w2 := Do(w1, k, ReadAgain(Some(c)));
      var w3 := Do(w2, k, AddFinalizer(Delivered, false));
      && w1.capis == w2.capis == w.capis
      && k in w3.capis.objs && w3.capis.objs[k].spec == c.spec && !w3.capis.objs[k].deleting
      && w3 == Goto(w.(capis := w3.capis), k, Inside(w3.capis.objs[k], w3.capis.objs[k], Listing))
  {
    hide OwnChange, DoRead, DoWriteCapi, DoWriteRancher, Evolves, OnlyAt;
    assert forall l, m {:trigger w.imports[k := l][k := m]} :: w.imports[k := l][k := m] == w.imports[k := m];
  }

  lemma CreatesOwn(w: World, k: Key, cache: Cache, name: string) returns (steps: seq<Step>)
    requires k !in w.imports && name !in w.ranchers.objs && Old(w.capis, k, cache) && Creatable(w.capis, k, cache)
    ensures OwnRun(w, steps, k, cache) && OwnedNames(Exec(w, steps).ranchers, k) == OwnedNames(w.ranchers, k) + {name}
  {
    hide Do, OwnRun, Exec, Goto, Admitted, Genuine;
    var c :| c in cache.capis && Eligible(c) && (Turtles in c.finalizers || Lookup(w.capis, k) == Some(c));
    if Turtles in c.finalizers {
      BeginsInside(w, k, c);
      steps := ListOwn(w, k, cache, c, name);
    } else {
      BeginsWithFinalizer(w, k, c);
      var w1 := Do(w, k, Begin(Some(c)));
      var w2 := Do(w1, k, ReadAgain(Some(c)));
      var w3 := Do(w2, k, AddFinalizer(Delivered, false));
      steps := ListOwn(w.(capis := w3.capis), k, cache, w3.capis.objs[k], name);
      steps := OwnAfter(w2, k, AddFinalizer(Delivered, false), steps, cache);
      steps := OwnAfter(w1, k, ReadAgain(Some(c)), steps, cache);
    }
    steps := OwnAfter(w, k, Begin(Some(c)), steps, cache);
  }

  // --- The two together ---

  lemma {:induction false} NeverGainsMeans(w: World, steps: seq<Step>, k: Key)
    requires NeverGains(w, steps, k)
    ensures OwnedNames(Exec(w, steps).ranchers, k) <= OwnedNames(w.ranchers, k)
    decreases |steps|
  {
    hide Apply;
    if steps != [] {
      NeverGainsMeans(Apply(w, steps[0]), steps[1..], k);
    }
  }

  /** The reconciles of an idle key create a Rancher cluster through the cache if and only if the cache shows a cluster
      that gets past the guards, shows that nothing is owned, and what is stored is admitted. */
  lemma CreatesExactly(w: World, k: Key, cache: Cache, name: string)
    requires MemoryInv(w) && k !in w.imports && name !in w.ranchers.objs && Old(w.capis, k, cache)
    ensures (exists steps :: OwnRun(w, steps, k, cache) && !NeverGains(w, steps, k)) <==> Creatable(w.capis, k, cache)
  {
    hide MemoryInv, OwnRun, NeverGains, Creatable, Old, Exec;
    if Creatable(w.capis, k, cache) {
      var steps := CreatesOwn(w, k, cache, name);
      if NeverGains(w, steps, k) {
        NeverGainsMeans(w, steps, k);
      }
    } else {
      forall steps | OwnRun(w, steps, k, cache)
        ensures NeverGains(w, steps, k)
      {
        ShutRun(w.capis, w, steps, k, cache);
      }
    }
  }

  /** An annotated cluster that nobody works on is imported again by its own reconciles if and only if the cache can
      still show it as it was when it passed the guards, can show that nothing is owned, can show its namespace with
      a true label, and its own stored label is absent or true. */
  lemma ReimportedExactly(w: World, k: Key, cache: Cache, name: string)
    requires MemoryInv(w) && Imported(w.capis, k) && k !in w.imports && name !in w.ranchers.objs && Old(w.capis, k, cache)
    ensures (exists steps :: OwnRun(w, steps, k, cache) && !NeverGains(w, steps, k)) <==>
      && [] in cache.lists && SomeAdmits(cache)
      && (exists c :: c in cache.capis && Passes(c))
      && (w.capis.objs[k].spec.mark.None? || Truthy(w.capis.objs[k].spec.mark.value))
  {
    hide MemoryInv, OwnRun, NeverGains, Old, SomeAdmits;
    CreatesExactly(w, k, cache, name);
    assert Enters(w.capis, k, cache) <==> exists c :: c in cache.capis && Passes(c);
  }

  ghost predicate Two(t: RancherTable, k: Key) {
    exists r, q :: r in OwnedNames(t, k) && q in OwnedNames(t, k) && r != q
  }

  /** Reconciles of an idle key that has its one Rancher cluster make a second one if and only if the cache shows that
      nothing is owned, shows a cluster that gets past the guards, and what is stored is admitted. */
  lemma DuplicatedExactly(w: World, k: Key, cache: Cache, name: string)
    requires MemoryInv(w) && k !in w.imports && name !in w.ranchers.objs && Old(w.capis, k, cache)
    requires OwnedNames(w.ranchers, k) != {} && !Two(w.ranchers, k)
    ensures (exists steps :: OwnRun(w, steps, k, cache) && Two(Exec(w, steps).ranchers, k)) <==> Creatable(w.capis, k, cache)
  {
    hide MemoryInv, OwnRun, NeverGains, Creatable, Old, Exec;
    CreatesExactly(w, k, cache, name);
    if Creatable(w.capis, k, cache) {
      var steps := CreatesOwn(w, k, cache, name);
      var r :| r in OwnedNames(w.ranchers, k);
      assert r in OwnedNames(Exec(w, steps).ranchers, k) && name in OwnedNames(Exec(w, steps).ranchers, k) && r != name;
    } else {
      forall steps | OwnRun(w, steps, k, cache)
        ensures !Two(Exec(w, steps).ranchers, k)
      {
        NeverGainsMeans(w, steps, k);
      }
    }
  }
}
