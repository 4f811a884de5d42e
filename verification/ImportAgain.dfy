/** Runs in which a CAPI cluster is imported again, or twice: through a stale cache, and when the cleanup controller
    comes first; and why a refusing label is safe. */
module ImportAgain {
  import opened Wrappers
  import opened Network
  import opened Tables
  import opened Downstream
  import opened ImportDecision
  import opened ImportProtocol
  import opened ImportSafety
  import opened ImportOnce
  import opened ImportUnique
  import opened ImportCache
  import opened ImportQuiet
  import opened ImportServer
  import opened ImportRequests
  import opened ImportConvergence
  import opened ImportDeletion

  // --- A refusing label of its own ---

  /** The annotation is kept and the cluster's own label refuses, in every state. */
  ghost predicate RefusedThroughout(w: World, steps: seq<Step>, k: Key)
    decreases |steps|
  {
    steps == [] ||
    (KeepsMark(w, steps[0], k)
     && ClusterVerdict(Apply(w, steps[0]).capis.objs[k].spec.mark, true) == Refuse
     && RefusedThroughout(Apply(w, steps[0]), steps[1..], k))
  }

  ghost predicate NotAsking(w: World, k: Key) {
    Imported(w.capis, k) && ClusterVerdict(w.capis.objs[k].spec.mark, true) == Refuse
    && (k in w.imports && w.imports[k].Inside? ==> !w.imports[k].stage.CheckingNamespace?)
  }

  lemma ReadNotAsking(w: World, k: Key, a: Action)
    requires NotAsking(w, k) && Enabled(w.imports, k, a) && (a.List? || a.Recheck? || a.CheckNamespace? || a.Work?)
    ensures !DoRead(w, k, a).imports[k].stage.CheckingNamespace?
  {
    hide Evolves, OnlyAt, OwnChange, ClusterVerdict, ShouldImport, Decorate;
  }

  lemma OwnNotAsking(w: World, k: Key, a: Action)
    requires NotAsking(w, k)
    ensures var v := Do(w, k, a); k in v.imports && v.imports[k].Inside? ==> !v.imports[k].stage.CheckingNamespace?
  {
    hide Evolves, OnlyAt, OwnChange, ClusterVerdict, DoRead, SendCapiPatch, SendWithout, SendRancherPatch, SendFinalizer, DeleteMany, Insert, NewRancher, MarkImported;
    if Enabled(w.imports, k, a) && (a.List? || a.Recheck? || a.CheckNamespace? || a.Work?) {
      ReadNotAsking(w, k, a);
    }
  }

  lemma NotAskingStep(w: World, s: Step, k: Key)
    requires NotAsking(w, k) && Imported(Apply(w, s).capis, k) && ClusterVerdict(Apply(w, s).capis.objs[k].spec.mark, true) == Refuse
    ensures NotAsking(Apply(w, s), k) && NotAdmitted(w, s, k)
  {
    hide Do, Evolves, ClusterVerdict, ShouldImport;
    if s.Import? && s.k == k {
      OwnNotAsking(w, k, s.act);
    }
  }

  lemma {:induction false} RefusedRun(w: World, steps: seq<Step>, k: Key)
    requires MemoryInv(w) && Barred(w, k, false) && NotAsking(w, k) && CachedRun(w, steps) && RefusedThroughout(w, steps, k)
    ensures NeverGains(w, steps, k)
    decreases |steps|
  {
    hide Apply, MemoryInv, NotAsking, CachedStep, KeepsMark, NotAdmitted;
    if steps != [] {
      RefusedIsBarred(w, steps[0], k);
      MemoryStep(w, steps[0]);
      RefusedRun(Apply(w, steps[0]), steps[1..], k);
    }
  }

  lemma RefusedIsBarred(w: World, s: Step, k: Key)
    requires MemoryInv(w) && Barred(w, k, false) && NotAsking(w, k) && CachedStep(w, s) && KeepsMark(w, s, k)
    requires ClusterVerdict(Apply(w, s).capis.objs[k].spec.mark, true) == Refuse
    ensures Barred(Apply(w, s), k, false) && NotAsking(Apply(w, s), k)
    ensures OwnedNames(Apply(w, s).ranchers, k) <= OwnedNames(w.ranchers, k)
  {
    hide Apply, MemoryInv, CachedStep, ClusterVerdict;
    StepKeepsMark(w, s, k);
    NotAskingStep(w, s, k);
    BarredStep(w, s, k, false);
  }

  lemma StepKeepsMark(w: World, s: Step, k: Key)
    requires MemoryInv(w) && Imported(w.capis, k) && CachedStep(w, s) && KeepsMark(w, s, k)
    ensures Imported(Apply(w, s).capis, k)
  {
    hide Do, DoOther, Evolves, MemoryInv;
    if !s.Import? {
      OtherKeepsMark(w, s, k);
    } else if s.k == k {
      MarkAndReleaseTogether(w, k, s.act);
    } else {
      assert OnlyAt(w.capis, Do(w, s.k, s.act).capis, s.k);
    }
  }

  /** After reconcileDelete stored the annotation, a cluster whose own label refuses is never imported again, however
      stale the cache is and whatever the namespace says. */
  lemma RefusedIsNotReimported(w: World, k: Key, a: Action, steps: seq<Step>)
    requires MemoryInv(w) && CachedStep(w, Import(k, a))
    requires !Imported(w.capis, k) && Imported(Do(w, k, a).capis, k)
    requires var v := Do(w, k, a);
      ClusterVerdict(v.capis.objs[k].spec.mark, true) == Refuse && CachedRun(v, steps) && RefusedThroughout(v, steps, k)
    ensures NeverGains(Do(w, k, a), steps, k)
  {
    hide Do, MemoryInv, CachedRun, RefusedThroughout, NeverGains, ClusterVerdict;
    MarkBars(w, k, a);
    MemoryStep(w, Import(k, a));
    RefusedRun(Do(w, k, a), steps, k);
  }

  // --- Such a cache exists ---

  /** `o` was the stored object of `k` at some point of the run. */
  ghost predicate StoredOnce(w: World, steps: seq<Step>, k: Key, o: Capi) {
    exists j :: 0 <= j <= |steps| && Lookup(Exec(w, steps[..j]).capis, k) == Some(o)
  }

  lemma {:induction false} CapisEvolve(w: World, steps: seq<Step>)
    ensures Evolves(w.capis, Exec(w, steps).capis)
    decreases |steps|
  {
    hide Do, DoOther;
    if steps != [] {
      CapisEvolve(Apply(w, steps[0]), steps[1..]);
      EvolvesOn(w.capis, Apply(w, steps[0]).capis, Exec(w, steps).capis);
    }
  }

  /** Whatever was stored at some point of a run may be shown by a cache at its end. */
  lemma StoredIsGenuine(w: World, steps: seq<Step>, k: Key, o: Capi)
    requires MemoryInv(w) && CachedRun(w, steps) && StoredOnce(w, steps, k, o)
    ensures Genuine(Exec(w, steps).capis, k, o)
  {
    hide CachedRun, Exec, Evolves, Genuine;
    var j :| 0 <= j <= |steps| && Lookup(Exec(w, steps[..j]).capis, k) == Some(o);
    assert steps == steps[..j] + steps[j..];
    RunThen(w, steps[..j], steps[j..]);
    MemoryRun(w, steps[..j]);
    StoredNow(Exec(w, steps[..j]).capis, k, o);
    CapisEvolve(Exec(w, steps[..j]), steps[j..]);
    GenuineEvolves(Exec(w, steps[..j]).capis, Exec(w, steps).capis, k, o);
  }

  lemma StoredNow(t: CapiTable, k: Key, o: Capi)
    requires Sound(t) && Lookup(t, k) == Some(o)
    ensures Genuine(t, k, o)
  {
  }

  /** An imported cluster whose Rancher cluster `r` is being deleted, held by turtles alone. */
  ghost predicate Leaving(w: World, k: Key, r: string) {
    && k !in w.imports && k in w.capis.objs && Passes(w.capis.objs[k])
    && OwnedNames(w.ranchers, k) == {r} && w.ranchers.objs[r].deleting && w.ranchers.objs[r].finalizers == {Turtles}
  }

  lemma LeavingListed(w: World, k: Key, name: string, r: string)
    requires Leaving(w, k, r)
    ensures var c, rc := w.capis.objs[k], w.ranchers.objs[r];
      Reconcile(w, k, name) == Finish(Placed(w, k, Some(Inside(c, c, Annotating(r, rc)))), k, name)
  {
    hide Do, Finish, Answer, AnswerFor, Evolves, OnlyAt, Reconcile;
    var c := w.capis.objs[k];
    BeginLists(w, k, name);
    var l := Inside(c, c, Listing);
    ListedLeaving(w, k, r, name);
    FinishStep(Placed(w, k, Some(l)), k, name);
    AnswerPlaced(w, k, l, name);
    ListPlaced(w, k, c, Some(OwnedList(w.ranchers, k)));
  }

  lemma ListedLeaving(w: World, k: Key, r: string, name: string)
    requires Leaving(w, k, r)
    ensures var c, rc := w.capis.objs[k], w.ranchers.objs[r];
      && AfterList(w.caapf, c, Some(OwnedList(w.ranchers, k))) == Inside(c, c, Annotating(r, rc))
      && AnswerFor(w, k, Inside(c, c, Listing), name) == List(Some(OwnedList(w.ranchers, k)))
      && WithFinalizer(w, k) == w.capis
  {
    hide Decorate, WithoutFleetAddon;
    assert OwnedList(w.ranchers, k)[0].name in OwnedNames(w.ranchers, k);
  }

  /** The tables after the import controller came first. */
  lemma LeavingAnnotated(w: World, k: Key, r: string)
    requires Leaving(w, k, r) && Sound(w.capis)
    ensures var c, rc := w.capis.objs[k], w.ranchers.objs[r];
      var t := SendCapiPatch(w.capis, k, c, MarkImported(c)); var u := SendWithout(w.ranchers, r, rc);
      && t.1.Applied? && k in t.0.objs && t.0.objs[k].spec == c.spec.(imported := Some("true")) && Turtles !in t.0.objs[k].finalizers
      && SendCapiPatch(t.0, k, c, MarkImported(c)).0 == t.0
      && OwnedNames(u, k) == {} && forall q | q in u.objs :: q in w.ranchers.objs
  {
    hide Evolves;
  }

  lemma Annotated(w: World, k: Key, name: string, c: Capi, r: string, rc: Rancher)
    requires SendCapiPatch(w.capis, k, c, MarkImported(c)).1.Applied?
    ensures Finish(Placed(w, k, Some(Inside(c, c, Annotating(r, rc)))), k, name) ==
            Finish(Placed(w.(capis := SendCapiPatch(w.capis, k, c, MarkImported(c)).0), k,
                          Some(Inside(c, MarkImported(c), Releasing(r, rc)))), k, name)
  {
    hide Do, Finish, Answer, Placed, SendCapiPatch, MarkImported;
    var l := Inside(c, c, Annotating(r, rc));
    assert k in Placed(w, k, Some(l)).imports by { Standing(w, k, l); }
    FinishStep(Placed(w, k, Some(l)), k, name);
    AnswerPlaced(w, k, l, name);
    AnnotatePlaced(w, k, c, r, rc, Delivered);
  }

  lemma Released(w: World, k: Key, name: string, c: Capi, copy: Capi, r: string, rc: Rancher)
    ensures Finish(Placed(w, k, Some(Inside(c, copy, Releasing(r, rc)))), k, name) ==
            Finish(Placed(w.(ranchers := SendWithout(w.ranchers, r, rc)), k, Some(Inside(c, copy, PatchingCapi))), k, name)
  {
    hide Do, Finish, Answer, Placed, SendWithout;
    var l := Inside(c, copy, Releasing(r, rc));
    assert k in Placed(w, k, Some(l)).imports by { Standing(w, k, l); }
    FinishStep(Placed(w, k, Some(l)), k, name);
    ReleasePlaced(w, k, c, copy, r, rc, Delivered, name);
  }

  lemma PatchedLast(w: World, k: Key, name: string, c: Capi, copy: Capi)
    requires k !in w.imports
    ensures Finish(Placed(w, k, Some(Inside(c, copy, PatchingCapi))), k, name) ==
            w.(capis := SendCapiPatch(w.capis, k, c, copy).0)
  {
    hide Do, Finish, Answer, Placed, SendCapiPatch;
    var l := Inside(c, copy, PatchingCapi);
    assert k in Placed(w, k, Some(l)).imports by { Standing(w, k, l); }
    FinishStep(Placed(w, k, Some(l)), k, name);
    AnswerPlaced(w, k, l, name);
    PatchCapiPlaced(w, k, c, copy, Delivered);
    FinishDone(w.(capis := SendCapiPatch(w.capis, k, c, copy).0), k, name);
  }

  lemma UnimportedFirst(w: World, k: Key, name: string, r: string)
    requires Leaving(w, k, r) && Sound(w.capis)
    ensures var c, rc := w.capis.objs[k], w.ranchers.objs[r];
      Reconcile(w, k, name) ==
      w.(capis := SendCapiPatch(w.capis, k, c, MarkImported(c)).0, ranchers := SendWithout(w.ranchers, r, rc))
  {
    hide Finish, Placed, Reconcile, SendCapiPatch, SendWithout, MarkImported;
    var c, rc := w.capis.objs[k], w.ranchers.objs[r];
    LeavingListed(w, k, name, r);
    LeavingAnnotated(w, k, r);
    Annotated(w, k, name, c, r, rc);
    var w1 := w.(capis := SendCapiPatch(w.capis, k, c, MarkImported(c)).0);
    Released(w1, k, name, c, MarkImported(c), r, rc);
    PatchedLast(w1.(ranchers := SendWithout(w1.ranchers, r, rc)), k, name, c, MarkImported(c));
  }

  lemma FinishDone(w: World, k: Key, name: string)
    requires k !in w.imports
    ensures Finish(w, k, name) == w
  {
  }

  /** A user creates a cluster and it is imported. */
  lemma ImportedRun(w: World, k: Key, c: Capi, name: string) returns (steps: seq<Step>)
    requires Initial(w) && k !in w.capis.objs && name !in w.ranchers.objs
    requires c.spec.imported.None? && c.spec.controlPlane
    requires k.ns in w.namespaces && ShouldAutoImport(c.spec.mark, false, Some(w.namespaces[k.ns])) == Some(true)
    ensures FreshRun(w, steps) && forall s | s in steps :: !s.UserEdit? && !s.CleanupPatch?
    ensures var v := Exec(w, steps);
      && FreshInv(v) && k !in v.imports && v.cleanups == map[] && v.namespaces == w.namespaces
      && k in v.capis.objs && Passes(v.capis.objs[k]) && v.capis.objs[k].spec == c.spec
      && OwnedNames(v.ranchers, k) == {name} && !v.ranchers.objs[name].deleting && v.ranchers.objs[name].finalizers == {Turtles}
      && forall r | r in v.ranchers.objs :: r in w.ranchers.objs || r == name
  {
    hide Do, Exec, FreshRun, CachedRun, CachedStep, FreshInv, Finish, ImportQuiet.Reconcile, Evolves, OnlyAt, ShouldAutoImport;
    InitialIsFresh(w);
    var v0 := Apply(w, UserCreate(k, c));
    FreshInvStep(w, UserCreate(k, c));
    Created(w, k, c, name);
    var rest := ReconcileRuns(v0, k, name);
    ReconcileMissing(v0, k, name);
    FinalizerLands(v0, k);
    InsertedOwned(v0, k, name);
    steps := RunAfter(w, UserCreate(k, c), rest);
  }

  /** A user imports a cluster and then deletes its Rancher cluster. */
  lemma LeavingRun(w: World, k: Key, c: Capi, name: string) returns (steps: seq<Step>)
    requires Initial(w) && k !in w.capis.objs && name !in w.ranchers.objs
    requires c.spec.imported.None? && c.spec.controlPlane
    requires k.ns in w.namespaces && ShouldAutoImport(c.spec.mark, false, Some(w.namespaces[k.ns])) == Some(true)
    ensures FreshRun(w, steps) && forall s | s in steps :: !s.UserEdit? && !s.CleanupPatch?
    ensures var v := Exec(w, steps);
      && FreshInv(v) && Leaving(v, k, name) && v.cleanups == map[] && v.namespaces == w.namespaces
      && v.capis.objs[k].spec == c.spec
      && forall r | r in v.ranchers.objs :: r in w.ranchers.objs || r == name
  {
    hide Do, Exec, FreshRun, CachedRun, CachedStep, FreshInv, Evolves, OnlyAt, ShouldAutoImport;
    var first := ImportedRun(w, k, c, name);
    var v := Exec(w, first);
    FreshInvStep(v, RancherDelete(name));
    NoSteps(Apply(v, RancherDelete(name)));
    var last := RunAfter(v, RancherDelete(name), []);
    RunThen(w, first, last);
    steps := first + last;
    DeletedLeaves(v, k, name);
  }

  lemma Created(w: World, k: Key, c: Capi, name: string)
    requires Initial(w) && k !in w.capis.objs && name !in w.ranchers.objs
    requires c.spec.imported.None? && c.spec.controlPlane
    requires k.ns in w.namespaces && ShouldAutoImport(c.spec.mark, false, Some(w.namespaces[k.ns])) == Some(true)
    ensures var v := Apply(w, UserCreate(k, c)); Importable(v, k, name) && Allowed(v, k)
    ensures var v := Apply(w, UserCreate(k, c));
      v.capis.objs[k].spec == c.spec && v.ranchers == w.ranchers && v.cleanups == map[] && v.namespaces == w.namespaces
  {
    hide ShouldAutoImport;
  }

  lemma DeletedLeaves(w: World, k: Key, name: string)
    requires k !in w.imports && k in w.capis.objs && Passes(w.capis.objs[k])
    requires OwnedNames(w.ranchers, k) == {name} && !w.ranchers.objs[name].deleting && w.ranchers.objs[name].finalizers == {Turtles}
    ensures var v := Apply(w, RancherDelete(name));
      && Leaving(v, k, name) && v == w.(ranchers := v.ranchers)
      && forall r | r in v.ranchers.objs :: r in w.ranchers.objs
  {
    hide Evolves;
    assert name in OwnedNames(w.ranchers, k);
    assert forall r | r in w.ranchers.objs && w.ranchers.objs[r].spec.owner == Some(k) :: r in OwnedNames(w.ranchers, k);
  }

  /** From an initial state: a run with fresh reads alone and without an edit by a user, in which the import controller
      stores the annotation, and then reconciles of the same key that import it again, because the cache still shows
      the CAPI cluster as it was stored earlier in that run. The namespace is labelled all the time, and the list is
      right. */
  lemma StaleReimportIsReachable(w: World, k: Key, c: Capi, name: string, other: string)
    returns (steps: seq<Step>, past: Capi, more: seq<Step>)
    requires Initial(w) && k !in w.capis.objs && name !in w.ranchers.objs && other !in w.ranchers.objs && name != other
    requires c.spec.imported.None? && c.spec.controlPlane && (c.spec.mark.Some? ==> Truthy(c.spec.mark.value))
    requires k.ns in w.namespaces && ShouldImport(w.namespaces[k.ns]).1
    ensures FreshRun(w, steps) && forall s | s in steps :: !s.UserEdit?
    ensures var v := Exec(w, steps);
      && Imported(v.capis, k) && k !in v.imports && OwnedNames(v.ranchers, k) == {} && v.namespaces == w.namespaces
      && StoredOnce(w, steps, k, past)
      && OwnRun(v, more, k, Cache({past}, {w.namespaces[k.ns]}, {[]})) && OwnedNames(Exec(v, more).ranchers, k) == {other}
  {
    hide Do, Exec, FreshRun, CachedRun, FreshInv, ImportQuiet.Reconcile, OwnRun, Evolves, OnlyAt, StoredOnce, SendCapiPatch, SendWithout, MarkImported, ShouldImport, ClusterVerdict, Genuine;
    Asks(c.spec.mark, w.namespaces[k.ns]);
    var a := LeavingRun(w, k, c, name);
    var v := Exec(w, a);
    past := v.capis.objs[k];
    var b := ReconcileRuns(v, k, other);
    RunThen(w, a, b);
    steps := a + b;
    var u := Exec(w, steps);
    assert Sound(v.capis) by { FreshSound(v); }
    UnimportedFirst(v, k, other, name);
    LeavingAnnotated(v, k, name);
    AtPrefix(w, a, b, k, past);
    assert MemoryInv(w) by { InitialIsFresh(w); FreshMemory(w); }
    FreshListsAreTrue(w, steps);
    StoredIsGenuine(w, steps, k, past);
    more := CreatesOwn(u, k, Cache({past}, {w.namespaces[k.ns]}, {[]}), other);
  }

  /** From an initial state: a run with fresh reads alone in which a cluster is imported, and then reconciles of the
      same key that make a second Rancher cluster. All they read is fresh but for the list, which shows what was there
      at the start. */
  lemma DuplicateIsReachable(w: World, k: Key, c: Capi, name: string, other: string) returns (steps: seq<Step>, more: seq<Step>)
    requires Initial(w) && k !in w.capis.objs && name !in w.ranchers.objs && other !in w.ranchers.objs && name != other
    requires c.spec.imported.None? && c.spec.controlPlane
    requires k.ns in w.namespaces && ShouldAutoImport(c.spec.mark, false, Some(w.namespaces[k.ns])) == Some(true)
    ensures Complete(w.ranchers, k, [])
    ensures FreshRun(w, steps)
    ensures var v := Exec(w, steps);
      && k !in v.imports && k in v.capis.objs && v.namespaces == w.namespaces && OwnedNames(v.ranchers, k) == {name}
      && OwnRun(v, more, k, Cache({v.capis.objs[k]}, {w.namespaces[k.ns]}, {[]}))
      && OwnedNames(Exec(v, more).ranchers, k) == {name, other}
  {
    hide Do, Exec, FreshRun, FreshInv, OwnRun, Evolves, OnlyAt, ShouldAutoImport, Genuine;
    steps := ImportedRun(w, k, c, name);
    var v := Exec(w, steps);
    assert Genuine(v.capis, k, v.capis.objs[k]) by { FreshSound(v); StoredNow(v.capis, k, v.capis.objs[k]); }
    Decides(c.spec.mark, w.namespaces[k.ns]);
    more := CreatesOwn(v, k, Cache({v.capis.objs[k]}, {w.namespaces[k.ns]}, {[]}), other);
  }

  lemma Decides(mark: Option<string>, m: Option<string>)
    requires ShouldAutoImport(mark, false, Some(m)) == Some(true)
    ensures ClusterVerdict(mark, false) == Accept || (ClusterVerdict(mark, false) == AskNamespace && ShouldImport(m).1)
  {
  }

  lemma Asks(mark: Option<string>, m: Option<string>)
    requires (mark.Some? ==> Truthy(mark.value)) && ShouldImport(m).1
    ensures ShouldAutoImport(mark, false, Some(m)) == Some(true) && ClusterVerdict(mark, true) == AskNamespace
  {
  }

  lemma FreshSound(w: World)
    requires FreshInv(w)
    ensures Sound(w.capis)
  {
  }

  lemma FreshMemory(w: World)
    requires FreshInv(w)
    ensures MemoryInv(w)
  {
  }

  lemma AtPrefix(w: World, a: seq<Step>, b: seq<Step>, k: Key, o: Capi)
    requires Lookup(Exec(w, a).capis, k) == Some(o)
    ensures StoredOnce(w, a + b, k, o)
  {
    hide Exec;
    assert (a + b)[..|a|] == a;
  }

  // --- When the cleanup controller comes first ---

  lemma CleanupRemoves(w: World, k: Key, r: string)
    requires Leaving(w, k, r) && r !in w.cleanups
    ensures var v := Cleanup(w, r);
      && v == w.(ranchers := v.ranchers) && v.ranchers.objs == w.ranchers.objs - {r}
      && OwnedNames(v.ranchers, k) == {}
  {
    hide Evolves, Do;
    var w1 := DoCleanupRead(w, r, Some(w.ranchers.objs[r]));
    assert r in OwnedNames(w.ranchers, k);
    assert w1 == w.(cleanups := w.cleanups[r := w.ranchers.objs[r]]);
    assert w1.cleanups - {r} == w.cleanups;
  }

  lemma ReconcileRefused(w: World, k: Key, name: string)
    requires Importable(w, k, name) && !Allowed(w, k)
    ensures Reconcile(w, k, name) == w.(capis := WithFinalizer(w, k))
  {
    hide FreshInv, Finish, WithFinalizer, AfterRecheck, Reconcile, Allowed;
    FinalizerLands(w, k);
    BeginLists(w, k, name);
    var u := w.(capis := WithFinalizer(w, k));
    var c := u.capis.objs[k];
    var u1 := Goto(u, k, Inside(c, c, Listing));
    MissingRechecks(u1, k, name, c);
    var l := AfterRecheck(c, WithoutFleetAddon(u.caapf, c), Some(c));
    assert Goto(u1, k, l) == Goto(u, k, l);
    assert !Allowed(u, k) by { SameDecision(w, u, k); }
    MissingRefused(u, k, name, c);
  }

  lemma SameDecision(w: World, u: World, k: Key)
    requires k in w.capis.objs && k in u.capis.objs && u.capis.objs[k].spec == w.capis.objs[k].spec && u.namespaces == w.namespaces
    ensures Allowed(u, k) == Allowed(w, k)
  {
  }

  lemma MissingRefused(u: World, k: Key, name: string, c: Capi)
    requires k !in u.imports && k in u.capis.objs && c == u.capis.objs[k] && !c.deleting && c.spec.imported.None? && !Allowed(u, k)
    ensures Finish(Goto(u, k, AfterRecheck(c, WithoutFleetAddon(u.caapf, c), Some(c))), k, name) == u
  {
    hide OwnChange, DoWriteCapi, DoWriteRancher, DoOutside, ShouldImport;
    var u1 := Goto(u, k, AfterRecheck(c, WithoutFleetAddon(u.caapf, c), Some(c)));
    var u2 := Goto(u, k, Inside(c, c, PatchingCapi));
    if ClusterVerdict(c.spec.mark, false).AskNamespace? {
      assert u2 == Do(u1, k, Answer(u1, k, name));
      assert Finish(u1, k, name) == Finish(u2, k, name);
    } else {
      assert u1 == u2;
    }
    CapiPatched(u2, k, name, c, c);
    CapiPatchLands(u.capis, k, c);
    assert u2.imports - {k} == u.imports;
  }

  /** The order decides. When the cleanup controller removes the last finalizer first, nothing was annotated, and the
      next reconcile brings the Rancher cluster back if and only if its import is still allowed. When the import
      controller comes first, the annotation is stored, and NoReimport holds from there. */
  lemma OrderDecides(w: World, k: Key, name: string, r: string)
    requires FreshInv(w) && Leaving(w, k, r) && r !in w.cleanups && name !in w.ranchers.objs
    ensures var v := Reconcile(Cleanup(w, r), k, name);
      OwnedNames(v.ranchers, k) == (if Allowed(w, k) then {name} else {}) && !Imported(v.capis, k)
    ensures var u := Reconcile(w, k, name); OwnedNames(u.ranchers, k) == {} && Imported(u.capis, k)
  {
    hide FreshInv, Cleanup, Reconcile, Allowed, SendCapiPatch, SendWithout, Evolves, OnlyAt;
    assert Sound(w.capis) by { FreshSound(w); }
    UnimportedFirst(w, k, name, r);
    LeavingAnnotated(w, k, r);
    CleanupRemoves(w, k, r);
    var v := Cleanup(w, r);
    SameDecision(w, v, k);
    FinalizerLands(v, k);
    if Allowed(w, k) {
      ReconcileMissing(v, k, name);
      InsertedOwned(v, k, name);
    } else {
      ReconcileRefused(v, k, name);
    }
  }

  lemma InsertedOwned(w: World, k: Key, name: string)
    requires Importable(w, k, name)
    ensures OwnedNames(Insert(w.ranchers, name, NewRancher(w.caapf, k, w.capis.objs[k].spec)).0, k) == {name}
  {
  }

  /** With fresh reads, and without any edit by a user: delete, cleanup, reconcile, and the Rancher cluster is back. */
  lemma CleanupFirstIsReachable(w: World, k: Key, c: Capi, name: string, other: string) returns (steps: seq<Step>)
    requires Initial(w) && k !in w.capis.objs && name !in w.ranchers.objs && other !in w.ranchers.objs && name != other
    requires c.spec.imported.None? && c.spec.controlPlane
    requires k.ns in w.namespaces && ShouldAutoImport(c.spec.mark, false, Some(w.namespaces[k.ns])) == Some(true)
    ensures FreshRun(w, steps) && forall s | s in steps :: !s.UserEdit?
    ensures var v := Exec(w, steps);
      OwnedNames(v.ranchers, k) == {other} && name !in v.ranchers.objs && !Imported(v.capis, k)
  {
    hide Do, Exec, FreshRun, CachedRun, FreshInv, ImportQuiet.Reconcile, Cleanup, ShouldAutoImport, Evolves, OnlyAt;
    var a := LeavingRun(w, k, c, name);
    var v := Exec(w, a);
    var b := CleanupRuns(v, name);
    RunThen(w, a, b);
    var u := Exec(w, a + b);
    assert FreshInv(u) by { FreshInvRun(v, b); }
    var d := ReconcileRuns(u, k, other);
    RunThen(w, a + b, d);
    steps := a + b + d;
    OrderDecides(v, k, other, name);
    CleanupRemoves(v, k, name);
    FinalizerLands(u, k);
    assert Allowed(v, k);
    SameDecision(v, u, k);
    ReconcileMissing(u, k, other);
  }

  lemma CleanupRuns(w: World, r: string) returns (steps: seq<Step>)
    ensures FreshRun(w, steps) && Exec(w, steps) == Cleanup(w, r) && forall s | s in steps :: !s.UserEdit?
  {
    hide Do, Exec, FreshRun, CachedRun, CachedStep, DoOther;
    var s := CleanupRead(r, Lookup(w.ranchers, r));
    NoSteps(Cleanup(w, r));
    steps := RunAfter(Apply(w, s), CleanupPatch(r, Delivered), []);
    steps := RunAfter(w, s, steps);
  }
}
