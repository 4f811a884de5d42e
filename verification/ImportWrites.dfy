/** What the requests of an import reconcile store, in plain terms: the values themselves, not the functions that
    compute them. */
module ImportWrites {
  import opened Wrappers
  import opened Network
  import opened Tables
  import opened Downstream
  import opened ImportDecision
  import opened ImportManifest
  import opened ImportProtocol
  import opened ImportSafety
  import opened ImportQuiet
  import opened ImportConvergence
  import opened ImportBranches

  // --- A new Rancher cluster ---

  /** `o` is as the controller creates it for the CAPI cluster `k`. */
  ghost predicate AsNew(k: Key, caapf: bool, c: CapiSpec, o: Rancher) {
    && !o.deleting && o.finalizers == {Turtles}
    && o.spec.owner == Some(k)
    && o.spec.displayName == k.name
    && o.spec.description == (if c.description != "" then c.description else "CAPI cluster imported to Rancher")
    && o.spec.noCreator == Some("true")
    && o.spec.migrated == Some("cattle-fleet-system")
    && o.spec.versionManagement == Some("false")
    && o.spec.external == (if caapf then Some("true") else None)
    && !o.spec.ready
  }

  lemma NewRancherIsNew(caapf: bool, k: Key, c: CapiSpec)
    ensures AsNew(k, caapf, c, NewRancher(caapf, k, c))
  {
  }

  lemma InsertedIsNew(t: RancherTable, name: string, caapf: bool, k: Key, c: CapiSpec)
    ensures var u := Insert(t, name, NewRancher(caapf, k, c)).0;
      && (forall r | r in u.objs && r !in t.objs :: r == name && AsNew(k, caapf, c, u.objs[r]))
      && (name !in t.objs ==> name in u.objs)
  {
    hide NewRancher, AsNew, Evolves, OnlyAt;
    NewRancherIsNew(caapf, k, c);
    VersionIsNothing(k, caapf, c, NewRancher(caapf, k, c), t.next);
  }

  lemma VersionIsNothing(k: Key, caapf: bool, c: CapiSpec, o: Rancher, version: nat)
    requires AsNew(k, caapf, c, o)
    ensures AsNew(k, caapf, c, o.(version := version, deleting := false))
  {
  }

  /** Of the requests only a create that is not lost adds a Rancher cluster, the one for the base of its reconcile. */
  lemma OnlyCreateAdds(w: World, k: Key, a: Action, r: string)
    requires r in Do(w, k, a).ranchers.objs && r !in w.ranchers.objs
    ensures a.CreateRancher? && !a.net.Lost? && a.name == r && Enabled(w.imports, k, a)
    ensures AsNew(k, w.caapf, w.imports[k].base.spec, Do(w, k, a).ranchers.objs[r])
  {
    hide Evolves, Sound, AsNew, NewRancher, Insert, DoOutside, DoRead, DoWriteCapi;
    if a.CreateRancher? && Enabled(w.imports, k, a) {
      InsertedIsNew(w.ranchers, a.name, w.caapf, k, w.imports[k].base.spec);
    }
  }

  /** However stale the caches are: a Rancher cluster with the owner labels of `k` that was not there before comes from
      one create, sent for a CAPI cluster that the reconcile of `k` held, and was stored as new. */
  lemma {:induction false} OwnedWasCreated(w: World, steps: seq<Step>, k: Key, r: string) returns (j: nat)
    requires MemoryInv(w) && CachedRun(w, steps)
    requires r in OwnedNames(Exec(w, steps).ranchers, k) && r !in OwnedNames(w.ranchers, k)
    ensures j < |steps| && steps[j].Import? && steps[j].k == k
    ensures steps[j].act.CreateRancher? && !steps[j].act.net.Lost? && steps[j].act.name == r
    ensures var v, u := Exec(w, steps[..j]), Exec(w, steps[..j + 1]);
      && Enabled(v.imports, k, steps[j].act) && r !in v.ranchers.objs && r in u.ranchers.objs
      && AsNew(k, v.caapf, v.imports[k].base.spec, u.ranchers.objs[r])
    decreases |steps|
  {
    hide Apply, MemoryInv, CachedStep, AsNew;
    NoSteps(w);
    var n := |steps| - 1;
    var before := Exec(w, steps[..n]);
    assert steps == steps[..n] + [steps[n]] && steps[..|steps|] == steps;
    RunThen(w, steps[..n], [steps[n]]);
    MemoryRun(w, steps[..n]);
    var one := RunAfter(before, steps[n], []);
    NoSteps(Apply(before, steps[n]));
    if r in OwnedNames(before.ranchers, k) {
      j := OwnedWasCreated(w, steps[..n], k, r);
      assert steps[..n][..j] == steps[..j] && steps[..n][..j + 1] == steps[..j + 1];
    } else {
      j := n;
      GainedByCreate(before, steps[n], k, r);
    }
  }

  lemma GainedByCreate(w: World, s: Step, k: Key, r: string)
    requires MemoryInv(w) && CachedStep(w, s)
    requires r in OwnedNames(Apply(w, s).ranchers, k) && r !in OwnedNames(w.ranchers, k)
    ensures s.Import? && s.k == k && s.act.CreateRancher? && !s.act.net.Lost? && s.act.name == r
    ensures Enabled(w.imports, k, s.act) && r !in w.ranchers.objs
    ensures AsNew(k, w.caapf, w.imports[k].base.spec, Apply(w, s).ranchers.objs[r])
  {
    hide Evolves, MemoryInv, AsNew, DoOther, DoOutside, DoRead, DoWriteCapi, DoWriteRancher;
    if !s.Import? {
      OtherKeepsOwned(w, s);
    } else {
      ReconcileIsIsolated(w, s.k, s.act);
      assert s.k == k;
      OnlyCreateAdds(w, k, s.act, r);
    }
  }

  // --- An undisturbed reconcile creates for the stored cluster ---

  /** The reconcile in flight is for a CAPI cluster with the spec `c`. */
  ghost predicate For(w: World, k: Key, c: CapiSpec) {
    k in w.imports ==>
      match w.imports[k]
      case ReadingAgain => k in w.capis.objs ==> w.capis.objs[k].spec == c
      case AddingFinalizer(capi) => capi.spec == c
      case Inside(base, _, _) => base.spec == c
  }

  lemma OutsideFor(w: World, k: Key, a: Action, c: CapiSpec)
    requires For(w, k, c) && k in w.imports && Enabled(w.imports, k, a)
    requires a == ReadAgain(Lookup(w.capis, k)) || a == AddFinalizer(Delivered, false)
    ensures For(Do(w, k, a), k, c)
  {
    hide Evolves, OnlyAt, DoRead, DoWriteCapi, DoWriteRancher;
  }

  lemma ReadFor(w: World, k: Key, a: Action, c: CapiSpec)
    requires For(w, k, c) && Enabled(w.imports, k, a)
    requires a.List? || a.Recheck? || a.CheckNamespace? || a.Work?
    ensures For(DoRead(w, k, a), k, c)
  {
    hide Evolves, OnlyAt, ClusterVerdict, ShouldImport, Decorate, WithoutFleetAddon;
  }

  lemma AnswerKeepsFor(w: World, k: Key, name: string, c: CapiSpec)
    requires For(w, k, c) && k in w.imports
    ensures For(Do(w, k, Answer(w, k, name)), k, c)
  {
    hide OwnChange, DoOutside, DoRead, DoWriteCapi, DoWriteRancher, NormalWork, OwnedList;
    var a := Answer(w, k, name);
    if a.List? || a.Recheck? || a.CheckNamespace? || a.Work? {
      ReadFor(w, k, a, c);
    } else if a.ReadAgain? || a.AddFinalizer? {
      OutsideFor(w, k, a, c);
    } else {
      WriteLeads(w, k, a);
    }
  }

  /** Nothing but `name`, as new for `c`, was added. */
  ghost predicate AddedOnly(t: RancherTable, u: RancherTable, k: Key, caapf: bool, c: CapiSpec, name: string) {
    forall r | r in u.objs && r !in t.objs :: r == name && AsNew(k, caapf, c, u.objs[r])
  }

  lemma CreatingAdds(w: World, k: Key, name: string)
    requires k in w.imports && w.imports[k].Inside? && w.imports[k].stage.Creating?
    ensures AddedOnly(w.ranchers, Finish(w, k, name).ranchers, k, w.caapf, w.imports[k].base.spec, name)
  {
    hide Evolves, OwnChange, DoOutside, DoRead, DoWriteCapi, DoDeleteDependents, NewRancher, Insert, AsNew, Finish, SendCapiPatch;
    FinishStep(w, k, name);
    InsertedIsNew(w.ranchers, name, w.caapf, k, w.imports[k].base.spec);
    var v := Do(w, k, Answer(w, k, name));
    CapiPatched(v, k, name, v.imports[k].base, v.imports[k].copy);
  }

  lemma OtherAnswersAddNothing(w: World, k: Key, name: string)
    requires k in w.imports && !(w.imports[k].Inside? && w.imports[k].stage.Creating?)
    ensures forall r | r in Do(w, k, Answer(w, k, name)).ranchers.objs :: r in w.ranchers.objs
  {
    hide Do, NormalWork, OwnedList;
    forall r | r in Do(w, k, Answer(w, k, name)).ranchers.objs && r !in w.ranchers.objs
      ensures false
    {
      OnlyCreateAdds(w, k, Answer(w, k, name), r);
    }
  }

  lemma {:induction false} FinishAdds(w: World, k: Key, name: string, c: CapiSpec)
    requires For(w, k, c)
    ensures AddedOnly(w.ranchers, Finish(w, k, name).ranchers, k, w.caapf, c, name)
    decreases RequestsLeft(w.imports, k)
  {
    hide Do, Answer, AsNew;
    if k in w.imports {
      if w.imports[k].Inside? && w.imports[k].stage.Creating? {
        CreatingAdds(w, k, name);
      } else {
        AnswerProgresses(w, k, name);
        AnswerKeepsFor(w, k, name, c);
        OtherAnswersAddNothing(w, k, name);
        FinishAdds(Do(w, k, Answer(w, k, name)), k, name, c);
      }
    }
  }

  /** All an undisturbed reconcile adds is one Rancher cluster, named by the server, as new for the stored CAPI
      cluster. */
  lemma ReconcileAddsNew(w: World, k: Key, name: string)
    requires k !in w.imports
    ensures forall r | r in Reconcile(w, k, name).ranchers.objs && r !in w.ranchers.objs ::
      r == name && k in w.capis.objs && AsNew(k, w.caapf, w.capis.objs[k].spec, Reconcile(w, k, name).ranchers.objs[r])
  {
    hide OwnChange, DoRead, DoWriteCapi, DoWriteRancher, DoAddFinalizer, Finish, AsNew;
    if k in w.capis.objs {
      FinishAdds(Do(w, k, Begin(Lookup(w.capis, k))), k, name, w.capis.objs[k].spec);
    } else {
      assert Finish(w, k, name) == w by { NothingToFinish(w, k, name); }
    }
  }

  lemma NothingToFinish(w: World, k: Key, name: string)
    requires k !in w.imports
    ensures Finish(w, k, name) == w
  {
  }

  /** Where a Rancher cluster is missing and the name is free, one is created exactly when the import is allowed. The
      fleet-addon finalizer then stays on the CAPI cluster until the next reconcile: the uncached read puts it back. */
  lemma ReconcileCreatesExactly(w: World, k: Key, name: string)
    requires Importable(w, k, name)
    ensures name in Reconcile(w, k, name).ranchers.objs <==> Allowed(w, k)
    ensures Allowed(w, k) ==>
      && AsNew(k, w.caapf, w.capis.objs[k].spec, Reconcile(w, k, name).ranchers.objs[name])
      && k in Reconcile(w, k, name).capis.objs
      && CapiReconciled(true, w.capis.objs[k], Reconcile(w, k, name).capis.objs[k])
  {
    hide AsNew, Allowed, Insert, NewRancher, Reconcile, WithFinalizer;
    if Allowed(w, k) {
      FinalizerLands(w, k);
      ReconcileMissing(w, k, name);
      InsertedIsNew(w.ranchers, name, w.caapf, k, w.capis.objs[k].spec);
    } else {
      ReconcileRefused(w, k, name);
    }
  }

  lemma ReconcileRefused(w: World, k: Key, name: string)
    requires Importable(w, k, name) && !Allowed(w, k)
    ensures Reconcile(w, k, name).ranchers == w.ranchers
  {
    hide FreshInv, Finish, WithFinalizer, Registrable, ShouldAutoImport, AfterRecheck, Reconcile, SendCapiPatch;
    FinalizerLands(w, k);
    BeginLists(w, k, name);
    var u := w.(capis := WithFinalizer(w, k));
    var c := u.capis.objs[k];
    var u1 := Goto(u, k, Inside(c, c, Listing));
    MissingRechecks(u1, k, name, c);
    var copy := WithoutFleetAddon(u.caapf, c);
    var l := AfterRecheck(c, copy, Some(c));
    assert Goto(u1, k, l) == Goto(u, k, l);
    RecheckRefuses(u, k, name, c, copy);
  }

  lemma RecheckRefuses(u: World, k: Key, name: string, c: Capi, copy: Capi)
    requires k in u.capis.objs && c == u.capis.objs[k] && !Allowed(u, k)
    ensures Finish(Goto(u, k, AfterRecheck(c, copy, Some(c))), k, name).ranchers == u.ranchers
  {
    hide OwnChange, DoWriteCapi, DoWriteRancher, DoOutside, ShouldImport, SendCapiPatch, Finish;
    var u1 := Goto(u, k, AfterRecheck(c, copy, Some(c)));
    if ClusterVerdict(c.spec.mark, c.spec.imported.Some?).AskNamespace? {
      FinishStep(u1, k, name);
      var u2 := Do(u1, k, Answer(u1, k, name));
      assert u2 == Goto(u, k, Inside(c, c, PatchingCapi));
      CapiPatched(u2, k, name, c, c);
    } else {
      CapiPatched(u1, k, name, c, c);
    }
  }

  // --- What is stored in clusters that are there ---

  /** `now` is `was` with another version. */
  ghost predicate SameBut<S>(was: Object<S>, now: Object<S>) {
    now.deleting == was.deleting && now.finalizers == was.finalizers && now.spec == was.spec
  }

  /** What a reconcile of an imported cluster leaves of the CAPI cluster: the turtles finalizer is there, the
      fleet-addon one only with caapf if it was there, and nothing else differs. */
  ghost predicate CapiReconciled(caapf: bool, was: Capi, now: Capi) {
    && now.deleting == was.deleting && now.spec == was.spec
    && forall f :: f in now.finalizers <==> f == Turtles || (f in was.finalizers && (caapf || f != FleetAddon))
  }

  /** And of the Rancher cluster: the turtles finalizer is added, the no-creator annotation is there, the external-fleet
      one exactly with caapf, the migration is noted when it is done, and nothing else differs. */
  ghost predicate RancherReconciled(caapf: bool, was: Rancher, now: Rancher, migrated: bool) {
    && now.deleting == was.deleting
    && (forall f :: f in now.finalizers <==> f == Turtles || f in was.finalizers)
    && now.spec == was.spec.(noCreator := now.spec.noCreator, external := now.spec.external, migrated := now.spec.migrated)
    && now.spec.noCreator == Some(was.spec.noCreator.GetOr("true"))
    && now.spec.external == (if caapf then Some(was.spec.external.GetOr("true")) else None)
    && now.spec.migrated == (if migrated then Some("cattle-fleet-system") else was.spec.migrated)
  }

  /** What is left over of the registration: an agent that is not ready misses nothing that makes it fail, a ready one
      was migrated when the old namespace is gone and the new one there. */
  ghost predicate MigrationDone(side: Side, k: Key, fleetDisabled: bool, was: RancherSpec) {
    && was.ready && was.migrated != Some("cattle-fleet-system") && !fleetDisabled
    && k in side.remotes && side.remotes[k].fleetAgent.Absent? && side.remotes[k].fleetSystem
  }

  lemma MigratesExactly(side: Side, k: Key, fleetDisabled: bool, name: string, rancher: RancherSpec)
    ensures NormalWork(side, k, fleetDisabled, name, rancher).migrated <==> MigrationDone(side, k, fleetDisabled, rancher)
  {
    hide Check, AddAll, Readable;
  }

  lemma EditedIs(caapf: bool, was: Rancher, migrated: bool, version: nat)
    ensures RancherReconciled(caapf, was, Migrated(Decorate(caapf, was), migrated).(version := version), migrated)
    ensures Decorate(caapf, was).spec.ready == was.spec.ready && Decorate(caapf, was).spec.migrated == was.spec.migrated
  {
  }

  lemma WithoutAddonIs(caapf: bool, was: Capi, version: nat)
    ensures CapiReconciled(caapf, was, WithoutFleetAddon(caapf, was.(version := version, finalizers := was.finalizers + {Turtles})))
  {
  }

  /** An undisturbed reconcile of a cluster that has its Rancher cluster: whatever the work meets, the CAPI cluster is
      as above; the Rancher cluster is too, unless the work fails, when it stays. */
  lemma OwnedBecomes(w: World, k: Key, name: string, r: string)
    requires Still(w, k, name) && r in OwnedNames(w.ranchers, k)
    ensures var v := Reconcile(w, k, name);
      var work := NormalWork(w.side, k, w.capis.objs[k].spec.fleetDisabled, r, Decorate(w.caapf, w.ranchers.objs[r]).spec);
      && k in v.capis.objs && CapiReconciled(w.caapf, w.capis.objs[k], v.capis.objs[k])
      && r in v.ranchers.objs
      && (if work.failed then SameBut(w.ranchers.objs[r], v.ranchers.objs[r])
          else RancherReconciled(w.caapf, w.ranchers.objs[r], v.ranchers.objs[r],
                                 MigrationDone(w.side, k, w.capis.objs[k].spec.fleetDisabled, w.ranchers.objs[r].spec)))
  {
    hide Still, NormalWork, WithFinalizer, Decorate, Migrated, RancherReconciled, CapiReconciled, Reconcile, OwnedResult;
    StillOwned(w, k, name, r);
    OwnedStaysStill(w, k, name, r);
    FinalizerLands(w, k);
    OwnedTables(w, k, r);
    var v := Reconcile(w, k, name);
    var was, c := w.ranchers.objs[r], w.capis.objs[k];
    var work := NormalWork(w.side, k, c.spec.fleetDisabled, r, Decorate(w.caapf, was).spec);
    EditedIs(w.caapf, was, work.migrated, v.ranchers.objs[r].version);
    MigratesExactly(w.side, k, c.spec.fleetDisabled, r, Decorate(w.caapf, was).spec);
    WithoutAddonIs(w.caapf, c, v.capis.objs[k].version);
  }

  /** `now` is what is left of `was` without the turtles finalizer, and with the annotation if `marked`; an object under
      deletion goes with its last finalizer. */
  ghost predicate Released(was: Capi, now: Option<Capi>, marked: bool) {
    if now.None? then was.deleting && was.finalizers <= {Turtles}
    else
      && now.value.deleting == was.deleting
      && (forall f :: f in now.value.finalizers <==> f in was.finalizers && f != Turtles)
      && now.value.spec == (if marked then was.spec.(imported := Some("true")) else was.spec)
  }

  lemma MarkReleases(t: CapiTable, k: Key, base: Capi)
    requires Genuine(t, k, base)
    ensures var u := SendCapiPatch(t, k, base, MarkImported(base)).0;
      u == t || (k in t.objs && Released(t.objs[k], Lookup(u, k), true))
  {
    hide Evolves, OnlyAt;
  }

  lemma DropReleases(t: CapiTable, k: Key, base: Capi)
    requires Genuine(t, k, base)
    ensures var u := SendWithout(t, k, base);
      u == t || (k in t.objs && Released(t.objs[k], Lookup(u, k), false))
  {
    hide Evolves, OnlyAt;
  }

  /** The writes that let a CAPI cluster go store exactly this, or nothing. */
  lemma ReleasesExactly(w: World, k: Key, a: Action)
    requires MemoryInv(w) && Enabled(w.imports, k, a) && (a.Annotate? || a.DropFinalizer?)
    ensures var t := Do(w, k, a).capis;
      t == w.capis || (k in w.capis.objs && Released(w.capis.objs[k], Lookup(t, k), a.Annotate?))
  {
    hide Evolves, OnlyAt, OwnChange, Sound, Genuine, DoOutside, DoRead, DoWriteRancher, SendCapiPatch, SendWithout, MarkImported, Released;
    assert LocalGenuine(w, k, w.imports[k]);
    MarkReleases(w.capis, k, w.imports[k].base);
    DropReleases(w.capis, k, w.imports[k].base);
  }

  /** The same of a Rancher cluster. */
  ghost predicate RancherReleased(was: Rancher, now: Option<Rancher>) {
    if now.None? then was.deleting && was.finalizers <= {Turtles}
    else
      && now.value.deleting == was.deleting && now.value.spec == was.spec
      && (forall f :: f in now.value.finalizers <==> f in was.finalizers && f != Turtles)
  }

  lemma RancherReleasesExactly(w: World, k: Key, a: Action)
    requires MemoryInv(w) && Enabled(w.imports, k, a) && a.ReleaseRancher?
    ensures var t := Do(w, k, a).ranchers; var r := w.imports[k].stage.name;
      OnlyAt(w.ranchers, t, r) && (t == w.ranchers || (r in w.ranchers.objs && RancherReleased(w.ranchers.objs[r], Lookup(t, r))))
  {
    hide Evolves, OwnChange, Sound, DoOutside, DoRead, DoWriteCapi;
    assert LocalGenuine(w, k, w.imports[k]);
  }

  lemma CleanupPatchReleases(t: RancherTable, r: string)
    requires r in t.objs && Turtles in t.objs[r].finalizers
    ensures var u := SendRancherPatch(t, r, t.objs[r], WithoutTurtles(t.objs[r])).0;
      OnlyAt(t, u, r) && RancherReleased(t.objs[r], Lookup(u, r))
  {
    hide Evolves;
  }

  /** The cleanup reconcile of `r`: it acts on a Rancher cluster with owner labels that is being deleted with the turtles
      finalizer, and lets it go; any other it leaves alone. */
  lemma CleanupExactly(w: World, r: string)
    requires r !in w.cleanups
    ensures var v := DoCleanupPatch(DoCleanupRead(w, r, Lookup(w.ranchers, r)), r, Delivered);
      && v == w.(ranchers := v.ranchers) && OnlyAt(w.ranchers, v.ranchers, r)
      && (if r in w.ranchers.objs && w.ranchers.objs[r].spec.owner.Some? && w.ranchers.objs[r].deleting
             && Turtles in w.ranchers.objs[r].finalizers
          then RancherReleased(w.ranchers.objs[r], Lookup(v.ranchers, r))
          else v.ranchers == w.ranchers)
  {
    hide Evolves, OnlyAt, RancherReleased, SendRancherPatch, WithoutTurtles;
    if r in w.ranchers.objs && Turtles in w.ranchers.objs[r].finalizers {
      CleanupPatchReleases(w.ranchers, r);
      assert w.cleanups[r := w.ranchers.objs[r]] - {r} == w.cleanups;
    }
    UnchangedAt(w.ranchers, r);
  }

  lemma UnchangedAt(t: RancherTable, r: string)
    ensures OnlyAt(t, t, r)
  {
  }

  // --- An undisturbed reconcile of a cluster that is on its way out ---

  lemma BeginsListing(w: World, k: Key, name: string)
    requires k !in w.imports && k in w.capis.objs && GoesInside(w.capis.objs[k])
    ensures Reconcile(w, k, name) == Finish(Goto(w, k, Inside(w.capis.objs[k], w.capis.objs[k], Listing)), k, name)
  {
    hide Do, Finish;
    BeginExactly(w, k, Lookup(w.capis, k));
  }

  lemma ListsOn(w: World, k: Key, name: string, c: Capi)
    ensures Finish(Goto(w, k, Inside(c, c, Listing)), k, name) ==
            Finish(Goto(w, k, AfterList(w.caapf, c, Some(OwnedList(w.ranchers, k)))), k, name)
  {
    hide OwnChange, DoOutside, DoWriteCapi, DoWriteRancher, AfterList, Finish, OwnedList;
    var u := Goto(w, k, Inside(c, c, Listing));
    FinishStep(u, k, name);
    var l := AfterList(w.caapf, c, Some(OwnedList(w.ranchers, k)));
    assert Goto(u, k, l) == Goto(w, k, l);
  }

  /** The annotating patch is applied, and the same patch sent again changes nothing. */
  lemma MarkedOnce(t: CapiTable, k: Key)
    requires Sound(t) && k in t.objs && t.objs[k].spec.imported.None?
    ensures var c := t.objs[k]; var (u, outcome) := SendCapiPatch(t, k, c, MarkImported(c));
      && outcome.Applied? && Released(c, Lookup(u, k), true) && SendCapiPatch(u, k, c, MarkImported(c)).0 == u
  {
    hide Evolves, OnlyAt;
  }

  lemma AnnotateSent(w: World, k: Key, name: string, c: Capi, r: string, rc: Rancher)
    requires SendCapiPatch(w.capis, k, c, MarkImported(c)).1.Applied?
    ensures var t := SendCapiPatch(w.capis, k, c, MarkImported(c)).0;
      Finish(Goto(w, k, Inside(c, c, Annotating(r, rc))), k, name) ==
      Finish(Goto(w.(capis := t), k, Inside(c, MarkImported(c), Releasing(r, rc))), k, name)
  {
    hide OwnChange, DoOutside, DoRead, DoWriteRancher, Finish, SendCapiPatch, MarkImported;
    var l0, l1 := Inside(c, c, Annotating(r, rc)), Inside(c, MarkImported(c), Releasing(r, rc));
    FinishStep(Goto(w, k, l0), k, name);
    GotoAfter(w, k, l0, l1, SendCapiPatch(w.capis, k, c, MarkImported(c)).0, w.ranchers);
  }

  lemma ReleaseSent(w: World, k: Key, name: string, c: Capi, copy: Capi, r: string, rc: Rancher)
    ensures var u := SendWithout(w.ranchers, r, rc);
      Finish(Goto(w, k, Inside(c, copy, Releasing(r, rc))), k, name) ==
      Finish(Goto(w.(ranchers := u), k, Inside(c, copy, PatchingCapi)), k, name)
  {
    hide OwnChange, DoOutside, DoRead, DoWriteCapi, Finish, SendWithout, DoDeleteDependents;
    var l1, l2 := Inside(c, copy, Releasing(r, rc)), Inside(c, copy, PatchingCapi);
    FinishStep(Goto(w, k, l1), k, name);
    GotoAfter(w, k, l1, l2, w.capis, SendWithout(w.ranchers, r, rc));
  }

  lemma AnnotatesOn(w: World, k: Key, name: string, r: string, rc: Rancher)
    requires k in w.capis.objs && Sound(w.capis) && w.capis.objs[k].spec.imported.None? && k !in w.imports
    ensures var c := w.capis.objs[k];
      Finish(Goto(w, k, Inside(c, c, Annotating(r, rc))), k, name) ==
      w.(capis := SendCapiPatch(w.capis, k, c, MarkImported(c)).0, ranchers := SendWithout(w.ranchers, r, rc))
  {
    hide Evolves, OnlyAt, Sound, Finish, SendCapiPatch, SendWithout, MarkImported, Released;
    var c := w.capis.objs[k];
    MarkedOnce(w.capis, k);
    var t := SendCapiPatch(w.capis, k, c, MarkImported(c)).0;
    AnnotateSent(w, k, name, c, r, rc);
    ReleaseSent(w.(capis := t), k, name, c, MarkImported(c), r, rc);
    var last := Inside(c, MarkImported(c), PatchingCapi);
    CapiPatched(Goto(w.(capis := t, ranchers := SendWithout(w.ranchers, r, rc)), k, last), k, name, c, MarkImported(c));
    assert w.imports[k := last] - {k} == w.imports;
  }

  lemma GotoAfter(w: World, k: Key, l: Local, m: Local, t: CapiTable, u: RancherTable)
    ensures Goto(Goto(w, k, l).(capis := t, ranchers := u), k, m) == Goto(w.(capis := t, ranchers := u), k, m)
    ensures Goto(w, k, l).imports[k] == l
  {
    assert w.imports[k := l][k := m] == w.imports[k := m];
  }

  /** The finalizer is dropped, and the patch that follows changes nothing more. */
  lemma DroppedOnce(t: CapiTable, k: Key)
    requires Sound(t) && k in t.objs
    ensures var c := t.objs[k]; Released(c, Lookup(SendCapiPatch(SendWithout(t, k, c), k, c, WithoutTurtles(c)).0, k), false)
  {
    hide Evolves, OnlyAt;
  }

  lemma DeleteSent(w: World, k: Key, name: string, c: Capi)
    ensures var u := w.(ranchers := DeleteMany(w.ranchers, OwnedNames(w.ranchers, k)));
      Finish(Goto(w, k, Inside(c, c, DeletingDependents)), k, name) == Finish(Goto(u, k, Inside(c, c, DroppingFinalizer)), k, name)
  {
    hide OwnChange, DoOutside, DoRead, DoWriteCapi, Finish, DeleteMany;
    var l0, l1 := Inside(c, c, DeletingDependents), Inside(c, c, DroppingFinalizer);
    FinishStep(Goto(w, k, l0), k, name);
    GotoAfter(w, k, l0, l1, w.capis, DeleteMany(w.ranchers, OwnedNames(w.ranchers, k)));
  }

  lemma DropSent(w: World, k: Key, name: string, c: Capi)
    ensures var t := SendWithout(w.capis, k, c);
      Finish(Goto(w, k, Inside(c, c, DroppingFinalizer)), k, name) ==
      Finish(Goto(w.(capis := t), k, Inside(c, WithoutTurtles(c), PatchingCapi)), k, name)
  {
    hide OwnChange, DoOutside, DoRead, DoWriteRancher, Finish, SendWithout, WithoutTurtles, DoAnnotate;
    var l1, l2 := Inside(c, c, DroppingFinalizer), Inside(c, WithoutTurtles(c), PatchingCapi);
    FinishStep(Goto(w, k, l1), k, name);
    GotoAfter(w, k, l1, l2, SendWithout(w.capis, k, c), w.ranchers);
  }

  lemma DeletesOn(w: World, k: Key, name: string)
    requires k in w.capis.objs && k !in w.imports
    ensures var c := w.capis.objs[k];
      Finish(Goto(w, k, Inside(c, c, DeletingDependents)), k, name) ==
      w.(capis := SendCapiPatch(SendWithout(w.capis, k, c), k, c, WithoutTurtles(c)).0,
         ranchers := DeleteMany(w.ranchers, OwnedNames(w.ranchers, k)))
  {
    hide Evolves, OnlyAt, Finish, SendCapiPatch, SendWithout, DeleteMany, WithoutTurtles;
    var c := w.capis.objs[k];
    var u := w.(ranchers := DeleteMany(w.ranchers, OwnedNames(w.ranchers, k)));
    DeleteSent(w, k, name, c);
    DropSent(u, k, name, c);
    var last := Inside(c, WithoutTurtles(c), PatchingCapi);
    CapiPatched(Goto(u.(capis := SendWithout(w.capis, k, c)), k, last), k, name, c, WithoutTurtles(c));
    assert w.imports[k := last] - {k} == w.imports;
  }

  lemma SendWithoutReleases(t: RancherTable, r: string)
    requires r in t.objs
    ensures var u := SendWithout(t, r, t.objs[r]);
      OnlyAt(t, u, r) && if Turtles in t.objs[r].finalizers then RancherReleased(t.objs[r], Lookup(u, r)) else u == t
  {
    hide Evolves;
  }

  /** An undisturbed reconcile when the Rancher cluster is being deleted: the CAPI cluster gets the annotation and loses
      the turtles finalizer, the Rancher cluster loses it, and nothing else changes, whether the CAPI cluster is being
      deleted or not. */
  lemma UnimportsExactly(w: World, k: Key, name: string, r: string)
    requires FreshInv(w) && k !in w.imports && k in w.capis.objs && GoesInside(w.capis.objs[k])
    requires r in OwnedNames(w.ranchers, k) && w.ranchers.objs[r].deleting
    ensures var v := Reconcile(w, k, name); var rc := w.ranchers.objs[r];
      && v == w.(capis := v.capis, ranchers := v.ranchers)
      && OnlyAt(w.capis, v.capis, k) && Released(w.capis.objs[k], Lookup(v.capis, k), true)
      && OnlyAt(w.ranchers, v.ranchers, r)
      && (if Turtles in rc.finalizers then RancherReleased(rc, Lookup(v.ranchers, r)) else v.ranchers == w.ranchers)
  {
    hide Reconcile, Finish, SendCapiPatch, SendWithout, MarkImported, Released, RancherReleased, NoOrphan, StagesOk, Evolves, OnlyAt, Goto;
    assert Unique(w.ranchers) && Sound(w.capis);
    OwnedAlone(w, k, r);
    BeginsListing(w, k, name);
    ListsOn(w, k, name, w.capis.objs[k]);
    assert OwnedList(w.ranchers, k) == [Found(r, w.ranchers.objs[r])];
    AnnotatesOn(w, k, name, r, w.ranchers.objs[r]);
    MarkedOnce(w.capis, k);
    SendWithoutReleases(w.ranchers, r);
  }

  /** When the CAPI cluster is being deleted and none of its Rancher clusters is, all of them are deleted, with what they
      hold, and the CAPI cluster loses the turtles finalizer; nothing else changes. */
  lemma DeletesExactly(w: World, k: Key, name: string)
    requires FreshInv(w) && k !in w.imports && k in w.capis.objs && GoesInside(w.capis.objs[k]) && w.capis.objs[k].deleting
    requires forall r | r in OwnedNames(w.ranchers, k) :: !w.ranchers.objs[r].deleting
    ensures var v := Reconcile(w, k, name);
      && v == w.(capis := v.capis, ranchers := v.ranchers)
      && OnlyAt(w.capis, v.capis, k) && Released(w.capis.objs[k], Lookup(v.capis, k), false)
      && (forall r | r in w.ranchers.objs && w.ranchers.objs[r].spec.owner != Some(k) :: r in v.ranchers.objs && v.ranchers.objs[r] == w.ranchers.objs[r])
      && (forall r | r in v.ranchers.objs :: r in w.ranchers.objs)
      && (forall r | r in w.ranchers.objs && w.ranchers.objs[r].spec.owner == Some(k) ::
            if w.ranchers.objs[r].finalizers == {} then r !in v.ranchers.objs
            else r in v.ranchers.objs && v.ranchers.objs[r] == w.ranchers.objs[r].(deleting := true, version := v.ranchers.objs[r].version))
  {
    hide Reconcile, Finish, SendWithout, SendCapiPatch, DeleteMany, Released, NoOrphan, StagesOk, Unique, Evolves, Goto;
    BeginsListing(w, k, name);
    ListsOn(w, k, name, w.capis.objs[k]);
    var items := OwnedList(w.ranchers, k);
    assert items != [] ==> items[0].name in OwnedNames(w.ranchers, k) && items[0].obj == w.ranchers.objs[items[0].name];
    DeletesOn(w, k, name);
    DroppedOnce(w.capis, k);
    var t := DeleteMany(w.ranchers, OwnedNames(w.ranchers, k));
    assert forall r | r in w.ranchers.objs :: r in t.objs || r in OwnedNames(w.ranchers, k);
  }

  // --- The downstream clusters ---

  /** Objects change in the downstream cluster of `k` only, and not while a cleanup job runs there; jobs stay. */
  ghost predicate ObjectsGuarded(side: Side, after: Side, k: Key) {
    && side.remotes.Keys == after.remotes.Keys
    && forall j | j in side.remotes ::
         && after.remotes[j].cleanupJob == side.remotes[j].cleanupJob
         && (after.remotes[j].objects != side.remotes[j].objects ==> j == k && !side.remotes[j].cleanupJob)
  }

  lemma GuardedThen(a: Side, b: Side, c: Side, k: Key)
    requires ObjectsGuarded(a, b, k) && ObjectsGuarded(b, c, k)
    ensures ObjectsGuarded(a, c, k)
  {
  }

  lemma WorkGuards(side: Side, k: Key, fleetDisabled: bool, name: string, rancher: RancherSpec)
    ensures ObjectsGuarded(side, NormalWork(side, k, fleetDisabled, name, rancher).side, k)
  {
    hide AddAll, DocsReady, Readable;
  }

  lemma AnswerGuards(w: World, k: Key, name: string)
    requires k in w.imports
    ensures ObjectsGuarded(w.side, Do(w, k, Answer(w, k, name)).side, k)
  {
    hide OwnChange, NormalWork, OwnedList, DoOutside, DoWriteCapi, DoWriteRancher, ObjectsGuarded;
    var a := Answer(w, k, name);
    RequestsWrite(w, k, a);
    if a.Work? {
      var l := w.imports[k];
      WorkGuards(w.side, k, l.copy.spec.fleetDisabled, l.stage.name, l.stage.edited.spec);
    } else {
      UnchangedGuarded(w.side, k);
    }
  }

  lemma UnchangedGuarded(side: Side, k: Key)
    ensures ObjectsGuarded(side, side, k)
  {
  }

  lemma {:induction false} FinishGuards(w: World, k: Key, name: string)
    ensures ObjectsGuarded(w.side, Finish(w, k, name).side, k)
    decreases RequestsLeft(w.imports, k)
  {
    hide Do, Answer, ObjectsGuarded;
    UnchangedGuarded(w.side, k);
    if k in w.imports {
      AnswerProgresses(w, k, name);
      AnswerGuards(w, k, name);
      var v := Do(w, k, Answer(w, k, name));
      FinishGuards(v, k, name);
      GuardedThen(w.side, v.side, Finish(v, k, name).side, k);
    }
  }

  /** An undisturbed reconcile writes no object into a downstream cluster with a running cleanup job, nor into that of
      another key. */
  lemma ReconcileGuards(w: World, k: Key, name: string)
    ensures ObjectsGuarded(w.side, Reconcile(w, k, name).side, k)
  {
    hide Do, Finish, ObjectsGuarded;
    RequestsWrite(w, k, Begin(Lookup(w.capis, k)));
    FinishGuards(Do(w, k, Begin(Lookup(w.capis, k))), k, name);
  }
}
