/** With the environment's answers fixed, repeated import reconciles reach a state in which nothing is
    written. */
module ImportConvergence {
  import opened Wrappers
  import opened Network
  import opened Tables
  import opened Downstream
  import opened ImportDecision
  import opened ImportManifest
  import opened ImportProtocol
  import opened ImportSafety
  import opened ImportQuiet

  /** The manifest URL is published and its manifest can be applied. */
  ghost predicate Registrable(side: Side, k: Key, r: string) {
    && k in side.remotes && r in side.urls && side.urls[r] != "" && side.urls[r] in side.downloads
    && side.downloads[side.urls[r]] != []
    && Check(side.remotes[k], side.downloads[side.urls[r]]).Ready?
    && side.remotes[k].fleetSystem
  }

  predicate Allowed(w: World, k: Key)
    requires k in w.capis.objs
  {
    ShouldAutoImport(w.capis.objs[k].spec.mark, w.capis.objs[k].spec.imported.Some?,
                     if k.ns in w.namespaces then Some(w.namespaces[k.ns]) else None) == Some(true)
  }

  /** The control plane is available, the import is allowed and nothing is being deleted; `name` is free for a new
      Rancher cluster. */
  ghost predicate Still(w: World, k: Key, name: string) {
    && FreshInv(w) && k !in w.imports
    && k in w.capis.objs && !w.capis.objs[k].deleting && w.capis.objs[k].spec.imported.None?
    && w.capis.objs[k].spec.controlPlane && Allowed(w, k)
    && (forall r | r in OwnedNames(w.ranchers, k) :: !w.ranchers.objs[r].deleting)
    && (OwnedNames(w.ranchers, k) == {} ==> name !in w.ranchers.objs)
  }

  /** Also, the environment answers for the Rancher cluster there is, or for the one that `name` will be. */
  ghost predicate Calm(w: World, k: Key, name: string) {
    && Still(w, k, name)
    && (forall r | r in OwnedNames(w.ranchers, k) :: Registrable(w.side, k, r))
    && (OwnedNames(w.ranchers, k) == {} ==> Registrable(w.side, k, name))
  }

  // --- The rank ---

  function Count(b: bool): nat {
    if b then 1 else 0
  }

  function MissingObjects(objects: Objects, docs: seq<Document>): set<ObjectId> {
    set o | o in Readable(docs) && o.id !in objects :: o.id
  }

  /** The objects missing of a manifest that is served for a cluster that is reached. */
  ghost function ManifestLeft(side: Side, k: Key, r: string): nat {
    if k in side.remotes && r in side.urls && side.urls[r] in side.downloads
    then |MissingObjects(side.remotes[k].objects, side.downloads[side.urls[r]])| else 0
  }

  /** What is left of reconcileNormal's work for the Rancher cluster `r`. A terminating namespace is left to the
      downstream cluster. */
  ghost function WorkLeft(side: Side, k: Key, fleetDisabled: bool, r: string, rancher: RancherSpec): nat {
    if !rancher.ready then Count(r !in side.tokens) + ManifestLeft(side, k, r)
    else if rancher.migrated == Some(CATTLE_FLEET_SYSTEM) || fleetDisabled then 0
    else Count(k in side.remotes && !side.remotes[k].fleetAgent.Terminating?)
  }

  ghost function OwnedRank(w: World, k: Key, r: string): nat
    requires k in w.capis.objs && r in w.ranchers.objs
  {
    Count(Turtles !in w.capis.objs[k].finalizers)
    + Count(!w.caapf && FleetAddon in w.capis.objs[k].finalizers)
    + Count(Decorate(w.caapf, w.ranchers.objs[r]) != w.ranchers.objs[r])
    + WorkLeft(w.side, k, w.capis.objs[k].spec.fleetDisabled, r, w.ranchers.objs[r].spec)
  }

  /** Whether the Rancher cluster is missing, then what is left once it is there. */
  ghost function Rank(w: World, k: Key, name: string): (nat, nat)
    requires Still(w, k, name)
  {
    if OwnedNames(w.ranchers, k) == {} then (1, 0) else (0, OwnedRank(w, k, OwnedList(w.ranchers, k)[0].name))
  }

  predicate Below(a: (nat, nat), b: (nat, nat)) {
    a.0 < b.0 || (a.0 == b.0 && a.1 < b.1)
  }

  // --- Writes against the version just read ---

  lemma RancherPatchLands(t: RancherTable, r: string, edited: Rancher)
    requires r in t.objs && !t.objs[r].deleting && edited.deleting == t.objs[r].deleting && edited.version == t.objs[r].version
    ensures var u := SendRancherPatch(t, r, t.objs[r], edited).0;
            r in u.objs && u.objs[r].(version := edited.version) == edited && (u == t <==> edited == t.objs[r])
  {
    hide Evolves;
  }

  lemma CapiPatchLands(t: CapiTable, k: Key, copy: Capi)
    requires k in t.objs && !t.objs[k].deleting && copy.deleting == t.objs[k].deleting && copy.version == t.objs[k].version
    ensures var u := SendCapiPatch(t, k, t.objs[k], copy).0;
            k in u.objs && u.objs[k].(version := copy.version) == copy && (u == t <==> copy == t.objs[k])
  {
    hide Evolves;
  }

  // --- The requests of one reconcile ---

  /** The table after the finalizer was ensured. */
  ghost function WithFinalizer(w: World, k: Key): CapiTable
    requires k in w.capis.objs
  {
    if Turtles in w.capis.objs[k].finalizers then w.capis else SendFinalizer(w.capis, k, w.capis.objs[k]).0
  }

  lemma FinalizerLands(w: World, k: Key)
    requires k in w.capis.objs && !w.capis.objs[k].deleting
    ensures var t := WithFinalizer(w, k); var c := w.capis.objs[k];
            && k in t.objs
            && t.objs[k] == c.(version := t.objs[k].version, finalizers := c.finalizers + {Turtles})
            && (t == w.capis <==> Turtles in c.finalizers)
  {
    hide Evolves;
  }

  lemma AddFinalizerLands(w: World, k: Key, c: Capi)
    requires k in w.imports && w.imports[k] == AddingFinalizer(c)
    requires k in w.capis.objs && c == w.capis.objs[k] && !c.deleting && c.spec.imported.None? && c.spec.controlPlane && Turtles !in c.finalizers
    ensures var t := SendFinalizer(w.capis, k, c).0;
            k in t.objs && Do(w, k, AddFinalizer(Delivered, false)) == Goto(w.(capis := t), k, Inside(t.objs[k], t.objs[k], Listing))
  {
    hide Evolves;
  }

  lemma BeginGuarded(w: World, k: Key)
    requires k !in w.imports && k in w.capis.objs
    requires var c := w.capis.objs[k]; !c.deleting && c.spec.imported.None? && c.spec.controlPlane
    ensures var c := w.capis.objs[k];
            Do(w, k, Begin(Lookup(w.capis, k))) == Goto(w, k, if Turtles in c.finalizers then Inside(c, c, Listing) else ReadingAgain)
  {
    hide OwnChange, DoRead, DoWriteCapi, DoWriteRancher, DoAddFinalizer;
  }

  lemma ReadsAgain(w: World, k: Key)
    requires k in w.imports && w.imports[k].ReadingAgain? && k in w.capis.objs
    ensures Do(w, k, ReadAgain(Lookup(w.capis, k))) == Goto(w, k, AddingFinalizer(w.capis.objs[k]))
  {
    hide OwnChange, DoRead, DoWriteCapi, DoWriteRancher, DoAddFinalizer;
  }

  lemma FinishStep(w: World, k: Key, name: string)
    requires k in w.imports
    ensures Finish(w, k, name) == Finish(Do(w, k, Answer(w, k, name)), k, name)
  {
    hide Do, Answer;
  }

  lemma FinalizerAdded(w: World, k: Key, name: string)
    requires k in w.imports && w.imports[k].ReadingAgain? && k in w.capis.objs
    requires var c := w.capis.objs[k]; !c.deleting && c.spec.imported.None? && c.spec.controlPlane && Turtles !in c.finalizers
    ensures var t := SendFinalizer(w.capis, k, w.capis.objs[k]).0;
            k in t.objs && Finish(w, k, name) == Finish(Goto(w.(capis := t), k, Inside(t.objs[k], t.objs[k], Listing)), k, name)
  {
    hide Do, SendFinalizer, Finish;
    FinishStep(w, k, name);
    ReadsAgain(w, k);
    var w2 := Goto(w, k, AddingFinalizer(w.capis.objs[k]));
    FinishStep(w2, k, name);
    AddFinalizerLands(w2, k, w.capis.objs[k]);
    var t := SendFinalizer(w.capis, k, w.capis.objs[k]).0;
    var l := Inside(t.objs[k], t.objs[k], Listing);
    assert Goto(w2.(capis := t), k, l) == Goto(w.(capis := t), k, l);
  }

  lemma BeginLists(w: World, k: Key, name: string)
    requires k !in w.imports && k in w.capis.objs
    requires var c := w.capis.objs[k]; !c.deleting && c.spec.imported.None? && c.spec.controlPlane
    ensures var t := WithFinalizer(w, k);
            k in t.objs && Reconcile(w, k, name) == Finish(Goto(w.(capis := t), k, Inside(t.objs[k], t.objs[k], Listing)), k, name)
  {
    hide Do, SendFinalizer, Finish, Evolves, OnlyAt;
    BeginGuarded(w, k);
    if Turtles !in w.capis.objs[k].finalizers {
      var w1 := Goto(w, k, ReadingAgain);
      FinalizerAdded(w1, k, name);
      var t := WithFinalizer(w, k);
      var l := Inside(t.objs[k], t.objs[k], Listing);
      assert Goto(w1.(capis := t), k, l) == Goto(w.(capis := t), k, l);
    }
  }

  lemma ListFindsOwned(u: World, k: Key, name: string, c: Capi, r: string)
    requires k in u.imports && u.imports[k] == Inside(c, c, Listing) && !c.deleting
    requires OwnedNames(u.ranchers, k) != {} && OwnedList(u.ranchers, k)[0].name == r && !u.ranchers.objs[r].deleting
    ensures Finish(u, k, name) ==
            Finish(Goto(u, k, Inside(c, WithoutFleetAddon(u.caapf, c),
                                     Working(r, u.ranchers.objs[r], Decorate(u.caapf, u.ranchers.objs[r])))), k, name)
  {
    hide OwnChange, DoWriteCapi, DoWriteRancher, DoOutside, Decorate;
    var v := Do(u, k, Answer(u, k, name));
    assert Finish(u, k, name) == Finish(v, k, name);
  }

  /** What reconcileNormal leaves in memory for the deferred patch. */
  lemma WorkDone(u: World, k: Key, name: string, base: Capi, copy: Capi, r: string, rc: Rancher, edited: Rancher)
    requires k in u.imports && u.imports[k] == Inside(base, copy, Working(r, rc, edited))
    requires !NormalWork(u.side, k, copy.spec.fleetDisabled, r, edited.spec).failed
    ensures var work := NormalWork(u.side, k, copy.spec.fleetDisabled, r, edited.spec);
            Finish(u, k, name) ==
            Finish(Goto(u.(side := work.side), k, Inside(base, copy, PatchingRancher(r, rc, Migrated(edited, work.migrated)))), k, name)
  {
    hide OwnChange, DoWriteCapi, DoWriteRancher, DoOutside, NormalWork;
    var v := Do(u, k, Answer(u, k, name));
    assert Finish(u, k, name) == Finish(v, k, name);
  }

  lemma WorkFailed(u: World, k: Key, name: string, base: Capi, copy: Capi, r: string, rc: Rancher, edited: Rancher)
    requires k in u.imports && u.imports[k] == Inside(base, copy, Working(r, rc, edited))
    requires NormalWork(u.side, k, copy.spec.fleetDisabled, r, edited.spec).failed
    ensures var work := NormalWork(u.side, k, copy.spec.fleetDisabled, r, edited.spec);
            Finish(u, k, name) == Finish(Goto(u.(side := work.side), k, Inside(base, copy, PatchingCapi)), k, name)
  {
    hide OwnChange, DoWriteCapi, DoWriteRancher, DoOutside, NormalWork;
    var v := Do(u, k, Answer(u, k, name));
    assert Finish(u, k, name) == Finish(v, k, name);
  }

  lemma RancherPatched(u: World, k: Key, name: string, base: Capi, copy: Capi, r: string, rc: Rancher, edited: Rancher)
    requires k in u.imports && u.imports[k] == Inside(base, copy, PatchingRancher(r, rc, edited))
    ensures Finish(u, k, name) ==
            Finish(Goto(u.(ranchers := SendRancherPatch(u.ranchers, r, rc, edited).0), k, Inside(base, copy, PatchingCapi)), k, name)
  {
    hide OwnChange, DoWriteCapi, DoRead, DoOutside, SendRancherPatch;
    var v := Do(u, k, Answer(u, k, name));
    assert Finish(u, k, name) == Finish(v, k, name);
  }

  lemma CapiPatched(u: World, k: Key, name: string, base: Capi, copy: Capi)
    requires k in u.imports && u.imports[k] == Inside(base, copy, PatchingCapi)
    ensures Finish(u, k, name) == End(u.(capis := SendCapiPatch(u.capis, k, base, copy).0), k)
  {
    hide OwnChange, DoWriteRancher, DoRead, DoOutside, SendCapiPatch;
    var v := Do(u, k, Answer(u, k, name));
    assert Finish(u, k, name) == Finish(v, k, name);
  }

  /** The whole reconcile of a cluster that has its Rancher cluster; work that fails leaves out its patch. */
  ghost function OwnedResult(w: World, k: Key, r: string): World
    requires k in w.capis.objs && r in w.ranchers.objs && k in WithFinalizer(w, k).objs
  {
    var t := WithFinalizer(w, k);
    var rc := w.ranchers.objs[r];
    var edited := Decorate(w.caapf, rc);
    var work := NormalWork(w.side, k, w.capis.objs[k].spec.fleetDisabled, r, edited.spec);
    w.(capis := SendCapiPatch(t, k, t.objs[k], WithoutFleetAddon(w.caapf, t.objs[k])).0,
       ranchers := if work.failed then w.ranchers else SendRancherPatch(w.ranchers, r, rc, Migrated(edited, work.migrated)).0,
       side := work.side)
  }

  lemma GotoTwice(u: World, k: Key, l: Local, m: Local, t: RancherTable, side: Side)
    ensures Goto(Goto(u, k, l).(ranchers := t, side := side), k, m) == Goto(u.(ranchers := t, side := side), k, m)
    ensures k in Goto(u, k, l).imports && Goto(u, k, l).imports[k] == l
  {
    assert u.imports[k := l][k := m] == u.imports[k := m];
  }

  lemma FromWorking(u: World, k: Key, name: string, c: Capi, copy: Capi, r: string, rc: Rancher, edited: Rancher)
    requires k !in u.imports && !NormalWork(u.side, k, copy.spec.fleetDisabled, r, edited.spec).failed
    ensures var work := NormalWork(u.side, k, copy.spec.fleetDisabled, r, edited.spec);
            Finish(Goto(u, k, Inside(c, copy, Working(r, rc, edited))), k, name) ==
            u.(capis := SendCapiPatch(u.capis, k, c, copy).0,
               ranchers := SendRancherPatch(u.ranchers, r, rc, Migrated(edited, work.migrated)).0,
               side := work.side)
  {
    hide SendCapiPatch, SendRancherPatch, NormalWork, Finish, Do, Migrated, Evolves, OnlyAt;
    var work := NormalWork(u.side, k, copy.spec.fleetDisabled, r, edited.spec);
    var edited' := Migrated(edited, work.migrated);
    WorkDone(Goto(u, k, Inside(c, copy, Working(r, rc, edited))), k, name, c, copy, r, rc, edited);
    GotoTwice(u, k, Inside(c, copy, Working(r, rc, edited)), Inside(c, copy, PatchingRancher(r, rc, edited')), u.ranchers, work.side);
    var v := u.(side := work.side);
    RancherPatched(Goto(v, k, Inside(c, copy, PatchingRancher(r, rc, edited'))), k, name, c, copy, r, rc, edited');
    var ranchers := SendRancherPatch(u.ranchers, r, rc, edited').0;
    GotoTwice(v, k, Inside(c, copy, PatchingRancher(r, rc, edited')), Inside(c, copy, PatchingCapi), ranchers, v.side);
    var x := v.(ranchers := ranchers);
    CapiPatched(Goto(x, k, Inside(c, copy, PatchingCapi)), k, name, c, copy);
    assert u.imports[k := Inside(c, copy, PatchingCapi)] - {k} == u.imports;
  }

  lemma FromFailing(u: World, k: Key, name: string, c: Capi, copy: Capi, r: string, rc: Rancher, edited: Rancher)
    requires k !in u.imports && NormalWork(u.side, k, copy.spec.fleetDisabled, r, edited.spec).failed
    ensures var work := NormalWork(u.side, k, copy.spec.fleetDisabled, r, edited.spec);
            Finish(Goto(u, k, Inside(c, copy, Working(r, rc, edited))), k, name) ==
            u.(capis := SendCapiPatch(u.capis, k, c, copy).0, side := work.side)
  {
    hide SendCapiPatch, NormalWork, Finish, Do, Evolves, OnlyAt;
    var work := NormalWork(u.side, k, copy.spec.fleetDisabled, r, edited.spec);
    WorkFailed(Goto(u, k, Inside(c, copy, Working(r, rc, edited))), k, name, c, copy, r, rc, edited);
    GotoTwice(u, k, Inside(c, copy, Working(r, rc, edited)), Inside(c, copy, PatchingCapi), u.ranchers, work.side);
    var v := u.(side := work.side);
    CapiPatched(Goto(v, k, Inside(c, copy, PatchingCapi)), k, name, c, copy);
    assert u.imports[k := Inside(c, copy, PatchingCapi)] - {k} == u.imports;
  }

  lemma ReconcileOwned(w: World, k: Key, name: string, r: string)
    requires Still(w, k, name) && OwnedNames(w.ranchers, k) != {} && OwnedList(w.ranchers, k)[0].name == r
    ensures k in WithFinalizer(w, k).objs && r in w.ranchers.objs && Reconcile(w, k, name) == OwnedResult(w, k, r)
  {
    hide FreshInv, SendCapiPatch, SendRancherPatch, NormalWork, Decorate, Finish, WithFinalizer, Registrable, Allowed;
    assert r in OwnedNames(w.ranchers, k);
    FinalizerLands(w, k);
    BeginLists(w, k, name);
    var t := WithFinalizer(w, k);
    var c := t.objs[k];
    var copy := WithoutFleetAddon(w.caapf, c);
    var rc := w.ranchers.objs[r];
    var edited := Decorate(w.caapf, rc);
    var u := w.(capis := t);
    var work := NormalWork(w.side, k, copy.spec.fleetDisabled, r, edited.spec);
    var u1 := Goto(u, k, Inside(c, c, Listing));
    ListFindsOwned(u1, k, name, c, r);
    assert Goto(u, k, Inside(c, copy, Working(r, rc, edited))) == Goto(u1, k, Inside(c, copy, Working(r, rc, edited)));
    if work.failed {
      FromFailing(u, k, name, c, copy, r, rc, edited);
    } else {
      FromWorking(u, k, name, c, copy, r, rc, edited);
    }
  }

  // --- reconcileNormal's own work lowers what is left of it ---

  lemma MissingShrinks(objects: Objects, docs: seq<Document>)
    ensures MissingObjects(AddAll(objects, Readable(docs)), docs) == {}
    ensures MissingObjects(objects, docs) == {} ==> AddAll(objects, Readable(docs)) == objects
  {
    AddAllExactly(objects, Readable(docs));
    if MissingObjects(objects, docs) == {} {
      forall o | o in Readable(docs)
        ensures o.id in objects
      {
        assert o.id !in MissingObjects(objects, docs);
      }
      AddAllPresent(objects, Readable(docs));
    }
  }

  lemma {:induction false} AddAllNotDeleting(objects: Objects, items: seq<ManifestObject>, o: ManifestObject)
    requires !Deleting(objects, o)
    ensures !Deleting(AddAll(objects, items), o)
    decreases |items|
  {
    if items != [] {
      AddAllNotDeleting(objects, items[..|items| - 1], o);
    }
  }

  lemma StaysReady(remote: Remote, docs: seq<Document>)
    requires Check(remote, docs).Ready?
    ensures Check(remote.(objects := AddAll(remote.objects, Readable(docs))), docs).Ready?
  {
    ReadyExactly(remote.objects, docs);
    var after := AddAll(remote.objects, Readable(docs));
    forall o | o in Readable(docs)
      ensures !Deleting(after, o)
    {
      AddAllNotDeleting(remote.objects, Readable(docs), o);
    }
    ReadyExactly(after, docs);
  }

  /** Whatever the environment answers, registration that changes anything lowers what is left, and nothing changes
      when nothing is left or it fails. */
  lemma RegistrationLowers(side: Side, k: Key, r: string)
    ensures var work := RegistrationWork(side, k, r);
            && !work.migrated && (work.failed ==> work.side == side)
            && var left, after := Count(r !in side.tokens) + ManifestLeft(side, k, r), Count(r !in work.side.tokens) + ManifestLeft(work.side, k, r);
               (work.side != side ==> after < left) && (left == 0 ==> work.side == side)
  {
    hide Check, AddAll;
    if k in side.remotes && r in side.urls && side.urls[r] in side.downloads {
      var docs := side.downloads[side.urls[r]];
      MissingShrinks(side.remotes[k].objects, docs);
      assert MissingObjects(side.remotes[k].objects, docs) == {} ==>
        side.remotes[k := side.remotes[k].(objects := AddAll(side.remotes[k].objects, Readable(docs)))] == side.remotes;
    }
  }

  lemma WorkLowers(side: Side, k: Key, fleetDisabled: bool, r: string, rancher: Rancher)
    ensures var work := NormalWork(side, k, fleetDisabled, r, rancher.spec);
            && (work.failed ==> work.side == side && !work.migrated)
            && var left := WorkLeft(side, k, fleetDisabled, r, rancher.spec);
               var after := WorkLeft(work.side, k, fleetDisabled, r, Migrated(rancher, work.migrated).spec);
               (work.side != side || work.migrated ==> after < left) && (left == 0 ==> work.side == side && !work.migrated)
  {
    hide RegistrationWork;
    if !rancher.spec.ready {
      RegistrationLowers(side, k, r);
    } else if k in side.remotes && side.remotes[k].fleetAgent.Terminating? {
      assert side.remotes[k := side.remotes[k]] == side.remotes;
    }
  }

  /** With an environment that answers, registration does not fail and goes on until nothing is left. */
  lemma RegistrationGoesOn(side: Side, k: Key, r: string)
    requires Registrable(side, k, r)
    ensures var work := RegistrationWork(side, k, r);
            && !work.failed && !work.migrated && Registrable(work.side, k, r)
            && (work.side == side ==> r in side.tokens && ManifestLeft(side, k, r) == 0)
  {
    var docs := side.downloads[side.urls[r]];
    MissingShrinks(side.remotes[k].objects, docs);
    StaysReady(side.remotes[k], docs);
    if r in side.tokens {
      var after := AddAll(side.remotes[k].objects, Readable(docs));
      assert RegistrationWork(side, k, r).side.remotes[k].objects == after;
    }
  }

  lemma WorkGoesOn(side: Side, k: Key, fleetDisabled: bool, r: string, rancher: Rancher)
    requires Registrable(side, k, r)
    ensures var work := NormalWork(side, k, fleetDisabled, r, rancher.spec);
            && !work.failed && Registrable(work.side, k, r)
            && (work.migrated ==> rancher.spec.migrated != Some(CATTLE_FLEET_SYSTEM))
            && (work.side == side && !work.migrated ==> WorkLeft(side, k, fleetDisabled, r, rancher.spec) == 0)
  {
    hide DocsReady, RegistrationWork, ManifestLeft;
    if !rancher.spec.ready {
      RegistrationGoesOn(side, k, r);
    } else if rancher.spec.migrated != Some(CATTLE_FLEET_SYSTEM) && !fleetDisabled && side.remotes[k].fleetAgent.Active? {
      assert FleetWork(side, k).side.remotes[k].fleetAgent.Terminating?;
    }
  }

  // --- One reconcile of a cluster that has its Rancher cluster ---

  /** The tables after it: the finalizer is there and the fleet-addon one is not, the Rancher cluster is as
      edited, and a table changes exactly when there was something to do. */
  lemma OwnedTables(w: World, k: Key, r: string)
    requires k in w.capis.objs && !w.capis.objs[k].deleting && r in w.ranchers.objs && !w.ranchers.objs[r].deleting
    requires k in WithFinalizer(w, k).objs
    ensures var v := OwnedResult(w, k, r); var c := w.capis.objs[k]; var rc := w.ranchers.objs[r];
            var work := NormalWork(w.side, k, c.spec.fleetDisabled, r, Decorate(w.caapf, rc).spec);
            var final := if work.failed then rc else Migrated(Decorate(w.caapf, rc), work.migrated);
            && k in v.capis.objs
            && v.capis.objs[k] == WithoutFleetAddon(w.caapf, c.(version := v.capis.objs[k].version, finalizers := c.finalizers + {Turtles}))
            && (v.capis == w.capis <==> Turtles in c.finalizers && (w.caapf || FleetAddon !in c.finalizers))
            && r in v.ranchers.objs && v.ranchers.objs[r] == final.(version := v.ranchers.objs[r].version)
            && (v.ranchers == w.ranchers <==> final == rc)
  {
    hide SendCapiPatch, SendRancherPatch, NormalWork, WithFinalizer;
    FinalizerLands(w, k);
    var t := WithFinalizer(w, k);
    CapiPatchLands(t, k, WithoutFleetAddon(w.caapf, t.objs[k]));
    var rc := w.ranchers.objs[r];
    var edited := Decorate(w.caapf, rc);
    RancherPatchLands(w.ranchers, r, Migrated(edited, NormalWork(w.side, k, w.capis.objs[k].spec.fleetDisabled, r, edited.spec).migrated));
  }

  lemma OwnedAlone(w: World, k: Key, r: string)
    requires Unique(w.ranchers) && r in OwnedNames(w.ranchers, k)
    ensures OwnedNames(w.ranchers, k) == {r} && OwnedList(w.ranchers, k)[0].name == r
  {
    assert forall q | q in OwnedNames(w.ranchers, k) :: q == r;
  }

  lemma OwnedStaysStill(w: World, k: Key, name: string, r: string)
    requires Still(w, k, name) && r in OwnedNames(w.ranchers, k)
    ensures Reconcile(w, k, name) == OwnedResult(w, k, r) && Still(Reconcile(w, k, name), k, name)
    ensures OwnedNames(Reconcile(w, k, name).ranchers, k) == {r}
  {
    hide FreshInv, NormalWork, WithFinalizer, SendCapiPatch, SendRancherPatch, Finish, Reconcile, FreshRun, Exec, Evolves, OnlyAt;
    assert Unique(w.ranchers) by { FreshInvUnique(w); }
    OwnedAlone(w, k, r);
    var steps := ReconcileRuns(w, k, name);
    var v := Reconcile(w, k, name);
    assert Unique(v.ranchers) by { FreshInvUnique(v); }
    FinalizerLands(w, k);
    ReconcileOwned(w, k, name, r);
    OwnedTables(w, k, r);
    assert r in OwnedNames(v.ranchers, k);
    OwnedAlone(v, k, r);
  }

  /** A change lowers the rank, and at rank zero there is none. */
  lemma OwnedChange(w: World, k: Key, name: string, r: string)
    requires Still(w, k, name) && r in OwnedNames(w.ranchers, k)
    ensures k in WithFinalizer(w, k).objs
    ensures OwnedRank(w, k, r) == 0 ==> OwnedResult(w, k, r) == w
    ensures var v := OwnedResult(w, k, r);
            k in v.capis.objs && r in v.ranchers.objs && (v != w ==> OwnedRank(v, k, r) < OwnedRank(w, k, r))
  {
    hide Still, NormalWork, WithFinalizer, SendCapiPatch, SendRancherPatch, Registrable, ManifestLeft;
    StillOwned(w, k, name, r);
    FinalizerLands(w, k);
    OwnedTables(w, k, r);
    WorkLowers(w.side, k, w.capis.objs[k].spec.fleetDisabled, r, Decorate(w.caapf, w.ranchers.objs[r]));
  }

  /** With an environment that answers there is a change as long as the rank is not zero. */
  lemma OwnedGoesOn(w: World, k: Key, name: string, r: string)
    requires Calm(w, k, name) && r in OwnedNames(w.ranchers, k)
    ensures k in WithFinalizer(w, k).objs
    ensures OwnedResult(w, k, r) == w ==> OwnedRank(w, k, r) == 0
    ensures Registrable(OwnedResult(w, k, r).side, k, r)
  {
    hide Still, NormalWork, WithFinalizer, SendCapiPatch, SendRancherPatch, Registrable, ManifestLeft;
    StillOwned(w, k, name, r);
    FinalizerLands(w, k);
    OwnedTables(w, k, r);
    WorkGoesOn(w.side, k, w.capis.objs[k].spec.fleetDisabled, r, Decorate(w.caapf, w.ranchers.objs[r]));
  }

  lemma StillOwned(w: World, k: Key, name: string, r: string)
    requires Still(w, k, name) && r in OwnedNames(w.ranchers, k)
    ensures k in w.capis.objs && !w.capis.objs[k].deleting && !w.ranchers.objs[r].deleting
  {
  }

  // --- One reconcile of a cluster without Rancher cluster ---

  lemma MissingRechecks(u: World, k: Key, name: string, c: Capi)
    requires k in u.imports && u.imports[k] == Inside(c, c, Listing) && !c.deleting
    requires k in u.capis.objs && c == u.capis.objs[k] && OwnedNames(u.ranchers, k) == {}
    ensures Finish(u, k, name) ==
            Finish(Goto(u, k, AfterRecheck(c, WithoutFleetAddon(u.caapf, c), Some(c))), k, name)
  {
    hide OwnChange, DoWriteCapi, DoWriteRancher, DoOutside, AfterRecheck;
    var u1 := Do(u, k, Answer(u, k, name));
    assert Finish(u, k, name) == Finish(u1, k, name);
    assert u1 == Goto(u, k, Inside(c, WithoutFleetAddon(u.caapf, c), Rechecking));
    var u2 := Do(u1, k, Answer(u1, k, name));
    assert Finish(u1, k, name) == Finish(u2, k, name);
    assert u2 == Goto(u, k, AfterRecheck(c, WithoutFleetAddon(u.caapf, c), Some(c)));
  }

  lemma MissingAllowed(u: World, k: Key, name: string, c: Capi)
    requires k in u.capis.objs && c == u.capis.objs[k] && c.spec.imported.None? && Allowed(u, k)
    ensures Finish(Goto(u, k, AfterRecheck(c, WithoutFleetAddon(u.caapf, c), Some(c))), k, name) ==
            Finish(Goto(u, k, Inside(c, c, Creating)), k, name)
  {
    hide OwnChange, DoWriteCapi, DoWriteRancher, DoOutside, ShouldImport;
    var u1 := Goto(u, k, AfterRecheck(c, WithoutFleetAddon(u.caapf, c), Some(c)));
    if ClusterVerdict(c.spec.mark, false).AskNamespace? {
      var u2 := Do(u1, k, Answer(u1, k, name));
      assert Finish(u1, k, name) == Finish(u2, k, name);
      assert u2 == Goto(u, k, Inside(c, c, Creating));
    }
  }

  lemma MissingCreated(u: World, k: Key, name: string, c: Capi)
    requires k !in u.imports && k in u.capis.objs && c == u.capis.objs[k] && !c.deleting && name !in u.ranchers.objs
    ensures Finish(Goto(u, k, Inside(c, c, Creating)), k, name) ==
            u.(ranchers := Insert(u.ranchers, name, NewRancher(u.caapf, k, c.spec)).0)
  {
    hide OwnChange, DoRead, DoOutside, NewRancher, Insert, SendCapiPatch;
    var u1 := Goto(u, k, Inside(c, c, Creating));
    var u2 := Do(u1, k, Answer(u1, k, name));
    assert Finish(u1, k, name) == Finish(u2, k, name);
    CapiPatched(u2, k, name, c, c);
    CapiPatchLands(u.capis, k, c);
    assert u2.imports - {k} == u.imports;
  }

  /** An import that is allowed and due; the downstream cluster does not matter yet. */
  ghost predicate Importable(w: World, k: Key, name: string) {
    && k !in w.imports && k in w.capis.objs && !w.capis.objs[k].deleting && w.capis.objs[k].spec.imported.None?
    && w.capis.objs[k].spec.controlPlane && OwnedNames(w.ranchers, k) == {} && name !in w.ranchers.objs
  }

  lemma ReconcileMissing(w: World, k: Key, name: string)
    requires Importable(w, k, name) && Allowed(w, k)
    ensures Reconcile(w, k, name) ==
            w.(capis := WithFinalizer(w, k), ranchers := Insert(w.ranchers, name, NewRancher(w.caapf, k, w.capis.objs[k].spec)).0)
  {
    hide FreshInv, Finish, WithFinalizer, Registrable, ShouldAutoImport, AfterRecheck, Insert, NewRancher, Reconcile;
    FinalizerLands(w, k);
    BeginLists(w, k, name);
    var u := w.(capis := WithFinalizer(w, k));
    var c := u.capis.objs[k];
    var u1 := Goto(u, k, Inside(c, c, Listing));
    MissingRechecks(u1, k, name, c);
    var l := AfterRecheck(c, WithoutFleetAddon(u.caapf, c), Some(c));
    assert Goto(u1, k, l) == Goto(u, k, l);
    MissingAllowed(u, k, name, c);
    MissingCreated(u, k, name, c);
  }

  lemma MissingStaysStill(w: World, k: Key, name: string)
    requires Still(w, k, name) && OwnedNames(w.ranchers, k) == {}
    ensures Still(Reconcile(w, k, name), k, name) && OwnedNames(Reconcile(w, k, name).ranchers, k) == {name}
    ensures Reconcile(w, k, name).side == w.side
  {
    hide FreshInv, WithFinalizer, Finish;
    var steps := ReconcileRuns(w, k, name);
    FinalizerLands(w, k);
    ReconcileMissing(w, k, name);
    var v := Reconcile(w, k, name);
    assert Unique(v.ranchers) by { FreshInvUnique(v); }
    assert name in OwnedNames(v.ranchers, k);
    OwnedAlone(v, k, name);
  }

  // --- Convergence ---

  /** Whatever the downstream cluster and Rancher answer, as long as the import is allowed and nothing is being deleted:
      a reconcile that changes anything lowers the rank, and at rank zero it changes nothing. */
  lemma EveryChangeLowers(w: World, k: Key, name: string)
    requires Still(w, k, name)
    ensures Still(Reconcile(w, k, name), k, name)
    ensures Reconcile(w, k, name) != w ==> Below(Rank(Reconcile(w, k, name), k, name), Rank(w, k, name))
    ensures Rank(w, k, name) == (0, 0) ==> Reconcile(w, k, name) == w
  {
    hide Still, Reconcile, OwnedRank, OwnedResult;
    if OwnedNames(w.ranchers, k) == {} {
      MissingStaysStill(w, k, name);
    } else {
      var r := OwnedList(w.ranchers, k)[0].name;
      assert r in OwnedNames(w.ranchers, k);
      OwnedStaysStill(w, k, name, r);
      OwnedChange(w, k, name, r);
      var q := OwnedList(Reconcile(w, k, name).ranchers, k)[0].name;
      assert q in OwnedNames(Reconcile(w, k, name).ranchers, k);
    }
  }

  /** While the environment answers, a reconcile changes the world exactly when the rank is not zero, and then
      the rank drops. */
  lemma Progress(w: World, k: Key, name: string)
    requires Calm(w, k, name)
    ensures Calm(Reconcile(w, k, name), k, name)
    ensures Reconcile(w, k, name) == w <==> Rank(w, k, name) == (0, 0)
    ensures Rank(w, k, name) != (0, 0) ==> Below(Rank(Reconcile(w, k, name), k, name), Rank(w, k, name))
  {
    hide Still, Reconcile, OwnedRank, OwnedResult, Registrable;
    EveryChangeLowers(w, k, name);
    var v := Reconcile(w, k, name);
    if OwnedNames(w.ranchers, k) == {} {
      MissingStaysStill(w, k, name);
    } else {
      var r := OwnedList(w.ranchers, k)[0].name;
      assert r in OwnedNames(w.ranchers, k);
      OwnedStaysStill(w, k, name, r);
      OwnedGoesOn(w, k, name, r);
    }
  }

  ghost function Repeat(w: World, k: Key, name: string, n: nat): World
    decreases n
  {
    if n == 0 then w else Repeat(Reconcile(w, k, name), k, name, n - 1)
  }

  /** Finitely many reconciles import the cluster: a fixpoint at which nothing is left to do. */
  lemma {:induction false} Converges(w: World, k: Key, name: string) returns (n: nat)
    requires Calm(w, k, name)
    ensures var v := Repeat(w, k, name, n); Calm(v, k, name) && Rank(v, k, name) == (0, 0) && Reconcile(v, k, name) == v
    decreases Rank(w, k, name).0, Rank(w, k, name).1
  {
    hide Still, Registrable, Reconcile, Rank;
    Progress(w, k, name);
    if Rank(w, k, name) == (0, 0) {
      n := 0;
    } else {
      var m := Converges(Reconcile(w, k, name), k, name);
      n := m + 1;
    }
  }

  ghost predicate FullyImported(w: World, k: Key, r: string)
    requires k in w.capis.objs && r in w.ranchers.objs && Registrable(w.side, k, r)
  {
    var rc := w.ranchers.objs[r];
    && Turtles in rc.finalizers && rc.spec.noCreator.Some? && (rc.spec.external.Some? <==> w.caapf)
    && (if rc.spec.ready then
          rc.spec.migrated == Some(CATTLE_FLEET_SYSTEM) || w.capis.objs[k].spec.fleetDisabled || w.side.remotes[k].fleetAgent.Terminating?
        else
          r in w.side.tokens
          && forall o | o in Readable(w.side.downloads[w.side.urls[r]]) :: o.id in w.side.remotes[k].objects)
  }

  /** What rank zero means: the Rancher cluster exists, both finalizers are in place, and an agent that is not
      ready yet has its token and every object of its manifest. */
  lemma RankZeroIsImported(w: World, k: Key, name: string)
    requires Calm(w, k, name) && Rank(w, k, name) == (0, 0)
    ensures Turtles in w.capis.objs[k].finalizers && (!w.caapf ==> FleetAddon !in w.capis.objs[k].finalizers)
    ensures exists r :: OwnedNames(w.ranchers, k) == {r} && Registrable(w.side, k, r) && FullyImported(w, k, r)
  {
    hide FreshInv, DocsReady, Allowed;
    assert Unique(w.ranchers) by { FreshInvUnique(w); }
    var r := OwnedList(w.ranchers, k)[0].name;
    assert r in OwnedNames(w.ranchers, k);
    OwnedAlone(w, k, r);
    var rc := w.ranchers.objs[r];
    assert Decorate(w.caapf, rc) == rc;
    if !rc.spec.ready {
      var objects, docs := w.side.remotes[k].objects, w.side.downloads[w.side.urls[r]];
      assert MissingObjects(objects, docs) == {};
      forall o | o in Readable(docs)
        ensures o.id in objects
      {
        assert o.id !in MissingObjects(objects, docs);
      }
    }
  }
}
