/** Safety of the protocol over all runs: isolation of keys, uniqueness, no orphaned Rancher clusters. */
module ImportSafety {
  import opened Wrappers
  import opened Network
  import opened Tables
  import opened Downstream
  import opened ImportDecision
  import opened ImportProtocol

  // --- What the controllers hold in memory was read from the server ---

  ghost predicate StageGenuine(t: RancherTable, k: Key, stage: Stage) {
    match stage
    case Annotating(r, rc) => Genuine(t, r, rc) && rc.spec.owner == Some(k)
    case Releasing(r, rc) => Genuine(t, r, rc) && rc.spec.owner == Some(k)
    case Working(r, rc, edited) => Genuine(t, r, rc) && rc.spec.owner == Some(k) == edited.spec.owner && Turtles in edited.finalizers
    case PatchingRancher(r, rc, edited) => Genuine(t, r, rc) && rc.spec.owner == Some(k) == edited.spec.owner && Turtles in edited.finalizers
    case _ => true
  }

  /** The stored object moved on since `o` was read. */
  ghost predicate Superseded(t: CapiTable, k: Key, o: Capi) {
    k in t.objs ==> t.objs[k].version != o.version
  }

  /** Past the guards the base has a control plane and no `imported` annotation. A copy that carries it was either
      marked by reconcileDelete, which removes the finalizer with it, or read after the stored object had moved on;
      else it is as the base. */
  ghost predicate LocalGenuine(w: World, k: Key, l: Local) {
    match l
    case ReadingAgain => true
    case AddingFinalizer(c) => Genuine(w.capis, k, c)
    case Inside(base, copy, stage) =>
      && Genuine(w.capis, k, base) && base.spec.imported.None? && base.spec.controlPlane && StageGenuine(w.ranchers, k, stage)
      && (copy.spec.imported.Some? ==> Turtles !in copy.finalizers || Superseded(w.capis, k, base))
      && (copy.spec == base.spec || copy.spec == base.spec.(imported := Some("true")) || Superseded(w.capis, k, base))
  }

  ghost predicate MemoryInv(w: World) {
    && Sound(w.capis) && Sound(w.ranchers)
    && (forall k | k in w.imports :: LocalGenuine(w, k, w.imports[k]))
    && (forall r | r in w.cleanups :: Genuine(w.ranchers, r, w.cleanups[r]))
  }

  lemma LocalGenuineEvolves(w: World, v: World, k: Key, l: Local)
    requires Evolves(w.capis, v.capis) && Evolves(w.ranchers, v.ranchers)
    requires LocalGenuine(w, k, l)
    ensures LocalGenuine(v, k, l)
  {
  }

  lemma FreshIsCached(w: World, s: Step)
    requires MemoryInv(w) && FreshStep(w, s)
    ensures CachedStep(w, s)
  {
  }

  lemma AddFinalizerMemory(w: World, k: Key, c: Capi, net: Net, again: bool)
    requires Sound(w.capis)
    ensures var v := DoAddFinalizer(w, k, c, net, again); k in v.imports ==> LocalGenuine(v, k, v.imports[k])
  {
    hide SendFinalizer, OnlyAt;
    assert Sound(DoAddFinalizer(w, k, c, net, again).capis);
  }

  lemma OutsideMemory(w: World, k: Key, a: Action)
    requires MemoryInv(w) && CachedStep(w, Import(k, a)) && Enabled(w.imports, k, a)
    requires a.Begin? || a.ReadAgain? || a.AddFinalizer? || a.Crash?
    ensures var v := DoOutside(w, k, a); k in v.imports ==> LocalGenuine(v, k, v.imports[k])
  {
    hide DoAddFinalizer, Evolves, OnlyAt, Genuine, Sound;
    if a.AddFinalizer? {
      AddFinalizerMemory(w, k, w.imports[k].capi, a.net, a.again);
    }
  }

  lemma RecheckMemory(w: World, k: Key, base: Capi, copy: Capi, now: Option<Capi>)
    requires LocalGenuine(w, k, Inside(base, copy, Rechecking))
    requires now.Some? ==> now == Lookup(w.capis, k)
    ensures LocalGenuine(w, k, AfterRecheck(base, copy, now))
  {
  }

  lemma ReadMemory(w: World, k: Key, a: Action)
    requires MemoryInv(w) && CachedStep(w, Import(k, a)) && Enabled(w.imports, k, a)
    requires a.List? || a.Recheck? || a.CheckNamespace? || a.Work?
    ensures LocalGenuine(w, k, DoRead(w, k, a).imports[k])
  {
    hide Genuine, Sound, AfterRecheck, Superseded, Evolves, OnlyAt;
    assert LocalGenuine(w, k, w.imports[k]);
    if a.Recheck? {
      var l := w.imports[k];
      RecheckMemory(w, k, l.base, l.copy, if a.net.Delivered? then Lookup(w.capis, k) else None);
    }
  }

  lemma WriteCapiMemory(w: World, k: Key, a: Action)
    requires MemoryInv(w) && Enabled(w.imports, k, a)
    requires a.Annotate? || a.DropFinalizer? || a.PatchCapi?
    ensures var v := DoWriteCapi(w, k, a); k in v.imports ==> LocalGenuine(v, k, v.imports[k])
  {
    hide SendCapiPatch, SendWithout, Genuine, Sound, Superseded, Evolves, OnlyAt;
    LocalGenuineEvolves(w, DoWriteCapi(w, k, a), k, w.imports[k]);
  }

  lemma WriteRancherMemory(w: World, k: Key, a: Action)
    requires MemoryInv(w) && Enabled(w.imports, k, a)
    requires a.ReleaseRancher? || a.DeleteDependents? || a.CreateRancher? || a.PatchRancher?
    ensures var v := DoWriteRancher(w, k, a); LocalGenuine(v, k, v.imports[k])
  {
    hide SendRancherPatch, SendWithout, DeleteMany, Insert, NewRancher, Genuine, Sound, Superseded, Evolves, OnlyAt;
    LocalGenuineEvolves(w, DoWriteRancher(w, k, a), k, w.imports[k]);
  }

  lemma MemoryStep(w: World, s: Step)
    requires MemoryInv(w) && CachedStep(w, s)
    ensures MemoryInv(Apply(w, s))
  {
    hide DoRead, DoWriteCapi, DoWriteRancher, DoOutside, OnlyAt;
    var v := Apply(w, s);
    forall k | k in v.imports
      ensures LocalGenuine(v, k, v.imports[k])
    {
      if s.Import? && s.k == k && Enabled(w.imports, k, s.act) {
        if s.act.Begin? || s.act.ReadAgain? || s.act.AddFinalizer? || s.act.Crash? {
          OutsideMemory(w, k, s.act);
        } else if s.act.List? || s.act.Recheck? || s.act.CheckNamespace? || s.act.Work? {
          ReadMemory(w, k, s.act);
        } else if s.act.Annotate? || s.act.DropFinalizer? || s.act.PatchCapi? {
          WriteCapiMemory(w, k, s.act);
        } else {
          WriteRancherMemory(w, k, s.act);
        }
      } else {
        LocalGenuineEvolves(w, v, k, w.imports[k]);
      }
    }
  }

  lemma {:induction false} MemoryRun(w: World, steps: seq<Step>)
    requires MemoryInv(w) && CachedRun(w, steps)
    ensures MemoryInv(Exec(w, steps))
    decreases |steps|
  {
    if steps != [] {
      MemoryStep(w, steps[0]);
      MemoryRun(Apply(w, steps[0]), steps[1..]);
    }
  }

  // --- Isolation ---

  /** No Rancher cluster that `k` does not own appears, changes or disappears. */
  ghost predicate OnlyOwned(t: RancherTable, u: RancherTable, k: Key) {
    && (forall r | r in t.objs && t.objs[r].spec.owner != Some(k) :: r in u.objs && u.objs[r] == t.objs[r])
    && (forall r | r in u.objs && u.objs[r].spec.owner != Some(k) :: r in t.objs && u.objs[r] == t.objs[r])
  }

  lemma OneOwned(t: RancherTable, u: RancherTable, k: Key, r: string)
    requires OnlyAt(t, u, r)
    requires r in t.objs ==> t.objs[r].spec.owner == Some(k)
    requires r in u.objs ==> u.objs[r].spec.owner == Some(k)
    ensures OnlyOwned(t, u, k)
  {
  }

  lemma ReleaseOwned(t: RancherTable, k: Key, r: string, rc: Rancher)
    requires Genuine(t, r, rc) && rc.spec.owner == Some(k)
    ensures OnlyOwned(t, SendWithout(t, r, rc), k)
  {
    hide Evolves;
    var u := SendWithout(t, r, rc);
    if u != t {
      OneOwned(t, u, k, r);
    }
  }

  lemma PatchOwned(t: RancherTable, k: Key, r: string, rc: Rancher, edited: Rancher)
    requires Genuine(t, r, rc) && rc.spec.owner == Some(k) == edited.spec.owner
    ensures OnlyOwned(t, SendRancherPatch(t, r, rc, edited).0, k)
  {
    hide Evolves, Patch;
    var (u, outcome) := SendRancherPatch(t, r, rc, edited);
    if outcome.Applied? {
      OneOwned(t, u, k, r);
    }
  }

  lemma CreateOwned(t: RancherTable, k: Key, r: string, o: Rancher)
    requires o.spec.owner == Some(k)
    ensures OnlyOwned(t, Insert(t, r, o).0, k)
  {
  }

  lemma WriteRancherIsolated(w: World, k: Key, a: Action)
    requires MemoryInv(w) && Enabled(w.imports, k, a)
    requires a.ReleaseRancher? || a.DeleteDependents? || a.CreateRancher? || a.PatchRancher?
    ensures OnlyOwned(w.ranchers, DoWriteRancher(w, k, a).ranchers, k)
  {
    hide Evolves, Sound, Genuine, SendWithout, SendRancherPatch, Insert;
    var l := w.imports[k];
    assert LocalGenuine(w, k, l);
    match l.stage {
      case Releasing(r, rc) => ReleaseOwned(w.ranchers, k, r, rc);
      case PatchingRancher(r, rc, edited) => PatchOwned(w.ranchers, k, r, rc, edited);
      case Creating => CreateOwned(w.ranchers, k, a.name, NewRancher(w.caapf, k, l.base.spec));
      case _ =>
    }
  }

  /** A reconcile for one key never changes the CAPI or Rancher clusters of another, whatever the cache
      shows. */
  lemma ReconcileIsIsolated(w: World, k: Key, a: Action)
    requires MemoryInv(w) && CachedStep(w, Import(k, a))
    ensures OnlyAt(w.capis, Apply(w, Import(k, a)).capis, k)
    ensures OnlyOwned(w.ranchers, Apply(w, Import(k, a)).ranchers, k)
  {
    hide Evolves, Sound, Genuine, OnlyAt, DoOutside, DoRead, DoWriteCapi, DoWriteRancher;
    if Enabled(w.imports, k, a) && (a.ReleaseRancher? || a.DeleteDependents? || a.CreateRancher? || a.PatchRancher?) {
      WriteRancherIsolated(w, k, a);
    }
  }

  // --- Where a write leads ---

  predicate AfterWrite(stage: Stage) {
    stage.Releasing? || stage.DroppingFinalizer? || stage.PatchingCapi?
  }

  /** The reconcile stays at the same base, or ends. */
  predicate LeadsOn(imports: map<Key, Local>, k: Key, base: Capi) {
    k in imports ==> imports[k].Inside? && imports[k].base == base && AfterWrite(imports[k].stage)
  }

  lemma AnnotateLeads(w: World, k: Key, base: Capi, r: string, rc: Rancher, net: Net)
    ensures LeadsOn(DoAnnotate(w, k, base, r, rc, net).imports, k, base)
  {
    hide OwnChange, SendCapiPatch, MarkImported;
  }

  lemma WriteCapiLeads(w: World, k: Key, a: Action)
    requires Enabled(w.imports, k, a)
    requires a.Annotate? || a.DropFinalizer? || a.PatchCapi?
    ensures LeadsOn(DoWriteCapi(w, k, a).imports, k, w.imports[k].base)
  {
    hide OwnChange, SendCapiPatch, SendWithout, WithoutTurtles, DoAnnotate;
    if a.Annotate? {
      var l := w.imports[k];
      AnnotateLeads(w, k, l.base, l.stage.name, l.stage.rancher, a.net);
    }
  }

  lemma WriteRancherLeads(w: World, k: Key, a: Action)
    requires Enabled(w.imports, k, a)
    requires a.ReleaseRancher? || a.DeleteDependents? || a.CreateRancher? || a.PatchRancher?
    ensures LeadsOn(DoWriteRancher(w, k, a).imports, k, w.imports[k].base)
  {
    hide OwnChange, SendWithout, SendRancherPatch, DeleteMany, Insert, NewRancher;
  }

  lemma WriteLeads(w: World, k: Key, a: Action)
    requires Enabled(w.imports, k, a)
    requires a.Annotate? || a.DropFinalizer? || a.PatchCapi? || a.ReleaseRancher? || a.DeleteDependents? || a.CreateRancher? || a.PatchRancher?
    ensures LeadsOn(Do(w, k, a).imports, k, w.imports[k].base)
  {
    hide OwnChange, LeadsOn, DoOutside, DoRead, DoWriteCapi, DoWriteRancher;
    if a.Annotate? || a.DropFinalizer? || a.PatchCapi? {
      WriteCapiLeads(w, k, a);
    } else {
      WriteRancherLeads(w, k, a);
    }
  }

  // --- Uniqueness and no orphans, with fresh reads ---

  ghost predicate Held(t: CapiTable, k: Key) {
    k in t.objs && Turtles in t.objs[k].finalizers
  }

  ghost predicate NoLive(t: RancherTable, k: Key) {
    forall r | r in t.objs && t.objs[r].spec.owner == Some(k) :: t.objs[r].deleting
  }

  ghost predicate NoneOwned(t: RancherTable, k: Key) {
    forall r | r in t.objs :: t.objs[r].spec.owner != Some(k)
  }

  ghost predicate Unique(t: RancherTable) {
    forall r, q | r in t.objs && q in t.objs && t.objs[r].spec.owner.Some? && t.objs[r].spec.owner == t.objs[q].spec.owner :: r == q
  }

  ghost predicate NoOrphan(c: CapiTable, t: RancherTable) {
    forall r | r in t.objs && t.objs[r].spec.owner.Some? && !t.objs[r].deleting :: Held(c, t.objs[r].spec.owner.value)
  }

  /** What a reconcile in flight may rely on at each request. */
  ghost predicate StageOk(c: CapiTable, t: RancherTable, k: Key, l: Local)
    requires l.Inside?
  {
    match l.stage
    case Listing => l.copy == l.base && (l.base.deleting || (Turtles in l.base.finalizers && Held(c, k)))
    case Annotating(_, _) => NoLive(t, k)
    case Releasing(_, _) => NoLive(t, k)
    case DeletingDependents => true
    case DroppingFinalizer => NoLive(t, k)
    case Working(_, _, _) => Turtles in l.copy.finalizers
    case PatchingRancher(_, _, _) => Turtles in l.copy.finalizers
    case PatchingCapi => l.copy.finalizers == l.base.finalizers || Turtles in l.copy.finalizers || NoLive(t, k)
    case _ => Turtles in l.copy.finalizers && Held(c, k) && NoneOwned(t, k)
  }

  ghost predicate StagesOk(w: World) {
    forall k | k in w.imports && w.imports[k].Inside? :: StageOk(w.capis, w.ranchers, k, w.imports[k])
  }

  ghost predicate FreshInv(w: World) {
    MemoryInv(w) && Unique(w.ranchers) && NoOrphan(w.capis, w.ranchers) && StagesOk(w)
  }

  lemma FreshInvUnique(w: World)
    requires FreshInv(w)
    ensures Unique(w.ranchers)
  {
  }

  /** No Rancher cluster gained owner labels or came back to life. */
  ghost predicate NoNewOwned(t: RancherTable, u: RancherTable) {
    forall r | r in u.objs && u.objs[r].spec.owner.Some? ::
      r in t.objs && t.objs[r].spec.owner == u.objs[r].spec.owner && (t.objs[r].deleting ==> u.objs[r].deleting)
  }

  ghost predicate KeepsHeld(c: CapiTable, d: CapiTable) {
    forall k | Held(c, k) :: Held(d, k)
  }

  lemma OtherKeepsOwned(w: World, s: Step)
    requires Honest(w, s) && !s.Import?
    ensures NoNewOwned(w.ranchers, DoOther(w, s).ranchers)
    ensures KeepsHeld(w.capis, DoOther(w, s).capis)
  {
    hide Evolves;
  }

  lemma ReleaseKeepsOwned(t: RancherTable, r: string, rc: Rancher)
    requires Genuine(t, r, rc)
    ensures NoNewOwned(t, SendWithout(t, r, rc))
  {
    hide Evolves;
  }

  lemma PatchKeepsOwned(t: RancherTable, r: string, rc: Rancher, edited: Rancher)
    requires rc.spec.owner == edited.spec.owner
    ensures NoNewOwned(t, SendRancherPatch(t, r, rc, edited).0)
  {
    hide Evolves, Patch;
  }

  lemma WriteKeepsOwned(w: World, k: Key, a: Action)
    requires MemoryInv(w) && Enabled(w.imports, k, a)
    requires a.ReleaseRancher? || a.DeleteDependents? || a.PatchRancher?
    ensures NoNewOwned(w.ranchers, DoWriteRancher(w, k, a).ranchers)
  {
    hide Evolves, Sound, Genuine, SendWithout, SendRancherPatch;
    assert LocalGenuine(w, k, w.imports[k]);
    match w.imports[k].stage {
      case Releasing(r, rc) => ReleaseKeepsOwned(w.ranchers, r, rc);
      case PatchingRancher(r, rc, edited) => PatchKeepsOwned(w.ranchers, r, rc, edited);
      case _ =>
    }
  }

  lemma OwnKeepsOwned(w: World, k: Key, a: Action)
    requires MemoryInv(w) && Enabled(w.imports, k, a) && !a.CreateRancher?
    ensures NoNewOwned(w.ranchers, Do(w, k, a).ranchers)
  {
    hide Evolves, Sound, DoOutside, DoRead, DoWriteCapi, DoWriteRancher;
    if a.ReleaseRancher? || a.DeleteDependents? || a.PatchRancher? {
      WriteKeepsOwned(w, k, a);
    }
  }

  lemma InsertKeeps(t: RancherTable, name: string, o: Rancher, k: Key)
    requires Unique(t) && NoneOwned(t, k) && o.spec.owner == Some(k)
    ensures Unique(Insert(t, name, o).0)
    ensures forall j | j != k && NoneOwned(t, j) :: NoneOwned(Insert(t, name, o).0, j)
    ensures forall j | j != k && NoLive(t, j) :: NoLive(Insert(t, name, o).0, j)
    ensures forall c: CapiTable | NoOrphan(c, t) && Held(c, k) :: NoOrphan(c, Insert(t, name, o).0)
  {
    hide Evolves;
  }

  lemma CreateKeepsUnique(w: World, k: Key, a: Action)
    requires FreshInv(w) && Enabled(w.imports, k, a) && a.CreateRancher?
    ensures Unique(Do(w, k, a).ranchers) && NoOrphan(w.capis, Do(w, k, a).ranchers)
    ensures forall j | j != k :: NoneOwned(w.ranchers, j) ==> NoneOwned(Do(w, k, a).ranchers, j)
    ensures forall j | j != k :: NoLive(w.ranchers, j) ==> NoLive(Do(w, k, a).ranchers, j)
  {
    hide OwnChange, Evolves, OnlyAt, MemoryInv, Unique, NoOrphan, NoneOwned, NoLive, Held, Insert, DoOutside, DoRead, DoWriteCapi, DoDeleteDependents;
    assert StageOk(w.capis, w.ranchers, k, w.imports[k]);
    InsertKeeps(w.ranchers, a.name, NewRancher(w.caapf, k, w.imports[k].base.spec), k);
  }

  lemma WriteCapiKeepsHeld(w: World, k: Key, a: Action)
    requires StagesOk(w) && Enabled(w.imports, k, a)
    requires a.Annotate? || a.DropFinalizer? || a.PatchCapi?
    ensures Held(w.capis, k) && !Held(DoWriteCapi(w, k, a).capis, k) ==> NoLive(w.ranchers, k)
  {
    hide Evolves, OnlyAt, NoneOwned;
    assert StageOk(w.capis, w.ranchers, k, w.imports[k]);
  }

  lemma AddFinalizerHolds(t: CapiTable, k: Key, c: Capi)
    ensures Held(t, k) || SendFinalizer(t, k, c).1.Applied? ==> Held(SendFinalizer(t, k, c).0, k)
  {
    hide Evolves, OnlyAt;
  }

  /** The turtles finalizer leaves a CAPI cluster only when no live Rancher cluster is left. */
  lemma FinalizerLeavesLast(w: World, k: Key, a: Action)
    requires StagesOk(w)
    ensures Held(w.capis, k) && !Held(Do(w, k, a).capis, k) ==> NoLive(w.ranchers, k)
  {
    hide Evolves, OnlyAt, NoneOwned, DoRead, DoWriteCapi, DoWriteRancher, SendFinalizer;
    if Enabled(w.imports, k, a) {
      if a.Annotate? || a.DropFinalizer? || a.PatchCapi? {
        WriteCapiKeepsHeld(w, k, a);
      } else if a.AddFinalizer? {
        AddFinalizerHolds(w.capis, k, w.imports[k].capi);
      }
    }
  }

  lemma OutsideStage(w: World, k: Key, a: Action)
    requires Enabled(w.imports, k, a) && FreshRead(w, Import(k, a))
    requires a.Begin? || a.ReadAgain? || a.AddFinalizer? || a.Crash?
    ensures var v := DoOutside(w, k, a);
            k in v.imports && v.imports[k].Inside? ==> StageOk(v.capis, v.ranchers, k, v.imports[k])
  {
    hide Evolves, OnlyAt, SendFinalizer;
    if a.AddFinalizer? {
      AddFinalizerHolds(w.capis, k, w.imports[k].capi);
    }
  }

  lemma ListStage(w: World, k: Key, base: Capi, items: Option<seq<Found>>)
    requires Unique(w.ranchers) && (base.deleting || (Turtles in base.finalizers && Held(w.capis, k)))
    requires items.Some? ==> Complete(w.ranchers, k, items.value)
    ensures StageOk(w.capis, w.ranchers, k, AfterList(w.caapf, base, items))
  {
    hide Decorate;
    if items.Some? && items.value == [] {
      forall r | r in w.ranchers.objs
        ensures w.ranchers.objs[r].spec.owner != Some(k)
      {
        assert r !in OwnedNames(w.ranchers, k);
      }
    }
  }

  lemma ReadStage(w: World, k: Key, a: Action)
    requires FreshInv(w) && Enabled(w.imports, k, a) && FreshRead(w, Import(k, a))
    requires a.List? || a.Recheck? || a.CheckNamespace? || a.Work?
    ensures var v := DoRead(w, k, a); StageOk(v.capis, v.ranchers, k, v.imports[k])
  {
    hide OwnChange, Evolves, OnlyAt, MemoryInv, ClusterVerdict, ShouldImport, AfterList, Unique, NoOrphan, NoneOwned, NoLive;
    assert StageOk(w.capis, w.ranchers, k, w.imports[k]);
    if a.List? {
      ListStage(w, k, w.imports[k].base, a.items);
    }
  }

  lemma WriteCapiStage(w: World, k: Key, a: Action)
    requires StagesOk(w) && Enabled(w.imports, k, a)
    requires a.Annotate? || a.DropFinalizer? || a.PatchCapi?
    ensures var v := DoWriteCapi(w, k, a);
            k in v.imports ==> v.imports[k].Inside? && StageOk(v.capis, v.ranchers, k, v.imports[k])
  {
    hide OwnChange, Evolves, OnlyAt, NoneOwned, NoLive, SendCapiPatch, SendWithout;
    assert StageOk(w.capis, w.ranchers, k, w.imports[k]);
  }

  lemma DeleteStage(w: World, k: Key, a: Action)
    requires StagesOk(w) && Enabled(w.imports, k, a) && a.DeleteDependents?
    ensures var v := DoWriteRancher(w, k, a);
            k in v.imports && v.imports[k].Inside? && StageOk(v.capis, v.ranchers, k, v.imports[k])
  {
    hide Evolves, OnlyAt, NoneOwned, SendWithout, SendRancherPatch, Insert, NewRancher;
    assert StageOk(w.capis, w.ranchers, k, w.imports[k]);
  }

  lemma LastWriteStage(w: World, k: Key, a: Action)
    requires StagesOk(w) && Enabled(w.imports, k, a)
    requires a.ReleaseRancher? || a.CreateRancher? || a.PatchRancher?
    requires a.CreateRancher? || NoNewOwned(w.ranchers, DoWriteRancher(w, k, a).ranchers)
    ensures var v := DoWriteRancher(w, k, a);
            k in v.imports && v.imports[k].Inside? && StageOk(v.capis, v.ranchers, k, v.imports[k])
  {
    hide OwnChange, NoneOwned, SendWithout, SendRancherPatch, Insert, NewRancher, DoDeleteDependents;
    assert StageOk(w.capis, w.ranchers, k, w.imports[k]);
  }

  lemma WriteRancherStage(w: World, k: Key, a: Action)
    requires StagesOk(w) && Enabled(w.imports, k, a)
    requires a.ReleaseRancher? || a.DeleteDependents? || a.CreateRancher? || a.PatchRancher?
    requires a.CreateRancher? || NoNewOwned(w.ranchers, DoWriteRancher(w, k, a).ranchers)
    ensures var v := DoWriteRancher(w, k, a);
            k in v.imports && v.imports[k].Inside? && StageOk(v.capis, v.ranchers, k, v.imports[k])
  {
    hide DoWriteRancher, StagesOk, StageOk, NoNewOwned;
    if a.DeleteDependents? {
      DeleteStage(w, k, a);
    } else {
      LastWriteStage(w, k, a);
    }
  }

  lemma FreshOwn(w: World, k: Key, a: Action)
    requires FreshInv(w) && FreshStep(w, Import(k, a)) && Enabled(w.imports, k, a)
    ensures FreshInv(Do(w, k, a))
  {
    hide Evolves, Sound, DoOutside, DoRead, DoWriteCapi, DoWriteRancher, MemoryInv, FreshRead;
    var v := Do(w, k, a);
    FreshIsCached(w, Import(k, a));
    MemoryStep(w, Import(k, a));
    FinalizerLeavesLast(w, k, a);
    if a.CreateRancher? {
      CreateKeepsUnique(w, k, a);
    } else {
      OwnKeepsOwned(w, k, a);
    }
    assert Unique(v.ranchers) && NoOrphan(v.capis, v.ranchers);
    forall j | j in v.imports && v.imports[j].Inside?
      ensures StageOk(v.capis, v.ranchers, j, v.imports[j])
    {
      if j != k {
        assert StageOk(w.capis, w.ranchers, j, w.imports[j]);
      } else if a.Begin? || a.ReadAgain? || a.AddFinalizer? || a.Crash? {
        OutsideStage(w, k, a);
      } else if a.List? || a.Recheck? || a.CheckNamespace? || a.Work? {
        ReadStage(w, k, a);
      } else if a.Annotate? || a.DropFinalizer? || a.PatchCapi? {
        WriteCapiStage(w, k, a);
      } else {
        WriteRancherStage(w, k, a);
      }
    }
  }

  lemma FreshInvStep(w: World, s: Step)
    requires FreshInv(w) && FreshStep(w, s)
    ensures FreshInv(Apply(w, s))
  {
    hide DoOther, DoOutside, DoRead, DoWriteCapi, DoWriteRancher, MemoryInv, FreshRead;
    FreshIsCached(w, s);
    MemoryStep(w, s);
    if s.Import? {
      if Enabled(w.imports, s.k, s.act) {
        FreshOwn(w, s.k, s.act);
      }
    } else {
      OtherKeepsOwned(w, s);
    }
  }

  lemma {:induction false} FreshInvRun(w: World, steps: seq<Step>)
    requires FreshInv(w) && FreshRun(w, steps)
    ensures FreshInv(Exec(w, steps))
    decreases |steps|
  {
    if steps != [] {
      FreshInvStep(w, steps[0]);
      FreshInvRun(Apply(w, steps[0]), steps[1..]);
    }
  }

  lemma InitialIsFresh(w: World)
    requires Initial(w)
    ensures FreshInv(w)
  {
  }

  /** In every reachable state an owned Rancher cluster that is not being deleted has a CAPI cluster that
      exists and holds the turtles finalizer. */
  lemma NoOrphans(w: World, steps: seq<Step>, r: string)
    requires Initial(w) && FreshRun(w, steps)
    requires var v := Exec(w, steps);
             r in v.ranchers.objs && v.ranchers.objs[r].spec.owner.Some? && !v.ranchers.objs[r].deleting
    ensures var v := Exec(w, steps); var k := v.ranchers.objs[r].spec.owner.value;
            k in v.capis.objs && Turtles in v.capis.objs[k].finalizers
  {
    InitialIsFresh(w);
    FreshInvRun(w, steps);
  }
}
