/** The import, un-import and cleanup protocol as a transition system.

    Every request a controller sends is one step, so users, Rancher, the other controller and other keys act
    between any two requests of one reconcile, and the controller may crash there. Reconciles are serialised
    per key: `imports` holds the reconcile in flight for a key, with what it keeps in memory. */
module ImportProtocol {
  import opened Wrappers
  import opened Network
  import opened Tables
  import opened Downstream
  import opened ImportDecision

  const CATTLE_FLEET_SYSTEM := "cattle-fleet-system"
  const DEFAULT_DESCRIPTION := "CAPI cluster imported to Rancher"

  /** `imported` is the value of that annotation, `mark` the value of the import label, `description` the value
      of the description annotation ("" when absent). */
  datatype CapiSpec = CapiSpec(
    imported: Option<string>,
    mark: Option<string>,
    fleetDisabled: bool,
    description: string,
    controlPlane: bool)

  /** `owner` is the key named by the three owner labels, the other options are annotation values. */
  datatype RancherSpec = RancherSpec(
    owner: Option<Key>,
    displayName: string,
    description: string,
    noCreator: Option<string>,
    external: Option<string>,
    migrated: Option<string>,
    versionManagement: Option<string>,
    ready: bool)

  type Capi = Object<CapiSpec>
  type Rancher = Object<RancherSpec>
  type CapiTable = Table<Key, CapiSpec>
  type RancherTable = Table<string, RancherSpec>

  datatype Found = Found(name: string, obj: Rancher)

  /** The request a reconcile past its guards sends next, with what it holds of a Rancher cluster. */
  datatype Stage =
    | Listing
    | Annotating(name: string, rancher: Rancher)
    | Releasing(name: string, rancher: Rancher)
    | DeletingDependents
    | DroppingFinalizer
    | Rechecking
    | CheckingNamespace
    | Creating
    | Working(name: string, rancher: Rancher, edited: Rancher)
    | PatchingRancher(name: string, rancher: Rancher, edited: Rancher)
    | PatchingCapi

  /** A reconcile in flight. `base` is the CAPI cluster as it was when the guards let it pass, `copy` what the
      controller holds in memory now. */
  datatype Local =
    | ReadingAgain
    | AddingFinalizer(capi: Capi)
    | Inside(base: Capi, copy: Capi, stage: Stage)

  /** `caapf` is the use-caapf feature gate, `cleanups` holds the cleanup reconciles in flight. */
  datatype World = World(
    caapf: bool,
    capis: CapiTable,
    ranchers: RancherTable,
    namespaces: map<string, Option<string>>,
    side: Side,
    imports: map<Key, Local>,
    cleanups: map<string, Rancher>)

  /** One request of an import reconcile with its answer. */
  datatype Action =
    | Begin(seen: Option<Capi>)
    | ReadAgain(seen: Option<Capi>)
    | AddFinalizer(net: Net, again: bool)
    | List(items: Option<seq<Found>>)
    | Annotate(net: Net)
    | ReleaseRancher(net: Net)
    | DeleteDependents(net: Net, reached: set<string>)
    | DropFinalizer(net: Net)
    | Recheck(net: Net)
    | CheckNamespace(mark: Option<Option<string>>)
    | CreateRancher(net: Net, name: string)
    | Work(after: Side, migrated: bool, failed: bool)
    | PatchRancher(net: Net)
    | PatchCapi(net: Net)
    | Crash

  datatype Step =
    | Import(k: Key, act: Action)
    | CleanupRead(name: string, found: Option<Rancher>)
    | CleanupPatch(name: string, net: Net)
    | CleanupCrash(name: string)
    | UserCreate(k: Key, capi: Capi)
    | UserEdit(k: Key, capi: Capi)
    | UserDelete(k: Key)
    | LabelNamespace(ns: string, mark: Option<Option<string>>)
    | RancherAdd(name: string, rancher: Rancher)
    | RancherEdit(name: string, rancher: Rancher)
    | RancherDelete(name: string)
    | SideChange(after: Side)

  // --- What the controllers compute in memory ---

  /** One field of a merge patch: sent only when it differs from the base. */
  function Overlay<T(==)>(base: T, mine: T, stored: T): T {
    if mine == base then stored else mine
  }

  function MergeCapi(base: CapiSpec, mine: CapiSpec, stored: CapiSpec): CapiSpec {
    CapiSpec(
      Overlay(base.imported, mine.imported, stored.imported),
      Overlay(base.mark, mine.mark, stored.mark),
      Overlay(base.fleetDisabled, mine.fleetDisabled, stored.fleetDisabled),
      Overlay(base.description, mine.description, stored.description),
      Overlay(base.controlPlane, mine.controlPlane, stored.controlPlane))
  }

  function MergeRancher(base: RancherSpec, mine: RancherSpec, stored: RancherSpec): RancherSpec {
    RancherSpec(
      Overlay(base.owner, mine.owner, stored.owner),
      Overlay(base.displayName, mine.displayName, stored.displayName),
      Overlay(base.description, mine.description, stored.description),
      Overlay(base.noCreator, mine.noCreator, stored.noCreator),
      Overlay(base.external, mine.external, stored.external),
      Overlay(base.migrated, mine.migrated, stored.migrated),
      Overlay(base.versionManagement, mine.versionManagement, stored.versionManagement),
      Overlay(base.ready, mine.ready, stored.ready))
  }

  function SendCapiPatch(t: CapiTable, k: Key, base: Capi, copy: Capi): (r: (CapiTable, Outcome))
    ensures Evolves(t, r.0) && OnlyAt(t, r.0, k)
    ensures r.1 != Applied ==> r.0 == t
    ensures r.1 == Applied ==> k in t.objs && base.version == t.objs[k].version
    ensures r.1 == Applied && k in r.0.objs ==>
      && r.0.objs[k].deleting == t.objs[k].deleting
      && r.0.objs[k].finalizers == Overlay(base.finalizers, copy.finalizers, t.objs[k].finalizers)
      && r.0.objs[k].spec == MergeCapi(base.spec, copy.spec, t.objs[k].spec)
  {
    Patch(t, k, base, copy, MergeCapi(base.spec, copy.spec, if k in t.objs then t.objs[k].spec else copy.spec))
  }

  function SendRancherPatch(t: RancherTable, r: string, base: Rancher, copy: Rancher): (u: (RancherTable, Outcome))
    ensures Evolves(t, u.0) && OnlyAt(t, u.0, r)
    ensures u.1 != Applied ==> u.0 == t
    ensures u.1 == Applied ==> r in t.objs && base.version == t.objs[r].version
    ensures u.1 == Applied && r in u.0.objs ==>
      && u.0.objs[r].deleting == t.objs[r].deleting
      && u.0.objs[r].finalizers == Overlay(base.finalizers, copy.finalizers, t.objs[r].finalizers)
      && u.0.objs[r].spec == MergeRancher(base.spec, copy.spec, t.objs[r].spec)
  {
    Patch(t, r, base, copy, MergeRancher(base.spec, copy.spec, if r in t.objs then t.objs[r].spec else copy.spec))
  }

  /** reconcileExternalFleetManagement, on the CAPI cluster. */
  function WithoutFleetAddon(caapf: bool, c: Capi): Capi {
    if caapf then c else c.(finalizers := c.finalizers - {FleetAddon})
  }

  function WithoutTurtles<S>(o: Object<S>): Object<S> {
    o.(finalizers := o.finalizers - {Turtles})
  }

  /** reconcileDelete, in memory. */
  function MarkImported(c: Capi): Capi {
    WithoutTurtles(c.(spec := c.spec.(imported := Some("true"))))
  }

  /** optOutOfClusterOwner, reconcileExternalFleetManagement and AddFinalizer, on a Rancher cluster. */
  function Decorate(caapf: bool, r: Rancher): Rancher {
    r.(finalizers := r.finalizers + {Turtles},
       spec := r.spec.(
         noCreator := if r.spec.noCreator.None? then Some("true") else r.spec.noCreator,
         external := if !caapf then None else if r.spec.external.None? then Some("true") else r.spec.external))
  }

  function NewRancher(caapf: bool, k: Key, c: CapiSpec): Rancher {
    Decorate(caapf, Object(0, false, {Turtles}, RancherSpec(
      Some(k), k.name, if c.description == "" then DEFAULT_DESCRIPTION else c.description,
      None, None, Some(CATTLE_FLEET_SYSTEM), Some("false"), false)))
  }

  function OwnedNames(t: RancherTable, k: Key): set<string> {
    set r | r in t.objs && t.objs[r].spec.owner == Some(k)
  }

  /** DeleteAllOf on the named objects; deleting an object a second time changes nothing. */
  function DeleteMany(t: RancherTable, names: set<string>): (u: RancherTable)
    ensures Evolves(t, u)
    ensures forall r | r in u.objs ::
      && r in t.objs
      && u.objs[r] == t.objs[r].(version := u.objs[r].version, deleting := u.objs[r].deleting)
      && (r in names ==> u.objs[r].deleting)
      && (r !in names || t.objs[r].deleting ==> u.objs[r] == t.objs[r])
    ensures forall r | r in t.objs :: r !in u.objs <==> r in names && t.objs[r].finalizers == {}
  {
    if forall r | r in names :: r in t.objs ==> t.objs[r].deleting && t.objs[r].finalizers != {} then t
    else
      Table(map r | r in t.objs && !(r in names && t.objs[r].finalizers == {}) ::
              if r in names && !t.objs[r].deleting then t.objs[r].(version := t.next, deleting := true) else t.objs[r],
            t.next + 1)
  }

  // --- The import reconcile, one request at a time ---

  /** One request of the reconcile of `k` reaches into no other reconcile and no other CAPI cluster. */
  ghost predicate OwnChange(w: World, v: World, k: Key) {
    && Evolves(w.capis, v.capis) && OnlyAt(w.capis, v.capis, k) && Evolves(w.ranchers, v.ranchers)
    && v.caapf == w.caapf && v.namespaces == w.namespaces && v.cleanups == w.cleanups
    && forall j | j != k :: (j in v.imports <==> j in w.imports) && (j in w.imports ==> v.imports[j] == w.imports[j])
  }

  function End(w: World, k: Key): World {
    w.(imports := w.imports - {k})
  }

  function Goto(w: World, k: Key, l: Local): World {
    w.(imports := w.imports[k := l])
  }

  /** The two early returns after the finalizer was ensured. */
  function Guard(w: World, k: Key, c: Capi): World {
    if !c.spec.controlPlane || c.spec.imported.Some? then End(w, k) else Goto(w, k, Inside(c, c, Listing))
  }

  function DoBegin(w: World, k: Key, seen: Option<Capi>): (v: World)
    ensures OwnChange(w, v, k)
  {
    if seen.None? then w
    else
      var c := seen.value;
      if !c.deleting && c.spec.imported.None? && Turtles !in c.finalizers then Goto(w, k, ReadingAgain)
      else Guard(w, k, c)
  }

  function DoReadAgain(w: World, k: Key, seen: Option<Capi>): (v: World)
    ensures OwnChange(w, v, k)
  {
    if seen.None? then End(w, k) else Goto(w, k, AddingFinalizer(seen.value))
  }

  function SendFinalizer(t: CapiTable, k: Key, c: Capi): (r: (CapiTable, Outcome))
    ensures Evolves(t, r.0) && OnlyAt(t, r.0, k)
    ensures r.1 != Applied ==> r.0 == t
  {
    Update(t, k, c.(finalizers := c.finalizers + {Turtles}))
  }

  /** After the update reached the server. */
  function FinalizerSent(w: World, k: Key, outcome: Outcome, net: Net, again: bool): (v: World)
    ensures OwnChange(w, v, k) && v.capis == w.capis
  {
    if net.Unheard? then End(w, k)
    else if outcome.Applied? && k in w.capis.objs then Guard(w, k, w.capis.objs[k])
    else if outcome.Conflict? && again then Goto(w, k, ReadingAgain)
    else End(w, k)
  }

  function DoAddFinalizer(w: World, k: Key, c: Capi, net: Net, again: bool): (v: World)
    ensures OwnChange(w, v, k)
  {
    var (capis, outcome) := SendFinalizer(w.capis, k, c);
    if net.Lost? then End(w, k) else FinalizerSent(w.(capis := capis), k, outcome, net, again)
  }

  /** reconcile's choice after the list: un-import, delete the dependents, create, or carry on. */
  function AfterList(caapf: bool, c: Capi, items: Option<seq<Found>>): Local {
    if items.None? then Inside(c, c, PatchingCapi)
    else if items.value != [] && items.value[0].obj.deleting then
      Inside(c, c, Annotating(items.value[0].name, items.value[0].obj))
    else if c.deleting then Inside(c, c, DeletingDependents)
    else if items.value == [] then Inside(c, WithoutFleetAddon(caapf, c), Rechecking)
    else
      Inside(c, WithoutFleetAddon(caapf, c),
             Working(items.value[0].name, items.value[0].obj, Decorate(caapf, items.value[0].obj)))
  }

  function DoAnnotate(w: World, k: Key, base: Capi, r: string, rc: Rancher, net: Net): (v: World)
    ensures OwnChange(w, v, k)
  {
    var marked := MarkImported(base);
    var (capis, outcome) := SendCapiPatch(w.capis, k, base, marked);
    if net.Lost? then Goto(w, k, Inside(base, marked, PatchingCapi))
    else if net.Delivered? && outcome.Applied? then Goto(w.(capis := capis), k, Inside(base, marked, Releasing(r, rc)))
    else Goto(w.(capis := capis), k, Inside(base, marked, PatchingCapi))
  }

  /** Removes the turtles finalizer with an update, unless it is not there. */
  function SendWithout<K(==, !new), S(==, !new)>(t: Table<K, S>, k: K, o: Object<S>): (u: Table<K, S>)
    ensures Evolves(t, u) && OnlyAt(t, u, k)
  {
    if Turtles in o.finalizers then Update(t, k, WithoutTurtles(o)).0 else t
  }

  function DoDeleteDependents(w: World, k: Key, c: Capi, net: Net, reached: set<string>): (v: World)
    ensures OwnChange(w, v, k)
  {
    var owned := OwnedNames(w.ranchers, k);
    if net.Delivered? then Goto(w.(ranchers := DeleteMany(w.ranchers, owned)), k, Inside(c, c, DroppingFinalizer))
    else Goto(w.(ranchers := DeleteMany(w.ranchers, owned * reached)), k, Inside(c, c, PatchingCapi))
  }

  /** shouldAutoImportUncached up to the namespace read: it replaces what the controller holds in memory. */
  function AfterRecheck(base: Capi, copy: Capi, now: Option<Capi>): Local {
    if now.None? then Inside(base, copy, PatchingCapi)
    else
      match ClusterVerdict(now.value.spec.mark, now.value.spec.imported.Some?)
      case Accept => Inside(base, now.value, Creating)
      case Refuse => Inside(base, now.value, PatchingCapi)
      case AskNamespace => Inside(base, now.value, CheckingNamespace)
  }

  /** removeFleetNamespace annotates the Rancher cluster when the migration is done. */
  function Migrated(r: Rancher, migrated: bool): Rancher {
    if migrated then r.(spec := r.spec.(migrated := Some(CATTLE_FLEET_SYSTEM))) else r
  }

  function DoWork(w: World, k: Key, l: Local, side: Side, migrated: bool, failed: bool): World
    requires l.Inside? && l.stage.Working?
  {
    var next := if failed then PatchingCapi else PatchingRancher(l.stage.name, l.stage.rancher, Migrated(l.stage.edited, migrated));
    Goto(w.(side := side), k, l.(stage := next))
  }

  /** Whether the reconcile of `k` stands at the request that `a` answers; one begins only when none is in
      flight. */
  predicate Enabled(imports: map<Key, Local>, k: Key, a: Action) {
    match a
    case Begin(_) => k !in imports
    case ReadAgain(_) => k in imports && imports[k].ReadingAgain?
    case AddFinalizer(_, _) => k in imports && imports[k].AddingFinalizer?
    case Crash => k in imports
    case _ => k in imports && imports[k].Inside? && StageOf(imports[k].stage, a)
  }

  predicate StageOf(stage: Stage, a: Action) {
    match a
    case List(_) => stage.Listing?
    case Annotate(_) => stage.Annotating?
    case ReleaseRancher(_) => stage.Releasing?
    case DeleteDependents(_, _) => stage.DeletingDependents?
    case DropFinalizer(_) => stage.DroppingFinalizer?
    case Recheck(_) => stage.Rechecking?
    case CheckNamespace(_) => stage.CheckingNamespace?
    case CreateRancher(_, _) => stage.Creating?
    case Work(_, _, _) => stage.Working?
    case PatchRancher(_) => stage.PatchingRancher?
    case PatchCapi(_) => stage.PatchingCapi?
    case _ => false
  }

  function DoOutside(w: World, k: Key, a: Action): (v: World)
    requires Enabled(w.imports, k, a)
    requires a.Begin? || a.ReadAgain? || a.AddFinalizer? || a.Crash?
    ensures OwnChange(w, v, k)
    ensures v.ranchers == w.ranchers
  {
    match a
    case Begin(seen) => DoBegin(w, k, seen)
    case ReadAgain(seen) => DoReadAgain(w, k, seen)
    case AddFinalizer(net, again) => DoAddFinalizer(w, k, w.imports[k].capi, net, again)
    case Crash => End(w, k)
  }

  function DoRead(w: World, k: Key, a: Action): (v: World)
    requires Enabled(w.imports, k, a)
    requires a.List? || a.Recheck? || a.CheckNamespace? || a.Work?
    ensures OwnChange(w, v, k)
    ensures v.capis == w.capis && v.ranchers == w.ranchers
  {
    var l := w.imports[k];
    match a
    case List(items) => Goto(w, k, AfterList(w.caapf, l.base, items))
    case Recheck(net) => Goto(w, k, AfterRecheck(l.base, l.copy, if net.Delivered? then Lookup(w.capis, k) else None))
    case CheckNamespace(mark) =>
      Goto(w, k, l.(stage := if mark.Some? && ShouldImport(mark.value).1 then Creating else PatchingCapi))
    case Work(side, migrated, failed) => DoWork(w, k, l, side, migrated, failed)
  }

  function DoWriteCapi(w: World, k: Key, a: Action): (v: World)
    requires Enabled(w.imports, k, a)
    requires a.Annotate? || a.DropFinalizer? || a.PatchCapi?
    ensures OwnChange(w, v, k)
    ensures v.ranchers == w.ranchers
  {
    var l := w.imports[k];
    match a
    case Annotate(net) => DoAnnotate(w, k, l.base, l.stage.name, l.stage.rancher, net)
    case DropFinalizer(net) =>
      var after := Goto(w, k, Inside(l.base, WithoutTurtles(l.base), PatchingCapi));
      if net.Lost? then after else after.(capis := SendWithout(w.capis, k, l.base))
    case PatchCapi(net) =>
      if net.Lost? then End(w, k) else End(w.(capis := SendCapiPatch(w.capis, k, l.base, l.copy).0), k)
  }

  function DoWriteRancher(w: World, k: Key, a: Action): (v: World)
    requires Enabled(w.imports, k, a)
    requires a.ReleaseRancher? || a.DeleteDependents? || a.CreateRancher? || a.PatchRancher?
    ensures OwnChange(w, v, k)
    ensures v.capis == w.capis
  {
    var l := w.imports[k];
    var last := Goto(w, k, l.(stage := PatchingCapi));
    if a.DeleteDependents? then DoDeleteDependents(w, k, l.base, a.net, a.reached)
    else if a.net.Lost? then last
    else
      match a
      case ReleaseRancher(_) => last.(ranchers := SendWithout(w.ranchers, l.stage.name, l.stage.rancher))
      case CreateRancher(_, name) => last.(ranchers := Insert(w.ranchers, name, NewRancher(w.caapf, k, l.base.spec)).0)
      case PatchRancher(_) =>
        last.(ranchers := SendRancherPatch(w.ranchers, l.stage.name, l.stage.rancher, l.stage.edited).0)
  }

  /** A step that does not answer the pending request of its reconcile changes nothing. */
  function Do(w: World, k: Key, a: Action): (v: World)
    ensures OwnChange(w, v, k)
  {
    if !Enabled(w.imports, k, a) then w
    else if a.Begin? || a.ReadAgain? || a.AddFinalizer? || a.Crash? then DoOutside(w, k, a)
    else if a.List? || a.Recheck? || a.CheckNamespace? || a.Work? then DoRead(w, k, a)
    else if a.Annotate? || a.DropFinalizer? || a.PatchCapi? then DoWriteCapi(w, k, a)
    else DoWriteRancher(w, k, a)
  }

  // --- The cleanup reconcile, users and Rancher ---

  function DoCleanupRead(w: World, r: string, found: Option<Rancher>): World {
    if r in w.cleanups || found.None? then w
    else if found.value.spec.owner.None? || !found.value.deleting || Turtles !in found.value.finalizers then w
    else w.(cleanups := w.cleanups[r := found.value])
  }

  function DoCleanupPatch(w: World, r: string, net: Net): World {
    if r !in w.cleanups then w
    else
      var after := w.(cleanups := w.cleanups - {r});
      if net.Lost? then after
      else after.(ranchers := SendRancherPatch(w.ranchers, r, w.cleanups[r], WithoutTurtles(w.cleanups[r])).0)
  }

  function EditCapi(t: CapiTable, k: Key, c: Capi): CapiTable {
    if k in t.objs then Update(t, k, c.(version := t.objs[k].version)).0 else t
  }

  function EditRancher(t: RancherTable, r: string, o: Rancher): RancherTable {
    if r in t.objs then Update(t, r, o.(version := t.objs[r].version)).0 else t
  }

  function DoOther(w: World, s: Step): (v: World)
    requires !s.Import?
    ensures Evolves(w.capis, v.capis) && Evolves(w.ranchers, v.ranchers)
    ensures v.imports == w.imports && v.caapf == w.caapf
  {
    match s
    case CleanupRead(r, found) => DoCleanupRead(w, r, found)
    case CleanupPatch(r, net) => DoCleanupPatch(w, r, net)
    case CleanupCrash(r) => w.(cleanups := w.cleanups - {r})
    case UserCreate(k, c) => w.(capis := Insert(w.capis, k, c).0)
    case UserEdit(k, c) => w.(capis := EditCapi(w.capis, k, c))
    case UserDelete(k) => w.(capis := Delete(w.capis, k))
    case LabelNamespace(ns, mark) =>
      w.(namespaces := if mark.None? then w.namespaces - {ns} else w.namespaces[ns := mark.value])
    case RancherAdd(r, o) => w.(ranchers := Insert(w.ranchers, r, o).0)
    case RancherEdit(r, o) => w.(ranchers := EditRancher(w.ranchers, r, o))
    case RancherDelete(r) => w.(ranchers := Delete(w.ranchers, r))
    case SideChange(side) => w.(side := side)
  }

  function Apply(w: World, s: Step): World {
    if s.Import? then Do(w, s.k, s.act) else DoOther(w, s)
  }

  function Exec(w: World, steps: seq<Step>): World
    decreases |steps|
  {
    if steps == [] then w else Exec(Apply(w, steps[0]), steps[1..])
  }

  // --- What may happen ---

  /** A list answer that shows the current owned clusters of `k`, in any order. */
  ghost predicate Complete(t: RancherTable, k: Key, items: seq<Found>) {
    && (forall i | 0 <= i < |items| ::
          && items[i].name in t.objs
          && items[i].obj == t.objs[items[i].name]
          && items[i].obj.spec.owner == Some(k))
    && (forall r | r in OwnedNames(t, k) :: exists i :: 0 <= i < |items| && items[i].name == r)
  }

  /** Reads that show the current object. A read may also fail, which the controller handles like None. */
  ghost predicate FreshRead(w: World, s: Step) {
    match s
    case Import(k, Begin(seen)) => seen.Some? ==> seen == Lookup(w.capis, k)
    case Import(k, ReadAgain(seen)) => seen.Some? ==> seen == Lookup(w.capis, k)
    case Import(k, List(items)) => items.Some? ==> Complete(w.ranchers, k, items.value)
    case Import(k, CheckNamespace(mark)) => mark.Some? ==> k.ns in w.namespaces && mark.value == w.namespaces[k.ns]
    case CleanupRead(r, found) => found.Some? ==> found == Lookup(w.ranchers, r)
    case _ => true
  }

  /** Reads through the cache: any genuine object, in particular any that was stored at some time, a list of any of
      those that carry the labels, any namespace label. The read of Recheck is not cached. */
  ghost predicate CachedRead(w: World, s: Step) {
    match s
    case Import(k, Begin(seen)) => seen.Some? ==> Genuine(w.capis, k, seen.value)
    case Import(k, ReadAgain(seen)) => seen.Some? ==> Genuine(w.capis, k, seen.value)
    case Import(k, List(items)) => items.Some? ==> forall i | 0 <= i < |items.value| ::
        Genuine(w.ranchers, items.value[i].name, items.value[i].obj) && items.value[i].obj.spec.owner == Some(k)
    case CleanupRead(r, found) => found.Some? ==> Genuine(w.ranchers, r, found.value)
    case _ => true
  }

  /** Users do not strip the turtles finalizer from a CAPI cluster, and nobody but the import controller writes
      owner labels. */
  ghost predicate Honest(w: World, s: Step) {
    match s
    case UserEdit(k, c) => k in w.capis.objs && Turtles in w.capis.objs[k].finalizers ==> Turtles in c.finalizers
    case RancherAdd(_, o) => o.spec.owner.None?
    case RancherEdit(r, o) => r in w.ranchers.objs ==> o.spec.owner == w.ranchers.objs[r].spec.owner
    case _ => true
  }

  ghost predicate FreshStep(w: World, s: Step) {
    Honest(w, s) && FreshRead(w, s)
  }

  ghost predicate CachedStep(w: World, s: Step) {
    Honest(w, s) && CachedRead(w, s)
  }

  ghost predicate FreshRun(w: World, steps: seq<Step>)
    decreases |steps|
  {
    steps == [] || (FreshStep(w, steps[0]) && FreshRun(Apply(w, steps[0]), steps[1..]))
  }

  ghost predicate CachedRun(w: World, steps: seq<Step>)
    decreases |steps|
  {
    steps == [] || (CachedStep(w, steps[0]) && CachedRun(Apply(w, steps[0]), steps[1..]))
  }

  /** No reconcile is in flight and no Rancher cluster carries owner labels. */
  ghost predicate Initial(w: World) {
    && w.imports == map[] && w.cleanups == map[]
    && Sound(w.capis) && Sound(w.ranchers)
    && forall r | r in w.ranchers.objs :: w.ranchers.objs[r].spec.owner.None?
  }

  /** A step before a run. */
  lemma RunAfter(w: World, s: Step, rest: seq<Step>) returns (steps: seq<Step>)
    ensures steps == [s] + rest && Exec(w, steps) == Exec(Apply(w, s), rest)
    ensures FreshStep(w, s) && FreshRun(Apply(w, s), rest) ==> FreshRun(w, steps)
    ensures CachedStep(w, s) && CachedRun(Apply(w, s), rest) ==> CachedRun(w, steps)
  {
    hide FreshStep, CachedStep, Apply;
    steps := [s] + rest;
    assert steps[1..] == rest;
  }

  lemma NoSteps(w: World)
    ensures FreshRun(w, []) && CachedRun(w, []) && Exec(w, []) == w
  {
  }

  /** One run after another. */
  lemma {:induction false} RunThen(w: World, a: seq<Step>, b: seq<Step>)
    ensures Exec(w, a + b) == Exec(Exec(w, a), b)
    ensures FreshRun(w, a + b) <==> FreshRun(w, a) && FreshRun(Exec(w, a), b)
    ensures CachedRun(w, a + b) <==> CachedRun(w, a) && CachedRun(Exec(w, a), b)
    decreases |a|
  {
    hide FreshStep, CachedStep, Apply;
    if a == [] {
      assert a + b == b;
    } else {
      assert (a + b)[1..] == a[1..] + b;
      RunThen(Apply(w, a[0]), a[1..], b);
    }
  }
}
