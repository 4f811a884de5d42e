/** A whole reconcile without faults or interference: every read is fresh and every write is answered. */
module ImportQuiet {
  import opened Wrappers
  import opened Network
  import opened Tables
  import opened Downstream
  import opened ImportDecision
  import opened ImportManifest
  import opened ImportProtocol
  import opened ImportSafety

  /** What reconcileNormal does outside the cluster tables: the registration token, the manifest and the fleet
      namespace. `migrated` says that the Rancher cluster is annotated as migrated. */
  datatype WorkResult = WorkResult(side: Side, migrated: bool, failed: bool)

  function FleetWork(side: Side, k: Key): WorkResult {
    if k !in side.remotes then WorkResult(side, false, true)
    else
      var remote := side.remotes[k];
      match remote.fleetAgent
      case Absent => WorkResult(side, remote.fleetSystem, !remote.fleetSystem)
      case _ => WorkResult(side.(remotes := side.remotes[k := remote.(fleetAgent := Terminating)]), false, false)
  }

  function RegistrationWork(side: Side, k: Key, name: string): WorkResult {
    if name !in side.tokens then WorkResult(side.(tokens := side.tokens + {name}), false, false)
    else if name !in side.urls || side.urls[name] == "" then WorkResult(side, false, false)
    else if side.urls[name] !in side.downloads then WorkResult(side, false, true)
    else
      var docs := side.downloads[side.urls[name]];
      if docs == [] then WorkResult(side, false, false)
      else if k !in side.remotes then WorkResult(side, false, true)
      else
        var remote := side.remotes[k];
        match Check(remote, docs)
        case Failed => WorkResult(side, false, true)
        case Wait => WorkResult(side, false, false)
        case Ready =>
          var applied := remote.(objects := AddAll(remote.objects, Readable(docs)));
          WorkResult(side.(remotes := side.remotes[k := applied]), false, false)
  }

  function NormalWork(side: Side, k: Key, fleetDisabled: bool, name: string, rancher: RancherSpec): WorkResult {
    if !rancher.ready then RegistrationWork(side, k, name)
    else if rancher.migrated == Some(CATTLE_FLEET_SYSTEM) || fleetDisabled then WorkResult(side, false, false)
    else FleetWork(side, k)
  }

  ghost function OwnedList(t: RancherTable, k: Key): seq<Found> {
    if OwnedNames(t, k) == {} then []
    else
      var r :| r in OwnedNames(t, k);
      [Found(r, t.objs[r])]
  }

  lemma OwnedListComplete(t: RancherTable, k: Key)
    requires Unique(t)
    ensures Complete(t, k, OwnedList(t, k))
  {
    forall r | r in OwnedNames(t, k)
      ensures OwnedList(t, k)[0].name == r
    {
      assert OwnedList(t, k)[0].name in OwnedNames(t, k);
    }
  }

  /** The request pending for `k`, answered. `name` is what the server generates for a new Rancher cluster. */
  ghost function Answer(w: World, k: Key, name: string): Action
    requires k in w.imports
  {
    AnswerFor(w, k, w.imports[k], name)
  }

  ghost function AnswerFor(w: World, k: Key, l: Local, name: string): Action {
    match l
    case ReadingAgain => ReadAgain(Lookup(w.capis, k))
    case AddingFinalizer(_) => AddFinalizer(Delivered, false)
    case Inside(base, copy, stage) =>
      match stage
      case Listing => List(Some(OwnedList(w.ranchers, k)))
      case Annotating(_, _) => Annotate(Delivered)
      case Releasing(_, _) => ReleaseRancher(Delivered)
      case DeletingDependents => DeleteDependents(Delivered, {})
      case DroppingFinalizer => DropFinalizer(Delivered)
      case Rechecking => Recheck(Delivered)
      case CheckingNamespace =>
        CheckNamespace(if k.ns in w.namespaces then Some(w.namespaces[k.ns]) else None)
      case Creating => CreateRancher(Delivered, name)
      case Working(r, _, edited) =>
        var work := NormalWork(w.side, k, copy.spec.fleetDisabled, r, edited.spec);
        Work(work.side, work.migrated, work.failed)
      case PatchingRancher(_, _, _) => PatchRancher(Delivered)
      case PatchingCapi => PatchCapi(Delivered)
  }

  function StageRank(stage: Stage): nat {
    match stage
    case Listing => 9
    case Annotating(_, _) => 8
    case Releasing(_, _) => 7
    case DeletingDependents => 8
    case DroppingFinalizer => 7
    case Rechecking => 8
    case CheckingNamespace => 7
    case Creating => 6
    case Working(_, _, _) => 8
    case PatchingRancher(_, _, _) => 7
    case PatchingCapi => 1
  }

  function RequestsLeft(imports: map<Key, Local>, k: Key): nat {
    if k !in imports then 0
    else
      match imports[k]
      case ReadingAgain => 11
      case AddingFinalizer(_) => 10
      case Inside(_, _, stage) => StageRank(stage)
  }

  lemma ReadProgresses(w: World, k: Key, a: Action)
    requires Enabled(w.imports, k, a)
    requires a.List? || a.Recheck? || a.CheckNamespace? || a.Work?
    ensures RequestsLeft(DoRead(w, k, a).imports, k) < RequestsLeft(w.imports, k)
  {
    hide Evolves, OnlyAt, ClusterVerdict, ShouldImport, Decorate;
  }

  lemma WriteCapiProgresses(w: World, k: Key, a: Action)
    requires Enabled(w.imports, k, a)
    requires a.Annotate? || a.DropFinalizer? || a.PatchCapi?
    ensures RequestsLeft(DoWriteCapi(w, k, a).imports, k) < RequestsLeft(w.imports, k)
  {
    hide Evolves, OnlyAt, SendCapiPatch, SendWithout;
  }

  lemma WriteRancherProgresses(w: World, k: Key, a: Action)
    requires Enabled(w.imports, k, a)
    requires a.ReleaseRancher? || a.DeleteDependents? || a.CreateRancher? || a.PatchRancher?
    ensures RequestsLeft(DoWriteRancher(w, k, a).imports, k) < RequestsLeft(w.imports, k)
  {
    hide Evolves, OnlyAt, SendWithout, SendRancherPatch, DeleteMany, Insert, NewRancher;
  }

  lemma AnswerProgresses(w: World, k: Key, name: string)
    requires k in w.imports
    ensures Enabled(w.imports, k, Answer(w, k, name))
    ensures RequestsLeft(Do(w, k, Answer(w, k, name)).imports, k) < RequestsLeft(w.imports, k)
  {
    hide OwnChange, DoRead, DoWriteCapi, DoWriteRancher, SendFinalizer, NormalWork, OwnedList;
    var a := Answer(w, k, name);
    if a.List? || a.Recheck? || a.CheckNamespace? || a.Work? {
      ReadProgresses(w, k, a);
    } else if a.Annotate? || a.DropFinalizer? || a.PatchCapi? {
      WriteCapiProgresses(w, k, a);
    } else if !a.ReadAgain? && !a.AddFinalizer? {
      WriteRancherProgresses(w, k, a);
    }
  }

  /** The rest of the reconcile in flight. */
  ghost function Finish(w: World, k: Key, name: string): World
    decreases RequestsLeft(w.imports, k)
  {
    if k !in w.imports then w
    else
      AnswerProgresses(w, k, name);
      Finish(Do(w, k, Answer(w, k, name)), k, name)
  }

  ghost function Reconcile(w: World, k: Key, name: string): World {
    Finish(Do(w, k, Begin(Lookup(w.capis, k))), k, name)
  }

  lemma AnswerIsFresh(w: World, k: Key, name: string)
    requires FreshInv(w) && k in w.imports
    ensures FreshStep(w, Import(k, Answer(w, k, name)))
  {
    OwnedListComplete(w.ranchers, k);
  }

  /** A quiet reconcile is a fresh run of the protocol. */
  lemma {:induction false} FinishRuns(w: World, k: Key, name: string) returns (steps: seq<Step>)
    requires FreshInv(w)
    ensures FreshRun(w, steps) && Exec(w, steps) == Finish(w, k, name)
    ensures FreshInv(Finish(w, k, name)) && k !in Finish(w, k, name).imports
    ensures forall s | s in steps :: s.Import? && s.k == k
    decreases RequestsLeft(w.imports, k)
  {
    hide Do, FreshStep, FreshInv;
    if k !in w.imports {
      steps := [];
    } else {
      var s := Import(k, Answer(w, k, name));
      AnswerProgresses(w, k, name);
      AnswerIsFresh(w, k, name);
      FreshInvStep(w, s);
      var rest := FinishRuns(Apply(w, s), k, name);
      steps := [s] + rest;
      assert steps[1..] == rest;
    }
  }

  lemma ReconcileRuns(w: World, k: Key, name: string) returns (steps: seq<Step>)
    requires FreshInv(w)
    ensures FreshRun(w, steps) && Exec(w, steps) == Reconcile(w, k, name)
    ensures FreshInv(Reconcile(w, k, name)) && k !in Reconcile(w, k, name).imports
    ensures forall s | s in steps :: s.Import? && s.k == k
  {
    hide Do, FreshInv;
    var s := Import(k, Begin(Lookup(w.capis, k)));
    FreshInvStep(w, s);
    var rest := FinishRuns(Apply(w, s), k, name);
    steps := [s] + rest;
    assert steps[1..] == rest;
  }
}
