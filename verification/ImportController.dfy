/** The import and cleanup controllers (internal/controllers/import_controller.go, cleanup_controller.go),
    statement by statement, proved to follow the protocol. */
module ImportController {
  import opened Wrappers
  import opened Network
  import opened Tables
  import opened Downstream
  import opened ImportDecision
  import opened ImportManifest
  import opened ImportProtocol
  import opened ImportSafety
  import opened ImportQuiet
  import opened ImportServer
  import opened ImportRequests
  import opened ImportWrites

  // --- The registration side and the downstream cluster ---

  /** No manifest, without an error, means that its URL is not published yet. */
  method GetClusterRegistrationManifest(side: Side, name: string, faults: seq<Net>)
    returns (after: Side, docs: seq<Document>, err: bool, rest: seq<Net>)
    ensures after == side || (name !in side.tokens && docs == [] && after == side.(tokens := side.tokens + {name}))
    ensures docs != [] ==> !err && name in side.tokens && name in side.urls && side.urls[name] in side.downloads
                           && docs == side.downloads[side.urls[name]]
    ensures faults == [] ==> rest == []
    ensures faults == [] && name !in side.tokens ==> name in after.tokens && !err
    ensures faults == [] && name in side.tokens && name in side.urls && side.urls[name] != "" ==>
      if side.urls[name] in side.downloads then !err && docs == side.downloads[side.urls[name]] else err
    ensures faults == [] && name in side.tokens && (name !in side.urls || side.urls[name] == "") ==> !err && docs == []
  {
    after, docs, err := side, [], false;
    var get := First(faults);
    rest := Later(faults);
    if get != Delivered {
      return after, docs, true, rest;
    }
    if name !in side.tokens {
      var create := First(rest);
      rest := Later(rest);
      if create != Lost {
        after := side.(tokens := side.tokens + {name});
      }
      return after, docs, create != Delivered, rest;
    }
    if name !in side.urls || side.urls[name] == "" {
      return;
    }
    var download := First(rest);
    rest := Later(rest);
    if download != Delivered || side.urls[name] !in side.downloads {
      return after, docs, true, rest;
    }
    docs := side.downloads[side.urls[name]];
  }

  /** Only the token of `name` and the downstream cluster of `k` may change, the latter only when it was ready. */
  ghost predicate OnlyRegistered(side: Side, after: Side, k: Key, name: string) {
    || after == side
    || (name !in side.tokens && after == side.(tokens := side.tokens + {name}))
    || (name in side.tokens && name in side.urls && side.urls[name] in side.downloads && k in side.remotes
        && k in after.remotes && after == side.(remotes := side.remotes[k := after.remotes[k]])
        && PrefixApplied(side.remotes[k], after.remotes[k], side.downloads[side.urls[name]]))
  }

  ghost predicate PrefixApplied(remote: Remote, after: Remote, docs: seq<Document>) {
    && Check(remote, docs).Ready?
    && exists n :: 0 <= n <= |Readable(docs)| && after == remote.(objects := AddAll(remote.objects, Readable(docs)[..n]))
  }

  method Register(side: Side, k: Key, name: string, faults: seq<Net>) returns (after: Side, err: bool)
    ensures OnlyRegistered(side, after, k, name)
    ensures after.remotes != side.remotes ==> k in side.remotes && !side.remotes[k].cleanupJob
    ensures ObjectsGuarded(side, after, k)
    ensures faults == [] ==> RegistrationWork(side, k, name) == WorkResult(after, false, err)
  {
    hide Check, AddAll, Readable;
    var docs, rest;
    after, docs, err, rest := GetClusterRegistrationManifest(side, name, faults);
    if err || docs == [] {
      return;
    }
    if k !in side.remotes {
      return after, true;
    }
    var remote := new RemoteClient(side.remotes[k], rest);
    var requeue;
    requeue, err := remote.ApplyWhenReady(docs);
    after := side.(remotes := side.remotes[k := remote.remote]);
    assert after.remotes[k] == side.remotes[k] ==> after == side by { assert side.remotes[k := side.remotes[k]] == side.remotes; }
  }

  method MigrateFleet(side: Side, k: Key, faults: seq<Net>) returns (after: Side, migrated: bool, err: bool)
    ensures ObjectsGuarded(side, after, k)
    ensures after == side || (k in side.remotes && side.remotes[k].fleetAgent.Active?
                              && after == side.(remotes := side.remotes[k := side.remotes[k].(fleetAgent := Terminating)]))
    ensures migrated ==> !err && k in after.remotes && after.remotes[k].fleetAgent.Absent? && after.remotes[k].fleetSystem
    ensures faults == [] ==> FleetWork(side, k) == WorkResult(after, migrated, err)
  {
    if k !in side.remotes {
      return side, false, true;
    }
    var remote := new RemoteClient(side.remotes[k], faults);
    var requeue;
    requeue, migrated, err := remote.RemoveFleetNamespace();
    after := side.(remotes := side.remotes[k := remote.remote]);
    assert side.remotes[k := side.remotes[k]] == side.remotes;
  }

  /** What reconcileNormal does besides editing the Rancher cluster. */
  method DownstreamWork(side: Side, k: Key, fleetDisabled: bool, name: string, rancher: RancherSpec, faults: seq<Net>)
    returns (after: Side, migrated: bool, err: bool)
    ensures faults == [] ==> NormalWork(side, k, fleetDisabled, name, rancher) == WorkResult(after, migrated, err)
    ensures rancher.ready && (rancher.migrated == Some(CATTLE_FLEET_SYSTEM) || fleetDisabled) ==> after == side && !migrated && !err
    ensures !rancher.ready ==> OnlyRegistered(side, after, k, name) && !migrated
    ensures !rancher.ready && after.remotes != side.remotes ==> k in side.remotes && !side.remotes[k].cleanupJob
    ensures ObjectsGuarded(side, after, k)
    ensures migrated ==> !err && k in after.remotes && after.remotes[k].fleetAgent.Absent? && after.remotes[k].fleetSystem
  {
    hide RegistrationWork, FleetWork, OnlyRegistered;
    after, migrated, err := side, false, false;
    if rancher.ready && (rancher.migrated == Some(CATTLE_FLEET_SYSTEM) || fleetDisabled) {
      return;
    }
    if rancher.ready {
      after, migrated, err := MigrateFleet(side, k, faults);
    } else {
      after, err := Register(side, k, name, faults);
    }
  }

  /** What is not a read is fresh. */
  lemma WritesAreFresh(w: World, k: Key, a: Action, current: bool)
    requires !a.Begin? && !a.ReadAgain? && !a.List? && !a.CheckNamespace?
    ensures OwnStep(w, Import(k, a), current)
  {
    hide CachedStep;
  }

  lemma FinalizerBooked(w: World, k: Key, capi: Capi, net: Net, again: bool, name: string)
    requires k !in w.imports
    ensures var t := SendFinalizer(w.capis, k, capi); var p := Placed(w, k, Some(AddingFinalizer(capi)));
      && Do(p, k, Action.AddFinalizer(net, again)) == Placed(if net.Lost? then w else w.(capis := t.0), k, FinalizerLocal(t, k, net, again))
      && (net.Delivered? && Lookup(w.capis, k) == Some(capi) ==> Do(p, k, Action.AddFinalizer(net, again)) == Do(p, k, Answer(p, k, name)))
  {
    hide Do, Answer, SendFinalizer, Placed;
    AddFinalizerPlaced(w, k, capi, net, again);
    AddFinalizerPlaced(w, k, capi, net, false);
    AnswerPlaced(w, k, AddingFinalizer(capi), name);
    if Lookup(w.capis, k) == Some(capi) {
      FreshNeverConflicts(w.capis, k, capi);
    }
  }

  /** The outcome of one attempt to add the finalizer. */
  datatype Attempt = Added(capi: Capi) | Conflicted | GaveUp

  class CAPIImportReconciler {
    const server: ApiServer

    constructor (server: ApiServer)
      ensures this.server == server
    {
      this.server := server;
    }

    method ReadCapiAgain(k: Key, ghost name: string) returns (seen: Option<Capi>)
      requires server.Tracks(k, name, Some(ReadingAgain))
      modifies server
      ensures server.Same(old(server.start), old(server.quiet), old(server.current))
      ensures server.Tracks(k, name, if seen.None? then None else Some(AddingFinalizer(seen.value))) && server.run != []
      ensures server.quiet && seen.Some? ==> seen == Lookup(server.capis, k)
    {
      hide Do, FreshInv, Finish, Answer, Exec, OwnReads;
      ghost var l := Some(ReadingAgain);
      var failed;
      ghost var was;
      seen, failed, was := server.GetCapi(k, true, name, l);
      ReadAgainPlaced(was, k, seen);
      AnswerPlaced(was, k, ReadingAgain, name);
      server.Book(k, name, was, l, ReadAgain(seen), if seen.None? then None else Some(AddingFinalizer(seen.value)));
    }

    /** One attempt of the retry: get, AddFinalizer, update. */
    method TryAddFinalizer(k: Key, ghost name: string, again: bool) returns (attempt: Attempt)
      requires server.Tracks(k, name, Some(ReadingAgain))
      modifies server
      ensures server.Same(old(server.start), old(server.quiet), old(server.current))
      ensures server.Tracks(k, name, match attempt case Added(c) => GuardLocal(c) case Conflicted => Some(ReadingAgain) case GaveUp => None)
      ensures server.run != [] && (attempt.Conflicted? ==> again)
    {
      hide Do, FreshInv, Finish, Answer, Exec, OwnReads, OwnStep, Evolves, OnlyAt, Store;
      var seen := ReadCapiAgain(k, name);
      if seen.None? {
        return GaveUp;
      }
      var capi := seen.value;
      ghost var l := AddingFinalizer(capi);
      var net, outcome, reply, was := server.UpdateCapi(k, capi.(finalizers := capi.finalizers + {Turtles}), name, Some(l));
      FinalizerBooked(was, k, capi, net, again, name);
      WritesAreFresh(Placed(was, k, Some(l)), k, Action.AddFinalizer(net, again), server.current);
      server.Book(k, name, was, Some(l), Action.AddFinalizer(net, again), FinalizerLocal(SendFinalizer(was.capis, k, capi), k, net, again));
      attempt := if net == Delivered && outcome == Applied && reply.Some? then Added(reply.value)
                 else if net == Delivered && outcome == Conflict && again then Conflicted
                 else GaveUp;
    }

    /** RetryOnConflict around it; DefaultRetry makes five attempts. */
    method AddFinalizer(k: Key, ghost name: string) returns (attempt: Attempt)
      requires server.Tracks(k, name, Some(ReadingAgain))
      modifies server
      ensures server.Same(old(server.start), old(server.quiet), old(server.current))
      ensures server.run != [] && (attempt.Added? || attempt.GaveUp?)
      ensures server.Tracks(k, name, if attempt.Added? then GuardLocal(attempt.capi) else None)
    {
      var attempts := 0;
      attempt := Conflicted;
      while attempt.Conflicted?
        invariant 0 <= attempts <= 5 && (if attempts == 0 then attempt.Conflicted? else server.run != [])
        invariant attempt.Conflicted? ==> attempts < 5
        invariant server.Tracks(k, name, match attempt case Added(c) => GuardLocal(c) case Conflicted => Some(ReadingAgain) case GaveUp => None)
        invariant server.Same(old(server.start), old(server.quiet), old(server.current))
        decreases 5 - attempts
      {
        attempts := attempts + 1;
        attempt := TryAddFinalizer(k, name, attempts < 5);
      }
    }

    /** Annotation and finalizer removal are one patch. */
    method ReconcileDelete(k: Key, ghost name: string, base: Capi, ghost r: string, ghost rc: Rancher) returns (err: bool)
      requires server.Tracks(k, name, Some(Inside(base, base, Annotating(r, rc))))
      modifies server
      ensures server.Same(old(server.start), old(server.quiet), old(server.current))
      ensures server.Tracks(k, name, Some(Inside(base, MarkImported(base), if err then PatchingCapi else Releasing(r, rc))))
    {
      hide Do, FreshInv, Finish, Answer, Exec, OwnReads, SendCapiPatch, MarkImported, OwnStep;
      ghost var l := Inside(base, base, Annotating(r, rc));
      var net, outcome, was := server.PatchCapi(k, base, MarkImported(base), name, Some(l));
      AnnotatePlaced(was, k, base, r, rc, net);
      AnswerPlaced(was, k, l, name);
      WritesAreFresh(Placed(was, k, Some(l)), k, Annotate(net), server.current);
      server.Book(k, name, was, Some(l), Annotate(net),
                  Some(AnnotateLocal(SendCapiPatch(was.capis, k, base, MarkImported(base)), base, r, rc, net)));
      err := net != Delivered || outcome != Applied;
    }

    method ReleaseRancher(k: Key, ghost name: string, ghost base: Capi, ghost copy: Capi, r: string, rc: Rancher)
      requires server.Tracks(k, name, Some(Inside(base, copy, Releasing(r, rc))))
      modifies server
      ensures server.Same(old(server.start), old(server.quiet), old(server.current))
      ensures server.Tracks(k, name, Some(Inside(base, copy, PatchingCapi)))
    {
      hide Do, FreshInv, Finish, Answer, Exec, OwnReads, OwnStep;
      ghost var l := Inside(base, copy, Releasing(r, rc));
      var net, was := Delivered, server.Now();
      if Turtles in rc.finalizers {
        var outcome;
        net, outcome, was := server.UpdateRancher(k, r, WithoutTurtles(rc), name, Some(l));
      }
      ReleasePlaced(was, k, base, copy, r, rc, net, name);
      WritesAreFresh(Placed(was, k, Some(l)), k, Action.ReleaseRancher(net), server.current);
      server.Book(k, name, was, Some(l), Action.ReleaseRancher(net), Some(Inside(base, copy, PatchingCapi)));
    }

    method DeleteDependentRancherCluster(k: Key, ghost name: string, ghost base: Capi) returns (err: bool)
      requires server.Tracks(k, name, Some(Inside(base, base, DeletingDependents)))
      modifies server
      ensures server.Same(old(server.start), old(server.quiet), old(server.current))
      ensures server.Tracks(k, name, Some(Inside(base, base, if err then PatchingCapi else DroppingFinalizer)))
    {
      hide Do, FreshInv, Finish, Answer, Exec, OwnReads, DeleteMany, OwnStep;
      ghost var l := Inside(base, base, DeletingDependents);
      var net, reached, was := server.DeleteAllOwned(k, name, Some(l));
      DeletePlaced(was, k, base, net, reached);
      AnswerPlaced(was, k, l, name);
      WritesAreFresh(Placed(was, k, Some(l)), k, DeleteDependents(net, reached), server.current);
      server.Book(k, name, was, Some(l), DeleteDependents(net, reached),
                  Some(Inside(base, base, if net.Delivered? then DroppingFinalizer else PatchingCapi)));
      err := net != Delivered;
    }

    method DropFinalizer(k: Key, ghost name: string, base: Capi)
      requires server.Tracks(k, name, Some(Inside(base, base, DroppingFinalizer)))
      modifies server
      ensures server.Same(old(server.start), old(server.quiet), old(server.current))
      ensures server.Tracks(k, name, Some(Inside(base, WithoutTurtles(base), PatchingCapi)))
    {
      hide Do, FreshInv, Finish, Answer, Exec, OwnReads, WithoutTurtles, OwnStep;
      ghost var l := Inside(base, base, DroppingFinalizer);
      var net, was := Delivered, server.Now();
      if Turtles in base.finalizers {
        var outcome, reply;
        net, outcome, reply, was := server.UpdateCapi(k, WithoutTurtles(base), name, Some(l));
      }
      DropPlaced(was, k, base, net);
      AnswerPlaced(was, k, l, name);
      WritesAreFresh(Placed(was, k, Some(l)), k, Action.DropFinalizer(net), server.current);
      server.Book(k, name, was, Some(l), Action.DropFinalizer(net), Some(Inside(base, WithoutTurtles(base), PatchingCapi)));
    }

    /** The label of the namespace decides. */
    method NamespaceAllows(k: Key, ghost name: string, ghost base: Capi, ghost copy: Capi) returns (found: bool)
      requires server.Tracks(k, name, Some(Inside(base, copy, CheckingNamespace)))
      modifies server
      ensures server.Same(old(server.start), old(server.quiet), old(server.current))
      ensures server.Tracks(k, name, Some(Inside(base, copy, if found then Creating else PatchingCapi)))
    {
      hide Do, FreshInv, Finish, Answer, Exec, OwnReads, ShouldImport;
      ghost var l := Inside(base, copy, CheckingNamespace);
      var mark, was := server.GetNamespace(k, name, Some(l));
      CheckNamespacePlaced(was, k, base, copy, mark);
      AnswerPlaced(was, k, l, name);
      found := mark.Some? && ShouldImport(mark.value).1;
      server.Book(k, name, was, Some(l), CheckNamespace(mark), Some(Inside(base, copy, if found then Creating else PatchingCapi)));
    }

    /** The uncached read replaces the CAPI cluster in memory. */
    method ShouldAutoImportUncached(k: Key, ghost name: string, ghost base: Capi, current: Capi) returns (copy: Capi, found: bool)
      requires server.Tracks(k, name, Some(Inside(base, current, Rechecking)))
      modifies server
      ensures server.Same(old(server.start), old(server.quiet), old(server.current))
      ensures server.Tracks(k, name, Some(Inside(base, copy, if found then Creating else PatchingCapi)))
    {
      hide Do, FreshInv, Finish, Answer, Exec, OwnReads, ClusterVerdict;
      ghost var l := Inside(base, current, Rechecking);
      var seen, failed, was := server.GetCapi(k, false, name, Some(l));
      ghost var net := if failed then Lost else Delivered;
      RecheckPlaced(was, k, base, current, net);
      AnswerPlaced(was, k, l, name);
      server.Book(k, name, was, Some(l), Recheck(net), Some(AfterRecheck(base, current, seen)));
      if seen.None? {
        return current, false;
      }
      copy := seen.value;
      var verdict := ClusterVerdict(copy.spec.mark, copy.spec.imported.Some?);
      found := verdict == Accept;
      if verdict == AskNamespace {
        found := NamespaceAllows(k, name, base, copy);
      }
    }

    method CreateMissing(k: Key, base: Capi, ghost copy: Capi, name: string)
      requires server.Tracks(k, name, Some(Inside(base, copy, Creating)))
      modifies server
      ensures server.Same(old(server.start), old(server.quiet), old(server.current))
      ensures server.Tracks(k, name, Some(Inside(base, copy, PatchingCapi)))
      ensures server.quiet ==>
        && (forall r | r in server.ranchers.objs && r !in old(server.ranchers).objs ::
              r == name && AsNew(k, server.caapf, base.spec, server.ranchers.objs[r]))
        && (name !in old(server.ranchers).objs ==> name in server.ranchers.objs)
    {
      hide Do, FreshInv, Finish, Answer, Exec, OwnReads, NewRancher, Insert, OwnStep, AsNew;
      ghost var l := Inside(base, copy, Creating);
      var net, outcome, was := server.CreateRancher(k, NewRancher(server.caapf, k, base.spec), name, Some(l));
      InsertedIsNew(was.ranchers, name, server.caapf, k, base.spec);
      CreatePlaced(was, k, base, copy, net, name);
      WritesAreFresh(Placed(was, k, Some(l)), k, Action.CreateRancher(net, name), server.current);
      server.Book(k, name, was, Some(l), Action.CreateRancher(net, name), Some(Inside(base, copy, PatchingCapi)));
    }

    /** What a reconcile of an existing Rancher cluster does besides editing it. */
    method WorkOn(k: Key, ghost name: string, ghost base: Capi, copy: Capi, r: string, ghost rc: Rancher, edited: Rancher)
      returns (migrated: bool, err: bool, ghost met: Side)
      requires server.Tracks(k, name, Some(Inside(base, copy, Working(r, rc, edited))))
      modifies server
      ensures server.Same(old(server.start), old(server.quiet), old(server.current))
      ensures server.Tracks(k, name, Some(WorkLocal(base, copy, r, rc, edited, migrated, err)))
      ensures ObjectsGuarded(met, server.side, k) && (server.quiet ==> met == old(server.side))
    {
      hide Do, FreshInv, Finish, Answer, Exec, OwnReads, NormalWork, OnlyRegistered, OwnStep, ObjectsGuarded;
      ghost var l := Inside(base, copy, Working(r, rc, edited));
      var net := server.Interlude(k, name, Some(l));
      ghost var was := server.Now();
      met := server.side;
      var side;
      side, migrated, err := DownstreamWork(server.side, k, copy.spec.fleetDisabled, r, edited.spec, server.faults);
      server.side := side;
      assert server.Now() == was.(side := side);
      WorkPlaced(was, k, base, copy, r, rc, edited, side, migrated, err);
      AnswerPlaced(was, k, l, name);
      WritesAreFresh(Placed(was, k, Some(l)), k, Work(side, migrated, err), server.current);
      server.Book(k, name, was, Some(l), Work(side, migrated, err), Some(WorkLocal(base, copy, r, rc, edited, migrated, err)));
    }

    method PatchRancher(k: Key, ghost name: string, ghost base: Capi, ghost copy: Capi, r: string, rc: Rancher, edited: Rancher)
      requires server.Tracks(k, name, Some(Inside(base, copy, PatchingRancher(r, rc, edited))))
      modifies server
      ensures server.Same(old(server.start), old(server.quiet), old(server.current))
      ensures server.Tracks(k, name, Some(Inside(base, copy, PatchingCapi)))
    {
      hide Do, FreshInv, Finish, Answer, Exec, OwnReads, SendRancherPatch, OwnStep;
      ghost var l := Inside(base, copy, PatchingRancher(r, rc, edited));
      var net, outcome, was := server.PatchRancher(k, r, rc, edited, name, Some(l));
      RancherPatchPlaced(was, k, base, copy, r, rc, edited, net, name);
      WritesAreFresh(Placed(was, k, Some(l)), k, Action.PatchRancher(net), server.current);
      server.Book(k, name, was, Some(l), Action.PatchRancher(net), Some(Inside(base, copy, PatchingCapi)));
    }

    /** reconcileNormal with the deferred patch of reconcile. */
    method ReconcileNormal(k: Key, name: string, base: Capi, found: Option<Found>) returns (copy: Capi)
      requires server.Tracks(k, name, Some(Inside(base, WithoutFleetAddon(server.caapf, base),
                 if found.None? then Rechecking
                 else Working(found.value.name, found.value.obj, Decorate(server.caapf, found.value.obj)))))
      modifies server
      ensures server.Same(old(server.start), old(server.quiet), old(server.current))
      ensures server.Tracks(k, name, Some(Inside(base, copy, PatchingCapi)))
    {
      hide Decorate;
      copy := WithoutFleetAddon(server.caapf, base);
      if found.None? {
        var wanted;
        copy, wanted := ShouldAutoImportUncached(k, name, base, copy);
        if wanted {
          CreateMissing(k, base, copy, name);
        }
        return;
      }
      var r, rc, edited := found.value.name, found.value.obj, Decorate(server.caapf, found.value.obj);
      var migrated, err, met := WorkOn(k, name, base, copy, r, rc, edited);
      if !err {
        edited := Migrated(edited, migrated);
        PatchRancher(k, name, base, copy, r, rc, edited);
      }
    }

    method ListOwnedClusters(k: Key, ghost name: string, ghost base: Capi) returns (items: Option<seq<Found>>)
      requires server.Tracks(k, name, Some(Inside(base, base, Listing)))
      modifies server
      ensures server.Same(old(server.start), old(server.quiet), old(server.current))
      ensures server.Tracks(k, name, Some(AfterList(server.caapf, base, items)))
    {
      hide Do, Finish, Answer, Exec, OwnReads, AfterList, Complete, MemoryInv, NoOrphan, StagesOk, Unique;
      ghost var l := Inside(base, base, Listing);
      ghost var was;
      items, was := server.ListRanchers(k, name, Some(l));
      ListPlaced(was, k, base, items);
      ListPlaced(was, k, base, Some(OwnedList(was.ranchers, k)));
      AnswerPlaced(was, k, l, name);
      if server.quiet {
        ListSame(was, k, base, items.value);
      }
      server.Book(k, name, was, Some(l), Action.List(items), Some(AfterList(was.caapf, base, items)));
    }

    /** reconcile, with what it leaves of the CAPI cluster in memory. */
    method ReconcileCluster(k: Key, name: string, base: Capi) returns (copy: Capi)
      requires server.Tracks(k, name, Some(Inside(base, base, Listing)))
      modifies server
      ensures server.Same(old(server.start), old(server.quiet), old(server.current))
      ensures server.Tracks(k, name, Some(Inside(base, copy, PatchingCapi)))
    {
      hide MarkImported, WithoutTurtles, Decorate;
      copy := base;
      var items := ListOwnedClusters(k, name, base);
      if items.None? {
        return;
      }
      var found := if items.value == [] then None else Some(items.value[0]);
      if found.Some? && found.value.obj.deleting {
        var err := ReconcileDelete(k, name, base, found.value.name, found.value.obj);
        copy := MarkImported(base);
        if !err {
          ReleaseRancher(k, name, base, copy, found.value.name, found.value.obj);
        }
        return;
      }
      if base.deleting {
        var err := DeleteDependentRancherCluster(k, name, base);
        if !err {
          DropFinalizer(k, name, base);
          copy := WithoutTurtles(base);
        }
        return;
      }
      copy := ReconcileNormal(k, name, base, found);
    }

    method PatchCluster(k: Key, ghost name: string, base: Capi, copy: Capi)
      requires server.Tracks(k, name, Some(Inside(base, copy, PatchingCapi)))
      modifies server
      ensures server.Same(old(server.start), old(server.quiet), old(server.current))
      ensures server.Tracks(k, name, None) && server.run != []
    {
      hide Do, FreshInv, Finish, Answer, Exec, OwnReads, SendCapiPatch, OwnStep;
      ghost var l := Inside(base, copy, PatchingCapi);
      var net, outcome, was := server.PatchCapi(k, base, copy, name, Some(l));
      PatchCapiPlaced(was, k, base, copy, net);
      AnswerPlaced(was, k, l, name);
      WritesAreFresh(Placed(was, k, Some(l)), k, Action.PatchCapi(net), server.current);
      server.Book(k, name, was, Some(l), Action.PatchCapi(net), None);
    }

    /** Get, the missing finalizer, and the two early returns. */
    method PassGuards(k: Key, ghost name: string) returns (base: Option<Capi>)
      requires server.Tracks(k, name, None) && (server.quiet ==> server.run == [] && server.start == server.Now())
      modifies server
      ensures server.Same(old(server.start), old(server.quiet), old(server.current))
      ensures server.Tracks(k, name, if base.None? then None else Some(Inside(base.value, base.value, Listing)))
      ensures server.run != []
    {
      hide Do, FreshInv, Finish, Answer, Exec, OwnReads;
      var seen, failed, was := server.GetCapi(k, true, name, None);
      BeginPlaced(was, k, seen);
      server.Book(k, name, was, None, Begin(seen), BeginLocal(seen));
      if seen.None? {
        return None;
      }
      var capi := seen.value;
      if !capi.deleting && capi.spec.imported.None? && Turtles !in capi.finalizers {
        var attempt := AddFinalizer(k, name);
        if attempt.GaveUp? {
          return None;
        }
        capi := attempt.capi;
      }
      base := if !capi.spec.controlPlane || capi.spec.imported.Some? then None else Some(capi);
    }

    /** Whatever others do, whichever requests fail and however stale the cache is, a reconcile is a run of the
        protocol, with fresh reads when the cache is current. Undisturbed, it computes exactly the quiet reconcile. */
    method Reconcile(k: Key, name: string)
      requires k !in server.imports
      modifies server
      ensures server.start == old(server.Now()) && k !in server.imports
      ensures server.Now() == Exec(server.start, server.run) && OwnReads(server.start, server.run, k, server.current)
      ensures server.current <==> forall t | t in old(server.turns) :: t.offer == NO_OFFER
      ensures MemoryInv(server.start) && OthersCached(server.start, server.run, k) ==> CachedRun(server.start, server.run)
      ensures server.current && FreshInv(server.start) && OthersFresh(server.start, server.run, k) ==>
        FreshRun(server.start, server.run) && FreshInv(server.Now())
      ensures FreshInv(server.start) && old(server.turns) == [] ==> server.Now() == ImportQuiet.Reconcile(server.start, k, name)
      ensures FreshInv(server.start) && old(server.turns) == [] ==>
        && ObjectsGuarded(old(server.side), server.side, k)
        && forall r | r in server.ranchers.objs && r !in old(server.ranchers).objs ::
             r == name && k in old(server.capis).objs && AsNew(k, server.caapf, old(server.capis).objs[k].spec, server.ranchers.objs[r])
    {
      hide Do, FreshInv, Answer, OwnReads, OthersFresh, FreshRun, OthersCached, CachedRun, MemoryInv, AsNew, ObjectsGuarded;
      ReconcileAddsNew(server.Now(), k, name);
      ReconcileGuards(server.Now(), k, name);
      server.Open(k, name);
      var base := PassGuards(k, name);
      if base.Some? {
        var copy := ReconcileCluster(k, name, base.value);
        PatchCluster(k, name, base.value, copy);
      }
      if MemoryInv(server.start) && OthersCached(server.start, server.run, k) {
        BothCached(server.start, server.run, k, server.current);
      }
      if server.current && FreshInv(server.start) && OthersFresh(server.start, server.run, k) {
        BothFresh(server.start, server.run, k);
        FreshInvRun(server.start, server.run);
      }
    }
  }

  /** The cleanup reconcile is a run of the protocol too; `cluster` is what it read, at some time before. It marks
      nothing on the CAPI cluster. */
  method ReconcileCleanup(server: ApiServer, r: string, cluster: Rancher, net: Net)
    requires r !in server.cleanups && cluster.spec.owner.Some?
    modifies server
    ensures server.Now() == Exec(old(server.Now()), [CleanupRead(r, Some(cluster)), CleanupPatch(r, net)])
    ensures server.capis == old(server.capis) && OnlyAt(old(server.ranchers), server.ranchers, r)
    ensures !cluster.deleting || Turtles !in cluster.finalizers || net == Lost ==> server.ranchers == old(server.ranchers)
    ensures cluster.deleting && Turtles in cluster.finalizers && net != Lost && Lookup(old(server.ranchers), r) == Some(cluster) ==>
      RancherReleased(cluster, Lookup(server.ranchers, r))
  {
    hide SendRancherPatch, Evolves, OnlyAt, RancherReleased;
    ghost var w := server.Now();
    UnchangedAt(w.ranchers, r);
    if Lookup(w.ranchers, r) == Some(cluster) && Turtles in cluster.finalizers {
      CleanupPatchReleases(w.ranchers, r);
    }
    ghost var read := DoCleanupRead(w, r, Some(cluster));
    assert Exec(w, [CleanupRead(r, Some(cluster)), CleanupPatch(r, net)]) == DoCleanupPatch(read, r, net) by {
      assert [CleanupRead(r, Some(cluster)), CleanupPatch(r, net)][1..] == [CleanupPatch(r, net)];
      assert [CleanupPatch(r, net)][1..] == [];
      assert Exec(read, [CleanupPatch(r, net)]) == Exec(DoCleanupPatch(read, r, net), []);
    }
    if !cluster.deleting || Turtles !in cluster.finalizers {
      return;
    }
    assert server.cleanups[r := cluster] - {r} == server.cleanups;
    if net != Lost {
      var (ranchers, _) := SendRancherPatch(server.ranchers, r, cluster, WithoutTurtles(cluster));
      server.ranchers := ranchers;
    }
  }
}
