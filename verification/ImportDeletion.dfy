/** Deletion finishes from wherever a crash left it, except where the early returns of Reconcile stand in the
    way. */
module ImportDeletion {
  import opened Wrappers
  import opened Network
  import opened Tables
  import opened Downstream
  import opened ImportProtocol
  import opened ImportSafety
  import opened ImportQuiet

  /** A CAPI cluster under deletion no longer holds the turtles finalizer. */
  ghost predicate CapiReleased(t: CapiTable, k: Key) {
    k in t.objs && t.objs[k].deleting ==> Turtles !in t.objs[k].finalizers
  }

  ghost predicate RanchersReleased(t: RancherTable, k: Key) {
    forall r | r in OwnedNames(t, k) && t.objs[r].deleting :: Turtles !in t.objs[r].finalizers
  }

  /** Nothing of `k` is held in deletion by turtles. */
  ghost predicate Settled(w: World, k: Key) {
    CapiReleased(w.capis, k) && RanchersReleased(w.ranchers, k)
  }

  /** The CAPI cluster is being deleted and held, while Reconcile returns before it looks at the deletion. */
  ghost predicate Stuck(t: CapiTable, k: Key) {
    && k in t.objs && t.objs[k].deleting && Turtles in t.objs[k].finalizers
    && (t.objs[k].spec.imported.Some? || !t.objs[k].spec.controlPlane)
  }

  lemma AddFinalizerReleased(t: CapiTable, k: Key, c: Capi)
    requires CapiReleased(t, k)
    ensures CapiReleased(SendFinalizer(t, k, c).0, k)
  {
    hide Evolves, OnlyAt;
  }

  lemma WriteCapiReleased(w: World, k: Key, a: Action)
    requires Enabled(w.imports, k, a) && CapiReleased(w.capis, k)
    requires a.Annotate? || a.DropFinalizer? || a.PatchCapi?
    ensures CapiReleased(DoWriteCapi(w, k, a).capis, k)
  {
    hide Evolves, OnlyAt;
  }

  /** No request of a reconcile puts the finalizer back on a cluster that is being deleted. */
  lemma ReleasedSticks(w: World, k: Key, a: Action)
    requires CapiReleased(w.capis, k)
    ensures CapiReleased(Do(w, k, a).capis, k)
  {
    hide OwnChange, DoRead, DoWriteCapi, DoWriteRancher, SendFinalizer;
    if Enabled(w.imports, k, a) {
      if a.Annotate? || a.DropFinalizer? || a.PatchCapi? {
        WriteCapiReleased(w, k, a);
      } else if a.AddFinalizer? {
        AddFinalizerReleased(w.capis, k, w.imports[k].capi);
      }
    }
  }

  lemma {:induction false} FinishReleased(w: World, k: Key, name: string)
    requires CapiReleased(w.capis, k)
    ensures CapiReleased(Finish(w, k, name).capis, k)
    decreases RequestsLeft(w.imports, k)
  {
    hide Do, Answer;
    if k in w.imports {
      AnswerProgresses(w, k, name);
      ReleasedSticks(w, k, Answer(w, k, name));
      FinishReleased(Do(w, k, Answer(w, k, name)), k, name);
    }
  }

  /** The requests up to the one that takes the finalizer off a deleting CAPI cluster. */
  lemma DeletingListed(w: World, k: Key, name: string)
    requires k !in w.imports && k in w.capis.objs
    requires var c := w.capis.objs[k]; c.deleting && c.spec.imported.None? && c.spec.controlPlane
    ensures var c := w.capis.objs[k]; var items := OwnedList(w.ranchers, k);
            var stage := if items != [] && items[0].obj.deleting then Annotating(items[0].name, items[0].obj) else DeletingDependents;
            Reconcile(w, k, name) == Finish(Goto(w, k, Inside(c, c, stage)), k, name)
  {
    hide OwnChange, DoWriteCapi, DoWriteRancher, SendFinalizer, OwnedList;
    var c := w.capis.objs[k];
    var w1 := Goto(w, k, Inside(c, c, Listing));
    assert w1 == Do(w, k, Begin(Lookup(w.capis, k)));
    var w2 := Do(w1, k, Answer(w1, k, name));
    assert Finish(w1, k, name) == Finish(w2, k, name);
    assert w2 == Goto(w1, k, AfterList(w.caapf, c, Some(OwnedList(w.ranchers, k))));
    assert forall l :: Goto(w1, k, l) == Goto(w, k, l);
  }

  lemma AnnotateReleases(w: World, k: Key, r: string, rc: Rancher)
    requires k in w.capis.objs && k in w.imports && w.imports[k] == Inside(w.capis.objs[k], w.capis.objs[k], Annotating(r, rc))
    ensures CapiReleased(DoWriteCapi(w, k, Annotate(Delivered)).capis, k)
  {
    hide Evolves, OnlyAt;
  }

  lemma DropReleases(w: World, k: Key)
    requires k in w.capis.objs && k in w.imports && w.imports[k].Inside?
    requires w.imports[k].base == w.capis.objs[k] && w.imports[k].stage == DroppingFinalizer
    ensures CapiReleased(DoWriteCapi(w, k, DropFinalizer(Delivered)).capis, k)
  {
    hide Evolves, OnlyAt;
  }

  lemma AnnotatingReleased(w: World, k: Key, name: string, r: string, rc: Rancher)
    requires k in w.capis.objs
    ensures var c := w.capis.objs[k];
            CapiReleased(Finish(Goto(w, k, Inside(c, c, Annotating(r, rc))), k, name).capis, k)
  {
    hide OwnChange, DoWriteCapi, DoRead, DoOutside, DoWriteRancher, CapiReleased;
    var c := w.capis.objs[k];
    var w2 := Goto(w, k, Inside(c, c, Annotating(r, rc)));
    AnnotateReleases(w2, k, r, rc);
    var w3 := Do(w2, k, Annotate(Delivered));
    assert Finish(w2, k, name) == Finish(w3, k, name);
    FinishReleased(w3, k, name);
  }

  lemma DroppingReleased(w: World, k: Key, name: string)
    requires k in w.capis.objs
    ensures var c := w.capis.objs[k];
            CapiReleased(Finish(Goto(w, k, Inside(c, c, DroppingFinalizer)), k, name).capis, k)
  {
    hide OwnChange, DoWriteCapi, DoRead, DoOutside, DoWriteRancher, CapiReleased;
    var c := w.capis.objs[k];
    var w3 := Goto(w, k, Inside(c, c, DroppingFinalizer));
    DropReleases(w3, k);
    var w4 := Do(w3, k, DropFinalizer(Delivered));
    assert Finish(w3, k, name) == Finish(w4, k, name);
    FinishReleased(w4, k, name);
  }

  lemma DependentsDeleted(w: World, k: Key, name: string, c: Capi)
    ensures var t := DeleteMany(w.ranchers, OwnedNames(w.ranchers, k));
            Finish(Goto(w, k, Inside(c, c, DeletingDependents)), k, name) ==
            Finish(Goto(w.(ranchers := t), k, Inside(c, c, DroppingFinalizer)), k, name)
  {
    hide OwnChange, DoWriteCapi, DoRead, DoOutside, DeleteMany;
    var t := DeleteMany(w.ranchers, OwnedNames(w.ranchers, k));
    var w2 := Goto(w, k, Inside(c, c, DeletingDependents));
    var w3 := Do(w2, k, DeleteDependents(Delivered, {}));
    assert Finish(w2, k, name) == Finish(w3, k, name);
    assert w3 == Goto(w.(ranchers := t), k, Inside(c, c, DroppingFinalizer));
  }

  lemma DeletingReleased(w: World, k: Key, name: string)
    requires k !in w.imports && k in w.capis.objs
    requires var c := w.capis.objs[k]; c.deleting && c.spec.imported.None? && c.spec.controlPlane
    ensures CapiReleased(Reconcile(w, k, name).capis, k)
  {
    hide Do, OwnedList, Reconcile, Finish, DeleteMany, CapiReleased, Goto;
    var c := w.capis.objs[k];
    var items := OwnedList(w.ranchers, k);
    DeletingListed(w, k, name);
    if items != [] && items[0].obj.deleting {
      AnnotatingReleased(w, k, name, items[0].name, items[0].obj);
    } else {
      DependentsDeleted(w, k, name, c);
      DroppingReleased(w.(ranchers := DeleteMany(w.ranchers, OwnedNames(w.ranchers, k))), k, name);
    }
  }

  /** The early returns: nothing is written for a deleting cluster that is annotated or has no control plane. */
  lemma DeletingIgnored(w: World, k: Key, name: string)
    requires k !in w.imports && k in w.capis.objs
    requires var c := w.capis.objs[k]; c.deleting && (c.spec.imported.Some? || !c.spec.controlPlane)
    ensures Reconcile(w, k, name) == w
  {
    hide OwnChange, DoRead, DoWriteCapi, DoWriteRancher, DoAddFinalizer;
    assert w.imports - {k} == w.imports;
  }

  // --- The cleanup controller ---

  ghost function Cleanup(w: World, r: string): World {
    Apply(Apply(w, CleanupRead(r, Lookup(w.ranchers, r))), CleanupPatch(r, Delivered))
  }

  ghost function CleanupOwned(w: World, k: Key): World {
    if OwnedNames(w.ranchers, k) == {} then w else Cleanup(w, OwnedList(w.ranchers, k)[0].name)
  }

  lemma CleanupReleases(w: World, k: Key, r: string)
    requires r !in w.cleanups && r in OwnedNames(w.ranchers, k)
    ensures var v := Cleanup(w, r);
            && v.capis == w.capis
            && (r in v.ranchers.objs && v.ranchers.objs[r].deleting ==> Turtles !in v.ranchers.objs[r].finalizers)
            && (forall q | q in OwnedNames(v.ranchers, k) :: q in OwnedNames(w.ranchers, k))
  {
    hide Evolves, Do;
  }

  lemma CleanupOwnedReleases(w: World, k: Key)
    requires Unique(w.ranchers) && OwnedNames(w.ranchers, k) !! w.cleanups.Keys
    ensures CleanupOwned(w, k).capis == w.capis && RanchersReleased(CleanupOwned(w, k).ranchers, k)
  {
    hide Cleanup;
    if OwnedNames(w.ranchers, k) != {} {
      var r := OwnedList(w.ranchers, k)[0].name;
      assert r in OwnedNames(w.ranchers, k);
      CleanupReleases(w, k, r);
      forall q | q in OwnedNames(w.ranchers, k) ensures q == r {}
    }
  }

  lemma {:induction false} FinishKeepsCleanups(w: World, k: Key, name: string)
    ensures Finish(w, k, name).cleanups == w.cleanups
    decreases RequestsLeft(w.imports, k)
  {
    hide DoOutside, DoRead, DoWriteCapi, DoWriteRancher, Answer;
    if k in w.imports {
      AnswerProgresses(w, k, name);
      FinishKeepsCleanups(Do(w, k, Answer(w, k, name)), k, name);
    }
  }

  /** From any reachable state, wherever a crash stopped the two controllers, one fault-free import reconcile
      and one cleanup reconcile leave nothing of `k` held in deletion by turtles, exactly unless the CAPI
      cluster is being deleted with the finalizer while it already carries the `imported` annotation or has no
      control plane: then Reconcile returns before it looks at the deletion. */
  lemma DeletionSettles(w: World, k: Key, name: string)
    requires FreshInv(w) && k !in w.imports && w.cleanups == map[]
    ensures Settled(CleanupOwned(Reconcile(w, k, name), k), k) <==> !Stuck(w.capis, k)
  {
    hide Do, FreshInv, RanchersReleased, CleanupOwned;
    var w1 := Do(w, k, Begin(Lookup(w.capis, k)));
    var v := Reconcile(w, k, name);
    var steps := ReconcileRuns(w, k, name);
    FinishKeepsCleanups(w1, k, name);
    assert v.cleanups == map[] by { BeginKeepsCleanups(w, k); }
    assert Unique(v.ranchers) by { FreshInvUnique(v); }
    CleanupOwnedReleases(v, k);
    if CapiReleased(w.capis, k) {
      ReleasedSticks(w, k, Begin(Lookup(w.capis, k)));
      FinishReleased(w1, k, name);
    } else if w.capis.objs[k].spec.imported.Some? || !w.capis.objs[k].spec.controlPlane {
      DeletingIgnored(w, k, name);
    } else {
      DeletingReleased(w, k, name);
    }
  }

  lemma BeginKeepsCleanups(w: World, k: Key)
    ensures Do(w, k, Begin(Lookup(w.capis, k))).cleanups == w.cleanups
  {
  }

  ghost function DeletionRounds(w: World, k: Key, name: string, n: nat): World {
    if n == 0 then w else CleanupOwned(Reconcile(DeletionRounds(w, k, name, n - 1), k, name), k)
  }

  lemma CleanupKeepsCapis(w: World, k: Key)
    ensures CleanupOwned(w, k).capis == w.capis && CleanupOwned(w, k).imports == w.imports
  {
    hide Do, SendRancherPatch;
  }

  lemma {:induction false} StuckRounds(w: World, k: Key, name: string, n: nat)
    requires Stuck(w.capis, k) && k !in w.imports
    ensures var v := DeletionRounds(w, k, name, n); v.capis == w.capis && k !in v.imports
  {
    hide CleanupOwned, Reconcile;
    if n > 0 {
      StuckRounds(w, k, name, n - 1);
      DeletingIgnored(DeletionRounds(w, k, name, n - 1), k, name);
      CleanupKeepsCapis(DeletionRounds(w, k, name, n - 1), k);
    }
  }

  /** Some number of rounds settles the deletion if and only if the CAPI cluster is not stuck; then one does. */
  lemma SettlesExactly(w: World, k: Key, name: string)
    requires FreshInv(w) && k !in w.imports && w.cleanups == map[]
    ensures (exists n: nat :: Settled(DeletionRounds(w, k, name, n), k)) <==> !Stuck(w.capis, k)
  {
    hide FreshInv, Reconcile, CleanupOwned, RanchersReleased;
    DeletionSettles(w, k, name);
    assert DeletionRounds(w, k, name, 0) == w;
    assert DeletionRounds(w, k, name, 1) == CleanupOwned(Reconcile(w, k, name), k);
    if Stuck(w.capis, k) {
      forall n: nat
        ensures !Settled(DeletionRounds(w, k, name, n), k)
      {
        StuckRounds(w, k, name, n);
      }
    } else {
      assert Settled(DeletionRounds(w, k, name, 1), k);
    }
  }

  // --- Stuck stays stuck, whatever the controllers do ---

  /** Nobody takes the annotation away, or brings the control plane back to a cluster without it. */
  ghost predicate LeavesStuck(s: Step, k: Key) {
    s.UserEdit? && s.k == k ==> s.capi.spec.imported.Some? || !s.capi.spec.controlPlane
  }

  ghost predicate AllLeaveStuck(steps: seq<Step>, k: Key) {
    forall s | s in steps :: LeavesStuck(s, k)
  }

  lemma OwnWriteStuck(w: World, k: Key, a: Action)
    requires MemoryInv(w) && Stuck(w.capis, k) && Enabled(w.imports, k, a)
    requires a.Annotate? || a.DropFinalizer? || a.PatchCapi?
    ensures DoWriteCapi(w, k, a).capis == w.capis
  {
    hide Evolves, OnlyAt, Sound, OwnChange, MarkImported;
    assert LocalGenuine(w, k, w.imports[k]);
  }

  lemma AddFinalizerStuck(t: CapiTable, k: Key, c: Capi)
    requires Stuck(t, k) && Genuine(t, k, c)
    ensures Stuck(SendFinalizer(t, k, c).0, k)
  {
    hide Evolves, OnlyAt;
  }

  lemma OwnStuck(w: World, k: Key, a: Action)
    requires MemoryInv(w) && Stuck(w.capis, k)
    ensures Stuck(Do(w, k, a).capis, k)
  {
    hide OwnChange, DoRead, DoWriteCapi, DoWriteRancher, SendFinalizer, Stuck;
    if Enabled(w.imports, k, a) {
      if a.Annotate? || a.DropFinalizer? || a.PatchCapi? {
        OwnWriteStuck(w, k, a);
      } else if a.AddFinalizer? {
        assert LocalGenuine(w, k, w.imports[k]);
        AddFinalizerStuck(w.capis, k, w.imports[k].capi);
      }
    }
  }

  lemma StuckStep(w: World, s: Step, k: Key)
    requires MemoryInv(w) && CachedStep(w, s) && Stuck(w.capis, k) && LeavesStuck(s, k)
    ensures Stuck(Apply(w, s).capis, k)
  {
    hide Do, Evolves, MemoryInv, SendRancherPatch;
    if s.Import? {
      if s.k == k {
        OwnStuck(w, k, s.act);
      } else {
        assert OnlyAt(w.capis, Do(w, s.k, s.act).capis, s.k);
      }
    }
  }

  /** However stale the caches are and whatever else happens: a stuck CAPI cluster stays in deletion and held until
      somebody takes the annotation away (or its control plane comes back). */
  lemma {:induction false} StuckForever(w: World, steps: seq<Step>, k: Key)
    requires MemoryInv(w) && CachedRun(w, steps) && Stuck(w.capis, k) && AllLeaveStuck(steps, k)
    ensures Stuck(Exec(w, steps).capis, k)
    decreases |steps|
  {
    hide Apply, MemoryInv, CachedStep, Stuck, LeavesStuck;
    if steps != [] {
      StuckStep(w, steps[0], k);
      MemoryStep(w, steps[0]);
      assert forall s | s in steps[1..] :: s in steps;
      StuckForever(Apply(w, steps[0]), steps[1..], k);
    }
  }

  // --- The exception occurs ---

  /** The import reconcile of a new cluster, up to the finalizer and a crash after it. */
  lemma HeldAfterCrash(w: World, k: Key)
    requires k !in w.imports && k in w.capis.objs
    requires var c := w.capis.objs[k]; !c.deleting && c.spec.imported.None? && Turtles !in c.finalizers && c.spec.controlPlane
    ensures var c := w.capis.objs[k];
      var w1 := Do(w, k, Begin(Some(c)));
      var w2 := Do(w1, k, ReadAgain(Some(c)));
      var w3 := Do(w2, k, AddFinalizer(Delivered, false));
      var w4 := Do(w3, k, Crash);
      && w1.capis == w2.capis == w.capis
      && k in w4.capis.objs && w4.capis.objs[k] == c.(finalizers := c.finalizers + {Turtles}, version := w4.capis.objs[k].version)
      && k !in w4.imports && w4.cleanups == w.cleanups && w4.ranchers == w.ranchers
  {
    hide OwnChange, DoRead, DoWriteCapi, DoWriteRancher, Evolves, OnlyAt;
  }

  lemma HeldRun(w: World, k: Key, c: Capi) returns (steps: seq<Step>)
    requires Initial(w) && k !in w.capis.objs
    requires c.spec.imported.None? && Turtles !in c.finalizers && c.spec.controlPlane
    ensures FreshRun(w, steps)
    ensures var v := Exec(w, steps);
      && k !in v.imports && v.cleanups == map[] && k in v.capis.objs
      && !v.capis.objs[k].deleting && Turtles in v.capis.objs[k].finalizers
  {
    hide Do, Exec, FreshRun, CachedRun, CachedStep, Evolves, OnlyAt;
    var s0 := UserCreate(k, c);
    var w0 := Apply(w, s0);
    var o := w0.capis.objs[k];
    HeldAfterCrash(w0, k);
    var w1 := Do(w0, k, Begin(Some(o)));
    var w2 := Do(w1, k, ReadAgain(Some(o)));
    var w3 := Do(w2, k, AddFinalizer(Delivered, false));
    NoSteps(Do(w3, k, Crash));
    steps := RunAfter(w3, Import(k, Crash), []);
    steps := RunAfter(w2, Import(k, AddFinalizer(Delivered, false)), steps);
    steps := RunAfter(w1, Import(k, ReadAgain(Some(o))), steps);
    steps := RunAfter(w0, Import(k, Begin(Some(o))), steps);
    steps := RunAfter(w, s0, steps);
  }

  lemma MarkedAndDeleted(w: World, k: Key) returns (steps: seq<Step>)
    requires k in w.capis.objs && !w.capis.objs[k].deleting && Turtles in w.capis.objs[k].finalizers
    ensures FreshRun(w, steps)
    ensures var v := Exec(w, steps);
      && v.imports == w.imports && v.cleanups == w.cleanups
      && Stuck(v.capis, k) && v.capis.objs[k].spec.imported == Some("true")
  {
    hide Do, Exec, FreshRun, CachedRun, CachedStep, Evolves, OnlyAt;
    var held := w.capis.objs[k];
    var s0 := UserEdit(k, held.(spec := held.spec.(imported := Some("true"))));
    var w1 := Apply(w, s0);
    NoSteps(Apply(w1, UserDelete(k)));
    steps := RunAfter(w1, UserDelete(k), []);
    steps := RunAfter(w, s0, steps);
  }

  /** A user who marks a cluster that turtles holds as imported, and then deletes it, leaves it stuck, and by
      StuckForever it stays so in every run in which the annotation is kept. */
  lemma StuckIsReachable(w: World, k: Key, c: Capi) returns (steps: seq<Step>)
    requires Initial(w) && k !in w.capis.objs
    requires c.spec.imported.None? && Turtles !in c.finalizers && c.spec.controlPlane
    ensures FreshRun(w, steps)
    ensures var v := Exec(w, steps);
      && k !in v.imports && v.cleanups == map[] && Stuck(v.capis, k) && v.capis.objs[k].spec.imported == Some("true")
      && forall more | CachedRun(v, more) && AllLeaveStuck(more, k) :: Stuck(Exec(v, more).capis, k)
  {
    hide Stuck, FreshRun, CachedRun, Exec, AllLeaveStuck;
    var a := HeldRun(w, k, c);
    var b := MarkedAndDeleted(Exec(w, a), k);
    RunThen(w, a, b);
    steps := a + b;
    var v := Exec(w, steps);
    assert MemoryInv(v) by { InitialIsFresh(w); FreshInvRun(w, steps); }
    forall more | CachedRun(v, more) && AllLeaveStuck(more, k)
      ensures Stuck(Exec(v, more).capis, k)
    {
      StuckForever(v, more, k);
    }
  }
}
