/** From the write of reconcileDelete on, a CAPI cluster is not imported again. What that write does not prevent is
    in ImportAgain. */
module ImportOnce {
  import opened Wrappers
  import opened Network
  import opened Tables
  import opened Downstream
  import opened ImportDecision
  import opened ImportProtocol
  import opened ImportSafety

  ghost predicate Imported(t: CapiTable, k: Key) {
    k in t.objs && t.objs[k].spec.imported.Some?
  }

  // --- The annotation and the finalizer change in one write ---

  lemma AddFinalizerNeverMarks(t: CapiTable, k: Key, c: Capi)
    requires Genuine(t, k, c)
    ensures Imported(SendFinalizer(t, k, c).0, k) <==> Imported(t, k)
  {
    hide Evolves, OnlyAt;
  }

  /** No own write clears the annotation, and one that sets it takes the finalizer away. */
  ghost predicate Marks(t: CapiTable, u: CapiTable, k: Key) {
    && (Imported(t, k) && k in u.objs ==> Imported(u, k))
    && (!Imported(t, k) && Imported(u, k) ==> Turtles !in u.objs[k].finalizers)
  }

  lemma PatchMarks(t: CapiTable, k: Key, base: Capi, copy: Capi)
    requires Genuine(t, k, base) && base.spec.imported.None?
    requires copy.spec.imported.Some? ==> Turtles !in copy.finalizers || Superseded(t, k, base)
    ensures Marks(t, SendCapiPatch(t, k, base, copy).0, k)
  {
    hide Evolves, OnlyAt;
  }

  lemma WithoutMarks(t: CapiTable, k: Key, base: Capi)
    requires Genuine(t, k, base) && base.spec.imported.None?
    ensures var u := SendWithout(t, k, base); Marks(t, u, k) && (Imported(u, k) ==> Imported(t, k))
  {
    hide Evolves, OnlyAt;
  }

  lemma UnchangedMarks(t: CapiTable, k: Key)
    ensures Marks(t, t, k)
  {
  }

  lemma WriteCapiMarks(w: World, k: Key, a: Action)
    requires MemoryInv(w) && Enabled(w.imports, k, a)
    requires a.Annotate? || a.DropFinalizer? || a.PatchCapi?
    ensures var d := DoWriteCapi(w, k, a).capis;
            Marks(w.capis, d, k) && (!Imported(w.capis, k) && Imported(d, k) ==> !a.DropFinalizer?)
  {
    hide OwnChange, Evolves, OnlyAt, Sound, Marks, Genuine, Superseded, SendCapiPatch, SendWithout;
    assert LocalGenuine(w, k, w.imports[k]);
    var l := w.imports[k];
    UnchangedMarks(w.capis, k);
    PatchMarks(w.capis, k, l.base, MarkImported(l.base));
    PatchMarks(w.capis, k, l.base, l.copy);
    WithoutMarks(w.capis, k, l.base);
  }

  /** Whatever the cache shows, no request of a reconcile clears the annotation; and the write that sets it is
      the one that removes the finalizer. */
  lemma MarkAndReleaseTogether(w: World, k: Key, a: Action)
    requires MemoryInv(w)
    ensures var d := Do(w, k, a).capis;
            && (Imported(w.capis, k) && k in d.objs ==> Imported(d, k))
            && (!Imported(w.capis, k) && Imported(d, k) ==>
                  Turtles !in d.objs[k].finalizers && (a.Annotate? || a.PatchCapi?))
  {
    hide Evolves, OnlyAt, DoRead, DoWriteCapi, DoWriteRancher, SendFinalizer;
    if Enabled(w.imports, k, a) {
      if a.Annotate? || a.DropFinalizer? || a.PatchCapi? {
        WriteCapiMarks(w, k, a);
      } else if a.AddFinalizer? {
        assert LocalGenuine(w, k, w.imports[k]);
        AddFinalizerNeverMarks(w.capis, k, w.imports[k].capi);
      }
    }
  }

  // --- No re-import ---

  /** The annotation is stored and no reconcile in flight is on its way to a create, or (with a cache that may
      be stale) at the create itself. */
  ghost predicate Barred(w: World, k: Key, current: bool) {
    && Imported(w.capis, k)
    && (k in w.imports && w.imports[k].Inside? ==>
          && !w.imports[k].stage.Creating?
          && (current ==> !w.imports[k].stage.Listing? && !w.imports[k].stage.Rechecking? && !w.imports[k].stage.CheckingNamespace?))
  }

  /** The CAPI cluster exists and no user takes the annotation away. */
  ghost predicate KeepsMark(w: World, s: Step, k: Key) {
    && k in Apply(w, s).capis.objs
    && (s.UserEdit? && s.k == k ==> s.capi.spec.imported.Some?)
  }

  /** A pending question for the namespace of `k` is not answered with a true import label. */
  predicate NotAdmitted(w: World, s: Step, k: Key) {
    s.Import? && s.k == k && s.act.CheckNamespace? && Enabled(w.imports, k, s.act) && s.act.mark.Some? ==>
      !ShouldImport(s.act.mark.value).1
  }

  ghost predicate Undisturbed(w: World, steps: seq<Step>, k: Key, current: bool)
    decreases |steps|
  {
    steps == [] ||
    (KeepsMark(w, steps[0], k)
     && (current || NotAdmitted(w, steps[0], k))
     && Undisturbed(Apply(w, steps[0]), steps[1..], k, current))
  }

  /** At no step does a Rancher cluster of `k` appear. */
  ghost predicate NeverGains(w: World, steps: seq<Step>, k: Key)
    decreases |steps|
  {
    steps == [] ||
    (OwnedNames(Apply(w, steps[0]).ranchers, k) <= OwnedNames(w.ranchers, k)
     && NeverGains(Apply(w, steps[0]), steps[1..], k))
  }

  /** The write of reconcileDelete bars the key. */
  lemma MarkBars(w: World, k: Key, a: Action)
    requires MemoryInv(w) && !Imported(w.capis, k) && Imported(Do(w, k, a).capis, k)
    ensures Barred(Do(w, k, a), k, true)
  {
    hide Do, MemoryInv, OwnChange;
    MarkAndReleaseTogether(w, k, a);
    assert Enabled(w.imports, k, a) by { OnlyEnabledActs(w, k, a); }
    WriteLeads(w, k, a);
  }

  lemma OnlyEnabledActs(w: World, k: Key, a: Action)
    ensures !Enabled(w.imports, k, a) ==> Do(w, k, a) == w
  {
    hide OwnChange, DoOutside, DoRead, DoWriteCapi, DoWriteRancher;
  }

  lemma OtherKeepsMark(w: World, s: Step, k: Key)
    requires !s.Import? && Imported(w.capis, k) && KeepsMark(w, s, k)
    ensures Imported(DoOther(w, s).capis, k)
  {
    hide Evolves;
  }

  /** Who passes the guards starts with the list, for the cluster that was seen, or stored with the finalizer; it is
      not annotated. */
  lemma OutsideLists(w: World, k: Key, a: Action)
    requires Enabled(w.imports, k, a)
    requires a.Begin? || a.ReadAgain? || a.AddFinalizer? || a.Crash?
    ensures var v := DoOutside(w, k, a); k in v.imports && v.imports[k].Inside? ==>
      var base := v.imports[k].base;
      && v.imports[k].stage.Listing? && base.spec.imported.None?
      && ((a.Begin? && a.seen == Some(base) && v.capis == w.capis) || Lookup(v.capis, k) == Some(base))
  {
    hide OwnChange, SendFinalizer;
  }

  lemma OutsideBarred(w: World, k: Key, a: Action, current: bool)
    requires MemoryInv(w) && Barred(w, k, current) && Enabled(w.imports, k, a)
    requires a.Begin? || a.ReadAgain? || a.AddFinalizer? || a.Crash?
    requires current ==> FreshRead(w, Import(k, a))
    requires k in DoOutside(w, k, a).capis.objs
    ensures Barred(DoOutside(w, k, a), k, current)
  {
    hide OwnChange, MemoryInv, DoOutside, DoRead, DoWriteCapi, DoWriteRancher;
    MarkAndReleaseTogether(w, k, a);
    OutsideLists(w, k, a);
  }

  lemma ReadBarred(w: World, k: Key, a: Action, current: bool)
    requires Barred(w, k, current) && Enabled(w.imports, k, a)
    requires a.List? || a.Recheck? || a.CheckNamespace? || a.Work?
    requires current || NotAdmitted(w, Import(k, a), k)
    ensures Barred(DoRead(w, k, a), k, current)
  {
    hide Evolves, OnlyAt, ParseBool, Decorate;
  }

  lemma WriteCapiBarred(w: World, k: Key, a: Action, current: bool)
    requires Barred(w, k, current) && Enabled(w.imports, k, a)
    requires a.Annotate? || a.DropFinalizer? || a.PatchCapi?
    requires Imported(DoWriteCapi(w, k, a).capis, k)
    ensures Barred(DoWriteCapi(w, k, a), k, current)
  {
    hide OwnChange, DoWriteCapi;
    WriteCapiLeads(w, k, a);
  }

  lemma WriteRancherBarred(w: World, k: Key, a: Action, current: bool)
    requires Barred(w, k, current) && Enabled(w.imports, k, a)
    requires a.ReleaseRancher? || a.DeleteDependents? || a.CreateRancher? || a.PatchRancher?
    ensures Barred(DoWriteRancher(w, k, a), k, current) && !a.CreateRancher?
  {
    hide Evolves, OnlyAt, SendWithout, SendRancherPatch, DeleteMany, Insert, NewRancher;
  }

  lemma BarredStep(w: World, s: Step, k: Key, current: bool)
    requires MemoryInv(w) && Barred(w, k, current) && CachedStep(w, s) && KeepsMark(w, s, k)
    requires if current then FreshRead(w, s) else NotAdmitted(w, s, k)
    ensures Barred(Apply(w, s), k, current)
    ensures OwnedNames(Apply(w, s).ranchers, k) <= OwnedNames(w.ranchers, k)
  {
    hide Evolves, MemoryInv, DoOther, DoOutside, DoRead, DoWriteCapi, DoWriteRancher;
    if !s.Import? {
      OtherKeepsMark(w, s, k);
      OtherKeepsOwned(w, s);
    } else if s.k != k {
      ReconcileIsIsolated(w, s.k, s.act);
    } else if Enabled(w.imports, k, s.act) {
      if s.act.Begin? || s.act.ReadAgain? || s.act.AddFinalizer? || s.act.Crash? {
        OutsideBarred(w, k, s.act, current);
      } else {
        MarkAndReleaseTogether(w, k, s.act);
        if s.act.List? || s.act.Recheck? || s.act.CheckNamespace? || s.act.Work? {
          ReadBarred(w, k, s.act, current);
        } else if s.act.Annotate? || s.act.DropFinalizer? || s.act.PatchCapi? {
          WriteCapiBarred(w, k, s.act, current);
        } else {
          WriteRancherBarred(w, k, s.act, current);
        }
      }
      OwnKeepsOwned(w, k, s.act);
    }
  }

  lemma {:induction false} BarredRun(w: World, steps: seq<Step>, k: Key, current: bool)
    requires MemoryInv(w) && Barred(w, k, current) && Undisturbed(w, steps, k, current)
    requires if current then FreshRun(w, steps) else CachedRun(w, steps)
    ensures NeverGains(w, steps, k)
    decreases |steps|
  {
    hide Apply, Barred;
    if steps != [] {
      if current {
        FreshIsCached(w, steps[0]);
      }
      BarredStep(w, steps[0], k, current);
      MemoryStep(w, steps[0]);
      BarredRun(Apply(w, steps[0]), steps[1..], k, current);
    }
  }

  /** From the write of reconcileDelete on, no Rancher cluster of that key appears until a user removes the
      annotation or the CAPI cluster is gone: for any labels when reads are fresh, and with arbitrarily stale
      cached reads when the namespace is never found with a true label. */
  lemma NoReimport(w: World, k: Key, a: Action, steps: seq<Step>, current: bool)
    requires MemoryInv(w) && CachedStep(w, Import(k, a))
    requires !Imported(w.capis, k) && Imported(Do(w, k, a).capis, k)
    requires var v := Do(w, k, a);
             Undisturbed(v, steps, k, current) && if current then FreshRun(v, steps) else CachedRun(v, steps)
    ensures NeverGains(Do(w, k, a), steps, k)
  {
    MarkBars(w, k, a);
    MemoryStep(w, Import(k, a));
    BarredRun(Do(w, k, a), steps, k, current);
  }

  // --- The Rancher finalizer goes last ---

  ghost predicate AtRelease(w: World, k: Key) {
    k in w.imports && w.imports[k].Inside? && w.imports[k].stage.Releasing?
  }

  /** The CAPI cluster is gone, or it carries the annotation and no turtles finalizer. */
  ghost predicate Unimported(t: CapiTable, k: Key) {
    k in t.objs ==> t.objs[k].spec.imported == Some("true") && Turtles !in t.objs[k].finalizers
  }

  lemma OnlyAnnotateReleases(w: World, k: Key, a: Action)
    requires Enabled(w.imports, k, a) && AtRelease(Do(w, k, a), k)
    ensures a == Annotate(Delivered)
  {
    hide Evolves, OnlyAt, OwnChange, SendCapiPatch, SendWithout, SendRancherPatch, SendFinalizer, DeleteMany, ClusterVerdict, ShouldImport, Insert, NewRancher, Decorate, MarkImported;
  }

  lemma EnterRelease(w: World, s: Step, k: Key)
    requires MemoryInv(w) && AtRelease(Apply(w, s), k) && !AtRelease(w, k)
    ensures s == Import(k, Annotate(Delivered)) && k in w.capis.objs && Unimported(Apply(w, s).capis, k)
  {
    hide Evolves, OnlyAt, Sound, DoOther, DoOutside, DoRead, DoWriteRancher, SendCapiPatch, SendWithout;
    assert s.Import? && s.k == k && Enabled(w.imports, k, s.act);
    OnlyAnnotateReleases(w, k, s.act);
    assert LocalGenuine(w, k, w.imports[k]);
  }

  /** A reconcile that is about to remove the turtles finalizer from a Rancher cluster has itself, at an earlier
      step, stored the annotation and the removal of the CAPI cluster's finalizer in one delivered write: it stands
      at the removal ever since. */
  lemma {:induction false} ReleaseFollowsStore(w: World, steps: seq<Step>, k: Key) returns (j: nat)
    requires MemoryInv(w) && CachedRun(w, steps) && !AtRelease(w, k) && AtRelease(Exec(w, steps), k)
    ensures j < |steps| && steps[j] == Import(k, Annotate(Delivered))
    ensures k in Exec(w, steps[..j]).capis.objs && Unimported(Exec(w, steps[..j + 1]).capis, k)
    ensures forall i | j < i <= |steps| :: AtRelease(Exec(w, steps[..i]), k)
    decreases |steps|
  {
    hide AtRelease, Apply, MemoryInv, CachedStep, Unimported;
    NoSteps(w);
    var n := |steps| - 1;
    var last := steps[n];
    var before := Exec(w, steps[..n]);
    assert steps == steps[..n] + [last] && steps[..|steps|] == steps;
    RunThen(w, steps[..n], [last]);
    MemoryRun(w, steps[..n]);
    var one := RunAfter(before, last, []);
    NoSteps(Apply(before, last));
    if AtRelease(before, k) {
      j := ReleaseFollowsStore(w, steps[..n], k);
      assert forall i | 0 <= i <= n :: steps[..n][..i] == steps[..i];
    } else {
      EnterRelease(before, last, k);
      j := n;
    }
  }

  /** No other request of a reconcile takes the turtles finalizer off a Rancher cluster, nor removes one that holds
      it. */
  lemma OnlyReleaseTakesFinalizer(w: World, k: Key, a: Action, r: string)
    requires MemoryInv(w) && r in w.ranchers.objs && Turtles in w.ranchers.objs[r].finalizers
    ensures var t := Do(w, k, a).ranchers;
      (r in t.objs && Turtles in t.objs[r].finalizers) || (a.ReleaseRancher? && AtRelease(w, k) && w.imports[k].stage.name == r)
  {
    hide Evolves, Sound, OnlyAt, DoOutside, DoRead, DoWriteCapi, DoWriteRancher;
    if Enabled(w.imports, k, a) && (a.ReleaseRancher? || a.DeleteDependents? || a.CreateRancher? || a.PatchRancher?) {
      WriteKeepsFinalizer(w, k, a, r);
    }
  }

  lemma WriteKeepsFinalizer(w: World, k: Key, a: Action, r: string)
    requires MemoryInv(w) && Enabled(w.imports, k, a) && r in w.ranchers.objs && Turtles in w.ranchers.objs[r].finalizers
    requires a.ReleaseRancher? || a.DeleteDependents? || a.CreateRancher? || a.PatchRancher?
    ensures var t := DoWriteRancher(w, k, a).ranchers;
      (r in t.objs && Turtles in t.objs[r].finalizers) || (a.ReleaseRancher? && AtRelease(w, k) && w.imports[k].stage.name == r)
  {
    hide Evolves, Sound, OwnChange, NewRancher, MergeRancher;
    assert LocalGenuine(w, k, w.imports[k]);
  }
}
