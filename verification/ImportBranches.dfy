/** What the requests of an import reconcile lead to: the branches of Reconcile up to the finalizer, and what each
    request may write. */
module ImportBranches {
  import opened Wrappers
  import opened Network
  import opened Tables
  import opened Downstream
  import opened ImportProtocol
  import opened ImportSafety

  /** Passes both early returns, and does not need the finalizer first. */
  predicate GoesInside(c: Capi) {
    c.spec.controlPlane && c.spec.imported.None? && (c.deleting || Turtles in c.finalizers)
  }

  predicate NeedsFinalizer(c: Capi) {
    !c.deleting && c.spec.imported.None? && Turtles !in c.finalizers
  }

  /** The first read decides: to the finalizer, to reconcile, or back; nothing is written. */
  lemma BeginExactly(w: World, k: Key, seen: Option<Capi>)
    requires k !in w.imports
    ensures var v := Do(w, k, Begin(seen));
      && v == w.(imports := v.imports)
      && v.imports == (if seen.Some? && NeedsFinalizer(seen.value) then w.imports[k := ReadingAgain]
                       else if seen.Some? && GoesInside(seen.value) then w.imports[k := Inside(seen.value, seen.value, Listing)]
                       else w.imports)
  {
    hide OwnChange, DoRead, DoWriteCapi, DoWriteRancher, DoAddFinalizer;
    assert w.imports - {k} == w.imports;
  }

  /** The update is accepted: it is not lost, the cluster has not moved on, and if it is being deleted it has the
      finalizer already. */
  ghost predicate FinalizerAccepted(t: CapiTable, k: Key, c: Capi, net: Net) {
    !net.Lost? && k in t.objs && t.objs[k].version == c.version && (t.objs[k].deleting ==> Turtles in t.objs[k].finalizers)
  }

  /** The finalizer is added, to what is stored and to nothing else, exactly when the update is accepted. An answered
      one leads to reconcile exactly when the guards let the stored cluster pass, and an answered conflict exactly to
      another attempt, if there is one. */
  lemma AddFinalizerExactly(w: World, k: Key, c: Capi, net: Net, again: bool)
    requires MemoryInv(w) && k in w.imports && w.imports[k] == AddingFinalizer(c)
    ensures var v := Do(w, k, AddFinalizer(net, again));
      && (if FinalizerAccepted(w.capis, k, c, net) then
            k in v.capis.objs && v.capis.objs[k] == c.(finalizers := c.finalizers + {Turtles}, version := v.capis.objs[k].version)
          else v.capis == w.capis)
      && (k in v.imports && v.imports[k].Inside? <==>
            net.Delivered? && FinalizerAccepted(w.capis, k, c, net) && c.spec.controlPlane && c.spec.imported.None?)
      && (k in v.imports && v.imports[k].Inside? ==> v.imports[k] == Inside(v.capis.objs[k], v.capis.objs[k], Listing))
      && (k in v.imports && v.imports[k].ReadingAgain? <==>
            net.Delivered? && again && k in w.capis.objs && w.capis.objs[k].version != c.version)
  {
    hide OwnChange, Evolves, OnlyAt, SendFinalizer, MemoryInv, DoRead, DoWriteCapi, DoWriteRancher;
    assert Genuine(w.capis, k, c) by { HeldIsGenuine(w, k, c); }
    SentFinalizer(w.capis, k, c);
  }

  lemma HeldIsGenuine(w: World, k: Key, c: Capi)
    requires MemoryInv(w) && k in w.imports && w.imports[k] == AddingFinalizer(c)
    ensures Genuine(w.capis, k, c)
  {
    assert LocalGenuine(w, k, w.imports[k]);
  }

  lemma SentFinalizer(t: CapiTable, k: Key, c: Capi)
    requires Genuine(t, k, c)
    ensures var (u, r) := SendFinalizer(t, k, c);
      && (r.Applied? <==> FinalizerAccepted(t, k, c, Delivered))
      && (r.Applied? ==> k in u.objs && u.objs[k] == c.(finalizers := c.finalizers + {Turtles}, version := u.objs[k].version))
      && (r.Conflict? <==> k in t.objs && t.objs[k].version != c.version)
  {
    hide Evolves, OnlyAt;
  }

  predicate IsSingleWrite(a: Action) {
    a.AddFinalizer? || a.Annotate? || a.DropFinalizer? || a.PatchCapi? || a.ReleaseRancher? || a.CreateRancher? || a.PatchRancher?
  }

  /** Every request writes at most one kind of thing, a lost write writes nothing (DeleteAllOf apart, which reaches any
      part of its objects), and a step that answers no pending request changes nothing. */
  lemma RequestsWrite(w: World, k: Key, a: Action)
    ensures var v := Do(w, k, a);
      && (!Enabled(w.imports, k, a) ==> v == w)
      && (v.capis != w.capis ==> a.AddFinalizer? || a.Annotate? || a.DropFinalizer? || a.PatchCapi?)
      && (v.ranchers != w.ranchers ==> a.ReleaseRancher? || a.DeleteDependents? || a.CreateRancher? || a.PatchRancher?)
      && (v.side != w.side ==> a.Work?)
      && (IsSingleWrite(a) && a.net.Lost? ==> v == w.(imports := v.imports))
  {
    hide Evolves, OnlyAt, SendFinalizer, SendCapiPatch, SendWithout, SendRancherPatch, DeleteMany, Insert, NewRancher;
  }
}
