/** Where each request leaves the reconcile of one key, seen from the state of everything else. */
module ImportRequests {
  import opened Wrappers
  import opened Network
  import opened Tables
  import opened Downstream
  import opened ImportDecision
  import opened ImportProtocol
  import opened ImportSafety
  import opened ImportQuiet
  import opened ImportServer

  // --- Where each request leaves the reconcile ---

  function GuardLocal(c: Capi): Option<Local> {
    if !c.spec.controlPlane || c.spec.imported.Some? then None else Some(Inside(c, c, Listing))
  }

  lemma GuardPlaced(w: World, k: Key, l: Option<Local>, c: Capi)
    requires k !in w.imports
    ensures Guard(Placed(w, k, l), k, c) == Placed(w, k, GuardLocal(c))
  {
    EndPlaced(w, k, l);
  }

  lemma EndPlaced(w: World, k: Key, l: Option<Local>)
    requires k !in w.imports
    ensures End(Placed(w, k, l), k) == w
    ensures forall m :: Goto(Placed(w, k, l), k, m) == Placed(w, k, Some(m))
  {
    assert w.imports - {k} == w.imports;
    forall m ensures Goto(Placed(w, k, l), k, m) == Placed(w, k, Some(m)) {
      if l.Some? {
        assert w.imports[k := l.value][k := m] == w.imports[k := m];
      }
    }
    if l.Some? {
      assert w.imports[k := l.value] - {k} == w.imports;
    }
  }

  function BeginLocal(seen: Option<Capi>): Option<Local> {
    if seen.None? then None
    else if !seen.value.deleting && seen.value.spec.imported.None? && Turtles !in seen.value.finalizers then Some(ReadingAgain)
    else GuardLocal(seen.value)
  }

  lemma BeginPlaced(w: World, k: Key, seen: Option<Capi>)
    requires k !in w.imports
    ensures Do(w, k, Begin(seen)) == Placed(w, k, BeginLocal(seen))
  {
    hide OwnChange, DoRead, DoWriteCapi, DoWriteRancher, DoAddFinalizer;
    if seen.Some? {
      GuardPlaced(w, k, None, seen.value);
    }
  }

  function FinalizerLocal(t: (CapiTable, Outcome), k: Key, net: Net, again: bool): Option<Local> {
    if !net.Delivered? then None
    else if t.1.Applied? && k in t.0.objs then GuardLocal(t.0.objs[k])
    else if t.1.Conflict? && again then Some(ReadingAgain)
    else None
  }

  lemma AddFinalizerPlaced(w: World, k: Key, c: Capi, net: Net, again: bool)
    requires k !in w.imports
    ensures var t := SendFinalizer(w.capis, k, c);
            Do(Placed(w, k, Some(AddingFinalizer(c))), k, AddFinalizer(net, again)) ==
            Placed(w.(capis := if net.Lost? then w.capis else t.0), k, FinalizerLocal(t, k, net, again))
  {
    hide OwnChange, DoRead, DoWriteCapi, DoWriteRancher, SendFinalizer, Guard, End, Goto;
    var l := Some(AddingFinalizer(c));
    var t := SendFinalizer(w.capis, k, c);
    EndPlaced(w, k, l);
    EndPlaced(w.(capis := t.0), k, l);
    assert Placed(w, k, l).(capis := t.0) == Placed(w.(capis := t.0), k, l) by { PlacedCapis(w, k, l, t.0); }
    if t.1.Applied? && k in t.0.objs {
      GuardPlaced(w.(capis := t.0), k, l, t.0.objs[k]);
    }
    assert k in Placed(w, k, l).imports && Placed(w, k, l).imports[k] == l.value && Placed(w, k, l).capis == w.capis by {
      PlacedCapis(w, k, l, w.capis);
    }
  }

  lemma PlacedCapis(w: World, k: Key, l: Option<Local>, t: CapiTable)
    ensures Placed(w, k, l).(capis := t) == Placed(w.(capis := t), k, l)
    ensures l.Some? ==> k in Placed(w, k, l).imports && Placed(w, k, l).imports[k] == l.value
    ensures Placed(w, k, l).capis == w.capis
  {
  }

  lemma ReadAgainPlaced(w: World, k: Key, seen: Option<Capi>)
    requires k !in w.imports
    ensures Do(Placed(w, k, Some(ReadingAgain)), k, ReadAgain(seen)) ==
            Placed(w, k, if seen.None? then None else Some(AddingFinalizer(seen.value)))
  {
    hide OwnChange, DoRead, DoWriteCapi, DoWriteRancher, DoAddFinalizer;
    EndPlaced(w, k, Some(ReadingAgain));
  }

  lemma AnswerPlaced(w: World, k: Key, l: Local, name: string)
    ensures Answer(Placed(w, k, Some(l)), k, name) == AnswerFor(w, k, l, name)
  {
    hide NormalWork, OwnedList;
  }

  lemma FreshNeverConflicts(t: CapiTable, k: Key, c: Capi)
    requires k in t.objs && c == t.objs[k]
    ensures SendFinalizer(t, k, c).1 != Conflict
  {
  }

  // --- Past the guards ---

  /** What every action inside the reconcile needs to know about where it stands. */
  lemma Standing(w: World, k: Key, l: Local)
    ensures var p := Placed(w, k, Some(l));
      && k in p.imports && p.imports[k] == l
      && p == w.(imports := p.imports)
  {
  }

  lemma Landing(w: World, k: Key, l: Local, m: Local, c: CapiTable, t: RancherTable, side: Side)
    ensures var p := Placed(w, k, Some(l));
      Goto(p.(capis := c, ranchers := t, side := side), k, m) == Placed(w.(capis := c, ranchers := t, side := side), k, Some(m))
  {
    assert w.imports[k := l][k := m] == w.imports[k := m];
  }

  lemma ListPlaced(w: World, k: Key, base: Capi, items: Option<seq<Found>>)
    ensures Do(Placed(w, k, Some(Inside(base, base, Listing))), k, List(items)) ==
            Placed(w, k, Some(AfterList(w.caapf, base, items)))
  {
    hide OwnChange, DoOutside, DoWriteCapi, DoWriteRancher, AfterList;
    var l := Inside(base, base, Listing);
    Standing(w, k, l);
    Landing(w, k, l, AfterList(w.caapf, base, items), w.capis, w.ranchers, w.side);
  }

  /** With one owned cluster at most, every complete list reads the same. */
  lemma ListSame(w: World, k: Key, base: Capi, items: seq<Found>)
    requires Unique(w.ranchers) && Complete(w.ranchers, k, items)
    ensures AfterList(w.caapf, base, Some(items)) == AfterList(w.caapf, base, Some(OwnedList(w.ranchers, k)))
  {
    hide WithoutFleetAddon, Decorate;
    var mine := OwnedList(w.ranchers, k);
    OwnedListComplete(w.ranchers, k);
    if items != [] {
      assert items[0].name in OwnedNames(w.ranchers, k);
    }
    if mine != [] {
      assert mine[0].name in OwnedNames(w.ranchers, k);
    }
  }

  function AnnotateLocal(t: (CapiTable, Outcome), base: Capi, r: string, rc: Rancher, net: Net): Local {
    Inside(base, MarkImported(base), if net.Delivered? && t.1.Applied? then Releasing(r, rc) else PatchingCapi)
  }

  lemma AnnotatePlaced(w: World, k: Key, base: Capi, r: string, rc: Rancher, net: Net)
    ensures var t := SendCapiPatch(w.capis, k, base, MarkImported(base));
            Do(Placed(w, k, Some(Inside(base, base, Annotating(r, rc)))), k, Annotate(net)) ==
            Placed(if net.Lost? then w else w.(capis := t.0), k, Some(AnnotateLocal(t, base, r, rc, net)))
  {
    hide OwnChange, DoOutside, DoRead, DoWriteRancher, SendCapiPatch, MarkImported;
    var l := Inside(base, base, Annotating(r, rc));
    var t := SendCapiPatch(w.capis, k, base, MarkImported(base));
    Standing(w, k, l);
    Landing(w, k, l, AnnotateLocal(t, base, r, rc, net), if net.Lost? then w.capis else t.0, w.ranchers, w.side);
  }

  lemma DropPlaced(w: World, k: Key, base: Capi, net: Net)
    ensures Do(Placed(w, k, Some(Inside(base, base, DroppingFinalizer))), k, DropFinalizer(net)) ==
            Placed(if net.Lost? then w else w.(capis := SendWithout(w.capis, k, base)), k,
                   Some(Inside(base, WithoutTurtles(base), PatchingCapi)))
  {
    hide OwnChange, DoOutside, DoRead, DoWriteRancher, DoAnnotate, SendWithout, WithoutTurtles;
    var l := Inside(base, base, DroppingFinalizer);
    Standing(w, k, l);
    Landing(w, k, l, Inside(base, WithoutTurtles(base), PatchingCapi),
            if net.Lost? then w.capis else SendWithout(w.capis, k, base), w.ranchers, w.side);
  }

  lemma PatchCapiPlaced(w: World, k: Key, base: Capi, copy: Capi, net: Net)
    requires k !in w.imports
    ensures Do(Placed(w, k, Some(Inside(base, copy, PatchingCapi))), k, PatchCapi(net)) ==
            if net.Lost? then w else w.(capis := SendCapiPatch(w.capis, k, base, copy).0)
  {
    hide OwnChange, DoOutside, DoRead, DoWriteRancher, DoAnnotate, SendCapiPatch;
    var l := Inside(base, copy, PatchingCapi);
    Standing(w, k, l);
    EndPlaced(w, k, Some(l));
  }

  lemma DeletePlaced(w: World, k: Key, base: Capi, net: Net, reached: set<string>)
    ensures var owned := OwnedNames(w.ranchers, k);
            var t := DeleteMany(w.ranchers, if net.Delivered? then owned else owned * reached);
            Do(Placed(w, k, Some(Inside(base, base, DeletingDependents))), k, DeleteDependents(net, reached)) ==
            Placed(w.(ranchers := t), k, Some(Inside(base, base, if net.Delivered? then DroppingFinalizer else PatchingCapi)))
  {
    hide OwnChange, DoOutside, DoRead, DoWriteCapi, DeleteMany;
    var l := Inside(base, base, DeletingDependents);
    var owned := OwnedNames(w.ranchers, k);
    var t := DeleteMany(w.ranchers, if net.Delivered? then owned else owned * reached);
    Standing(w, k, l);
    Landing(w, k, l, Inside(base, base, if net.Delivered? then DroppingFinalizer else PatchingCapi), w.capis, t, w.side);
  }

  /** The other writes to Rancher clusters end the inner part of the reconcile. */
  lemma LastWritePlaced(w: World, k: Key, base: Capi, copy: Capi, stage: Stage, a: Action)
    requires a.ReleaseRancher? || a.CreateRancher? || a.PatchRancher?
    requires StageOf(stage, a)
    ensures Do(Placed(w, k, Some(Inside(base, copy, stage))), k, a) ==
            Placed(w.(ranchers := LastWrite(w, k, base, stage, a)), k, Some(Inside(base, copy, PatchingCapi)))
  {
    hide OwnChange, DoOutside, DoRead, DoWriteCapi, SendWithout, SendRancherPatch, Insert, NewRancher, DoDeleteDependents;
    var l := Inside(base, copy, stage);
    Standing(w, k, l);
    Landing(w, k, l, Inside(base, copy, PatchingCapi), w.capis, LastWrite(w, k, base, stage, a), w.side);
  }

  function LastWrite(w: World, k: Key, base: Capi, stage: Stage, a: Action): RancherTable
    requires a.ReleaseRancher? || a.CreateRancher? || a.PatchRancher?
    requires StageOf(stage, a)
  {
    if a.net.Lost? then w.ranchers
    else
      match a
      case ReleaseRancher(_) => SendWithout(w.ranchers, stage.name, stage.rancher)
      case CreateRancher(_, name) => Insert(w.ranchers, name, NewRancher(w.caapf, k, base.spec)).0
      case PatchRancher(_) => SendRancherPatch(w.ranchers, stage.name, stage.rancher, stage.edited).0
  }

  lemma RancherPatchPlaced(w: World, k: Key, base: Capi, copy: Capi, r: string, rc: Rancher, edited: Rancher, net: Net, name: string)
    ensures var p := Placed(w, k, Some(Inside(base, copy, PatchingRancher(r, rc, edited)))); var a := Action.PatchRancher(net);
            && Do(p, k, a) == Placed(if net.Lost? then w else w.(ranchers := SendRancherPatch(w.ranchers, r, rc, edited).0), k,
                                     Some(Inside(base, copy, PatchingCapi)))
            && (net.Delivered? ==> a == Answer(p, k, name))
  {
    hide Do, SendRancherPatch, Placed;
    var stage := PatchingRancher(r, rc, edited);
    AnswerPlaced(w, k, Inside(base, copy, stage), name);
    LastWritePlaced(w, k, base, copy, stage, Action.PatchRancher(net));
  }

  lemma CreatePlaced(w: World, k: Key, base: Capi, copy: Capi, net: Net, name: string)
    ensures var p := Placed(w, k, Some(Inside(base, copy, Creating))); var a := Action.CreateRancher(net, name);
            && Do(p, k, a) == Placed(if net.Lost? then w else w.(ranchers := Insert(w.ranchers, name, NewRancher(w.caapf, k, base.spec)).0), k,
                                     Some(Inside(base, copy, PatchingCapi)))
            && (net.Delivered? ==> a == Answer(p, k, name))
  {
    hide Do, Insert, NewRancher, Placed;
    AnswerPlaced(w, k, Inside(base, copy, Creating), name);
    LastWritePlaced(w, k, base, copy, Creating, Action.CreateRancher(net, name));
  }

  lemma ReleasePlaced(w: World, k: Key, base: Capi, copy: Capi, r: string, rc: Rancher, net: Net, name: string)
    ensures var p := Placed(w, k, Some(Inside(base, copy, Releasing(r, rc)))); var a := Action.ReleaseRancher(net);
            && Do(p, k, a) == Placed(if net.Lost? then w else w.(ranchers := SendWithout(w.ranchers, r, rc)), k,
                                     Some(Inside(base, copy, PatchingCapi)))
            && (net.Delivered? ==> a == Answer(p, k, name))
  {
    hide Do, SendWithout, Placed;
    var stage := Releasing(r, rc);
    AnswerPlaced(w, k, Inside(base, copy, stage), name);
    LastWritePlaced(w, k, base, copy, stage, Action.ReleaseRancher(net));
  }

  lemma RecheckPlaced(w: World, k: Key, base: Capi, copy: Capi, net: Net)
    ensures Do(Placed(w, k, Some(Inside(base, copy, Rechecking))), k, Recheck(net)) ==
            Placed(w, k, Some(AfterRecheck(base, copy, if net.Delivered? then Lookup(w.capis, k) else None)))
  {
    hide OwnChange, DoOutside, DoWriteCapi, DoWriteRancher, AfterRecheck;
    var l := Inside(base, copy, Rechecking);
    Standing(w, k, l);
    Landing(w, k, l, AfterRecheck(base, copy, if net.Delivered? then Lookup(w.capis, k) else None), w.capis, w.ranchers, w.side);
  }

  lemma CheckNamespacePlaced(w: World, k: Key, base: Capi, copy: Capi, mark: Option<Option<string>>)
    ensures Do(Placed(w, k, Some(Inside(base, copy, CheckingNamespace))), k, CheckNamespace(mark)) ==
            Placed(w, k, Some(Inside(base, copy, if mark.Some? && ShouldImport(mark.value).1 then Creating else PatchingCapi)))
  {
    hide OwnChange, DoOutside, DoWriteCapi, DoWriteRancher, ShouldImport;
    var l := Inside(base, copy, CheckingNamespace);
    Standing(w, k, l);
    Landing(w, k, l, Inside(base, copy, if mark.Some? && ShouldImport(mark.value).1 then Creating else PatchingCapi),
            w.capis, w.ranchers, w.side);
  }

  function WorkLocal(base: Capi, copy: Capi, r: string, rc: Rancher, edited: Rancher, migrated: bool, failed: bool): Local {
    Inside(base, copy, if failed then PatchingCapi else PatchingRancher(r, rc, Migrated(edited, migrated)))
  }

  lemma WorkPlaced(w: World, k: Key, base: Capi, copy: Capi, r: string, rc: Rancher, edited: Rancher,
                   side: Side, migrated: bool, failed: bool)
    ensures Do(Placed(w, k, Some(Inside(base, copy, Working(r, rc, edited)))), k, Work(side, migrated, failed)) ==
            Placed(w.(side := side), k, Some(WorkLocal(base, copy, r, rc, edited, migrated, failed)))
  {
    hide OwnChange, DoOutside, DoWriteCapi, DoWriteRancher;
    var l := Inside(base, copy, Working(r, rc, edited));
    Standing(w, k, l);
    Landing(w, k, l, WorkLocal(base, copy, r, rc, edited, migrated, failed), w.capis, w.ranchers, side);
  }
}
