/** At most one Rancher cluster for each key. The lists decide: no other read has to be fresh. */
module ImportUnique {
  import opened Wrappers
  import opened Network
  import opened Tables
  import opened Downstream
  import opened ImportDecision
  import opened ImportProtocol
  import opened ImportSafety

  /** A pending list that is answered with nothing was right. */
  ghost predicate EmptyListTrue(w: World, s: Step) {
    s.Import? && s.act == List(Some([])) && Enabled(w.imports, s.k, s.act) ==> NoneOwned(w.ranchers, s.k)
  }

  ghost predicate EmptyListsTrue(w: World, steps: seq<Step>)
    decreases |steps|
  {
    steps == [] || (EmptyListTrue(w, steps[0]) && EmptyListsTrue(Apply(w, steps[0]), steps[1..]))
  }

  /** Between the list and the create a reconcile knows that nothing is owned. */
  predicate Knows(l: Local) {
    l.Inside? && (l.stage.Rechecking? || l.stage.CheckingNamespace? || l.stage.Creating?)
  }

  ghost predicate UniqueInv(w: World) {
    && MemoryInv(w) && Unique(w.ranchers)
    && forall k | k in w.imports && Knows(w.imports[k]) :: NoneOwned(w.ranchers, k)
  }

  lemma NoNewKeepsUnique(t: RancherTable, u: RancherTable)
    requires NoNewOwned(t, u)
    ensures Unique(t) ==> Unique(u)
    ensures forall k | NoneOwned(t, k) :: NoneOwned(u, k)
  {
  }

  lemma ReadKnows(w: World, k: Key, a: Action)
    requires Enabled(w.imports, k, a) && (a.List? || a.Recheck? || a.CheckNamespace? || a.Work?)
    ensures Knows(DoRead(w, k, a).imports[k]) ==> Knows(w.imports[k]) || a == List(Some([]))
  {
    hide Evolves, OnlyAt, OwnChange, ClusterVerdict, ShouldImport, Decorate, WithoutFleetAddon;
  }

  lemma OutsideKnowsNothing(w: World, k: Key, a: Action)
    requires Enabled(w.imports, k, a) && (a.Begin? || a.ReadAgain? || a.AddFinalizer? || a.Crash?)
    ensures k in DoOutside(w, k, a).imports ==> !Knows(DoOutside(w, k, a).imports[k])
  {
    hide Evolves, OnlyAt, OwnChange, SendFinalizer;
  }

  lemma OwnKnows(w: World, k: Key, a: Action)
    requires Enabled(w.imports, k, a)
    ensures k in Do(w, k, a).imports && Knows(Do(w, k, a).imports[k]) ==>
      (a.List? || a.Recheck? || a.CheckNamespace?) && (Knows(w.imports[k]) || a == List(Some([])))
  {
    hide Knows, LeadsOn, OwnChange, DoOutside, DoRead, DoWriteCapi, DoWriteRancher;
    if a.Begin? || a.ReadAgain? || a.AddFinalizer? || a.Crash? {
      OutsideKnowsNothing(w, k, a);
    } else if a.List? || a.Recheck? || a.CheckNamespace? || a.Work? {
      ReadKnows(w, k, a);
      WorkKnowsNothing(w, k, a);
    } else {
      WriteLeads(w, k, a);
      AfterWriteKnowsNothing(Do(w, k, a).imports, k, w.imports[k].base);
    }
  }

  lemma AfterWriteKnowsNothing(imports: map<Key, Local>, k: Key, base: Capi)
    requires LeadsOn(imports, k, base)
    ensures k in imports ==> !Knows(imports[k])
  {
  }

  lemma WorkKnowsNothing(w: World, k: Key, a: Action)
    requires Enabled(w.imports, k, a)
    ensures a.Work? ==> !Knows(DoRead(w, k, a).imports[k])
  {
    hide Evolves, OnlyAt, OwnChange;
  }

  lemma CreateUnique(w: World, k: Key, a: Action)
    requires UniqueInv(w) && Enabled(w.imports, k, a) && a.CreateRancher?
    ensures var t := Do(w, k, a).ranchers;
      Unique(t) && forall j | j != k && NoneOwned(w.ranchers, j) :: NoneOwned(t, j)
  {
    hide OwnChange, Evolves, OnlyAt, Unique, NoneOwned, MemoryInv, Insert, DoOutside, DoRead, DoWriteCapi, DoDeleteDependents;
    var c := w.imports[k].base.spec;
    InsertKeeps(w.ranchers, a.name, NewRancher(w.caapf, k, c), k);
  }

  lemma UniqueOwn(w: World, k: Key, a: Action)
    requires UniqueInv(w) && CachedStep(w, Import(k, a)) && EmptyListTrue(w, Import(k, a)) && Enabled(w.imports, k, a)
    ensures UniqueInv(Do(w, k, a))
  {
    hide Do, Evolves, OnlyAt, Unique, NoneOwned, Knows, CachedStep, MemoryInv;
    var v := Do(w, k, a);
    MemoryStep(w, Import(k, a));
    OwnKnows(w, k, a);
    if a.CreateRancher? {
      CreateUnique(w, k, a);
    } else {
      OwnKeepsOwned(w, k, a);
      NoNewKeepsUnique(w.ranchers, v.ranchers);
    }
  }

  lemma UniqueStep(w: World, s: Step)
    requires UniqueInv(w) && CachedStep(w, s) && EmptyListTrue(w, s)
    ensures UniqueInv(Apply(w, s))
  {
    hide OwnChange, DoOther, DoOutside, DoRead, DoWriteCapi, DoWriteRancher, Unique, NoneOwned, Knows, MemoryInv, EmptyListTrue;
    if !s.Import? {
      MemoryStep(w, s);
      Honesty(w, s);
      OtherKeepsOwned(w, s);
      NoNewKeepsUnique(w.ranchers, DoOther(w, s).ranchers);
    } else if Enabled(w.imports, s.k, s.act) {
      UniqueOwn(w, s.k, s.act);
    }
  }

  lemma Honesty(w: World, s: Step)
    requires CachedStep(w, s)
    ensures Honest(w, s)
  {
  }

  lemma {:induction false} UniqueRun(w: World, steps: seq<Step>)
    requires UniqueInv(w) && CachedRun(w, steps) && EmptyListsTrue(w, steps)
    ensures UniqueInv(Exec(w, steps))
    decreases |steps|
  {
    hide Apply, UniqueInv, CachedStep, EmptyListTrue;
    if steps != [] {
      UniqueStep(w, steps[0]);
      UniqueRun(Apply(w, steps[0]), steps[1..]);
    }
  }

  /** In every run from an initial state, whatever any other read shows: as long as no reconcile is told that nothing
      is owned when something is, at most one Rancher cluster carries the owner labels of a key, deleting ones
      included; so a complete list has one item at most and its first is no choice. */
  lemma OneRancherPerKey(w: World, steps: seq<Step>, k: Key, items: seq<Found>)
    requires Initial(w) && CachedRun(w, steps) && EmptyListsTrue(w, steps)
    requires Complete(Exec(w, steps).ranchers, k, items)
    ensures forall r, q | r in OwnedNames(Exec(w, steps).ranchers, k) && q in OwnedNames(Exec(w, steps).ranchers, k) :: r == q
    ensures forall i, j | 0 <= i < |items| && 0 <= j < |items| :: items[i] == items[j]
  {
    hide Exec, CachedRun, EmptyListsTrue;
    UniqueRun(w, steps);
  }

  /** Fresh lists are enough, as any complete one is right when it shows nothing. */
  lemma {:induction false} FreshListsAreTrue(w: World, steps: seq<Step>)
    requires MemoryInv(w) && FreshRun(w, steps)
    ensures CachedRun(w, steps) && EmptyListsTrue(w, steps)
    decreases |steps|
  {
    hide Do, DoOther, CachedStep, MemoryInv;
    if steps != [] {
      FreshIsCached(w, steps[0]);
      MemoryStep(w, steps[0]);
      FreshListTrue(w, steps[0]);
      FreshListsAreTrue(Apply(w, steps[0]), steps[1..]);
    }
  }

  lemma FreshListTrue(w: World, s: Step)
    requires FreshStep(w, s)
    ensures EmptyListTrue(w, s)
  {
    if s.Import? && s.act == List(Some([])) {
      forall r | r in w.ranchers.objs
        ensures w.ranchers.objs[r].spec.owner != Some(s.k)
      {
        assert r !in OwnedNames(w.ranchers, s.k);
      }
    }
  }
}
