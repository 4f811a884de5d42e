/** What other actors do commutes with where the reconcile of one key stands. */
module ImportCommute {
  import opened Wrappers
  import opened Network
  import opened Tables
  import opened Downstream
  import opened ImportProtocol

  lemma MapsCommute(imports: map<Key, Local>, k: Key, l: Local, j: Key)
    requires j != k
    ensures forall m {:trigger imports[j := m]} :: imports[k := l][j := m] == imports[j := m][k := l]
    ensures imports[k := l] - {j} == (imports - {j})[k := l]
  {
  }

  lemma GotoCommutes(w: World, k: Key, l: Local, j: Key, m: Local)
    requires j != k
    ensures Goto(Goto(w, k, l), j, m) == Goto(Goto(w, j, m), k, l)
    ensures End(Goto(w, k, l), j) == Goto(End(w, j), k, l)
  {
    MapsCommute(w.imports, k, l, j);
  }

  lemma GuardCommutes(w: World, k: Key, l: Local, j: Key, c: Capi)
    requires j != k
    ensures Guard(Goto(w, k, l), j, c) == Goto(Guard(w, j, c), k, l)
  {
    hide Goto, End;
    GotoCommutes(w, k, l, j, Inside(c, c, Listing));
  }

  lemma AddFinalizerCommutes(w: World, k: Key, l: Local, j: Key, c: Capi, net: Net, again: bool)
    requires j != k
    ensures DoAddFinalizer(Goto(w, k, l), j, c, net, again) == Goto(DoAddFinalizer(w, j, c, net, again), k, l)
  {
    hide OwnChange, SendFinalizer, Guard, End;
    var t := SendFinalizer(w.capis, j, c).0;
    GotoCommutes(w, k, l, j, ReadingAgain);
    GotoCommutes(w.(capis := t), k, l, j, ReadingAgain);
    if j in t.objs {
      GuardCommutes(w.(capis := t), k, l, j, t.objs[j]);
    }
  }

  lemma OutsideCommutes(w: World, k: Key, l: Local, j: Key, a: Action)
    requires j != k && Enabled(w.imports, j, a)
    requires a.Begin? || a.ReadAgain? || a.AddFinalizer? || a.Crash?
    ensures DoOutside(Goto(w, k, l), j, a) == Goto(DoOutside(w, j, a), k, l)
  {
    hide OwnChange, DoAddFinalizer, Guard, End;
    GotoCommutes(w, k, l, j, ReadingAgain);
    if a.AddFinalizer? {
      AddFinalizerCommutes(w, k, l, j, w.imports[j].capi, a.net, a.again);
    } else if !a.Crash? && a.seen.Some? {
      GuardCommutes(w, k, l, j, a.seen.value);
      GotoCommutes(w, k, l, j, AddingFinalizer(a.seen.value));
    }
  }

  lemma ReadCommutes(w: World, k: Key, l: Local, j: Key, a: Action)
    requires j != k && Enabled(w.imports, j, a)
    requires a.List? || a.Recheck? || a.CheckNamespace? || a.Work?
    ensures DoRead(Goto(w, k, l), j, a) == Goto(DoRead(w, j, a), k, l)
  {
    hide OwnChange;
    MapsCommute(w.imports, k, l, j);
  }

  lemma GotoAfterWrite(w: World, k: Key, l: Local, j: Key, m: Local, t: CapiTable)
    requires j != k
    ensures Goto(Goto(w, k, l).(capis := t), j, m) == Goto(Goto(w.(capis := t), j, m), k, l)
    ensures Goto(Goto(w, k, l), j, m) == Goto(Goto(w, j, m), k, l)
    ensures Goto(w, k, l).capis == w.capis
  {
    MapsCommute(w.imports, k, l, j);
  }

  lemma AnnotateCommutes(w: World, k: Key, l: Local, j: Key, base: Capi, r: string, rc: Rancher, net: Net)
    requires j != k
    ensures DoAnnotate(Goto(w, k, l), j, base, r, rc, net) == Goto(DoAnnotate(w, j, base, r, rc, net), k, l)
  {
    hide OwnChange, SendCapiPatch, MarkImported, Goto;
    var marked := MarkImported(base);
    var t := SendCapiPatch(w.capis, j, base, marked).0;
    GotoAfterWrite(w, k, l, j, Inside(base, marked, PatchingCapi), t);
    GotoAfterWrite(w, k, l, j, Inside(base, marked, Releasing(r, rc)), t);
  }

  lemma WriteCapiCommutes(w: World, k: Key, l: Local, j: Key, a: Action)
    requires j != k && Enabled(w.imports, j, a)
    requires a.Annotate? || a.DropFinalizer? || a.PatchCapi?
    ensures DoWriteCapi(Goto(w, k, l), j, a) == Goto(DoWriteCapi(w, j, a), k, l)
  {
    hide OwnChange, SendCapiPatch, SendWithout, DoAnnotate;
    MapsCommute(w.imports, k, l, j);
    if a.Annotate? {
      AnnotateCommutes(w, k, l, j, w.imports[j].base, w.imports[j].stage.name, w.imports[j].stage.rancher, a.net);
    }
  }

  lemma WriteRancherCommutes(w: World, k: Key, l: Local, j: Key, a: Action)
    requires j != k && Enabled(w.imports, j, a)
    requires a.ReleaseRancher? || a.DeleteDependents? || a.CreateRancher? || a.PatchRancher?
    ensures DoWriteRancher(Goto(w, k, l), j, a) == Goto(DoWriteRancher(w, j, a), k, l)
  {
    hide OwnChange, SendWithout, SendRancherPatch, DeleteMany, Insert;
    MapsCommute(w.imports, k, l, j);
  }

  lemma ImportCommutes(w: World, k: Key, l: Local, j: Key, a: Action)
    requires j != k && Enabled(w.imports, j, a)
    ensures Do(Goto(w, k, l), j, a) == Goto(Do(w, j, a), k, l)
  {
    hide OwnChange, DoOutside, DoRead, DoWriteCapi, DoWriteRancher;
    if a.Begin? || a.ReadAgain? || a.AddFinalizer? || a.Crash? {
      OutsideCommutes(w, k, l, j, a);
    } else if a.List? || a.Recheck? || a.CheckNamespace? || a.Work? {
      ReadCommutes(w, k, l, j, a);
    } else if a.Annotate? || a.DropFinalizer? || a.PatchCapi? {
      WriteCapiCommutes(w, k, l, j, a);
    } else {
      WriteRancherCommutes(w, k, l, j, a);
    }
  }

  lemma OtherCommutes(w: World, k: Key, l: Local, s: Step)
    requires !s.Import?
    ensures DoOther(Goto(w, k, l), s) == Goto(DoOther(w, s), k, l)
  {
    hide Do, Evolves, SendRancherPatch, Insert, Update, Delete, WithoutTurtles;
  }

  lemma NotEnabledCommutes(w: World, k: Key, l: Local, j: Key, a: Action)
    requires j != k && !Enabled(w.imports, j, a)
    ensures Do(Goto(w, k, l), j, a) == Goto(w, k, l) && Do(w, j, a) == w
  {
    hide OwnChange, DoOutside, DoRead, DoWriteCapi, DoWriteRancher;
  }

  /** What others do does not depend on the memory of the reconcile of `k`, nor reach into it. */
  lemma OthersCommute(w: World, k: Key, l: Local, s: Step)
    requires s.Import? ==> s.k != k
    ensures Apply(Goto(w, k, l), s) == Goto(Apply(w, s), k, l)
  {
    hide Do, DoOther, Goto, Enabled;
    if !s.Import? {
      OtherCommutes(w, k, l, s);
    } else if Enabled(w.imports, s.k, s.act) {
      ImportCommutes(w, k, l, s.k, s.act);
    } else {
      NotEnabledCommutes(w, k, l, s.k, s.act);
    }
  }

  lemma OthersStayOut(w: World, k: Key, s: Step)
    requires (s.Import? ==> s.k != k) && k !in w.imports
    ensures k !in Apply(w, s).imports && Apply(w, s).caapf == w.caapf
  {
    hide DoOutside, DoRead, DoWriteCapi, DoWriteRancher;
  }
}
