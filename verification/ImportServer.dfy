/** The API server as the import reconciler meets it: an object that others change between any two requests
    and that may lose a request or its answer. It keeps, for specification, the protocol run it took part in. */
module ImportServer {
  import opened Wrappers
  import opened Network
  import opened Tables
  import opened Downstream
  import opened ImportProtocol
  import opened ImportSafety
  import opened ImportQuiet
  import opened ImportCommute

  /** What a stale cache shows instead of the present objects. An offer that is not genuine is not taken. */
  datatype Offer = Offer(capi: Option<Capi>, items: Option<seq<Found>>, mark: Option<Option<string>>)

  const NO_OFFER := Offer(None, None, None)

  /** What comes before and with the next request: steps of others, then the fate of the request. `faults` are
      for the requests to the downstream cluster that follow it. */
  datatype Turn = Turn(others: seq<Step>, net: Net, faults: seq<Net>, offer: Offer)

  ghost function Placed(w: World, k: Key, l: Option<Local>): World {
    if l.None? then w else Goto(w, k, l.value)
  }

  ghost predicate OwnStep(w: World, s: Step, current: bool) {
    FreshStep(w, s) || (!current && CachedStep(w, s))
  }

  /** The reconcile of `k` itself reads fresh objects, or through a cache that may be stale. */
  ghost predicate OwnReads(w: World, steps: seq<Step>, k: Key, current: bool)
    decreases |steps|
  {
    steps == [] ||
    ((steps[0].Import? && steps[0].k == k ==> OwnStep(w, steps[0], current)) && OwnReads(Apply(w, steps[0]), steps[1..], k, current))
  }

  /** The others read fresh objects, and users are honest. */
  ghost predicate OthersFresh(w: World, steps: seq<Step>, k: Key)
    decreases |steps|
  {
    steps == [] ||
    ((!(steps[0].Import? && steps[0].k == k) ==> FreshStep(w, steps[0])) && OthersFresh(Apply(w, steps[0]), steps[1..], k))
  }

  /** The others read through the cache, and users are honest. */
  ghost predicate OthersCached(w: World, steps: seq<Step>, k: Key)
    decreases |steps|
  {
    steps == [] ||
    ((!(steps[0].Import? && steps[0].k == k) ==> CachedStep(w, steps[0])) && OthersCached(Apply(w, steps[0]), steps[1..], k))
  }

  lemma {:induction false} ExecSnoc(w: World, steps: seq<Step>, s: Step)
    ensures Exec(w, steps + [s]) == Apply(Exec(w, steps), s)
    decreases |steps|
  {
    hide Apply;
    if steps == [] {
      assert [s][1..] == [] && steps + [s] == [s];
      assert Exec(Apply(w, s), []) == Apply(w, s);
    } else {
      assert (steps + [s])[1..] == steps[1..] + [s];
      ExecSnoc(Apply(w, steps[0]), steps[1..], s);
    }
  }

  lemma {:induction false} OwnReadsSnoc(w: World, steps: seq<Step>, k: Key, s: Step, current: bool)
    requires OwnReads(w, steps, k, current)
    requires s.Import? && s.k == k ==> OwnStep(Exec(w, steps), s, current)
    ensures OwnReads(w, steps + [s], k, current)
    decreases |steps|
  {
    hide Apply, OwnStep;
    if steps == [] {
      assert [s][1..] == [] && steps + [s] == [s];
    } else {
      assert (steps + [s])[1..] == steps[1..] + [s];
      OwnReadsSnoc(Apply(w, steps[0]), steps[1..], k, s, current);
    }
  }

  /** A step of others, after a run of which one reconcile is `l` on the way. */
  lemma OtherExtends(start: World, run: seq<Step>, was: World, k: Key, l: Option<Local>, s: Step, current: bool)
    requires Exec(start, run) == Placed(was, k, l) && OwnReads(start, run, k, current)
    requires s.Import? ==> s.k != k
    ensures Exec(start, run + [s]) == Placed(Apply(was, s), k, l) && OwnReads(start, run + [s], k, current)
  {
    hide Apply, Exec, OwnReads, OwnStep, Goto;
    ExecSnoc(start, run, s);
    OwnReadsSnoc(start, run, k, s, current);
    if l.Some? {
      OthersCommute(was, k, l.value, s);
    }
  }

  lemma {:induction false} BothFresh(w: World, steps: seq<Step>, k: Key)
    requires OwnReads(w, steps, k, true) && OthersFresh(w, steps, k)
    ensures FreshRun(w, steps)
    decreases |steps|
  {
    hide Apply, FreshStep;
    if steps != [] {
      BothFresh(Apply(w, steps[0]), steps[1..], k);
    }
  }

  lemma {:induction false} BothCached(w: World, steps: seq<Step>, k: Key, current: bool)
    requires MemoryInv(w) && OwnReads(w, steps, k, current) && OthersCached(w, steps, k)
    ensures CachedRun(w, steps)
    decreases |steps|
  {
    hide Apply, FreshStep, CachedStep, MemoryInv;
    if steps != [] {
      if steps[0].Import? && steps[0].k == k && FreshStep(w, steps[0]) {
        FreshIsCached(w, steps[0]);
      }
      MemoryStep(w, steps[0]);
      BothCached(Apply(w, steps[0]), steps[1..], k, current);
    }
  }

  ghost predicate Listed(found: seq<Found>, r: string) {
    exists i :: 0 <= i < |found| && found[i].name == r
  }

  lemma ListedMore(found: seq<Found>, f: Found)
    ensures forall r | Listed(found, r) || r == f.name :: Listed(found + [f], r)
  {
    forall r | Listed(found, r) || r == f.name
      ensures Listed(found + [f], r)
    {
      if r == f.name {
        assert (found + [f])[|found|].name == r;
      } else {
        var i :| 0 <= i < |found| && found[i].name == r;
        assert (found + [f])[i].name == r;
      }
    }
  }

  /** Genuine objects, in particular any stored at some time, with the owner labels of `k`. */
  predicate GenuineList(t: RancherTable, k: Key, items: seq<Found>) {
    forall i | 0 <= i < |items| :: Genuine(t, items[i].name, items[i].obj) && items[i].obj.spec.owner == Some(k)
  }

  /** The server's answer to a list with the owner labels of `k`. */
  method ListOwned(t: RancherTable, k: Key) returns (found: seq<Found>)
    ensures Complete(t, k, found)
  {
    var names := OwnedNames(t, k);
    found := [];
    while names != {}
      invariant names <= OwnedNames(t, k)
      invariant forall i | 0 <= i < |found| ::
        found[i].name in t.objs && found[i].obj == t.objs[found[i].name] && found[i].obj.spec.owner == Some(k)
      invariant forall r | r in OwnedNames(t, k) :: r in names || Listed(found, r)
      decreases |names|
    {
      var r :| r in names;
      ListedMore(found, Found(r, t.objs[r]));
      found := found + [Found(r, t.objs[r])];
      names := names - {r};
    }
  }

  class ApiServer {
    const caapf: bool
    var capis: CapiTable
    var ranchers: RancherTable
    var namespaces: map<string, Option<string>>
    var side: Side
    /** The memory of the other reconciles. */
    var imports: map<Key, Local>
    var cleanups: map<string, Rancher>
    /** When it is used up, nobody else acts and every request is answered. */
    var turns: seq<Turn>
    /** The fate of the requests to the downstream cluster that follow. */
    var faults: seq<Net>
    var offer: Offer

    ghost var start: World
    ghost var run: seq<Step>
    /** The cache shows the present objects. */
    ghost var current: bool
    /** The reconcile started in a sound state, without interference or faults to come. */
    ghost var quiet: bool

    constructor (w: World, turns: seq<Turn>)
      ensures Now() == w && this.turns == turns
    {
      caapf := w.caapf;
      capis := w.capis;
      ranchers := w.ranchers;
      namespaces := w.namespaces;
      side := w.side;
      imports := w.imports;
      cleanups := w.cleanups;
      this.turns := turns;
      faults := [];
      offer := NO_OFFER;
    }

    ghost function Now(): World
      reads this
    {
      World(caapf, capis, ranchers, namespaces, side, imports, cleanups)
    }

    /** Where the reconcile of `k` stands: the run so far leads to the present state with `l` in memory, and a
        quiet reconcile is on the way to its result. */
    ghost predicate Tracks(k: Key, name: string, l: Option<Local>)
      reads this
    {
      && k !in imports
      && Exec(start, run) == Placed(Now(), k, l)
      && OwnReads(start, run, k, current)
      && (current ==> forall t | t in turns :: t.offer == NO_OFFER)
      && (quiet ==> current && turns == [] && FreshInv(Placed(Now(), k, l)))
      && (quiet && (l.Some? || run != []) ==> Finish(Placed(Now(), k, l), k, name) == ImportQuiet.Reconcile(start, k, name))
    }

    /** A reconcile of `k` starts here. */
    ghost method Open(k: Key, name: string)
      requires k !in imports
      modifies this`start, this`run, this`quiet, this`current
      ensures Tracks(k, name, None) && start == Now() && run == []
      ensures quiet <==> turns == [] && FreshInv(start)
      ensures current <==> forall t | t in turns :: t.offer == NO_OFFER
    {
      start, run, quiet := Now(), [], turns == [] && FreshInv(Now());
      current := forall t | t in turns :: t.offer == NO_OFFER;
    }

    /** What stays fixed during a reconcile. */
    ghost predicate Same(start: World, quiet: bool, current: bool)
      reads this
    {
      this.start == start && this.quiet == quiet && this.current == current
    }

    /** Others act, then the fate of the next request is settled. */
    method Interlude(k: Key, ghost name: string, ghost l: Option<Local>) returns (net: Net)
      requires Tracks(k, name, l)
      modifies this
      ensures Tracks(k, name, l) && Same(old(start), old(quiet), old(current))
      ensures quiet ==> Now() == old(Now()) && run == old(run) && net == Delivered && faults == []
      ensures current ==> offer == NO_OFFER
    {
      hide FreshInv, Finish, Exec, OwnReads, Apply;
      net, faults, offer := Delivered, [], NO_OFFER;
      if turns == [] {
        return;
      }
      var turn := turns[0];
      assert turn in turns && forall t | t in turns[1..] :: t in turns;
      turns := turns[1..];
      var i := 0;
      while i < |turn.others|
        invariant 0 <= i <= |turn.others|
        invariant Tracks(k, name, l) && Same(old(start), old(quiet), old(current)) && !quiet
        invariant current ==> turn.offer == NO_OFFER
      {
        Other(k, name, l, turn.others[i]);
        i := i + 1;
      }
      net, faults, offer := turn.net, turn.faults, turn.offer;
    }

    method Other(k: Key, ghost name: string, ghost l: Option<Local>, s: Step)
      requires Tracks(k, name, l) && !quiet
      modifies this
      ensures Tracks(k, name, l) && Same(old(start), old(quiet), old(current)) && !quiet && turns == old(turns)
    {
      hide Do, DoOther, Exec, OwnReads, FreshInv, Finish, Placed;
      if s.Import? && s.k == k {
        return;
      }
      ghost var was := Now();
      var v := Apply(World(caapf, capis, ranchers, namespaces, side, imports, cleanups), s);
      OthersStayOut(was, k, s);
      OtherExtends(start, run, was, k, l, s, current);
      capis, ranchers, namespaces, side, imports, cleanups := v.capis, v.ranchers, v.namespaces, v.side, v.imports, v.cleanups;
      run := run + [s];
      assert Now() == v;
    }

    /** Books one request of the reconcile: `was` is the state it met. */
    ghost method Book(k: Key, name: string, was: World, l: Option<Local>, a: Action, m: Option<Local>)
      requires k !in imports && k !in was.imports && Exec(start, run) == Placed(was, k, l) && OwnReads(start, run, k, current)
      requires current ==> forall t | t in turns :: t.offer == NO_OFFER
      requires quiet ==> current && turns == [] && FreshInv(Placed(was, k, l))
      requires quiet && l.Some? ==> Finish(Placed(was, k, l), k, name) == ImportQuiet.Reconcile(start, k, name)
                                    && Do(Placed(was, k, l), k, a) == Do(Placed(was, k, l), k, Answer(Placed(was, k, l), k, name))
      requires quiet && l.None? ==> run == [] && a == Begin(Lookup(start.capis, k))
      requires OwnStep(Placed(was, k, l), Import(k, a), current)
      requires Do(Placed(was, k, l), k, a) == Placed(Now(), k, m)
      modifies this`run
      ensures Tracks(k, name, m) && run != []
    {
      var s := Import(k, a);
      ExecSnoc(start, run, s);
      OwnReadsSnoc(start, run, k, s, current);
      if quiet {
        FreshInvStep(Placed(was, k, l), s);
      }
      run := run + [s];
    }

    // --- Requests; each lets the others act first and returns the state it met ---

    /** `cached` says whether the read goes through the cache. */
    method GetCapi(k: Key, cached: bool, ghost name: string, ghost l: Option<Local>) returns (seen: Option<Capi>, failed: bool, ghost was: World)
      requires Tracks(k, name, l)
      modifies this
      ensures Tracks(k, name, l) && Same(old(start), old(quiet), old(current)) && was == Now()
      ensures cached && !current && seen.Some? ==> Genuine(capis, k, seen.value) || seen == Lookup(capis, k)
      ensures !cached || current ==> seen == if failed then None else Lookup(capis, k)
      ensures failed ==> seen.None?
      ensures quiet ==> Now() == old(Now()) && run == old(run) && !failed
    {
      var net := Interlude(k, name, l);
      was := Now();
      failed := net != Delivered;
      seen := if failed then None
              else if cached && offer.capi.Some? && Genuine(capis, k, offer.capi.value) then offer.capi
              else Lookup(capis, k);
    }

    method GetNamespace(k: Key, ghost name: string, ghost l: Option<Local>) returns (mark: Option<Option<string>>, ghost was: World)
      requires Tracks(k, name, l)
      modifies this
      ensures Tracks(k, name, l) && Same(old(start), old(quiet), old(current)) && was == Now()
      ensures current && mark.Some? ==> k.ns in namespaces && mark.value == namespaces[k.ns]
      ensures quiet ==> Now() == old(Now()) && mark == if k.ns in namespaces then Some(namespaces[k.ns]) else None
    {
      var net := Interlude(k, name, l);
      was := Now();
      mark := if net != Delivered then None
              else if offer.mark.Some? then offer.mark
              else if k.ns in namespaces then Some(namespaces[k.ns]) else None;
    }

    method ListRanchers(k: Key, ghost name: string, ghost l: Option<Local>) returns (items: Option<seq<Found>>, ghost was: World)
      requires Tracks(k, name, l)
      modifies this
      ensures Tracks(k, name, l) && Same(old(start), old(quiet), old(current)) && was == Now()
      ensures items.Some? ==> Complete(ranchers, k, items.value) || (!current && GenuineList(ranchers, k, items.value))
      ensures quiet ==> Now() == old(Now()) && items.Some?
    {
      var net := Interlude(k, name, l);
      was := Now();
      if net != Delivered {
        return None, was;
      }
      if offer.items.Some? && GenuineList(ranchers, k, offer.items.value) {
        return offer.items, was;
      }
      var found := ListOwned(ranchers, k);
      items := Some(found);
    }

    method UpdateCapi(k: Key, o: Capi, ghost name: string, ghost l: Option<Local>)
      returns (net: Net, outcome: Outcome, reply: Option<Capi>, ghost was: World)
      requires Tracks(k, name, l)
      modifies this
      ensures Same(old(start), old(quiet), old(current)) && Sent(was, k, name, l)
      ensures var (t, r) := Update(was.capis, k, o);
              outcome == r && Now() == (if net == Lost then was else was.(capis := t)) && reply == Lookup(t, k)
      ensures quiet ==> was == old(Now()) && net == Delivered
    {
      net := Interlude(k, name, l);
      was := Now();
      var (t, r) := Update(capis, k, o);
      outcome, reply := r, Lookup(t, k);
      if net != Lost {
        capis := t;
      }
    }

    /** The run so far leads to `was`, where the request in progress was sent. */
    ghost predicate Sent(was: World, k: Key, name: string, l: Option<Local>)
      reads this
    {
      && k !in imports && k !in was.imports
      && Exec(start, run) == Placed(was, k, l)
      && OwnReads(start, run, k, current)
      && (current ==> forall t | t in turns :: t.offer == NO_OFFER)
      && (quiet ==> current && turns == [] && FreshInv(Placed(was, k, l)))
      && (quiet && l.Some? ==> Finish(Placed(was, k, l), k, name) == ImportQuiet.Reconcile(start, k, name))
    }

    method PatchCapi(k: Key, base: Capi, copy: Capi, ghost name: string, ghost l: Option<Local>)
      returns (net: Net, outcome: Outcome, ghost was: World)
      requires Tracks(k, name, l)
      modifies this
      ensures Same(old(start), old(quiet), old(current)) && Sent(was, k, name, l)
      ensures var (t, r) := SendCapiPatch(was.capis, k, base, copy);
              outcome == r && Now() == if net == Lost then was else was.(capis := t)
      ensures quiet ==> was == old(Now()) && net == Delivered
    {
      net := Interlude(k, name, l);
      was := Now();
      var (t, r) := SendCapiPatch(capis, k, base, copy);
      outcome := r;
      if net != Lost {
        capis := t;
      }
    }

    method UpdateRancher(k: Key, r: string, o: Rancher, ghost name: string, ghost l: Option<Local>)
      returns (net: Net, outcome: Outcome, ghost was: World)
      requires Tracks(k, name, l)
      modifies this
      ensures Same(old(start), old(quiet), old(current)) && Sent(was, k, name, l)
      ensures var (t, res) := Update(was.ranchers, r, o);
              outcome == res && Now() == if net == Lost then was else was.(ranchers := t)
      ensures quiet ==> was == old(Now()) && net == Delivered
    {
      net := Interlude(k, name, l);
      was := Now();
      var (t, res) := Update(ranchers, r, o);
      outcome := res;
      if net != Lost {
        ranchers := t;
      }
    }

    method PatchRancher(k: Key, r: string, base: Rancher, copy: Rancher, ghost name: string, ghost l: Option<Local>)
      returns (net: Net, outcome: Outcome, ghost was: World)
      requires Tracks(k, name, l)
      modifies this
      ensures Same(old(start), old(quiet), old(current)) && Sent(was, k, name, l)
      ensures var (t, res) := SendRancherPatch(was.ranchers, r, base, copy);
              outcome == res && Now() == if net == Lost then was else was.(ranchers := t)
      ensures quiet ==> was == old(Now()) && net == Delivered
    {
      net := Interlude(k, name, l);
      was := Now();
      var (t, res) := SendRancherPatch(ranchers, r, base, copy);
      outcome := res;
      if net != Lost {
        ranchers := t;
      }
    }

    method CreateRancher(k: Key, o: Rancher, name: string, ghost l: Option<Local>)
      returns (net: Net, outcome: Outcome, ghost was: World)
      requires Tracks(k, name, l)
      modifies this
      ensures Same(old(start), old(quiet), old(current)) && Sent(was, k, name, l)
      ensures var (t, res) := Insert(was.ranchers, name, o);
              outcome == res && Now() == if net == Lost then was else was.(ranchers := t)
      ensures quiet ==> was == old(Now()) && net == Delivered
    {
      net := Interlude(k, name, l);
      was := Now();
      var (t, res) := Insert(ranchers, name, o);
      outcome := res;
      if net != Lost {
        ranchers := t;
      }
    }

    /** DeleteAllOf; an unanswered one may have reached only some of the objects. */
    method DeleteAllOwned(k: Key, ghost name: string, ghost l: Option<Local>)
      returns (net: Net, ghost reached: set<string>, ghost was: World)
      requires Tracks(k, name, l)
      modifies this
      ensures Same(old(start), old(quiet), old(current)) && Sent(was, k, name, l)
      ensures Now() == was.(ranchers := DeleteMany(was.ranchers, if net == Delivered then OwnedNames(was.ranchers, k)
                                                                 else OwnedNames(was.ranchers, k) * reached))
      ensures quiet ==> was == old(Now()) && net == Delivered && reached == {}
    {
      hide DeleteMany, FreshInv, Finish, Exec, OwnReads;
      net := Interlude(k, name, l);
      was := Now();
      var names := OwnedNames(ranchers, k);
      reached := {};
      if net == Lost {
        names := {};
      } else if net == Unheard && names != {} {
        var r :| r in names;
        names := {r};
        reached := {r};
      }
      ranchers := DeleteMany(ranchers, names);
      assert net == Unheard ==> names == OwnedNames(was.ranchers, k) * reached;
      assert net == Lost ==> names == OwnedNames(was.ranchers, k) * reached;
    }
  }
}
