/** Several writers that each keep their entries in one Secret: all of them read it, then each of them writes
    (internal/sync/core.go, client.go, interface.go). A round is one call of List.Sync and List.Apply; the
    results hold for any number of writers, and the source has two. */
module SecretRounds {
  import opened Wrappers
  import opened Network
  import opened Tables
  import opened Downstream
  import opened Credentials

  datatype SecretSpec = SecretSpec(data: Data, owners: seq<string>)

  type Secret = Object<SecretSpec>
  type SecretTable = Table<Key, SecretSpec>

  const FOREGROUND := Foreign("foregroundDeletion")

  /** The Destination of a writer: what it read, without a version when it found nothing, and its StringData. */
  datatype Destination = Destination(version: Option<nat>, secret: Secret, strings: Data)

  const NEW_SECRET: Secret := Object(0, false, {}, SecretSpec(map[], []))

  function Loaded(seen: Option<Secret>, strings: Data): Destination {
    match seen
    case None => Destination(None, NEW_SECRET, strings)
    case Some(o) => Destination(Some(o.version), o, strings)
  }

  /** What Apply sends, StringData merged over Data as the server does. */
  function Dressed(owner: string, o: Secret, strings: Data): Secret {
    o.(finalizers := o.finalizers + {FOREGROUND}, spec := SecretSpec(o.spec.data + strings, [owner]))
  }

  function Content(owner: string, d: Destination): Secret {
    Dressed(owner, d.secret, d.strings)
  }

  /** An update without a version is unconditional. */
  function SendUpdate(t: SecretTable, k: Key, version: Option<nat>, o: Secret): (r: (SecretTable, Outcome))
    ensures Evolves(t, r.0) && OnlyAt(t, r.0, k)
    ensures r.1 != Applied ==> r.0 == t
    ensures r.1.NotFound? <==> k !in t.objs
  {
    Update(t, k, o.(version := if version.None? && k in t.objs then t.objs[k].version
                               else if version.None? then 0 else version.value))
  }

  /** The server creates no object that carries a version. */
  function SendCreate(t: SecretTable, k: Key, version: Option<nat>, o: Secret): (r: (SecretTable, Outcome))
    ensures Evolves(t, r.0) && OnlyAt(t, r.0, k)
    ensures r.1 != Applied ==> r.0 == t
  {
    if version.Some? then (t, Invalid) else Insert(t, k, o)
  }

  /** The fate of the update and of the create that may follow. */
  datatype Fate = Fate(update: Net, create: Net)

  function Carried(t: SecretTable, u: SecretTable, net: Net): SecretTable {
    if net.Lost? then t else u
  }

  /** Patch: update, then create when the update finds nothing; also whether it fails. */
  function Patched(t: SecretTable, k: Key, owner: string, d: Destination, fate: Fate): (r: (SecretTable, bool))
    ensures Evolves(t, r.0) && OnlyAt(t, r.0, k)
  {
    var o := Content(owner, d);
    var (u, outcome) := SendUpdate(t, k, d.version, o);
    if fate.update.Delivered? && outcome.NotFound? then
      var (v, created) := SendCreate(t, k, d.version, o);
      (Carried(t, v, fate.create), !fate.create.Delivered? || !created.Applied?)
    else
      (Carried(t, u, fate.update), !fate.update.Delivered? || !outcome.Applied?)
  }

  const ANSWERED := Fate(Delivered, Delivered)

  /** A Secret that was read and has gone since is not created again, and the write fails; one that was not there when
      it was read is created. */
  lemma VanishedIsReported(t: SecretTable, k: Key, owner: string, d: Destination, fate: Fate)
    requires k !in t.objs
    ensures d.version.Some? ==> Patched(t, k, owner, d, fate) == (t, true)
    ensures d.version.None? && fate == ANSWERED ==> !Patched(t, k, owner, d, fate).1 && k in Patched(t, k, owner, d, fate).0.objs
  {
  }

  // --- A round without faults ---

  /** List.Apply: the writers one after the other. */
  function ApplyAll(t: SecretTable, k: Key, owner: string, ds: seq<Destination>): (u: SecretTable)
    ensures Evolves(t, u) && OnlyAt(t, u, k)
    decreases |ds|
  {
    if ds == [] then t
    else
      var next := Patched(t, k, owner, ds[0], ANSWERED).0;
      var u := ApplyAll(next, k, owner, ds[1..]);
      EvolvesTrans(t, next, u);
      u
  }

  lemma EvolvesTrans(t: SecretTable, u: SecretTable, v: SecretTable)
    requires Evolves(t, u) && Evolves(u, v)
    ensures Evolves(t, v)
  {
  }

  function ReadAll(seen: Option<Secret>, writers: seq<Data>): seq<Destination> {
    seq(|writers|, i requires 0 <= i < |writers| => Loaded(seen, writers[i]))
  }

  function Round(t: SecretTable, k: Key, owner: string, writers: seq<Data>): SecretTable {
    ApplyAll(t, k, owner, ReadAll(Lookup(t, k), writers))
  }

  function Rounds(t: SecretTable, k: Key, owner: string, writers: seq<Data>, n: nat): SecretTable {
    if n == 0 then t else Round(Rounds(t, k, owner, writers, n - 1), k, owner, writers)
  }

  // --- What the writers want ---

  ghost predicate Contains(data: Data, strings: Data) {
    forall q | q in strings :: q in data && data[q] == strings[q]
  }

  /** The writer finds its entries, the finalizer and the owner in place. */
  ghost predicate Satisfied(owner: string, o: Secret, strings: Data) {
    Contains(o.spec.data, strings) && FOREGROUND in o.finalizers && o.spec.owners == [owner]
  }

  lemma SatisfiedExactly(owner: string, o: Secret, strings: Data)
    ensures Satisfied(owner, o, strings) <==> Dressed(owner, o, strings) == o
    ensures Satisfied(owner, Dressed(owner, o, strings), strings)
  {
    var d := Dressed(owner, o, strings);
    if Satisfied(owner, o, strings) {
      assert o.spec.data + strings == o.spec.data;
      assert o.finalizers + {FOREGROUND} == o.finalizers;
    }
    if d == o {
      assert d.spec.data == o.spec.data && FOREGROUND in d.finalizers;
      forall q | q in strings
        ensures q in o.spec.data && o.spec.data[q] == strings[q]
      {
        assert d.spec.data[q] == strings[q];
      }
    }
  }

  /** Writers never disagree on the value of an entry. */
  ghost predicate Compatible(writers: seq<Data>) {
    forall i, j, q | 0 <= i < |writers| && 0 <= j < |writers| && q in writers[i] && q in writers[j] :: writers[i][q] == writers[j][q]
  }

  /** The server accepts the finalizer on the object. */
  ghost predicate Accepts(o: Secret) {
    !o.deleting || FOREGROUND in o.finalizers
  }

  ghost predicate AllSatisfied(t: SecretTable, k: Key, owner: string, writers: seq<Data>) {
    k in t.objs && forall i | 0 <= i < |writers| :: Satisfied(owner, t.objs[k], writers[i])
  }

  // --- One round ---

  /** Writers that read an older version change nothing. */
  lemma {:induction false} StaleChangesNothing(t: SecretTable, k: Key, owner: string, ds: seq<Destination>)
    requires k in t.objs && forall i | 0 <= i < |ds| :: ds[i].version.Some? && ds[i].version.value != t.objs[k].version
    ensures ApplyAll(t, k, owner, ds) == t
    decreases |ds|
  {
    if ds != [] {
      assert Patched(t, k, owner, ds[0], ANSWERED).0 == t;
      StaleChangesNothing(t, k, owner, ds[1..]);
    }
  }

  lemma WriteFresh(t: SecretTable, k: Key, owner: string, strings: Data)
    requires k in t.objs && Accepts(t.objs[k])
    ensures var o := t.objs[k]; var u := Patched(t, k, owner, Loaded(Some(o), strings), ANSWERED).0;
      && (Satisfied(owner, o, strings) ==> u == t)
      && (!Satisfied(owner, o, strings) ==>
            k in u.objs && u.objs[k] == Dressed(owner, o, strings).(version := t.next) && u.next == t.next + 1)
  {
    hide Satisfied;
    SatisfiedExactly(owner, t.objs[k], strings);
  }

  /** A round on a stored Secret writes for the first writer that is not satisfied, and for no other. */
  ghost predicate OneWrites(t: SecretTable, u: SecretTable, k: Key, owner: string, writers: seq<Data>, i: nat)
    requires k in t.objs
  {
    && i < |writers| && !Satisfied(owner, t.objs[k], writers[i])
    && k in u.objs && u.objs[k] == Dressed(owner, t.objs[k], writers[i]).(version := t.next)
  }

  lemma {:induction false} FirstUnsatisfiedWrites(t: SecretTable, k: Key, owner: string, writers: seq<Data>) returns (i: nat)
    requires Sound(t) && k in t.objs && Accepts(t.objs[k])
    ensures var u := ApplyAll(t, k, owner, ReadAll(Some(t.objs[k]), writers));
      && (AllSatisfied(t, k, owner, writers) ==> u == t)
      && (!AllSatisfied(t, k, owner, writers) ==> OneWrites(t, u, k, owner, writers, i))
      && i <= |writers| && forall j | 0 <= j < i :: Satisfied(owner, t.objs[k], writers[j])
    decreases |writers|
  {
    hide Satisfied, Patched, Dressed, Accepts;
    i := 0;
    if writers != [] {
      var o := t.objs[k];
      WriteFresh(t, k, owner, writers[0]);
      var ds := ReadAll(Some(o), writers);
      assert ds[1..] == ReadAll(Some(o), writers[1..]);
      if Satisfied(owner, o, writers[0]) {
        i := FirstUnsatisfiedWrites(t, k, owner, writers[1..]);
        i := i + 1;
      } else {
        StaleChangesNothing(Patched(t, k, owner, ds[0], ANSWERED).0, k, owner, ds[1..]);
      }
    }
  }

  /** Without a Secret the writers overwrite each other: only the entries of the last one remain. */
  lemma {:induction false} LastWriterRemains(t: SecretTable, k: Key, owner: string, writers: seq<Data>)
    requires writers != [] && (k in t.objs ==> !t.objs[k].deleting)
    ensures var u := ApplyAll(t, k, owner, ReadAll(None, writers));
      k in u.objs && u.objs[k] == Dressed(owner, NEW_SECRET, writers[|writers| - 1]).(version := u.objs[k].version)
    decreases |writers|
  {
    hide Dressed;
    var ds := ReadAll(None, writers);
    var u := Patched(t, k, owner, ds[0], ANSWERED).0;
    CreatedOrReplaced(t, k, owner, writers[0]);
    assert ds[1..] == ReadAll(None, writers[1..]);
    if |writers| > 1 {
      LastWriterRemains(u, k, owner, writers[1..]);
    }
  }

  lemma CreatedOrReplaced(t: SecretTable, k: Key, owner: string, strings: Data)
    requires k in t.objs ==> !t.objs[k].deleting
    ensures var u := Patched(t, k, owner, Loaded(None, strings), ANSWERED).0;
      && k in u.objs && !u.objs[k].deleting
      && u.objs[k] == Dressed(owner, NEW_SECRET, strings).(version := u.objs[k].version)
  {
  }

  // --- Reported failures ---

  /** Whether some write of the round reports an error. */
  function Fails(t: SecretTable, k: Key, owner: string, ds: seq<Destination>): bool
    decreases |ds|
  {
    ds != [] && (Patched(t, k, owner, ds[0], ANSWERED).1 || Fails(Patched(t, k, owner, ds[0], ANSWERED).0, k, owner, ds[1..]))
  }

  /** The round that creates the Secret reports no error although only the last writer's entries are in it. */
  lemma {:induction false} CreatingIsSilent(t: SecretTable, k: Key, owner: string, writers: seq<Data>)
    requires k in t.objs ==> !t.objs[k].deleting
    ensures !Fails(t, k, owner, ReadAll(None, writers))
    decreases |writers|
  {
    if writers != [] {
      CreatedOrReplaced(t, k, owner, writers[0]);
      assert ReadAll(None, writers)[1..] == ReadAll(None, writers[1..]);
      CreatingIsSilent(Patched(t, k, owner, Loaded(None, writers[0]), ANSWERED).0, k, owner, writers[1..]);
    }
  }

  /** On a stored Secret a round reports no error if and only if nobody but the last writer had to write. */
  lemma {:induction false} SuccessExactly(t: SecretTable, k: Key, owner: string, writers: seq<Data>)
    requires Sound(t) && k in t.objs && Accepts(t.objs[k])
    ensures !Fails(t, k, owner, ReadAll(Some(t.objs[k]), writers)) <==>
            forall i | 0 <= i < |writers| - 1 :: Satisfied(owner, t.objs[k], writers[i])
    decreases |writers|
  {
    hide Satisfied, Dressed, Accepts;
    if writers != [] {
      var o := t.objs[k];
      var ds := ReadAll(Some(o), writers);
      assert ds[1..] == ReadAll(Some(o), writers[1..]);
      WriteFresh(t, k, owner, writers[0]);
      FreshSucceeds(t, k, owner, writers[0]);
      if Satisfied(owner, o, writers[0]) {
        SuccessExactly(t, k, owner, writers[1..]);
        assert forall i | 0 < i < |writers| - 1 :: writers[i] == writers[1..][i - 1];
        assert forall i | 0 <= i < |writers| - 2 :: writers[1..][i] == writers[i + 1];
      } else if |writers| > 1 {
        assert Patched(Patched(t, k, owner, ds[0], ANSWERED).0, k, owner, ds[1], ANSWERED).1;
      }
    }
  }

  lemma FreshSucceeds(t: SecretTable, k: Key, owner: string, strings: Data)
    requires k in t.objs && Accepts(t.objs[k])
    ensures !Patched(t, k, owner, Loaded(Some(t.objs[k]), strings), ANSWERED).1
  {
  }

  // --- Convergence ---

  lemma SatisfiedStays(owner: string, o: Secret, strings: Data, others: Data)
    requires forall q | q in strings && q in others :: strings[q] == others[q]
    requires Satisfied(owner, o, strings)
    ensures Satisfied(owner, Dressed(owner, o, others), strings)
  {
  }

  ghost function Unsatisfied(t: SecretTable, k: Key, owner: string, writers: seq<Data>): set<nat> {
    set i: nat | i < |writers| && !(k in t.objs && Satisfied(owner, t.objs[k], writers[i]))
  }

  lemma SubsetSmaller(a: set<nat>, b: set<nat>, x: nat)
    requires a <= b && x in b && x !in a
    ensures |a| < |b|
  {
    SubsetNoLarger(a, b - {x});
  }

  lemma {:induction false} SubsetNoLarger(a: set<nat>, b: set<nat>)
    requires a <= b
    ensures |a| <= |b|
  {
    if a != {} {
      var x :| x in a;
      SubsetNoLarger(a - {x}, b - {x});
    }
  }

  ghost function UpTo(n: nat): (s: set<nat>)
    ensures |s| == n && forall i: nat :: i in s <==> i < n
  {
    if n == 0 then {} else UpTo(n - 1) + {n - 1}
  }

  ghost predicate Ready(t: SecretTable, k: Key) {
    Sound(t) && (k in t.objs ==> Accepts(t.objs[k]))
  }

  /** A round satisfies one more writer and disappoints none. */
  lemma RoundProgresses(t: SecretTable, k: Key, owner: string, writers: seq<Data>)
    requires Ready(t, k) && Compatible(writers) && writers != []
    ensures var u := Round(t, k, owner, writers);
      && Ready(u, k) && k in u.objs
      && (if AllSatisfied(t, k, owner, writers) then u == t
          else |Unsatisfied(u, k, owner, writers)| < |Unsatisfied(t, k, owner, writers)|)
  {
    hide Satisfied, Patched;
    var u := Round(t, k, owner, writers);
    RoundReady(t, k, owner, writers);
    var x: nat;
    if k in t.objs {
      x := FirstUnsatisfiedWrites(t, k, owner, writers);
    } else {
      LastWriterRemains(t, k, owner, writers);
      x := |writers| - 1;
    }
    if !AllSatisfied(t, k, owner, writers) {
      var from := if k in t.objs then t.objs[k] else NEW_SECRET;
      assert u.objs[k] == Dressed(owner, from, writers[x]).(version := u.objs[k].version);
      forall i: nat | i < |writers| && (i == x || (k in t.objs && Satisfied(owner, t.objs[k], writers[i])))
        ensures Satisfied(owner, u.objs[k], writers[i])
      {
        DressedSatisfies(owner, from, writers, x, i, u.objs[k].version);
      }
      SubsetSmaller(Unsatisfied(u, k, owner, writers), Unsatisfied(t, k, owner, writers), x);
    }
  }

  lemma VersionIrrelevant(owner: string, o: Secret, version: nat, strings: Data)
    ensures Satisfied(owner, o.(version := version), strings) == Satisfied(owner, o, strings)
  {
  }

  lemma RoundReady(t: SecretTable, k: Key, owner: string, writers: seq<Data>)
    requires Ready(t, k) && writers != []
    ensures var u := Round(t, k, owner, writers); Ready(u, k) && k in u.objs
  {
    hide Satisfied, Patched;
    if k in t.objs {
      var i := FirstUnsatisfiedWrites(t, k, owner, writers);
    } else {
      LastWriterRemains(t, k, owner, writers);
    }
  }

  /** After as many rounds as there are writers all of them are satisfied, and nothing changes any more. */
  lemma {:induction false} Converges(t: SecretTable, k: Key, owner: string, writers: seq<Data>, n: nat)
    requires Ready(t, k) && Compatible(writers) && writers != [] && n >= |writers|
    ensures var u := Rounds(t, k, owner, writers, |writers|);
      AllSatisfied(u, k, owner, writers) && Rounds(t, k, owner, writers, n) == u
    decreases n
  {
    hide Round, Satisfied;
    RoundsReady(t, k, owner, writers, |writers|);
    assert Unsatisfied(Rounds(t, k, owner, writers, |writers|), k, owner, writers) == {};
    var u := Rounds(t, k, owner, writers, |writers|);
    assert AllSatisfied(u, k, owner, writers) by {
      forall i: nat | i < |writers|
        ensures Satisfied(owner, u.objs[k], writers[i])
      {
        assert i !in Unsatisfied(u, k, owner, writers);
      }
    }
    if n > |writers| {
      Converges(t, k, owner, writers, n - 1);
      RoundProgresses(u, k, owner, writers);
    }
  }

  lemma {:induction false} RoundsReady(t: SecretTable, k: Key, owner: string, writers: seq<Data>, n: nat)
    requires Ready(t, k) && Compatible(writers) && writers != []
    ensures var u := Rounds(t, k, owner, writers, n);
      && Ready(u, k) && (n > 0 ==> k in u.objs)
      && (Unsatisfied(u, k, owner, writers) == {} || |Unsatisfied(u, k, owner, writers)| + n <= |writers|)
  {
    hide Round, Satisfied, Ready;
    if n == 0 {
      SubsetNoLarger(Unsatisfied(t, k, owner, writers), UpTo(|writers|));
    } else {
      var before := Rounds(t, k, owner, writers, n - 1);
      RoundsReady(t, k, owner, writers, n - 1);
      RoundProgresses(before, k, owner, writers);
      if before.objs != map[] && k in before.objs && Unsatisfied(before, k, owner, writers) == {} {
        NoneLeft(before, k, owner, writers);
      } else {
        assert k !in before.objs ==> 0 in Unsatisfied(before, k, owner, writers);
      }
    }
  }

  lemma NoneLeft(t: SecretTable, k: Key, owner: string, writers: seq<Data>)
    requires k in t.objs && Unsatisfied(t, k, owner, writers) == {}
    ensures AllSatisfied(t, k, owner, writers)
  {
    forall i: nat | i < |writers|
      ensures Satisfied(owner, t.objs[k], writers[i])
    {
      assert i !in Unsatisfied(t, k, owner, writers);
    }
  }

  // --- What a reported success means ---

  /** When agreeing writers report no error, all of them are satisfied if and only if the Secret was there before, or
      the last writer brings the entries of all. */
  lemma SuccessMeans(t: SecretTable, k: Key, owner: string, writers: seq<Data>)
    requires Ready(t, k) && Compatible(writers) && writers != []
    requires !Fails(t, k, owner, ReadAll(Lookup(t, k), writers))
    ensures AllSatisfied(Round(t, k, owner, writers), k, owner, writers) <==>
            k in t.objs || forall i | 0 <= i < |writers| :: Contains(writers[|writers| - 1], writers[i])
  {
    hide Satisfied, Patched, Dressed;
    var u := Round(t, k, owner, writers);
    var last := writers[|writers| - 1];
    if k in t.objs {
      SuccessExactly(t, k, owner, writers);
      var x := FirstUnsatisfiedWrites(t, k, owner, writers);
      if !AllSatisfied(t, k, owner, writers) {
        assert x == |writers| - 1;
        forall i | 0 <= i < |writers|
          ensures Satisfied(owner, u.objs[k], writers[i])
        {
          DressedSatisfies(owner, t.objs[k], writers, x, i, u.objs[k].version);
        }
      }
    } else {
      LastWriterRemains(t, k, owner, writers);
      forall i | 0 <= i < |writers|
        ensures Satisfied(owner, u.objs[k], writers[i]) <==> Contains(last, writers[i])
      {
        NewSatisfies(owner, last, writers[i], u.objs[k].version);
      }
    }
  }

  lemma DressedSatisfies(owner: string, o: Secret, writers: seq<Data>, x: nat, i: nat, version: nat)
    requires Compatible(writers) && x < |writers| && i < |writers| && (i == x || Satisfied(owner, o, writers[i]))
    ensures Satisfied(owner, Dressed(owner, o, writers[x]).(version := version), writers[i])
  {
    VersionIrrelevant(owner, Dressed(owner, o, writers[x]), version, writers[i]);
    if i == x {
      SatisfiedExactly(owner, o, writers[x]);
    } else {
      SatisfiedStays(owner, o, writers[i], writers[x]);
    }
  }

  lemma NewSatisfies(owner: string, last: Data, strings: Data, version: nat)
    ensures Satisfied(owner, Dressed(owner, NEW_SECRET, last).(version := version), strings) <==> Contains(last, strings)
  {
    assert map[] + last == last;
  }

  // --- When writers disagree ---

  lemma AllSatisfiedAgree(t: SecretTable, k: Key, owner: string, writers: seq<Data>)
    requires AllSatisfied(t, k, owner, writers)
    ensures writers != [] ==> Compatible(writers) && Accepts(t.objs[k])
  {
    if writers != [] {
      assert Satisfied(owner, t.objs[k], writers[0]);
    }
  }

  /** Disagreeing writers never rest: every round stores a new version. */
  lemma DisagreementNeverRests(t: SecretTable, k: Key, owner: string, writers: seq<Data>)
    requires Ready(t, k) && k in t.objs && !Compatible(writers)
    ensures var u := Round(t, k, owner, writers); k in u.objs && u.objs[k].version > t.objs[k].version
  {
    hide Satisfied, Patched;
    var i := FirstUnsatisfiedWrites(t, k, owner, writers);
    if AllSatisfied(t, k, owner, writers) {
      AllSatisfiedAgree(t, k, owner, writers);
    }
  }

  lemma {:induction false} RefusedChangesNothing(t: SecretTable, k: Key, owner: string, writers: seq<Data>, n: nat)
    requires k in t.objs && !Accepts(t.objs[k])
    ensures Rounds(t, k, owner, writers, n) == t
  {
    if n > 0 {
      RefusedChangesNothing(t, k, owner, writers, n - 1);
      RefusedApply(t, k, owner, writers);
    }
  }

  lemma {:induction false} RefusedApply(t: SecretTable, k: Key, owner: string, writers: seq<Data>)
    requires k in t.objs && !Accepts(t.objs[k])
    ensures ApplyAll(t, k, owner, ReadAll(Some(t.objs[k]), writers)) == t
    decreases |writers|
  {
    if writers != [] {
      var ds := ReadAll(Some(t.objs[k]), writers);
      assert ds[1..] == ReadAll(Some(t.objs[k]), writers[1..]);
      assert FOREGROUND in Content(owner, ds[0]).finalizers;
      assert Patched(t, k, owner, ds[0], ANSWERED).0 == t;
      RefusedApply(t, k, owner, writers[1..]);
    }
  }

  /** All writers are satisfied after some number of rounds if and only if they agree and the server accepts the
      finalizer; then as many rounds as writers are enough. */
  lemma ConvergesExactly(t: SecretTable, k: Key, owner: string, writers: seq<Data>)
    requires Sound(t) && writers != []
    ensures (exists n: nat :: AllSatisfied(Rounds(t, k, owner, writers, n), k, owner, writers)) <==>
            Compatible(writers) && (k in t.objs ==> Accepts(t.objs[k]))
    ensures Compatible(writers) && (k in t.objs ==> Accepts(t.objs[k])) ==>
            AllSatisfied(Rounds(t, k, owner, writers, |writers|), k, owner, writers)
  {
    hide Satisfied, Rounds;
    if Compatible(writers) && (k in t.objs ==> Accepts(t.objs[k])) {
      Converges(t, k, owner, writers, |writers|);
    }
    if n: nat :| AllSatisfied(Rounds(t, k, owner, writers, n), k, owner, writers) {
      AllSatisfiedAgree(Rounds(t, k, owner, writers, n), k, owner, writers);
      if k in t.objs && !Accepts(t.objs[k]) {
        RefusedChangesNothing(t, k, owner, writers, n);
      }
    }
  }

  // --- What the Secret holds then ---

  ghost predicate Unmanaged(writers: seq<Data>, q: string) {
    forall i | 0 <= i < |writers| :: q !in writers[i]
  }

  /** Entries no writer manages, and finalizers, stay. */
  ghost predicate KeepsForeign(o: Secret, u: Secret, writers: seq<Data>) {
    && (forall q | Unmanaged(writers, q) :: (q in u.spec.data <==> q in o.spec.data) && (q in o.spec.data ==> u.spec.data[q] == o.spec.data[q]))
    && u.finalizers + {FOREGROUND} == o.finalizers + {FOREGROUND}
  }

  function Start(t: SecretTable, k: Key): Secret {
    if k in t.objs then t.objs[k] else NEW_SECRET
  }

  lemma DressedKeepsForeign(owner: string, o: Secret, writers: seq<Data>, i: nat, version: nat)
    requires i < |writers|
    ensures KeepsForeign(o, Dressed(owner, o, writers[i]).(version := version), writers)
  {
  }

  lemma RoundKeepsForeign(t: SecretTable, k: Key, owner: string, writers: seq<Data>)
    requires Ready(t, k) && writers != []
    ensures KeepsForeign(Start(t, k), Start(Round(t, k, owner, writers), k), writers)
  {
    hide KeepsForeign, Satisfied, Patched, Dressed;
    RoundReady(t, k, owner, writers);
    var u := Round(t, k, owner, writers);
    if k in t.objs {
      var i := FirstUnsatisfiedWrites(t, k, owner, writers);
      if AllSatisfied(t, k, owner, writers) {
        KeepsForeignRefl(t.objs[k], writers);
      } else {
        DressedKeepsForeign(owner, t.objs[k], writers, i, t.next);
      }
    } else {
      LastWriterRemains(t, k, owner, writers);
      DressedKeepsForeign(owner, NEW_SECRET, writers, |writers| - 1, u.objs[k].version);
    }
  }

  lemma KeepsForeignRefl(o: Secret, writers: seq<Data>)
    ensures KeepsForeign(o, o, writers)
  {
  }

  lemma {:induction false} RoundsKeepForeign(t: SecretTable, k: Key, owner: string, writers: seq<Data>, n: nat)
    requires Ready(t, k) && writers != []
    ensures Ready(Rounds(t, k, owner, writers, n), k)
    ensures KeepsForeign(Start(t, k), Start(Rounds(t, k, owner, writers, n), k), writers)
  {
    hide Round, Ready;
    if n > 0 {
      RoundsKeepForeign(t, k, owner, writers, n - 1);
      RoundKeepsForeign(Rounds(t, k, owner, writers, n - 1), k, owner, writers);
      RoundReady(Rounds(t, k, owner, writers, n - 1), k, owner, writers);
    }
  }

  /** The two writers of the source: within two rounds, conflicts included, the data is the stored data overridden
      by the variables and the credentials, and later rounds change neither data nor version. */
  lemma TwoWritersConverge(t: SecretTable, k: Key, owner: string, variables: Data, credentials: Data, n: nat)
    requires Ready(t, k) && n >= 2
    requires forall q | q in variables && q in credentials :: variables[q] == credentials[q]
    ensures var u := Rounds(t, k, owner, [variables, credentials], n);
      && u == Rounds(t, k, owner, [variables, credentials], 2)
      && k in u.objs
      && u.objs[k].spec == SecretSpec((if k in t.objs then t.objs[k].spec.data else map[]) + variables + credentials, [owner])
      && u.objs[k].finalizers == (if k in t.objs then t.objs[k].finalizers else {}) + {Foreign("foregroundDeletion")}
      && OnlyAt(t, u, k)
  {
    hide Rounds, Satisfied, Ready, Evolves, AllSatisfied;
    var writers := [variables, credentials];
    assert Compatible(writers);
    Converges(t, k, owner, writers, n);
    RoundsKeepForeign(t, k, owner, writers, n);
    RoundsOnlyAt(t, k, owner, writers, n);
    var u := Rounds(t, k, owner, writers, n);
    AllSatisfiedAt(u, k, owner, writers, 0);
    AllSatisfiedAt(u, k, owner, writers, 1);
    SatisfiedMeans(owner, u.objs[k], writers[0]);
    SatisfiedMeans(owner, u.objs[k], writers[1]);
    var d := Start(t, k).spec.data;
    forall q
      ensures q in u.objs[k].spec.data <==> q in d + variables + credentials
      ensures q in u.objs[k].spec.data ==> u.objs[k].spec.data[q] == (d + variables + credentials)[q]
    {
      assert Unmanaged(writers, q) <==> q !in variables && q !in credentials by {
        if Unmanaged(writers, q) { assert q !in writers[0] && q !in writers[1]; }
      }
    }
    assert u.objs[k].spec.data == d + variables + credentials;
  }

  lemma AllSatisfiedAt(t: SecretTable, k: Key, owner: string, writers: seq<Data>, i: nat)
    requires AllSatisfied(t, k, owner, writers) && i < |writers|
    ensures k in t.objs && Satisfied(owner, t.objs[k], writers[i])
  {
  }

  lemma SatisfiedMeans(owner: string, o: Secret, strings: Data)
    requires Satisfied(owner, o, strings)
    ensures Contains(o.spec.data, strings) && FOREGROUND in o.finalizers && o.spec.owners == [owner]
  {
  }

  lemma {:induction false} RoundsOnlyAt(t: SecretTable, k: Key, owner: string, writers: seq<Data>, n: nat)
    ensures OnlyAt(t, Rounds(t, k, owner, writers, n), k)
  {
    if n > 0 {
      RoundsOnlyAt(t, k, owner, writers, n - 1);
    }
  }

  // --- Faults and other writers ---

  ghost predicate Preserves(o: Data, u: SecretTable, k: Key, strings: Data) {
    k in u.objs && forall q | q in o && q !in strings :: q in u.objs[k].spec.data && u.objs[k].spec.data[q] == o[q]
  }

  /** One write, whatever else happened since its read and whatever becomes of its requests, keeps the entries
      it does not manage if and only if its read succeeded, or its update was lost or refused, or there were none.
      A failed read is not reported by DefaultSynchronizer.Get, so the update that follows is unconditional. */
  lemma ForeignKeptExactly(t: SecretTable, k: Key, owner: string, seen: Option<Secret>, strings: Data, fate: Fate)
    requires k in t.objs && (seen.Some? ==> Genuine(t, k, seen.value))
    ensures Preserves(t.objs[k].spec.data, Patched(t, k, owner, Loaded(seen, strings), fate).0, k, strings) <==>
            seen.Some? || fate.update.Lost? || !Accepts(t.objs[k]) || t.objs[k].spec.data.Keys <= strings.Keys
  {
    var o := t.objs[k];
    var d := Loaded(seen, strings);
    var u := Patched(t, k, owner, d, fate).0;
    assert FOREGROUND in Content(owner, d).finalizers;
    if seen.None? && !fate.update.Lost? && Accepts(o) {
      assert u.objs[k].spec.data == map[] + strings;
      if !(o.spec.data.Keys <= strings.Keys) {
        var q :| q in o.spec.data && q !in strings;
        assert q !in u.objs[k].spec.data;
      }
    }
  }

  // --- Whole rounds with faults ---

  /** What a syncer keeps in the Secret: the variables, or, when it is the mapper, entries from a source that must be
      read first and may not be there. */
  datatype Want = Variables(strings: Data) | Credentials(found: Option<Data>)

  datatype Reading = Reading(err: bool, d: Destination, rest: seq<Net>)

  /** Get and Sync of one syncer: whether it fails, the Destination if not, and the fates it leaves. A failed read of
      the Destination is no failure. */
  function ReadOne(want: Want, seen: Option<Secret>, fates: seq<Net>): Reading {
    match want
    case Variables(strings) => Reading(false, Loaded(if First(fates).Delivered? then seen else None, strings), Later(fates))
    case Credentials(found) =>
      if !First(fates).Delivered? || found.None? then Reading(true, Loaded(None, map[]), Later(fates))
      else Reading(false, Loaded(if First(Later(fates)).Delivered? then seen else None, found.value), Later(Later(fates)))
  }

  datatype Readings = Readings(err: bool, ds: seq<Destination>, rest: seq<Net>)

  /** List.Sync. */
  function ReadList(wants: seq<Want>, seen: Option<Secret>, fates: seq<Net>): (r: Readings)
    ensures |r.ds| == |wants|
  {
    if wants == [] then Readings(false, [], fates)
    else
      var one := ReadOne(wants[0], seen, fates);
      var more := ReadList(wants[1..], seen, one.rest);
      Readings(one.err || more.err, [one.d] + more.ds, more.rest)
  }

  function FateOf(fates: seq<Net>): Fate {
    Fate(First(fates), First(Later(fates)))
  }

  /** A create follows an answered update that found nothing. */
  function FatesAfter(t: SecretTable, k: Key, fates: seq<Net>): seq<Net> {
    if First(fates).Delivered? && k !in t.objs then Later(Later(fates)) else Later(fates)
  }

  /** List.Apply, and whether some write fails. */
  function ApplyWith(t: SecretTable, k: Key, owner: string, ds: seq<Destination>, fates: seq<Net>): (r: (SecretTable, bool))
    ensures Evolves(t, r.0) && OnlyAt(t, r.0, k)
    decreases |ds|
  {
    if ds == [] then (t, false)
    else
      var (next, err) := Patched(t, k, owner, ds[0], FateOf(fates));
      var (u, failed) := ApplyWith(next, k, owner, ds[1..], FatesAfter(t, k, fates));
      EvolvesTrans(t, next, u);
      (u, err || failed)
  }

  /** syncSecrets: nothing is written when some Get or Sync fails. */
  function RoundWith(t: SecretTable, k: Key, owner: string, wants: seq<Want>, fates: seq<Net>): (r: (SecretTable, bool))
    ensures Evolves(t, r.0) && OnlyAt(t, r.0, k)
    ensures ReadList(wants, Lookup(t, k), fates).err ==> r == (t, true)
  {
    var readings := ReadList(wants, Lookup(t, k), fates);
    if readings.err then (t, true) else ApplyWith(t, k, owner, readings.ds, readings.rest)
  }

  function StringsOf(want: Want): Data {
    match want case Variables(strings) => strings case Credentials(found) => found.GetOr(map[])
  }

  function WritersOf(wants: seq<Want>): seq<Data> {
    seq(|wants|, i requires 0 <= i < |wants| => StringsOf(wants[i]))
  }

  predicate Found(wants: seq<Want>) {
    forall i | 0 <= i < |wants| && wants[i].Credentials? :: wants[i].found.Some?
  }

  lemma {:induction false} AnsweredReads(wants: seq<Want>, seen: Option<Secret>)
    ensures var r := ReadList(wants, seen, []); r.rest == [] && r.err == !Found(wants)
    ensures Found(wants) ==> ReadList(wants, seen, []).ds == ReadAll(seen, WritersOf(wants))
  {
    if wants != [] {
      AnsweredReads(wants[1..], seen);
      assert Found(wants) <==> (wants[0].Credentials? ==> wants[0].found.Some?) && Found(wants[1..]);
      assert WritersOf(wants) == [StringsOf(wants[0])] + WritersOf(wants[1..]);
    }
  }

  lemma {:induction false} AnsweredWrites(t: SecretTable, k: Key, owner: string, ds: seq<Destination>)
    ensures ApplyWith(t, k, owner, ds, []) == (ApplyAll(t, k, owner, ds), Fails(t, k, owner, ds))
    decreases |ds|
  {
    hide Patched;
    if ds != [] {
      AnsweredWrites(Patched(t, k, owner, ds[0], ANSWERED).0, k, owner, ds[1..]);
    }
  }

  /** Without faults a round is Round, unless a source is missing. */
  lemma AnsweredRound(t: SecretTable, k: Key, owner: string, wants: seq<Want>)
    ensures RoundWith(t, k, owner, wants, []) ==
      if !Found(wants) then (t, true)
      else (Round(t, k, owner, WritersOf(wants)), Fails(t, k, owner, ReadAll(Lookup(t, k), WritersOf(wants))))
  {
    AnsweredReads(wants, Lookup(t, k));
    AnsweredWrites(t, k, owner, ReadAll(Lookup(t, k), WritersOf(wants)));
  }

  /** A faultless round on a stored Secret in which the first writer finds its entries, the finalizer and the owner
      leaves the entries of the second one there, and reports no error. */
  lemma SecondArrives(t: SecretTable, k: Key, owner: string, variables: Data, credentials: Data)
    requires Sound(t) && k in t.objs && Satisfied(owner, t.objs[k], variables)
    ensures var (u, err) := RoundWith(t, k, owner, [Want.Variables(variables), Want.Credentials(Some(credentials))], []);
      !err && k in u.objs && Contains(u.objs[k].spec.data, credentials)
  {
    hide Patched, Satisfied, RoundWith;
    var wants := [Want.Variables(variables), Want.Credentials(Some(credentials))];
    var writers := [variables, credentials];
    assert WritersOf(wants) == writers;
    AnsweredRound(t, k, owner, wants);
    SatisfiedMeans(owner, t.objs[k], variables);
    SuccessExactly(t, k, owner, writers);
    var i := FirstUnsatisfiedWrites(t, k, owner, writers);
    var u := Round(t, k, owner, writers);
    if AllSatisfied(t, k, owner, writers) {
      AllSatisfiedAt(t, k, owner, writers, 1);
      SatisfiedMeans(owner, t.objs[k], credentials);
    } else {
      SatisfiedExactly(owner, t.objs[k], credentials);
      SatisfiedMeans(owner, Dressed(owner, t.objs[k], credentials), credentials);
    }
  }

  /** With the two syncers of the source a round goes on to write if and only if the credentials are there and the
      request for them, the second one, is answered. No other failing read stops it. */
  lemma GoesOnExactly(variables: Data, found: Option<Data>, seen: Option<Secret>, fates: seq<Net>)
    ensures !ReadList([Variables(variables)], seen, fates).err
    ensures !ReadList([Variables(variables), Credentials(found)], seen, fates).err <==> found.Some? && First(Later(fates)).Delivered?
  {
    var wants := [Variables(variables), Credentials(found)];
    var first, second := ReadOne(wants[0], seen, fates), ReadOne(wants[1], seen, Later(fates));
    assert wants[1..] == [wants[1]] && wants[1..][1..] == [];
    assert ReadList(wants[1..], seen, first.rest).err == second.err;
    assert [Variables(variables)][1..] == [];
  }

  /** All Destinations were read, at some time since. */
  ghost predicate AllRead(t: SecretTable, k: Key, ds: seq<Destination>) {
    k in t.objs && forall i | 0 <= i < |ds| :: ds[i] == Loaded(Some(ds[i].secret), ds[i].strings) && Genuine(t, k, ds[i].secret)
  }

  ghost predicate UnmanagedBy(ds: seq<Destination>, q: string) {
    forall i | 0 <= i < |ds| :: q !in ds[i].strings
  }

  ghost predicate SameEntry(o: Secret, u: Secret, q: string) {
    (q in u.spec.data <==> q in o.spec.data) && (q in o.spec.data ==> u.spec.data[q] == o.spec.data[q])
  }

  lemma WriteKeepsUnmanaged(t: SecretTable, k: Key, owner: string, d: Destination, fate: Fate)
    requires k in t.objs && d == Loaded(Some(d.secret), d.strings) && Genuine(t, k, d.secret)
    ensures var u := Patched(t, k, owner, d, fate).0;
      k in u.objs && forall q | q !in d.strings :: SameEntry(t.objs[k], u.objs[k], q)
  {
    assert FOREGROUND in Content(owner, d).finalizers;
  }

  /** When every Destination was read, no fault of the writes touches an entry that nobody manages. */
  lemma {:induction false} ReadWritesKeepUnmanaged(t: SecretTable, k: Key, owner: string, ds: seq<Destination>, fates: seq<Net>)
    requires AllRead(t, k, ds)
    ensures var u := ApplyWith(t, k, owner, ds, fates).0;
      k in u.objs && forall q | UnmanagedBy(ds, q) :: SameEntry(t.objs[k], u.objs[k], q)
    decreases |ds|
  {
    hide Patched, Genuine;
    if ds != [] {
      var next := Patched(t, k, owner, ds[0], FateOf(fates)).0;
      WriteKeepsUnmanaged(t, k, owner, ds[0], FateOf(fates));
      forall i | 0 <= i < |ds|
        ensures Genuine(next, k, ds[i].secret)
      {
        GenuineEvolves(t, next, k, ds[i].secret);
      }
      ReadWritesKeepUnmanaged(next, k, owner, ds[1..], FatesAfter(t, k, fates));
      forall q | UnmanagedBy(ds, q)
        ensures UnmanagedBy(ds[1..], q)
      {
      }
    }
  }

  /** The failing input: the read of the variables' Destination is lost, everything else is answered. The round goes
      on, its first update is unconditional, and an entry that nobody manages is gone. */
  lemma LostReadDrops(t: SecretTable, k: Key, owner: string, variables: Data, credentials: Data, q: string)
    requires Sound(t) && k in t.objs && Accepts(t.objs[k])
    requires q in t.objs[k].spec.data && q !in variables && q !in credentials
    ensures var u := RoundWith(t, k, owner, [Variables(variables), Credentials(Some(credentials))], [Lost]).0;
      k in u.objs && u.objs[k].spec.data == variables && q !in u.objs[k].spec.data
  {
    var o := t.objs[k];
    var wants := [Variables(variables), Credentials(Some(credentials))];
    var ds := [Loaded(None, variables), Loaded(Some(o), credentials)];
    assert wants[1..] == [Credentials(Some(credentials))] && wants[1..][1..] == [];
    assert Later([Lost]) == [];
    assert ReadList(wants[1..], Some(o), []) == Readings(false, [ds[1]], []);
    assert ReadList(wants, Some(o), [Lost]) == Readings(false, ds, []);
    var next := Patched(t, k, owner, ds[0], ANSWERED).0;
    UnreadReplaces(t, k, owner, variables);
    AnsweredWrites(t, k, owner, ds);
    StaleChangesNothing(next, k, owner, ds[1..]);
  }

  lemma UnreadReplaces(t: SecretTable, k: Key, owner: string, strings: Data)
    requires Sound(t) && k in t.objs && Accepts(t.objs[k])
    requires !(t.objs[k].spec.data.Keys <= strings.Keys)
    ensures var u := Patched(t, k, owner, Loaded(None, strings), ANSWERED).0;
      k in u.objs && u.objs[k].spec.data == strings && u.objs[k].version != t.objs[k].version
  {
    assert map[] + strings == strings;
    assert FOREGROUND in Content(owner, Loaded(None, strings)).finalizers;
  }
}
