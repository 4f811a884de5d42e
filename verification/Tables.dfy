/** The API server's storage of one kind of object: resource versions, deletion timestamps, finalizers and
    optimistic locking. The server itself is not part of the repository; these functions state what the
    controllers rely on. */
module Tables {
  import opened Wrappers

  datatype Finalizer = Turtles | FleetAddon | Foreign(id: string)

  /** `version` is the resource version, `deleting` says that a deletion timestamp is set. */
  datatype Object<S> = Object(version: nat, deleting: bool, finalizers: set<Finalizer>, spec: S)

  datatype Outcome = Applied | NotFound | Conflict | Invalid | AlreadyExists

  /** `next` is the resource version the next write receives. */
  datatype Table<K(==), S(==)> = Table(objs: map<K, Object<S>>, next: nat)

  function Lookup<K(==), S(==)>(t: Table<K, S>, k: K): Option<Object<S>> {
    if k in t.objs then Some(t.objs[k]) else None
  }

  /** Every object of `t'` is an untouched object of `t` or carries a version that `t` had not issued. */
  ghost predicate Evolves<K(!new), S(!new)>(t: Table<K, S>, t': Table<K, S>) {
    && t.next <= t'.next
    && forall k | k in t'.objs ::
         || (k in t.objs && t'.objs[k] == t.objs[k])
         || t.next <= t'.objs[k].version < t'.next
  }

  /** Nothing but the object at `k` differs. */
  ghost predicate OnlyAt<K(!new), S(!new)>(t: Table<K, S>, t': Table<K, S>, k: K) {
    forall j | j != k :: (j in t'.objs <==> j in t.objs) && (j in t.objs ==> t'.objs[j] == t.objs[j])
  }

  ghost predicate Sound<K(!new), S(!new)>(t: Table<K, S>) {
    forall k | k in t.objs :: t.objs[k].version < t.next
  }

  /** Memory that cannot mislead a write: `o` is not newer than the table, and while the table still holds its
      version it is the stored object. Everything ever stored under `k` is like that (StoredIsGenuine in
      ImportAgain); so are objects that were not, which makes what holds for all genuine objects the stronger. */
  predicate Genuine<K(==), S(==)>(t: Table<K, S>, k: K, o: Object<S>) {
    && o.version < t.next
    && (k in t.objs && t.objs[k].version == o.version ==> t.objs[k] == o)
  }

  lemma GenuineEvolves<K(!new), S(!new)>(t: Table<K, S>, t': Table<K, S>, k: K, o: Object<S>)
    requires Evolves(t, t') && Genuine(t, k, o)
    ensures Genuine(t', k, o)
  {
  }

  /** Stores `o` at `k`: a write that changes nothing keeps the version, and a deleting object that lost its
      last finalizer disappears. */
  function Store<K(==, !new), S(==, !new)>(t: Table<K, S>, k: K, o: Object<S>): (r: Table<K, S>)
    requires k in t.objs
    ensures Evolves(t, r)
    ensures OnlyAt(t, r, k)
    ensures k in r.objs ==> r.objs[k].(version := o.version) == o
    ensures k !in r.objs <==> o.deleting && o.finalizers == {}
  {
    var was := t.objs[k];
    if o.deleting && o.finalizers == {} then
      Table(t.objs - {k}, t.next + 1)
    else if o.(version := was.version) == was then
      t
    else
      Table(t.objs[k := o.(version := t.next)], t.next + 1)
  }

  /** Replaces the whole object, guarded by the version the caller holds. A deletion timestamp cannot be
      written by clients, and a deleting object accepts no new finalizer. */
  function Update<K(==, !new), S(==, !new)>(t: Table<K, S>, k: K, o: Object<S>): (r: (Table<K, S>, Outcome))
    ensures Evolves(t, r.0) && OnlyAt(t, r.0, k)
    ensures r.1 != Applied ==> r.0 == t
  {
    if k !in t.objs then
      (t, NotFound)
    else if o.version != t.objs[k].version then
      (t, Conflict)
    else if t.objs[k].deleting && !(o.finalizers <= t.objs[k].finalizers) then
      (t, Invalid)
    else
      (Store(t, k, o.(deleting := t.objs[k].deleting)), Applied)
  }

  /** A merge patch with optimistic lock. It sends what differs between `base` and `o`, with the version of
      `base`; the finalizer list is one JSON value. `merged` is the stored spec with the differing fields
      overlaid, computed by the caller who knows the fields. */
  function Patch<K(==, !new), S(==, !new)>(t: Table<K, S>, k: K, base: Object<S>, o: Object<S>, merged: S)
    : (r: (Table<K, S>, Outcome))
    ensures Evolves(t, r.0) && OnlyAt(t, r.0, k)
    ensures r.1 != Applied ==> r.0 == t
  {
    if k !in t.objs then
      (t, NotFound)
    else if base.version != t.objs[k].version then
      (t, Conflict)
    else
      var finalizers := if o.finalizers == base.finalizers then t.objs[k].finalizers else o.finalizers;
      if t.objs[k].deleting && !(finalizers <= t.objs[k].finalizers) then
        (t, Invalid)
      else
        (Store(t, k, t.objs[k].(finalizers := finalizers, spec := merged)), Applied)
  }

  /** Sets the deletion timestamp, or removes an object that has no finalizer. */
  function Delete<K(==, !new), S(==, !new)>(t: Table<K, S>, k: K): (r: Table<K, S>)
    ensures Evolves(t, r)
    ensures OnlyAt(t, r, k)
    ensures k in r.objs ==> k in t.objs && r.objs[k] == t.objs[k].(version := r.objs[k].version, deleting := true)
  {
    if k in t.objs then Store(t, k, t.objs[k].(deleting := true)) else t
  }

  function Insert<K(==, !new), S(==, !new)>(t: Table<K, S>, k: K, o: Object<S>): (r: (Table<K, S>, Outcome))
    ensures Evolves(t, r.0) && OnlyAt(t, r.0, k)
    ensures r.1 != Applied ==> r.0 == t
  {
    if k in t.objs then
      (t, AlreadyExists)
    else
      (Table(t.objs[k := o.(version := t.next, deleting := false)], t.next + 1), Applied)
  }
}
