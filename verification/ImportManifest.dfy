/** Applying the import manifest to the downstream cluster, and the readiness check before it
    (internal/controllers/helpers.go). */
module ImportManifest {
  import opened Network
  import opened Downstream

  type Objects = map<ObjectId, RemoteObject>

  /** Create, where an object that exists already is left alone. */
  function AddOne(objects: Objects, o: ManifestObject): Objects {
    if o.id in objects then objects else objects[o.id := RemoteObject(false, o.body)]
  }

  function AddAll(objects: Objects, items: seq<ManifestObject>): Objects
    decreases |items|
  {
    if items == [] then objects else AddOne(AddAll(objects, items[..|items| - 1]), items[|items| - 1])
  }

  /** The objects of the documents before the first one that cannot be read or decoded. */
  function Readable(docs: seq<Document>): seq<ManifestObject> {
    if docs == [] || docs[0].Broken? then [] else docs[0].items + Readable(docs[1..])
  }

  ghost predicate AllDecoded(docs: seq<Document>) {
    forall d | d in docs :: d.Decoded?
  }

  // --- What applying a manifest means ---

  lemma {:induction false} AddAllAppend(objects: Objects, xs: seq<ManifestObject>, ys: seq<ManifestObject>)
    ensures AddAll(objects, xs + ys) == AddAll(AddAll(objects, xs), ys)
    decreases |ys|
  {
    if ys == [] {
      assert xs + ys == xs;
    } else {
      var n := |ys| - 1;
      assert (xs + ys)[..|xs + ys| - 1] == xs + ys[..n];
      AddAllAppend(objects, xs, ys[..n]);
    }
  }

  /** Every object of the manifest exists afterwards, what existed is unchanged and nothing else appears. */
  lemma {:induction false} AddAllExactly(objects: Objects, items: seq<ManifestObject>)
    ensures AddAll(objects, items).Keys == objects.Keys + (set o | o in items :: o.id)
    ensures forall id | id in objects :: AddAll(objects, items)[id] == objects[id]
    decreases |items|
  {
    if items != [] {
      var n := |items| - 1;
      AddAllExactly(objects, items[..n]);
      assert items == items[..n] + [items[n]];
    }
  }

  /** A new object is as its first occurrence in the manifest says. */
  lemma {:induction false} AddAllFirst(objects: Objects, items: seq<ManifestObject>, i: nat)
    requires i < |items| && items[i].id !in objects
    requires forall j | 0 <= j < i :: items[j].id != items[i].id
    ensures items[i].id in AddAll(objects, items) && AddAll(objects, items)[items[i].id] == RemoteObject(false, items[i].body)
    decreases |items|
  {
    var n := |items| - 1;
    if i < n {
      AddAllFirst(objects, items[..n], i);
    } else {
      AddAllExactly(objects, items[..n]);
    }
  }

  /** Retrying after any prefix was applied gives what one clean run gives. */
  lemma RetryFromPrefix(objects: Objects, items: seq<ManifestObject>, n: nat)
    requires n <= |items|
    ensures AddAll(AddAll(objects, items[..n]), items) == AddAll(objects, items)
  {
    AddAllExactly(objects, items[..n]);
    AddAllPresent(AddAll(objects, items[..n]), items[..n]);
    AddAllAppend(AddAll(objects, items[..n]), items[..n], items[n..]);
    AddAllAppend(objects, items[..n], items[n..]);
    assert items[..n] + items[n..] == items;
  }

  lemma {:induction false} AddAllPresent(objects: Objects, items: seq<ManifestObject>)
    requires forall o | o in items :: o.id in objects
    ensures AddAll(objects, items) == objects
    decreases |items|
  {
    if items != [] {
      AddAllPresent(objects, items[..|items| - 1]);
    }
  }

  lemma {:induction false} ReadableAppend(docs: seq<Document>, more: seq<Document>)
    requires AllDecoded(docs)
    ensures Readable(docs + more) == Readable(docs) + Readable(more)
  {
    if docs == [] {
      assert docs + more == more;
    } else {
      assert docs[0] in docs && (docs + more)[1..] == docs[1..] + more;
      ReadableAppend(docs[1..], more);
      assert Readable(docs + more) == docs[0].items + (Readable(docs[1..]) + Readable(more));
    }
  }

  /** After the documents before `i`, applying `m` objects of document `i` continues the same prefix. */
  lemma AppliedDocument(objects: Objects, docs: seq<Document>, i: nat, m: nat)
    requires i < |docs| && AllDecoded(docs[..i]) && m <= if docs[i].Decoded? then |docs[i].items| else 0
    ensures var done := Readable(docs[..i]);
            && |done| + m <= |Readable(docs)|
            && (docs[i].Decoded? ==> AddAll(AddAll(objects, done), docs[i].items[..m]) == AddAll(objects, Readable(docs)[..|done| + m]))
            && (docs[i].Broken? ==> Readable(docs) == done)
            && (docs[i].Decoded? && m == |docs[i].items| ==>
                  AllDecoded(docs[..i + 1]) && Readable(docs[..i + 1]) == Readable(docs)[..|done| + m])
  {
    hide AddAll;
    var done := Readable(docs[..i]);
    assert docs == docs[..i] + docs[i..];
    ReadableAppend(docs[..i], docs[i..]);
    if docs[i].Decoded? {
      assert Readable(docs)[..|done| + m] == done + docs[i].items[..m];
      AddAllAppend(objects, done, docs[i].items[..m]);
      assert docs[..i + 1] == docs[..i] + [docs[i]];
      ReadableAppend(docs[..i], [docs[i]]);
    }
  }

  /** The documents before `i` are applied, which are the first `n` objects. */
  ghost predicate Applying(was: Objects, docs: seq<Document>, i: nat, n: nat, objects: Objects) {
    && i <= |docs| && AllDecoded(docs[..i])
    && n == |Readable(docs[..i])| <= |Readable(docs)| && Readable(docs)[..n] == Readable(docs[..i])
    && objects == AddAll(was, Readable(docs)[..n])
  }

  lemma StartApplying(objects: Objects, docs: seq<Document>)
    ensures Applying(objects, docs, 0, 0, objects)
  {
    assert docs[..0] == [] && Readable(docs)[..0] == [];
  }

  /** After `m` objects of document `i`. */
  lemma NextApplied(was: Objects, docs: seq<Document>, i: nat, n: nat, objects: Objects, m: nat, after: Objects)
    requires i < |docs| && Applying(was, docs, i, n, objects)
    requires if docs[i].Broken? then m == 0 && after == objects
             else m <= |docs[i].items| && after == AddAll(objects, docs[i].items[..m])
    ensures n + m <= |Readable(docs)| && after == AddAll(was, Readable(docs)[..n + m])
    ensures docs[i].Decoded? && m == |docs[i].items| ==> Applying(was, docs, i + 1, n + m, after)
    ensures docs[i].Broken? ==> n + m == |Readable(docs)| && !AllDecoded(docs)
  {
    hide AddAll;
    AppliedDocument(was, docs, i, m);
    if docs[i].Broken? {
      assert docs[i] in docs;
    }
  }

  lemma AllApplied(was: Objects, docs: seq<Document>, n: nat, objects: Objects)
    requires Applying(was, docs, |docs|, n, objects)
    ensures AllDecoded(docs) && n == |Readable(docs)| && objects == AddAll(was, Readable(docs)[..n])
  {
    assert docs[..|docs|] == docs;
  }

  // --- Readiness ---

  /** validateImportReadiness on a cluster that answers: a cleanup job asks to wait, else the first document
      that is broken fails and the first object that is being deleted asks to wait. */
  datatype Readiness = Ready | Wait | Failed

  function Check(remote: Remote, docs: seq<Document>): Readiness {
    if remote.cleanupJob then Wait else DocsReady(remote.objects, docs)
  }

  function DocsReady(objects: Objects, docs: seq<Document>): Readiness {
    if docs == [] then Readiness.Ready
    else if docs[0].Broken? then Failed
    else if exists o :: o in docs[0].items && Deleting(objects, o) then Wait
    else DocsReady(objects, docs[1..])
  }

  predicate Deleting(objects: Objects, o: ManifestObject) {
    o.id in objects && objects[o.id].deleting
  }

  /** Ready means: no cleanup job, every document decodes, no object of the manifest is being deleted. */
  lemma {:induction false} ReadyExactly(objects: Objects, docs: seq<Document>)
    ensures DocsReady(objects, docs).Ready? <==>
      AllDecoded(docs) && forall o | o in Readable(docs) :: !Deleting(objects, o)
  {
    if docs != [] {
      ReadyExactly(objects, docs[1..]);
      if docs[0].Decoded? {
        assert forall o | o in docs[0].items :: o in Readable(docs);
        assert docs == [docs[0]] + docs[1..];
      } else {
        assert docs[0] in docs;
      }
    }
  }

  /** The readable objects, in plain terms. */
  lemma {:induction false} ReadableAre(docs: seq<Document>)
    ensures forall o :: o in Readable(docs) <==> exists i :: 0 <= i < |docs| && ReachedAt(docs, i, o)
  {
    if docs != [] && docs[0].Decoded? {
      ReadableAre(docs[1..]);
      forall o
        ensures o in Readable(docs) <==> exists i :: 0 <= i < |docs| && ReachedAt(docs, i, o)
      {
        if o in docs[0].items {
          assert ReachedAt(docs, 0, o);
        }
        if o in Readable(docs[1..]) {
          var i :| 0 <= i < |docs[1..]| && ReachedAt(docs[1..], i, o);
          assert forall j | 0 < j < i + 2 && j < |docs| :: docs[j] == docs[1..][j - 1];
          assert ReachedAt(docs, i + 1, o);
        }
        if i :| 0 < i < |docs| && ReachedAt(docs, i, o) {
          assert forall j | 0 <= j < i :: docs[1..][j] == docs[j + 1];
          assert ReachedAt(docs[1..], i - 1, o);
        }
      }
    }
  }

  /** Document `i` holds `o`, and no document up to it is broken. */
  ghost predicate ReachedAt(docs: seq<Document>, i: nat, o: ManifestObject)
    requires i < |docs|
  {
    (forall j | 0 <= j <= i :: docs[j].Decoded?) && o in docs[i].items
  }

  /** Wait means a cleanup job, or an object of the readable documents that is being deleted; failure that there is
      neither, but a broken document. */
  lemma {:induction false} DocsReadyIs(objects: Objects, docs: seq<Document>)
    ensures DocsReady(objects, docs).Wait? <==> exists o :: o in Readable(docs) && o.id in objects && objects[o.id].deleting
    ensures DocsReady(objects, docs).Ready? ==> AllDecoded(docs)
    ensures DocsReady(objects, docs).Failed? ==> !AllDecoded(docs)
  {
    if docs != [] {
      DocsReadyIs(objects, docs[1..]);
      if docs[0].Decoded? {
        assert docs == [docs[0]] + docs[1..];
      } else {
        assert docs[0] in docs;
      }
    }
  }

  /** The three answers in plain terms. A running cleanup job always asks to wait. */
  lemma CheckExactly(remote: Remote, docs: seq<Document>)
    ensures Check(remote, docs).Wait? <==>
      remote.cleanupJob || exists o :: o in Readable(docs) && o.id in remote.objects && remote.objects[o.id].deleting
    ensures Check(remote, docs).Ready? <==>
      && !remote.cleanupJob && AllDecoded(docs)
      && forall o | o in Readable(docs) :: !(o.id in remote.objects && remote.objects[o.id].deleting)
    ensures Check(remote, docs).Failed? <==>
      && !remote.cleanupJob && !AllDecoded(docs)
      && forall o | o in Readable(docs) :: !(o.id in remote.objects && remote.objects[o.id].deleting)
  {
    DocsReadyIs(remote.objects, docs);
  }

  /** When every document decodes, all their objects are read. */
  lemma {:induction false} AllReadable(docs: seq<Document>)
    requires AllDecoded(docs)
    ensures forall d, o | d in docs && o in d.items :: o in Readable(docs)
  {
    if docs != [] {
      assert docs[0] in docs && docs == [docs[0]] + docs[1..];
      AllReadable(docs[1..]);
    }
  }

  // --- The client of one downstream cluster ---

  class RemoteClient {
    var remote: Remote
    /** The fate of the coming requests; when it is used up, every request is answered. */
    var faults: seq<Net>

    constructor (remote: Remote, faults: seq<Net>)
      ensures this.remote == remote && this.faults == faults
    {
      this.remote := remote;
      this.faults := faults;
    }

    method NextFault() returns (f: Net)
      modifies this`faults
      ensures f == First(old(faults)) && faults == Later(old(faults))
    {
      f, faults := First(faults), Later(faults);
    }

    method CreateObject(o: ManifestObject) returns (err: bool)
      modifies this
      ensures remote == old(remote).(objects := remote.objects)
      ensures remote.objects == old(remote).objects || remote.objects == AddOne(old(remote).objects, o)
      ensures !err ==> remote.objects == AddOne(old(remote).objects, o)
      ensures old(faults) == [] ==> faults == [] && !err
    {
      var f := NextFault();
      if f != Lost {
        remote := remote.(objects := AddOne(remote.objects, o));
      }
      err := f != Delivered;
    }

    method CreateRawManifest(doc: Document) returns (err: bool, ghost n: nat)
      modifies this
      ensures remote == old(remote).(objects := remote.objects)
      ensures doc.Broken? ==> err && n == 0 && remote == old(remote)
      ensures doc.Decoded? ==> n <= |doc.items| && remote.objects == AddAll(old(remote).objects, doc.items[..n])
      ensures doc.Decoded? && !err ==> n == |doc.items|
      ensures old(faults) == [] ==> faults == [] && err == doc.Broken?
    {
      n := 0;
      if doc.Broken? {
        return true, 0;
      }
      var i := 0;
      err := false;
      while i < |doc.items|
        invariant 0 <= i <= |doc.items| && n == i && !err
        invariant remote == old(remote).(objects := remote.objects)
        invariant remote.objects == AddAll(old(remote).objects, doc.items[..i])
        invariant old(faults) == [] ==> faults == []
      {
        assert doc.items[..i + 1][..i] == doc.items[..i];
        ghost var was := remote.objects;
        err := CreateObject(doc.items[i]);
        if err {
          n := if remote.objects == was then i else i + 1;
          return;
        }
        i := i + 1;
        n := i;
      }
      assert doc.items[..i] == doc.items;
    }

    /** Success applies the whole manifest; failure leaves exactly a prefix of it applied. */
    method CreateImportManifest(docs: seq<Document>) returns (err: bool, ghost n: nat)
      modifies this
      ensures remote == old(remote).(objects := remote.objects)
      ensures n <= |Readable(docs)| && remote.objects == AddAll(old(remote).objects, Readable(docs)[..n])
      ensures !err ==> AllDecoded(docs) && n == |Readable(docs)|
      ensures !err ==> forall d, o | d in docs && d.Decoded? && o in d.items :: o.id in remote.objects
      ensures forall id | id in old(remote).objects :: id in remote.objects && remote.objects[id] == old(remote).objects[id]
      ensures forall id | id in remote.objects && id !in old(remote).objects ::
        exists o :: o in Readable(docs)[..n] && o.id == id
      ensures old(faults) == [] ==> faults == [] && (err <==> !AllDecoded(docs)) && n == |Readable(docs)|
    {
      hide AddAll, Readable, AllDecoded;
      var i := 0;
      n := 0;
      err := false;
      StartApplying(remote.objects, docs);
      while i < |docs|
        invariant 0 <= i <= |docs| && !err
        invariant Applying(old(remote).objects, docs, i, n, remote.objects)
        invariant remote == old(remote).(objects := remote.objects)
        invariant old(faults) == [] ==> faults == []
      {
        ghost var was := remote.objects;
        ghost var m;
        err, m := CreateRawManifest(docs[i]);
        NextApplied(old(remote).objects, docs, i, n, was, m, remote.objects);
        n := n + m;
        if err {
          AddAllExactly(old(remote).objects, Readable(docs)[..n]);
          return;
        }
        i := i + 1;
      }
      AllApplied(old(remote).objects, docs, n, remote.objects);
      AllReadable(docs);
      assert Readable(docs)[..n] == Readable(docs);
      AddAllExactly(old(remote).objects, Readable(docs)[..n]);
    }

    method CheckDeletion(o: ManifestObject) returns (requeue: bool, err: bool)
      modifies this`faults
      ensures !err ==> requeue == Deleting(remote.objects, o)
      ensures err ==> !requeue
      ensures old(faults) == [] ==> faults == [] && !err
    {
      var f := NextFault();
      err := f != Delivered;
      requeue := !err && o.id in remote.objects && remote.objects[o.id].deleting;
    }

    method VerifyRawManifest(doc: Document) returns (requeue: bool, err: bool)
      modifies this`faults
      ensures !err && !requeue ==> doc.Decoded? && forall o | o in doc.items :: !Deleting(remote.objects, o)
      ensures requeue ==> !err && doc.Decoded? && exists o :: o in doc.items && Deleting(remote.objects, o)
      ensures old(faults) == [] ==> faults == [] && err == doc.Broken?
    {
      if doc.Broken? {
        return false, true;
      }
      var i := 0;
      while i < |doc.items|
        invariant 0 <= i <= |doc.items|
        invariant forall j | 0 <= j < i :: !Deleting(remote.objects, doc.items[j])
        invariant old(faults) == [] ==> faults == []
      {
        requeue, err := CheckDeletion(doc.items[i]);
        if err || requeue {
          return;
        }
        i := i + 1;
      }
      requeue, err := false, false;
    }

    /** Neither error nor requeue is returned only when the cluster is ready; with answered requests the result
        is exactly Check. */
    method ValidateImportReadiness(docs: seq<Document>) returns (requeue: bool, err: bool)
      modifies this`faults
      ensures !err && !requeue ==> Check(remote, docs).Ready? && !remote.cleanupJob
      ensures requeue ==> !err && Check(remote, docs).Wait?
      ensures old(faults) == [] ==> faults == [] && (err <==> Check(remote, docs).Failed?)
    {
      var f := NextFault();
      if f != Delivered {
        return false, true;
      }
      if remote.cleanupJob {
        return true, false;
      }
      var i := 0;
      while i < |docs|
        invariant 0 <= i <= |docs|
        invariant DocsReady(remote.objects, docs) == DocsReady(remote.objects, docs[i..])
        invariant old(faults) == [] ==> faults == []
      {
        requeue, err := VerifyRawManifest(docs[i]);
        if err || requeue {
          return;
        }
        i := i + 1;
      }
      requeue, err := false, false;
    }

    /** removeFleetNamespace: `migrated` asks the caller to annotate the Rancher cluster. It is set only when the
        old agent namespace is gone and the new one exists. */
    method RemoveFleetNamespace() returns (requeue: bool, migrated: bool, err: bool)
      modifies this
      ensures remote == old(remote).(fleetAgent := remote.fleetAgent)
      ensures remote.fleetAgent == old(remote).fleetAgent || (old(remote).fleetAgent == Active && remote.fleetAgent == Terminating)
      ensures migrated ==> !requeue && !err && remote.fleetAgent == Absent && remote.fleetSystem
      ensures !migrated ==> requeue
      ensures old(faults) == [] ==>
        && faults == []
        && (migrated <==> old(remote).fleetAgent.Absent? && old(remote).fleetSystem)
        && (err <==> old(remote).fleetAgent.Absent? && !old(remote).fleetSystem)
        && (!old(remote).fleetAgent.Absent? ==> remote.fleetAgent.Terminating?)
    {
      requeue, migrated, err := true, false, false;
      var f := NextFault();
      if f != Delivered {
        return true, false, true;
      }
      if remote.fleetAgent != Absent {
        f := NextFault();
        if f != Lost {
          remote := remote.(fleetAgent := Terminating);
        }
        if f != Delivered {
          return true, false, true;
        }
      }
      f := NextFault();
      if f == Delivered && remote.fleetAgent == Absent {
        f := NextFault();
        if f != Delivered || !remote.fleetSystem {
          return true, false, true;
        }
        return false, true, false;
      }
    }

    /** The end of reconcileNormal: whatever fails on the way, nothing is written unless the cluster was ready,
        and then a prefix of the manifest is. */
    method ApplyWhenReady(docs: seq<Document>) returns (requeue: bool, err: bool)
      modifies this
      ensures remote != old(remote) ==> Check(old(remote), docs).Ready? && !old(remote).cleanupJob
      ensures remote != old(remote) ==> forall d | d in docs ::
        d.Decoded? && forall o | o in d.items :: !(o.id in old(remote).objects && old(remote).objects[o.id].deleting)
      ensures exists n :: 0 <= n <= |Readable(docs)|
                && remote == old(remote).(objects := AddAll(old(remote).objects, Readable(docs)[..n]))
                && (!err && !requeue ==> n == |Readable(docs)|)
      ensures old(faults) == [] ==>
        && (requeue <==> Check(old(remote), docs).Wait?) && (err <==> Check(old(remote), docs).Failed?)
        && remote == if Check(old(remote), docs).Ready? then old(remote).(objects := AddAll(old(remote).objects, Readable(docs)))
                     else old(remote)
    {
      assert remote == remote.(objects := AddAll(remote.objects, Readable(docs)[..0]));
      requeue, err := ValidateImportReadiness(docs);
      if err || requeue {
        return;
      }
      CheckExactly(remote, docs);
      AllReadable(docs);
      ghost var n;
      err, n := CreateImportManifest(docs);
      assert Readable(docs)[..|Readable(docs)|] == Readable(docs);
    }
  }
}
