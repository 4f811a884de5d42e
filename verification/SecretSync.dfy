/** The two syncers of a provider's config Secret and the list that runs them (internal/sync/secret_sync.go,
    secret_mapper_sync.go, core.go, client.go, interface.go; syncSecrets in internal/controllers). */
module SecretSync {
  import opened Wrappers
  import opened Network
  import opened Tables
  import opened Downstream
  import opened Credentials
  import opened SecretRounds

  datatype CloudSecret = CloudSecret(id: SecretName, name: Option<string>, driver: Option<string>, data: Data)

  datatype Condition = Unset | CredentialSourceMissing | CredentialKeyMissing(keys: seq<string>) | CredentialsMapped

  datatype CredentialsSpec = CredentialsSpec(credential: string, namespaceName: string)

  /** The API server with the Secrets the syncers use. */
  class SecretServer {
    var secrets: SecretTable
    var clouds: seq<CloudSecret>
    /** The fate of the coming requests; when it is used up, every request is answered. */
    var fates: seq<Net>

    constructor (secrets: SecretTable, clouds: seq<CloudSecret>, fates: seq<Net>)
      ensures this.secrets == secrets && this.clouds == clouds && this.fates == fates
    {
      this.secrets, this.clouds, this.fates := secrets, clouds, fates;
    }

    method Next() returns (net: Net)
      modifies this`fates
      ensures net == First(old(fates)) && fates == Later(old(fates))
    {
      net, fates := First(fates), Later(fates);
    }

    method GetSecret(k: Key) returns (seen: Option<Secret>, err: bool)
      modifies this`fates
      ensures seen == if err then None else Lookup(secrets, k)
      ensures err == (First(old(fates)) != Delivered) && fates == Later(old(fates))
    {
      var net := Next();
      err := net != Delivered;
      seen := if err then None else Lookup(secrets, k);
    }

    /** Patch of client.go; the create uses the next fate. */
    method Patch(k: Key, ghost owner: string, version: Option<nat>, o: Secret, ghost d: Destination) returns (err: bool)
      requires o == Content(owner, d) && version == d.version
      modifies this`secrets, this`fates
      ensures (secrets, err) == Patched(old(secrets), k, owner, d, FateOf(old(fates)))
      ensures fates == FatesAfter(old(secrets), k, old(fates))
    {
      var net := Next();
      var (updated, outcome) := SendUpdate(secrets, k, version, o);
      if net == Delivered && outcome == NotFound {
        var again := Next();
        var (created, result) := SendCreate(secrets, k, version, o);
        if again != Lost {
          secrets := created;
        }
        return again != Delivered || result != Applied;
      }
      if net != Lost {
        secrets := updated;
      }
      err := net != Delivered || outcome != Applied;
    }
  }

  /** The provider, whose status the syncers read and whose conditions they set. */
  class CAPIProvider {
    const id: string
    const providerName: string
    const secretKey: Key
    const credentials: Option<CredentialsSpec>
    var variables: Data
    var condition: Condition

    constructor (id: string, providerName: string, secretKey: Key, credentials: Option<CredentialsSpec>, variables: Data)
      ensures this.id == id && this.providerName == providerName && this.secretKey == secretKey
      ensures this.credentials == credentials && this.variables == variables && condition == Unset
    {
      this.id, this.providerName, this.secretKey := id, providerName, secretKey;
      this.credentials, this.variables, this.condition := credentials, variables, Unset;
    }
  }

  const NEW_DESTINATION: Destination := Destination(None, NEW_SECRET, map[])

  /** Also DefaultSynchronizer, which it embeds. */
  class SecretSync {
    const server: SecretServer
    const source: CAPIProvider
    var destination: Destination

    constructor (server: SecretServer, source: CAPIProvider)
      ensures this.server == server && this.source == source && destination == NEW_DESTINATION
    {
      this.server, this.source, this.destination := server, source, NEW_DESTINATION;
    }

    /** A failing read is logged and forgotten. */
    method Get()
      requires destination == NEW_DESTINATION
      modifies this, server`fates
      ensures destination == Loaded(if First(old(server.fates)).Delivered? then Lookup(server.secrets, source.secretKey) else None, map[])
      ensures server.fates == Later(old(server.fates))
    {
      var seen, err := server.GetSecret(source.secretKey);
      if seen.Some? {
        destination := Loaded(seen, map[]);
      }
    }

    method SyncObjects()
      modifies this
      ensures destination == old(destination).(strings := source.variables)
    {
      destination := destination.(strings := source.variables);
    }

    method Apply() returns (err: bool)
      modifies this, server`secrets, server`fates
      ensures (server.secrets, err) == Patched(old(server.secrets), source.secretKey, source.id, old(destination), FateOf(old(server.fates)))
      ensures server.fates == FatesAfter(old(server.secrets), source.secretKey, old(server.fates))
    {
      ghost var d := destination;
      SetFinalizers();
      SetOwnerReference();
      var o := destination.secret.(spec := destination.secret.spec.(data := destination.secret.spec.data + destination.strings));
      err := server.Patch(source.secretKey, source.id, destination.version, o, d);
    }

    method SetFinalizers()
      modifies this
      ensures destination == old(destination).(secret := old(destination.secret).(finalizers := old(destination.secret.finalizers) + {FOREGROUND}))
    {
      if FOREGROUND in destination.secret.finalizers {
        assert destination.secret.finalizers + {FOREGROUND} == destination.secret.finalizers;
        return;
      }
      destination := destination.(secret := destination.secret.(finalizers := destination.secret.finalizers + {FOREGROUND}));
    }

    method SetOwnerReference()
      modifies this
      ensures destination == old(destination).(secret := old(destination.secret).(spec := old(destination.secret.spec).(owners := [source.id])))
    {
      destination := destination.(secret := destination.secret.(spec := destination.secret.spec.(owners := [source.id])));
    }
  }

  function DriverOf(providerName: string): string {
    if providerName == "vsphere" then "vmwarevsphere" else providerName
  }

  predicate Matches(c: CloudSecret, name: string, driver: string) {
    c.name == Some(name) && c.driver == Some(driver)
  }

  function ByReference(clouds: seq<CloudSecret>, id: SecretName): Option<Data> {
    if clouds == [] then None
    else if clouds[0].id == id then Some(clouds[0].data)
    else ByReference(clouds[1..], id)
  }

  /** The first secret of the default namespace with the name and driver annotations. */
  function ByAnnotations(clouds: seq<CloudSecret>, name: string, driver: string): Option<Data> {
    if clouds == [] then None
    else if clouds[0].id.ns == RANCHER_CREDENTIALS_NAMESPACE && Matches(clouds[0], name, driver) then Some(clouds[0].data)
    else ByAnnotations(clouds[1..], name, driver)
  }

  /** A reference that is set is not followed by a search. */
  function Located(clouds: seq<CloudSecret>, spec: CredentialsSpec, id: SecretName, providerName: string): Option<Data> {
    if spec.namespaceName != "" then ByReference(clouds, id)
    else ByAnnotations(clouds, id.name, DriverOf(providerName))
  }

  /** The cloud credential that is meant: by its name when a reference is given, else by its annotations in the default
      namespace. */
  predicate IsMeant(c: CloudSecret, spec: CredentialsSpec, id: SecretName, providerName: string) {
    if spec.namespaceName != "" then c.id == id
    else
      && c.id.ns == "cattle-global-data" && c.name == Some(id.name)
      && c.driver == Some(if providerName == "vsphere" then "vmwarevsphere" else providerName)
  }

  ghost predicate FirstMeant(clouds: seq<CloudSecret>, i: nat, spec: CredentialsSpec, id: SecretName, providerName: string) {
    && i < |clouds| && IsMeant(clouds[i], spec, id, providerName)
    && forall j | 0 <= j < i :: !IsMeant(clouds[j], spec, id, providerName)
  }

  /** The first one that is meant is located, and none exactly when there is none. */
  lemma {:induction false} LocatedExactly(clouds: seq<CloudSecret>, spec: CredentialsSpec, id: SecretName, providerName: string)
    ensures Located(clouds, spec, id, providerName).None? <==> forall c | c in clouds :: !IsMeant(c, spec, id, providerName)
    ensures forall i: nat | FirstMeant(clouds, i, spec, id, providerName) :: Located(clouds, spec, id, providerName) == Some(clouds[i].data)
  {
    if clouds != [] {
      LocatedExactly(clouds[1..], spec, id, providerName);
      assert Located(clouds, spec, id, providerName) ==
        if IsMeant(clouds[0], spec, id, providerName) then Some(clouds[0].data) else Located(clouds[1..], spec, id, providerName);
      assert forall c :: c in clouds <==> c == clouds[0] || c in clouds[1..];
      forall i: nat | FirstMeant(clouds, i, spec, id, providerName)
        ensures Located(clouds, spec, id, providerName) == Some(clouds[i].data)
      {
        if i > 0 {
          assert !IsMeant(clouds[0], spec, id, providerName);
          assert forall j | 0 <= j < i - 1 :: clouds[1..][j] == clouds[j + 1];
          assert FirstMeant(clouds[1..], i - 1, spec, id, providerName);
        }
      }
    }
  }

  class SecretMapperSync {
    const secretSync: SecretSync
    const spec: CredentialsSpec
    const id: SecretName
    const render: Data -> Rendering
    var rancherSecret: Data

    constructor (secretSync: SecretSync, spec: CredentialsSpec, id: SecretName, render: Data -> Rendering)
      ensures this.secretSync == secretSync && this.spec == spec && this.id == id && this.render == render && rancherSecret == map[]
    {
      this.secretSync, this.spec, this.id, this.render, this.rancherSecret := secretSync, spec, id, render, map[];
    }

    ghost function Source(): Option<Data>
      reads this, secretSync, secretSync.server
    {
      Located(secretSync.server.clouds, spec, id, secretSync.source.providerName)
    }

    /** Fails when the source is not there or the request for it is not answered; only then the Destination is not
        read. */
    method Get() returns (err: bool)
      requires secretSync.destination == NEW_DESTINATION
      modifies this, secretSync, secretSync.server`fates, secretSync.source`condition
      ensures err <==> Source().None? || First(old(secretSync.server.fates)) != Delivered
      ensures err ==> rancherSecret == old(rancherSecret) && secretSync.server.fates == Later(old(secretSync.server.fates))
      ensures err && (First(old(secretSync.server.fates)).Delivered? || spec.namespaceName != "") ==>
        secretSync.source.condition == CredentialSourceMissing
      ensures !err ==>
        && rancherSecret == Source().value
        && secretSync.destination == Loaded(if First(Later(old(secretSync.server.fates))).Delivered?
                                            then Lookup(secretSync.server.secrets, secretSync.source.secretKey) else None, map[])
        && secretSync.server.fates == Later(Later(old(secretSync.server.fates)))
    {
      var found: Option<Data> := None;
      var net := secretSync.server.Next();
      if spec.namespaceName != "" {
        if net == Delivered {
          found := ByReference(secretSync.server.clouds, id);
        }
      } else if net != Delivered {
        return true;
      } else {
        var driver := DriverOf(secretSync.source.providerName);
        var clouds := secretSync.server.clouds;
        var i := 0;
        while i < |clouds| && found.None?
          invariant 0 <= i <= |clouds|
          invariant ByAnnotations(clouds, id.name, driver) == if found.Some? then found else ByAnnotations(clouds[i..], id.name, driver)
        {
          if clouds[i].id.ns == RANCHER_CREDENTIALS_NAMESPACE && Matches(clouds[i], id.name, driver) {
            found := Some(clouds[i].data);
          }
          i := i + 1;
        }
      }
      if found.Some? {
        rancherSecret := found.value;
        secretSync.Get();
        return false;
      }
      secretSync.source.condition := CredentialSourceMissing;
      err := true;
    }

    /** Missing keys are reported in the condition, not as an error. */
    method Sync()
      modifies secretSync, secretSync.source`condition
      ensures secretSync.destination ==
        old(secretSync.destination).(strings := Mapped(Requirements(secretSync.source.providerName), rancherSecret, render))
      ensures secretSync.source.condition == CredentialsMapped <==>
        forall i | 0 <= i < |Requirements(secretSync.source.providerName)| ::
          Sources(Requirements(secretSync.source.providerName)[i].from) <= rancherSecret.Keys
      ensures secretSync.source.condition.CredentialsMapped? || secretSync.source.condition.CredentialKeyMissing?
    {
      hide Requirements, Mapped, Sources;
      var out, errors := Into(secretSync.source.providerName, rancherSecret, map[], render);
      assert map[] + Mapped(Requirements(secretSync.source.providerName), rancherSecret, render)
          == Mapped(Requirements(secretSync.source.providerName), rancherSecret, render);
      secretSync.destination := secretSync.destination.(strings := out);
      secretSync.source.condition := if errors != [] then CredentialKeyMissing(errors) else CredentialsMapped;
    }
  }

  // --- The list ---

  datatype Syncer = OfVariables(variables: SecretSync) | OfCredentials(mapper: SecretMapperSync)

  function Inner(s: Syncer): SecretSync {
    match s case OfVariables(v) => v case OfCredentials(m) => m.secretSync
  }

  function Mappers(s: Syncer): set<object> {
    match s case OfVariables(_) => {} case OfCredentials(m) => {m}
  }

  ghost predicate NoSecretYet(s: Syncer)
    reads Mappers(s)
  {
    s.OfCredentials? ==> s.mapper.rancherSecret == map[]
  }

  /** What the syncer keeps in the Secret. */
  function WantOf(s: Syncer, variables: Data, clouds: seq<CloudSecret>): Want {
    match s
    case OfVariables(_) => Want.Variables(variables)
    case OfCredentials(m) =>
      var found := Located(clouds, m.spec, m.id, m.secretSync.source.providerName);
      Want.Credentials(if found.None? then None
                       else Some(Mapped(Requirements(m.secretSync.source.providerName), found.value, m.render)))
  }

  /** Sync follows also when Get fails: for a known provider the condition then names missing keys, not the missing
      source. */
  method GetAndSync(s: Syncer, server: SecretServer, source: CAPIProvider) returns (err: bool)
    requires Inner(s).server == server && Inner(s).source == source && Inner(s).destination == NEW_DESTINATION
    modifies Inner(s), Mappers(s), server`fates, source`condition
    ensures var r := ReadOne(WantOf(s, source.variables, server.clouds), Lookup(server.secrets, source.secretKey), old(server.fates));
      err == r.err && server.fates == r.rest && (!err ==> Inner(s).destination == r.d)
    ensures s.OfCredentials? ==> source.condition != CredentialSourceMissing
    ensures err && old(NoSecretYet(s)) && Requirements(source.providerName) != [] ==> source.condition.CredentialKeyMissing?
    ensures s.OfVariables? ==> source.condition == old(source.condition)
  {
    hide Located, Mapped, Requirements;
    match s
    case OfVariables(v) =>
      v.Get();
      v.SyncObjects();
      err := false;
    case OfCredentials(m) =>
      err := m.Get();
      m.Sync();
      if err && m.rancherSecret == map[] && Requirements(source.providerName) != [] {
        KnownNeedsSources(source.providerName);
      }
  }

  /** The syncers of one provider, each with its own Destination. */
  ghost predicate Fresh(list: seq<Syncer>, server: SecretServer, source: CAPIProvider)
    reads set s | s in list :: Inner(s)
  {
    && (forall s | s in list :: Inner(s).server == server && Inner(s).source == source && Inner(s).destination == NEW_DESTINATION)
    && (forall i, j | 0 <= i < j < |list| :: Inner(list[i]) != Inner(list[j]))
  }

  /** List.Sync, one syncer after the other. `wants` is what they keep, `footprint` holds their own objects. */
  method SyncList(list: seq<Syncer>, server: SecretServer, source: CAPIProvider, ghost wants: seq<Want>, ghost footprint: set<object>)
    returns (err: bool)
    requires Fresh(list, server, source) && |wants| == |list|
    requires forall i | 0 <= i < |list| :: WantOf(list[i], source.variables, server.clouds) == wants[i]
    requires server !in footprint && source !in footprint
    requires forall i | 0 <= i < |list| :: Inner(list[i]) in footprint && Mappers(list[i]) <= footprint
    modifies footprint, server`fates, source`condition
    ensures var r := ReadList(wants, Lookup(server.secrets, source.secretKey), old(server.fates));
      && err == r.err && server.fates == r.rest
      && (!err ==> forall i | 0 <= i < |list| :: Inner(list[i]).destination == r.ds[i])
  {
    hide WantOf, ReadOne, ReadList, Fresh, First, Later, ReadSoFar, Lookup;
    FreshMeans(list, server, source);
    ghost var seen := Lookup(server.secrets, source.secretKey);
    ghost var all := ReadList(wants, seen, server.fates);
    ghost var ds: seq<Destination> := [];
    err := false;
    ReadStart(wants, seen, server.fates);
    for i := 0 to |list|
      invariant |ds| == i && ReadSoFar(all, wants, seen, i, err, ds, server.fates)
      invariant !err ==> forall j | 0 <= j < i :: Inner(list[j]).destination == ds[j]
      invariant forall j | i <= j < |list| :: Inner(list[j]).destination == NEW_DESTINATION
    {
      ReadNext(all, wants, seen, i, err, ds, server.fates);
      ghost var one := ReadOne(wants[i], seen, server.fates);
      var e := GetAndSync(list[i], server, source);
      err := err || e;
      ds := ds + [one.d];
    }
    ReadEnd(all, wants, seen, err, ds, server.fates);
  }

  /** After `i` syncers, `fates` and what the rest will do complete the whole. */
  ghost predicate ReadSoFar(all: Readings, wants: seq<Want>, seen: Option<Secret>, i: nat, err: bool, ds: seq<Destination>, fates: seq<Net>)
    requires i <= |wants|
  {
    var more := ReadList(wants[i..], seen, fates);
    all == Readings(err || more.err, ds + more.ds, more.rest)
  }

  lemma ReadStart(wants: seq<Want>, seen: Option<Secret>, fates: seq<Net>)
    ensures ReadSoFar(ReadList(wants, seen, fates), wants, seen, 0, false, [], fates)
  {
    assert wants[0..] == wants;
  }

  lemma ReadNext(all: Readings, wants: seq<Want>, seen: Option<Secret>, i: nat, err: bool, ds: seq<Destination>, fates: seq<Net>)
    requires i < |wants| && ReadSoFar(all, wants, seen, i, err, ds, fates)
    ensures var one := ReadOne(wants[i], seen, fates);
      ReadSoFar(all, wants, seen, i + 1, err || one.err, ds + [one.d], one.rest)
  {
    hide ReadOne;
    assert wants[i..][1..] == wants[i + 1..];
  }

  lemma ReadEnd(all: Readings, wants: seq<Want>, seen: Option<Secret>, err: bool, ds: seq<Destination>, fates: seq<Net>)
    requires ReadSoFar(all, wants, seen, |wants|, err, ds, fates)
    ensures all == Readings(err, ds, fates)
  {
    assert wants[|wants|..] == [];
  }

  lemma FreshMeans(list: seq<Syncer>, server: SecretServer, source: CAPIProvider)
    requires Fresh(list, server, source)
    ensures forall i | 0 <= i < |list| :: list[i] in list && Inner(list[i]).server == server && Inner(list[i]).source == source && Inner(list[i]).destination == NEW_DESTINATION
    ensures forall i, j | 0 <= i < j < |list| :: Inner(list[i]) != Inner(list[j])
  {
  }

  /** List.Apply: the writes in order, each with its fate. */
  method ApplyList(list: seq<Syncer>, server: SecretServer, source: CAPIProvider, ghost ds: seq<Destination>) returns (err: bool)
    requires |ds| == |list| && forall s | s in list :: Inner(s).server == server && Inner(s).source == source
    requires forall i | 0 <= i < |list| :: Inner(list[i]).destination == ds[i]
    requires forall i, j | 0 <= i < j < |list| :: Inner(list[i]) != Inner(list[j])
    modifies set s | s in list :: Inner(s)
    modifies server`secrets, server`fates
    ensures (server.secrets, err) == ApplyWith(old(server.secrets), source.secretKey, source.id, ds, old(server.fates))
  {
    hide Patched, FateOf, FatesAfter;
    err := false;
    ghost var k := source.secretKey;
    ghost var all := ApplyWith(server.secrets, k, source.id, ds, server.fates);
    for i := 0 to |list|
      invariant forall j | i <= j < |list| :: Inner(list[j]).destination == ds[j]
      invariant var more := ApplyWith(server.secrets, k, source.id, ds[i..], server.fates);
        all == (more.0, err || more.1)
    {
      assert list[i] in list;
      assert ds[i..][1..] == ds[i + 1..];
      var e := Inner(list[i]).Apply();
      err := err || e;
    }
  }

  // --- syncSecrets ---

  /** NewSecretMapperSync leaves the mapper out of the list in these cases. */
  predicate NoMapper(source: CAPIProvider) {
    || source.credentials.None?
    || (source.credentials.value.credential == "" && source.credentials.value.namespaceName == "")
    || Requirements(source.providerName) == []
  }

  /** What the syncers of a provider keep in its Secret; None when the name of the source secret cannot be split. */
  ghost function Wants(source: CAPIProvider, variables: Data, clouds: seq<CloudSecret>, render: Data -> Rendering): Option<seq<Want>> {
    if NoMapper(source) then Some([Want.Variables(variables)])
    else
      var spec := source.credentials.value;
      var id := GetSecret(spec.credential, spec.namespaceName);
      if id.None? then None
      else
        var found := Located(clouds, spec, id.value, source.providerName);
        Some([Want.Variables(variables),
              Want.Credentials(if found.None? then None else Some(Mapped(Requirements(source.providerName), found.value, render)))])
  }

  /** The list of syncSecrets; with None the source panics. */
  method NewList(source: CAPIProvider, server: SecretServer, render: Data -> Rendering) returns (list: Option<seq<Syncer>>, ghost footprint: set<object>)
    ensures var wants := Wants(source, source.variables, server.clouds, render);
      && (list.None? <==> wants.None?)
      && (list.Some? ==>
        && Fresh(list.value, server, source) && |list.value| == |wants.value|
        && fresh(footprint) && (forall i | 0 <= i < |list.value| :: Inner(list.value[i]) in footprint && Mappers(list.value[i]) <= footprint)
        && forall i | 0 <= i < |list.value| :: WantOf(list.value[i], source.variables, server.clouds) == wants.value[i])
    ensures list.Some? ==> 1 <= |list.value| <= 2 && list.value[0].OfVariables? && (|list.value| == 2 ==> list.value[1].OfCredentials?)
    ensures var p := source.providerName;
      (list.Some? && |list.value| == 2) || list.None? <==>
        && source.credentials.Some? && (source.credentials.value.credential != "" || source.credentials.value.namespaceName != "")
        && (p == "aws" || p == "azure" || p == "vsphere" || p == "gcp" || p == "digitalocean")
    ensures list.None? ==> source.credentials.value.namespaceName != "" && ':' !in source.credentials.value.namespaceName
    ensures list.Some? && |list.value| == 2 ==>
      source.credentials.value.namespaceName == "" || ':' in source.credentials.value.namespaceName
  {
    hide Located, Mapped, Requirements, GetSecret;
    KnownExactly(source.providerName);
    if source.credentials.Some? {
      GetSecretSplits(source.credentials.value.credential, source.credentials.value.namespaceName);
    }
    footprint := {};
    var variables := new SecretSync(server, source);
    if NoMapper(source) {
      return Some([OfVariables(variables)]), {variables};
    }
    var spec := source.credentials.value;
    var id := GetSecret(spec.credential, spec.namespaceName);
    if id.None? {
      return None, {};
    }
    var inner := new SecretSync(server, source);
    var mapper := new SecretMapperSync(inner, spec, id.value, render);
    list, footprint := Some([OfVariables(variables), OfCredentials(mapper)]), {variables, inner, mapper};
  }

  /** One round, whatever requests fail in it. It goes on to write if and only if the credentials, where a mapper is
      in the list, are there and the second request, the one for them, is answered; else nothing is written. */
  method SyncSecrets(source: CAPIProvider, server: SecretServer, render: Data -> Rendering) returns (err: bool, ghost applied: bool)
    modifies server`secrets, server`fates, source`condition
    ensures var wants := Wants(source, source.variables, server.clouds, render);
      && (server.secrets, err) == (if wants.None? then (old(server.secrets), true)
                                   else RoundWith(old(server.secrets), source.secretKey, source.id, wants.value, old(server.fates)))
      && (applied <==> wants.Some? && Found(wants.value) && (NoMapper(source) || First(Later(old(server.fates))).Delivered?))
    ensures !applied ==> err && server.secrets == old(server.secrets)
    ensures forall id, i: nat | i < |server.clouds| && old(server.fates) == [] && Arrives(source, source.variables, server.clouds, old(server.secrets), id, i) ::
      && !err && source.secretKey in server.secrets.objs
      && HasEntries(source.providerName, server.secrets.objs[source.secretKey].spec.data, server.clouds[i].data, render)
  {
    hide ApplyWith, Fresh, WantOf, NoMapper, First, Later, Arrives, HasEntries, Wants;
    ghost var wants := Wants(source, source.variables, server.clouds, render);
    forall id, i: nat | i < |server.clouds| && server.fates == [] && Arrives(source, source.variables, server.clouds, server.secrets, id, i)
      ensures wants.Some? && Landed(RoundWith(server.secrets, source.secretKey, source.id, wants.value, []), source, server.clouds[i].data, render)
    {
      RoundLands(source, source.variables, server.clouds, server.secrets, render, id, i);
    }
    var list;
    ghost var footprint;
    list, footprint := NewList(source, server, render);
    if list.None? {
      return true, false;
    }
    ghost var readings := ReadList(wants.value, Lookup(server.secrets, source.secretKey), server.fates);
    WantsGoOn(source, source.variables, server.clouds, render, Lookup(server.secrets, source.secretKey), server.fates);
    FreshMeans(list.value, server, source);
    err := SyncList(list.value, server, source, wants.value, footprint);
    applied := !err;
    if err {
      return;
    }
    err := ApplyList(list.value, server, source, readings.ds);
  }

  /** Credentials of a known provider are given, the cloud credential they mean is `clouds[i]`, and the variables, the
      finalizer and the owner are in place in the stored Secret. */
  ghost predicate Arrives(source: CAPIProvider, variables: Data, clouds: seq<CloudSecret>, secrets: SecretTable, id: SecretName, i: nat) {
    var p, k := source.providerName, source.secretKey;
    && source.credentials.Some? && (source.credentials.value.credential != "" || source.credentials.value.namespaceName != "")
    && (p == "aws" || p == "azure" || p == "vsphere" || p == "gcp" || p == "digitalocean")
    && GetSecret(source.credentials.value.credential, source.credentials.value.namespaceName) == Some(id)
    && FirstMeant(clouds, i, source.credentials.value, id, p)
    && Sound(secrets) && k in secrets.objs && Satisfied(source.id, secrets.objs[k], variables)
  }

  ghost predicate Landed(r: (SecretTable, bool), source: CAPIProvider, data: Data, render: Data -> Rendering) {
    && !r.1 && source.secretKey in r.0.objs
    && HasEntries(source.providerName, r.0.objs[source.secretKey].spec.data, data, render)
  }

  lemma RoundLands(source: CAPIProvider, variables: Data, clouds: seq<CloudSecret>, secrets: SecretTable, render: Data -> Rendering, id: SecretName, i: nat)
    requires i < |clouds| && Arrives(source, variables, clouds, secrets, id, i)
    ensures var wants := Wants(source, variables, clouds, render);
      wants.Some? && Landed(RoundWith(secrets, source.secretKey, source.id, wants.value, []), source, clouds[i].data, render)
  {
    hide RoundWith, Satisfied, Mapped, Requirements, Located, HasEntries, GetSecret, FirstMeant;
    var p, k := source.providerName, source.secretKey;
    KnownExactly(p);
    LocatedExactly(clouds, source.credentials.value, id, p);
    var credentials := Mapped(Requirements(p), clouds[i].data, render);
    SecondArrives(secrets, k, source.id, variables, credentials);
    var u := RoundWith(secrets, k, source.id, [Want.Variables(variables), Want.Credentials(Some(credentials))], []).0;
    assert Holds(u.objs[k].spec.data, credentials);
    MappedHasEntries(p, clouds[i].data, render, u.objs[k].spec.data);
  }

  lemma WantsGoOn(source: CAPIProvider, variables: Data, clouds: seq<CloudSecret>, render: Data -> Rendering, seen: Option<Secret>, fates: seq<Net>)
    requires Wants(source, variables, clouds, render).Some?
    ensures var wants := Wants(source, variables, clouds, render).value;
      !ReadList(wants, seen, fates).err <==> Found(wants) && (NoMapper(source) || First(Later(fates)).Delivered?)
  {
    hide Located, Mapped, Requirements, GetSecret, ReadList;
    var wants := Wants(source, variables, clouds, render).value;
    GoesOnExactly(variables, if |wants| == 2 then wants[1].found else None, seen, fates);
  }
}
