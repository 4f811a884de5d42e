/** The layered clusterctl configuration (internal/controllers/clusterctl/config.go): embedded providers and
    images, Rancher's default registry, and the user's overrides. */
module ClusterctlConfig {
  import opened Wrappers

  datatype Provider = Provider(name: string, url: string, kind: string)

  datatype Image = Image(repository: string, tag: string)

  datatype UserImage = UserImage(name: string, image: Image)

  datatype Config = Config(providers: seq<Provider>, images: map<string, Image>)

  datatype UserConfig = UserConfig(providers: seq<Provider>, images: seq<UserImage>)

  /** The system-default-registry setting, when the feature is on. */
  datatype Registry = Disabled | Unreadable | Setting(value: string)

  const LATEST := "latest"

  function Key(p: Provider): string {
    p.name + "-" + p.kind
  }

  // --- Providers ---

  /** The last provider of `ps` with the key. */
  function LastWith(ps: seq<Provider>, key: string): Option<Provider>
    decreases |ps|
  {
    if ps == [] then None
    else if Key(ps[|ps| - 1]) == key then Some(ps[|ps| - 1])
    else LastWith(ps[..|ps| - 1], key)
  }

  function FirstNamed(ps: seq<Provider>, key: string): Option<Provider> {
    if ps == [] then None else if Key(ps[0]) == key then Some(ps[0]) else FirstNamed(ps[1..], key)
  }

  ghost predicate HasKey(ps: seq<Provider>, key: string) {
    exists i :: 0 <= i < |ps| && Key(ps[i]) == key
  }

  function NewOnes(base: seq<Provider>, overrides: seq<Provider>): seq<Provider>
    decreases |overrides|
  {
    if overrides == [] then []
    else
      var last := overrides[|overrides| - 1];
      NewOnes(base, overrides[..|overrides| - 1]) + if LastWith(base, Key(last)).Some? then [] else [last]
  }

  ghost predicate LastIndex(ps: seq<Provider>, i: nat) {
    i < |ps| && forall j | i < j < |ps| :: Key(ps[j]) != Key(ps[i])
  }

  /** The base in its order, each slot with its last override, then every override of nothing in the base. Where
      the base repeats a key, its last slot is the one that is overridden. */
  ghost predicate Layered(base: seq<Provider>, overrides: seq<Provider>, merged: seq<Provider>) {
    && |base| <= |merged|
    && merged[|base|..] == NewOnes(base, overrides)
    && forall i | 0 <= i < |base| :: merged[i] == Slot(base, overrides, i)
  }

  ghost predicate Indexed(base: seq<Provider>, n: nat, index: map<string, nat>)
    requires n <= |base|
  {
    && (forall key | key in index :: index[key] < n && Key(base[index[key]]) == key && forall j | index[key] < j < n :: Key(base[j]) != key)
    && (forall i | 0 <= i < n :: Key(base[i]) in index)
  }

  lemma {:induction false} LastWithSome(ps: seq<Provider>, key: string)
    ensures LastWith(ps, key).Some? <==> HasKey(ps, key)
    ensures LastWith(ps, key).Some? ==> Key(LastWith(ps, key).value) == key && LastWith(ps, key).value in ps
    decreases |ps|
  {
    if ps != [] {
      var n := |ps| - 1;
      LastWithSome(ps[..n], key);
      assert forall i | 0 <= i < n :: ps[..n][i] == ps[i];
      assert HasKey(ps, key) <==> HasKey(ps[..n], key) || Key(ps[n]) == key by {
        if i :| 0 <= i < |ps| && Key(ps[i]) == key && i != n { assert Key(ps[..n][i]) == key; }
        if i :| 0 <= i < n && Key(ps[..n][i]) == key { assert Key(ps[i]) == key; }
      }
    }
  }

  method MergeProviders(base: seq<Provider>, overrides: seq<Provider>) returns (merged: seq<Provider>)
    ensures Layered(base, overrides, merged)
  {
    hide Layered;
    StartLayered(base);
    var existing: map<string, nat> := map[];
    for i := 0 to |base|
      invariant Indexed(base, i, existing)
    {
      existing := existing[Key(base[i]) := i];
    }
    merged := base;
    for i := 0 to |overrides|
      invariant |base| <= |merged| && Layered(base, overrides[..i], merged)
    {
      var p := overrides[i];
      ghost var was := merged;
      if Key(p) in existing {
        merged := merged[existing[Key(p)] := p];
      } else {
        merged := merged + [p];
      }
      LayeredNext(base, overrides, i, was, merged, existing);
    }
    assert overrides[..|overrides|] == overrides;
  }

  lemma StartLayered(base: seq<Provider>)
    ensures Layered(base, [], base)
  {
  }

  ghost function Slot(base: seq<Provider>, overrides: seq<Provider>, i: nat): Provider
    requires i < |base|
  {
    if LastIndex(base, i) then LastWith(overrides, Key(base[i])).GetOr(base[i]) else base[i]
  }

  lemma SlotNext(base: seq<Provider>, overrides: seq<Provider>, n: nat, index: map<string, nat>, i: nat)
    requires n < |overrides| && Indexed(base, |base|, index) && i < |base|
    ensures Slot(base, overrides[..n + 1], i) ==
      if Key(overrides[n]) in index && index[Key(overrides[n])] == i then overrides[n] else Slot(base, overrides[..n], i)
  {
    hide Key;
    assert overrides[..n + 1][..n] == overrides[..n];
    if Key(base[i]) == Key(overrides[n]) {
      assert LastIndex(base, i) <==> i == index[Key(overrides[n])];
    }
  }

  lemma LayeredNext(base: seq<Provider>, overrides: seq<Provider>, n: nat, was: seq<Provider>, merged: seq<Provider>, index: map<string, nat>)
    requires n < |overrides| && Indexed(base, |base|, index) && Layered(base, overrides[..n], was)
    requires merged == if Key(overrides[n]) in index then was[index[Key(overrides[n])] := overrides[n]] else was + [overrides[n]]
    ensures Layered(base, overrides[..n + 1], merged)
  {
    hide Slot, Key;
    var p := overrides[n];
    LastWithSome(base, Key(p));
    assert overrides[..n + 1][..n] == overrides[..n];
    if Key(p) in index {
      assert Key(base[index[Key(p)]]) == Key(p);
      assert merged[|base|..] == was[|base|..];
    } else {
      assert merged[|base|..] == was[|base|..] + [p];
    }
    forall i | 0 <= i < |base|
      ensures merged[i] == Slot(base, overrides[..n + 1], i)
    {
      SlotNext(base, overrides, n, index, i);
    }
  }

  // --- The merge in plain terms ---

  ghost predicate SameProviderKey(p: Provider, q: Provider) {
    p.name + "-" + p.kind == q.name + "-" + q.kind
  }

  ghost predicate LastOf(ps: seq<Provider>, p: Provider, i: int) {
    0 <= i < |ps| && SameProviderKey(ps[i], p) && forall j | i < j < |ps| :: !SameProviderKey(ps[j], p)
  }

  lemma LastOfMore(ps: seq<Provider>, p: Provider, i: int)
    requires ps != []
    ensures var n := |ps| - 1;
      LastOf(ps, p, i) <==> if SameProviderKey(ps[n], p) then i == n else LastOf(ps[..n], p, i)
  {
    hide SameProviderKey;
    var n := |ps| - 1;
    assert forall j | 0 <= j < n :: ps[..n][j] == ps[j];
    if LastOf(ps, p, i) && i < n {
      assert !SameProviderKey(ps[n], p);
    }
  }

  lemma LastOfWithin(ps: seq<Provider>, p: Provider)
    ensures forall i | LastOf(ps, p, i) :: 0 <= i < |ps| && SameProviderKey(ps[i], p)
  {
  }

  lemma LastWithMore(ps: seq<Provider>, p: Provider)
    ensures LastWith([], Key(p)).None?
    ensures ps != [] ==>
      LastWith(ps, Key(p)) == if SameProviderKey(ps[|ps| - 1], p) then Some(ps[|ps| - 1]) else LastWith(ps[..|ps| - 1], Key(p))
  {
  }

  lemma {:induction false} LastWithIs(ps: seq<Provider>, p: Provider)
    ensures forall i | LastOf(ps, p, i) :: LastWith(ps, Key(p)) == Some(ps[i])
    ensures (forall i | 0 <= i < |ps| :: !SameProviderKey(ps[i], p)) ==> LastWith(ps, Key(p)).None?
    ensures LastWith(ps, Key(p)).Some? ==> exists i :: LastOf(ps, p, i)
    decreases |ps|
  {
    LastOfWithin(ps, p);
    LastWithMore(ps, p);
    hide SameProviderKey, Key, LastOf, LastWith;
    if ps != [] {
      var n := |ps| - 1;
      LastWithIs(ps[..n], p);
      LastOfWithin(ps[..n], p);
      LastOfMore(ps, p, n);
      forall i | LastOf(ps[..n], p, i)
        ensures ps[..n][i] == ps[i] && (!SameProviderKey(ps[n], p) ==> LastOf(ps, p, i))
      {
        LastOfMore(ps, p, i);
      }
      forall i | LastOf(ps, p, i)
        ensures LastWith(ps, Key(p)) == Some(ps[i])
      {
        LastOfMore(ps, p, i);
      }
    }
  }

  /** `index` counts up through exactly the overrides of nothing in the base. */
  ghost predicate PicksNew(base: seq<Provider>, overrides: seq<Provider>, index: seq<nat>) {
    && (forall i | 0 <= i < |index| :: index[i] < |overrides|)
    && (forall i, j | 0 <= i < j < |index| :: index[i] < index[j])
    && (forall n | 0 <= n < |overrides| :: n in index <==> forall b | b in base :: !SameProviderKey(b, overrides[n]))
  }

  lemma NewHasNoBase(base: seq<Provider>, p: Provider)
    ensures LastWith(base, Key(p)).None? <==> forall b | b in base :: !SameProviderKey(b, p)
  {
    LastWithIs(base, p);
    if LastWith(base, Key(p)).Some? {
      var i :| LastOf(base, p, i);
      assert base[i] in base;
    }
  }

  lemma PicksNewMore(base: seq<Provider>, overrides: seq<Provider>, before: seq<nat>)
    requires overrides != [] && PicksNew(base, overrides[..|overrides| - 1], before)
    ensures var n := |overrides| - 1;
      PicksNew(base, overrides, before + if LastWith(base, Key(overrides[n])).Some? then [] else [n])
  {
    hide SameProviderKey, Key;
    var n := |overrides| - 1;
    NewHasNoBase(base, overrides[n]);
    forall m: nat | m < n
      ensures overrides[..n][m] == overrides[m]
    {
    }
  }

  lemma {:induction false} NewOnesSelect(base: seq<Provider>, overrides: seq<Provider>) returns (index: seq<nat>)
    ensures PicksNew(base, overrides, index) && |index| == |NewOnes(base, overrides)|
    ensures forall i | 0 <= i < |index| :: index[i] < |overrides| && NewOnes(base, overrides)[i] == overrides[index[i]]
    decreases |overrides|
  {
    hide PicksNew, Key;
    index := [];
    if overrides == [] {
      assert PicksNew(base, [], []) by { PicksNoNew(base); }
    } else {
      var n := |overrides| - 1;
      var before := NewOnesSelect(base, overrides[..n]);
      PicksNewMore(base, overrides, before);
      index := before + if LastWith(base, Key(overrides[n])).Some? then [] else [n];
      assert forall i | 0 <= i < |before| :: overrides[..n][before[i]] == overrides[before[i]];
    }
  }

  lemma PicksNoNew(base: seq<Provider>)
    ensures PicksNew(base, [], [])
  {
  }

  /** Slot by slot: the last override of the same provider, where the base has no later slot for it; the overrides that
      are left follow in their order, duplicates included. */
  lemma MergeIs(base: seq<Provider>, overrides: seq<Provider>, merged: seq<Provider>) returns (index: seq<nat>)
    requires Layered(base, overrides, merged)
    ensures |merged| == |base| + |index| && PicksNew(base, overrides, index)
    ensures forall i | 0 <= i < |index| :: index[i] < |overrides| && merged[|base| + i] == overrides[index[i]]
    ensures forall i, o | 0 <= i < |base| && LastOf(base, base[i], i) && LastOf(overrides, base[i], o) :: merged[i] == overrides[o]
    ensures forall i | 0 <= i < |base| && (!LastOf(base, base[i], i) || forall o | 0 <= o < |overrides| :: !SameProviderKey(overrides[o], base[i])) ::
      merged[i] == base[i]
  {
    hide PicksNew, NewOnes;
    index := NewOnesSelect(base, overrides);
    assert merged[|base|..] == NewOnes(base, overrides);
    forall i | 0 <= i < |index|
      ensures index[i] < |overrides| && merged[|base| + i] == overrides[index[i]]
    {
      assert merged[|base| + i] == merged[|base|..][i];
    }
    forall i | 0 <= i < |base|
      ensures LastIndex(base, i) <==> LastOf(base, base[i], i)
      ensures forall o | LastOf(overrides, base[i], o) :: LastWith(overrides, Key(base[i])) == Some(overrides[o])
      ensures (forall o | 0 <= o < |overrides| :: !SameProviderKey(overrides[o], base[i])) ==> LastWith(overrides, Key(base[i])).None?
    {
      LastWithIs(overrides, base[i]);
    }
  }

  /** No two entries of the base are the same provider. */
  ghost predicate DistinctKeys(ps: seq<Provider>) {
    forall i, j | 0 <= i < j < |ps| :: Key(ps[i]) != Key(ps[j])
  }

  predicate HyphenFree(s: string) {
    '-' !in s
  }

  /** No kind holds a hyphen, and kinds that differ only in case do not occur. */
  ghost predicate PlainKinds(ps: seq<Provider>, kind: string, fold: string -> string) {
    && HyphenFree(kind)
    && forall p | p in ps :: HyphenFree(p.kind) && (fold(p.kind) == fold(kind) <==> p.kind == kind)
  }

  lemma KeyInjective(a: string, b: string, c: string, d: string)
    requires HyphenFree(b) && HyphenFree(d) && a + "-" + b == c + "-" + d
    ensures a == c && b == d
  {
    NoHyphenAfter(a, b);
    NoHyphenAfter(c, d);
    var s := a + "-" + b;
    assert s[..|a|] == a && s[|a| + 1..] == b && (c + "-" + d)[..|c|] == c && (c + "-" + d)[|c| + 1..] == d;
  }

  lemma NoHyphenAfter(a: string, b: string)
    requires HyphenFree(b)
    ensures var s := a + "-" + b; s[|a|] == '-' && forall i | |a| < i < |s| :: s[i] != '-'
  {
    assert forall i | |a| < i < |a + "-" + b| :: (a + "-" + b)[i] == b[i - |a| - 1];
  }

  // --- Versions ---

  function Split(s: string, c: char): (parts: seq<string>)
    ensures parts != []
  {
    if s == [] then [[]]
    else
      var rest := Split(s[1..], c);
      if s[0] == c then [[]] + rest else [[s[0]] + rest[0]] + rest[1..]
  }

  /** The second to last segment of the URL. */
  function CollectVersion(url: string): string {
    var parts := Split(url, '/');
    if |parts| < 2 then LATEST else parts[|parts| - 2]
  }

  /** The method of the repository: the first provider with the name and, up to case, the kind. */
  method GetProviderVersion(ps: seq<Provider>, name: string, kind: string, fold: string -> string) returns (version: string, known: bool)
    ensures known <==> FirstMatch(ps, name, kind, fold).Some?
    ensures version == if known then CollectVersion(FirstMatch(ps, name, kind, fold).value.url) else "latest"
    ensures known <==> exists i :: 0 <= i < |ps| && ps[i].name == name && fold(ps[i].kind) == fold(kind)
    ensures known ==> exists i ::
      && 0 <= i < |ps| && ps[i].name == name && fold(ps[i].kind) == fold(kind) && version == CollectVersion(ps[i].url)
      && forall j | 0 <= j < i :: !(ps[j].name == name && fold(ps[j].kind) == fold(kind))
  {
    for i := 0 to |ps|
      invariant FirstMatch(ps, name, kind, fold) == FirstMatch(ps[i..], name, kind, fold)
      invariant forall j | 0 <= j < i :: !(ps[j].name == name && fold(ps[j].kind) == fold(kind))
    {
      if ps[i].name == name && fold(ps[i].kind) == fold(kind) {
        return CollectVersion(ps[i].url), true;
      }
    }
    return LATEST, false;
  }

  function FirstMatch(ps: seq<Provider>, name: string, kind: string, fold: string -> string): Option<Provider> {
    if ps == [] then None
    else if ps[0].name == name && fold(ps[0].kind) == fold(kind) then Some(ps[0])
    else FirstMatch(ps[1..], name, kind, fold)
  }

  lemma {:induction false} SplitPlain(s: string, c: char)
    requires c !in s
    ensures Split(s, c) == [s]
  {
    if s != [] {
      SplitPlain(s[1..], c);
      assert s == [s[0]] + s[1..];
    }
  }

  function SplitCons(x: char, rest: seq<string>, c: char): seq<string>
    requires rest != []
  {
    if x == c then [[]] + rest else [[x] + rest[0]] + rest[1..]
  }

  lemma SplitFront(x: char, s: string, c: char)
    ensures Split([x] + s, c) == SplitCons(x, Split(s, c), c)
  {
    assert ([x] + s)[1..] == s;
  }

  lemma SplitConsAppend(x: char, a: seq<string>, b: seq<string>, c: char)
    requires a != []
    ensures SplitCons(x, a + b, c) == SplitCons(x, a, c) + b
  {
    assert (a + b)[1..] == a[1..] + b;
  }

  lemma {:induction false} SplitAt(a: string, b: string, c: char)
    ensures Split(a + [c] + b, c) == Split(a, c) + Split(b, c)
    decreases |a|
  {
    hide Split;
    if a == [] {
      SplitFront(c, b, c);
      assert a + [c] + b == [c] + b;
      assert Split([], c) == [[]] by { SplitPlain([], c); }
    } else {
      var x, rest := a[0], a[1..];
      assert a == [x] + rest;
      assert a + [c] + b == [x] + (rest + [c] + b);
      SplitAt(rest, b, c);
      SplitFront(x, rest, c);
      SplitFront(x, rest + [c] + b, c);
      SplitConsAppend(x, Split(rest, c), Split(b, c), c);
    }
  }

  /** ".../v/file" has version v, "v/file" too, and a URL without a slash has the latest. */
  lemma VersionOfUrl(before: string, v: string, file: string)
    requires '/' !in v && '/' !in file
    ensures CollectVersion(before + "/" + (v + "/" + file)) == v
    ensures CollectVersion(v + "/" + file) == v
    ensures CollectVersion(file) == "latest"
  {
    SplitPlain(v, '/');
    SplitPlain(file, '/');
    SplitAt(v, file, '/');
    assert Split(v + "/" + file, '/') == [v, file];
    SplitAt(before, v + "/" + file, '/');
  }

  lemma {:induction false} MatchByKey(ps: seq<Provider>, name: string, kind: string, fold: string -> string)
    requires PlainKinds(ps, kind, fold)
    ensures FirstMatch(ps, name, kind, fold) == FirstNamed(ps, name + "-" + kind)
  {
    if ps != [] {
      assert forall p | p in ps[1..] :: p in ps;
      MatchByKey(ps[1..], name, kind, fold);
      assert ps[0] in ps;
      if Key(ps[0]) == name + "-" + kind {
        KeyInjective(ps[0].name, ps[0].kind, name, kind);
      }
    }
  }

  lemma {:induction false} FirstNamedAppend(a: seq<Provider>, b: seq<Provider>, key: string)
    ensures FirstNamed(a + b, key) == if FirstNamed(a, key).Some? then FirstNamed(a, key) else FirstNamed(b, key)
  {
    if a == [] {
      assert a + b == b;
    } else {
      assert (a + b)[1..] == a[1..] + b;
      FirstNamedAppend(a[1..], b, key);
    }
  }

  lemma {:induction false} FirstNamedAt(ps: seq<Provider>, key: string, i: nat)
    requires i < |ps| && Key(ps[i]) == key && forall j | 0 <= j < i :: Key(ps[j]) != key
    ensures FirstNamed(ps, key) == Some(ps[i])
  {
    if i > 0 {
      FirstNamedAt(ps[1..], key, i - 1);
    }
  }

  lemma {:induction false} FirstNamedNone(ps: seq<Provider>, key: string)
    requires !HasKey(ps, key)
    ensures FirstNamed(ps, key).None?
  {
    if ps != [] {
      assert Key(ps[0]) != key;
      forall i | 0 <= i < |ps[1..]|
        ensures Key(ps[1..][i]) != key
      {
        assert Key(ps[i + 1]) != key;
      }
      FirstNamedNone(ps[1..], key);
    }
  }

  lemma {:induction false} FirstOfNew(base: seq<Provider>, overrides: seq<Provider>, key: string)
    requires !HasKey(base, key)
    ensures FirstNamed(NewOnes(base, overrides), key) == FirstNamed(overrides, key)
    decreases |overrides|
  {
    if overrides != [] {
      var n := |overrides| - 1;
      FirstOfNew(base, overrides[..n], key);
      assert overrides == overrides[..n] + [overrides[n]];
      FirstNamedAppend(overrides[..n], [overrides[n]], key);
      LastWithSome(base, key);
      FirstNamedAppend(NewOnes(base, overrides[..n]), if LastWith(base, Key(overrides[n])).Some? then [] else [overrides[n]], key);
      assert FirstNamed([overrides[n]], key) == if Key(overrides[n]) == key then Some(overrides[n]) else None;
    }
  }

  /** Looking up the merged list is a layered lookup: for a provider of the base its last override, else the base;
      for a new one its first override. */
  lemma LookupIsLayered(base: seq<Provider>, overrides: seq<Provider>, merged: seq<Provider>, name: string, kind: string, fold: string -> string)
    requires DistinctKeys(base) && Layered(base, overrides, merged)
    requires PlainKinds(merged, kind, fold)
    ensures var key := name + "-" + kind;
      FirstMatch(merged, name, kind, fold) ==
        if FirstNamed(base, key).Some? then Some(LastWith(overrides, key).GetOr(FirstNamed(base, key).value))
        else FirstNamed(overrides, key)
  {
    var key := name + "-" + kind;
    MatchByKey(merged, name, kind, fold);
    var slots := merged[..|base|];
    assert merged == slots + merged[|base|..];
    FirstNamedAppend(slots, merged[|base|..], key);
    forall i | 0 <= i < |base|
      ensures Key(slots[i]) == Key(base[i])
    {
      LastWithSome(overrides, Key(base[i]));
    }
    if HasKey(base, key) {
      var i :| 0 <= i < |base| && Key(base[i]) == key;
      assert LastIndex(base, i);
      FirstNamedAt(base, key, i);
      FirstNamedAt(slots, key, i);
    } else {
      forall i | 0 <= i < |slots|
        ensures Key(slots[i]) != key
      {
        assert Key(base[i]) != key;
      }
      FirstNamedNone(base, key);
      FirstNamedNone(slots, key);
      FirstOfNew(base, overrides, key);
    }
  }

  // --- Images ---

  /** extractNamespace: everything after the first slash. */
  function ExtractNamespace(uri: string): string {
    if '/' !in uri then uri else AfterSlash(uri)
  }

  function AfterSlash(uri: string): string
    requires '/' in uri
  {
    if uri[0] == '/' then uri[1..] else AfterSlash(uri[1..])
  }

  function WithSlash(registry: string): string {
    if registry != "" && registry[|registry| - 1] == '/' then registry else registry + "/"
  }

  function Relocated(image: Image, registry: Registry): Image {
    if registry.Setting? && registry.value != "" then Image(WithSlash(registry.value) + ExtractNamespace(image.repository), image.tag)
    else image
  }

  /** The first segment gives way to the registry, which ends in exactly one separator; a repository without a
      segment to give is moved whole. The tag stays. */
  lemma RelocatedIs(registry: string, host: string, path: string, tag: string)
    requires registry != "" && '/' !in host
    requires registry[|registry| - 1] != '/'
    ensures Relocated(Image(host + "/" + path, tag), Setting(registry)) == Image(registry + "/" + path, tag)
    ensures Relocated(Image(host + "/" + path, tag), Setting(registry + "/")) == Image(registry + "/" + path, tag)
    ensures Relocated(Image(host, tag), Setting(registry)) == Image(registry + "/" + host, tag)
    ensures forall image :: Relocated(image, Setting("")) == image && Relocated(image, Disabled) == image
  {
    AfterHost(host, path);
    assert registry + "/" + path == (registry + "/") + path;
    assert (registry + "/")[|registry|] == '/';
    assert (host + "/" + path)[|host|] == '/';
  }

  lemma {:induction false} AfterHost(host: string, path: string)
    requires '/' !in host
    ensures '/' in host + "/" + path && AfterSlash(host + "/" + path) == path
    decreases |host|
  {
    var s := host + "/" + path;
    assert s[|host|] == '/';
    if host == "" {
      assert s[1..] == path;
    } else {
      AfterHost(host[1..], path);
      assert s[0] == host[0] && s[1..] == host[1..] + "/" + path;
    }
  }

  function LastImage(overrides: seq<UserImage>, name: string): Option<Image>
    decreases |overrides|
  {
    if overrides == [] then None
    else if overrides[|overrides| - 1].name == name then Some(overrides[|overrides| - 1].image)
    else LastImage(overrides[..|overrides| - 1], name)
  }

  /** The last override of a name wins. */
  lemma {:induction false} LastImageIs(overrides: seq<UserImage>, name: string)
    ensures forall i | 0 <= i < |overrides| && overrides[i].name == name && (forall j | i < j < |overrides| :: overrides[j].name != name) ::
      LastImage(overrides, name) == Some(overrides[i].image)
    ensures LastImage(overrides, name).None? <==> forall i | 0 <= i < |overrides| :: overrides[i].name != name
    decreases |overrides|
  {
    if overrides != [] {
      var n := |overrides| - 1;
      LastImageIs(overrides[..n], name);
      assert forall i | 0 <= i < n :: overrides[..n][i] == overrides[i];
    }
  }

  function UserNames(overrides: seq<UserImage>): set<string> {
    set i | 0 <= i < |overrides| :: overrides[i].name
  }

  /** The user's last override, else the base entry moved to the registry. */
  ghost predicate LayeredImages(base: map<string, Image>, registry: Registry, overrides: seq<UserImage>, images: map<string, Image>) {
    && images.Keys == base.Keys + UserNames(overrides)
    && forall name | name in images ::
      && (LastImage(overrides, name).Some? ==> images[name] == LastImage(overrides, name).value)
      && (LastImage(overrides, name).None? ==> name in base && images[name] == Relocated(base[name], registry))
  }

  /** Go visits the images in no particular order. */
  method Relocate(base: map<string, Image>, registry: Registry) returns (images: map<string, Image>)
    ensures images.Keys == base.Keys && forall name | name in base :: images[name] == Relocated(base[name], registry)
  {
    images := base;
    if !registry.Setting? || registry.value == "" {
      return;
    }
    var prefix := WithSlash(registry.value);
    var left := images.Keys;
    while left != {}
      invariant left <= base.Keys == images.Keys
      invariant forall name | name in base :: images[name] == if name in left then base[name] else Relocated(base[name], registry)
      decreases |left|
    {
      var name :| name in left;
      images := images[name := Image(prefix + ExtractNamespace(images[name].repository), images[name].tag)];
      left := left - {name};
    }
  }

  method OverrideImages(base: map<string, Image>, overrides: seq<UserImage>) returns (images: map<string, Image>)
    ensures images.Keys == base.Keys + UserNames(overrides)
    ensures forall name | name in images ::
      && (LastImage(overrides, name).Some? ==> images[name] == LastImage(overrides, name).value)
      && (LastImage(overrides, name).None? ==> name in base && images[name] == base[name])
  {
    images := base;
    for i := 0 to |overrides|
      invariant images.Keys == base.Keys + UserNames(overrides[..i])
      invariant forall name | name in images ::
        && (LastImage(overrides[..i], name).Some? ==> images[name] == LastImage(overrides[..i], name).value)
        && (LastImage(overrides[..i], name).None? ==> name in base && images[name] == base[name])
    {
      assert overrides[..i + 1][..i] == overrides[..i];
      assert UserNames(overrides[..i + 1]) == UserNames(overrides[..i]) + {overrides[i].name} by { NamesNext(overrides, i); }
      images := images[overrides[i].name := overrides[i].image];
    }
    assert overrides[..|overrides|] == overrides;
  }

  lemma NamesNext(overrides: seq<UserImage>, i: nat)
    requires i < |overrides|
    ensures UserNames(overrides[..i + 1]) == UserNames(overrides[..i]) + {overrides[i].name}
  {
    forall name
      ensures name in UserNames(overrides[..i + 1]) <==> name in UserNames(overrides[..i]) || name == overrides[i].name
    {
      if name in UserNames(overrides[..i]) {
        var j :| 0 <= j < i && overrides[..i][j].name == name;
        assert overrides[..i + 1][j].name == name;
      }
      assert overrides[..i + 1][i].name == overrides[i].name;
    }
  }

  /** None when a setting or the user's configuration cannot be read. A missing user configuration is empty. */
  method ClusterConfig(base: Config, user: Option<UserConfig>, registry: Registry) returns (config: Option<Config>)
    ensures config.None? <==> user.None? || registry.Unreadable?
    ensures config.Some? ==>
      && Layered(base.providers, user.value.providers, config.value.providers)
      && LayeredImages(base.images, registry, user.value.images, config.value.images)
  {
    hide Layered;
    if user.None? || registry.Unreadable? {
      return None;
    }
    var providers := MergeProviders(base.providers, user.value.providers);
    var moved := Relocate(base.images, registry);
    var images := OverrideImages(moved, user.value.images);
    config := Some(Config(providers, images));
  }

  lemma {:induction false} AfterSlashAppend(s: string, t: string)
    requires '/' in s
    ensures AfterSlash(s + t) == AfterSlash(s) + t
  {
    if s[0] == '/' {
      assert (s + t)[1..] == s[1..] + t;
    } else {
      assert s[1..] + t == (s + t)[1..];
      assert '/' in s[1..];
      AfterSlashAppend(s[1..], t);
    }
  }

  lemma {:induction false} AfterSlashEmpty(s: string)
    requires '/' in s
    ensures AfterSlash(s) == "" <==> s[|s| - 1] == '/' && '/' !in s[..|s| - 1]
  {
    if s[0] == '/' {
      if |s| > 1 {
        assert s[..|s| - 1][0] == '/';
      }
    } else {
      assert s == [s[0]] + s[1..];
      AfterSlashEmpty(s[1..]);
      assert s[..|s| - 1] == [s[0]] + s[1..][..|s| - 2];
    }
  }

  /** Moving an image to the registry twice changes nothing more if and only if the registry is a host without a
      slash (but for one at its end). */
  lemma RelocatedIdempotentExactly(image: Image, registry: Registry)
    requires registry.Setting? && registry.value != ""
    ensures Relocated(Relocated(image, registry), registry) == Relocated(image, registry) <==>
            '/' !in WithSlash(registry.value)[..|WithSlash(registry.value)| - 1]
  {
    var r := WithSlash(registry.value);
    var ns := ExtractNamespace(image.repository);
    assert r[|r| - 1] == '/';
    AfterSlashAppend(r, ns);
    AfterSlashEmpty(r);
    assert ExtractNamespace(r + ns) == AfterSlash(r) + ns;
    if AfterSlash(r) == "" {
      assert AfterSlash(r) + ns == ns;
    } else {
      assert |r + (AfterSlash(r) + ns)| > |r + ns|;
    }
  }
}
