/** Collecting the YAML files of a directory tree with a stack of directories (examples/main.go). */
module ExampleCollection {
  import opened Wrappers

  datatype Entry = File(name: string, content: string) | Sub(name: string, entries: seq<Entry>)

  /** The names from the root down. */
  type Path = seq<string>

  const SEPARATOR := "\n---\n"
  const MAX_INT := 0x7fff_ffff_ffff_ffff

  // --- The file system ---

  function SubNamed(entries: seq<Entry>, name: string): Option<seq<Entry>> {
    if entries == [] then None
    else if entries[0].Sub? && entries[0].name == name then Some(entries[0].entries)
    else SubNamed(entries[1..], name)
  }

  /** ReadDir: the entries of a directory, in the order of the file system. */
  function Find(tree: seq<Entry>, p: Path): Option<seq<Entry>>
    decreases |p|
  {
    if p == [] then Some(tree)
    else
      var sub := SubNamed(tree, p[0]);
      if sub.None? then None else Find(sub.value, p[1..])
  }

  predicate IsDirectory(tree: seq<Entry>, p: Path) {
    Find(tree, p).Some?
  }

  ghost predicate WellFormed(entries: seq<Entry>) {
    && (forall i, j | 0 <= i < j < |entries| :: entries[i].name != entries[j].name)
    && (forall e | e in entries && e.Sub? :: WellFormed(e.entries))
  }

  /** The number of directories in a tree, itself included. */
  function Size(entries: seq<Entry>): nat
    decreases entries, 1
  {
    1 + SubSizes(entries)
  }

  function SubSizes(entries: seq<Entry>): nat
    decreases entries, 0
  {
    if entries == [] then 0
    else (if entries[0].Sub? then Size(entries[0].entries) else 0) + SubSizes(entries[1..])
  }

  function Pending(tree: seq<Entry>, dirs: seq<Path>): nat
    decreases |dirs|
  {
    if dirs == [] then 0
    else Pending(tree, dirs[..|dirs| - 1]) + (if IsDirectory(tree, dirs[|dirs| - 1]) then Size(Find(tree, dirs[|dirs| - 1]).value) else 0)
  }

  predicate IsYaml(e: Entry) {
    e.File? && (HasSuffix(e.name, ".yaml") || HasSuffix(e.name, ".yml"))
  }

  predicate HasSuffix(s: string, suffix: string) {
    |suffix| <= |s| && s[|s| - |suffix|..] == suffix
  }

  /** The contents of the YAML files of one directory, in its order. */
  function Yamls(entries: seq<Entry>): seq<string>
    decreases |entries|
  {
    if entries == [] then []
    else Yamls(entries[..|entries| - 1]) + if IsYaml(entries[|entries| - 1]) then [entries[|entries| - 1].content] else []
  }

  function SubPaths(p: Path, entries: seq<Entry>): seq<Path>
    decreases |entries|
  {
    if entries == [] then []
    else SubPaths(p, entries[..|entries| - 1]) + if entries[|entries| - 1].Sub? then [p + [entries[|entries| - 1].name]] else []
  }

  // --- Texts ---

  function Part(yaml: string): string {
    if yaml == "" then "" else SEPARATOR + yaml
  }

  function JoinAll(yamls: seq<string>): string
    decreases |yamls|
  {
    if yamls == [] then "" else JoinAll(yamls[..|yamls| - 1]) + Part(yamls[|yamls| - 1])
  }

  method JoinYamls(yamls: seq<string>) returns (joined: string)
    ensures joined == JoinAll(yamls)
  {
    joined := "";
    for i := 0 to |yamls|
      invariant joined == JoinAll(yamls[..i])
    {
      assert yamls[..i + 1][..i] == yamls[..i];
      if yamls[i] != "" {
        joined := joined + (SEPARATOR + yamls[i]);
      }
    }
    assert yamls[..|yamls|] == yamls;
  }

  /** The contents of one directory as they are joined, file by file. */
  function Joined(yamls: seq<string>): string
    decreases |yamls|
  {
    if yamls == [] then "" else JoinAll([Joined(yamls[..|yamls| - 1]), yamls[|yamls| - 1]])
  }

  lemma JoinTwo(a: string, b: string)
    ensures JoinAll([a, b]) == Part(a) + Part(b)
  {
    assert [a, b][..1] == [a] && [a][..0] == [];
    assert JoinAll([a]) == "" + Part(a);
  }

  function Repeated(n: nat): string {
    if n == 0 then "" else SEPARATOR + Repeated(n - 1)
  }

  /** The texts one after the other, each after so many separators. */
  function Separated(yamls: seq<string>, ns: seq<nat>): string
    requires |ns| == |yamls|
    decreases |yamls|
  {
    if yamls == [] then ""
    else
      var n := |yamls| - 1;
      Separated(yamls[..n], ns[..n]) + (Repeated(ns[n]) + yamls[n])
  }

  ghost predicate Apart(yamls: seq<string>, ns: seq<nat>) {
    |ns| == |yamls| && forall i | 0 <= i < |yamls| && yamls[i] != "" :: ns[i] >= 1
  }

  /** Every text appears once, in order, with nothing but separators added, and at least one before each. */
  lemma {:induction false} JoinedSeparates(yamls: seq<string>) returns (ns: seq<nat>)
    ensures Apart(yamls, ns) && Joined(yamls) == Separated(yamls, ns)
    ensures SEPARATOR == "\n---\n"
    decreases |yamls|
  {
    hide Part, JoinAll, Repeated;
    ns := [];
    if yamls != [] {
      var n := |yamls| - 1;
      var before := JoinedSeparates(yamls[..n]);
      var a, b := Joined(yamls[..n]), yamls[n];
      var more := OneMore(yamls[..n], before);
      var front := if a == "" then before else more;
      var last := if b == "" then 0 else 1;
      ns := front + [last];
      assert ns[..n] == front;
      JoinTwo(a, b);
      PartIs(a);
      PartIs(b);
      assert Part(a) == Separated(yamls[..n], front);
      assert Part(b) == Repeated(last) + b;
    }
  }

  lemma PartIs(yaml: string)
    ensures Part(yaml) == Repeated(if yaml == "" then 0 else 1) + yaml
    ensures Part(yaml) == if yaml == "" then "" else SEPARATOR + yaml
  {
    assert Repeated(0) == "" && Repeated(1) == SEPARATOR;
  }

  /** A further separator in front. */
  lemma {:induction false} OneMore(yamls: seq<string>, ns: seq<nat>) returns (more: seq<nat>)
    requires Apart(yamls, ns)
    ensures Apart(yamls, more)
    ensures Separated(yamls, ns) != "" ==> Separated(yamls, more) == SEPARATOR + Separated(yamls, ns)
    decreases |yamls|
  {
    more := ns;
    if yamls != [] {
      var n := |yamls| - 1;
      if Separated(yamls[..n], ns[..n]) == "" {
        more := ns[n := ns[n] + 1];
        assert more[..n] == ns[..n];
        assert Repeated(ns[n] + 1) == SEPARATOR + Repeated(ns[n]);
      } else {
        var rest := OneMore(yamls[..n], ns[..n]);
        more := rest + [ns[n]];
        assert more[..n] == rest;
      }
    }
  }

  // --- Keys ---

  /** The path as text: "." for the root. */
  function PathString(p: Path): string
    decreases |p|
  {
    if p == [] then "."
    else if |p| == 1 then p[0]
    else PathString(p[..|p| - 1]) + "/" + p[|p| - 1]
  }

  function TrimPrefix(s: string, prefix: string): string {
    if prefix <= s then s[|prefix|..] else s
  }

  function ReplaceSlashes(s: string): string {
    seq(|s|, i requires 0 <= i < |s| => if s[i] == '/' then '-' else s[i])
  }

  function KeyOf(prefix: string, p: Path): string {
    ReplaceSlashes(TrimPrefix(PathString(p), prefix))
  }

  /** Names with dashes between them. */
  function Dashed(p: Path): string
    requires p != []
    decreases |p|
  {
    if |p| == 1 then p[0] else Dashed(p[..|p| - 1]) + "-" + p[|p| - 1]
  }

  lemma ReplacedAppend(s: string, t: string)
    ensures ReplaceSlashes(s + t) == ReplaceSlashes(s) + ReplaceSlashes(t)
  {
  }

  lemma ReplacedPlain(s: string)
    requires '/' !in s
    ensures ReplaceSlashes(s) == s
  {
    assert forall i | 0 <= i < |s| :: s[i] in s;
  }

  lemma {:induction false} PathDashed(p: Path)
    requires p != [] && forall n | n in p :: '/' !in n
    ensures ReplaceSlashes(PathString(p)) == Dashed(p)
    decreases |p|
  {
    hide ReplaceSlashes;
    var n := |p| - 1;
    ReplacedPlain(p[n]);
    if n > 0 {
      PathDashed(p[..n]);
      ReplacedAppend(PathString(p[..n]) + "/", p[n]);
      ReplacedAppend(PathString(p[..n]), "/");
      assert ReplaceSlashes("/") == "-" by { ReplacedSlash(); }
    }
  }

  lemma ReplacedSlash()
    ensures ReplaceSlashes("/") == "-"
  {
  }

  lemma {:induction false} PathBelow(top: string, p: Path)
    requires p != []
    ensures PathString([top] + p) == top + "/" + PathString(p)
    decreases |p|
  {
    var n := |p| - 1;
    assert ([top] + p)[..n + 1] == [top] + p[..n];
    if n > 0 {
      PathBelow(top, p[..n]);
    } else {
      assert p[..n] == [] && [top] + p[..n] == [top];
    }
  }

  /** The key of a directory: its names below the top directory with dashes between them, in a file system without
      slashes in names. */
  lemma KeyIs(p: Path)
    requires p != [] && forall n | n in p :: '/' !in n
    ensures KeyOf("applications/", ["applications"] + p) == Dashed(p)
    ensures KeyOf("clusterclasses/", ["clusterclasses"] + p) == Dashed(p)
  {
    hide ReplaceSlashes, TrimPrefix, PathString;
    PathBelow("applications", p);
    PathBelow("clusterclasses", p);
    assert "applications" + "/" == "applications/" && "clusterclasses" + "/" == "clusterclasses/";
    Trimmed("applications/", PathString(p));
    Trimmed("clusterclasses/", PathString(p));
    PathDashed(p);
  }

  // --- The files of a directory ---

  /** A file whose name ends with ".yaml" or ".yml". */
  ghost predicate NamedYaml(e: Entry) {
    e.File? && ((|e.name| >= 5 && e.name[|e.name| - 5..] == ".yaml") || (|e.name| >= 4 && e.name[|e.name| - 4..] == ".yml"))
  }

  lemma IsYamlMeans(e: Entry)
    ensures IsYaml(e) <==> NamedYaml(e)
  {
  }

  /** `index` counts up through exactly those files. */
  ghost predicate Picks(entries: seq<Entry>, index: seq<nat>) {
    && (forall i | 0 <= i < |index| :: index[i] < |entries|)
    && (forall i, j | 0 <= i < j < |index| :: index[i] < index[j])
    && (forall n | 0 <= n < |entries| :: n in index <==> NamedYaml(entries[n]))
  }

  lemma PicksMore(entries: seq<Entry>, before: seq<nat>)
    requires entries != [] && Picks(entries[..|entries| - 1], before)
    ensures Picks(entries, before + if NamedYaml(entries[|entries| - 1]) then [|entries| - 1] else [])
  {
    hide NamedYaml;
    var n := |entries| - 1;
    var index := before + if NamedYaml(entries[n]) then [n] else [];
    forall m: nat | m < |entries|
      ensures m in index <==> NamedYaml(entries[m])
    {
      if m < n {
        assert entries[..n][m] == entries[m];
      }
    }
  }

  /** The contents of exactly those files, in the order of the directory. */
  lemma {:induction false} YamlsSelect(entries: seq<Entry>) returns (index: seq<nat>)
    ensures Picks(entries, index) && |index| == |Yamls(entries)|
    ensures forall i | 0 <= i < |index| :: index[i] < |entries| && entries[index[i]].File? && Yamls(entries)[i] == entries[index[i]].content
    decreases |entries|
  {
    hide IsYaml, Picks;
    index := [];
    if entries == [] {
      assert Picks([], []) by { PicksNothing(); }
    } else {
      var n := |entries| - 1;
      var before := YamlsSelect(entries[..n]);
      IsYamlMeans(entries[n]);
      PicksMore(entries, before);
      index := before + if NamedYaml(entries[n]) then [n] else [];
      PicksBelow(entries[..n], before);
      assert forall i | 0 <= i < n :: entries[..n][i] == entries[i];
    }
    PicksBelow(entries, index);
  }

  lemma PicksNothing()
    ensures Picks([], [])
  {
  }

  lemma PicksBelow(entries: seq<Entry>, index: seq<nat>)
    requires Picks(entries, index)
    ensures forall i | 0 <= i < |index| :: index[i] < |entries|
  {
  }

  // --- Directories ---

  predicate HoldsYaml(tree: seq<Entry>, p: Path) {
    IsDirectory(tree, p) && Yamls(Find(tree, p).value) != []
  }

  function Content(tree: seq<Entry>, p: Path): string {
    if IsDirectory(tree, p) then Joined(Yamls(Find(tree, p).value)) else ""
  }

  lemma {:induction false} FindBelow(tree: seq<Entry>, p: Path, q: Path)
    ensures Find(tree, p + q) == if IsDirectory(tree, p) then Find(Find(tree, p).value, q) else None
    decreases |p|
  {
    if p == [] {
      assert p + q == q;
    } else {
      assert (p + q)[1..] == p[1..] + q;
      var sub := SubNamed(tree, p[0]);
      if sub.Some? {
        FindBelow(sub.value, p[1..], q);
      }
    }
  }

  lemma {:induction false} SubAt(entries: seq<Entry>, i: nat)
    requires i < |entries| && entries[i].Sub?
    requires forall j, l | 0 <= j < l < |entries| :: entries[j].name != entries[l].name
    ensures SubNamed(entries, entries[i].name) == Some(entries[i].entries)
  {
    if i > 0 {
      SubAt(entries[1..], i - 1);
    }
  }

  lemma {:induction false} SubIs(entries: seq<Entry>, name: string) returns (i: nat)
    requires SubNamed(entries, name).Some?
    ensures i < |entries| && entries[i] == Sub(name, SubNamed(entries, name).value)
  {
    if entries[0].Sub? && entries[0].name == name {
      i := 0;
    } else {
      i := SubIs(entries[1..], name);
      i := i + 1;
    }
  }

  lemma {:induction false} FoundWellFormed(tree: seq<Entry>, p: Path)
    requires WellFormed(tree) && IsDirectory(tree, p)
    ensures WellFormed(Find(tree, p).value)
    decreases |p|
  {
    if p != [] {
      var i := SubIs(tree, p[0]);
      assert tree[i] in tree;
      FoundWellFormed(SubNamed(tree, p[0]).value, p[1..]);
    }
  }

  lemma {:induction false} SubPathsAre(p: Path, entries: seq<Entry>)
    ensures forall d | d in SubPaths(p, entries) :: exists i :: 0 <= i < |entries| && entries[i].Sub? && d == p + [entries[i].name]
    ensures forall i | 0 <= i < |entries| && entries[i].Sub? :: p + [entries[i].name] in SubPaths(p, entries)
    decreases |entries|
  {
    if entries != [] {
      var n := |entries| - 1;
      SubPathsAre(p, entries[..n]);
      forall d | d in SubPaths(p, entries)
        ensures exists i :: 0 <= i < |entries| && entries[i].Sub? && d == p + [entries[i].name]
      {
        if d in SubPaths(p, entries[..n]) {
          var i :| 0 <= i < n && entries[..n][i].Sub? && d == p + [entries[..n][i].name];
          assert entries[i].Sub? && d == p + [entries[i].name];
        } else {
          assert entries[n].Sub? && d == p + [entries[n].name];
        }
      }
      assert forall i | 0 <= i < n :: entries[..n][i] == entries[i];
    }
  }

  // --- The measure ---

  lemma {:induction false} PendingAppend(tree: seq<Entry>, a: seq<Path>, b: seq<Path>)
    ensures Pending(tree, a + b) == Pending(tree, a) + Pending(tree, b)
    decreases |b|
  {
    if b == [] {
      assert a + b == a;
    } else {
      assert (a + b)[..|a + b| - 1] == a + b[..|b| - 1];
      PendingAppend(tree, a, b[..|b| - 1]);
    }
  }

  lemma {:induction false} SubSizesLast(entries: seq<Entry>)
    requires entries != []
    ensures SubSizes(entries) == SubSizes(entries[..|entries| - 1]) + if entries[|entries| - 1].Sub? then Size(entries[|entries| - 1].entries) else 0
    decreases |entries|
  {
    if |entries| > 1 {
      SubSizesLast(entries[1..]);
      assert entries[..|entries| - 1][1..] == entries[1..][..|entries| - 2];
    }
  }

  /** Pushing the subdirectories of a directory adds all its size but one. */
  lemma {:induction false} PushedSize(tree: seq<Entry>, p: Path, entries: seq<Entry>, n: nat)
    requires WellFormed(tree) && Find(tree, p) == Some(entries) && n <= |entries|
    ensures Pending(tree, SubPaths(p, entries[..n])) == SubSizes(entries[..n])
    decreases n
  {
    if n > 0 {
      assert entries[..n][..n - 1] == entries[..n - 1];
      PushedSize(tree, p, entries, n - 1);
      SubSizesLast(entries[..n]);
      var d := p + [entries[n - 1].name];
      var before := SubPaths(p, entries[..n - 1]);
      assert SubPaths(p, entries[..n]) == if entries[n - 1].Sub? then before + [d] else before;
      if entries[n - 1].Sub? {
        FoundWellFormed(tree, p);
        SubAt(entries, n - 1);
        FindBelow(tree, p, [entries[n - 1].name]);
        assert [entries[n - 1].name][1..] == [];
        PendingAppend(tree, before, [d]);
        assert [d][..0] == [] && Pending(tree, [d]) == Size(entries[n - 1].entries);
      }
    }
  }

  lemma VisitLowers(tree: seq<Entry>, rest: seq<Path>, p: Path)
    requires WellFormed(tree) && IsDirectory(tree, p)
    ensures Pending(tree, rest + SubPaths(p, Find(tree, p).value)) + 1 == Pending(tree, rest + [p])
  {
    var entries := Find(tree, p).value;
    PushedSize(tree, p, entries, |entries|);
    assert entries[..|entries|] == entries;
    PendingAppend(tree, rest, SubPaths(p, entries));
    PendingAppend(tree, rest, [p]);
    assert [p][..0] == [] && Pending(tree, [p]) == Size(entries);
  }

  // --- What is covered ---

  ghost predicate Covered(tree: seq<Entry>, visited: set<Path>, dirs: seq<Path>) {
    forall q {:trigger IsDirectory(tree, q)} | IsDirectory(tree, q) :: q in visited || exists i :: 0 <= i < |dirs| && dirs[i] <= q
  }

  /** A directory properly below `p` is below one of the directories pushed for `p`. */
  lemma PushedAncestor(tree: seq<Entry>, p: Path, entries: seq<Entry>, q: Path) returns (m: nat)
    requires Find(tree, p) == Some(entries) && IsDirectory(tree, q) && p <= q && p != q
    ensures m < |SubPaths(p, entries)| && SubPaths(p, entries)[m] <= q
  {
    hide SubPaths, SubNamed;
    var below := q[|p|..];
    assert q == p + below && below != [];
    FindBelow(tree, p, below);
    FindStarts(entries, below);
    var j := SubIs(entries, below[0]);
    SubPathsAre(p, entries);
    var d := p + [entries[j].name];
    assert d in SubPaths(p, entries) && d <= q;
    m :| 0 <= m < |SubPaths(p, entries)| && SubPaths(p, entries)[m] == d;
  }

  lemma FindStarts(tree: seq<Entry>, p: Path)
    requires p != [] && IsDirectory(tree, p)
    ensures SubNamed(tree, p[0]).Some?
  {
  }

  lemma VisitCovers(tree: seq<Entry>, visited: set<Path>, rest: seq<Path>, p: Path)
    requires Covered(tree, visited, rest + [p]) && IsDirectory(tree, p)
    ensures Covered(tree, visited + {p}, rest + SubPaths(p, Find(tree, p).value))
  {
    var entries := Find(tree, p).value;
    hide SubPaths, IsDirectory, Find;
    var dirs := rest + SubPaths(p, entries);
    forall q | IsDirectory(tree, q) && q !in visited && q != p
      ensures exists i :: 0 <= i < |dirs| && dirs[i] <= q
    {
      var i :| 0 <= i < |rest + [p]| && (rest + [p])[i] <= q;
      if i < |rest| {
        assert dirs[i] <= q;
      } else {
        var m := PushedAncestor(tree, p, entries, q);
        assert dirs[|rest| + m] == SubPaths(p, entries)[m];
      }
    }
  }

  lemma VisitPushesDirectories(tree: seq<Entry>, p: Path)
    requires WellFormed(tree) && IsDirectory(tree, p)
    ensures forall d | d in SubPaths(p, Find(tree, p).value) :: IsDirectory(tree, d)
  {
    var entries := Find(tree, p).value;
    SubPathsAre(p, entries);
    FoundWellFormed(tree, p);
    forall d | d in SubPaths(p, entries)
      ensures IsDirectory(tree, d)
    {
      var i :| 0 <= i < |entries| && entries[i].Sub? && d == p + [entries[i].name];
      SubAt(entries, i);
      FindBelow(tree, p, [entries[i].name]);
      assert [entries[i].name][1..] == [];
    }
  }

  /** What was collected from the visited directories: each key has the content of one of its directories. */
  ghost predicate Gathered(tree: seq<Entry>, prefix: string, visited: set<Path>, out: map<string, string>) {
    && (forall q | q in visited && HoldsYaml(tree, q) :: KeyOf(prefix, q) in out)
    && (forall key | key in out :: exists q :: q in visited && HoldsYaml(tree, q) && KeyOf(prefix, q) == key && out[key] == Content(tree, q))
  }

  lemma VisitGathers(tree: seq<Entry>, prefix: string, visited: set<Path>, out: map<string, string>, p: Path, files: map<string, string>)
    requires Gathered(tree, prefix, visited, out) && IsDirectory(tree, p)
    requires files == if HoldsYaml(tree, p) then map[KeyOf(prefix, p) := Content(tree, p)] else map[]
    ensures Gathered(tree, prefix, visited + {p}, out + files)
  {
    hide KeyOf, Content, HoldsYaml;
    var after := out + files;
    forall key | key in after
      ensures exists q :: q in visited + {p} && HoldsYaml(tree, q) && KeyOf(prefix, q) == key && after[key] == Content(tree, q)
    {
      if key in files {
        assert p in visited + {p};
      } else {
        var q :| q in visited && HoldsYaml(tree, q) && KeyOf(prefix, q) == key && out[key] == Content(tree, q);
        assert q in visited + {p};
      }
    }
  }

  /** Directories that hold YAML files and share a key have the same content. */
  ghost predicate KeysTellApart(tree: seq<Entry>, prefix: string) {
    forall p, q | HoldsYaml(tree, p) && HoldsYaml(tree, q) && KeyOf(prefix, p) == KeyOf(prefix, q) :: Content(tree, p) == Content(tree, q)
  }

  /** Every YAML file of the tree is found under the key of its directory. */
  ghost predicate Complete(tree: seq<Entry>, prefix: string, out: map<string, string>) {
    forall p | HoldsYaml(tree, p) :: KeyOf(prefix, p) in out && out[KeyOf(prefix, p)] == Content(tree, p)
  }

  lemma CompleteExactly(tree: seq<Entry>, prefix: string, visited: set<Path>, out: map<string, string>)
    requires Gathered(tree, prefix, visited, out)
    requires forall p | IsDirectory(tree, p) :: p in visited
    ensures Complete(tree, prefix, out) <==> KeysTellApart(tree, prefix)
  {
    hide KeyOf, Content;
    if KeysTellApart(tree, prefix) {
      forall p | HoldsYaml(tree, p)
        ensures KeyOf(prefix, p) in out && out[KeyOf(prefix, p)] == Content(tree, p)
      {
        assert p in visited;
        var q :| q in visited && HoldsYaml(tree, q) && KeyOf(prefix, q) == KeyOf(prefix, p) && out[KeyOf(prefix, p)] == Content(tree, q);
      }
    }
  }

  // --- The collection ---

  /** Two directories below the root of the embedded files, a/b and a-b, with one file each. */
  const COLLIDING: seq<Entry> := [Sub("applications", [Sub("a", [Sub("b", [File("x.yaml", "1")])]), Sub("a-b", [File("x.yaml", "2")])])]

  lemma OneFile(entries: seq<Entry>, content: string)
    requires entries == [File("x.yaml", content)] && content != ""
    ensures Yamls(entries) == [content] && Joined(Yamls(entries)) == SEPARATOR + content
  {
    OneYaml(entries, content);
    OneJoined(content);
  }

  lemma OneYaml(entries: seq<Entry>, content: string)
    requires entries == [File("x.yaml", content)]
    ensures Yamls(entries) == [content]
  {
    assert "x.yaml"[1..] == ".yaml";
    assert entries[..0] == [] && IsYaml(entries[0]);
    assert Yamls([]) == [];
  }

  lemma OneJoined(content: string)
    requires content != ""
    ensures Joined([content]) == SEPARATOR + content
  {
    hide JoinAll, Part, Repeated;
    assert [content][..0] == [];
    assert Joined([]) == "";
    JoinTwo("", content);
    PartIs("");
    PartIs(content);
  }

  const DEEP: Path := ["applications", "a", "b"]
  const FLAT: Path := ["applications", "a-b"]

  lemma CollidingFinds()
    ensures Find(COLLIDING, DEEP) == Some([File("x.yaml", "1")]) && Find(COLLIDING, FLAT) == Some([File("x.yaml", "2")])
  {
    var deep, flat := [File("x.yaml", "1")], [File("x.yaml", "2")];
    var below := [Sub("a", [Sub("b", deep)]), Sub("a-b", flat)];
    assert DEEP[1..] == ["a", "b"] && DEEP[1..][1..] == ["b"] && DEEP[1..][1..][1..] == [];
    assert FLAT[1..] == ["a-b"] && FLAT[1..][1..] == [];
    assert SubNamed([Sub("b", deep)], "b") == Some(deep);
    assert Find(below, DEEP[1..]) == Find([Sub("b", deep)], DEEP[1..][1..]) == Some(deep);
    assert below[1..] == [Sub("a-b", flat)];
    assert Find(below, FLAT[1..]) == Some(flat);
  }

  lemma CollidingWellFormed()
    ensures WellFormed(COLLIDING)
  {
    var deep, flat := [File("x.yaml", "1")], [File("x.yaml", "2")];
    assert WellFormed(deep) && WellFormed(flat) && WellFormed([Sub("b", deep)]);
    assert WellFormed([Sub("a", [Sub("b", deep)]), Sub("a-b", flat)]);
  }

  /** They share a key, so no collection of this tree is complete. */
  lemma CollidingIsIncomplete(out: map<string, string>)
    ensures WellFormed(COLLIDING) && !KeysTellApart(COLLIDING, "applications/") && !Complete(COLLIDING, "applications/", out)
  {
    hide Find, KeyOf, Joined, Yamls, WellFormed;
    CollidingFinds();
    CollidingWellFormed();
    CollidingKeys();
    OneFile([File("x.yaml", "1")], "1");
    OneFile([File("x.yaml", "2")], "2");
    assert HoldsYaml(COLLIDING, DEEP) && HoldsYaml(COLLIDING, FLAT);
    assert Content(COLLIDING, DEEP) == SEPARATOR + "1" && Content(COLLIDING, FLAT) == SEPARATOR + "2";
    assert (SEPARATOR + "1")[|SEPARATOR|] == '1' && (SEPARATOR + "2")[|SEPARATOR|] == '2';
  }

  lemma CollidingKeys()
    ensures KeyOf("applications/", DEEP) == KeyOf("applications/", FLAT)
  {
    hide ReplaceSlashes;
    CollidingPaths();
    Trimmed("applications/", "a/b");
    Trimmed("applications/", "a-b");
    assert ReplaceSlashes("a/b") == "a-b" && ReplaceSlashes("a-b") == "a-b" by { Replaced(); }
  }

  lemma CollidingPaths()
    ensures PathString(DEEP) == "applications/" + "a/b" && PathString(FLAT) == "applications/" + "a-b"
  {
    assert DEEP[..2] == ["applications", "a"] && DEEP[..2][..1] == ["applications"] && FLAT[..1] == ["applications"];
    assert PathString(["applications"]) == "applications";
    assert PathString(DEEP[..2]) == "applications" + "/" + "a";
    assert PathString(DEEP) == "applications" + "/" + "a" + "/" + "b";
    assert "applications" + "/" == "applications/" && "a" + "/" + "b" == "a/b";
  }

  lemma Trimmed(prefix: string, s: string)
    ensures TrimPrefix(prefix + s, prefix) == s
  {
  }

  lemma Replaced()
    ensures ReplaceSlashes("a/b") == "a-b" && ReplaceSlashes("a-b") == "a-b"
  {
  }

  lemma NextEntry(p: Path, entries: seq<Entry>, i: nat)
    requires i < |entries|
    ensures SubPaths(p, entries[..i + 1]) == SubPaths(p, entries[..i]) + if entries[i].Sub? then [p + [entries[i].name]] else []
    ensures IsYaml(entries[i]) ==> !entries[i].Sub?
    ensures !IsYaml(entries[i]) ==> Yamls(entries[..i + 1]) == Yamls(entries[..i])
    ensures IsYaml(entries[i]) ==>
      && Yamls(entries[..i + 1]) != []
      && Joined(Yamls(entries[..i + 1])) == JoinAll([Joined(Yamls(entries[..i])), entries[i].content])
  {
    hide JoinAll;
    assert entries[..i + 1][..i] == entries[..i];
    var before, after := Yamls(entries[..i]), Yamls(entries[..i + 1]);
    assert after == before + if IsYaml(entries[i]) then [entries[i].content] else [];
    if IsYaml(entries[i]) {
      assert after[..|after| - 1] == before;
    }
  }

  lemma NothingJoined(tree: seq<Entry>, p: Path)
    ensures SubPaths(p, []) == [] && Yamls([]) == [] && Joined([]) == ""
    ensures HoldsYaml(tree, p) <==> IsDirectory(tree, p) && Yamls(Find(tree, p).value) != []
    ensures IsDirectory(tree, p) ==> Content(tree, p) == Joined(Yamls(Find(tree, p).value))
  {
  }

  class Examples {
    var applications: map<string, string>
    var clusterClasses: map<string, string>
    /** The stack of directories to visit. */
    var dirs: seq<Path>

    constructor ()
      ensures dirs == []
    {
      applications, clusterClasses, dirs := map[], map[], [];
    }

    method CollectFiles(tree: seq<Entry>, root: Path, prefix: string) returns (files: map<string, string>)
      requires IsDirectory(tree, root)
      modifies this`dirs
      ensures dirs == old(dirs) + SubPaths(root, Find(tree, root).value)
      ensures files == if HoldsYaml(tree, root) then map[KeyOf(prefix, root) := Content(tree, root)] else map[]
    {
      hide SubPaths, Yamls, Joined, JoinAll, IsYaml, KeyOf, Content, HoldsYaml, Find;
      NothingJoined(tree, root);
      var entries := Find(tree, root).value;
      var key := KeyOf(prefix, root);
      files := map[];
      for i := 0 to |entries|
        invariant dirs == old(dirs) + SubPaths(root, entries[..i])
        invariant files == if Yamls(entries[..i]) == [] then map[] else map[key := Joined(Yamls(entries[..i]))]
      {
        NextEntry(root, entries, i);
        if entries[i].Sub? {
          dirs := dirs + [root + [entries[i].name]];
        } else if IsYaml(entries[i]) {
          var joined := JoinYamls([if key in files then files[key] else "", entries[i].content]);
          files := files[key := joined];
        }
      }
      assert entries[..|entries|] == entries;
    }

    /** One of the two loops of Collect. It ends, whatever the tree. */
    method CollectTree(tree: seq<Entry>, prefix: string) returns (out: map<string, string>)
      requires WellFormed(tree) && dirs == []
      modifies this`dirs
      ensures dirs == []
      ensures Complete(tree, prefix, out) <==> KeysTellApart(tree, prefix)
      ensures forall key | key in out :: exists p :: HoldsYaml(tree, p) && KeyOf(prefix, p) == key && out[key] == Content(tree, p)
    {
      hide KeyOf, HoldsYaml, Content, WellFormed, Pending, Gathered, Covered, IsDirectory;
      out := map[];
      dirs := dirs + [[]];
      assert dirs == [[]];
      ghost var visited: set<Path> := {};
      StartCollecting(tree, prefix);
      while |dirs| > 0
        invariant Covered(tree, visited, dirs) && forall d | d in dirs :: IsDirectory(tree, d)
        invariant Gathered(tree, prefix, visited, out)
        decreases Pending(tree, dirs)
      {
        var root := dirs[|dirs| - 1];
        ghost var rest := dirs[..|dirs| - 1];
        assert dirs == rest + [root] && root in dirs;
        dirs := dirs[..|dirs| - 1];
        var files := CollectFiles(tree, root, prefix);
        VisitLowers(tree, rest, root);
        VisitCovers(tree, visited, rest, root);
        VisitPushesDirectories(tree, root);
        VisitGathers(tree, prefix, visited, out, root, files);
        out := out + files;
        visited := visited + {root};
      }
      AllVisited(tree, visited);
      CompleteExactly(tree, prefix, visited, out);
      OnlyFromDirectories(tree, prefix, visited, out);
    }

    method Collect(applicationTree: seq<Entry>, clusterClassTree: seq<Entry>)
      requires WellFormed(applicationTree) && WellFormed(clusterClassTree) && dirs == []
      modifies this
      ensures dirs == []
      ensures Complete(applicationTree, "applications/", applications) <==> KeysTellApart(applicationTree, "applications/")
      ensures Complete(clusterClassTree, "clusterclasses/", clusterClasses) <==> KeysTellApart(clusterClassTree, "clusterclasses/")
    {
      hide Complete, KeysTellApart, WellFormed;
      applications := CollectTree(applicationTree, "applications/");
      clusterClasses := CollectTree(clusterClassTree, "clusterclasses/");
    }
  }

  lemma StartCollecting(tree: seq<Entry>, prefix: string)
    ensures Covered(tree, {}, [[]]) && IsDirectory(tree, []) && Gathered(tree, prefix, {}, map[])
  {
    forall q: Path | IsDirectory(tree, q)
      ensures exists i :: 0 <= i < 1 && [[]][i] <= q
    {
      assert [[]][0] <= q;
    }
  }

  lemma AllVisited(tree: seq<Entry>, visited: set<Path>)
    requires Covered(tree, visited, [])
    ensures forall p | IsDirectory(tree, p) :: p in visited
  {
  }

  lemma OnlyFromDirectories(tree: seq<Entry>, prefix: string, visited: set<Path>, out: map<string, string>)
    requires Gathered(tree, prefix, visited, out)
    ensures forall key | key in out :: exists p :: HoldsYaml(tree, p) && KeyOf(prefix, p) == key && out[key] == Content(tree, p)
  {
  }

  /** The running minimum over the keys, in whatever order they come; a distance of MAX_INT is never chosen. */
  method ClosestMatch(keys: set<string>, key: string, distance: (string, string) -> nat) returns (closest: string)
    ensures (forall k | k in keys :: distance(k, key) >= MAX_INT) ==> closest == ""
    ensures (exists k :: k in keys && distance(k, key) < MAX_INT) ==>
      closest in keys && forall k | k in keys :: distance(closest, key) <= distance(k, key)
  {
    closest := "";
    var shortest := MAX_INT;
    var left := keys;
    while left != {}
      invariant left <= keys
      invariant shortest == MAX_INT ==> closest == "" && forall k | k in keys - left :: distance(k, key) >= MAX_INT
      invariant shortest <= MAX_INT
      invariant shortest < MAX_INT ==> closest in keys && distance(closest, key) == shortest && forall k | k in keys - left :: shortest <= distance(k, key)
      decreases |left|
    {
      var k :| k in left;
      var d := distance(k, key);
      if d < shortest {
        shortest := d;
        closest := k;
      }
      left := left - {k};
    }
  }
}
