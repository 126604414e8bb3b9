/** The body of `main`'s loop in backstage.py: what one `(root, dirs, files)` triple of
    the walk produces. `VisitOutcome` states it as a function; `ProcessDirectory` is the
    loop body itself, proved to compute it. */
module Directory {
  import opened Wrappers
  import opened Yaml
  import opened Names
  import opened Prefixes
  import opened Entities
  import opened Tree
  import opened Outcomes

  /** The four fields `main` reads from a descriptor. */
  datatype Descriptor = Descriptor(name: string, description: Value, auditable: Value, coreBusiness: Value)

  /** The glob patterns `unit=*`, `division=*`, `vertical=*`, `team=*`, as the prefixes
      they match, in the order `main` tries them. */
  const Includes: seq<string> := ["unit=", "division=", "vertical=", "team="]

  /** The reads `old_yml["name"]`, `["description"]`, `["auditable"]`, `["coreBusiness"]`,
      in argument order, and the normalisation of the name. */
  function ReadDescriptor(content: Value): (r: Result<Descriptor, Error>)
    ensures r.Ok? <==>
      content.Mapping? &&
      "name" in content.entries && "description" in content.entries &&
      "auditable" in content.entries && "coreBusiness" in content.entries &&
      content.entries["name"].Str?
    ensures r.Ok? ==> r.value == Descriptor(content.entries["name"].s,
      content.entries["description"], content.entries["auditable"], content.entries["coreBusiness"])
    ensures r != Err(LoadFailed)
    ensures r == Err(MissingField("coreBusiness")) <==>
      content.Mapping? && "coreBusiness" !in content.entries &&
      "name" in content.entries && "description" in content.entries && "auditable" in content.entries
  {
    match content
    case Mapping(m) =>
      if "name" !in m then Err(MissingField("name"))
      else if "description" !in m then Err(MissingField("description"))
      else if "auditable" !in m then Err(MissingField("auditable"))
      else if "coreBusiness" !in m then Err(MissingField("coreBusiness"))
      else if !m["name"].Str? then Err(NameNotText)
      else Ok(Descriptor(m["name"].s, m["description"], m["auditable"], m["coreBusiness"]))
    case _ => Err(NotAMapping)
  }

  /** Opening and loading the file, then the reads of `ReadDescriptor`. */
  function LoadDescriptor(content: Option<Value>): (r: Result<Descriptor, Error>)
    ensures r == Err(LoadFailed) <==> content.None?
    ensures r.Ok? <==> content.Some? && ReadDescriptor(content.value).Ok?
    ensures r.Ok? ==> r.value == ReadDescriptor(content.value).value
  {
    if content.None? then Err(LoadFailed) else ReadDescriptor(content.value)
  }

  // ---------------------------------------------------------------------------
  // Paths

  /** `os.path.basename(root)` */
  function BaseName(root: seq<string>): string {
    if root == [] then "." else root[|root| - 1]
  }

  /** The parent id of backstage.py:45-48: "" for "." and its immediate subdirectories,
      otherwise built from the basename of the immediate parent directory alone. */
  function ParentId(root: seq<string>): string {
    if |root| >= 2 then
      var b := root[|root| - 2];
      BuildName(RemoveAllPrefix(b)) + "_" + GetPrefix(b)
    else ""
  }

  /** `s.rfind(c)` */
  function RFind(s: string, c: char): (i: int)
    ensures -1 <= i < |s|
    ensures 0 <= i ==> s[i] == c
  {
    if s == [] then -1
    else if s[|s| - 1] == c then |s| - 1
    else RFind(s[..|s| - 1], c)
  }

  /** `rfind` returns the last occurrence, and -1 only when there is none. */
  lemma {:induction false} RFindSpec(s: string, c: char)
    ensures 0 <= RFind(s, c) ==> forall j :: RFind(s, c) < j < |s| ==> s[j] != c
    ensures RFind(s, c) == -1 ==> forall j :: 0 <= j < |s| ==> s[j] != c
  {
    if s != [] && s[|s| - 1] != c {
      RFindSpec(s[..|s| - 1], c);
    }
  }

  /** Whether `s` is made of dots only. */
  predicate AllDots(s: string) {
    s == [] || (s[0] == '.' && AllDots(s[1..]))
  }

  lemma {:induction false} AllDotsSpec(s: string)
    ensures AllDots(s) <==> forall j :: 0 <= j < |s| ==> s[j] == '.'
  {
    if s != [] {
      AllDotsSpec(s[1..]);
      assert forall j :: 1 <= j < |s| ==> s[j] == s[1..][j - 1];
    }
  }

  /** `os.path.splitext(f)[0]` for a basename: the name without its last extension. A
      last '.' that only dots precede (".profile", "..x") starts no extension. */
  function Stem(f: string): string {
    var i := RFind(f, '.');
    if i > 0 && !AllDots(f[..i]) then f[..i] else f
  }

  /** The stem is a prefix of the name; when it is shorter, the name continues with the
      last '.' of the name, and the stem holds a character other than '.'. The name is
      its own stem only when every '.' in it has only dots before it. */
  lemma StemSpec(f: string)
    ensures StartsWith(f, Stem(f))
    ensures Stem(f) != f ==>
      f[|Stem(f)|] == '.' && (forall j :: |Stem(f)| < j < |f| ==> f[j] != '.') &&
      (exists j :: 0 <= j < |Stem(f)| && Stem(f)[j] != '.')
    ensures Stem(f) == f ==>
      forall j :: 0 <= j < |f| && f[j] == '.' ==> forall m :: 0 <= m < j ==> f[m] == '.'
  {
    RFindSpec(f, '.');
    var i := RFind(f, '.');
    if i > 0 {
      AllDotsSpec(f[..i]);
    }
  }

  /** A name with no '.' after its first character is its own stem. */
  lemma StemNoDot(f: string)
    requires forall j :: 0 < j < |f| ==> f[j] != '.'
    ensures Stem(f) == f
  {
  }

  /** The file a classified directory's group and location are written to. */
  function EntityFileName(path: string): string {
    BuildName(path) + ".yaml"
  }

  /** The file the system of descriptor `f` is written to: `system_{fname}.yaml`. */
  function SystemFileName(f: string): string {
    "system_" + BuildName(Stem(f)) + ".yaml"
  }

  /** The manifest target for descriptor `f`: `./system_{build_name(fname)}.yaml`. */
  function SystemTarget(f: string): string {
    "./system_" + BuildName(BuildName(Stem(f))) + ".yaml"
  }

  /** The manifest target for subdirectory `dir`: `./{dir}/{build_name(dir)}.yaml`. */
  function SubdirTarget(dir: string): string {
    "./" + dir + "/" + BuildName(dir) + ".yaml"
  }

  // ---------------------------------------------------------------------------
  // Manifest targets

  /** The targets one glob pattern adds: one per matching subdirectory, in `dirs` order. */
  function Matching(dirs: seq<string>, prefix: string): seq<string> {
    if dirs == [] then []
    else
      Matching(dirs[..|dirs| - 1], prefix) +
      (if StartsWith(dirs[|dirs| - 1], prefix) then [SubdirTarget(dirs[|dirs| - 1])] else [])
  }

  /** The targets the patterns `prefixes` add, pattern after pattern. */
  function SubdirTargetsFor(dirs: seq<string>, prefixes: seq<string>): seq<string> {
    if prefixes == [] then []
    else SubdirTargetsFor(dirs, prefixes[..|prefixes| - 1]) + Matching(dirs, prefixes[|prefixes| - 1])
  }

  function SubdirTargets(dirs: seq<string>): seq<string> {
    SubdirTargetsFor(dirs, Includes)
  }

  /** The targets the files add: one per file, in `files` order. */
  function FileTargets(files: seq<File>): seq<string> {
    seq(|files|, i requires 0 <= i < |files| => SystemTarget(files[i].fileName))
  }

  lemma FileTargetsSnoc(kept: seq<string>, files: seq<File>, i: nat)
    requires i < |files|
    ensures kept + FileTargets(files[..i + 1]) == (kept + FileTargets(files[..i])) + [SystemTarget(files[i].fileName)]
  {
    var a, b := FileTargets(files[..i + 1]), FileTargets(files[..i]);
    forall j | 0 <= j < i
      ensures a[j] == b[j]
    {
      assert files[..i + 1][j] == files[..i][j];
    }
    assert a == b + [a[i]];
    AppendAssoc(kept, b, [a[i]]);
  }

  lemma AppendAssoc<T>(a: seq<T>, b: seq<T>, c: seq<T>)
    ensures a + (b + c) == (a + b) + c
  {
  }

  /** The targets of a level-`k` directory's location once its files are processed:
      a team keeps only its files' targets. */
  function ManifestTargets(k: Kind, dirs: seq<string>, files: seq<File>): seq<string> {
    ManifestHead(k, dirs) + FileTargets(files)
  }

  /** The subdirectory targets a level-`k` manifest keeps: none for a team. */
  function ManifestHead(k: Kind, dirs: seq<string>): seq<string> {
    if k == Team then [] else SubdirTargets(dirs)
  }

  // ---------------------------------------------------------------------------
  // What a visit writes

  /** The system a descriptor describes, owned by `owner`. */
  function SystemOf(d: Descriptor, owner: string): System {
    BuildSystem(d.name, d.description, d.auditable, d.coreBusiness, owner)
  }

  /** What reading the descriptor file `f` gives: its system file, or the fault that
      ends the run. */
  function FileOutcome(root: seq<string>, f: File, owner: string): Outcome {
    var r := LoadDescriptor(f.content);
    if r.Err? then Outcome([], Some(r.error))
    else Outcome([SystemDoc(root, SystemFileName(f.fileName), SystemOf(r.value, owner))], None)
  }

  /** One pass per descriptor file, in `files` order. */
  function FileOutcomes(root: seq<string>, files: seq<File>, owner: string): seq<Outcome> {
    seq(|files|, i requires 0 <= i < |files| => FileOutcome(root, files[i], owner))
  }

  /** The system files the loop over `files` writes, up to the first descriptor fault. */
  function SystemWrites(root: seq<string>, files: seq<File>, owner: string): Outcome {
    Chain(FileOutcomes(root, files, owner))
  }

  /** What one visit writes, given the location's random draw. */
  function VisitOutcome(v: Visit, draw: Draw): Outcome {
    var path := BaseName(v.root);
    var name := RemoveAllPrefix(path);
    match Classify(path)
    case None => Outcome([], None)
    case Some(k) =>
      var entity := BuildGroup(k, name, ParentId(v.root));
      var systems := SystemWrites(v.root, v.files, entity.name);
      if systems.error.Some? then systems
      else
        var location := BuildLocation(name, draw).(targets := ManifestTargets(k, Prune(v.dirs), v.files));
        Outcome(systems.writes + [EntityDoc(v.root, EntityFileName(path), entity, location)], None)
  }

  /** A classified visit whose descriptors fault writes the systems before the fault
      and no group. */
  lemma VisitOutcomeFault(v: Visit, draw: Draw, k: Kind)
    requires Classify(BaseName(v.root)) == Some(k)
    requires SystemWrites(v.root, v.files,
      BuildGroup(k, RemoveAllPrefix(BaseName(v.root)), ParentId(v.root)).name).error.Some?
    ensures VisitOutcome(v, draw) == SystemWrites(v.root, v.files,
      BuildGroup(k, RemoveAllPrefix(BaseName(v.root)), ParentId(v.root)).name)
  {
  }

  // ---------------------------------------------------------------------------
  // The loop body

  /** The loops over `includes` and `fnmatch.filter(dirs, pattern)` (backstage.py:69-72),
      appending to the location's empty target list. */
  method CollectSubdirTargets(dirs: seq<string>) returns (targets: seq<string>)
    ensures targets == SubdirTargets(dirs)
  {
    targets := [];
    for p := 0 to |Includes|
      invariant targets == SubdirTargetsFor(dirs, Includes[..p])
    {
      assert Includes[..p + 1][..p] == Includes[..p];
      for j := 0 to |dirs|
        invariant targets == SubdirTargetsFor(dirs, Includes[..p]) + Matching(dirs[..j], Includes[p])
      {
        assert dirs[..j + 1][..j] == dirs[..j];
        if StartsWith(dirs[j], Includes[p]) {
          targets := targets + [SubdirTarget(dirs[j])];
        }
      }
      assert dirs[..|dirs|] == dirs;
    }
    assert Includes[..|Includes|] == Includes;
  }

  /** One pass of the loop over `files` (backstage.py:78-85): the target of `f`, and the
      system file its descriptor gives or the fault reading it raises. */
  method ProcessFile(root: seq<string>, f: File, owner: string) returns (target: string, written: Outcome)
    ensures target == SystemTarget(f.fileName)
    ensures written == FileOutcome(root, f, owner)
  {
    var fname := BuildName(Stem(f.fileName));
    target := "./system_" + BuildName(fname) + ".yaml";
    if f.content.None? {
      return target, Outcome([], Some(LoadFailed));
    }
    var descriptor := ReadDescriptor(f.content.value);
    if descriptor.Err? {
      return target, Outcome([], Some(descriptor.error));
    }
    var d := descriptor.value;
    var system := BuildSystem(d.name, d.description, d.auditable, d.coreBusiness, owner);
    written := Outcome([SystemDoc(root, "system_" + fname + ".yaml", system)], None);
  }

  /** The `i`-th pass of the loop over `files`, on the targets and system files of the
      passes before it. */
  method AddFile(root: seq<string>, files: seq<File>, owner: string, kept: seq<string>, i: nat,
                  targets: seq<string>, systems: Outcome)
    returns (targets': seq<string>, systems': Outcome)
    requires i < |files| && systems == ChainTo(FileOutcomes(root, files, owner), i) && systems.error.None?
    requires targets == kept + FileTargets(files[..i])
    ensures systems' == ChainTo(FileOutcomes(root, files, owner), i + 1)
    ensures systems'.error.None? ==> targets' == kept + FileTargets(files[..i + 1])
  {
    var target, written := ProcessFile(root, files[i], owner);
    FileTargetsSnoc(kept, files, i);
    targets' := targets + [target];
    systems' := Outcome(systems.writes + written.writes, written.error);
  }

  /** The loop over `files` (backstage.py:77-85): appends each file's target to `kept`
      and writes each file's system, until a descriptor fault ends the run. */
  method ProcessFiles(root: seq<string>, files: seq<File>, owner: string, kept: seq<string>)
    returns (targets: seq<string>, systems: Outcome)
    ensures systems == SystemWrites(root, files, owner)
    ensures systems.error.None? ==> targets == kept + FileTargets(files)
  {
    targets := kept;
    systems := Outcome([], None);
    for i := 0 to |files|
      invariant systems == ChainTo(FileOutcomes(root, files, owner), i) && systems.error.None?
      invariant targets == kept + FileTargets(files[..i])
    {
      targets, systems := AddFile(root, files, owner, kept, i, targets, systems);
      if systems.error.Some? {
        ChainEnd(FileOutcomes(root, files, owner), i + 1);
        return;
      }
    }
    ChainEnd(FileOutcomes(root, files, owner), |files|);
    assert files[..|files|] == files;
  }

  /** One pass of `main`'s loop over the triple `v`. */
  method ProcessDirectory(v: Visit, draw: Draw) returns (out: Outcome)
    ensures out == VisitOutcome(v, draw)
  {
    var dirs := Prune(v.dirs);

    var parent := "";
    if |v.root| >= 2 {
      var basename := v.root[|v.root| - 2];
      var stripped := RemoveAllPrefixLoop(basename);
      parent := BuildName(stripped) + "_" + GetPrefix(basename);
    }

    var path := BaseName(v.root);
    var name := RemoveAllPrefixLoop(path);
    assert parent == ParentId(v.root);

    var locations := BuildLocation(name, draw);
    var entity: Group;
    var kind: Kind;
    if StartsWith(path, "unit=") {
      entity, kind := BuildOrg(name), Unit;
    } else if StartsWith(path, "division=") {
      entity, kind := BuildDepartment(name, parent), Division;
    } else if StartsWith(path, "vertical=") {
      entity, kind := BuildSubDepartment(name, parent), Vertical;
    } else if StartsWith(path, "team=") {
      entity, kind := BuildTeam(name, parent), Team;
    } else {
      return Outcome([], None);
    }
    assert Classify(path) == Some(kind) && entity == BuildGroup(kind, name, ParentId(v.root));

    var targets := CollectSubdirTargets(dirs);
    assert locations.targets + targets == targets;
    targets := locations.targets + targets;
    ClassifyIff(path, Team);
    if StartsWith(path, "team=") {
      targets := [];
    }
    assert targets == if kind == Team then [] else SubdirTargets(dirs);

    var systems;
    targets, systems := ProcessFiles(v.root, v.files, entity.name, targets);
    if systems.error.Some? {
      VisitOutcomeFault(v, draw, kind);
      return systems;
    }
    assert targets == ManifestTargets(kind, dirs, v.files);

    var writes := systems.writes + [EntityDoc(v.root, BuildName(path) + ".yaml", entity, locations.(targets := targets))];
    out := Outcome(writes, None);
  }

  // ---------------------------------------------------------------------------
  // Properties of one visit

  /** With every descriptor readable, the loop writes one system per file, in order,
      each to the file named after its descriptor file and owned by `owner`. */
  lemma SystemWritesAll(root: seq<string>, files: seq<File>, owner: string)
    requires forall i :: 0 <= i < |files| ==> LoadDescriptor(files[i].content).Ok?
    ensures SystemWrites(root, files, owner).error.None?
    ensures |SystemWrites(root, files, owner).writes| == |files|
    ensures forall i :: 0 <= i < |files| ==> (SystemWrites(root, files, owner).writes[i] ==
      SystemDoc(root, SystemFileName(files[i].fileName), SystemOf(LoadDescriptor(files[i].content).value, owner)))
  {
    var passes := FileOutcomes(root, files, owner);
    ChainAll(passes, |files|);
    ConcatSingles(passes, |files|);
  }

  /** The first unreadable descriptor ends the loop with its fault, after the systems of
      the files before it. */
  lemma SystemWritesFirstFault(root: seq<string>, files: seq<File>, owner: string, j: nat)
    requires j < |files|
    requires forall i :: 0 <= i < j ==> LoadDescriptor(files[i].content).Ok?
    requires LoadDescriptor(files[j].content).Err?
    ensures SystemWrites(root, files, owner).error == Some(LoadDescriptor(files[j].content).error)
    ensures |SystemWrites(root, files, owner).writes| == j
    ensures forall i :: 0 <= i < j ==> (SystemWrites(root, files, owner).writes[i] ==
      SystemDoc(root, SystemFileName(files[i].fileName), SystemOf(LoadDescriptor(files[i].content).value, owner)))
  {
    var passes := FileOutcomes(root, files, owner);
    ChainFirstFault(passes, j);
    ConcatSingles(passes, j);
    assert Concat(passes, j + 1) == Concat(passes, j) + [];
  }

  /** The loop over the files faults exactly when one of the descriptors is unreadable. */
  lemma SystemWritesFaultIff(root: seq<string>, files: seq<File>, owner: string)
    ensures SystemWrites(root, files, owner).error.Some? <==>
      exists j :: 0 <= j < |files| && LoadDescriptor(files[j].content).Err?
  {
    var passes := FileOutcomes(root, files, owner);
    ChainFaultIff(passes, |files|);
    assert forall j :: 0 <= j < |files| ==> (passes[j].error.Some? <==> LoadDescriptor(files[j].content).Err?);
  }

  /** Everything the loop over the files writes lands in the visit's own directory. */
  lemma SystemWritesDir(root: seq<string>, files: seq<File>, owner: string, o: Output)
    requires o in SystemWrites(root, files, owner).writes
    ensures o.dir == root
  {
    var passes := FileOutcomes(root, files, owner);
    ChainWritesFrom(passes, |files|, o);
  }

  /** The manifest target of a descriptor names the file its system is written to, in
      the same directory: normalising the already normalised stem again changes nothing. */
  lemma SystemTargetIsWritten(f: string)
    ensures SystemTarget(f) == "./" + SystemFileName(f)
  {
    BuildNameIdempotent(Stem(f));
  }

  /** A level-`k` manifest lists the classified subdirectories (none for a team), then
      exactly one target per descriptor file, each naming that file's system file. */
  lemma ManifestShape(k: Kind, dirs: seq<string>, files: seq<File>)
    ensures |ManifestTargets(k, dirs, files)| == |ManifestHead(k, dirs)| + |files|
    ensures ManifestTargets(k, dirs, files)[..|ManifestHead(k, dirs)|] == ManifestHead(k, dirs)
    ensures k != Team ==> ManifestHead(k, dirs) == SubdirTargets(dirs)
    ensures k == Team ==> ManifestHead(k, dirs) == []
    ensures forall i :: 0 <= i < |files| ==>
      ManifestTargets(k, dirs, files)[|ManifestHead(k, dirs)| + i] == "./" + SystemFileName(files[i].fileName)
  {
    AppendParts(ManifestHead(k, dirs), FileTargets(files));
    FileTargetsNamed(files);
  }

  lemma FileTargetsNamed(files: seq<File>)
    ensures forall i :: 0 <= i < |files| ==> FileTargets(files)[i] == "./" + SystemFileName(files[i].fileName)
  {
    forall i | 0 <= i < |files| {
      SystemTargetIsWritten(files[i].fileName);
    }
  }

  lemma AppendParts<T>(a: seq<T>, b: seq<T>)
    ensures |a + b| == |a| + |b| && (a + b)[..|a|] == a
    ensures forall i :: 0 <= i < |b| ==> (a + b)[|a| + i] == b[i]
  {
  }

  /** A team manifest lists only system files. */
  lemma TeamManifestListsSystems(dirs: seq<string>, files: seq<File>, t: string)
    requires t in ManifestTargets(Team, dirs, files)
    ensures StartsWith(t, "./system_")
  {
    assert ManifestTargets(Team, dirs, files) == FileTargets(files);
    var i :| 0 <= i < |files| && FileTargets(files)[i] == t;
    SystemTargetPrefix(files[i].fileName);
  }

  lemma SystemTargetPrefix(f: string)
    ensures StartsWith(SystemTarget(f), "./system_")
  {
    var x := BuildName(BuildName(Stem(f)));
    assert SystemTarget(f) == "./system_" + (x + ".yaml");
  }

  lemma {:induction false} MatchingMembers(dirs: seq<string>, p: string, t: string)
    ensures t in Matching(dirs, p) <==> exists d :: d in dirs && StartsWith(d, p) && t == SubdirTarget(d)
  {
    if dirs != [] {
      var init := dirs[..|dirs| - 1];
      var last := dirs[|dirs| - 1];
      MatchingMembers(init, p, t);
      assert dirs == init + [last];
      if exists d :: d in dirs && StartsWith(d, p) && t == SubdirTarget(d) {
        var d :| d in dirs && StartsWith(d, p) && t == SubdirTarget(d);
        if d != last {
          assert d in init;
        }
      }
    }
  }

  lemma {:induction false} SubdirTargetsForMembers(dirs: seq<string>, ps: seq<string>, t: string)
    ensures t in SubdirTargetsFor(dirs, ps) <==>
      exists d, p :: d in dirs && p in ps && StartsWith(d, p) && t == SubdirTarget(d)
  {
    if ps != [] {
      var init := ps[..|ps| - 1];
      var last := ps[|ps| - 1];
      SubdirTargetsForMembers(dirs, init, t);
      MatchingMembers(dirs, last, t);
      assert ps == init + [last];
      if exists d, p :: d in dirs && p in ps && StartsWith(d, p) && t == SubdirTarget(d) {
        var d, p :| d in dirs && p in ps && StartsWith(d, p) && t == SubdirTarget(d);
        if p != last {
          assert p in init;
        }
      }
    }
  }

  /** The glob patterns match exactly the classified names. */
  lemma IncludesMatchClassified(d: string)
    ensures Classify(d).Some? <==> exists p :: p in Includes && StartsWith(d, p)
  {
    ClassifyIff(d, Unit);
    ClassifyIff(d, Division);
    ClassifyIff(d, Vertical);
    ClassifyIff(d, Team);
    assert KindPrefix(Unit) == Includes[0] && KindPrefix(Division) == Includes[1];
    assert KindPrefix(Vertical) == Includes[2] && KindPrefix(Team) == Includes[3];
  }

  /** The manifest of a directory that is not a team lists every classified
      subdirectory, by the path of the file that subdirectory's group is written to. */
  lemma ManifestListsSubdir(k: Kind, dirs: seq<string>, files: seq<File>, n: string)
    requires k != Team && n in dirs && Classify(n).Some?
    ensures SubdirTarget(n) in ManifestTargets(k, dirs, files)
    ensures SubdirTarget(n) == "./" + n + "/" + EntityFileName(n)
  {
    SubdirTargetsMembers(dirs, SubdirTarget(n));
    assert SubdirTarget(n) in SubdirTargets(dirs);
    AppendAssoc("./" + n + "/", BuildName(n), ".yaml");
  }

  /** A manifest lists a subdirectory target exactly for the classified subdirectories. */
  lemma SubdirTargetsMembers(dirs: seq<string>, t: string)
    ensures t in SubdirTargets(dirs) <==> exists d :: d in dirs && Classify(d).Some? && t == SubdirTarget(d)
  {
    SubdirTargetsForMembers(dirs, Includes, t);
    forall d | d in dirs {
      IncludesMatchClassified(d);
    }
  }

  /** An unclassified directory writes nothing and does not fault. */
  lemma VisitUnclassified(v: Visit, draw: Draw)
    requires Classify(BaseName(v.root)).None?
    ensures VisitOutcome(v, draw) == Outcome([], None)
  {
  }

  /** The directory of `v` is classified and one of its descriptors is unreadable. */
  predicate Faulty(v: Visit) {
    Classify(BaseName(v.root)).Some? &&
    exists j :: 0 <= j < |v.files| && LoadDescriptor(v.files[j].content).Err?
  }

  /** A visit faults exactly when its directory is classified and one of its
      descriptors is unreadable. */
  lemma VisitFaultIff(v: Visit, draw: Draw)
    ensures VisitOutcome(v, draw).error.Some? <==> Faulty(v)
  {
    var path := BaseName(v.root);
    if Classify(path).Some? {
      var g := BuildGroup(Classify(path).value, RemoveAllPrefix(path), ParentId(v.root));
      SystemWritesFaultIff(v.root, v.files, g.name);
    }
  }

  /** A classified visit whose descriptors are all readable writes one system per file,
      owned by its group, and then the group's own file holding the group and its
      location. */
  lemma VisitWrites(v: Visit, draw: Draw, k: Kind)
    requires Classify(BaseName(v.root)) == Some(k)
    requires forall i :: 0 <= i < |v.files| ==> LoadDescriptor(v.files[i].content).Ok?
    ensures var o := VisitOutcome(v, draw);
      var path := BaseName(v.root);
      var g := BuildGroup(k, RemoveAllPrefix(path), ParentId(v.root));
      o.error.None? && |o.writes| == |v.files| + 1 &&
      (forall i :: 0 <= i < |v.files| ==> (o.writes[i] ==
        SystemDoc(v.root, SystemFileName(v.files[i].fileName), SystemOf(LoadDescriptor(v.files[i].content).value, g.name)))) &&
      o.writes[|v.files|] == EntityDoc(v.root, EntityFileName(path), g,
        BuildLocation(RemoveAllPrefix(path), draw).(targets := ManifestTargets(k, Prune(v.dirs), v.files)))
  {
    var path := BaseName(v.root);
    var g := BuildGroup(k, RemoveAllPrefix(path), ParentId(v.root));
    SystemWritesAll(v.root, v.files, g.name);
  }

  /** A visit's first unreadable descriptor ends the run after the systems of the files
      before it; the group file is not written. */
  lemma VisitFirstFault(v: Visit, draw: Draw, j: nat)
    requires Classify(BaseName(v.root)).Some?
    requires j < |v.files|
    requires forall i :: 0 <= i < j ==> LoadDescriptor(v.files[i].content).Ok?
    requires LoadDescriptor(v.files[j].content).Err?
    ensures VisitOutcome(v, draw).error == Some(LoadDescriptor(v.files[j].content).error)
    ensures |VisitOutcome(v, draw).writes| == j
    ensures forall i :: 0 <= i < j ==> VisitOutcome(v, draw).writes[i].SystemDoc?
  {
    var path := BaseName(v.root);
    var g := BuildGroup(Classify(path).value, RemoveAllPrefix(path), ParentId(v.root));
    SystemWritesFirstFault(v.root, v.files, g.name, j);
  }

  // ---------------------------------------------------------------------------
  // Parent ids

  /** When the parent directory is classified, the parent id is the name of the group
      that directory's visit builds. */
  lemma ParentIdOfClassified(root: seq<string>, k: Kind, parent: string)
    requires |root| >= 2 && Classify(root[|root| - 2]) == Some(k)
    ensures ParentId(root) == BuildGroup(k, RemoveAllPrefix(root[|root| - 2]), parent).name
  {
    GetPrefixOfClassified(root[|root| - 2], k);
  }

  /** A parent directory with no '=' in its name gives the id `{name}_{name}` with the
      name normalised only on the left: "misc" gives "misc_misc". */
  lemma ParentIdWithoutEquals(root: seq<string>)
    requires |root| >= 2 && '=' !in root[|root| - 2]
    ensures ParentId(root) == BuildName(root[|root| - 2]) + "_" + root[|root| - 2]
  {
    var b := root[|root| - 2];
    RemoveAllPrefixInOrder(b);
    NoPrefixWithoutEquals(b, "division=");
    NoPrefixWithoutEquals(b, "team=");
    NoPrefixWithoutEquals(b, "unit=");
    NoPrefixWithoutEquals(b, "vertical=");
  }

  /** Below a directory "misc", such as in "misc/team=x", the parent id is "misc_misc". */
  lemma UnclassifiedParentExample(root: seq<string>)
    requires |root| >= 2 && root[|root| - 2] == "misc"
    ensures ParentId(root) == "misc_misc"
  {
    ParentIdWithoutEquals(root);
    NormalisedMisc();
  }

  /** "misc" holds no upper-case letter, separator, '&' or white space. */
  lemma NormalisedMisc()
    ensures BuildName("misc") == "misc"
  {
    var b := "misc";
    StripNoop(b);
    assert b[1..] == "isc" && b[2..] == "sc" && b[3..] == "c" && b[4..] == [];
  }

  lemma NoPrefixWithoutEquals(b: string, p: string)
    requires '=' !in b
    requires p != [] && p[|p| - 1] == '='
    ensures RemovePrefix(b, p) == b
  {
    var m := if |p| <= |b| then |p| else |b|;
    assert '=' !in b[..m];
    assert p[|p| - 1] in p;
  }

  /** Everything a visit writes lands in the visit's own directory of the output tree. */
  lemma VisitWritesDir(v: Visit, draw: Draw, o: Output)
    requires o in VisitOutcome(v, draw).writes
    ensures o.dir == v.root
  {
    var path := BaseName(v.root);
    var g := BuildGroup(Classify(path).value, RemoveAllPrefix(path), ParentId(v.root));
    if o in SystemWrites(v.root, v.files, g.name).writes {
      SystemWritesDir(v.root, v.files, g.name, o);
    }
  }
}
