# Heimdall organisation tree to Backstage catalog

This project models the converter. It turns a directory tree describing an organisation into
Backstage catalog documents, and it proves properties of that model.

In the tree, a directory named `unit=X`, `division=X`, `vertical=X` or `team=X` is one level
of the hierarchy. Every other directory is passed through without being classified. The files
in a classified directory are descriptors, one per system. Each descriptor is a YAML mapping
with the keys `name`, `description`, `auditable` and `coreBusiness`.

For each classified directory, `backstage.py` writes two kinds of document:
- one `System` document per descriptor, owned by the directory's group;
- one file holding the directory's `Group` and its `Location`. The location's manifest lists
  the group files of the classified subdirectories, except in a team's, and the system files
  of the directory.

`catalog.py` builds one `Component` document per repository. The component's type follows from
two anchored regular expressions over the repository name.

Modules, bottom up:

- `Wrappers`: `Option` and `Result`.
- `Yaml`: loaded YAML values and Python truthiness. `OrEmpty` is `v or ""`.
- `Names`: `build_name`, as trim, ASCII lower-casing, separators to `_` and `&` to `and`.
  `BuildNameIsPipeline` proves that the character-wise definition is the four-step chain of
  the source. `catalog.py`'s `build_name` (catalog.py:91-92) is the same expression, so
  `Names.BuildName` models both functions. In `catalog.py` it is called only from `main`,
  which is not part of this model.
- `Prefixes`:
  - `remove_prefix` and `get_prefix` as functions;
  - `remove_all_prefix` as its loop (`RemoveAllPrefixLoop`), proved against the function
    `RemoveAllPrefix`;
  - the `startswith` chain that classifies a directory (`Classify`).
- `Entities`: the four group builders, `build_location` and `build_system`. The random
  disambiguator of a location name is a parameter (`Draw`, 0..100).
- `Tree`: the in-memory tree, the pruning of `dist`, and the order of `os.walk(".")`. That is
  top-down and depth-first, and pruned directories are never entered.
- `Outcomes`: the documents written, and the fold `Chain`.
  - Each pass of a loop either writes some files or raises a fault.
  - A fault ends the run, because the exception hook exits the process.
  - Files already written stay written.
  - Both loops of `main` are such folds: the loop over the walk and the loop over a
    directory's files.
- `Directory`: one pass of `main`'s loop body.
  - `VisitOutcome` is the specification, as a function.
  - `ProcessDirectory`, `ProcessFiles` and `CollectSubdirTargets` are the imperative loop
    body. They are proved to compute it.
  - It also holds the manifest, parent-id and fault lemmas.
- `Backstage`: the whole run. `Convert` is the loop over the walk and is proved equal to
  `Run`. It also holds the lemmas that relate different visits: parent links, manifest
  targets naming the files the children write, and faults.
- `Catalog`: `build_component`.

## Model

| member | source | states |
|---|---|---|
| Names.TrimLeftSpec | backstage.py:114 | `lstrip` removes exactly the leading white space: the result is a suffix, everything before it is white space, and it does not start with white space |
| Names.TrimRightSpec | backstage.py:114 | `rstrip` removes exactly the trailing white space: the result is a prefix, everything after it is white space, and it does not end with white space |
| Names.StripSpec | backstage.py:114 | `strip` keeps one contiguous slice, with white space on both sides of it and none at its ends |
| Names.IsSpace | backstage.py:114 | defines the white space `strip` removes: the characters Python's `str.isspace` accepts |
| Names.IsSeparator | backstage.py:114 | defines the 29 characters of the first `translate` table, written as code-point ranges |
| Names.Strip | backstage.py:114 | defines `.strip()`: `rstrip` of `lstrip`, over the white space of `IsSpace` |
| Names.Lower | backstage.py:114 | defines `.lower()` on A-Z, character by character; other characters are kept |
| Names.ReplaceSeparators | backstage.py:114 | defines the first `.translate`: each of the 29 separators becomes one `_`, and other characters are kept |
| Names.ExpandAmpersands | backstage.py:114 | defines the second `.translate`: each `&` becomes `and`, and other characters are kept |
| Names.BuildName | backstage.py:113-114 | defines `build_name` (catalog.py:91-92 is the same expression): strip, then translate each character; lower-case, separators to `_`, `&` to `and` |
| Names.SpacedSlash | backstage.py:114 | ` / ` translates to `___`, one character at a time (before the translation, `strip` would leave only `/`) |
| Names.BuildNameIsPipeline | backstage.py:113-114 | the character-wise `BuildName` equals strip, then lower, then separators to `_`, then `&` to `and`, in the source's order |
| Names.PipelineIsCharwise | backstage.py:114 | lower, separators to `_`, then `&` to `and` is the same as translating one character at a time |
| Names.BuildNameClean | backstage.py:114 | the output holds no separator, no `&` and no upper-case ASCII letter (A-Z) |
| Names.BuildNameLength | backstage.py:114 | output length = stripped length + 2 × the number of `&`: separators are not collapsed |
| Names.BuildNameAt | backstage.py:114 | without `&`, output character i is `_` for a separator and otherwise the lower-cased input character |
| Names.BuildNameIdempotent | backstage.py:113-114 | normalising a normalised name changes nothing |
| Names.SeparatorRunKept | backstage.py:114 | runs of separators are not collapsed: `a / b` normalises to `a`'s translation, `___`, then `b`'s |
| Names.TranslateSeparatorRun | backstage.py:114 | the separator run ` / ` translates to three `_`, whatever surrounds it |
| Names.AmpersandExpanded | backstage.py:114 | `a&b` normalises to `a`'s translation, `and`, then `b`'s; with `TranslateSeparatorRun`, `R&D / Growth` is the translations of `R` and `D`, joined by `and`, then `___`, then the translation of `Growth` |
| Names.TranslateAmpersandRun | backstage.py:114 | an `&` translates to `and`, whatever surrounds it |
| Names.ExpandAmpersandsAppend | backstage.py:114 | the `&` expansion distributes over concatenation |
| Names.TranslateAllAppend | backstage.py:114 | character-wise translation distributes over concatenation |
| Names.TranslateAllEnds | backstage.py:114 | text with no white space at its ends translates to non-empty text with none at its ends |
| Names.StripNoop | backstage.py:114 | text with no white space at either end is its own `strip()` |
| Prefixes.RemoveAllPrefix | backstage.py:92-98 | defines `remove_all_prefix`: `remove_prefix` with `unit=`, `division=`, `vertical=` and `team=`, in that order |
| Prefixes.Classify | backstage.py:55-64 | defines the `startswith` chain: the first of `unit=`, `division=`, `vertical=`, `team=` the directory name starts with gives its level, and no match gives none |
| Prefixes.RemovePrefix | backstage.py:100-103 | if the text starts with the prefix, the text is prefix + result; otherwise the result is the text |
| Prefixes.RemoveAllPrefixLoop | backstage.py:92-98 | the loop over the prefix list returns `RemoveAllPrefix(text)` |
| Prefixes.RemoveAllPrefixInOrder | backstage.py:92-98 | `remove_all_prefix` removes `unit=`, then `division=`, then `vertical=`, then `team=`, each at most once |
| Prefixes.RemoveAllPrefixIsSuffix | backstage.py:92-98 | the display name is a suffix of the directory name |
| Prefixes.Find | backstage.py:106-107 | `find` returns -1 or an index holding the character |
| Prefixes.FindSpec | backstage.py:106-107 | `find` returns the first occurrence, and -1 only when there is none |
| Prefixes.GetPrefix | backstage.py:105-108 | the result is a prefix of the text, and is followed by `=` unless it is the whole text |
| Prefixes.GetPrefixSpec | backstage.py:105-108 | the result holds no `=` |
| Prefixes.ClassifyIff | backstage.py:55-64 | a directory is of level k exactly when its name starts with k's prefix |
| Prefixes.GetPrefixOfClassified | backstage.py:105-108 | on a classified name, `get_prefix` returns the level's word (`unit`, `division`, `vertical`, `team`) |
| Entities.BuildOrg | backstage.py:116-130 | defines `build_org`: a `Group` named `build_name(name)_unit`, of type `organization`, with the given display name, no parent and no children |
| Entities.BuildDepartment | backstage.py:132-147 | defines `build_department`: `build_name(name)_division`, type `department`, the given parent |
| Entities.BuildSubDepartment | backstage.py:149-164 | defines `build_sub_department`: `build_name(name)_vertical`, type `sub-department`, the given parent |
| Entities.BuildTeam | backstage.py:166-181 | defines `build_team`: `build_name(name)_team`, type `team`, the given parent |
| Entities.GroupSuffix | backstage.py:116-181 | each level's group suffix is `_` followed by the level's word |
| Entities.BuildGroup | backstage.py:116-181 | name = `build_name(name)` + the level suffix, displayName = name, no children, and the given parent unless the level is unit, which has none |
| Entities.GroupNameSuffix | backstage.py:116-181 | a group name ends with exactly one of the four level suffixes, its own |
| Entities.DecimalString | backstage.py:188 | `str(n)` is non-empty |
| Entities.DecimalDigits | backstage.py:188 | `str(n)` consists of decimal digits |
| Entities.DecimalRoundTrip | backstage.py:188 | the decimal form of a draw reads back as the draw |
| Entities.BuildLocation | backstage.py:183-194 | a new location's target list is empty |
| Entities.SplitAtDash | backstage.py:188 | `x-d` splits uniquely at its first dash when `x` holds none |
| Entities.LocationNameInjective | backstage.py:188 | two location names are equal only when the normalised names and the draws are |
| Entities.BuildSystem | backstage.py:196-211 | name = `build_name(name)` with no suffix, title = name, owner given, domain `hotmart`, a falsy description becomes `""`, and the flags pass through |
| Yaml.Truthy | backstage.py:203 | defines Python truthiness on loaded values, as `or ""` uses it here and at catalog.py:109 and 125: null, `false`, `0`, `""`, an empty list and an empty mapping are falsy |
| Yaml.OrEmpty | backstage.py:203 | `v or ""`: v when truthy, `""` otherwise; truthiness is preserved |
| Tree.Prune | backstage.py:43 | defines `dirs[:] = [d for d in dirs if d not in excludes]`, keeping the order |
| Tree.Walk | backstage.py:42 | defines the top-down walk of one tree: its own triple, then each subdirectory's walk in listed order, skipping pruned ones |
| Tree.WalkAll | backstage.py:42 | defines `os.walk(".")` over the whole tree, from the empty root |
| Tree.PruneSpec | backstage.py:43 | a name is kept exactly when it is listed and not in the exclusion list |
| Tree.WalkFromMembers | backstage.py:42-43 | a visit below subdirectories i.. is a visit of one of those subtrees that is not pruned |
| Tree.WalkRoots | backstage.py:42-43 | every visited root extends the start root by names that are not excluded; the start root is visited only by its own triple |
| Tree.WalkParents | backstage.py:42-43 | every visit below the start is listed, after pruning, in its parent's `dirs` |
| Tree.WalkVisitsChildren | backstage.py:42-43 | every listed subdirectory that is not pruned is visited |
| Tree.DistNeverVisited | backstage.py:43 | no visited path contains `dist` |
| Tree.ParentVisited | backstage.py:42-43 | a visited directory below the top is listed by its parent's visit |
| Tree.ChildVisited | backstage.py:42-43 | unclassified or not, a directory's unpruned subdirectories are descended into |
| Outcomes.ChainTo | backstage.py:20-22 | defines the first n passes of a loop: the writes of every pass up to and including the first that faults, and that fault |
| Outcomes.Chain | backstage.py:20-22 | defines a whole loop under the exception hook installed at line 213: `ChainTo` over all passes |
| Outcomes.FaultStays | backstage.py:20-22 | once a pass faults, the later passes change nothing |
| Outcomes.ChainEnd | backstage.py:20-22 | a loop that has run all its passes, or has faulted, has its final outcome |
| Outcomes.ChainFaultIff | backstage.py:20-22 | a loop faults exactly when one of its passes does |
| Outcomes.ChainAll | backstage.py:77-85 | without a fault, a loop writes what its passes write, in order |
| Outcomes.ChainFirstFault | backstage.py:20-22 | the first fault ends the loop with that fault, after everything written up to and including that pass |
| Outcomes.ConcatSingles | backstage.py:77-85 | passes writing one file each write one file per pass, in pass order |
| Outcomes.ChainWritesFrom | backstage.py:42-90 | every file written comes from some pass |
| Outcomes.ChainKeeps | backstage.py:42-90 | without a fault, every file a pass writes is among the loop's writes |
| Directory.LoadDescriptor | backstage.py:80-82 | a file that cannot be opened as text or parsed as YAML is the fault `LoadFailed`; otherwise the result is that of reading the loaded document |
| Directory.BaseName | backstage.py:47 | defines `os.path.basename` of a root given as its path components (also line 51); `.` for the top |
| Directory.ParentId | backstage.py:45-48 | defines the parent id: for a root two or more levels deep, `build_name(remove_all_prefix(b)) + "_" + get_prefix(b)` of the parent's basename `b`, otherwise `""` |
| Directory.Stem | backstage.py:78 | defines `os.path.splitext(f)[0]`: cut at the last `.` unless the part before it is empty or all dots |
| Directory.EntityFileName | backstage.py:87 | defines the group file name `{build_name(path)}.yaml` |
| Directory.SystemFileName | backstage.py:83 | defines the system file name `system_{fname}.yaml` |
| Directory.SystemTarget | backstage.py:79 | defines the manifest target `./system_{build_name(fname)}.yaml` |
| Directory.SubdirTarget | backstage.py:72 | defines the manifest target `./{dir}/{build_name(dir)}.yaml` |
| Directory.Matching | backstage.py:70-72 | defines the targets of one pattern: one per subdirectory starting with it, in `dirs` order |
| Directory.SubdirTargets | backstage.py:69-72 | defines the subdirectory targets: the patterns in order, each with its matches |
| Directory.FileOutcome | backstage.py:77-85 | defines one file pass: the load or read fault, or the system file `system_{fname}.yaml` owned by the group |
| Directory.SystemWrites | backstage.py:77-85 | defines the file loop: the file passes chained in `files` order |
| Directory.ManifestHead | backstage.py:69-75 | defines the subdirectory targets a manifest keeps: none for a team |
| Directory.ManifestTargets | backstage.py:69-79 | defines the manifest's target list: the kept subdirectory targets, then one system target per file |
| Directory.VisitOutcome | backstage.py:43-90 | defines one pass of the walk: nothing for an unclassified directory; otherwise the system files in file order, then the group file, or the first fault |
| Directory.ReadDescriptor | backstage.py:81-82 | the read succeeds exactly when the document is a mapping with the four keys and a text name. It then returns those fields. A missing `coreBusiness` after the other three is reported as exactly that fault |
| Directory.RFind | backstage.py:78 | `rfind` returns -1 or an index holding the character |
| Directory.RFindSpec | backstage.py:78 | `rfind` returns the last occurrence, and -1 only when there is none |
| Directory.AllDotsSpec | backstage.py:78 | a name is all dots exactly when every character is `.` |
| Directory.StemSpec | backstage.py:78 | `splitext(f)[0]` is a prefix of f. When shorter, f continues at its last `.`, and the stem holds a character other than `.`. When it is f itself, every `.` in f has only dots before it |
| Directory.StemNoDot | backstage.py:78 | a name with no `.` after its first character is its own stem |
| Directory.FileTargets | backstage.py:77-79 | defines the targets the file loop appends: one `SystemTarget` per file, in `files` order |
| Directory.FileTargetsSnoc | backstage.py:77-79 | each pass appends its file's target to the list so far, after the targets already collected |
| Directory.CollectSubdirTargets | backstage.py:69-72 | the nested loops over patterns and subdirectories produce `SubdirTargets(dirs)` |
| Directory.ProcessFile | backstage.py:77-85 | one file pass gives the file's target and its system file, or its fault |
| Directory.AddFile | backstage.py:77-85 | the i-th file pass extends the fold by one pass and, without a fault, the targets by that file's |
| Directory.ProcessFiles | backstage.py:77-85 | the loop over files computes `SystemWrites`, and without a fault appends one target per file |
| Directory.ProcessDirectory | backstage.py:43-90 | the loop body over one triple computes `VisitOutcome` |
| Directory.VisitOutcomeFault | backstage.py:77-85 | a classified visit whose descriptors fault ends with the systems written before the fault, and no group |
| Directory.SystemWritesAll | backstage.py:77-85 | with every descriptor readable: no fault, one system per file, in order, named after its file and owned by the group |
| Directory.SystemWritesFirstFault | backstage.py:77-85 | the first unreadable descriptor ends the loop with its fault; the systems of the earlier files are written |
| Directory.SystemWritesFaultIff | backstage.py:80-82 | the file loop faults exactly when some descriptor is unreadable |
| Directory.SystemWritesDir | backstage.py:83 | every system file lands in the visit's own output directory |
| Directory.SystemTargetIsWritten | backstage.py:78-83 | the target `./system_{build_name(fname)}.yaml` names the written file `system_{fname}.yaml` |
| Directory.ManifestShape | backstage.py:69-79 | a manifest is the subdirectory targets (none for a team), then one target per file, each naming that file's system file |
| Directory.FileTargetsNamed | backstage.py:77-83 | the i-th file target names the i-th file's system file |
| Directory.TeamManifestListsSystems | backstage.py:74-79 | every target of a team manifest is a system file |
| Directory.SystemTargetPrefix | backstage.py:79 | a system target starts with `./system_` |
| Directory.MatchingMembers | backstage.py:70-72 | one pattern adds a target exactly for the subdirectories it matches |
| Directory.SubdirTargetsForMembers | backstage.py:69-72 | the patterns together add a target exactly for a subdirectory matching one of them |
| Directory.IncludesMatchClassified | backstage.py:24 | the glob patterns match exactly the classified names |
| Directory.SubdirTargetsMembers | backstage.py:69-72 | a subdirectory target is listed exactly for the classified subdirectories |
| Directory.ManifestListsSubdir | backstage.py:69-72 | a non-team manifest lists every classified subdirectory, as `./{d}/` followed by that subdirectory's group file name |
| Directory.VisitUnclassified | backstage.py:63-64 | an unclassified directory writes nothing and does not fault |
| Directory.VisitFaultIff | backstage.py:80-82 | a visit faults exactly when it is classified and has an unreadable descriptor |
| Directory.VisitWrites | backstage.py:52-90 | a classified visit with readable descriptors writes one system per file, owned by its group, then its group with its location and manifest |
| Directory.VisitFirstFault | backstage.py:77-85 | a visit's first unreadable descriptor ends the visit with its fault, after only system files |
| Directory.ParentIdOfClassified | backstage.py:45-48 | a classified parent directory's id is the name of the group that directory's builder built |
| Directory.ParentIdWithoutEquals | backstage.py:45-48 | a parent directory without `=` gives the id `build_name(b) + "_" + b` |
| Directory.UnclassifiedParentExample | backstage.py:45-48 | below a directory `misc` (as in `misc/team=x`) the parent id is `misc_misc` |
| Directory.NormalisedMisc | backstage.py:113-114 | `build_name("misc")` is `misc` |
| Directory.NoPrefixWithoutEquals | backstage.py:100-103 | a name without `=` is unchanged by `remove_prefix` with any level prefix, since each ends in `=` |
| Directory.VisitWritesDir | backstage.py:66-90 | everything a visit writes lands in that visit's own output directory |
| Backstage.Run | backstage.py:42-90 | defines the run: the visits' outcomes chained in walk order, ending at the first fault |
| Backstage.VisitOutcomes | backstage.py:42-90 | defines the passes of the walk: the i-th visit's outcome with the i-th draw, one `randint` per pass (lines 54 and 188) |
| Backstage.AddVisit | backstage.py:42-90 | the i-th pass of the walk extends the fold by one visit |
| Backstage.Convert | backstage.py:42-90 | the loop over the walk computes `Run`: the visits' outcomes up to the first fault |
| Backstage.RunFaultIff | backstage.py:42-90 | a run faults exactly when some visited classified directory has an unreadable descriptor |
| Backstage.RunFirstFault | backstage.py:42-90 | the first faulting visit ends the run with its fault, after everything the earlier visits wrote |
| Backstage.RunWritesFromVisits | backstage.py:42-90 | every file of a run is written by some visit, into that visit's directory |
| Backstage.NothingFromDist | backstage.py:43 | nothing is written for a directory under `dist` |
| Backstage.EveryGroupWritten | backstage.py:87-90 | a run without a fault writes every classified directory's group, to `build_name(path).yaml` |
| Backstage.ParentGroupLink | backstage.py:45-62 | the group of a classified directory under a classified directory names that directory's group as parent, except a unit, which has none |
| Backstage.ManifestTargetIsChildGroupFile | backstage.py:69-72 | a manifest target for a classified subdirectory is the path of the group file that subdirectory's visit writes, and that visit happens |
| Backstage.ManifestTargetWritten | backstage.py:69-90 | in a run without a fault, each classified subdirectory's target is listed, and the run writes a group file in that subdirectory whose path is that target |
| Catalog.IsApp | catalog.py:96 | defines the `app` expression: `app-` prefix, `-app` or `-web` suffix or `wp-` prefix, without an inner newline, with one final newline allowed |
| Catalog.IsLib | catalog.py:97 | defines the `lib` expression: its prefixes, its suffixes (`-util` with an optional `s`) and its three exact names, under the same newline rules |
| Catalog.AnchoredMatch | catalog.py:99 | defines `re.match` of a `^(...)$` pattern (also line 101): an alternative matches the whole text, or the text without one final newline |
| Catalog.ComponentType | catalog.py:95-102 | `website` exactly for app names; `library` exactly for lib names that are not app names; `service` otherwise |
| Catalog.BuildComponent | catalog.py:104-128 | name and slug `Hotmart-Org/{name}`, no tags, the type, lifecycle `production`, falsy description and impact become `""`, the other fields pass through |
| Catalog.AppBeforeLib | catalog.py:99-102 | `app-lib` matches both families and is a website |
| Catalog.AffixEnds | catalog.py:96-97 | a prefix fixes the first character and a suffix fixes the last |
| Catalog.NotApp | catalog.py:96 | the names the app family can match start with `a` or `w`, or end with `p`, `b` or a newline |
| Catalog.NotLib | catalog.py:97 | the names the lib family can match start with `l`, `i` or `d`, end with one of `rblsoy` or a newline, or are one of the three exact names |
| Catalog.UtilSuffixes | catalog.py:97 | `-util` and `-utils` both make a library |
| Catalog.UtilOtherSuffix | catalog.py:97 | `-utilz` does not |
| Catalog.TrailingNewlineApp | catalog.py:96-100 | `$` accepts one final newline: `app-x\n` is a website |
| Catalog.TrailingNewlineLib | catalog.py:97-102 | `cosmos\n` is a library |
| Catalog.NoInnerNewline | catalog.py:96-102 | `.*` does not cross a newline (`app-\nx` is a service), and an exact name admits no more characters (`cosmos2` is a service) |

## Left out

- File and process I/O is not modelled. That covers `os.walk` (a `Dir` tree stands in for it), YAML loading and dumping, `mkdir`, the dated `dist/window=<date>` output root, the pip bootstrap, and logging. A written file is an `Output` value naming its directory relative to the output root.
- The exception hook is modelled only by its effect: a fault ends the run, and earlier writes stay. Its logging and the exit code are not modelled.
- `random.randint(0, 100)` is a parameter. `draws(i)` is the number drawn on the i-th pass of the walk, since every pass draws once, classified or not.
- `strip_accents` (NFKD decomposition, dropping category `Mn`) is not modelled; it is the identity on ASCII text. `str.lower` is modelled on A-Z only, which is exact on ASCII. `strip` uses Python's full white-space set.
- `fnmatch.filter(dirs, "unit=*")` and its siblings are modelled as `startswith` tests. On POSIX, a pattern `p*` whose `p` holds no wildcard matches exactly the names that start with `p`.
- YAML values are null, booleans, integers, text, lists and mappings. Floats and dates are not modelled. As a name they would fault in `build_name`, as `NameNotText` does, and as a description `0.0` is falsy and would become `""`.
- How a descriptor file fails to load is not modelled. A file that is not text (`UnicodeDecodeError`) or not YAML (`YAMLError`) is a file whose `content` is `None`, and it gives the fault `LoadFailed`. `Directory.SystemWritesFaultIff`, `Directory.VisitFaultIff` and `Backstage.RunFaultIff` count such a file as unreadable.
- Names.BuildNameIdempotent and the other `build_name` lemmas hold for the model; for non-ASCII text they depend on the left-out Unicode steps.
- Directory.ReadDescriptor: a name that is not text is one fault, `NameNotText`. In Python it is a `TypeError` raised inside `build_name`. Which exception it is does not matter, since every fault ends the run in the same way.
- Directory.Stem models `os.path.splitext` on a basename only. File names from `os.walk` hold no `/`.
- Directory.SystemWritesAll and Directory.VisitWrites count write events, not files left on disk. Two descriptors can have the same system file name: `A.yaml` and `a.yml` both give `system_a.yaml`. The second `open(..., 'w')` then replaces the first system, so the directory holds one system file while the manifest lists `./system_a.yaml` twice. The model records both writes in order; the last one is what stays on disk.
- Symbolic links, concurrent changes to the tree and file-name encodings are not modelled.
- `catalog.py`'s `main` (git calls, an HTTP request, fixed output paths) is not part of this model. Its fallback on a failed lookup reads a variable that was never assigned.
- `test_schema.py` (JSON Schema validation over the network) and `converter.py` (a YAML-to-JSON copy) are not part of this model.

Behaviour of the code that the model follows:
- The parent id comes from the basename of the immediate parent directory only. An unclassified parent `misc` gives `misc_misc`.
- Separators are not collapsed: every separator becomes one `_`, and every `&` becomes `and`.
- A team's manifest drops its subdirectory targets but still lists its system files.
- When a descriptor faults, the system files of the earlier descriptors in that directory are already written.
