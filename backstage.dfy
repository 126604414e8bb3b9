/** `main` of backstage.py: the walk over the organisation tree, one pass of the loop
    body per directory, until the walk ends or a descriptor fault ends the run. */
module Backstage {
  import opened Wrappers
  import opened Prefixes
  import opened Entities
  import opened Tree
  import opened Outcomes
  import opened Directory

  /** One pass per visited directory. `draws(i)` is the number the `i`-th call of
      `random.randint(0, 100)` returns; every pass calls it once, classified directory
      or not. */
  function VisitOutcomes(visits: seq<Visit>, draws: nat -> Draw): seq<Outcome> {
    seq(|visits|, i requires 0 <= i < |visits| => VisitOutcome(visits[i], draws(i)))
  }

  /** What a whole run over the tree `top` writes: the passes over the walk, up to the
      first fault. What was written before a fault stays written. */
  function Run(top: Dir, draws: nat -> Draw): Outcome {
    Chain(VisitOutcomes(WalkAll(top), draws))
  }

  /** The `i`-th pass of the loop, on what the passes before it wrote. */
  method AddVisit(visits: seq<Visit>, draws: nat -> Draw, i: nat, out: Outcome) returns (out': Outcome)
    requires i < |visits| && out == ChainTo(VisitOutcomes(visits, draws), i) && out.error.None?
    ensures out' == ChainTo(VisitOutcomes(visits, draws), i + 1)
  {
    var o := ProcessDirectory(visits[i], draws(i));
    out' := Outcome(out.writes + o.writes, o.error);
  }

  /** The loop `for root, dirs, files in os.walk(".")` (backstage.py:42-90). */
  method Convert(top: Dir, draws: nat -> Draw) returns (out: Outcome)
    ensures out == Run(top, draws)
  {
    var visits := WalkAll(top);
    out := Outcome([], None);
    for i := 0 to |visits|
      invariant out == ChainTo(VisitOutcomes(visits, draws), i) && out.error.None?
    {
      out := AddVisit(visits, draws, i, out);
      if out.error.Some? {
        ChainEnd(VisitOutcomes(visits, draws), i + 1);
        return;
      }
    }
    ChainEnd(VisitOutcomes(visits, draws), |visits|);
  }

  // ---------------------------------------------------------------------------
  // Properties of a whole run

  /** The run faults exactly when some classified directory holds an unreadable
      descriptor. */
  lemma RunFaultIff(top: Dir, draws: nat -> Draw)
    ensures Run(top, draws).error.Some? <==> exists i :: 0 <= i < |WalkAll(top)| && Faulty(WalkAll(top)[i])
  {
    var visits := WalkAll(top);
    var passes := VisitOutcomes(visits, draws);
    forall i | 0 <= i < |visits|
      ensures passes[i].error.Some? <==> Faulty(visits[i])
    {
      VisitFaultIff(visits[i], draws(i));
    }
    ChainFaultIff(passes, |visits|);
  }

  /** The first faulting directory ends the run with its fault, after everything the
      directories before it wrote, and the systems it wrote itself. */
  lemma RunFirstFault(top: Dir, draws: nat -> Draw, j: nat)
    requires j < |WalkAll(top)|
    requires forall i :: 0 <= i < j ==> VisitOutcome(WalkAll(top)[i], draws(i)).error.None?
    requires VisitOutcome(WalkAll(top)[j], draws(j)).error.Some?
    ensures Run(top, draws) == Outcome(Concat(VisitOutcomes(WalkAll(top), draws), j + 1),
                                       VisitOutcome(WalkAll(top)[j], draws(j)).error)
  {
    ChainFirstFault(VisitOutcomes(WalkAll(top), draws), j);
  }

  /** Every file of the run is written by one of its passes, into that pass's directory. */
  lemma RunWritesFromVisits(top: Dir, draws: nat -> Draw, x: Output)
    requires x in Run(top, draws).writes
    ensures exists i :: 0 <= i < |WalkAll(top)| && x in VisitOutcome(WalkAll(top)[i], draws(i)).writes &&
                        x.dir == WalkAll(top)[i].root
  {
    var visits := WalkAll(top);
    ChainWritesFrom(VisitOutcomes(visits, draws), |visits|, x);
    var i :| 0 <= i < |visits| && x in VisitOutcomes(visits, draws)[i].writes;
    VisitWritesDir(visits[i], draws(i), x);
  }

  /** Nothing is written for a directory inside a "dist" directory, where the output of
      earlier runs lives. */
  lemma NothingFromDist(top: Dir, draws: nat -> Draw, x: Output)
    requires x in Run(top, draws).writes
    ensures forall j :: 0 <= j < |x.dir| ==> x.dir[j] != "dist"
  {
    RunWritesFromVisits(top, draws, x);
    var i :| 0 <= i < |WalkAll(top)| && x in VisitOutcome(WalkAll(top)[i], draws(i)).writes &&
             x.dir == WalkAll(top)[i].root;
    DistNeverVisited(top, WalkAll(top)[i]);
  }

  /** A run without a fault writes every classified directory's group file. */
  lemma EveryGroupWritten(top: Dir, draws: nat -> Draw, i: nat, k: Kind)
    requires i < |WalkAll(top)| && Run(top, draws).error.None?
    requires Classify(BaseName(WalkAll(top)[i].root)) == Some(k)
    ensures var u := WalkAll(top)[i];
      var path := BaseName(u.root);
      exists x :: x in Run(top, draws).writes && x.EntityDoc? &&
        x.dir == u.root && x.fileName == EntityFileName(path) &&
        x.group == BuildGroup(k, RemoveAllPrefix(path), ParentId(u.root))
  {
    var visits := WalkAll(top);
    var passes := VisitOutcomes(visits, draws);
    var u := visits[i];
    ChainFaultIff(passes, |visits|);
    assert passes[i].error.None?;
    var path := BaseName(u.root);
    var g := BuildGroup(k, RemoveAllPrefix(path), ParentId(u.root));
    var s := SystemWrites(u.root, u.files, g.name);
    var x := EntityDoc(u.root, EntityFileName(path), g,
      BuildLocation(RemoveAllPrefix(path), draws(i)).(targets := ManifestTargets(k, Prune(u.dirs), u.files)));
    assert passes[i].writes == s.writes + [x];
    ChainKeeps(passes, |visits|, i);
    assert x in passes[i].writes;
  }

  /** The group of a classified directory below a classified directory names that
      directory's group as its parent, unless it is a unit, which has none. */
  lemma ParentGroupLink(top: Dir, u: Visit, w: Visit, ku: Kind, kw: Kind)
    requires u in WalkAll(top) && w in WalkAll(top)
    requires u.root != [] && w.root == u.root[..|u.root| - 1]
    requires Classify(BaseName(u.root)) == Some(ku) && Classify(BaseName(w.root)) == Some(kw)
    ensures var gu := BuildGroup(ku, RemoveAllPrefix(BaseName(u.root)), ParentId(u.root));
      var gw := BuildGroup(kw, RemoveAllPrefix(BaseName(w.root)), ParentId(w.root));
      gu.parent == if ku == Unit then None else Some(gw.name)
  {
    assert Classify(".") == None;
    assert w.root != [];
    assert u.root[|u.root| - 2] == BaseName(w.root);
    ParentIdOfClassified(u.root, kw, ParentId(w.root));
  }

  /** Each classified subdirectory a manifest lists is visited, and its target is the
      path, relative to the manifest's directory, of the file that visit writes its
      group to. */
  lemma ManifestTargetIsChildGroupFile(top: Dir, w: Visit, k: Kind, n: string)
    requires w in WalkAll(top) && Classify(BaseName(w.root)) == Some(k) && k != Team
    requires n in Prune(w.dirs) && Classify(n).Some?
    ensures SubdirTarget(n) in ManifestTargets(k, Prune(w.dirs), w.files)
    ensures SubdirTarget(n) == "./" + n + "/" + EntityFileName(n)
    ensures exists u :: u in WalkAll(top) && u.root == w.root + [n] && BaseName(u.root) == n
  {
    ManifestListsSubdir(k, Prune(w.dirs), w.files, n);
    ChildVisited(top, w, n);
  }

  /** In a run without a fault, each classified subdirectory a manifest lists has its
      group file written, in that subdirectory, under the name the target gives. */
  lemma ManifestTargetWritten(top: Dir, draws: nat -> Draw, w: Visit, k: Kind, n: string)
    requires Run(top, draws).error.None?
    requires w in WalkAll(top) && Classify(BaseName(w.root)) == Some(k) && k != Team
    requires n in Prune(w.dirs) && Classify(n).Some?
    ensures SubdirTarget(n) in ManifestTargets(k, Prune(w.dirs), w.files)
    ensures exists x :: x in Run(top, draws).writes && x.EntityDoc? && x.dir == w.root + [n] &&
                        "./" + n + "/" + x.fileName == SubdirTarget(n)
  {
    ManifestTargetIsChildGroupFile(top, w, k, n);
    var u :| u in WalkAll(top) && u.root == w.root + [n] && BaseName(u.root) == n;
    var i :| 0 <= i < |WalkAll(top)| && WalkAll(top)[i] == u;
    EveryGroupWritten(top, draws, i, Classify(n).value);
  }
}
