/** The directory tree backstage.py walks and the order in which `os.walk(".")` hands
    its directories to `main`'s loop. */
module Tree {
  import opened Wrappers
  import opened Yaml

  /** A regular file: its name and the document `yaml.safe_load` reads from it, or `None`
      when opening it as text or parsing it as YAML raises. */
  datatype File = File(fileName: string, content: Option<Value>)

  /** A directory: its basename, its subdirectories and its files, in listing order. */
  datatype Dir = Dir(name: string, subdirs: seq<Dir>, files: seq<File>)

  /** One `(root, dirs, files)` triple of `os.walk`. `root` is the list of basenames
      below "." (so "." itself is `[]` and "./a/b" is `["a", "b"]`). */
  datatype Visit = Visit(root: seq<string>, dirs: seq<string>, files: seq<File>)

  /** The names `main` prunes from the descent. */
  const Excludes: seq<string> := ["dist"]

  function DirNames(ds: seq<Dir>): seq<string> {
    seq(|ds|, i requires 0 <= i < |ds| => ds[i].name)
  }

  /** `dirs[:] = [d for d in dirs if d not in excludes]` */
  function Prune(dirs: seq<string>): seq<string> {
    if dirs == [] then []
    else Prune(dirs[..|dirs| - 1]) + (if dirs[|dirs| - 1] in Excludes then [] else [dirs[|dirs| - 1]])
  }

  /** Pruning keeps exactly the names that are not excluded. */
  lemma {:induction false} PruneSpec(dirs: seq<string>)
    ensures forall d :: d in Prune(dirs) <==> d in dirs && d !in Excludes
  {
    if dirs != [] {
      PruneSpec(dirs[..|dirs| - 1]);
      assert dirs == dirs[..|dirs| - 1] + [dirs[|dirs| - 1]];
    }
  }

  /** The triples `os.walk` yields for the directory `d` found at `root`, top-down and
      depth-first. The descent reads `dirs` after `main` has pruned it, so no excluded
      subdirectory is entered. */
  function Walk(d: Dir, root: seq<string>): seq<Visit>
    decreases d, 1
  {
    [Visit(root, DirNames(d.subdirs), d.files)] + WalkFrom(d, root, 0)
  }

  /** The triples of the subdirectories `d.subdirs[i..]`, one subtree after another. */
  function WalkFrom(d: Dir, root: seq<string>, i: nat): seq<Visit>
    requires i <= |d.subdirs|
    decreases d, 0, |d.subdirs| - i
  {
    if i == |d.subdirs| then []
    else
      var c := d.subdirs[i];
      (if c.name in Excludes then [] else Walk(c, root + [c.name])) + WalkFrom(d, root, i + 1)
  }

  /** The triples of a whole run of `os.walk(".")` over the tree `top`. */
  function WalkAll(top: Dir): seq<Visit> {
    Walk(top, [])
  }

  // ---------------------------------------------------------------------------

  /** A visit below `d.subdirs[i..]` is a visit of one of those subtrees that is not pruned. */
  lemma {:induction false} WalkFromMembers(d: Dir, root: seq<string>, i: nat, u: Visit)
    requires i <= |d.subdirs|
    ensures u in WalkFrom(d, root, i) <==>
      exists k :: i <= k < |d.subdirs| && d.subdirs[k].name !in Excludes &&
                  u in Walk(d.subdirs[k], root + [d.subdirs[k].name])
    decreases |d.subdirs| - i
  {
    if i < |d.subdirs| {
      var c := d.subdirs[i];
      var head := if c.name in Excludes then [] else Walk(c, root + [c.name]);
      assert WalkFrom(d, root, i) == head + WalkFrom(d, root, i + 1);
      WalkFromMembers(d, root, i + 1, u);
      if u in head {
        assert i <= i < |d.subdirs| && d.subdirs[i].name !in Excludes &&
               u in Walk(d.subdirs[i], root + [d.subdirs[i].name]);
      }
      if exists k :: i <= k < |d.subdirs| && d.subdirs[k].name !in Excludes &&
                     u in Walk(d.subdirs[k], root + [d.subdirs[k].name]) {
        var k :| i <= k < |d.subdirs| && d.subdirs[k].name !in Excludes &&
                 u in Walk(d.subdirs[k], root + [d.subdirs[k].name]);
        if k == i {
          assert u in head;
        }
      }
    }
  }

  predicate IsPrefix(p: seq<string>, s: seq<string>) {
    |p| <= |s| && s[..|p|] == p
  }

  /** Every root visited below `root` extends it by names that are not excluded. */
  lemma {:induction false} WalkRoots(d: Dir, root: seq<string>, u: Visit)
    requires u in Walk(d, root)
    ensures IsPrefix(root, u.root)
    ensures forall j :: |root| <= j < |u.root| ==> u.root[j] !in Excludes
    ensures u.root == root ==> u == Visit(root, DirNames(d.subdirs), d.files)
    decreases d
  {
    var first := Visit(root, DirNames(d.subdirs), d.files);
    if u != first {
      assert u in WalkFrom(d, root, 0);
      WalkFromMembers(d, root, 0, u);
      var k :| 0 <= k < |d.subdirs| && d.subdirs[k].name !in Excludes &&
               u in Walk(d.subdirs[k], root + [d.subdirs[k].name]);
      var c := d.subdirs[k];
      var r' := root + [c.name];
      WalkRoots(c, r', u);
      assert u.root[..|r'|] == r';
      assert u.root[..|root|] == r'[..|root|] == root;
    }
  }

  /** Every visit below the first is listed, after pruning, in the `dirs` of the visit
      of its parent directory. */
  lemma {:induction false} WalkParents(d: Dir, root: seq<string>, u: Visit)
    requires u in Walk(d, root) && |u.root| > |root|
    ensures exists w :: w in Walk(d, root) && w.root == u.root[..|u.root| - 1] &&
                        u.root[|u.root| - 1] in Prune(w.dirs)
    decreases d
  {
    var first := Visit(root, DirNames(d.subdirs), d.files);
    assert u != first;
    assert u in WalkFrom(d, root, 0);
    WalkFromMembers(d, root, 0, u);
    var k :| 0 <= k < |d.subdirs| && d.subdirs[k].name !in Excludes &&
             u in Walk(d.subdirs[k], root + [d.subdirs[k].name]);
    var c := d.subdirs[k];
    var r' := root + [c.name];
    WalkRoots(c, r', u);
    if |u.root| == |r'| {
      assert u.root == r';
      assert u.root[..|u.root| - 1] == root;
      assert DirNames(d.subdirs)[k] == c.name;
      PruneSpec(DirNames(d.subdirs));
      assert first in Walk(d, root);
    } else {
      WalkParents(c, r', u);
      var w :| w in Walk(c, r') && w.root == u.root[..|u.root| - 1] &&
               u.root[|u.root| - 1] in Prune(w.dirs);
      WalkFromMembers(d, root, 0, w);
      assert w in Walk(d, root);
    }
  }

  /** Every subdirectory a visit lists and does not prune is visited itself. */
  lemma {:induction false} WalkVisitsChildren(d: Dir, root: seq<string>, w: Visit, n: string)
    requires w in Walk(d, root) && n in Prune(w.dirs)
    ensures exists u :: u in Walk(d, root) && u.root == w.root + [n]
    decreases d
  {
    var first := Visit(root, DirNames(d.subdirs), d.files);
    if w == first {
      PruneSpec(w.dirs);
      var k :| 0 <= k < |d.subdirs| && DirNames(d.subdirs)[k] == n;
      var c := d.subdirs[k];
      var u := Visit(root + [n], DirNames(c.subdirs), c.files);
      assert u in Walk(c, root + [c.name]);
      WalkFromMembers(d, root, 0, u);
      assert u in Walk(d, root);
    } else {
      assert w in WalkFrom(d, root, 0);
      WalkFromMembers(d, root, 0, w);
      var k :| 0 <= k < |d.subdirs| && d.subdirs[k].name !in Excludes &&
               w in Walk(d.subdirs[k], root + [d.subdirs[k].name]);
      var c := d.subdirs[k];
      WalkVisitsChildren(c, root + [c.name], w, n);
      var u :| u in Walk(c, root + [c.name]) && u.root == w.root + [n];
      WalkFromMembers(d, root, 0, u);
      assert u in Walk(d, root);
    }
  }

  /** No directory named "dist" is ever entered. */
  lemma DistNeverVisited(top: Dir, u: Visit)
    requires u in WalkAll(top)
    ensures forall j :: 0 <= j < |u.root| ==> u.root[j] != "dist"
  {
    WalkRoots(top, [], u);
  }

  /** The walk reaches every directory through its parent: each visited directory below
      the top is listed, after pruning, by the visit of its parent directory. */
  lemma ParentVisited(top: Dir, u: Visit)
    requires u in WalkAll(top) && u.root != []
    ensures exists w :: w in WalkAll(top) && w.root == u.root[..|u.root| - 1] &&
                        u.root[|u.root| - 1] in Prune(w.dirs)
  {
    WalkParents(top, [], u);
  }

  /** Unclassified or not, every listed subdirectory that is not pruned is descended into. */
  lemma ChildVisited(top: Dir, w: Visit, n: string)
    requires w in WalkAll(top) && n in Prune(w.dirs)
    ensures exists u :: u in WalkAll(top) && u.root == w.root + [n]
  {
    WalkVisitsChildren(top, [], w, n);
  }
}
