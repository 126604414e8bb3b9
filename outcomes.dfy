/** What the converter writes, and how the passes of a loop combine: each pass writes
    some files or ends the run with a fault, and a fault stops every later pass. Both
    loops of backstage.py's `main` (over the walk, and over a directory's files) are
    `Chain`s of this kind, because any exception aborts the script and the files
    already written stay on disk. */
module Outcomes {
  import opened Wrappers
  import opened Entities

  /** The faults that end the run while a descriptor file is read. */
  datatype Error =
    | LoadFailed                   // the file is not text, or not YAML
    | NotAMapping                  // the document cannot be indexed by a key
    | MissingField(field: string)  // `old_yml[field]` raises KeyError
    | NameNotText                  // `build_name` cannot normalise a non-string name

  /** One document file written under the run's output directory, at the relative
      directory `dir`. */
  datatype Output =
    | SystemDoc(dir: seq<string>, fileName: string, system: System)
    | EntityDoc(dir: seq<string>, fileName: string, group: Group, location: Location)

  /** The files written, in order, and the fault that ended the run, if one did. */
  datatype Outcome = Outcome(writes: seq<Output>, error: Option<Error>)

  /** The first `n` passes, one after another, up to the first fault. */
  function ChainTo(passes: seq<Outcome>, n: nat): Outcome
    requires n <= |passes|
  {
    if n == 0 then Outcome([], None)
    else
      var before := ChainTo(passes, n - 1);
      if before.error.Some? then before
      else Outcome(before.writes + passes[n - 1].writes, passes[n - 1].error)
  }

  function Chain(passes: seq<Outcome>): Outcome {
    ChainTo(passes, |passes|)
  }

  // ---------------------------------------------------------------------------

  /** Once a pass faults, the later passes change nothing. */
  lemma {:induction false} FaultStays(passes: seq<Outcome>, n: nat, m: nat)
    requires n <= m <= |passes| && ChainTo(passes, n).error.Some?
    ensures ChainTo(passes, m) == ChainTo(passes, n)
    decreases m - n
  {
    if n < m {
      FaultStays(passes, n, m - 1);
    }
  }

  /** A chain that has run through all its passes, or has faulted, is complete. */
  lemma ChainEnd(passes: seq<Outcome>, n: nat)
    requires n <= |passes| && (n == |passes| || ChainTo(passes, n).error.Some?)
    ensures Chain(passes) == ChainTo(passes, n)
  {
    if n < |passes| {
      FaultStays(passes, n, |passes|);
    }
  }

  /** The chain faults exactly when one of its passes does. */
  lemma {:induction false} ChainFaultIff(passes: seq<Outcome>, n: nat)
    requires n <= |passes|
    ensures ChainTo(passes, n).error.Some? <==> exists i :: 0 <= i < n && passes[i].error.Some?
  {
    if n > 0 {
      ChainFaultIff(passes, n - 1);
      if passes[n - 1].error.Some? {
        assert 0 <= n - 1 < n && passes[n - 1].error.Some?;
      }
    }
  }

  /** Without a fault, the chain writes what its passes write, one after another. */
  lemma {:induction false} ChainAll(passes: seq<Outcome>, n: nat)
    requires n <= |passes|
    requires forall i :: 0 <= i < n ==> passes[i].error.None?
    ensures ChainTo(passes, n) == Outcome(Concat(passes, n), None)
  {
    if n > 0 {
      ChainAll(passes, n - 1);
    }
  }

  /** The writes of the first `n` passes, one after another. */
  function Concat(passes: seq<Outcome>, n: nat): seq<Output>
    requires n <= |passes|
  {
    if n == 0 then [] else Concat(passes, n - 1) + passes[n - 1].writes
  }

  /** The first fault ends the chain with that fault, after everything the passes before
      it wrote and what the faulting pass wrote itself. */
  lemma ChainFirstFault(passes: seq<Outcome>, j: nat)
    requires j < |passes|
    requires forall i :: 0 <= i < j ==> passes[i].error.None?
    requires passes[j].error.Some?
    ensures Chain(passes) == Outcome(Concat(passes, j + 1), passes[j].error)
  {
    ChainAll(passes, j);
    FaultStays(passes, j + 1, |passes|);
  }

  /** Passes that each write one file and do not fault write one file each, in order. */
  lemma {:induction false} ConcatSingles(passes: seq<Outcome>, n: nat)
    requires n <= |passes|
    requires forall i :: 0 <= i < n ==> |passes[i].writes| == 1
    ensures |Concat(passes, n)| == n
    ensures forall i :: 0 <= i < n ==> Concat(passes, n)[i] == passes[i].writes[0]
  {
    if n > 0 {
      ConcatSingles(passes, n - 1);
    }
  }

  /** Every file of the chain is written by one of its passes. */
  lemma {:induction false} ChainWritesFrom(passes: seq<Outcome>, n: nat, x: Output)
    requires n <= |passes| && x in ChainTo(passes, n).writes
    ensures exists i :: 0 <= i < n && x in passes[i].writes
  {
    var before := ChainTo(passes, n - 1);
    if before.error.None? && x !in before.writes {
      assert 0 <= n - 1 < n && x in passes[n - 1].writes;
    } else {
      ChainWritesFrom(passes, n - 1, x);
      var i :| 0 <= i < n - 1 && x in passes[i].writes;
    }
  }

  /** Without a fault, every file a pass writes is among the chain's. */
  lemma {:induction false} ChainKeeps(passes: seq<Outcome>, n: nat, i: nat)
    requires i < n <= |passes| && ChainTo(passes, n).error.None?
    ensures forall x :: x in passes[i].writes ==> x in ChainTo(passes, n).writes
  {
    if i < n - 1 {
      ChainKeeps(passes, n - 1, i);
    }
  }
}
