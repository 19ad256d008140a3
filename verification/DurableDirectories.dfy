/**
 Making a directory durable down from a trusted anchor while other callers create the same
 directories. A directory is visible as soon as it is created; its entry survives a power loss
 for certain only after its parent was fsynced, and only if all its own ancestors survive.
 */
module DurableDirectories {
  import opened Wrappers
  import opened DurableFiles
  import opened Journal

  /** Absolute, as components; the parent drops the last one. */
  type Path = seq<string>

  datatype PathError = NotBelowAnchor | CallFailed

  ghost predicate Closed(dirs: set<Path>)
  {
    forall p: Path, k: nat :: p in dirs && k <= |p| ==> p[..k] in dirs
  }

  /** What racing creators may do meanwhile: create directories and fsync parents, never remove. */
  ghost predicate Later(present: set<Path>, durable: set<Path>, present': set<Path>, durable': set<Path>)
  {
    present <= present' && durable <= durable' <= present' && Closed(present')
  }

  /** A power loss keeps every directory whose whole chain of entries is durable. */
  ghost predicate DirectoriesSurvive(present: set<Path>, durable: set<Path>, after: set<Path>)
  {
    && after <= present && Closed(after)
    && forall p: Path :: p in present && (forall k: nat :: k <= |p| ==> p[..k] in durable) ==> p in after
  }

  /** Every level from the root down to `path` has a durable entry. */
  ghost predicate DurableChain(durable: set<Path>, path: Path)
  {
    forall k: nat :: k <= |path| ==> path[..k] in durable
  }

  /** The levels strictly below the anchor, top down: the order they have to be created in. */
  function Levels(anchor: Path, path: Path): (levels: seq<Path>)
    requires anchor <= path
    ensures |levels| == |path| - |anchor|
    ensures forall i :: 0 <= i < |levels| ==> levels[i] == path[..|anchor| + 1 + i]
  {
    seq(|path| - |anchor|, i requires 0 <= i < |path| - |anchor| => path[..|anchor| + 1 + i])
  }

  lemma LevelsAbove(probe: Path, path: Path)
    requires |probe| > 0 && probe <= path
    ensures [probe] + Levels(probe, path) == Levels(probe[..|probe| - 1], path)
  {
    var above := Levels(probe[..|probe| - 1], path);
    assert probe == path[..|probe|];
    forall i | 0 <= i < |above| ensures above[i] == ([probe] + Levels(probe, path))[i] {
      if i > 0 { assert Levels(probe, path)[i - 1] == path[..|probe| + i]; }
    }
  }

  class DirectoryTree {
    var present: set<Path>
    var durable: set<Path>

    ghost predicate Valid()
      reads this
    {
      durable <= present && Closed(present)
    }

    constructor (present: set<Path>, durable: set<Path>)
      requires durable <= present && Closed(present)
      ensures Valid() && this.present == present && this.durable == durable
    {
      this.present := present;
      this.durable := durable;
    }

    /** Any number of concurrent callers, at any point. */
    method Interfere()
      requires Valid()
      modifies this
      ensures Valid() && Later(old(present), old(durable), present, durable)
    {
      var created: set<Path>, synced: set<Path> := *, *;
      if IsClosed(created) && present <= created && durable <= synced && synced <= created {
        present, durable := created, synced;
      }
    }

    static predicate IsClosed(dirs: set<Path>)
      ensures IsClosed(dirs) <==> Closed(dirs)
    {
      forall p <- dirs, k | 0 <= k <= |p| :: p[..k] in dirs
    }

    /** One level: create it, or find that somebody did, then fsync its parent either way. */
    method EnsureLevel(directory: Path, mkdirFails: bool, fsyncFails: bool) returns (ok: bool)
      requires Valid() && |directory| > 0 && directory[..|directory| - 1] in present
      modifies this
      ensures Valid() && Later(old(present), old(durable), present, durable)
      ensures ok <==> !fsyncFails && (directory in old(present) || !mkdirFails)
      ensures ok ==> directory in durable
    {
      if directory !in present {
        if mkdirFails { return false; }
        present := present + {directory};
        ClosedPlus(old(present), directory);
      }
      Interfere();
      if fsyncFails { return false; }
      durable := durable + set p | p in present && |p| > 0 && p[..|p| - 1] == directory[..|directory| - 1];
      ok := true;
    }

    /** `Ok` exactly when the path is below the anchor and no call failed. */
    method Ensure(path: Path, anchor: Path, mkdirFails: Path -> bool, fsyncFails: Path -> bool)
      returns (r: Result<(), PathError>)
      requires Valid() && DurableChain(durable, anchor)
      modifies this
      ensures Valid() && Later(old(present), old(durable), present, durable)
      ensures r == Err(NotBelowAnchor) <==> !(anchor <= path)
      ensures r == Err(NotBelowAnchor) ==> present == old(present) && durable == old(durable)
      ensures r.Ok? ==> DurableChain(durable, path)
      ensures anchor <= path && (forall d :: !mkdirFails(d) && !fsyncFails(d)) ==> r.Ok?
    {
      if !(anchor <= path) { return Err(NotBelowAnchor); }
      var levels: seq<Path> := [];
      var probe := path;
      while probe != anchor
        invariant anchor <= probe <= path
        invariant levels == Levels(probe, path)
        invariant present == old(present) && durable == old(durable)
        decreases |probe|
      {
        var parent := probe[..|probe| - 1];
        LevelsAbove(probe, path);
        levels, probe := [probe] + levels, parent;
      }
      assert path[..|anchor|] == anchor;
      var i := 0;
      while i < |levels|
        invariant 0 <= i <= |levels| && Valid() && Later(old(present), old(durable), present, durable)
        invariant levels == Levels(anchor, path)
        invariant DurableChain(durable, path[..|anchor| + i])
      {
        var directory := levels[i];
        assert path[..|anchor| + i] == directory[..|directory| - 1];
        assert path[..|anchor| + i][..|anchor| + i] == path[..|anchor| + i];
        var ok := EnsureLevel(directory, mkdirFails(directory), fsyncFails(directory));
        if !ok { return Err(CallFailed); }
        ChainExtends(durable, path, |anchor| + i);
        Interfere();
        i := i + 1;
      }
      assert path[..|path|] == path;
      r := Ok(());
    }
  }

  lemma ClosedPlus(dirs: set<Path>, p: Path)
    requires Closed(dirs) && |p| > 0 && p[..|p| - 1] in dirs
    ensures Closed(dirs + {p})
  {
    forall q: Path, k: nat | q in dirs + {p} && k <= |q| ensures q[..k] in dirs + {p} {
      if q == p && k < |p| {
        assert p[..|p| - 1][..k] == p[..k];
      } else if q == p {
        assert p[..k] == p;
      }
    }
  }

  lemma ChainExtends(durable: set<Path>, path: Path, n: nat)
    requires n < |path| && DurableChain(durable, path[..n]) && path[..n + 1] in durable
    ensures DurableChain(durable, path[..n + 1])
  {
    var longer := path[..n + 1];
    forall k: nat | k <= |longer| ensures longer[..k] in durable {
      assert longer[..k] == if k <= n then path[..n][..k] else longer;
    }
  }

  lemma DurableChainSurvives(present: set<Path>, durable: set<Path>, after: set<Path>, path: Path)
    requires durable <= present && DurableChain(durable, path) && DirectoriesSurvive(present, durable, after)
    ensures path in after
  {
    assert path[..|path|] == path;
  }

  // ---------------------------------------------------------------------------
  // The journal in its directory
  // ---------------------------------------------------------------------------

  /** A record is found only if its directory still is. */
  function ReadRecord(present: set<Path>, directory: Path, d: Disk, path: string): Option<Bytes>
  {
    if directory in present then Read(d, path) else None
  }

  class OperationJournal {
    const directory: Path
    const anchor: Path
    const tree: DirectoryTree
    const store: JournalStore

    constructor (directory: Path, anchor: Path, tree: DirectoryTree, store: JournalStore)
      ensures this.directory == directory && this.anchor == anchor && this.tree == tree && this.store == store
    {
      this.directory, this.anchor, this.tree, this.store := directory, anchor, tree, store;
    }

    /**
     A record, once written, is read back after any power loss at any later time, however many
     other callers were creating the same directories.
     */
    method Write(path: string, payload: Bytes, mkdirFails: Path -> bool, fsyncFails: Path -> bool,
                 faults: Faults, directoryFails: bool, ghost before: set<Option<Bytes>>) returns (ok: bool)
      requires tree.Valid() && DurableChain(tree.durable, anchor)
      requires store.Consistent() && !IsTemporary(path) && CrashSafe(store.disk, path, before)
      modifies tree, store
      ensures tree.Valid() && Later(old(tree.present), old(tree.durable), tree.present, tree.durable)
      ensures store.Consistent() && CrashSafe(store.disk, path, before + {Some(payload)})
      ensures ok ==> forall present, durable, after, d ::
                Later(tree.present, tree.durable, present, durable)
                && DirectoriesSurvive(present, durable, after) && Survives(store.disk, d) ==>
                  ReadRecord(after, directory, d, path) == Some(payload)
      ensures (anchor <= directory && (forall p :: !mkdirFails(p) && !fsyncFails(p))
               && Publishes(faults, payload) && !directoryFails) ==> ok
    {
      WiderIsSafe(store.disk, path, before, before + {Some(payload)});
      var made := tree.Ensure(directory, anchor, mkdirFails, fsyncFails);
      if made.Err? { return false; }
      ok := store.Write(path, payload, faults, directoryFails, before);
      tree.Interfere();
      if ok {
        forall present, durable, after, d
          | Later(tree.present, tree.durable, present, durable)
            && DirectoriesSurvive(present, durable, after) && Survives(store.disk, d)
          ensures ReadRecord(after, directory, d, path) == Some(payload)
        {
          DurableChainSurvives(present, durable, after, directory);
          CrashSafeReads(store.disk, d, path, {Some(payload)});
        }
      }
    }
  }
}
