/** What a successful command leaves: some files written, the missing directories above them made, and
    exactly the directories of all these synced. */
module Additions {
  import opened Options
  import opened Files
  import opened Disks
  import opened Views
  import opened Journal
  import opened DurableFs
  import opened EmptyParents
  import opened JournalDir
  import opened Converge
  import opened Recovery
  import opened Capture
  import opened Transactions
  import opened Managed
  import opened ManifestFile

  function DirsOf(paths: set<Path>): set<Path>
  {
    set p | p in paths :: Dir(p)
  }

  ghost predicate Added(a: Disk, b: Disk, paths: set<Path>)
  {
    && Coherent(b.tree) && a.tree.Keys <= b.tree.Keys
    && (forall p :: p in paths ==> !IsDir(a.tree, p) && !IsDir(b.tree, p))
    && (forall p :: p in b.tree && p !in paths ==> b.tree[p] == if p in a.tree then a.tree[p] else Directory)
    && b.limbo == Forget(a.limbo, Touched(a.tree, b.tree) + DirsOf(paths))
    && (forall p :: IsFile(a.tree, p) && p !in paths ==> (p in b.unflushed <==> p in a.unflushed))
  }

  lemma AddedNothing(a: Disk, b: Disk)
    requires Coherent(a.tree) && SameFiles(a, b)
    ensures Added(a, b, {})
  {
    assert Touched(a.tree, b.tree) + DirsOf({}) == {};
    assert Forget(a.limbo, {}) == a.limbo;
  }

  lemma AddedTwice(a: Disk, b: Disk, c: Disk, first: set<Path>, second: set<Path>)
    requires Added(a, b, first) && Added(b, c, second)
    requires forall p :: p in first ==> !IsDir(c.tree, p)
    requires forall p :: p in second ==> !IsDir(a.tree, p)
    ensures Added(a, c, first + second)
  {
    var x, y := Touched(a.tree, b.tree) + DirsOf(first), Touched(b.tree, c.tree) + DirsOf(second);
    TouchedTwice(a.tree, b.tree, c.tree);
    ForgetTwice(a.limbo, x, y);
    assert DirsOf(first + second) == DirsOf(first) + DirsOf(second);
    assert x + y == Touched(a.tree, c.tree) + DirsOf(first + second);
    forall p | IsFile(a.tree, p) && p !in first + second ensures p in c.unflushed <==> p in a.unflushed {
      assert IsFile(b.tree, p);
    }
  }

  /** Everything visible on the way down from a written file is there for good when it was before. */
  lemma AddedFirm(a: Disk, b: Disk, paths: set<Path>, path: Path)
    requires Added(a, b, paths) && path in b.tree && Footing(a, Dir(path))
    ensures Firm(b, Dir(path))
  {
    forall p | p <= Dir(path) ensures Fates(b, p) == {Holds(Directory)} {
      if p != [] {
        AncestorsAreDirectories(b.tree, path, p);
        if p in a.tree {
          assert IsDir(a.tree, p) && Fates(a, p) == {Holds(Directory)};
        } else {
          assert Dir(p) in Touched(a.tree, b.tree);
        }
      }
    }
  }

  lemma FirmIsFooting(d: Disk, dir: Path)
    requires Firm(d, dir)
    ensures Footing(d, dir)
  {}

  // ---- what is there for good afterwards ----

  /** The disk with some directories synced. */
  function Hardened(d: Disk, dirs: set<Path>): Disk
  {
    d.(limbo := Forget(d.limbo, dirs))
  }

  /** Apart from the written files, exactly what syncing the directories alone would have made final. */
  lemma AddedForGood(a: Disk, b: Disk, paths: set<Path>)
    requires Coherent(a.tree) && Added(a, b, paths)
    ensures ForGood(b) - paths == ForGood(Hardened(a, Touched(a.tree, b.tree) + DirsOf(paths))) - paths
  {
    var c := Hardened(a, Touched(a.tree, b.tree) + DirsOf(paths));
    forall p | p !in paths
      ensures p in ForGood(b) <==> p in ForGood(c)
      ensures p in ForGood(b) ==> ForGood(b)[p] == ForGood(c)[p]
    {
      if p in b.tree && !b.tree[p].Directory? {
        FilesAlike(a, b, paths, p);
      }
    }
  }

  lemma FilesAlike(a: Disk, b: Disk, paths: set<Path>, path: Path)
    requires Coherent(a.tree) && Added(a, b, paths) && IsFile(b.tree, path) && path !in paths
    ensures var c := Hardened(a, Touched(a.tree, b.tree) + DirsOf(paths));
            IsFile(c.tree, path) && c.tree[path] == b.tree[path] && (Lasting(b, path) <==> Lasting(c, path))
  {
    var c := Hardened(a, Touched(a.tree, b.tree) + DirsOf(paths));
    assert IsFile(a.tree, path) && Fates(b, path) == Fates(c, path);
    forall p | p <= Dir(path) ensures Fates(b, p) == Fates(c, p) {
      if p != [] {
        AncestorsAreDirectories(a.tree, path, p);
      }
    }
    assert Firm(b, Dir(path)) <==> Firm(c, Dir(path));
  }

  /** In particular everything that was there for good before. */
  lemma AddedExtends(a: Disk, b: Disk, paths: set<Path>)
    requires Coherent(a.tree) && Added(a, b, paths)
    ensures Extends(ForGood(a) - paths, ForGood(b))
  {
    var c := Hardened(a, Touched(a.tree, b.tree) + DirsOf(paths));
    AddedForGood(a, b, paths);
    forall p | p in ForGood(a) && p !in paths ensures p in ForGood(b) && ForGood(b)[p] == ForGood(a)[p] {
      HardenedLasts(a, Touched(a.tree, b.tree) + DirsOf(paths), p);
      assert p in ForGood(c) - paths;
    }
  }

  lemma HardenedLasts(d: Disk, dirs: set<Path>, path: Path)
    requires Lasting(d, path)
    ensures Lasting(Hardened(d, dirs), path)
  {
    var c := Hardened(d, dirs);
    assert forall p :: Fates(c, p) <= Fates(d, p) && Slot(c, p) == Slot(d, p);
    if Firm(d, Dir(path)) {
      forall p | p <= Dir(path) ensures Fates(c, p) == {Holds(Directory)} {
        assert Fates(d, p) == {Holds(Directory)} && Slot(c, p) in Fates(c, p);
      }
    }
    assert Slot(c, path) in Fates(c, path);
  }

  // ---- the steps ----

  lemma KeptFlushes(a: Disk, b: Disk, except: set<Path>)
    requires FilesKept(a, b, except)
    ensures forall p :: IsFile(a.tree, p) && p !in except ==> (p in b.unflushed <==> p in a.unflushed)
  {
    assert forall p :: IsFile(a.tree, p) && p !in except ==> FileKept(a, b, p);
  }

  /** One file put in place, with the directories above it. */
  lemma AddedByMove(a: Disk, b: Disk, path: Path, node: Node)
    requires Coherent(b.tree) && path != [] && Passable(a.tree, Dir(path)) && !IsDir(a.tree, path) && !node.Directory?
    requires b.tree == WithDirs(a.tree, Dir(path))[path := node] && FilesKept(a, b, {path})
    requires b.limbo == Forget(a.limbo, SyncedDirs(a.tree, b.tree, path))
    ensures Added(a, b, {path})
  {
    WithDirsAdds(a.tree, Dir(path));
    KeptFlushes(a, b, {path});
    assert DirsOf({path}) == {Dir(path)};
  }

  /** One file synced in place. */
  lemma AddedBySync(a: Disk, b: Disk, path: Path)
    requires Coherent(a.tree) && IsFile(a.tree, path) && b.tree == a.tree && FilesKept(a, b, {path})
    requires b.limbo == Forget(a.limbo, SyncedDirs(a.tree, b.tree, path))
    ensures Added(a, b, {path})
  {
    KeptFlushes(a, b, {path});
    assert DirsOf({path}) == {Dir(path)};
  }

  lemma AddedByTurn(a: Disk, b: Disk, places: Places, m: Mutation)
    requires Coherent(a.tree) && (Guard(m) || !m.after.Absent?) && m.path != [] && Advanced(a, b, places, m, true)
    ensures Added(a, b, if Guard(m) then {} else {m.path})
  {
    hide Added, KeepsTree, Coherent, Undisturbed, FilesKept;
    if Guard(m) {
      AddedNothing(a, b);
    } else if Matches(a.tree, m.path, m.after) {
      AddedBySync(a, b, m.path);
    } else {
      AddedByMove(a, b, m.path, GoalNode(a.box, m.after));
    }
  }

  lemma AddedBySave(a: Disk, b: Disk, path: Path, data: Content)
    requires path != [] && OnlyAtBoth(a, b, path, Bak(path))
    requires PlainOrGone(a.tree, path) && PlainOrGone(a.tree, Bak(path))
    requires b.tree == Saved(a.tree, path, data) && b.limbo == Forget(a.limbo, {Dir(path)})
    ensures Added(a, b, {path, Bak(path)})
  {
    SaveTouches(a.tree, b.tree, path, data);
    KeptFlushes(a, b, {path, Bak(path)});
  }

  lemma SaveTouches(a: Tree, b: Tree, path: Path, data: Content)
    requires path != [] && b == Saved(a, path, data) && PlainOrGone(a, path) && PlainOrGone(a, Bak(path))
    ensures Touched(a, b) + DirsOf({path, Bak(path)}) == {Dir(path)}
    ensures a.Keys <= b.Keys
    ensures forall p :: p in {path, Bak(path)} ==> !IsDir(a, p) && !IsDir(b, p)
    ensures forall p :: p in b && p !in {path, Bak(path)} ==> p in a && b[p] == a[p]
  {
    BackupIsBeside(path);
    assert (a.Keys - b.Keys) + (b.Keys - a.Keys) <= {path, Bak(path)};
    assert DirsOf({path, Bak(path)}) == {Dir(path)};
  }
}
