/** The directories of the version store. Creating them reasserts every level that a stopped attempt
    may have left visible and unsynced; only the store's root relies on what is above it. */
module StoreDirs {
  import opened Options
  import opened Names
  import opened Files
  import opened Disks
  import opened DurableFs
  import opened Converge
  import opened Transactions

  function Last(path: Path): string
    requires path != []
  {
    path[|path| - 1]
  }

  /** A component that names an entry of its directory. */
  predicate Component(part: string)
  {
    part !in {"", ".", ".."} && '/' !in part && '\\' !in part
  }

  /** In the order of the listing, another spelling of the name comes before the name itself. */
  predicate Shadowed(tree: Tree, path: Path)
    requires path != []
  {
    exists p :: p in tree && p != [] && p != path && Dir(p) == Dir(path) && EqualFold(Last(p), Last(path))
                && (path in tree ==> Less(Last(p), Last(path)))
  }

  /** The directory is there or can be made there. */
  predicate Usable(tree: Tree, path: Path)
    requires path != []
  {
    !Shadowed(tree, path) && (path in tree ==> tree[path].Directory?)
  }

  /** Find one directory below `parent`, or make it. */
  method ResolveStoreChild(fs: FileSystem, parent: Path, part: string, create: bool, ghost below: Path)
    returns (ok: bool)
    requires fs.Valid() && parent + [part] < below
    modifies fs
    ensures fs.alive ==> old(fs.alive)
    ensures OnlyAbove(old(fs.disk), fs.disk, below) && KeepsTree(old(fs.disk), fs.disk)
    ensures !create ==> fs.disk == old(fs.disk)
    ensures ok ==> Usable(old(fs.disk.tree), parent + [part]) && IsDir(old(fs.disk.tree), parent)
                   && fs.disk.tree == old(fs.disk.tree)[parent + [part] := Directory]
                   && (create ==> fs.disk.limbo == Forget(old(fs.disk.limbo), {parent}))
    ensures old(fs.Steady()) ==>
              && fs.alive
              && ok == (&& IsDir(old(fs.disk.tree), parent) && Usable(old(fs.disk.tree), parent + [part])
                        && (create || parent + [part] in old(fs.disk.tree)))
  {
    ghost var a := fs.disk;
    NothingChanged(a, below);
    var path := parent + [part];
    var fails := fs.Hazard();
    if fails || !IsDir(fs.disk.tree, parent) || !Usable(fs.disk.tree, path) {
      return false;
    }
    if path in fs.disk.tree {
      ok := true;
      assert fs.disk.tree == fs.disk.tree[path := Directory];
      if create {
        // Perhaps a stopped attempt has made it and not synced it.
        ok := fs.SyncDir(parent);
        SyncKeepsAll(a, fs.disk, below);
      }
      return;
    }
    if !create {
      return false;
    }
    ok := MakeDir(fs, path, below);
  }

  lemma NothingChanged(d: Disk, below: Path)
    requires Coherent(d.tree)
    ensures OnlyAbove(d, d, below) && KeepsTree(d, d)
  {}

  lemma SyncKeepsAll(a: Disk, b: Disk, below: Path)
    requires Coherent(a.tree) && SameJournal(a, b) && b.tree == a.tree && b.unflushed == a.unflushed
    requires forall p :: Fates(b, p) <= Fates(a, p)
    ensures OnlyAbove(a, b, below) && KeepsTree(a, b)
  {
    SyncStep(a, b, below);
    if IsFile(a.tree, below) {
      SyncStep(a, b, below + [""]);
      assert below + [""] != below;
    }
  }

  /** The directory `k` levels below the root. */
  function Level(root: Path, parts: seq<string>, k: nat): (dir: Path)
    requires k <= |parts|
    ensures |dir| == |root| + k
  {
    root + parts[..k]
  }

  lemma NextLevel(root: Path, parts: seq<string>, k: nat, below: Path)
    requires k < |parts| && root + parts < below
    ensures Level(root, parts, k + 1) == Level(root, parts, k) + [parts[k]]
    ensures Level(root, parts, k + 1) < below
  {
    assert root + parts == Level(root, parts, k + 1) + parts[k + 1..];
  }

  /** The directories from the root of the store down. */
  function Levels(root: Path, parts: seq<string>): (dirs: set<Path>)
  {
    set k | 0 <= k < |parts| :: root + parts[..k]
  }

  /** Nothing keeps the next directory from being there. */
  predicate PavableAt(tree: Tree, root: Path, parts: seq<string>, k: nat)
    requires k < |parts|
  {
    Component(parts[k]) && Usable(tree, Level(root, parts, k + 1))
  }

  /** Nothing keeps the directories from being there. */
  predicate Pavable(tree: Tree, root: Path, parts: seq<string>)
  {
    && Passable(tree, root)
    && forall k :: 0 <= k < |parts| ==> PavableAt(tree, root, parts, k)
  }

  /** The directories are made and every level below the root has been synced. */
  ghost predicate Paved(a: Disk, b: Disk, root: Path, parts: seq<string>)
  {
    PavedTo(a, b, root, parts, |parts|)
  }

  ghost predicate PavedTo(a: Disk, b: Disk, root: Path, parts: seq<string>, k: nat)
    requires k <= |parts|
  {
    var dir := Level(root, parts, k);
    && Passable(a.tree, dir) && b.tree == WithDirs(a.tree, dir)
    && b.limbo == Forget(a.limbo, Touched(a.tree, b.tree) + Levels(root, parts[..k]))
  }

  lemma PavedSpelledOut(a: Disk, b: Disk, root: Path, parts: seq<string>)
    requires Coherent(b.tree) && Paved(a, b, root, parts) && Pavable(a.tree, root, parts)
    ensures forall k :: 0 <= k < |parts| ==>
              && parts[k] !in {"", ".", ".."} && '/' !in parts[k] && '\\' !in parts[k]
              && IsDir(b.tree, root + parts[..k + 1])
  {
    hide Usable, WithDirs, Coherent, Passable, Touched, Forget, IsDir;
    assert Level(root, parts, |parts|) == root + parts;
    WithDirsEnds(a.tree, root + parts);
    forall k | 0 <= k < |parts|
      ensures parts[k] !in {"", ".", ".."} && '/' !in parts[k] && '\\' !in parts[k]
      ensures IsDir(b.tree, root + parts[..k + 1])
    {
      assert PavableAt(a.tree, root, parts, k);
      assert root + parts == root + parts[..k + 1] + parts[k + 1..];
      DirAbove(b.tree, root + parts, root + parts[..k + 1]);
    }
  }

  /** Spelled out: every component is the name of an entry, and only directories under the same spelling are
      there already. */
  ghost predicate Unobstructed(tree: Tree, root: Path, parts: seq<string>)
  {
    && (forall p :: p in tree && p <= root ==> tree[p].Directory?)
    && (forall k :: 0 <= k < |parts| ==>
          var path := root + parts[..k + 1];
          && parts[k] !in {"", ".", ".."} && '/' !in parts[k] && '\\' !in parts[k]
          && !Shadowed(tree, path) && (path in tree ==> tree[path].Directory?))
  }

  lemma UnobstructedIsPavable(tree: Tree, root: Path, parts: seq<string>)
    requires Unobstructed(tree, root, parts)
    ensures Pavable(tree, root, parts)
  {
    hide Shadowed;
    forall k | 0 <= k < |parts| ensures PavableAt(tree, root, parts, k) {
      assert Component(parts[k]);
      assert Level(root, parts, k + 1) == root + parts[..k + 1];
    }
  }

  lemma WithDirsEnds(tree: Tree, dir: Path)
    ensures IsDir(WithDirs(tree, dir), dir)
  {}

  lemma DirAbove(tree: Tree, dir: Path, above: Path)
    requires Coherent(tree) && IsDir(tree, dir) && above <= dir
    ensures IsDir(tree, above)
  {
    if above < dir {
      AncestorsAreDirectories(tree, dir, above);
    } else {
      assert above == dir;
    }
  }

  lemma {:induction false} WithDirsNext(tree: Tree, dir: Path, part: string)
    requires Coherent(tree) && Passable(tree, dir + [part])
    ensures Passable(tree, dir)
    ensures WithDirs(tree, dir)[dir + [part] := Directory] == WithDirs(tree, dir + [part])
    ensures Touched(tree, WithDirs(tree, dir + [part])) + {dir} == Touched(tree, WithDirs(tree, dir)) + {dir}
  {
    assert Dir(dir + [part]) == dir;
    WithDirsAdds(tree, dir);
    if IsDir(tree, dir + [part]) {
      AncestorsAreDirectories(tree, dir + [part], dir);
      assert tree[dir + [part] := Directory] == tree;
    } else {
      assert dir + [part] !in tree && dir + [part] !in WithDirs(tree, dir);
      TouchedMore(tree, WithDirs(tree, dir), dir + [part], Directory);
    }
  }

  /** Making directories adds nothing that is further down. */
  lemma FurtherDown(tree: Tree, dir: Path, p: Path)
    requires Passable(tree, dir) && |p| > |dir|
    ensures p in WithDirs(tree, dir) <==> p in tree
    ensures p in tree ==> WithDirs(tree, dir)[p] == tree[p]
  {
    WithDirsAdds(tree, dir);
  }

  lemma ShadowedNext(tree: Tree, dir: Path, part: string)
    requires Passable(tree, dir)
    ensures Shadowed(WithDirs(tree, dir), dir + [part]) <==> Shadowed(tree, dir + [part])
  {
    var path, made := dir + [part], WithDirs(tree, dir);
    FurtherDown(tree, dir, path);
    forall p | p != [] && Dir(p) == Dir(path) ensures p in made <==> p in tree {
      FurtherDown(tree, dir, p);
    }
  }

  /** Making the directories above does not change what is found in the next one. */
  lemma UsableNext(tree: Tree, dir: Path, part: string)
    requires Passable(tree, dir)
    ensures Usable(WithDirs(tree, dir), dir + [part]) <==> Usable(tree, dir + [part])
    ensures Usable(tree, dir + [part]) ==> Passable(tree, dir + [part])
  {
    hide Shadowed;
    ShadowedNext(tree, dir, part);
    FurtherDown(tree, dir, dir + [part]);
    forall p | Usable(tree, dir + [part]) && p in tree && p <= dir + [part] ensures tree[p].Directory? {
      assert p == dir + [part] || p <= dir;
    }
  }

  lemma AboveTwice(a: Disk, b: Disk, c: Disk, below: Path)
    requires OnlyAbove(a, b, below) && OnlyAbove(b, c, below) && KeepsTree(a, b) && KeepsTree(b, c)
    ensures OnlyAbove(a, c, below) && KeepsTree(a, c) && Coherent(c.tree)
  {
    OnlyAtTransitive(a, b, c, below);
    KeepsTreeTransitive(a, b, c);
  }

  lemma PavedFirst(a: Disk, b: Disk, root: Path, parts: seq<string>)
    requires Passable(a.tree, root) && b.tree == WithDirs(a.tree, root)
    requires b.limbo == Forget(a.limbo, Touched(a.tree, b.tree))
    ensures PavedTo(a, b, root, parts, 0)
  {
    assert Level(root, parts, 0) == root && Levels(root, parts[..0]) == {};
  }

  lemma PavedLast(a: Disk, b: Disk, root: Path, parts: seq<string>)
    requires Paved(a, b, root, parts)
    ensures Passable(a.tree, root + parts) && b.tree == WithDirs(a.tree, root + parts)
    ensures b.limbo == Forget(a.limbo, Touched(a.tree, b.tree) + Levels(root, parts))
  {
    assert parts[..|parts|] == parts;
  }

  lemma PavedNext(a: Disk, b: Disk, c: Disk, root: Path, parts: seq<string>, k: nat)
    requires Coherent(a.tree) && k < |parts| && PavedTo(a, b, root, parts, k)
    requires var next := Level(root, parts, k) + [parts[k]];
             Passable(a.tree, next) && c.tree == b.tree[next := Directory]
             && c.limbo == Forget(b.limbo, {Level(root, parts, k)})
    ensures PavedTo(a, c, root, parts, k + 1)
  {
    var dir := Level(root, parts, k);
    assert Level(root, parts, k + 1) == dir + [parts[k]];
    WithDirsNext(a.tree, dir, parts[k]);
    ForgetTwice(a.limbo, Touched(a.tree, b.tree) + Levels(root, parts[..k]), {dir});
    LevelsNext(root, parts, k);
    assert Touched(a.tree, b.tree) + Levels(root, parts[..k]) + {dir}
        == Touched(a.tree, c.tree) + Levels(root, parts[..k + 1]);
  }

  lemma InLevels(root: Path, parts: seq<string>, d: Path)
    ensures d in Levels(root, parts) <==> root <= d < root + parts
  {
    if root <= d < root + parts {
      assert d == root + parts[..|d| - |root|];
    }
  }

  lemma LevelsNext(root: Path, parts: seq<string>, k: nat)
    requires k < |parts|
    ensures Levels(root, parts[..k + 1]) == Levels(root, parts[..k]) + {root + parts[..k]}
  {
    assert root + parts[..k + 1] == root + parts[..k] + [parts[k]];
    forall d ensures d in Levels(root, parts[..k + 1]) <==> d in Levels(root, parts[..k]) || d == root + parts[..k] {
      InLevels(root, parts[..k + 1], d);
      InLevels(root, parts[..k], d);
    }
  }

  /** Find the directories of the store, or make them: `root` as `MkdirAll` does, and every level below
      it with a sync of its parent, whether it is new or not. */
  method StoreDir(fs: FileSystem, root: Path, parts: seq<string>, ghost below: Path) returns (ok: bool)
    requires fs.Valid() && root + parts < below
    modifies fs
    ensures fs.alive ==> old(fs.alive)
    ensures OnlyAbove(old(fs.disk), fs.disk, below) && KeepsTree(old(fs.disk), fs.disk)
    ensures ok ==> Paved(old(fs.disk), fs.disk, root, parts) && Pavable(old(fs.disk.tree), root, parts)
    // No component leads out of its directory, and all of them are directories now.
    ensures ok ==> forall k :: 0 <= k < |parts| ==>
                     && parts[k] !in {"", ".", ".."} && '/' !in parts[k] && '\\' !in parts[k]
                     && IsDir(fs.disk.tree, root + parts[..k + 1])
    ensures old(fs.Steady()) ==> fs.alive && ok == Pavable(old(fs.disk.tree), root, parts)
    // Without faults only what is no directory, another spelling, or a name that is none stands in the way.
    ensures old(fs.Steady()) && Unobstructed(old(fs.disk.tree), root, parts) ==> ok
  {
    hide OnlyAt, OnlyAbove, KeepsTree, PavableAt, PavedTo, Level, Coherent, Passable, Touched, WithDirs,
         Forget, IsDir, Unobstructed;
    ghost var a := fs.disk;
    if Unobstructed(a.tree, root, parts) {
      UnobstructedIsPavable(a.tree, root, parts);
    }
    assert root < below;
    ok := MkdirAll(fs, root, below);
    if !ok {
      return;
    }
    PavedFirst(a, fs.disk, root, parts);
    NothingChanged(a, below);
    AboveTwice(a, a, fs.disk, below);
    for i := 0 to |parts|
      invariant fs.Valid() && (fs.alive ==> old(fs.alive)) && (old(fs.Steady()) ==> fs.Steady())
      invariant OnlyAbove(a, fs.disk, below) && KeepsTree(a, fs.disk) && PavedTo(a, fs.disk, root, parts, i)
      invariant forall k :: 0 <= k < i ==> PavableAt(a.tree, root, parts, k)
    {
      ok := NextStoreDir(fs, a, root, parts, i, below);
      if !ok {
        return;
      }
    }
    PavedSpelledOut(a, fs.disk, root, parts);
  }

  /** Find or make the next directory on the way down. */
  method NextStoreDir(fs: FileSystem, ghost a: Disk, root: Path, parts: seq<string>, i: nat,
                      ghost below: Path)
    returns (ok: bool)
    requires fs.Valid() && Coherent(a.tree) && i < |parts| && root + parts < below
    requires OnlyAbove(a, fs.disk, below) && KeepsTree(a, fs.disk) && PavedTo(a, fs.disk, root, parts, i)
    modifies fs
    ensures (fs.alive ==> old(fs.alive)) && fs.Valid()
    ensures OnlyAbove(a, fs.disk, below) && KeepsTree(a, fs.disk)
    ensures ok ==> PavedTo(a, fs.disk, root, parts, i + 1) && PavableAt(a.tree, root, parts, i)
    ensures old(fs.Steady()) ==> fs.alive && ok == PavableAt(a.tree, root, parts, i)
  {
    hide OnlyAt, OnlyAbove, KeepsTree, Usable, Component, Touched, Levels, Level;
    if !Component(parts[i]) {
      return false;
    }
    var dir := Level(root, parts, i);
    ghost var b := fs.disk;
    NextLevel(root, parts, i, below);
    UsableNext(a.tree, dir, parts[i]);
    WithDirsAdds(a.tree, dir);
    ok := ResolveStoreChild(fs, dir, parts[i], true, below);
    AboveTwice(a, b, fs.disk, below);
    if ok {
      PavedNext(a, b, fs.disk, root, parts, i);
    }
  }

  // ---- what is there for good ----

  /** Exactly what is above the root decides whether the directories can be lost: unlike in `MkdirAll`,
      a level that an earlier attempt left unsynced below the root is made final. */
  lemma PavedIsFirm(a: Disk, b: Disk, root: Path, parts: seq<string>)
    requires Coherent(a.tree) && Coherent(b.tree) && Paved(a, b, root, parts)
    ensures Firm(b, root + parts) <==> Footing(a, root)
  {
    var dir := root + parts;
    PavedLast(a, b, root, parts);
    WithDirsAdds(a.tree, dir);
    if Footing(a, root) {
      forall p | p <= dir ensures Fates(b, p) == {Holds(Directory)} {
        LevelIsFinal(a, b, root, parts, p);
      }
    }
    if Firm(b, dir) {
      forall p | p <= root && IsDir(a.tree, p) ensures Fates(a, p) == {Holds(Directory)} {
        if p != [] {
          assert p <= dir;
          NotTouched(a, b, root, parts, p);
        }
      }
    }
  }

  lemma LevelIsFinal(a: Disk, b: Disk, root: Path, parts: seq<string>, p: Path)
    requires Coherent(a.tree) && Coherent(b.tree) && Paved(a, b, root, parts) && p <= root + parts
    requires Footing(a, root)
    ensures Fates(b, p) == {Holds(Directory)}
  {
    hide Levels, Coherent;
    var dir := root + parts;
    PavedLast(a, b, root, parts);
    MadeIsDirs(a.tree, dir);
    if p != [] {
      assert IsDir(b.tree, p) && p in b.tree;
      if p !in a.tree {
        assert Dir(p) in Touched(a.tree, b.tree);
      } else if p <= root {
        WithDirsAdds(a.tree, dir);
        assert IsDir(a.tree, p) && Fates(a, p) == {Holds(Directory)};
      } else {
        assert p == dir[..|p|] && root <= Dir(p) < dir;
        InLevels(root, parts, Dir(p));
      }
    }
  }

  /** Above the root no directory is synced in which something existing lies. */
  lemma NotTouched(a: Disk, b: Disk, root: Path, parts: seq<string>, p: Path)
    requires Coherent(a.tree) && Coherent(b.tree) && Paved(a, b, root, parts)
    requires p != [] && p <= root && IsDir(a.tree, p)
    ensures Fates(b, p) == Fates(a, p)
  {
    hide Touched, Levels, Coherent, Fates, WithDirs, Forget;
    PavedLast(a, b, root, parts);
    InLevels(root, parts, Dir(p));
    NewIsElsewhere(a.tree, root + parts, p);
    WithDirsAdds(a.tree, root + parts);
    NotForgotten(a, b, Touched(a.tree, b.tree) + Levels(root, parts), p);
  }

  lemma NotForgotten(a: Disk, b: Disk, dirs: set<Path>, p: Path)
    requires b.limbo == Forget(a.limbo, dirs) && Dir(p) !in dirs && IsDir(a.tree, p) && IsDir(b.tree, p)
    ensures Fates(b, p) == Fates(a, p)
  {}

  /** No directory is made beside an existing one on the same way down. */
  lemma NewIsElsewhere(tree: Tree, dir: Path, p: Path)
    requires Passable(tree, dir) && Coherent(WithDirs(tree, dir)) && p != [] && p <= dir && p in tree
    ensures Dir(p) !in Touched(tree, WithDirs(tree, dir))
  {
    WithDirsAdds(tree, dir);
    var made := WithDirs(tree, dir);
    forall q | q in (tree.Keys - made.Keys) + (made.Keys - tree.Keys) ensures Dir(q) != Dir(p) {
      assert q in made && q !in tree;
      SameWay(dir, p, q);
    }
  }

  lemma SameWay(dir: Path, p: Path, q: Path)
    requires p <= dir && q <= dir && p != [] && q != [] && p != q
    ensures Dir(p) != Dir(q)
  {
    assert p == dir[..|p|] && q == dir[..|q|];
  }

  /** A retried adoption may rely on the place of its backup: it is settled exactly when its own entry is
      final and the directories above the store were there for good. */
  lemma PavedIsSettled(a: Disk, b: Disk, root: Path, parts: seq<string>, file: string)
    requires Coherent(a.tree) && Coherent(b.tree) && Paved(a, b, root, parts)
    ensures Settled(b, root + parts + [file]) <==> Durable(b, root + parts + [file]) && Footing(a, root)
  {
    var dir := root + parts;
    PavedLast(a, b, root, parts);
    assert Dir(dir + [file]) == dir;
    PavedIsFirm(a, b, root, parts);
    MadeIsDirs(a.tree, dir);
    FootingIsFirm(b, dir);
  }

  lemma MadeIsDirs(tree: Tree, dir: Path)
    requires Coherent(WithDirs(tree, dir)) && Passable(tree, dir)
    ensures forall p :: p <= dir ==> IsDir(WithDirs(tree, dir), p)
  {
    var made := WithDirs(tree, dir);
    WithDirsAdds(tree, dir);
    forall p | p <= dir ensures IsDir(made, p) {
      if p != dir {
        assert p < dir && dir in made;
        AncestorsAreDirectories(made, dir, p);
      }
    }
  }

  lemma FootingIsFirm(d: Disk, dir: Path)
    requires forall p :: p <= dir ==> IsDir(d.tree, p)
    ensures Footing(d, dir) <==> Firm(d, dir)
  {}
}
