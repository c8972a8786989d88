/** Rolling an absent participant back also rolls back the empty directories above it. */
module EmptyParents {
  import opened Options
  import opened Files
  import opened Disks
  import opened DurableFs

  /** The two places whose neighbourhood is never pruned; the home may be unknown. */
  datatype Places = Places(dataRoot: Path, home: Option<Path>)

  /** The walk stops at these directories. */
  predicate Kept(places: Places, dir: Path)
  {
    || |dir| <= 1
    || dir == places.dataRoot || Dir(dir) == places.dataRoot || dir < places.dataRoot
    || (places.home.Some? && (dir == places.home.value || Dir(dir) == places.home.value))
  }

  /** The tree after the walk that starts at `dir`. */
  function Prune(places: Places, tree: Tree, dir: Path): Tree
    decreases |dir|
  {
    if Kept(places, dir) then tree
    else if dir !in tree then Prune(places, tree, Dir(dir))
    else if !tree[dir].Directory? || HasChild(tree, dir) then tree
    else Prune(places, tree - {dir}, Dir(dir))
  }

  /** No directory has gone that is never pruned. */
  ghost predicate KeptStay(places: Places, a: Tree, b: Tree)
  {
    forall p :: IsDir(a, p) && Kept(places, p) ==> IsDir(b, p)
  }

  /** No directory above `path` that may be pruned is empty. */
  ghost predicate NoneEmpty(places: Places, tree: Tree, path: Path)
  {
    forall p :: p < path && IsDir(tree, p) && !Kept(places, p) ==> HasChild(tree, p)
  }

  /** The directories from `dir` up to, but without, `floor`. */
  function Chain(floor: Path, dir: Path): (chain: set<Path>)
    ensures forall p :: p in chain <==> Within(floor, p, dir)
  {
    var chain := set n | |floor| < n <= |dir| :: dir[..n];
    assert forall p :: Within(floor, p, dir) ==> p == dir[..|p|];
    if floor <= dir then chain else {}
  }

  /** The walk removes exactly one chain of ancestors: it ends below a kept directory, a
      non-directory or a directory that still holds something, and every removed directory
      held nothing but the chain. */
  lemma {:induction false} PruneRemovesOneChain(places: Places, tree: Tree, dir: Path)
    returns (floor: Path)
    ensures floor <= dir
    ensures Prune(places, tree, dir) == tree - Chain(floor, dir)
    ensures Kept(places, floor)
            || (floor in tree && (!tree[floor].Directory? || HasChild(Prune(places, tree, dir), floor)))
    ensures forall p :: p in tree && Within(floor, p, dir) ==>
              tree[p].Directory? && !Kept(places, p) && !HasChild(Prune(places, tree, dir), p)
    decreases |dir|
  {
    if Kept(places, dir) || (dir in tree && (!tree[dir].Directory? || HasChild(tree, dir))) {
      floor := dir;
      assert tree - Chain(floor, dir) == tree;
    } else {
      var rest := if dir in tree then tree - {dir} else tree;
      floor := PruneRemovesOneChain(places, rest, Dir(dir));
      forall p ensures Within(floor, p, dir) <==> p == dir || Within(floor, p, Dir(dir)) {
        OneMore(floor, p, dir);
      }
      assert tree - Chain(floor, dir) == rest - Chain(floor, Dir(dir));
    }
  }

  /** What is on the way to something that is there holds the next step of that way. */
  lemma HasNext(tree: Tree, p: Path, path: Path)
    requires Coherent(tree) && p < path && path in tree
    ensures HasChild(tree, p)
  {
    var next := path[..|p| + 1];
    assert next != [] && Dir(next) == p;
    if next != path {
      AncestorsAreDirectories(tree, path, next);
    }
  }

  /** Which directories are never removed: the data root and what it lies in, what lies directly in it, the home
      and what lies directly in that, and what lies at the top. */
  lemma StaySpelledOut(places: Places, a: Tree, b: Tree)
    requires KeptStay(places, a, b)
    ensures forall p :: IsDir(a, p)
                        && (|p| <= 1 || p <= places.dataRoot || Dir(p) == places.dataRoot
                            || places.home == Some(p) || places.home == Some(Dir(p))) ==>
              IsDir(b, p)
  {}

  /** And which ones are, when they have been emptied. */
  lemma GoneSpelledOut(places: Places, tree: Tree, path: Path)
    requires NoneEmpty(places, tree, path)
    ensures forall p :: p < path && IsDir(tree, p)
                        && !(|p| <= 1 || p <= places.dataRoot || Dir(p) == places.dataRoot
                             || places.home == Some(p) || places.home == Some(Dir(p))) ==>
              HasChild(tree, p)
  {}

  /** The walk leaves no empty directory behind that it may remove. */
  lemma {:induction false} PruneLeavesNoneEmpty(places: Places, tree: Tree, path: Path)
    requires Coherent(tree) && path != [] && path !in tree && IsDir(tree, Dir(path))
    ensures NoneEmpty(places, Prune(places, tree, Dir(path)), path) && Coherent(Prune(places, tree, Dir(path)))
    ensures KeptStay(places, tree, Prune(places, tree, Dir(path)))
    decreases |path|
  {
    hide Kept;
    var dir := Dir(path);
    if Kept(places, dir) || HasChild(tree, dir) {
      NothingToPrune(places, tree, path);
    } else {
      ShortIsKept(places, dir);
      LeafRemoved(tree, dir);
      PruneLeavesNoneEmpty(places, tree - {dir}, dir);
      PruneOnlyRemoves(places, tree - {dir}, Dir(dir));
      NoneEmptyAbove(places, Prune(places, tree - {dir}, Dir(dir)), dir, path);
    }
  }

  lemma NothingToPrune(places: Places, tree: Tree, path: Path)
    requires Coherent(tree) && path != [] && IsDir(tree, Dir(path))
    requires Kept(places, Dir(path)) || HasChild(tree, Dir(path))
    ensures Prune(places, tree, Dir(path)) == tree && NoneEmpty(places, tree, path)
  {
    hide Kept, HasChild;
    ShortIsKept(places, Dir(path));
    forall p | p < path && IsDir(tree, p) && !Kept(places, p) ensures HasChild(tree, p) {
      if p != Dir(path) {
        HasNext(tree, p, Dir(path));
      }
    }
  }

  lemma ShortIsKept(places: Places, dir: Path)
    ensures dir == [] ==> Kept(places, dir)
  {}

  lemma LeafRemoved(tree: Tree, dir: Path)
    requires Coherent(tree) && IsDir(tree, dir) && dir != [] && !HasChild(tree, dir)
    ensures Coherent(tree - {dir}) && IsDir(tree - {dir}, Dir(dir))
    ensures forall p :: IsDir(tree, p) && p != dir ==> IsDir(tree - {dir}, p)
  {
    RemovalKeepsCoherent(tree, dir);
    assert IsDir(tree, Dir(dir)) && |Dir(dir)| < |dir|;
  }

  lemma NoneEmptyAbove(places: Places, tree: Tree, dir: Path, path: Path)
    requires NoneEmpty(places, tree, dir) && dir !in tree && dir != [] && path != [] && dir == Dir(path)
    ensures NoneEmpty(places, tree, path)
  {
    hide Kept, HasChild;
    forall p | p < path && IsDir(tree, p) && !Kept(places, p) ensures HasChild(tree, p) {
      assert p <= dir && p != dir;
    }
  }

  lemma {:induction false} PruneOnlyRemoves(places: Places, tree: Tree, dir: Path)
    ensures Prune(places, tree, dir).Keys <= tree.Keys
    ensures forall p :: p in Prune(places, tree, dir) ==> Prune(places, tree, dir)[p] == tree[p]
    ensures forall p :: p in tree && !(p <= dir) ==> p in Prune(places, tree, dir)
    decreases |dir|
  {
    var floor := PruneRemovesOneChain(places, tree, dir);
  }

  lemma OneMore(floor: Path, p: Path, dir: Path)
    requires dir != [] && floor <= Dir(dir)
    ensures Within(floor, p, dir) <==> p == dir || Within(floor, p, Dir(dir))
  {
    if Within(floor, p, dir) && p != dir {
      assert p == dir[..|p|];
    }
  }

  /** What has gone so far: empty directories above `path`, none of them kept. */
  ghost predicate PrunedAbove(places: Places, before: Tree, after: Tree, path: Path)
  {
    && after.Keys <= before.Keys
    && (forall p :: p in after ==> after[p] == before[p])
    && (forall p :: p in before && p !in after ==>
          p < path && before[p].Directory? && !Kept(places, p) && !HasChild(after, p))
  }

  /** The walk has come up to `dir`. */
  ghost predicate PrunedTo(places: Places, a: Disk, b: Disk, dir: Path, path: Path)
  {
    && dir < path && OnlyAbove(a, b, path) && PrunedAbove(places, a.tree, b.tree, path)
    && Prune(places, b.tree, dir) == Prune(places, a.tree, Dir(path))
    && b.limbo == Forget(a.limbo, Touched(a.tree, b.tree))
  }

  /** Remove one empty directory above `path`. */
  method Rmdir(fs: FileSystem, places: Places, dir: Path, ghost start: Disk, ghost path: Path) returns (ok: bool)
    requires fs.Valid() && dir in fs.disk.tree && fs.disk.tree[dir].Directory? && !HasChild(fs.disk.tree, dir)
    requires !Kept(places, dir) && PrunedTo(places, start, fs.disk, dir, path)
    modifies fs
    ensures fs.alive ==> old(fs.alive)
    ensures OnlyAbove(start, fs.disk, path) && PrunedAbove(places, start.tree, fs.disk.tree, path)
    ensures ok ==> PrunedTo(places, start, fs.disk, Dir(dir), path) && IsDir(fs.disk.tree, Dir(dir))
    ensures old(fs.Steady()) ==> fs.alive && ok
  {
    ok := fs.Remove(dir);
    ForgetChanged(old(fs.disk.limbo), dir, Fates(old(fs.disk), dir));
    RmdirStep(places, start, old(fs.disk), fs.disk, dir, path);
    if ok {
      PrunedStep(places, start, old(fs.disk), fs.disk, dir, path);
    }
  }

  lemma RmdirStep(places: Places, start: Disk, a: Disk, b: Disk, dir: Path, path: Path)
    requires Coherent(a.tree) && Coherent(b.tree) && !Kept(places, dir)
    requires dir in a.tree && a.tree[dir].Directory? && !HasChild(a.tree, dir)
    requires PrunedTo(places, start, a, dir, path) && Altered(a, b, dir, None, true)
    ensures OnlyAbove(start, b, path) && PrunedAbove(places, start.tree, b.tree, path)
  {
    DirStep(a, b, dir, None, path);
    OnlyAtTransitive(start, a, b, path);
    OneMorePruned(places, start.tree, a.tree, b.tree, dir, path);
  }

  lemma OneMorePruned(places: Places, start: Tree, a: Tree, b: Tree, dir: Path, path: Path)
    requires PrunedAbove(places, start, a, path) && !Kept(places, dir) && dir < path
    requires dir in a && a[dir].Directory? && !HasChild(a, dir) && (b == a || b == a - {dir})
    ensures PrunedAbove(places, start, b, path)
  {
    hide Kept;
    forall p | p in start && p !in b
      ensures p < path && start[p].Directory? && !Kept(places, p) && !HasChild(b, p)
    {
      assert !HasChild(a, p);
    }
  }

  lemma PrunedStep(places: Places, start: Disk, a: Disk, b: Disk, dir: Path, path: Path)
    requires Coherent(a.tree) && !Kept(places, dir)
    requires dir in a.tree && a.tree[dir].Directory? && !HasChild(a.tree, dir)
    requires PrunedTo(places, start, a, dir, path)
    requires b.tree == a.tree - {dir} && b.limbo == Forget(a.limbo, {Dir(dir)})
    ensures Dir(dir) < path && IsDir(b.tree, Dir(dir))
    ensures Prune(places, b.tree, Dir(dir)) == Prune(places, start.tree, Dir(path))
    ensures b.limbo == Forget(start.limbo, Touched(start.tree, b.tree))
  {
    assert dir in start.tree;
    TouchedLess(start.tree, a.tree, dir);
    ForgetTwice(start.limbo, Touched(start.tree, a.tree), {Dir(dir)});
  }

  /** Walk up and remove what is empty. */
  method WalkUp(fs: FileSystem, places: Places, path: Path) returns (ok: bool)
    requires fs.Valid() && path != []
    modifies fs
    ensures fs.alive ==> old(fs.alive)
    ensures OnlyAbove(old(fs.disk), fs.disk, path)
    ensures PrunedAbove(places, old(fs.disk.tree), fs.disk.tree, path)
    ensures ok ==> fs.disk.tree == Prune(places, old(fs.disk.tree), Dir(path))
    ensures ok ==> fs.disk.limbo == Forget(old(fs.disk.limbo), Touched(old(fs.disk.tree), fs.disk.tree))
    ensures old(fs.Steady()) ==> fs.alive && (IsDir(old(fs.disk.tree), Dir(path)) ==> ok)
  {
    var dir := Dir(path);
    assert Forget(fs.disk.limbo, {}) == fs.disk.limbo && Touched(fs.disk.tree, fs.disk.tree) == {};
    while !Kept(places, dir)
      invariant fs.Valid() && PrunedTo(places, old(fs.disk), fs.disk, dir, path)
      invariant fs.alive ==> old(fs.alive)
      invariant old(fs.Steady()) ==> fs.Steady() && (IsDir(old(fs.disk.tree), Dir(path)) ==> IsDir(fs.disk.tree, dir))
      decreases |dir|
    {
      var fails := fs.Hazard();
      if fails {
        return false;
      }
      if dir !in fs.disk.tree {
        dir := Dir(dir);
      } else if !fs.disk.tree[dir].Directory? {
        return false;
      } else if HasChild(fs.disk.tree, dir) {
        return true;
      } else {
        var removed := Rmdir(fs, places, dir, old(fs.disk), path);
        if !removed {
          return false;
        }
        dir := Dir(dir);
      }
    }
    ok := true;
  }

  method RemoveEmptyParents(fs: FileSystem, places: Places, path: Path) returns (ok: bool)
    requires fs.Valid() && path != []
    modifies fs
    ensures fs.alive ==> old(fs.alive)
    ensures OnlyAbove(old(fs.disk), fs.disk, path)
    ensures PrunedAbove(places, old(fs.disk.tree), fs.disk.tree, path)
    ensures KeptStay(places, old(fs.disk.tree), fs.disk.tree)
    // The data root and what it lies in, what lies directly in it, the home and what lies directly in that, and
    // what lies at the top are never removed.
    ensures forall p :: IsDir(old(fs.disk.tree), p)
                        && (|p| <= 1 || p <= places.dataRoot || Dir(p) == places.dataRoot
                            || places.home == Some(p) || places.home == Some(Dir(p))) ==>
              IsDir(fs.disk.tree, p)
    // Every other directory above the path goes when it has been emptied.
    ensures ok && path !in old(fs.disk.tree) && IsDir(old(fs.disk.tree), Dir(path)) ==>
              forall p :: p < path && IsDir(fs.disk.tree, p)
                          && !(|p| <= 1 || p <= places.dataRoot || Dir(p) == places.dataRoot
                               || places.home == Some(p) || places.home == Some(Dir(p))) ==>
                HasChild(fs.disk.tree, p)
    ensures ok ==> fs.disk.tree == Prune(places, old(fs.disk.tree), Dir(path))
    ensures ok ==> fs.disk.limbo == Forget(old(fs.disk.limbo), Touched(old(fs.disk.tree), fs.disk.tree))
    ensures old(fs.Steady()) ==> fs.alive && (IsDir(old(fs.disk.tree), Dir(path)) ==> ok)
  {
    ghost var before := fs.disk.tree;
    ok := WalkUp(fs, places, path);
    RemovedNoneKept(places, before, fs.disk.tree, path);
    StaySpelledOut(places, before, fs.disk.tree);
    if ok && path !in before && IsDir(before, Dir(path)) {
      PruneLeavesNoneEmpty(places, before, path);
      GoneSpelledOut(places, fs.disk.tree, path);
    }
  }

  lemma RemovedNoneKept(places: Places, before: Tree, after: Tree, path: Path)
    requires PrunedAbove(places, before, after, path)
    ensures KeptStay(places, before, after)
  {
    hide Kept;
  }
}
