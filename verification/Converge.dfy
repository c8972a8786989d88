/** Moving one participant of a transaction to one of its two captured states. */
module Converge {
  import opened Options
  import opened Files
  import opened Disks
  import opened Views
  import opened Journal
  import opened DurableFs
  import opened EmptyParents

  /** The file or link that a present state asks for. */
  function GoalNode(box: Box, target: State): Node
    requires Backed(box, target) && !target.Absent?
  {
    match target
    case RegularFile(_, mode, payload) => Regular(box.payloads[payload], mode)
    case Link(_, to) => Symlink(to)
  }

  function Goal(box: Box, target: State): (fate: Fate)
    requires Backed(box, target)
    ensures Fits(fate, target)
  {
    if target.Absent? then Gone else Holds(GoalNode(box, target))
  }

  /** The tree once `target` has been applied at `path`. */
  function Moved(places: Places, box: Box, tree: Tree, path: Path, target: State): Tree
    requires Backed(box, target)
  {
    if target.Absent? then Prune(places, tree - {path}, Dir(path))
    else WithDirs(tree, Dir(path))[path := GoalNode(box, target)]
  }

  /** Looking at the path fails: a file is in the way, or a link cannot be followed. */
  predicate Unreadable(tree: Tree, path: Path, state: State)
  {
    (path !in tree && !Passable(tree, Dir(path)))
    || (state.Link? && Fits(Visible(tree, path), state) && Read(tree, path).None?)
  }

  method MatchesState(fs: FileSystem, path: Path, state: State) returns (ok: bool, matches: bool)
    modifies fs`alive
    ensures fs.alive ==> old(fs.alive)
    ensures ok ==> matches == Matches(fs.disk.tree, path, state)
    // What cannot be looked at matches no state.
    ensures old(fs.Steady()) ==> fs.alive && (ok || forall s :: !Matches(fs.disk.tree, path, s))
  {
    var fails := fs.Hazard();
    if fails || Unreadable(fs.disk.tree, path, state) {
      return false, false;
    }
    ok, matches := true, Matches(fs.disk.tree, path, state);
  }

  method RequireExpectedState(fs: FileSystem, path: Path, expected: State) returns (ok: bool)
    modifies fs`alive
    ensures fs.alive ==> old(fs.alive)
    ensures ok ==> Matches(fs.disk.tree, path, expected)
    ensures old(fs.Steady()) ==> fs.alive && ok == Matches(fs.disk.tree, path, expected)
  {
    var matches;
    ok, matches := MatchesState(fs, path, expected);
    ok := ok && matches;
  }

  method VerifyStatePayload(fs: FileSystem, state: State) returns (ok: bool)
    modifies fs`alive
    ensures fs.alive ==> old(fs.alive)
    ensures ok ==> HasPayload(fs.disk, state)
    ensures old(fs.Steady()) ==> fs.alive && ok == HasPayload(fs.disk, state)
  {
    if !state.RegularFile? {
      return true;
    }
    if '/' in state.payload {
      return false;
    }
    var fails := fs.Hazard();
    ok := !fails && HasPayload(fs.disk, state);
  }

  /** Reassert the durability of a participant that already matches: of its data and of its entry in
      its directory, not of the directory's own entry. */
  method PersistMatchedState(fs: FileSystem, path: Path, state: State) returns (ok: bool)
    requires fs.Valid() && Matches(fs.disk.tree, path, state)
    modifies fs
    ensures fs.alive ==> old(fs.alive)
    ensures OnlyAt(old(fs.disk), fs.disk, path) && Undisturbed(old(fs.disk), fs.disk, path)
    ensures KeepsTree(old(fs.disk), fs.disk) && fs.disk.tree == old(fs.disk.tree)
    ensures ok ==> Durable(fs.disk, path) && fs.disk.limbo == Forget(old(fs.disk.limbo), {Dir(path)})
    ensures ok ==> IsDir(fs.disk.tree, Dir(path))
    ensures old(fs.Steady()) ==> fs.alive && ok == IsDir(fs.disk.tree, Dir(path))
  {
    ghost var a := fs.disk;
    if state.RegularFile? {
      ok := fs.SyncFile(path);
      if !ok {
        Untouched(a, path);
        return;
      }
    }
    ok := fs.SyncDir(Dir(path));
    SyncStep(a, fs.disk, path);
  }

  /** Syncing changes nothing that is visible and takes pending entries away. */
  lemma SyncStep(a: Disk, b: Disk, path: Path)
    requires Coherent(a.tree) && SameJournal(a, b) && b.tree == a.tree
    requires forall p :: Fates(b, p) <= Fates(a, p)
    requires forall p :: p != path ==> (p in a.unflushed <==> p in b.unflushed)
    ensures OnlyAt(a, b, path) && Undisturbed(a, b, path) && KeepsTree(a, b)
  {
    assert forall p :: Slot(b, p) == Slot(a, p);
    forall p | IsFile(a.tree, p) && p != path ensures FileKept(a, b, p) {
      if Firm(a, Dir(p)) {
        assert forall q :: q <= Dir(p) ==> Slot(b, q) in Fates(b, q) && Fates(b, q) <= Fates(a, q);
      }
    }
  }

  /** Copy a payload to a temporary file and sync its data. */
  method StageRegular(fs: FileSystem, payload: string, mode: Perm) returns (ok: bool, temp: Temp)
    modifies fs`alive
    ensures fs.alive ==> old(fs.alive)
    ensures ok ==> payload in fs.disk.box.payloads && temp == Temp(Regular(fs.disk.box.payloads[payload], mode), true)
    ensures old(fs.Steady()) ==> fs.alive && ok == (payload in fs.disk.box.payloads)
  {
    temp := Temp(Directory, false);
    var fails := fs.Hazard();
    if fails || payload !in fs.disk.box.payloads {
      return false, temp;
    }
    temp := Temp(Regular(fs.disk.box.payloads[payload], mode), false);
    ok, temp := fs.SyncTemp(temp);
  }

  /** Only this entry and the durability of its directory have changed. */
  lemma FileStep(a: Disk, b: Disk, path: Path, entry: Option<Node>, flushed: bool)
    requires path != [] && Coherent(a.tree) && Coherent(b.tree) && !IsDir(a.tree, path)
    requires entry.Some? ==> !entry.value.Directory?
    requires Altered(a, b, path, entry, flushed)
    ensures OnlyAt(a, b, path) && KeepsTree(a, b)
    ensures flushed ==> Fates(b, path) <= Fates(a, path) + {if entry.Some? then Holds(entry.value) else Gone}
  {
    AlteredElsewhere(a, b, path, entry, flushed);
    forall p | IsFile(a.tree, p) && p != path ensures FileKept(a, b, p) {
      if path < p {
        AncestorsAreDirectories(a.tree, p, path);
      }
      AlteredKeepsFile(a, b, path, entry, flushed, p);
    }
    forall p | IsDir(a.tree, p) ensures IsDir(b.tree, p) && Fates(b, p) <= Fates(a, p) {
      assert Undisturbed(a, b, p);
    }
  }

  /** Give `path` a temporary file or link: under a free name, or by renaming over what is there. */
  method Place(fs: FileSystem, path: Path, temp: Temp, free: bool) returns (ok: bool)
    requires fs.Valid() && path != [] && !temp.node.Directory?
    modifies fs
    ensures fs.alive ==> old(fs.alive)
    ensures OnlyAt(old(fs.disk), fs.disk, path) && KeepsTree(old(fs.disk), fs.disk)
    ensures temp.synced ==> Fates(fs.disk, path) <= Fates(old(fs.disk), path) + {Holds(temp.node)}
    ensures ok ==> fs.disk.tree == old(fs.disk.tree)[path := temp.node]
                   && fs.disk.limbo == Forget(old(fs.disk.limbo), {Dir(path)})
                   && fs.disk.unflushed == (if temp.synced then old(fs.disk.unflushed) - {path}
                                            else old(fs.disk.unflushed) + {path})
                   && (temp.synced ==> Durable(fs.disk, path))
    ensures old(fs.Steady()) ==>
              fs.alive && ok == (IsDir(old(fs.disk.tree), Dir(path))
                                 && if free then path !in old(fs.disk.tree) else !IsDir(old(fs.disk.tree), path))
  {
    ghost var a := fs.disk;
    if free {
      ok := fs.Link(temp, path);
    } else {
      ok := fs.Rename(temp, path);
    }
    ForgetChanged(a.limbo, path, Fates(a, path));
    if fs.disk != a {
      FileStep(a, fs.disk, path, Some(temp.node), temp.synced);
    } else {
      Untouched(a, path);
    }
  }

  lemma Untouched(a: Disk, path: Path)
    requires Coherent(a.tree)
    ensures OnlyAt(a, a, path) && KeepsTree(a, a)
  {}

  /** Put a temporary file or link at `path`: without replacing anything when the path is expected to
      be free, else by renaming over what is expected there. */
  method Install(fs: FileSystem, path: Path, temp: Temp, current: State) returns (ok: bool)
    requires fs.Valid() && path != [] && !temp.node.Directory? && temp.synced
    modifies fs
    ensures fs.alive ==> old(fs.alive)
    ensures OnlyAt(old(fs.disk), fs.disk, path) && KeepsTree(old(fs.disk), fs.disk)
    ensures Fates(fs.disk, path) <= Fates(old(fs.disk), path) + {Holds(temp.node)}
    ensures ok ==> fs.disk.tree == old(fs.disk.tree)[path := temp.node] && Durable(fs.disk, path)
                   && fs.disk.limbo == Forget(old(fs.disk.limbo), {Dir(path)})
    ensures old(fs.Steady()) ==> fs.alive
    ensures old(fs.Steady()) && Matches(old(fs.disk.tree), path, current) ==> ok == IsDir(old(fs.disk.tree), Dir(path))
  {
    if !current.Absent? {
      ok := RequireExpectedState(fs, path, current);
      if !ok {
        return;
      }
    }
    ok := Place(fs, path, temp, current.Absent?);
  }

  /** Remove one file. */
  method RemoveFile(fs: FileSystem, path: Path) returns (ok: bool)
    requires fs.Valid() && IsFile(fs.disk.tree, path)
    modifies fs
    ensures fs.alive ==> old(fs.alive)
    ensures OnlyAt(old(fs.disk), fs.disk, path) && KeepsTree(old(fs.disk), fs.disk)
    ensures Fates(fs.disk, path) <= Fates(old(fs.disk), path) + {Gone}
    ensures ok ==> fs.disk.tree == old(fs.disk.tree) - {path} && Durable(fs.disk, path)
                   && fs.disk.limbo == Forget(old(fs.disk.limbo), {Dir(path)})
    ensures old(fs.Steady()) ==> fs.alive && ok
  {
    FilesAreChildless(fs.disk.tree, path);
    ok := fs.Remove(path);
    ForgetChanged(old(fs.disk.limbo), path, Fates(old(fs.disk), path));
    FileStep(old(fs.disk), fs.disk, path, None, true);
  }

  /** Going down or up in two steps touches what each step touches. */
  lemma TouchedTwice(a: Tree, b: Tree, c: Tree)
    requires (a.Keys <= b.Keys <= c.Keys) || (c.Keys <= b.Keys <= a.Keys)
    ensures Touched(a, c) == Touched(a, b) + Touched(b, c)
  {
    var x, y, z := (a.Keys - b.Keys) + (b.Keys - a.Keys), (b.Keys - c.Keys) + (c.Keys - b.Keys),
                   (a.Keys - c.Keys) + (c.Keys - a.Keys);
    assert z == x + y;
  }

  lemma TouchedOne(tree: Tree, path: Path)
    requires path in tree
    ensures Touched(tree, tree - {path}) == {Dir(path)}
  {
    TouchedLess(tree, tree, path);
    assert Touched(tree, tree) == {};
  }

  /** The directories synced by a step at `path`. */
  function SyncedDirs(a: Tree, b: Tree, path: Path): set<Path>
  {
    Touched(a, b) + {Dir(path)}
  }

  lemma SyncedByRemoval(a: Tree, b: Tree, c: Tree, path: Path, limbo: map<Path, set<Fate>>)
    requires path in a && b == a - {path} && c.Keys <= b.Keys
    ensures Forget(Forget(limbo, {Dir(path)}), Touched(b, c)) == Forget(limbo, SyncedDirs(a, c, path))
  {
    TouchedOne(a, path);
    TouchedTwice(a, b, c);
    ForgetTwice(limbo, {Dir(path)}, Touched(b, c));
  }

  lemma SyncedByInstalling(a: Tree, b: Tree, path: Path, node: Node, limbo: map<Path, set<Fate>>)
    requires a.Keys <= b.Keys && (path in b ==> path in a)
    ensures Forget(Forget(limbo, Touched(a, b)), {Dir(path)}) == Forget(limbo, SyncedDirs(a, b[path := node], path))
  {
    ForgetTwice(limbo, Touched(a, b), {Dir(path)});
    if path in b {
      assert b[path := node].Keys == b.Keys;
    } else {
      TouchedMore(a, b, path, node);
    }
  }

  /** Remove `path` if it is still in the expected state, then the directories left empty. */
  method ApplyAbsent(fs: FileSystem, places: Places, path: Path, current: State) returns (ok: bool)
    requires fs.Valid() && path != [] && !current.Absent?
    modifies fs
    ensures fs.alive ==> old(fs.alive)
    ensures OnlyAt(old(fs.disk), fs.disk, path) && KeptStay(places, old(fs.disk.tree), fs.disk.tree)
    ensures Fates(fs.disk, path) <= Fates(old(fs.disk), path) + {Gone}
    ensures ok ==> fs.disk.tree == Prune(places, old(fs.disk.tree) - {path}, Dir(path)) && Durable(fs.disk, path)
                   && path !in fs.disk.tree
                   && fs.disk.limbo == Forget(old(fs.disk.limbo), SyncedDirs(old(fs.disk.tree), fs.disk.tree, path))
    ensures old(fs.Steady()) ==> fs.alive && ok == Matches(old(fs.disk.tree), path, current)
  {
    ok := RequireExpectedState(fs, path, current);
    if !ok {
      return;
    }
    ok := RemoveFile(fs, path);
    if !ok {
      return;
    }
    ghost var removed := fs.disk;
    assert IsDir(old(fs.disk.tree), Dir(path)) && IsDir(removed.tree, Dir(path));
    ok := RemoveEmptyParents(fs, places, path);
    OnlyAtTransitive(old(fs.disk), removed, fs.disk, path);
    SyncedByRemoval(old(fs.disk.tree), removed.tree, fs.disk.tree, path, old(fs.disk.limbo));
  }

  /** Making directories only adds directories. */
  lemma {:induction false} WithDirsAdds(tree: Tree, dir: Path)
    requires Passable(tree, dir)
    ensures tree.Keys <= WithDirs(tree, dir).Keys && IsDir(WithDirs(tree, dir), dir)
    ensures forall p :: p in WithDirs(tree, dir) ==>
              if p in tree then WithDirs(tree, dir)[p] == tree[p] else p <= dir && WithDirs(tree, dir)[p] == Directory
    ensures Seen(WithDirs(tree, dir)) == Seen(tree)
    decreases |dir|
  {
    if !IsDir(tree, dir) {
      WithDirsAdds(tree, Dir(dir));
      assert dir !in tree;
    }
  }

  lemma {:induction false} WithDirsIsCoherent(tree: Tree, dir: Path)
    requires Coherent(tree) && Passable(tree, dir)
    ensures Coherent(WithDirs(tree, dir))
    decreases |dir|
  {
    if !IsDir(tree, dir) {
      WithDirsIsCoherent(tree, Dir(dir));
      WithDirsAdds(tree, Dir(dir));
      AdditionKeepsCoherent(WithDirs(tree, Dir(dir)), dir, Directory);
    }
  }

  /** Making directories does not change what is found at a path below them. */
  lemma MatchesWithDirs(tree: Tree, path: Path, state: State)
    requires path != [] && Passable(tree, Dir(path)) && Matches(tree, path, state)
    ensures Matches(WithDirs(tree, Dir(path)), path, state)
  {
    WithDirsAdds(tree, Dir(path));
  }

  /** Stage the file or link that a present state asks for. */
  method Stage(fs: FileSystem, target: State) returns (ok: bool, temp: Temp)
    requires !target.Absent? && HasPayload(fs.disk, target)
    modifies fs`alive
    ensures fs.alive ==> old(fs.alive)
    ensures ok ==> temp == Temp(GoalNode(fs.disk.box, target), true)
    ensures old(fs.Steady()) ==> fs.alive && ok
  {
    match target {
      case RegularFile(_, mode, payload) =>
        ok, temp := StageRegular(fs, payload, mode);
      case Link(_, to) =>
        // The bytes of a link are its directory entry.
        ok, temp := true, Temp(Symlink(to), true);
    }
  }

  method ApplyPresent(fs: FileSystem, places: Places, path: Path, current: State, target: State) returns (ok: bool)
    requires fs.Valid() && path != [] && !target.Absent? && HasPayload(fs.disk, target)
    modifies fs
    ensures fs.alive ==> old(fs.alive)
    ensures OnlyAt(old(fs.disk), fs.disk, path) && KeepsTree(old(fs.disk), fs.disk)
    ensures Fates(fs.disk, path) <= Fates(old(fs.disk), path) + {Goal(old(fs.disk.box), target)}
    ensures ok ==> fs.disk.tree == Moved(places, old(fs.disk.box), old(fs.disk.tree), path, target)
                   && fs.disk.limbo == Forget(old(fs.disk.limbo), SyncedDirs(old(fs.disk.tree), fs.disk.tree, path))
                   && Durable(fs.disk, path) && Passable(old(fs.disk.tree), Dir(path))
    ensures old(fs.Steady()) ==> fs.alive
    ensures old(fs.Steady()) && Matches(old(fs.disk.tree), path, current) ==> ok == Passable(old(fs.disk.tree), Dir(path))
  {
    ok := MkdirAll(fs, Dir(path), path);
    if !ok {
      return;
    }
    ghost var made := fs.disk;
    WithDirsAdds(old(fs.disk.tree), Dir(path));
    if Matches(old(fs.disk.tree), path, current) {
      MatchesWithDirs(old(fs.disk.tree), path, current);
    }
    var temp;
    ok, temp := Stage(fs, target);
    if !ok {
      return;
    }
    ok := Install(fs, path, temp, current);
    OnlyAtTransitive(old(fs.disk), made, fs.disk, path);
    KeepsTreeTransitive(old(fs.disk), made, fs.disk);
    SyncedByInstalling(old(fs.disk.tree), made.tree, path, temp.node, old(fs.disk.limbo));
  }

  method ApplyState(fs: FileSystem, places: Places, path: Path, current: State, target: State)
    returns (ok: bool)
    requires fs.Valid() && path != [] && HasPayload(fs.disk, target) && (target.Absent? ==> !current.Absent?)
    modifies fs
    ensures fs.alive ==> old(fs.alive)
    ensures OnlyAt(old(fs.disk), fs.disk, path) && (!target.Absent? ==> KeepsTree(old(fs.disk), fs.disk))
    ensures KeptStay(places, old(fs.disk.tree), fs.disk.tree)
    ensures Fates(fs.disk, path) <= Fates(old(fs.disk), path) + {Goal(old(fs.disk.box), target)}
    ensures ok ==> fs.disk.tree == Moved(places, old(fs.disk.box), old(fs.disk.tree), path, target)
                   && fs.disk.limbo == Forget(old(fs.disk.limbo), SyncedDirs(old(fs.disk.tree), fs.disk.tree, path))
                   && Durable(fs.disk, path)
    ensures old(fs.Steady()) ==> fs.alive
    ensures ok ==> target.Absent? || Passable(old(fs.disk.tree), Dir(path))
    ensures old(fs.Steady()) && Matches(old(fs.disk.tree), path, current) ==>
              ok == (target.Absent? || Passable(old(fs.disk.tree), Dir(path)))
  {
    if target.Absent? {
      ok := ApplyAbsent(fs, places, path, current);
    } else {
      ok := ApplyPresent(fs, places, path, current, target);
    }
  }
}
