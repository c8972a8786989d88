/** The durable file-system primitives. Every primitive may fail, or the process may stop,
    before, between and after the visible change and the sync that makes it final. Once the
    process has stopped, nothing has any effect until the machine starts again. */
module DurableFs {
  import opened Options
  import opened Files
  import opened Disks

  /** A temporary file or link that has no name a reader looks at yet. */
  datatype Temp = Temp(node: Node, synced: bool)

  class FileSystem {
    var disk: Disk
    var alive: bool
    /** A reliable file system injects no failure and never stops. */
    const reliable: bool

    constructor (disk: Disk, reliable: bool)
      ensures this.disk == disk && alive && this.reliable == reliable
    {
      this.disk := disk;
      this.alive := true;
      this.reliable := reliable;
    }

    predicate Valid()
      reads this
    {
      Coherent(disk.tree)
    }

    predicate Steady()
      reads this
    {
      reliable && alive
    }

    /** The environment decides whether the next step fails or the process stops. */
    method Hazard() returns (fails: bool)
      modifies this`alive
      ensures alive ==> old(alive)
      ensures old(Steady()) ==> alive && !fails
      ensures !old(alive) ==> fails
    {
      if !alive {
        return true;
      }
      if reliable {
        return false;
      }
      var stops: bool := *;
      if stops {
        alive := false;
        return true;
      }
      fails := *;
    }

    /** The machine starts again on whatever the crash left. */
    method Reboot(found: Disk)
      requires Crashed(disk, found)
      modifies this
      ensures disk == found && alive && Valid()
    {
      disk := found;
      alive := true;
    }

    method SyncDir(dir: Path) returns (ok: bool)
      modifies this
      ensures alive ==> old(alive)
      ensures disk == if ok then Flush(old(disk), dir) else old(disk)
      ensures ok ==> IsDir(disk.tree, dir)
      ensures old(Steady()) ==> alive && ok == IsDir(old(disk.tree), dir)
    {
      var fails := Hazard();
      if fails || !IsDir(disk.tree, dir) {
        return false;
      }
      disk := Flush(disk, dir);
      ok := true;
    }

    method SyncFile(path: Path) returns (ok: bool)
      modifies this
      ensures alive ==> old(alive)
      ensures disk == if ok then FlushFile(old(disk), path) else old(disk)
      ensures old(Steady()) ==> alive && ok
    {
      var fails := Hazard();
      if fails {
        return false;
      }
      disk := FlushFile(disk, path);
      ok := true;
    }

    /** Sync the data of a temporary file. */
    method SyncTemp(temp: Temp) returns (ok: bool, done: Temp)
      modifies this`alive
      ensures alive ==> old(alive)
      ensures done == if ok then temp.(synced := true) else temp
      ensures old(Steady()) ==> alive && ok
    {
      var fails := Hazard();
      if fails {
        return false, temp;
      }
      ok, done := true, temp.(synced := true);
    }

    /** Change one directory entry, then sync its directory. */
    method Change(path: Path, entry: Option<Node>, flushed: bool) returns (ok: bool)
      requires path != []
      modifies this
      ensures alive ==> old(alive)
      ensures ok ==> disk == Flush(Put(old(disk), path, entry, flushed), Dir(path))
      ensures !ok ==> disk == old(disk) || disk == Put(old(disk), path, entry, flushed)
      ensures IsDir(old(disk.tree), Dir(path)) ==>
                (old(Steady()) ==> alive && ok)
      ensures !IsDir(old(disk.tree), Dir(path)) ==> !ok && disk == old(disk)
      ensures old(Steady()) ==> alive
    {
      var fails := Hazard();
      if fails || !IsDir(disk.tree, Dir(path)) {
        return false;
      }
      disk := Put(disk, path, entry, flushed);
      assert IsDir(disk.tree, Dir(path));
      ok := SyncDir(Dir(path));
    }

    /** Rename a temporary file or link over `path`. */
    method Rename(temp: Temp, path: Path) returns (ok: bool)
      requires Valid() && path != [] && !temp.node.Directory?
      modifies this
      ensures alive ==> old(alive)
      ensures Valid()
      ensures ok ==> disk == Flush(Put(old(disk), path, Some(temp.node), temp.synced), Dir(path))
      ensures !ok ==> disk == old(disk) || disk == Put(old(disk), path, Some(temp.node), temp.synced)
      ensures disk != old(disk) ==> !IsDir(old(disk.tree), path) && IsDir(old(disk.tree), Dir(path))
      ensures old(Steady()) ==> alive && ok == (!IsDir(old(disk.tree), path) && IsDir(old(disk.tree), Dir(path)))
    {
      if IsDir(disk.tree, path) {
        return false;
      }
      if IsDir(disk.tree, Dir(path)) {
        AdditionKeepsCoherent(disk.tree, path, temp.node);
      }
      ok := Change(path, Some(temp.node), temp.synced);
    }

    /** Give a temporary file or link a name that is free. */
    method Link(temp: Temp, path: Path) returns (ok: bool)
      requires Valid() && path != [] && !temp.node.Directory?
      modifies this
      ensures alive ==> old(alive)
      ensures Valid()
      ensures ok ==> disk == Flush(Put(old(disk), path, Some(temp.node), temp.synced), Dir(path))
      ensures !ok ==> disk == old(disk) || disk == Put(old(disk), path, Some(temp.node), temp.synced)
      ensures disk != old(disk) ==> path !in old(disk.tree) && IsDir(old(disk.tree), Dir(path))
      ensures old(Steady()) ==> alive && ok == (path !in old(disk.tree) && IsDir(old(disk.tree), Dir(path)))
    {
      if path in disk.tree {
        return false;
      }
      if IsDir(disk.tree, Dir(path)) {
        AdditionKeepsCoherent(disk.tree, path, temp.node);
      }
      ok := Change(path, Some(temp.node), temp.synced);
    }

    /** Remove a file or an empty directory. */
    method Remove(path: Path) returns (ok: bool)
      requires Valid() && path != []
      modifies this
      ensures alive ==> old(alive)
      ensures Valid()
      ensures ok ==> disk == Flush(Put(old(disk), path, None, true), Dir(path))
      ensures !ok ==> disk == old(disk) || disk == Put(old(disk), path, None, true)
      ensures ok || disk != old(disk) ==> path in old(disk.tree) && !HasChild(old(disk.tree), path)
      ensures old(Steady()) ==> alive && ok == (path in old(disk.tree) && !HasChild(old(disk.tree), path))
    {
      if path !in disk.tree || (disk.tree[path].Directory? && HasChild(disk.tree, path)) {
        if path in disk.tree && !disk.tree[path].Directory? {
          FilesAreChildless(disk.tree, path);
        }
        return false;
      }
      if !disk.tree[path].Directory? {
        FilesAreChildless(disk.tree, path);
      }
      RemovalKeepsCoherent(disk.tree, path);
      assert IsDir(disk.tree, Dir(path));
      ok := Change(path, None, true);
    }

    method Mkdir(path: Path) returns (ok: bool)
      requires Valid() && path != []
      modifies this
      ensures alive ==> old(alive)
      ensures Valid()
      ensures ok ==> disk == Flush(Put(old(disk), path, Some(Directory), true), Dir(path))
      ensures !ok ==> disk == old(disk) || disk == Put(old(disk), path, Some(Directory), true)
      ensures ok || disk != old(disk) ==> path !in old(disk.tree) && IsDir(old(disk.tree), Dir(path))
      ensures old(Steady()) ==> alive && ok == (path !in old(disk.tree) && IsDir(old(disk.tree), Dir(path)))
    {
      if path in disk.tree {
        return false;
      }
      if IsDir(disk.tree, Dir(path)) {
        AdditionKeepsCoherent(disk.tree, path, Directory);
      }
      ok := Change(path, Some(Directory), true);
    }
  }

  // ---- what an operation at one path leaves alone ----

  /** Same visible entry, and no new fate. */
  ghost predicate Undisturbed(a: Disk, b: Disk, path: Path)
  {
    Slot(b, path) == Slot(a, path) && Fates(b, path) <= Fates(a, path)
  }

  ghost predicate SameJournal(a: Disk, b: Disk)
  {
    && b.root == a.root && b.stage == a.stage && b.stageLimbo == a.stageLimbo
    && b.box == a.box && b.sealed == a.sealed
    && b.marker == a.marker && b.markerLimbo == a.markerLimbo
  }

  /** The file is as it was, and its directories are no less final. */
  ghost predicate FileKept(a: Disk, b: Disk, path: Path)
  {
    && Undisturbed(a, b, path) && (path in a.unflushed <==> path in b.unflushed)
    && (Firm(a, Dir(path)) ==> Firm(b, Dir(path)))
  }

  predicate IsFile(tree: Tree, path: Path)
  {
    path != [] && path in tree && !tree[path].Directory?
  }

  /** All files are kept, except at some paths. */
  ghost predicate FilesKept(a: Disk, b: Disk, except: set<Path>)
  {
    forall p :: IsFile(a.tree, p) && p !in except ==> FileKept(a, b, p)
  }

  lemma FilesKeptTransitive(a: Disk, b: Disk, c: Disk, except: set<Path>)
    requires FilesKept(a, b, except) && FilesKept(b, c, except)
    ensures FilesKept(a, c, except)
  {
    forall p | IsFile(a.tree, p) && p !in except ensures FileKept(a, c, p) {
      assert FileKept(a, b, p);
      assert IsFile(b.tree, p) && FileKept(b, c, p);
    }
  }

  /** Only entries at these paths and directories above them may change. */
  ghost predicate OnlyAt(a: Disk, b: Disk, path: Path)
  {
    && SameJournal(a, b) && Coherent(b.tree) && FilesKept(a, b, {path})
    && (forall p :: p != path && !(p < path) ==> Undisturbed(a, b, p))
    && (forall p :: p < path && Slot(b, p) != Slot(a, p) ==>
          {Slot(a, p), Slot(b, p)} == {Gone, Holds(Directory)})
  }

  /** From `a` to `b` only directories above `path` may change. */
  ghost predicate OnlyAbove(a: Disk, b: Disk, path: Path)
  {
    OnlyAt(a, b, path) && Undisturbed(a, b, path) && FilesKept(a, b, {})
  }

  /** No directory is lost, and those that were there are no less final. */
  ghost predicate KeepsTree(a: Disk, b: Disk)
  {
    forall p :: IsDir(a.tree, p) ==> IsDir(b.tree, p) && Fates(b, p) <= Fates(a, p)
  }

  lemma OnlyAtTransitive(a: Disk, b: Disk, c: Disk, path: Path)
    requires OnlyAt(a, b, path) && OnlyAt(b, c, path)
    ensures OnlyAt(a, c, path)
    ensures OnlyAbove(a, b, path) && OnlyAbove(b, c, path) ==> OnlyAbove(a, c, path)
  {
    FilesKeptTransitive(a, b, c, {path});
    if OnlyAbove(a, b, path) && OnlyAbove(b, c, path) {
      FilesKeptTransitive(a, b, c, {});
    }
    forall p | p != path && !(p < path) ensures Undisturbed(a, c, p) {
      assert Undisturbed(a, b, p) && Undisturbed(b, c, p);
    }
  }

  lemma KeepsTreeTransitive(a: Disk, b: Disk, c: Disk)
    requires KeepsTree(a, b) && KeepsTree(b, c)
    ensures KeepsTree(a, c)
  {}

  // ---- which directories an operation syncs ----

  /** The directories in which something appeared or disappeared. */
  function Touched(a: Tree, b: Tree): set<Path>
  {
    set p | p in (a.Keys - b.Keys) + (b.Keys - a.Keys) :: Dir(p)
  }

  lemma ForgetTwice(limbo: map<Path, set<Fate>>, first: set<Path>, second: set<Path>)
    ensures Forget(Forget(limbo, first), second) == Forget(limbo, first + second)
  {}

  /** Syncing the directory of a changed entry forgets everything pending there. */
  lemma ForgetChanged(limbo: map<Path, set<Fate>>, path: Path, fates: set<Fate>)
    ensures Forget(limbo[path := fates], {Dir(path)}) == Forget(limbo, {Dir(path)})
  {}

  lemma TouchedMore(a: Tree, b: Tree, path: Path, node: Node)
    requires path !in a && path !in b
    ensures Touched(a, b[path := node]) == Touched(a, b) + {Dir(path)}
  {
    var old', new' := (a.Keys - b.Keys) + (b.Keys - a.Keys), (a.Keys - b[path := node].Keys) + (b[path := node].Keys - a.Keys);
    assert new' == old' + {path};
  }

  lemma TouchedLess(a: Tree, b: Tree, path: Path)
    requires path in a && path in b
    ensures Touched(a, b - {path}) == Touched(a, b) + {Dir(path)}
  {
    var old', new' := (a.Keys - b.Keys) + (b.Keys - a.Keys), (a.Keys - (b - {path}).Keys) + ((b - {path}).Keys - a.Keys);
    assert new' == old' + {path};
  }

  // ---- creating directories ----

  /** `p` is a prefix of `path` that lies below `above`. */
  predicate Within(above: Path, p: Path, path: Path) { above < p <= path }

  /** The prefixes of `path` below `above` are its child `next` and the prefixes below that. */
  lemma OneStepDown(above: Path, next: Path, path: Path)
    requires next != [] && next <= path && above <= path && |next| == |above| + 1
    ensures Dir(next) == above
    ensures forall p :: Within(above, p, path) ==> p == next || Within(next, p, path)
  {
    forall p | Within(above, p, path) ensures p == next || Within(next, p, path) {
      assert p == path[..|p|] && next == path[..|next|];
    }
  }

  /** One entry changed, and perhaps its directory synced. */
  ghost predicate Altered(a: Disk, b: Disk, path: Path, entry: Option<Node>, flushed: bool)
    requires path != []
  {
    b == a || b == Put(a, path, entry, flushed) || b == Flush(Put(a, path, entry, flushed), Dir(path))
  }

  lemma AlteredElsewhere(a: Disk, b: Disk, path: Path, entry: Option<Node>, flushed: bool)
    requires path != [] && Altered(a, b, path, entry, flushed)
    ensures forall p :: p != path ==> Undisturbed(a, b, p)
  {}

  /** Changing an entry keeps every file that is not below it. */
  lemma AlteredKeepsFile(a: Disk, b: Disk, path: Path, entry: Option<Node>, flushed: bool, file: Path)
    requires path != [] && Altered(a, b, path, entry, flushed) && file != path && !(path < file)
    ensures FileKept(a, b, file)
  {
    AlteredElsewhere(a, b, path, entry, flushed);
    if Firm(a, Dir(file)) {
      forall p | p <= Dir(file) ensures Fates(b, p) == {Holds(Directory)} {
        assert p != path && Undisturbed(a, b, p);
      }
    }
  }

  /** A directory that is new or empty is on the way to no file. */
  lemma OffTheWay(tree: Tree, file: Path, dir: Path)
    requires Coherent(tree) && IsFile(tree, file) && dir != []
    requires dir in tree ==> tree[dir].Directory? && !HasChild(tree, dir)
    ensures file != dir && !(dir < file)
  {
    if dir < file {
      AncestorsAreDirectories(tree, file, dir);
      AncestorsHaveChildren(tree, file, dir);
    }
  }

  lemma DirStepKeepsFiles(a: Disk, b: Disk, path: Path, entry: Option<Node>)
    requires Coherent(a.tree) && path != [] && Altered(a, b, path, entry, true)
    requires path in a.tree ==> a.tree[path].Directory? && !HasChild(a.tree, path)
    ensures forall except :: FilesKept(a, b, except)
  {
    hide Altered, FileKept;
    forall p | IsFile(a.tree, p) ensures FileKept(a, b, p) {
      OffTheWay(a.tree, p, path);
      AlteredKeepsFile(a, b, path, entry, true, p);
    }
  }

  lemma DirStepElsewhere(a: Disk, b: Disk, path: Path, entry: Option<Node>)
    requires path != [] && (path in a.tree ==> a.tree[path].Directory?)
    requires entry == (if path in a.tree then None else Some(Directory)) && Altered(a, b, path, entry, true)
    ensures SameJournal(a, b) && forall p :: p != path ==> Undisturbed(a, b, p)
    ensures Slot(b, path) != Slot(a, path) ==> {Slot(a, path), Slot(b, path)} == {Gone, Holds(Directory)}
  {
    AlteredElsewhere(a, b, path, entry, true);
  }

  lemma DirStep(a: Disk, b: Disk, path: Path, entry: Option<Node>, below: Path)
    requires Coherent(a.tree) && Coherent(b.tree) && path != [] && path < below
    requires path in a.tree ==> a.tree[path].Directory? && !HasChild(a.tree, path)
    requires entry == (if path in a.tree then None else Some(Directory)) && Altered(a, b, path, entry, true)
    ensures OnlyAbove(a, b, below)
    ensures path !in a.tree ==> KeepsTree(a, b)
  {
    hide Altered, SameJournal, FilesKept, Coherent, HasChild;
    DirStepKeepsFiles(a, b, path, entry);
    DirStepElsewhere(a, b, path, entry);
    assert FilesKept(a, b, {below}) && FilesKept(a, b, {});
    forall p | p < below && Slot(b, p) != Slot(a, p) ensures {Slot(a, p), Slot(b, p)} == {Gone, Holds(Directory)} {
      assert p == path || Undisturbed(a, b, p);
    }
    forall p | path !in a.tree && IsDir(a.tree, p) ensures IsDir(b.tree, p) && Fates(b, p) <= Fates(a, p) {
      assert p != path && Undisturbed(a, b, p);
    }
  }

  /** Create one directory above `below`. */
  method MakeDir(fs: FileSystem, path: Path, ghost below: Path) returns (ok: bool)
    requires fs.Valid() && path != [] && path < below && path !in fs.disk.tree
    modifies fs
    ensures fs.alive ==> old(fs.alive)
    ensures OnlyAbove(old(fs.disk), fs.disk, below) && KeepsTree(old(fs.disk), fs.disk)
    ensures fs.disk.tree == old(fs.disk.tree) || fs.disk.tree == old(fs.disk.tree)[path := Directory]
    ensures ok ==> fs.disk.tree == old(fs.disk.tree)[path := Directory]
                   && fs.disk.limbo == Forget(old(fs.disk.limbo), {Dir(path)})
    ensures old(fs.Steady()) ==> fs.alive && ok == IsDir(old(fs.disk.tree), Dir(path))
  {
    ok := fs.Mkdir(path);
    ForgetChanged(old(fs.disk.limbo), path, Fates(old(fs.disk), path));
    DirStep(old(fs.disk), fs.disk, path, Some(Directory), below);
  }

  /** All directories down to `dir` have been made, and nothing below. */
  ghost predicate MadeTo(a: Disk, b: Disk, dir: Path, path: Path, below: Path)
  {
    && dir <= path && path < below && OnlyAbove(a, b, below) && KeepsTree(a, b)
    && b.tree == WithDirs(a.tree, dir) && IsDir(b.tree, dir)
    && b.limbo == Forget(a.limbo, Touched(a.tree, b.tree))
    && (forall p :: Within(dir, p, path) ==> p !in a.tree && p !in b.tree)
  }

  /** Make the next directory on the way down. */
  method MakeNext(fs: FileSystem, ghost start: Disk, next: Path, ghost path: Path, ghost below: Path) returns (ok: bool)
    requires fs.Valid() && next != [] && next <= path && MadeTo(start, fs.disk, Dir(next), path, below)
    modifies fs
    ensures fs.alive ==> old(fs.alive)
    ensures OnlyAbove(start, fs.disk, below) && KeepsTree(start, fs.disk)
    ensures ok ==> MadeTo(start, fs.disk, next, path, below)
    ensures old(fs.Steady()) ==> fs.alive && ok
  {
    OneStepDown(Dir(next), next, path);
    assert Within(Dir(next), next, path);
    ok := MakeDir(fs, next, below);
    MadeStep(start, old(fs.disk), fs.disk, next, path, below);
  }

  lemma MadeStep(start: Disk, a: Disk, b: Disk, next: Path, path: Path, below: Path)
    requires next != [] && next <= path && MadeTo(start, a, Dir(next), path, below)
    requires next !in start.tree && next !in a.tree
    requires OnlyAbove(a, b, below) && KeepsTree(a, b)
    ensures OnlyAbove(start, b, below) && KeepsTree(start, b)
    ensures b.tree == a.tree[next := Directory] && b.limbo == Forget(a.limbo, {Dir(next)}) ==>
              MadeTo(start, b, next, path, below)
  {
    hide FilesKept, Touched, Coherent, Undisturbed, SameJournal;
    OnlyAtTransitive(start, a, b, below);
    KeepsTreeTransitive(start, a, b);
    OneStepDown(Dir(next), next, path);
    TouchedMore(start.tree, a.tree, next, Directory);
    ForgetTwice(start.limbo, Touched(start.tree, a.tree), {Dir(next)});
  }

  /** Create every missing directory down to `path`, which is above `below`. Directories that exist
      already are not synced. */
  method MkdirAll(fs: FileSystem, path: Path, ghost below: Path) returns (ok: bool)
    requires fs.Valid() && path < below
    modifies fs
    ensures fs.alive ==> old(fs.alive)
    ensures OnlyAbove(old(fs.disk), fs.disk, below) && KeepsTree(old(fs.disk), fs.disk)
    ensures ok ==> fs.disk.tree == WithDirs(old(fs.disk.tree), path) && Passable(old(fs.disk.tree), path)
    ensures ok ==> fs.disk.limbo == Forget(old(fs.disk.limbo), Touched(old(fs.disk.tree), fs.disk.tree))
    ensures old(fs.Steady()) ==> fs.alive && ok == Passable(old(fs.disk.tree), path)
  {
    var current := path;
    while !IsDir(fs.disk.tree, current)
      invariant current <= path
      invariant forall p :: Within(current, p, path) ==> p !in fs.disk.tree
      invariant unchanged(fs)
      decreases |current|
    {
      if current in fs.disk.tree {
        return false;
      }
      OneStepDown(Dir(current), current, path);
      current := Dir(current);
    }
    DirsAbove(fs.disk.tree, current, path);
    assert Forget(fs.disk.limbo, {}) == fs.disk.limbo && Touched(fs.disk.tree, fs.disk.tree) == {};
    while current != path
      invariant fs.Valid() && MadeTo(old(fs.disk), fs.disk, current, path, below)
      invariant fs.alive ==> old(fs.alive)
      invariant old(fs.Steady()) ==> fs.Steady()
      decreases |path| - |current|
    {
      OneStepDown(current, path[..|current| + 1], path);
      current := path[..|current| + 1];
      var made := MakeNext(fs, old(fs.disk), current, path, below);
      if !made {
        return false;
      }
    }
    ok := true;
  }

  /** What lies above a directory is passable. */
  lemma DirsAbove(tree: Tree, dir: Path, path: Path)
    requires Coherent(tree) && IsDir(tree, dir) && dir <= path
    requires forall p :: Within(dir, p, path) ==> p !in tree
    ensures Passable(tree, path)
  {
    forall p | p in tree && p <= path ensures tree[p].Directory? {
      if p < dir {
        AncestorsAreDirectories(tree, dir, p);
      } else {
        PrefixesAreOrdered(dir, p, path);
      }
    }
  }

  lemma PrefixesAreOrdered(p: Path, q: Path, path: Path)
    requires p <= path && q <= path
    ensures p < q || p == q || q < p
  {
    assert p == path[..|p|] && q == path[..|q|];
  }
}
