/** The durability model: what a reader of the disk sees now, and what else a crash
    may bring back. Directory entries become final when their directory is synced, file
    data when the file is synced, and the journal's name when the transaction root is. A
    directory that is lost takes everything below it along. */
module Disks {
  import opened Options
  import opened Files

  /** What a crash may leave at a path. `Torn` is a regular file with arbitrary data. */
  datatype Fate = Gone | Holds(node: Node) | Torn

  /** The names the one journal directory takes in turn. */
  datatype Stage = NoJournal | Building | Pending | Completed

  /** The transaction root directory itself. */
  datatype RootDir = Missing | Unsynced | Synced

  datatype State =
    | Absent
    | RegularFile(sha: Digest, mode: Perm, payload: string)
    | Link(sha: Digest, target: Pointer)

  datatype Mutation = Mutation(role: string, path: Path, before: State, after: State)

  datatype Intent = Intent(id: string, mutations: seq<Mutation>)

  /** The files inside the journal directory, apart from the COMMIT marker. */
  datatype Box = Box(intent: Option<Intent>, payloads: map<string, Content>)

  datatype Disk = Disk(
    tree: Tree,
    limbo: map<Path, set<Fate>>,
    unflushed: set<Path>,
    root: RootDir,
    stage: Stage,
    stageLimbo: set<Stage>,
    box: Box,
    sealed: bool,
    marker: Option<string>,
    markerLimbo: set<Option<string>>)

  /** The visible contents of a path. */
  function Slot(d: Disk, path: Path): (fate: Fate)
    ensures fate != Torn
  {
    if path == [] then Holds(Directory)
    else if path in d.tree then Holds(d.tree[path])
    else Gone
  }

  /** Everything a crash right now may leave of an entry, as long as its directory stays. */
  function Fates(d: Disk, path: Path): (fates: set<Fate>)
    ensures Slot(d, path) in fates
  {
    if path == [] then {Holds(Directory)}
    else
      {Slot(d, path)}
      + (if path in d.unflushed && path in d.tree && d.tree[path].Regular? then {Torn} else {})
      + (if path in d.limbo then d.limbo[path] else {})
  }

  /** The entry is final in its directory. */
  predicate Durable(d: Disk, path: Path)
  {
    Fates(d, path) == {Slot(d, path)}
  }

  /** The directory and all directories above it are there for good. */
  ghost predicate Firm(d: Disk, dir: Path)
  {
    forall p :: p <= dir ==> Fates(d, p) == {Holds(Directory)}
  }

  /** Everything a crash right now may leave at a path. */
  ghost function Outcomes(d: Disk, path: Path): (fates: set<Fate>)
  {
    Fates(d, path) + (if Firm(d, Dir(path)) then {} else {Gone})
  }

  /** A crash can only leave what is visible. */
  ghost predicate Lasting(d: Disk, path: Path)
  {
    Outcomes(d, path) == {Slot(d, path)}
  }

  lemma WhatCannotGoIsFirm(d: Disk, path: Path)
    ensures Gone !in Outcomes(d, path) ==> Firm(d, Dir(path))
    ensures Lasting(d, path) && Slot(d, path) != Gone ==> Firm(d, Dir(path)) && Durable(d, path)
  {}

  /** Every directory on the way down to `dir` that exists is there for good. */
  ghost predicate Footing(d: Disk, dir: Path)
  {
    forall p :: p <= dir && IsDir(d.tree, p) ==> Fates(d, p) == {Holds(Directory)}
  }

  function Stages(d: Disk): (stages: set<Stage>)
    ensures d.stage in stages
  {
    {d.stage} + d.stageLimbo + (if d.root.Synced? then {} else {NoJournal})
  }

  function Markers(d: Disk): (markers: set<Option<string>>)
    ensures d.marker in markers
  {
    {d.marker} + d.markerLimbo
  }

  /** The pending entries outside some directories. */
  function Forget(limbo: map<Path, set<Fate>>, dirs: set<Path>): map<Path, set<Fate>>
  {
    map p | p in limbo && Dir(p) !in dirs :: limbo[p]
  }

  /** Give `path` a new visible entry; the old fates stay possible until the directory is synced.
      Data that is not flushed may be torn. */
  function Put(d: Disk, path: Path, entry: Option<Node>, flushed: bool): (d': Disk)
    requires path != []
    ensures Slot(d', path) == (if entry.Some? then Holds(entry.value) else Gone)
    ensures flushed ==> Fates(d', path) == Fates(d, path) + {Slot(d', path)}
    ensures forall p :: p != path ==> Slot(d', p) == Slot(d, p) && Fates(d', p) == Fates(d, p)
  {
    d.(tree := if entry.Some? then d.tree[path := entry.value] else d.tree - {path},
       limbo := d.limbo[path := Fates(d, path)],
       unflushed := if flushed then d.unflushed - {path} else d.unflushed + {path})
  }

  /** Sync a directory: the visible entries below it are final. */
  function Flush(d: Disk, dir: Path): (d': Disk)
    ensures forall p :: Slot(d', p) == Slot(d, p) && Fates(d', p) <= Fates(d, p)
    ensures forall p :: p != [] && Dir(p) == dir && p !in d.unflushed ==> Durable(d', p)
    ensures forall p :: Durable(d, p) ==> Durable(d', p)
  {
    d.(limbo := Forget(d.limbo, {dir}))
  }

  /** Sync a file's data. */
  function FlushFile(d: Disk, path: Path): (d': Disk)
    ensures forall p :: Slot(d', p) == Slot(d, p) && Fates(d', p) <= Fates(d, p)
    ensures path !in d'.unflushed
  {
    d.(unflushed := d.unflushed - {path})
  }

  /** May a crash of `d` leave `slot` as the entry at `path`, if its directory stays? */
  predicate Survives(d: Disk, path: Path, slot: Fate)
  {
    slot in Fates(d, path)
    || (Torn in Fates(d, path) && slot.Holds? && slot.node.Regular?)
  }

  /** May a crash of `d` leave `slot` at `path`? */
  ghost predicate Possible(d: Disk, path: Path, slot: Fate)
  {
    slot in Outcomes(d, path)
    || (Torn in Outcomes(d, path) && slot.Holds? && slot.node.Regular?)
  }

  /** `d'` is a disk the next process may find after a crash of `d`. Every entry whose directory
      is still there takes one of its fates, what is below a lost directory is lost, the journal
      takes one of its names and the marker one of its values; only a sealed journal keeps its
      files. */
  predicate Crashed(d: Disk, d': Disk)
  {
    && Coherent(d'.tree)
    && (forall p :: p in d.tree.Keys + d.limbo.Keys + d'.tree.Keys && IsDir(d'.tree, Dir(p)) ==>
          Survives(d, p, Slot(d', p)))
    && d'.limbo == map[] && d'.unflushed == {}
    && (d'.root == Synced || (d'.root == Missing && d.root != Synced && d'.stage == NoJournal))
    && d'.stage in Stages(d) && d'.stageLimbo == {}
    && d'.marker in Markers(d) && d'.markerLimbo == {}
    && (d.sealed ==> d'.sealed && d'.box == d.box)
  }

  /** After a crash nothing is in flight. */
  lemma CrashSettles(d: Disk, d': Disk)
    requires Crashed(d, d')
    ensures forall p :: Lasting(d', p) && Possible(d, p, Slot(d', p))
    ensures Stages(d') <= Stages(d) && Markers(d') <= Markers(d)
  {
    forall p ensures Lasting(d', p) && Possible(d, p, Slot(d', p)) {
      CrashLeavesOutcome(d, d', p);
      if p in d'.tree {
        DirectoriesAreFirm(d', p);
      }
    }
  }

  /** On a settled disk everything that exists sits in directories that are there for good. */
  lemma DirectoriesAreFirm(d: Disk, path: Path)
    requires Coherent(d.tree) && d.limbo == map[] && d.unflushed == {} && path in d.tree
    ensures Firm(d, Dir(path))
  {
    forall p | p <= Dir(path) ensures Fates(d, p) == {Holds(Directory)} {
      AncestorsAreDirectories(d.tree, path, p);
    }
  }

  /** An entry that is gone because a directory above it is gone is among the outcomes. */
  lemma {:induction false} CrashLeavesOutcome(d: Disk, d': Disk, path: Path)
    requires Crashed(d, d')
    ensures Possible(d, path, Slot(d', path))
    decreases |path|
  {
    if path == [] || IsDir(d'.tree, Dir(path)) {
      if path !in d.tree.Keys + d.limbo.Keys + d'.tree.Keys {
        assert Slot(d', path) == Slot(d, path);
      }
      assert Survives(d, path, Slot(d', path));
    } else {
      assert Slot(d', path) == Gone;
      CrashLeavesOutcome(d, d', Dir(path));
      assert Slot(d', Dir(path)) != Holds(Directory);
      NotFirm(d, Dir(path), Slot(d', Dir(path)));
    }
  }

  lemma FirmAbove(d: Disk, dir: Path)
    requires Firm(d, dir)
    ensures Firm(d, Dir(dir))
  {}

  lemma NotFirm(d: Disk, dir: Path, slot: Fate)
    requires Possible(d, dir, slot) && slot != Holds(Directory)
    ensures !Firm(d, dir)
  {
    if Firm(d, dir) {
      FirmAbove(d, dir);
    }
  }
}
