/** The place of the backup of an original: made before the transaction, without touching what the
    manifest says. */
module Originals {
  import opened Options
  import opened Names
  import opened Files
  import opened Disks
  import opened Views
  import opened Journal
  import opened DurableFs
  import opened Converge
  import opened Recovery
  import opened Capture
  import opened Transactions
  import opened Managed
  import opened ManifestFile
  import opened Commands
  import opened StoreDirs
  import opened Tools

  /** Where the original of a tool is backed up. */
  function Place(store: Path, name: string, file: string): (path: Path)
    ensures path != [] && Dir(path) == store + [name, ORIGINAL]
  {
    store + [name, ORIGINAL] + [file]
  }

  /** The directories above the backup have been made. */
  ghost predicate Laid(a: Disk, b: Disk, store: Path, name: string, file: string)
  {
    Paved(a, b, store, [name, ORIGINAL]) && OnlyAbove(a, b, Place(store, name, file)) && KeepsTree(a, b)
  }

  /** Make the directories above the backup. Whatever happens, the disk stays at rest. */
  method PrepareOriginalPath(fs: FileSystem, store: Path, name: string, ghost file: string,
                             ghost manifest: Path, ghost ledger: Ledger)
    returns (ok: bool)
    requires Idle(fs.disk, manifest, ledger) && Apart(Place(store, name, file), manifest)
    modifies fs
    ensures fs.alive ==> old(fs.alive)
    ensures Idle(fs.disk, manifest, ledger)
    ensures OnlyAbove(old(fs.disk), fs.disk, Place(store, name, file)) && KeepsTree(old(fs.disk), fs.disk)
    ensures ok ==> Laid(old(fs.disk), fs.disk, store, name, file) && Pavable(old(fs.disk.tree), store, [name, ORIGINAL])
    ensures old(fs.Steady()) ==> fs.alive && ok == Pavable(old(fs.disk.tree), store, [name, ORIGINAL])
  {
    ok := StoreDir(fs, store, [name, ORIGINAL], Place(store, name, file));
    IdleStays(old(fs.disk), fs.disk, manifest, ledger, Place(store, name, file));
  }

  // ---- what stays ----

  lemma LastingStays(a: Disk, b: Disk, path: Path, below: Path)
    requires OnlyAbove(a, b, below) && KeepsTree(a, b) && path != [] && !(path < below) && Lasting(a, path)
    ensures Lasting(b, path) && Slot(b, path) == Slot(a, path)
  {
    assert Undisturbed(a, b, path);
    if Firm(a, Dir(path)) {
      FirmKept(a, b, Dir(path));
    }
  }

  /** Making directories leaves everything that is there for good there for good. */
  lemma StandingStays(a: Disk, b: Disk, manifest: Path, below: Path)
    requires manifest != [] && OnlyAbove(a, b, below)
    ensures Extends(Standing(a, manifest), Standing(b, manifest))
  {
    forall p | p in ForGood(a) ensures p in ForGood(b) && ForGood(b)[p] == ForGood(a)[p] {
      KeptForGood(a, b, p);
    }
  }

  lemma IdleStays(a: Disk, b: Disk, manifest: Path, ledger: Ledger, below: Path)
    requires Idle(a, manifest, ledger) && OnlyAbove(a, b, below) && KeepsTree(a, b) && Apart(below, manifest)
    ensures Idle(b, manifest, ledger)
  {
    LastingStays(a, b, manifest, below);
    StandingStays(a, b, manifest, below);
    ExtendedVouches(Standing(a, manifest), Standing(b, manifest), ledger);
  }

  /** A settled path stays settled: what is made on the way to it is final. */
  lemma SettledStays(a: Disk, b: Disk, store: Path, name: string, file: string, path: Path)
    requires Coherent(a.tree) && Laid(a, b, store, name, file)
    requires path != [] && !(path < Place(store, name, file)) && Settled(a, path)
    ensures Settled(b, path)
  {
    LastingStays(a, b, path, Place(store, name, file));
    PavedLast(a, b, store, [name, ORIGINAL]);
    forall p | p <= Dir(path) && IsDir(b.tree, p) ensures Fates(b, p) == {Holds(Directory)} {
      if IsDir(a.tree, p) {
        assert Fates(b, p) <= Fates(a, p);
      } else {
        MadeIsFinal(a, b, store + [name, ORIGINAL], Levels(store, [name, ORIGINAL]), p);
      }
    }
  }

  lemma MadeIsFinal(a: Disk, b: Disk, dir: Path, more: set<Path>, p: Path)
    requires Passable(a.tree, dir) && b.tree == WithDirs(a.tree, dir)
    requires b.limbo == Forget(a.limbo, Touched(a.tree, b.tree) + more)
    requires !IsDir(a.tree, p) && IsDir(b.tree, p)
    ensures Fates(b, p) == {Holds(Directory)}
  {
    WithDirsAdds(a.tree, dir);
    assert p in b.tree && p !in a.tree;
    assert Dir(p) in Touched(a.tree, b.tree);
  }

  /** And the place of the backup is settled now, however the directories above it were. */
  lemma PlaceIsSettled(a: Disk, b: Disk, store: Path, name: string, file: string)
    requires Coherent(a.tree) && Laid(a, b, store, name, file)
    requires Footing(a, store) && Durable(a, Place(store, name, file))
    ensures Settled(b, Place(store, name, file))
  {
    PavedIsSettled(a, b, store, [name, ORIGINAL], file);
    assert Undisturbed(a, b, Place(store, name, file));
  }

  /** The manifest can still be saved. */
  lemma ReadyStays(a: Disk, b: Disk, manifest: Path, records: seq<Record>, below: Path)
    requires OnlyAbove(a, b, below) && KeepsTree(a, b) && Roomy(manifest, records, below) && Ready(a, manifest, records)
    ensures Ready(b, manifest, records)
  {
    hide Decoded, Valid, FilesKept;
    BackupIsBeside(manifest);
    assert Undisturbed(a, b, manifest) && Undisturbed(a, b, Bak(manifest));
  }

  // ---- what the checks see ----

  /** Files, and where directories could be, are as before; new entries lie above this place. */
  ghost predicate SameSight(a: Tree, b: Tree, place: Path)
  {
    && Seen(b) == Seen(a) && a.Keys <= b.Keys
    && (forall p :: IsFile(a, p) ==> p in b && b[p] == a[p])
    && (forall p :: Passable(a, p) ==> Passable(b, p))
    && (forall p :: !(p < place) && p !in a ==> p !in b)
    && (forall p :: IsDir(a, p) ==> IsDir(b, p))
  }

  lemma LaidLooksTheSame(a: Disk, b: Disk, store: Path, name: string, file: string)
    requires Laid(a, b, store, name, file)
    ensures SameSight(a.tree, b.tree, Place(store, name, file))
  {
    hide OnlyAbove, KeepsTree, Passable, SameSight;
    PavedLast(a, b, store, [name, ORIGINAL]);
    MadeLooksTheSame(a.tree, store + [name, ORIGINAL], Place(store, name, file));
  }

  lemma MadeLooksTheSame(tree: Tree, dir: Path, place: Path)
    requires Passable(tree, dir) && place != [] && Dir(place) == dir
    ensures SameSight(tree, WithDirs(tree, dir), place)
  {
    WithDirsAdds(tree, dir);
  }

  lemma QuietStays(a: Disk, b: Disk, manifest: Path, records: seq<Record>, place: Path)
    requires SameSight(a.tree, b.tree, place) && SameJournal(a, b) && Coherent(b.tree)
    requires Roomy(manifest, records, place) && Quiet(a, manifest, records)
    ensures Quiet(b, manifest, records)
  {
    hide Decoded, Valid;
    assert manifest in b.tree ==> manifest in a.tree && b.tree[manifest] == a.tree[manifest];
    assert Bak(manifest) in b.tree ==> Bak(manifest) in a.tree && b.tree[Bak(manifest)] == a.tree[Bak(manifest)];
  }

  lemma BackUpStays(a: Disk, b: Disk, backup: Backup, sha: Digest)
    requires SameSight(a.tree, b.tree, backup.path)
    ensures CanBackUp(a, backup, sha) ==> CanBackUp(b, backup, sha)
    ensures backup.path in a.tree ==> backup.path in b.tree
  {}

  lemma CapturableStays(a: Tree, b: Tree, place: Path, path: Path)
    requires SameSight(a, b, place) && Capturable(a, path) && Read(a, path).Some?
    ensures Capturable(b, path) && Read(b, path) == Read(a, path)
  {}

  lemma AdoptableStays(a: Disk, b: Disk, manifest: Path, records: seq<Record>, name: string, path: Path, backup: Backup)
    requires SameSight(a.tree, b.tree, backup.path) && manifest != []
    requires Adoptable(a, manifest, records, name, path, backup)
    ensures Adoptable(b, manifest, records, name, path, backup)
  {
    hide SameSight, Capturable, CanBackUp;
    CapturableStays(a.tree, b.tree, backup.path, path);
    BackUpStays(a, b, backup, Read(a.tree, path).value);
    SightIsSeen(a.tree, b.tree, backup.path);
  }

  lemma SightIsSeen(a: Tree, b: Tree, place: Path)
    requires SameSight(a, b, place)
    ensures Seen(b) == Seen(a)
  {}

  lemma ActivatableStays(a: Disk, b: Disk, records: seq<Record>, name: string, source: Path, sha: Digest, place: Path)
    requires SameSight(a.tree, b.tree, place) && Activatable(a, records, name, source, sha)
    ensures Activatable(b, records, name, source, sha)
  {
    CapturableStays(a.tree, b.tree, place, records[Find(records, name)].path);
  }

  lemma StraightStays(a: Disk, b: Disk, manifest: Path, path: Path, place: Path)
    requires SameSight(a.tree, b.tree, place) && manifest != [] && path != [] && Straight(a, manifest, path)
    ensures Straight(b, manifest, path)
  {
    if path in b.tree && b.tree[path].Symlink? {
      assert path in Seen(b.tree) && Seen(b.tree)[path] == EntryOf(b.tree[path]);
      assert Seen(a.tree)[path] == EntryOf(a.tree[path]);
    }
  }

  lemma PlaceIsThere(a: Disk, b: Disk, store: Path, name: string, file: string)
    requires Laid(a, b, store, name, file)
    ensures IsDir(b.tree, Dir(Place(store, name, file)))
  {
    PavedLast(a, b, store, [name, ORIGINAL]);
    WithDirsAdds(a.tree, store + [name, ORIGINAL]);
  }
}
