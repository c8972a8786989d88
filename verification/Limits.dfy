/** Two runs in which nothing fails, and a record of the manifest is not what is on the disk; and one in which a
    crash leaves a journal that no attempt can resolve. */
module Limits {
  import opened Options
  import opened Files
  import opened Disks
  import opened Views
  import opened Journal
  import opened DurableFs
  import opened EmptyParents
  import opened JournalDir
  import opened Recovery
  import opened Capture
  import opened Transactions
  import opened Managed
  import opened Reversals
  import opened ManifestFile
  import opened Additions
  import opened Commands
  import opened Activate
  import opened Tools

  /** Two tools that are vouched for, and reading the second one comes across the file of the first, which can
      be upgraded. */
  ghost predicate Lends(d: Disk, manifest: Path, before: Ledger, foo: Record, bar: Record, source: Path, sha: Digest,
                        backup: Backup)
    requires manifest != []
  {
    && Idle(d, manifest, before) && Settled(d, manifest) && Quiet(d, manifest, before.records)
    && Find(before.records, foo.name) < |before.records| && foo == before.records[Find(before.records, foo.name)]
    && Settled(d, foo.path) && CanSwitch(d, foo, source, sha)
    && Roomy(manifest, before.records, backup.path) && Settled(d, backup.path) && CanBackUp(d, backup, foo.sha)
    && bar in before.records && bar.name != foo.name && bar.sha != sha
    && bar.name in before.reach && foo.path in before.reach[bar.name]
  }

  /** Upgrading a tool through whose file another tool is read leaves a clean disk on which the manifest is
      wrong about that other tool. */
  method LinkedUpgrade(fs: FileSystem, places: Places, manifest: Path, m: Manifest, id: string,
                       foo: Record, bar: Record, source: Path, sha: Digest, backup: Backup, ghost before: Ledger)
    returns (ghost after: Ledger)
    requires fs.Steady() && ValidId(id) && m.schema == CURRENT_SCHEMA && m.records == before.records && manifest != []
    requires Lends(fs.disk, manifest, before, foo, bar, source, sha, backup)
    modifies fs, m`records
    ensures Idle(fs.disk, manifest, after) && bar in after.records
    ensures Read(fs.disk.tree, bar.path) == Some(sha) != Some(bar.sha)
  {
    var ok;
    ghost var intent;
    ok, intent, after := Upgrade(fs, places, manifest, m, id, foo.name, source, sha, backup, before);
    ConsistentAtRest(fs.disk, intent, manifest, after, after);
    SwitchedHas(before, foo, sha, bar);
    ForGoodIsSeen(fs.disk);
    ExtendedReads(Standing(fs.disk, manifest), Seen(fs.disk.tree), bar.path, MAX_LINKS);
  }

  /** A new tool can be adopted, but the data of its file has not reached the disk. */
  ghost predicate Unsynced(d: Disk, manifest: Path, before: Ledger, name: string, path: Path, backup: Backup)
    requires manifest != []
  {
    && Idle(d, manifest, before) && Settled(d, manifest) && Quiet(d, manifest, before.records)
    && Roomy(manifest, before.records, backup.path) && Settled(d, backup.path)
    && Roomy(manifest, before.records, path) && Apart(backup.path, path)
    && name != "" && Adoptable(d, manifest, before.records, name, path, backup)
    && IsFile(d.tree, path) && d.tree[path].Regular? && path in d.unflushed
  }

  /** Adopting a file whose data has not reached the disk leaves a clean disk on which a crash makes the
      manifest wrong about it. */
  method UnflushedAdoption(fs: FileSystem, places: Places, manifest: Path, m: Manifest, id: string,
                           name: string, path: Path, backup: Backup, ghost before: Ledger)
    returns (ghost entry: Record, ghost after: Ledger, ghost found: Disk)
    requires fs.Steady() && ValidId(id) && m.schema == CURRENT_SCHEMA && m.records == before.records && manifest != []
    requires Unsynced(fs.disk, manifest, before, name, path, backup)
    modifies fs, m`records
    ensures entry.name == name && entry.path == path && Some(entry.sha) == old(Read(fs.disk.tree, path))
    ensures Idle(fs.disk, manifest, after) && entry in after.records
    ensures Crashed(fs.disk, found) && Idle(found, manifest, after) && Read(found.tree, path) != Some(entry.sha)
  {
    hide Idle, Honest, Consistent, Settled, Quiet, Added, Crashed, KnownTrail, Roomy, Ready;
    entry := NewEntry(fs.disk.tree, name, path);
    var ok;
    ghost var intent;
    ok, intent, after := Adopt(fs, places, manifest, m, id, name, path, backup, before);
    found := TornAfterAdoption(old(fs.disk), fs.disk, intent, manifest, before, after, name, path, backup);
  }

  lemma TornAfterAdoption(a: Disk, b: Disk, intent: Intent, manifest: Path, before: Ledger, after: Ledger,
                          name: string, path: Path, backup: Backup)
    returns (found: Disk)
    requires manifest != [] && Unsynced(a, manifest, before, name, path, backup)
    requires Adoption(a, manifest, before, after, name, path) && Added(a, b, {backup.path, manifest, Bak(manifest)})
    requires Done(b, intent, manifest, after) && Stages(b) == {NoJournal}
    ensures Idle(b, manifest, after) && NewEntry(a.tree, name, path) in after.records
    ensures Crashed(b, found) && Idle(found, manifest, after)
    ensures Read(found.tree, path) != Some(NewEntry(a.tree, name, path).sha)
  {
    hide Idle, Honest, Consistent, Settled, Quiet, Crashed, KnownTrail, Ready, Touched;
    ConsistentAtRest(b, intent, manifest, after, after);
    assert after.records[|after.records| - 1] == NewEntry(a.tree, name, path);
    StillUnflushed(a, b, backup.path, manifest, path);
    var entry := NewEntry(a.tree, name, path);
    TornByCrash(b, path, entry.sha);
    found := Tearing(b, path, entry.sha);
    CrashKeepsIdle(b, found, manifest, after);
  }

  lemma StillUnflushed(a: Disk, b: Disk, backup: Path, manifest: Path, path: Path)
    requires manifest != [] && Added(a, b, {backup, manifest, Bak(manifest)}) && path !in {backup, manifest, Bak(manifest)}
    requires IsFile(a.tree, path) && path in a.unflushed
    ensures IsFile(b.tree, path) && b.tree[path] == a.tree[path] && path in b.unflushed && Coherent(b.tree)
  {}

  /** What a crash leaves that tears a file, so that it has neither its content nor another one. */
  function Tearing(d: Disk, path: Path, other: Digest): Disk
    requires path in d.tree && d.tree[path].Regular?
  {
    d.(tree := d.tree[path := Regular(Unlike(d.tree[path].data, other), d.tree[path].mode)],
       limbo := map[], unflushed := {}, root := Synced, stageLimbo := {}, markerLimbo := {})
  }

  lemma TornByCrash(d: Disk, path: Path, other: Digest)
    requires Coherent(d.tree) && IsFile(d.tree, path) && d.tree[path].Regular? && path in d.unflushed
    ensures var found := Tearing(d, path, other);
            && Crashed(d, found) && IsFile(found.tree, path) && found.tree[path].Regular?
            && Sha(found.tree[path].data) !in {Sha(d.tree[path].data), other}
            && Read(found.tree, path) == Some(Sha(found.tree[path].data))
            && found.stage == d.stage && found.box == d.box
  {
    var found := Tearing(d, path, other);
    forall p | p in found.tree ensures p != [] && IsDir(found.tree, Dir(p)) {
      assert p in d.tree && IsDir(d.tree, Dir(p));
    }
    assert Torn in Fates(d, path);
    forall p | p in d.tree.Keys + d.limbo.Keys + found.tree.Keys ensures Survives(d, p, Slot(found, p)) {
      assert p != path ==> Slot(found, p) == Slot(d, p);
    }
  }

  /** Other data than this, and with another digest than that. */
  function Unlike(data: Content, other: Digest): (unlike: Content)
    ensures unlike != data && Sha(unlike) != other
  {
    if Binary("") != data && Sha(Binary("")) != other then Binary("")
    else if Binary("?") != data && Sha(Binary("?")) != other then Binary("?")
    else Binary("??")
  }

  /** A tool can be upgraded, but the data of its live file has not reached the disk. */
  ghost predicate Unsteady(d: Disk, manifest: Path, before: Ledger, e: Record, source: Path, sha: Digest)
    requires manifest != []
  {
    && Idle(d, manifest, before) && Quiet(d, manifest, before.records)
    && Find(before.records, e.name) < |before.records| && e == before.records[Find(before.records, e.name)]
    && CanSwitch(d, e, source, sha)
    && IsFile(d.tree, e.path) && d.tree[e.path].Regular? && e.path in d.unflushed
  }

  /** When the machine stops after such an upgrade has published its journal, the live file may have neither its
      old nor its new content, and then no attempt to recover succeeds, although nothing fails any more. */
  method StrandedUpgrade(fs: FileSystem, places: Places, manifest: Path, records: seq<Record>, id: string, e: Record,
                         source: Path, sha: Digest, ghost before: Ledger)
    returns (ok: bool, ghost intent: Intent)
    requires fs.Steady() && ValidId(id) && manifest != [] && records == before.records
    requires Unsteady(fs.disk, manifest, before, e, source, sha)
    modifies fs
    ensures !ok && fs.Valid() && fs.disk.stage == Pending && fs.disk.box.intent == Some(intent) && !AllKnown(fs.disk, intent)
    ensures Read(fs.disk.tree, e.path) !in {Some(e.sha), Some(sha)}
  {
    hide Idle, Quiet, CanSwitch, Crashed, AllKnown, Ready, Sha, SwitchPlan, Feasible, Prepared, AllCaptured, Calm, Tearing,
         Completes, Finished, Safe, Find, Unsteady;
    var plan := SwitchPlan(manifest, Current(Putting(records, e.(sha := sha))), e, source, sha, None);
    CanBeOpened(fs.disk, manifest, before, e, source, sha);
    var began, tx;
    began, tx, intent := Begin(fs, places, id, plan.specs);
    TornUpgrade(old(fs.disk), fs.disk, manifest, before, e, source, sha, plan, intent);
    var found := Tearing(fs.disk, e.path, sha);
    fs.Reboot(found);
    ok := Recover(fs, places, intent);
    SameIsUnknown(found, fs.disk, intent);
  }

  lemma SmoothIsFeasible(d: Disk, manifest: Path, plan: Plan, records: seq<Record>)
    requires manifest != [] && Smooth(d, manifest, plan, records)
    ensures d.stage == NoJournal && Coherent(d.tree) && Feasible(d, plan.specs)
  {
    hide Feasible, AllForeseen, AllApplicable, Writable, Coherent;
  }

  lemma UnsteadyCanSwitch(d: Disk, manifest: Path, before: Ledger, e: Record, source: Path, sha: Digest)
    requires manifest != [] && Unsteady(d, manifest, before, e, source, sha)
    ensures e.path != [] && Apart(e.path, manifest) && CanSwitch(d, e, source, sha)
    ensures d.stage == NoJournal && Coherent(d.tree) && Writable(d.tree, manifest)
    ensures Valid(Putting(before.records, e.(sha := sha)))
  {
    hide CanSwitch, Writable, Valid, Putting, Vouches, Lasting, Describes;
    NewDigestIsValid(before.records, e, sha);
    assert e in before.records;
  }

  lemma CanBeOpened(d: Disk, manifest: Path, before: Ledger, e: Record, source: Path, sha: Digest)
    requires manifest != [] && Unsteady(d, manifest, before, e, source, sha)
    ensures var plan := SwitchPlan(manifest, Current(Putting(before.records, e.(sha := sha))), e, source, sha, None);
            && d.stage == NoJournal && Coherent(d.tree) && Feasible(d, plan.specs)
            && Spec("live", e.path, WantFile(source)) in plan.specs
  {
    hide Unsteady, CanSwitch, Smooth, Writable, Valid, Find, Putting, Feasible, Coherent;
    var after := Putting(before.records, e.(sha := sha));
    var plan := SwitchPlan(manifest, Current(after), e, source, sha, None);
    assert plan.specs[0] == Spec("live", e.path, WantFile(source));
    UnsteadyCanSwitch(d, manifest, before, e, source, sha);
    SwitchIsSmooth(d, manifest, e, source, sha, after);
    SmoothIsFeasible(d, manifest, plan, after);
  }

  lemma SameIsUnknown(a: Disk, b: Disk, intent: Intent)
    requires SameFiles(a, b) && SameContents(a, b)
    ensures AllKnown(b, intent) <==> AllKnown(a, intent)
  {}

  lemma TornUpgrade(a: Disk, b: Disk, manifest: Path, before: Ledger, e: Record, source: Path, sha: Digest, plan: Plan,
                    intent: Intent)
    requires manifest != [] && Unsteady(a, manifest, before, e, source, sha)
    requires SameFiles(a, b) && Prepared(b, intent) && AllCaptured(b, plan.specs, intent)
    requires Spec("live", e.path, WantFile(source)) in plan.specs
    ensures e.path in b.tree && b.tree[e.path].Regular?
    ensures var found := Tearing(b, e.path, sha);
            && Crashed(b, found) && found.stage == Pending && found.box.intent == Some(intent) && !AllKnown(found, intent)
            && Read(found.tree, e.path) !in {Some(e.sha), Some(sha)}
  {
    hide Honest, AllCaptured, Crashed, ValidIntent;
    var found := Tearing(b, e.path, sha);
    TornByCrash(b, e.path, sha);
    var m := MutationOf(b, plan.specs, intent, Spec("live", e.path, WantFile(source)));
    IsUnknown(b, found, e, source, sha, m);
  }

  lemma IsUnknown(b: Disk, found: Disk, e: Record, source: Path, sha: Digest, m: Mutation)
    requires Captured(b, Spec("live", e.path, WantFile(source)), m) && CanSwitch(b, e, source, sha)
    requires IsFile(b.tree, e.path) && b.tree[e.path].Regular?
    requires IsFile(found.tree, e.path) && found.tree[e.path].Regular?
    requires Sha(found.tree[e.path].data) !in {Sha(b.tree[e.path].data), sha}
    ensures !Known(found, m) && e.sha == Sha(b.tree[e.path].data)
  {
    ArtifactReads(b, source, sha);
  }

  // ---- such disks exist ----

  const HOME: Path := ["bin"]
  const FOO: Path := ["bin", "foo"]
  const BAR: Path := ["bin", "bar"]
  const NEW: Path := ["store", "foo"]
  const ORIGINAL: Path := ["store", "original"]
  const MANIFEST_PATH: Path := ["store", "manifest"]
  const EXECUTABLE: Perm := 0x1ED // 0755

  /** A disk at rest: a file and a link to it, an artifact, and a manifest of these records. */
  function Sample(records: seq<Record>, unflushed: set<Path>): Disk
  {
    Disk(map[HOME := Directory, ["store"] := Directory,
             FOO := Regular(Binary("old"), EXECUTABLE), BAR := Symlink(Pointer("foo", FOO)),
             NEW := Regular(Binary("new"), EXECUTABLE),
             MANIFEST_PATH := Regular(Current(records), DEFAULT_MODE)],
         map[], unflushed, Synced, NoJournal, {}, Box(None, map[]), false, None, {})
  }

  /** The two tools of the first run. */
  function Linked(): Ledger
  {
    Ledger([Record("foo", FOO, Sha(Binary("old"))), Record("bar", BAR, Sha(Binary("old")))],
           map["foo" := {FOO}, "bar" := {BAR, FOO}])
  }

  lemma SampleDirs()
    ensures Dir(HOME) == [] && Dir(["store"]) == [] && Dir(FOO) == HOME && Dir(BAR) == HOME
    ensures Dir(NEW) == ["store"] && Dir(ORIGINAL) == ["store"] && Dir(MANIFEST_PATH) == ["store"]
    ensures Bak(MANIFEST_PATH) == ["store", "manifest.bak"]
  {
    assert "manifest" + ".bak" == "manifest.bak";
  }

  lemma SampleIsCoherent(records: seq<Record>, unflushed: set<Path>)
    ensures Coherent(Sample(records, unflushed).tree)
  {
    var tree := Sample(records, unflushed).tree;
    SampleDirs();
    forall p | p in tree ensures p != [] && IsDir(tree, Dir(p)) {
      assert p in {HOME, ["store"], FOO, BAR, NEW, MANIFEST_PATH};
    }
  }

  lemma OneDeep(dir: Path, p: Path)
    requires |dir| <= 1 && p <= dir
    ensures p == [] || p == dir
  {}

  /** On such a disk everything but unflushed data has reached the disk. */
  lemma SampleIsSettled(records: seq<Record>, unflushed: set<Path>, path: Path)
    requires path in {FOO, BAR, NEW, ORIGINAL, MANIFEST_PATH} && path !in unflushed && unflushed <= {FOO}
    ensures Settled(Sample(records, unflushed), path)
    ensures path != ORIGINAL ==> path in ForGood(Sample(records, unflushed))
  {
    SampleDirs();
    var d := Sample(records, unflushed);
    forall p | p <= Dir(path) ensures Fates(d, p) == {Holds(Directory)} {
      OneDeep(Dir(path), p);
    }
    assert Firm(d, Dir(path));
  }

  /** The manifest of such a disk and the paths of its tools do not nest. */
  lemma SampleLayout()
    ensures Layout(MANIFEST_PATH, Linked().records)
    ensures forall p :: p in {FOO, BAR, ORIGINAL} ==> p != [] && Apart(p, MANIFEST_PATH) && Apart(p, Bak(MANIFEST_PATH))
    ensures Apart(ORIGINAL, FOO) && Apart(ORIGINAL, BAR)
  {
    SampleDirs();
    assert FOO[0] != MANIFEST_PATH[0] && BAR[0] != MANIFEST_PATH[0] && ORIGINAL[1] != MANIFEST_PATH[1];
    assert ["store", "manifest.bak"][1] != ORIGINAL[1];
    assert FOO[1] != BAR[1] && ORIGINAL[0] != FOO[0] && ORIGINAL[0] != BAR[0];
  }

  lemma LinkedIsHonest()
    ensures Honest(Sample(Linked().records, {}), MANIFEST_PATH, Linked())
  {
    hide Sample, Linked, Layout, Standing, Vouches, Lasting, Describes;
    SampleLayout();
    SampleIsKept(Linked().records, {});
    LinkedReads(Standing(Sample(Linked().records, {}), MANIFEST_PATH));
  }

  lemma SampleIsKept(records: seq<Record>, unflushed: set<Path>)
    requires unflushed <= {FOO}
    ensures var d := Sample(records, unflushed);
            && Lasting(d, MANIFEST_PATH) && Describes(Slot(d, MANIFEST_PATH), records)
            && var view := Standing(d, MANIFEST_PATH);
               && BAR in view && view[BAR] == Leads(FOO)
               && (FOO !in unflushed ==> FOO in view && view[FOO] == Plain(Sha(Binary("old"))))
  {
    hide Lasting, Footing;
    SampleDirs();
    SampleIsSettled(records, unflushed, MANIFEST_PATH);
    SampleIsSettled(records, unflushed, BAR);
    if FOO !in unflushed {
      SampleIsSettled(records, unflushed, FOO);
    }
    assert BAR[0] != MANIFEST_PATH[0] && FOO[0] != MANIFEST_PATH[0];
  }

  lemma LinkedReads(view: View)
    requires FOO in view && BAR in view && view[FOO] == Plain(Sha(Binary("old"))) && view[BAR] == Leads(FOO)
    ensures Vouches(view, Linked())
  {
    assert FOO != BAR by { assert FOO[1] != BAR[1]; }
    var foo, bar := Linked().records[0], Linked().records[1];
    assert Follow(view, FOO, 39) == Some(foo.sha) && Trail(view, FOO, 39) == {FOO};
    assert Agrees(view, foo) && Trail(view, FOO, MAX_LINKS) == {FOO};
    assert Agrees(view, bar) && Trail(view, BAR, MAX_LINKS) == {BAR, FOO};
  }

  lemma SampleIsQuiet(records: seq<Record>, unflushed: set<Path>)
    requires Valid(records)
    ensures Quiet(Sample(records, unflushed), MANIFEST_PATH, records)
    ensures Passable(Sample(records, unflushed).tree, HOME) && Passable(Sample(records, unflushed).tree, ["store"])
  {
    SampleDirs();
    SampleIsCoherent(records, unflushed);
    var tree := Sample(records, unflushed).tree;
    DirIsPassable(tree, HOME);
    DirIsPassable(tree, ["store"]);
    assert ["store", "manifest.bak"] !in tree;
  }

  lemma LinkedIsValid()
    ensures Valid(Linked().records)
  {
    assert FOO[1] != BAR[1] && "foo" != "bar";
  }

  lemma FooCanBeSwitched()
    ensures var d, foo := Sample(Linked().records, {}), Linked().records[0];
            && Find(Linked().records, "foo") == 0 && CanSwitch(d, foo, NEW, Sha(Binary("new")))
            && CanBackUp(d, Backup(ORIGINAL, FOO), foo.sha)
  {
    SampleDirs();
    LinkedIsValid();
    SampleIsQuiet(Linked().records, {});
    FoundAt(Linked().records, "foo", 0);
    assert ORIGINAL !in Sample(Linked().records, {}).tree by {
      assert ORIGINAL[1] != NEW[1] && ORIGINAL[1] != MANIFEST_PATH[1];
    }
  }

  lemma LinkedBorrows()
    ensures var foo, bar := Linked().records[0], Linked().records[1];
            && bar in Linked().records && bar.name != foo.name && bar.sha != Sha(Binary("new")) && foo.path == FOO
            && bar.name in Linked().reach && FOO in Linked().reach[bar.name] && foo.name == "foo"
    ensures Roomy(MANIFEST_PATH, Linked().records, ORIGINAL)
  {
    SampleLayout();
    assert Binary("old") != Binary("new") by { assert "old"[0] != "new"[0]; }
  }

  /** The first run exists. */
  lemma LinkedToolsExist()
    ensures var d, foo, bar := Sample(Linked().records, {}), Linked().records[0], Linked().records[1];
            Lends(d, MANIFEST_PATH, Linked(), foo, bar, NEW, Sha(Binary("new")), Backup(ORIGINAL, FOO))
  {
    hide Honest, Settled, Quiet, CanSwitch, CanBackUp, Sample, Valid, Layout, Find, Linked, Roomy, Stages;
    SampleIsCoherent(Linked().records, {});
    LinkedIsHonest();
    LinkedIsValid();
    SampleIsQuiet(Linked().records, {});
    SampleIsSettled(Linked().records, {}, MANIFEST_PATH);
    SampleIsSettled(Linked().records, {}, FOO);
    SampleIsSettled(Linked().records, {}, ORIGINAL);
    FooCanBeSwitched();
    LinkedBorrows();
    SampleAtRest(Linked().records, {});
  }

  lemma SampleAtRest(records: seq<Record>, unflushed: set<Path>)
    ensures Pending !in Stages(Sample(records, unflushed))
  {}

  lemma NothingIsHonest()
    ensures Honest(Sample([], {FOO}), MANIFEST_PATH, Ledger([], map[]))
  {
    hide Sample, Lasting, Describes;
    SampleIsKept([], {FOO});
  }

  lemma FooIsReadable()
    ensures Readable(Sample([], {FOO}), MANIFEST_PATH, FOO, Sha(Binary("old")))
  {
    SampleDirs();
    var view := Seen(Sample([], {FOO}).tree);
    assert FOO in view && view[FOO] == Plain(Sha(Binary("old")));
    assert FOO[0] != MANIFEST_PATH[0] && FOO[0] != Bak(MANIFEST_PATH)[0];
  }

  lemma FooCanBeBackedUp()
    ensures CanBackUp(Sample([], {FOO}), Backup(ORIGINAL, FOO), Sha(Binary("old")))
  {
    SampleDirs();
    SampleIsQuiet([], {FOO});
    assert ORIGINAL !in Sample([], {FOO}).tree by {
      assert ORIGINAL[1] != NEW[1] && ORIGINAL[1] != MANIFEST_PATH[1];
    }
  }

  lemma FooCanBeAdopted()
    ensures Adoptable(Sample([], {FOO}), MANIFEST_PATH, [], "foo", FOO, Backup(ORIGINAL, FOO))
  {
    hide Sample, CanBackUp;
    FooIsReadable();
    FooCanBeBackedUp();
  }

  lemma FooIsUnflushed()
    ensures var d := Sample([], {FOO}); IsFile(d.tree, FOO) && d.tree[FOO].Regular? && FOO in d.unflushed
    ensures Roomy(MANIFEST_PATH, [], ORIGINAL) && Roomy(MANIFEST_PATH, [], FOO) && Apart(ORIGINAL, FOO)
  {
    SampleLayout();
  }

  /** The second run exists. */
  lemma UnflushedCopyExists()
    ensures Unsynced(Sample([], {FOO}), MANIFEST_PATH, Ledger([], map[]), "foo", FOO, Backup(ORIGINAL, FOO))
  {
    hide Honest, Settled, Quiet, Adoptable, Sample, Roomy, Stages, Apart, IsFile;
    SampleIsCoherent([], {FOO});
    NothingIsHonest();
    SampleIsQuiet([], {FOO});
    SampleIsSettled([], {FOO}, MANIFEST_PATH);
    SampleIsSettled([], {FOO}, ORIGINAL);
    FooCanBeAdopted();
    FooIsUnflushed();
    SampleAtRest([], {FOO});
  }

  /** What the second run leaves: one tool, not vouched for. */
  function Copied(): Ledger
  {
    Ledger([Record("foo", FOO, Sha(Binary("old")))], map[])
  }

  lemma CopiedIsHonest()
    ensures Valid(Copied().records) && Find(Copied().records, "foo") == 0
    ensures Honest(Sample(Copied().records, {FOO}), MANIFEST_PATH, Copied())
  {
    hide Sample, Lasting, Describes, Standing;
    SampleLayout();
    SampleIsKept(Copied().records, {FOO});
  }

  lemma CopiedCanBeSwitched()
    ensures CanSwitch(Sample(Copied().records, {FOO}), Copied().records[0], NEW, Sha(Binary("new")))
  {
    hide Find, Layout;
    SampleDirs();
    CopiedIsHonest();
    SampleIsQuiet(Copied().records, {FOO});
  }

  /** The third run exists. */
  lemma UnflushedToolExists()
    ensures var d, foo := Sample(Copied().records, {FOO}), Copied().records[0];
            Unsteady(d, MANIFEST_PATH, Copied(), foo, NEW, Sha(Binary("new")))
  {
    hide Honest, Quiet, CanSwitch, Sample, Valid, Find, Stages;
    SampleIsCoherent(Copied().records, {FOO});
    CopiedIsHonest();
    SampleIsQuiet(Copied().records, {FOO});
    SampleAtRest(Copied().records, {FOO});
    CopiedCanBeSwitched();
    CopiedIsUnflushed();
  }

  lemma CopiedIsUnflushed()
    ensures var d := Sample(Copied().records, {FOO}); IsFile(d.tree, FOO) && d.tree[FOO].Regular? && FOO in d.unflushed
  {}
}
