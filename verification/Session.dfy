/** Whole runs: any sequence of commands, each begun with recovery and the preparation of the store, with
    the machine stopping anywhere. */
module Session {
  import opened Options
  import opened Names
  import opened Files
  import opened Disks
  import opened Views
  import opened Journal
  import opened DurableFs
  import opened EmptyParents
  import opened JournalDir
  import opened Recovery
  import opened Transactions
  import opened Managed
  import opened ManifestFile
  import opened Commands
  import opened Activate
  import opened Tools
  import opened StoreDirs
  import opened Originals

  datatype Request =
    | AdoptTool(name: string, path: Path, copy: Path)
    | UpgradeTool(name: string, source: Path, sha: Digest, copy: Path)
    | RollbackTool(name: string, source: Path, recorded: Option<Digest>)

  /** The name of the backup: adoption takes the one the live file has. */
  function BackupName(request: Request): string
  {
    if request.AdoptTool? then if request.path == [] then "" else Last(request.path) else request.name
  }

  /** Where the original is backed up, and what is copied there. */
  function OriginalOf(store: Path, request: Request): (backup: Backup)
    requires !request.RollbackTool?
    ensures backup.source == request.copy
  {
    Backup(Place(store, request.name, BackupName(request)), request.copy)
  }

  /** What is asked for when this disk and this manifest are found. */
  type Ask = (Disk, seq<Record>) -> Request

  /** The request is about a tool that can be changed: a new one, or one in the manifest. */
  predicate Known(records: seq<Record>, request: Request)
  {
    request.AdoptTool? || Find(records, request.name) < |records|
  }

  /** Where the paths of a request may lie: apart from everything managed, and those that are to change
      settled. Of the backup only its own entry, and what is above the store. */
  ghost predicate Placed(d: Disk, store: Path, manifest: Path, records: seq<Record>, request: Request)
  {
    Known(records, request) ==>
      && Settled(d, manifest)
      && (!request.RollbackTool? ==>
            var place := OriginalOf(store, request).path;
            && Roomy(manifest, records, place) && Footing(d, store) && Durable(d, place)
            && (request.AdoptTool? ==> Roomy(manifest, records, request.path) && Apart(place, request.path)))
      && (!request.AdoptTool? ==> LiveSettled(d, records, request.name))
  }

  /** Every request that may be made is well placed on the disk on which it is made. */
  ghost predicate Sensible(store: Path, manifest: Path, ask: Ask)
  {
    forall d, ledger :: Idle(d, manifest, ledger) ==>
      Placed(d, store, manifest, ledger.records, ask(d, ledger.records))
  }

  /** A name that no tool has: it is longer than all of them. */
  function Unmanaged(records: seq<Record>): (name: string)
    ensures forall r :: r in records ==> |r.name| < |name|
  {
    if records == [] then "-" else Unmanaged(records[1..]) + records[0].name
  }

  /** The hypothesis is one on each request where it is made: whatever is placed may be asked for. */
  lemma WhatIsPlacedMayBeAsked(d: Disk, store: Path, manifest: Path, records: seq<Record>, request: Request)
    returns (ask: Ask)
    requires Placed(d, store, manifest, records, request)
    ensures Sensible(store, manifest, ask) && ask(d, records) == request
  {
    ask := (found, rs) => if found == d && rs == records then request else RollbackTool(Unmanaged(rs), [], None);
    forall found, ledger | Idle(found, manifest, ledger)
      ensures Placed(found, store, manifest, ledger.records, ask(found, ledger.records))
    {
      assert !Known(ledger.records, RollbackTool(Unmanaged(ledger.records), [], None));
    }
  }

  /** A tool that is vouched for can always be rolled back, and upgraded when there is room for its backup. */
  lemma VouchedIsPlaced(d: Disk, store: Path, manifest: Path, ledger: Ledger, request: Request)
    requires Idle(d, manifest, ledger) && !request.AdoptTool? && request.name in ledger.reach
    ensures request.RollbackTool? ==> Placed(d, store, manifest, ledger.records, request)
    ensures request.UpgradeTool? && Known(ledger.records, request) ==>
              var place := OriginalOf(store, request).path;
              Placed(d, store, manifest, ledger.records, request)
              <==> Roomy(manifest, ledger.records, place) && Footing(d, store) && Durable(d, place)
  {
    hide Settled, Honest, Footing, Durable, Roomy;
    if Known(ledger.records, request) {
      KnownIsSettled(d, manifest, ledger, ledger.records[Find(ledger.records, request.name)]);
    }
  }

  lemma KnownIsSettled(d: Disk, manifest: Path, ledger: Ledger, r: Record)
    requires Idle(d, manifest, ledger) && r in ledger.records && r.name in ledger.reach
    ensures Settled(d, manifest) && Settled(d, r.path)
  {
    HonestIsSettled(d, manifest, ledger);
    VouchedIsSettled(d, manifest, ledger, r);
    assert Describes(Slot(d, manifest), ledger.records);
  }

  /** Read the manifest; a missing file is an empty one, and an older schema version is migrated. */
  method Load(fs: FileSystem, manifest: Path) returns (ok: bool, m: Manifest)
    modifies fs`alive
    ensures fs.alive ==> old(fs.alive)
    ensures fresh(m)
    // A missing file is empty, and what cannot be read as a manifest is not taken for one.
    ensures ok ==> if manifest !in fs.disk.tree then m.records == []
                   else fs.disk.tree[manifest].Regular? && fs.disk.tree[manifest].data.Document?
                        && m.records == fs.disk.tree[manifest].data.records && Valid(m.records)
    ensures forall records :: Describes(Slot(fs.disk, manifest), records) ==>
              (ok ==> m.records == records && m.schema == CURRENT_SCHEMA)
              && (old(fs.Steady()) && Valid(records) ==> ok && fs.alive)
  {
    var slot := Slot(fs.disk, manifest);
    m := new Manifest(CURRENT_SCHEMA, []);
    var fails := fs.Hazard();
    if fails {
      return false, m;
    }
    if slot == Gone {
      return true, m;
    }
    if !slot.Holds? || !slot.node.Regular? || !slot.node.data.Document? {
      return false, m;
    }
    m := new Manifest(slot.node.data.schema, slot.node.data.records);
    ok := m.Normalize();
    if ok {
      ok := m.Validate();
    }
  }

  /** The request has been carried out on this disk: what becomes of the ledger. */
  ghost predicate Served(d: Disk, manifest: Path, before: Ledger, after: Ledger, request: Request)
    requires manifest != []
  {
    match request
    case AdoptTool(name, path, _) => Adoption(d, manifest, before, after, name, path)
    case UpgradeTool(name, _, sha, _) => Activation(before, after, name, sha)
    case RollbackTool(name, source, recorded) =>
      && Read(d.tree, source).Some? && (recorded.Some? ==> Read(d.tree, source) == recorded)
      && Activation(before, after, name, Read(d.tree, source).value)
  }

  /** What the command checks before its transaction holds. */
  predicate Checks(d: Disk, store: Path, manifest: Path, records: seq<Record>, request: Request)
    requires manifest != []
  {
    match request
    case AdoptTool(name, path, _) =>
      name != "" && Adoptable(d, manifest, records, name, path, OriginalOf(store, request))
    case UpgradeTool(name, source, sha, _) =>
      var backup := OriginalOf(store, request);
      && Activatable(d, records, name, source, sha)
      && (backup.path in d.tree || CanBackUp(d, backup, records[Find(records, name)].sha))
    case RollbackTool(name, source, recorded) =>
      && Read(d.tree, source).Some? && (recorded.Some? ==> Read(d.tree, source) == recorded)
      && Activatable(d, records, name, source, Read(d.tree, source).value)
  }

  /** And nothing keeps the directories of the backup from being there. */
  predicate Passes(d: Disk, store: Path, manifest: Path, records: seq<Record>, request: Request)
    requires manifest != []
  {
    && Checks(d, store, manifest, records, request)
    && (!request.RollbackTool? ==> Pavable(d.tree, store, [request.name, ORIGINAL]))
  }

  // ---- the place of the backup ----

  /** The place of the backup has been prepared; a rollback needs none. */
  ghost predicate Arranged(a: Disk, b: Disk, store: Path, request: Request)
  {
    if request.RollbackTool? then b == a else Laid(a, b, store, request.name, BackupName(request))
  }

  /** At most directories on the way to the backup have been made. */
  ghost predicate Preparing(a: Disk, b: Disk, store: Path, request: Request)
  {
    if request.RollbackTool? then b == a
    else OnlyAbove(a, b, OriginalOf(store, request).path) && KeepsTree(a, b)
  }

  /** Everything that the request is to change is settled now. */
  ghost predicate Seated(d: Disk, store: Path, manifest: Path, records: seq<Record>, request: Request)
  {
    && Settled(d, manifest)
    && (!request.RollbackTool? ==>
          var place := OriginalOf(store, request).path;
          && Roomy(manifest, records, place) && Settled(d, place)
          && (request.AdoptTool? ==> Roomy(manifest, records, request.path) && Apart(place, request.path)))
    && (!request.AdoptTool? ==> LiveSettled(d, records, request.name))
  }

  /** Prepare the place of the backup. */
  method Arrange(fs: FileSystem, store: Path, manifest: Path, request: Request, ghost ledger: Ledger)
    returns (ok: bool)
    requires Idle(fs.disk, manifest, ledger) && Placed(fs.disk, store, manifest, ledger.records, request)
    requires manifest != [] && Known(ledger.records, request)
    modifies fs
    ensures fs.alive ==> old(fs.alive)
    ensures Idle(fs.disk, manifest, ledger) && Preparing(old(fs.disk), fs.disk, store, request)
    ensures Ready(old(fs.disk), manifest, ledger.records) ==> Ready(fs.disk, manifest, ledger.records)
    ensures ok ==> Arranged(old(fs.disk), fs.disk, store, request)
                   && Seated(fs.disk, store, manifest, ledger.records, request)
    ensures old(fs.Steady()) ==>
              && fs.alive
              && (Quiet(old(fs.disk), manifest, ledger.records)
                  && Passes(old(fs.disk), store, manifest, ledger.records, request) ==>
                    && ok && Quiet(fs.disk, manifest, ledger.records)
                    && Checks(fs.disk, store, manifest, ledger.records, request))
  {
    if request.RollbackTool? {
      return true;
    }
    ok := PrepareOriginalPath(fs, store, request.name, BackupName(request), manifest, ledger);
    if Ready(old(fs.disk), manifest, ledger.records) {
      ReadyStays(old(fs.disk), fs.disk, manifest, ledger.records, OriginalOf(store, request).path);
    }
    if ok {
      SeatedNow(old(fs.disk), fs.disk, store, manifest, ledger, request);
      StillPasses(old(fs.disk), fs.disk, store, manifest, ledger, request);
    }
  }

  lemma SeatedNow(a: Disk, b: Disk, store: Path, manifest: Path, ledger: Ledger, request: Request)
    requires Idle(a, manifest, ledger) && Placed(a, store, manifest, ledger.records, request)
    requires Known(ledger.records, request) && !request.RollbackTool? && Arranged(a, b, store, request)
    ensures Seated(b, store, manifest, ledger.records, request)
  {
    hide Settled, Laid, Idle, Honest, Durable, Footing;
    var file, records := BackupName(request), ledger.records;
    IdleIsCoherent(a, manifest, ledger);
    PlaceIsSettled(a, b, store, request.name, file);
    SettledStays(a, b, store, request.name, file, manifest);
    var i := Find(records, request.name);
    if request.UpgradeTool? && i < |records| {
      SettledStays(a, b, store, request.name, file, records[i].path);
    }
  }

  lemma IdleIsCoherent(d: Disk, manifest: Path, ledger: Ledger)
    requires Idle(d, manifest, ledger)
    ensures Coherent(d.tree) && manifest != [] && forall r :: r in ledger.records ==> r.path != []
  {}

  lemma StillPasses(a: Disk, b: Disk, store: Path, manifest: Path, ledger: Ledger, request: Request)
    requires Idle(a, manifest, ledger) && manifest != [] && !request.RollbackTool? && Arranged(a, b, store, request)
    requires Roomy(manifest, ledger.records, OriginalOf(store, request).path)
    ensures Quiet(a, manifest, ledger.records) ==> Quiet(b, manifest, ledger.records)
    ensures Checks(a, store, manifest, ledger.records, request) ==> Checks(b, store, manifest, ledger.records, request)
  {
    hide SameSight, Adoptable, Activatable, CanBackUp, Idle, Quiet, Paved, FilesKept, KeepsTree;
    var backup, records := OriginalOf(store, request), ledger.records;
    LaidLooksTheSame(a, b, store, request.name, BackupName(request));
    if Quiet(a, manifest, records) {
      QuietStays(a, b, manifest, records, backup.path);
    }
    if Checks(a, store, manifest, records, request) {
      if request.AdoptTool? {
        AdoptableStays(a, b, manifest, records, request.name, request.path, backup);
      } else {
        ActivatableStays(a, b, records, request.name, request.source, request.sha, backup.path);
        BackUpStays(a, b, backup, records[Find(records, request.name)].sha);
      }
    }
  }

  // ---- serving a request ----

  /** The live file of the request is no link to the manifest. A link there could keep a request that is
      refused from being taken back. */
  predicate Unhindered(d: Disk, manifest: Path, records: seq<Record>, request: Request)
    requires manifest != []
  {
    if request.AdoptTool? then Straight(d, manifest, request.path)
    else Known(records, request) ==> Straight(d, manifest, records[Find(records, request.name)].path)
  }

  /** The only files that a request may touch. */
  function Targets(d: Disk, store: Path, manifest: Path, records: seq<Record>, request: Request): set<Path>
    requires manifest != []
  {
    match request
    case AdoptTool(_, _, _) =>
      var place := OriginalOf(store, request).path;
      {manifest, Bak(manifest)} + (if place in d.tree then {} else {place})
    case UpgradeTool(name, _, _, _) =>
      var place := OriginalOf(store, request).path;
      LivePaths(manifest, records, name) + (if place in d.tree then {} else {place})
    case RollbackTool(name, _, _) => LivePaths(manifest, records, name)
  }

  /** What was found was as recorded, the new content is in place, and so is the backup of the original. */
  ghost predicate InPlace(a: Disk, b: Disk, store: Path, records: seq<Record>, request: Request)
  {
    match request
    case AdoptTool(name, path, copy) =>
      && (forall r :: r in records ==> r.name != name && r.path != path) && Read(a.tree, path).Some?
      && var place := store + [name, ORIGINAL] + [if path == [] then "" else path[|path| - 1]];
         place !in a.tree && Installed(a, b, copy, place, Read(a.tree, path).value)
    case UpgradeTool(name, source, sha, copy) =>
      && Find(records, name) < |records|
      && var e, place := records[Find(records, name)], store + [name, ORIGINAL] + [name];
         && Read(a.tree, e.path) == Some(e.sha)
         && Installed(a, b, source, e.path, sha) && (place !in a.tree ==> Installed(a, b, copy, place, e.sha))
    case RollbackTool(name, source, _) =>
      && Find(records, name) < |records| && Read(a.tree, source).Some?
      && var e := records[Find(records, name)];
         Read(a.tree, e.path) == Some(e.sha) && Installed(a, b, source, e.path, Read(a.tree, source).value)
  }

  lemma AdoptInPlace(a: Disk, b: Disk, store: Path, records: seq<Record>, request: Request)
    requires request.AdoptTool? && (forall r :: r in records ==> r.name != request.name && r.path != request.path)
    requires Read(a.tree, request.path).Some? && OriginalOf(store, request).path !in a.tree
    requires Installed(a, b, request.copy, OriginalOf(store, request).path, Read(a.tree, request.path).value)
    ensures InPlace(a, b, store, records, request)
  {
    hide Read, Installed;
  }

  lemma UpgradeInPlace(a: Disk, b: Disk, store: Path, records: seq<Record>, request: Request)
    requires request.UpgradeTool? && Find(records, request.name) < |records|
    requires var e, place := records[Find(records, request.name)], OriginalOf(store, request).path;
             && Read(a.tree, e.path) == Some(e.sha) && Installed(a, b, request.source, e.path, request.sha)
             && (place !in a.tree ==> Installed(a, b, request.copy, place, e.sha))
    ensures InPlace(a, b, store, records, request)
  {
    hide Read, Installed, Find;
  }

  lemma RollbackInPlace(a: Disk, b: Disk, store: Path, records: seq<Record>, request: Request)
    requires request.RollbackTool? && Find(records, request.name) < |records| && Read(a.tree, request.source).Some?
    requires var e := records[Find(records, request.name)];
             Read(a.tree, e.path) == Some(e.sha) && Installed(a, b, request.source, e.path, Read(a.tree, request.source).value)
    ensures InPlace(a, b, store, records, request)
  {
    hide Read, Installed, Find;
  }

  lemma FewerReturned(start: Disk, fs: FileSystem, manifest: Path, before: Ledger, more: set<Path>, less: set<Path>, ok: bool)
    requires manifest != [] && Returned(start, fs, manifest, before, more, ok) && less <= more
    ensures Returned(start, fs, manifest, before, less, ok)
  {}

  lemma UnhinderedIsTame(d: Disk, places: Places, manifest: Path, records: seq<Record>, request: Request)
    requires manifest != [] && Ready(d, manifest, records) && EmptyParents.Kept(places, Dir(manifest))
    requires Unhindered(d, manifest, records, request)
    ensures request.AdoptTool? ==> Tame(d, places, manifest, records, request.path)
    ensures !request.AdoptTool? && Find(records, request.name) < |records| ==>
              Tame(d, places, manifest, records, records[Find(records, request.name)].path)
  {
    hide Straight, Writable, Valid, EmptyParents.Kept;
  }

  /** The targets without the manifest's own backup, which no request puts back. */
  lemma TargetsLess(d: Disk, store: Path, manifest: Path, records: seq<Record>, request: Request)
    requires manifest != [] && (!request.RollbackTool? ==> Roomy(manifest, records, OriginalOf(store, request).path))
    ensures request.AdoptTool? ==>
              Targets(d, store, manifest, records, request) - {Bak(manifest)} <= {OriginalOf(store, request).path, manifest}
    ensures request.UpgradeTool? ==>
              var place := OriginalOf(store, request).path;
              Targets(d, store, manifest, records, request) - {Bak(manifest)}
              == LivePaths(manifest, records, request.name) - {Bak(manifest)} + (if place in d.tree then {} else {place})
  {
    hide OriginalOf, LivePaths;
  }

  /** Do what was asked. */
  method Serve(fs: FileSystem, places: Places, store: Path, manifest: Path, m: Manifest, id: string, request: Request,
               ghost before: Ledger)
    returns (ok: bool, ghost intent: Intent, ghost after: Ledger)
    requires ValidId(id) && Started(fs.disk, manifest, m, before) && Seated(fs.disk, store, manifest, m.records, request)
    modifies fs, m`records
    ensures fs.alive ==> old(fs.alive)
    ensures Consistent(fs.disk, intent, manifest, before, after)
    ensures FilesKept(old(fs.disk), fs.disk, Targets(old(fs.disk), store, manifest, before.records, request))
    ensures after == before || Served(old(fs.disk), manifest, before, after, request)
    ensures ok ==> Done(fs.disk, intent, manifest, after) && Served(old(fs.disk), manifest, before, after, request)
                   && InPlace(old(fs.disk), fs.disk, store, before.records, request)
    ensures old(fs.Steady()) && Quiet(old(fs.disk), manifest, before.records)
            && Checks(old(fs.disk), store, manifest, before.records, request) ==>
              ok && Stages(fs.disk) == {NoJournal} && fs.alive
    ensures old(fs.Steady()) && Ready(old(fs.disk), manifest, before.records) && EmptyParents.Kept(places, Dir(manifest))
            && Unhindered(old(fs.disk), manifest, before.records, request)
            && (!request.RollbackTool? ==> IsDir(old(fs.disk.tree), Dir(OriginalOf(store, request).path))) ==>
              Returned(old(fs.disk), fs, manifest, before,
                       Targets(old(fs.disk), store, manifest, before.records, request) - {Bak(manifest)}, ok)
  {
    hide Installed, Straight, EmptyParents.Kept, Writable, Valid, Idle, Done, Consistent, FilesKept, OthersExactly, Adoptable,
         Activatable, CanBackUp, Settled, Find, Read, OriginalOf, Place, Roomy, Tame, Ready, LivePaths, InPlace, Returned, Unhindered;
    ManifestIsNamed(fs.disk, manifest, before);
    TargetsLess(fs.disk, store, manifest, before.records, request);
    if Ready(fs.disk, manifest, before.records) && EmptyParents.Kept(places, Dir(manifest))
       && Unhindered(fs.disk, manifest, before.records, request) {
      UnhinderedIsTame(fs.disk, places, manifest, before.records, request);
    }
    match request {
      case AdoptTool(name, path, _) =>
        ok, intent, after := Adopt(fs, places, manifest, m, id, name, path, OriginalOf(store, request), before);
        if ok {
          AdoptInPlace(old(fs.disk), fs.disk, store, before.records, request);
        }
        if Returned(old(fs.disk), fs, manifest, before, {OriginalOf(store, request).path, manifest}, ok) {
          FewerReturned(old(fs.disk), fs, manifest, before, {OriginalOf(store, request).path, manifest},
                        Targets(old(fs.disk), store, manifest, before.records, request) - {Bak(manifest)}, ok);
        }
      case UpgradeTool(name, source, sha, _) =>
        ok, intent, after := Upgrade(fs, places, manifest, m, id, name, source, sha, OriginalOf(store, request), before);
        if ok {
          UpgradeInPlace(old(fs.disk), fs.disk, store, before.records, request);
        }
      case RollbackTool(name, source, recorded) =>
        ok, intent, after := Rollback(fs, places, manifest, m, id, name, source, recorded, before);
        if ok {
          RollbackInPlace(old(fs.disk), fs.disk, store, before.records, request);
        }
    }
  }

  lemma SomeIdIsValid()
    ensures exists id :: ValidId(id)
  {
    assert ValidId(seq(32, _ => '0'));
  }

  /** How far a command has come: recovery failed; nothing of the request was begun; its transaction failed;
      it was carried out. */
  datatype Outcome = Stuck | Refused | Failed | Succeeded

  /** The place of the backup is there, and a transaction has made this of the disk; when it succeeded, the
      request has been carried out. */
  ghost predicate Tried(store: Path, manifest: Path, request: Request, found: Disk, arranged: Disk, left: Disk,
                        intent: Intent, from: Ledger, to: Ledger, done: bool)
    requires manifest != []
  {
    && Arranged(found, arranged, store, request) && Idle(arranged, manifest, from)
    && FilesKept(arranged, left, Targets(arranged, store, manifest, from.records, request))
    && (Served(arranged, manifest, from, to, request) || (!done && to == from))
    && (done ==> Done(left, intent, manifest, to) && InPlace(arranged, left, store, from.records, request))
  }

  /** Prepare the place of the backup, then do what was asked. */
  method Execute(fs: FileSystem, places: Places, store: Path, manifest: Path, m: Manifest, request: Request,
                 ghost from: Ledger)
    returns (outcome: Outcome, ghost intent: Intent, ghost to: Ledger, ghost arranged: Disk)
    requires Idle(fs.disk, manifest, from) && m.schema == CURRENT_SCHEMA && m.records == from.records
    requires manifest != [] && Placed(fs.disk, store, manifest, from.records, request)
    modifies fs, m`records
    ensures !outcome.Stuck? && (fs.alive ==> old(fs.alive))
    ensures Consistent(fs.disk, intent, manifest, from, to)
    ensures outcome.Refused? ==>
              to == from && Idle(fs.disk, manifest, from) && Preparing(old(fs.disk), fs.disk, store, request)
    ensures !outcome.Refused? ==>
              Tried(store, manifest, request, old(fs.disk), arranged, fs.disk, intent, from, to, outcome.Succeeded?)
    ensures old(fs.Steady()) && Quiet(old(fs.disk), manifest, from.records)
            && Passes(old(fs.disk), store, manifest, from.records, request) ==>
              outcome.Succeeded? && Stages(fs.disk) == {NoJournal} && fs.alive
    ensures old(fs.Steady()) && Ready(old(fs.disk), manifest, from.records) && EmptyParents.Kept(places, Dir(manifest))
            && Unhindered(old(fs.disk), manifest, from.records, request) ==>
              Returned(arranged, fs, manifest, from,
                       Targets(arranged, store, manifest, from.records, request) - {Bak(manifest)}, outcome.Succeeded?)
  {
    hide Idle, Placed, Seated, Arranged, Served, Passes, Checks, Quiet, Settled, Preparing, FilesKept, Unhindered, Ready,
         EmptyParents.Kept, Done, Targets, InPlace;
    outcome, intent, to, arranged := Refused, Intent("", []), from, fs.disk;
    AtRestIsConsistent(fs.disk, intent, manifest, from);
    if !Known(m.records, request) {
      UnknownDoesNotPass(fs.disk, store, manifest, from.records, request);
      NothingPrepared(fs.disk, store, manifest, from, request);
      return;
    }
    var ok := Arrange(fs, store, manifest, request, from);
    AtRestIsConsistent(fs.disk, intent, manifest, from);
    arranged := fs.disk;
    if !ok {
      return;
    }
    SeatedManifest(arranged, store, manifest, from.records, request);
    if Unhindered(old(fs.disk), manifest, from.records, request) {
      StillUnhindered(old(fs.disk), arranged, store, manifest, from, request);
    }
    SomeIdIsValid();
    var id :| ValidId(id);
    ok, intent, to := Serve(fs, places, store, manifest, m, id, request, from);
    outcome := if ok then Succeeded else Failed;
  }

  lemma NothingPrepared(d: Disk, store: Path, manifest: Path, ledger: Ledger, request: Request)
    requires Idle(d, manifest, ledger)
    ensures Preparing(d, d, store, request)
  {
    if !request.RollbackTool? {
      StoreDirs.NothingChanged(d, OriginalOf(store, request).path);
    }
  }

  lemma StillUnhindered(a: Disk, b: Disk, store: Path, manifest: Path, ledger: Ledger, request: Request)
    requires Idle(a, manifest, ledger) && Known(ledger.records, request) && Arranged(a, b, store, request)
    requires manifest != [] && Seated(b, store, manifest, ledger.records, request)
    requires Unhindered(a, manifest, ledger.records, request)
    ensures Unhindered(b, manifest, ledger.records, request)
    ensures !request.RollbackTool? ==> IsDir(b.tree, Dir(OriginalOf(store, request).path))
  {
    hide Settled, Laid, Idle, SameSight, Straight;
    if !request.RollbackTool? {
      var file, place := BackupName(request), OriginalOf(store, request).path;
      IdleIsCoherent(a, manifest, ledger);
      LaidLooksTheSame(a, b, store, request.name, file);
      PlaceIsThere(a, b, store, request.name, file);
      if request.AdoptTool? {
        StraightStays(a, b, manifest, request.path, place);
      } else {
        StraightStays(a, b, manifest, ledger.records[Find(ledger.records, request.name)].path, place);
      }
    }
  }

  lemma UnknownDoesNotPass(d: Disk, store: Path, manifest: Path, records: seq<Record>, request: Request)
    requires manifest != [] && !Known(records, request)
    ensures !Passes(d, store, manifest, records, request)
  {}

  lemma SeatedManifest(d: Disk, store: Path, manifest: Path, records: seq<Record>, request: Request)
    requires Seated(d, store, manifest, records, request)
    ensures Settled(d, manifest)
  {}

  // ---- one command ----

  /** Where a run stands: the disk, the last transaction, and the two ledgers between which it leads. */
  datatype Situation = Situation(disk: Disk, intent: Intent, before: Ledger, after: Ledger)

  /** One command: the disk on which it started, the one recovery made of that, the one on which the
      transaction began, and the one it left; its transaction; and between which ledgers it has moved. */
  datatype Step = Step(start: Disk, found: Disk, arranged: Disk, left: Disk, intent: Intent, from: Ledger, to: Ledger,
                       outcome: Outcome)

  ghost predicate Held(manifest: Path, now: Situation)
  {
    Consistent(now.disk, now.intent, manifest, now.before, now.after)
  }

  /** Where a command leaves the run; a success is not taken back. */
  function After(step: Step): Situation
  {
    Situation(step.left, step.intent, if step.outcome.Succeeded? then step.to else step.from, step.to)
  }

  /** The ledger that holds after recovery. */
  ghost function Holding(d: Disk, manifest: Path, now: Situation): Ledger
  {
    if Idle(d, manifest, now.before) then now.before else now.after
  }

  /** A command recovers what the commands before it left. Then it starts at rest, from the old ledger if that
      holds, and either refuses, or prepares the place of the backup and runs the transaction of its request. */
  ghost predicate Explains(places: Places, store: Path, manifest: Path, ask: Ask, now: Situation, step: Step)
    requires manifest != []
  {
    && Recovered(step.start, step.found, places, now.intent, !step.outcome.Stuck?)
    && Held(manifest, After(step))
    && if step.outcome.Stuck? then
         step.left == step.found && step.intent == now.intent && step.from == now.before && step.to == now.after
       else
         && step.from == Holding(step.found, manifest, now)
         && Idle(step.found, manifest, step.from)
         && var request := ask(step.found, step.from.records);
            if step.outcome.Refused? then
              && step.to == step.from && Idle(step.left, manifest, step.from)
              && Preparing(step.found, step.left, store, request)
            else
              Tried(store, manifest, request, step.found, step.arranged, step.left, step.intent, step.from, step.to,
                    step.outcome.Succeeded?)
  }

  /** At rest, and nothing is in the way of the next command. */
  ghost predicate Resting(d: Disk, manifest: Path, ledger: Ledger)
    requires manifest != []
  {
    Idle(d, manifest, ledger) && Ready(d, manifest, ledger.records)
  }

  /** Where it was made, the request passed the checks. */
  predicate Passed(store: Path, manifest: Path, ask: Ask, step: Step)
    requires manifest != []
  {
    Passes(step.found, store, manifest, step.from.records, ask(step.found, step.from.records))
  }

  /** Without faults the request is carried out or leaves no trace, so that the next one can be served. */
  ghost predicate Harmless(places: Places, store: Path, manifest: Path, ask: Ask, step: Step)
    requires manifest != []
  {
    || Passed(store, manifest, ask, step)
    || (EmptyParents.Kept(places, Dir(manifest))
        && Unhindered(step.found, manifest, step.from.records, ask(step.found, step.from.records)))
  }

  /** What a command does without faults. */
  ghost predicate Prompted(places: Places, store: Path, manifest: Path, ask: Ask, step: Step)
    requires manifest != []
  {
    && Resting(step.start, manifest, step.from) && !step.outcome.Stuck?
    && (Passed(store, manifest, ask, step) ==> step.outcome.Succeeded?)
    && (Harmless(places, store, manifest, ask, step) && step.outcome.Failed? ==>
          TakenBack(store, manifest, ask(step.found, step.from.records), step))
  }

  /** What the request was to change is as it was. */
  predicate TakenBack(store: Path, manifest: Path, request: Request, step: Step)
    requires manifest != []
  {
    forall p :: p in Targets(step.arranged, store, manifest, step.from.records, request) - {Bak(manifest)} ==>
      Slot(step.left, p) == Slot(step.arranged, p)
  }

  /** Recover, and load the manifest. */
  method Restore(fs: FileSystem, places: Places, manifest: Path, ghost now: Situation) returns (ok: bool, m: Manifest?)
    requires manifest != [] && Held(manifest, now.(disk := fs.disk))
    modifies fs
    ensures fs.alive ==> old(fs.alive)
    ensures Recovered(old(fs.disk), fs.disk, places, now.intent, m != null)
    ensures Held(manifest, now.(disk := fs.disk))
    ensures old(fs.Steady()) ==> (m != null <==> Recoverable(old(fs.disk), places, now.intent))
    ensures m != null ==>
              && fresh(m) && Idle(fs.disk, manifest, Holding(fs.disk, manifest, now))
              && (ok ==> m.schema == CURRENT_SCHEMA && m.records == Holding(fs.disk, manifest, now).records)
    ensures old(fs.Steady() && Resting(fs.disk, manifest, now.before)) ==>
              && ok && m != null && fs.alive && Resting(fs.disk, manifest, now.before)
              && Quiet(fs.disk, manifest, now.before.records)
  {
    hide Consistent, Idle, Recovered, Recoverable, Writable, Valid;
    m := null;
    ok := RecoverConsistently(fs, places, now.intent, manifest, now.before, now.after);
    if old(Resting(fs.disk, manifest, now.before)) {
      RestIsRecoverable(old(fs.disk), fs.disk, places, manifest, now, ok);
    }
    if ok {
      HeldIsDescribed(fs.disk, manifest, Holding(fs.disk, manifest, now));
      ok, m := Load(fs, manifest);
    }
  }

  lemma HeldIsDescribed(d: Disk, manifest: Path, ledger: Ledger)
    requires Idle(d, manifest, ledger)
    ensures Describes(Slot(d, manifest), ledger.records)
  {}

  lemma RestIsRecoverable(a: Disk, b: Disk, places: Places, manifest: Path, now: Situation, ok: bool)
    requires manifest != [] && Resting(a, manifest, now.before) && Recovered(a, b, places, now.intent, ok)
    ensures Recoverable(a, places, now.intent)
    ensures ok ==> Resting(b, manifest, now.before) && Quiet(b, manifest, now.before.records)
  {
    hide Honest, Writable, Valid;
    assert a.stage in Stages(a);
    if ok {
      IdleSameFiles(a, b, manifest, now.before);
    }
  }

  lemma WasSensible(d: Disk, store: Path, manifest: Path, ask: Ask, ledger: Ledger)
    requires Sensible(store, manifest, ask) && Idle(d, manifest, ledger)
    ensures Placed(d, store, manifest, ledger.records, ask(d, ledger.records))
  {}

  /** Recover, load the manifest, prepare the store, and do what is asked. */
  method Command(fs: FileSystem, places: Places, store: Path, manifest: Path, ask: Ask, ghost now: Situation)
    returns (ghost step: Step)
    requires manifest != [] && Sensible(store, manifest, ask) && Held(manifest, now.(disk := fs.disk))
    modifies fs
    ensures fs.alive ==> old(fs.alive)
    ensures step.start == old(fs.disk) && step.left == fs.disk && Explains(places, store, manifest, ask, now, step)
    // Without faults, recovery succeeds exactly when its run can be completed.
    ensures old(fs.Steady()) ==> (step.outcome.Stuck? <==> !Recoverable(step.start, places, now.intent))
    // Without faults, on a disk at rest, a request that passes the checks is carried out, and a harmless one
    // leaves the disk at rest.
    ensures old(fs.Steady() && Resting(fs.disk, manifest, now.before)) ==>
              && Prompted(places, store, manifest, ask, step)
              && (Harmless(places, store, manifest, ask, step) ==>
                    fs.Steady() && Resting(fs.disk, manifest, After(step).before))
  {
    hide Sensible, Consistent, Idle, Ready, Passes, Unhindered, EmptyParents.Kept, Tried, Preparing, Recovered, Recoverable,
         Done, Quiet, Targets;
    ghost var start := fs.disk;
    step := Step(start, start, start, start, now.intent, now.before, now.after, Stuck);
    var ok, m := Restore(fs, places, manifest, now);
    step := step.(found := fs.disk, left := fs.disk);
    if m == null {
      return;
    }
    ghost var from := Holding(fs.disk, manifest, now);
    step := step.(from := from, to := from, outcome := Refused);
    if !ok {
      AtRestIsConsistent(fs.disk, now.intent, manifest, from);
      NothingPrepared(fs.disk, store, manifest, from, ask(fs.disk, from.records));
      return;
    }
    WasSensible(fs.disk, store, manifest, ask, from);
    var outcome;
    ghost var to, arranged, intent;
    outcome, intent, to, arranged := Execute(fs, places, store, manifest, m, ask(fs.disk, m.records), from);
    step := step.(arranged := arranged, left := fs.disk, intent := intent, to := to, outcome := outcome);
    if outcome.Succeeded? {
      TriedIsDone(store, manifest, ask(step.found, from.records), step);
    }
    if old(fs.Steady() && Resting(fs.disk, manifest, now.before)) {
      if outcome.Succeeded? && Stages(fs.disk) == {NoJournal} {
        DoneRests(fs.disk, intent, manifest, to);
      }
    }
  }

  lemma TriedIsDone(store: Path, manifest: Path, request: Request, step: Step)
    requires manifest != []
    requires Tried(store, manifest, request, step.found, step.arranged, step.left, step.intent, step.from, step.to, true)
    ensures Done(step.left, step.intent, manifest, step.to)
    ensures Held(manifest, Situation(step.left, step.intent, step.to, step.to))
  {
    hide Honest, Arranged, Served, FilesKept, InPlace;
  }

  lemma DoneRests(d: Disk, intent: Intent, manifest: Path, ledger: Ledger)
    requires manifest != [] && Done(d, intent, manifest, ledger) && Stages(d) == {NoJournal}
    ensures Resting(d, manifest, ledger)
  {
    ConsistentAtRest(d, intent, manifest, ledger, ledger);
  }

  // ---- whole runs ----

  /** Where the run stands before command `n`. */
  function Now(first: Situation, steps: seq<Step>, n: nat): Situation
    requires n <= |steps|
  {
    if n == 0 then first else After(steps[n - 1])
  }

  /** A disk is found as it was left, or as a crash left it. */
  predicate Follows(reliable: bool, a: Disk, b: Disk)
  {
    b == a || (!reliable && Crashed(a, b))
  }

  /** Every command starts on the disk that the one before it left, or that a crash made of that, and is explained
      by its request and by where the run stood. */
  ghost predicate Story(places: Places, store: Path, manifest: Path, asks: seq<Ask>, reliable: bool,
                        first: Situation, steps: seq<Step>)
    requires manifest != []
  {
    && |steps| <= |asks|
    && forall i :: 0 <= i < |steps| ==>
         && Follows(reliable, Now(first, steps, i).disk, steps[i].start)
         && Explains(places, store, manifest, asks[i], Now(first, steps, i), steps[i])
  }

  lemma StoryAt(places: Places, store: Path, manifest: Path, asks: seq<Ask>, reliable: bool, first: Situation,
                steps: seq<Step>, i: nat)
    requires manifest != [] && Story(places, store, manifest, asks, reliable, first, steps) && i < |steps|
    ensures |steps| <= |asks| && Follows(reliable, Now(first, steps, i).disk, steps[i].start)
    ensures Explains(places, store, manifest, asks[i], Now(first, steps, i), steps[i])
  {
    hide Explains, Follows, After;
  }

  lemma StoryGrows(places: Places, store: Path, manifest: Path, asks: seq<Ask>, reliable: bool, first: Situation,
                   steps: seq<Step>, step: Step)
    requires manifest != [] && Story(places, store, manifest, asks, reliable, first, steps) && |steps| < |asks|
    requires Follows(reliable, Now(first, steps, |steps|).disk, step.start)
    requires Explains(places, store, manifest, asks[|steps|], Now(first, steps, |steps|), step)
    ensures Story(places, store, manifest, asks, reliable, first, steps + [step])
  {
    hide Explains, Follows, After;
    forall i | 0 <= i <= |steps| ensures Now(first, steps + [step], i) == Now(first, steps, i) {}
  }

  /** The first `n` requests were harmless. */
  ghost predicate AllHarmless(places: Places, store: Path, manifest: Path, asks: seq<Ask>, steps: seq<Step>, n: nat)
    requires manifest != [] && n <= |steps| <= |asks|
  {
    forall i :: 0 <= i < n ==> Harmless(places, store, manifest, asks[i], steps[i])
  }

  /** Whatever became of the harmless requests before it, a request that passes its checks is carried out. */
  ghost predicate Prompt(places: Places, store: Path, manifest: Path, asks: seq<Ask>, steps: seq<Step>)
    requires manifest != [] && |steps| <= |asks|
  {
    forall i :: 0 <= i < |steps| && AllHarmless(places, store, manifest, asks, steps, i) ==>
      Prompted(places, store, manifest, asks[i], steps[i])
  }

  lemma PromptGrows(places: Places, store: Path, manifest: Path, asks: seq<Ask>, steps: seq<Step>, step: Step)
    requires manifest != [] && |steps| < |asks| && Prompt(places, store, manifest, asks, steps)
    requires AllHarmless(places, store, manifest, asks, steps, |steps|) ==> Prompted(places, store, manifest, asks[|steps|], step)
    ensures Prompt(places, store, manifest, asks, steps + [step])
    ensures AllHarmless(places, store, manifest, asks, steps + [step], |steps| + 1) <==>
            && AllHarmless(places, store, manifest, asks, steps, |steps|)
            && Harmless(places, store, manifest, asks[|steps|], step)
  {
    hide Harmless, Prompted;
    var more := steps + [step];
    assert more[|steps|] == step && forall j :: 0 <= j < |steps| ==> more[j] == steps[j];
    forall i | 0 <= i < |more| && AllHarmless(places, store, manifest, asks, more, i)
      ensures Prompted(places, store, manifest, asks[i], more[i])
    {
      assert AllHarmless(places, store, manifest, asks, steps, i);
    }
  }

  /** End to end: however many commands run, and wherever the machine stops and starts again, every command starts
      on the disk left by the one before it; the disk is at rest with one of two ledgers telling the truth, or
      inside a transaction that leads to one of them; every step is explained by its request, and what has
      succeeded stays. Without faults every request that passes its checks is carried out. */
  method Run(fs: FileSystem, places: Places, store: Path, manifest: Path, ghost initial: Ledger, asks: seq<Ask>)
    returns (ghost steps: seq<Step>)
    requires Idle(fs.disk, manifest, initial) && manifest != []
    requires forall ask :: ask in asks ==> Sensible(store, manifest, ask)
    modifies fs
    ensures |steps| == |asks|
    ensures var first := Situation(old(fs.disk), Intent("", []), initial, initial);
            && Story(places, store, manifest, asks, fs.reliable, first, steps)
            && fs.disk == Now(first, steps, |steps|).disk && Held(manifest, Now(first, steps, |steps|))
    ensures old(fs.Steady() && Resting(fs.disk, manifest, initial)) ==> Prompt(places, store, manifest, asks, steps)
  {
    hide Explains, Sensible, Consistent, Harmless, AllHarmless, Prompt, Prompted, Idle, Story, Ready, Crashed, After;
    steps := [];
    ghost var first := Situation(fs.disk, Intent("", []), initial, initial);
    EmptyStory(places, store, manifest, asks, fs.reliable, first);
    for i := 0 to |asks|
      invariant |steps| == i && Story(places, store, manifest, asks, fs.reliable, first, steps)
      invariant fs.disk == Now(first, steps, i).disk && Held(manifest, Now(first, steps, i))
      invariant old(fs.Steady() && Resting(fs.disk, manifest, initial)) ==>
                  && Prompt(places, store, manifest, asks, steps)
                  && (AllHarmless(places, store, manifest, asks, steps, i) ==>
                        fs.Steady() && Resting(fs.disk, manifest, Now(first, steps, i).before))
    {
      ghost var now := Now(first, steps, i);
      var found: Disk := *;
      if !fs.reliable && Crashed(fs.disk, found) {
        CrashKeepsConsistent(fs.disk, found, now.intent, manifest, now.before, now.after);
        fs.Reboot(found);
      }
      ghost var step := Command(fs, places, store, manifest, asks[i], now);
      StoryGrows(places, store, manifest, asks, fs.reliable, first, steps, step);
      if old(fs.Steady() && Resting(fs.disk, manifest, initial)) {
        PromptGrows(places, store, manifest, asks, steps, step);
      }
      ExplainedIsHeld(places, store, manifest, asks[i], now, step);
      steps := steps + [step];
    }
  }

  lemma EmptyStory(places: Places, store: Path, manifest: Path, asks: seq<Ask>, reliable: bool, first: Situation)
    requires manifest != [] && first.before == first.after && Idle(first.disk, manifest, first.before)
    ensures Story(places, store, manifest, asks, reliable, first, []) && Held(manifest, Now(first, [], 0))
    ensures Prompt(places, store, manifest, asks, [])
  {}

  lemma ExplainedIsHeld(places: Places, store: Path, manifest: Path, ask: Ask, now: Situation, step: Step)
    requires manifest != [] && Explains(places, store, manifest, ask, now, step)
    ensures Held(manifest, After(step)) && After(step).disk == step.left
  {
    hide Recovered, Tried, Consistent, Idle;
  }

  /** Asking for a tool that is vouched for is harmless, whatever comes of it. */
  lemma VouchedIsHarmless(places: Places, store: Path, manifest: Path, ask: Ask, step: Step)
    requires manifest != [] && EmptyParents.Kept(places, Dir(manifest)) && Idle(step.found, manifest, step.from)
    requires var request := ask(step.found, step.from.records); !request.AdoptTool? && request.name in step.from.reach
    ensures Harmless(places, store, manifest, ask, step)
  {
    hide EmptyParents.Kept, Passes, Straight;
    var name := ask(step.found, step.from.records).name;
    if Find(step.from.records, name) < |step.from.records| {
      VouchedIsStraight(step.found, manifest, step.from, step.from.records[Find(step.from.records, name)]);
    }
  }

  // ---- who stays vouched for over a run ----

  /** The command adopts a tool, and gets as far as writing that down. */
  predicate Adopts(step: Step, request: Request)
  {
    request.AdoptTool? && step.outcome in {Failed, Succeeded} && step.to != step.from
  }

  /** Every tool that was adopted was independent of the others when it was. */
  ghost predicate AllIndependent(manifest: Path, asks: seq<Ask>, steps: seq<Step>)
    requires manifest != [] && |steps| <= |asks|
  {
    forall i :: 0 <= i < |steps| ==>
      var request := asks[i](steps[i].found, steps[i].from.records);
      Adopts(steps[i], request) ==> Independent(steps[i].arranged, manifest, steps[i].from.records, request.path)
  }

  /** Every tool is vouched for, and none is read through the file of another. */
  predicate AllVouched(ledger: Ledger)
  {
    Full(ledger) && Separate(ledger)
  }

  predicate Vouching(now: Situation)
  {
    AllVouched(now.before) && AllVouched(now.after)
  }

  /** Every tool is vouched for at every moment of a run if and only if every tool that was adopted was
      independent of the others: its file had reached the disk, and led to no managed file, nor was led to. */
  lemma EveryToolAgrees(places: Places, store: Path, manifest: Path, asks: seq<Ask>, reliable: bool, first: Situation,
                        steps: seq<Step>)
    requires manifest != [] && Story(places, store, manifest, asks, reliable, first, steps) && Vouching(first)
    ensures (forall n :: 0 <= n <= |steps| ==> Vouching(Now(first, steps, n))) <==> AllIndependent(manifest, asks, steps)
  {
    hide Explains, AllVouched, Independent, After, Follows;
    if AllIndependent(manifest, asks, steps) {
      forall n | 0 <= n <= |steps| ensures Vouching(Now(first, steps, n)) {
        IndependentKeepsAll(places, store, manifest, asks, reliable, first, steps, n);
      }
    }
    if forall n :: 0 <= n <= |steps| ==> Vouching(Now(first, steps, n)) {
      forall i | 0 <= i < |steps|
        ensures var request := asks[i](steps[i].found, steps[i].from.records);
                Adopts(steps[i], request) ==> Independent(steps[i].arranged, manifest, steps[i].from.records, request.path)
      {
        assert Vouching(Now(first, steps, i)) && Vouching(Now(first, steps, i + 1));
        StepKeepsAllExactly(places, store, manifest, asks[i], Now(first, steps, i), steps[i]);
      }
    }
  }

  lemma IndependentAt(manifest: Path, asks: seq<Ask>, steps: seq<Step>, i: nat)
    requires manifest != [] && i < |steps| <= |asks| && AllIndependent(manifest, asks, steps)
    ensures var request := asks[i](steps[i].found, steps[i].from.records);
            Adopts(steps[i], request) ==> Independent(steps[i].arranged, manifest, steps[i].from.records, request.path)
  {
    hide Independent, Adopts;
  }

  lemma {:induction false} IndependentKeepsAll(places: Places, store: Path, manifest: Path, asks: seq<Ask>, reliable: bool,
                                               first: Situation, steps: seq<Step>, n: nat)
    requires manifest != [] && Story(places, store, manifest, asks, reliable, first, steps) && n <= |steps|
    requires Vouching(first) && AllIndependent(manifest, asks, steps)
    ensures Vouching(Now(first, steps, n))
  {
    hide Explains, AllVouched, Independent, After, Story, AllIndependent, Adopts;
    if n > 0 {
      IndependentKeepsAll(places, store, manifest, asks, reliable, first, steps, n - 1);
      StoryAt(places, store, manifest, asks, reliable, first, steps, n - 1);
      IndependentAt(manifest, asks, steps, n - 1);
      StepKeepsAllExactly(places, store, manifest, asks[n - 1], Now(first, steps, n - 1), steps[n - 1]);
    }
  }

  /** A step keeps vouching for everybody if and only if what it adopts is independent. */
  lemma StepKeepsAllExactly(places: Places, store: Path, manifest: Path, ask: Ask, now: Situation, step: Step)
    requires manifest != [] && Explains(places, store, manifest, ask, now, step) && Vouching(now)
    ensures var request := ask(step.found, step.from.records);
            Vouching(After(step)) <==>
              (Adopts(step, request) ==> Independent(step.arranged, manifest, step.from.records, request.path))
  {
    hide Full, Separate, Adoption, Independent, Recovered, Consistent, Idle, Done, FilesKept, InPlace, Arranged, Served;
    var request := ask(step.found, step.from.records);
    if step.outcome in {Failed, Succeeded} && step.to != step.from {
      ServedKeepsAllExactly(step.arranged, manifest, step.from, step.to, request);
    }
  }

  lemma ServedKeepsAllExactly(d: Disk, manifest: Path, from: Ledger, to: Ledger, request: Request)
    requires manifest != [] && Idle(d, manifest, from) && AllVouched(from) && Served(d, manifest, from, to, request)
    ensures AllVouched(to) <==> (request.AdoptTool? ==> Independent(d, manifest, from.records, request.path))
  {
    hide Full, Separate, Independent, Vouches;
    if request.AdoptTool? {
      AdoptedKeepsAllExactly(d, manifest, from, to, request.name, request.path);
    } else {
      var e := from.records[Find(from.records, request.name)];
      var sha := if request.UpgradeTool? then request.sha else Read(d.tree, request.source).value;
      NobodyIsLost(manifest, from, e, sha);
    }
  }

  /** And while every tool is vouched for, at rest every live file agrees with the manifest on the disk. */
  lemma AllAgreeAtRest(manifest: Path, now: Situation) returns (ledger: Ledger)
    requires manifest != [] && Held(manifest, now) && Vouching(now) && Pending !in Stages(now.disk)
    ensures ledger in {now.before, now.after} && Describes(Slot(now.disk, manifest), ledger.records)
    ensures forall r :: r in ledger.records ==> Agrees(Standing(now.disk, manifest), r)
  {
    hide Agrees;
    ConsistentAtRest(now.disk, now.intent, manifest, now.before, now.after);
    ledger := Holding(now.disk, manifest, now);
    forall r | r in ledger.records ensures Agrees(Standing(now.disk, manifest), r) {
      HonestVouches(now.disk, manifest, ledger, r);
    }
  }
}
