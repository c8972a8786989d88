/** Adopt, upgrade and rollback: what each command checks, captures and writes. */
module Tools {
  import opened Options
  import opened Files
  import opened Disks
  import opened Views
  import opened Journal
  import opened DurableFs
  import opened EmptyParents
  import opened JournalDir
  import opened Recovery
  import opened Capture
  import opened Transactions
  import opened Managed
  import opened Reversals
  import opened ManifestFile
  import opened Additions
  import opened Commands
  import opened Activate

  /** A further path that does not nest with the manifest, its backup or a managed file. */
  predicate Roomy(manifest: Path, records: seq<Record>, path: Path)
  {
    && manifest != [] && path != [] && Apart(path, manifest) && Apart(path, Bak(manifest))
    && (forall r :: r in records ==> Apart(path, r.path))
  }

  /** A backup of the original that the command makes on the way: where to, and a copy of what. */
  datatype Backup = Backup(path: Path, source: Path)

  /** Upgrade and rollback replace one live file; an upgrade may first back the original up. */
  function SwitchPlan(manifest: Path, data: Content, e: Record, source: Path, sha: Digest,
                      backup: Option<Backup>): Plan
  {
    var switch := [Spec("live", e.path, WantFile(source)), Spec(MANIFEST, manifest, WantBytes(data, DEFAULT_MODE))];
    var checks := [ExpectSha("live", false, e.sha), ExpectSha("live", true, sha)];
    match backup
    case None => Plan(switch, checks, ["live"])
    case Some(Backup(path, from)) =>
      Plan([Spec("original", path, WantFile(from))] + switch,
           checks + [ExpectAbsent("original"), ExpectSha("original", true, e.sha)],
           ["original", "live"])
  }

  /** Adoption backs the original up and only guards the live file. */
  function AdoptPlan(manifest: Path, data: Content, entry: Record, backup: Backup): Plan
  {
    Plan([Spec("original", backup.path, WantFile(backup.source)),
          Spec("live-guard", entry.path, WantUnchanged),
          Spec(MANIFEST, manifest, WantBytes(data, DEFAULT_MODE))],
         [ExpectAbsent("original"), ExpectSha("original", true, entry.sha), ExpectSha("live-guard", false, entry.sha)],
         ["original"])
  }

  // ---- what the commands make of a ledger ----

  /** A tool has new content: it is vouched for, and those that are read through its file no longer are. */
  function Switched(ledger: Ledger, e: Record, sha: Digest): Ledger
  {
    Ledger(Putting(ledger.records, e.(sha := sha)),
           (map n | n in ledger.reach && e.path !in ledger.reach[n] :: ledger.reach[n])[e.name := {e.path}])
  }

  /** A tool is new: it is vouched for when it is already known how its file is read. */
  function Adopted(ledger: Ledger, entry: Record, trail: Option<set<Path>>): Ledger
  {
    var others := map n | n in ledger.reach && n != entry.name :: ledger.reach[n];
    Ledger(Putting(ledger.records, entry), if trail.Some? then others[entry.name := trail.value] else others)
  }

  /** How the live file of an entry is read for good, if it is. */
  ghost function KnownTrail(d: Disk, manifest: Path, entry: Record): Option<set<Path>>
    requires manifest != []
  {
    if Agrees(Standing(d, manifest), entry) then Some(Trail(Standing(d, manifest), entry.path, MAX_LINKS)) else None
  }

  // ---- layouts ----

  lemma PuttingAt(records: seq<Record>, entry: Record, j: nat)
    requires Find(records, entry.name) < |records| && j < |records|
    ensures |Putting(records, entry)| == |records|
    ensures Putting(records, entry)[j] == if j == Find(records, entry.name) then entry else records[j]
  {}

  /** Replacing a record by one with its name and path keeps the layout. */
  lemma SwitchLayout(manifest: Path, records: seq<Record>, entry: Record)
    requires Layout(manifest, records) && Find(records, entry.name) < |records|
    requires records[Find(records, entry.name)].path == entry.path
    ensures Layout(manifest, Putting(records, entry))
  {
    var i, after := Find(records, entry.name), Putting(records, entry);
    forall j | 0 <= j < |records|
      ensures after[j].name == records[j].name && after[j].path == records[j].path
    {
      PuttingAt(records, entry, j);
    }
    forall r | r in after ensures r.path != [] && Apart(r.path, manifest) && Apart(r.path, Bak(manifest)) {
      var j :| 0 <= j < |after| && after[j] == r;
      assert records[j] in records;
    }
  }

  /** The other records are kept. */
  lemma SwitchKeeps(manifest: Path, records: seq<Record>, entry: Record)
    requires Layout(manifest, records) && Find(records, entry.name) < |records|
    ensures forall r :: r in Putting(records, entry) && r != entry ==> r in records && r.name != entry.name
  {
    var i := Find(records, entry.name);
    forall r | r in Putting(records, entry) && r != entry ensures r in records && r.name != entry.name {
      var j :| 0 <= j < |records| && Putting(records, entry)[j] == r;
      PuttingAt(records, entry, j);
      assert records[j] == r && j != i;
      assert j < i ==> records[j].name != records[i].name;
      assert i < j ==> records[i].name != records[j].name;
    }
  }

  lemma AdoptLayout(manifest: Path, records: seq<Record>, entry: Record)
    requires Layout(manifest, records) && Find(records, entry.name) == |records|
    requires Roomy(manifest, records, entry.path)
    ensures Putting(records, entry) == records + [entry] && Layout(manifest, records + [entry])
    ensures forall r :: r in records ==> r.name != entry.name
  {
    var after := records + [entry];
    forall r | r in after ensures r.path != [] && Apart(r.path, manifest) && Apart(r.path, Bak(manifest)) {
      assert r in records || r == entry;
    }
    forall j | 0 <= j < |records| ensures records[j].name != entry.name && Apart(records[j].path, entry.path) {
      assert records[j] in records;
    }
  }

  // ---- the plans are sound ----

  /** Specs whose paths are settled and pairwise apart are calm. */
  lemma CalmPair(d: Disk, a: Spec, b: Spec)
    requires a.path != [] && b.path != [] && Apart(a.path, b.path)
    requires (a.after.WantUnchanged? || Settled(d, a.path)) && (b.after.WantUnchanged? || Settled(d, b.path))
    ensures Calm(d, [a, b])
  {}

  lemma CalmTriple(d: Disk, a: Spec, b: Spec, c: Spec)
    requires Calm(d, [b, c]) && a.path != [] && Settled(d, a.path) && Apart(a.path, b.path) && Apart(a.path, c.path)
    ensures Calm(d, [a, b, c])
  {
    var two, three := [b, c], [a, b, c];
    assert forall s :: s in three ==> s == a || s in two;
    forall i, j | 0 <= i < 3 && 0 <= j < 3 && i != j ensures !(three[i].path <= three[j].path) {
      if i > 0 && j > 0 {
        assert three[i] == two[i - 1] && three[j] == two[j - 1];
      }
    }
  }

  lemma HonestIsSettled(d: Disk, manifest: Path, ledger: Ledger)
    requires Honest(d, manifest, ledger)
    ensures manifest != [] && (Slot(d, manifest) != Gone ==> Settled(d, manifest))
  {
    if Slot(d, manifest) != Gone {
      WhatCannotGoIsFirm(d, manifest);
      FirmIsFooting(d, Dir(manifest));
    }
  }

  /** The live file of a tool that is vouched for has reached the disk. */
  lemma VouchedIsSettled(d: Disk, manifest: Path, ledger: Ledger, r: Record)
    requires Honest(d, manifest, ledger) && r in ledger.records && r.name in ledger.reach
    ensures Settled(d, r.path)
  {
    assert Agrees(Standing(d, manifest), r) && r.path in ForGood(d);
    WhatCannotGoIsFirm(d, r.path);
    FirmIsFooting(d, Dir(r.path));
  }

  /** What is read lies on the trail, and the trail is in the view. */
  lemma {:induction false} TrailIsThere(view: View, path: Path, links: nat)
    requires Follow(view, path, links).Some?
    ensures Trail(view, path, links) <= view.Keys
    decreases links
  {
    if view[path].Leads? {
      TrailIsThere(view, view[path].to, links - 1);
    }
  }

  lemma GoneIsNotStanding(d: Disk, manifest: Path, path: Path)
    requires manifest != []
    ensures Slot(d, path) == Gone || path == manifest ==> path !in Standing(d, manifest)
  {}

  /** A record whose trail avoids the one path that is replaced is not touched by a plan whose other paths
      are free. */
  lemma BesideAgrees(d: Disk, manifest: Path, plan: Plan, replaced: set<Path>, r: Record)
    requires manifest != [] && Agrees(Standing(d, manifest), r)
    requires Trail(Standing(d, manifest), r.path, MAX_LINKS) !! replaced
    requires forall p :: p in PlanPaths(plan) - replaced ==> p == manifest || Slot(d, p) == Gone
    ensures Agrees(Beside(d, manifest, plan), r)
    ensures Trail(Beside(d, manifest, plan), r.path, MAX_LINKS) == Trail(Standing(d, manifest), r.path, MAX_LINKS)
  {
    hide Standing, Lasting;
    forall p | Slot(d, p) == Gone || p == manifest ensures p !in Standing(d, manifest) {
      GoneIsNotStanding(d, manifest, p);
    }
    TrailIsThere(Standing(d, manifest), r.path, MAX_LINKS);
    ReadsWithout(Standing(d, manifest), PlanPaths(plan), r.path, MAX_LINKS);
  }

  /** Where a backup may be made: apart from everything managed, with a free place that has reached the
      disk. */
  ghost predicate Spare(d: Disk, manifest: Path, records: seq<Record>, backup: Backup)
  {
    Roomy(manifest, records, backup.path) && Settled(d, backup.path) && Slot(d, backup.path) == Gone
  }

  /** A managed tool whose live file has reached the disk. */
  ghost predicate Switchable(d: Disk, manifest: Path, ledger: Ledger, e: Record)
  {
    && Honest(d, manifest, ledger) && Settled(d, manifest)
    && Find(ledger.records, e.name) < |ledger.records| && e == ledger.records[Find(ledger.records, e.name)]
    && Settled(d, e.path)
  }

  lemma HonestApart(d: Disk, manifest: Path, ledger: Ledger, e: Record)
    requires Switchable(d, manifest, ledger, e)
    ensures e in ledger.records && manifest != [] && e.path != [] && Apart(e.path, manifest)
  {}

  lemma SwitchIsCalm(d: Disk, manifest: Path, ledger: Ledger, e: Record, source: Path, sha: Digest, data: Content,
                     backup: Option<Backup>)
    requires Switchable(d, manifest, ledger, e)
    requires backup.Some? ==> Spare(d, manifest, ledger.records, backup.value)
    ensures Calm(d, SwitchPlan(manifest, data, e, source, sha, backup).specs)
  {
    hide Settled, Honest, Find, Calm;
    HonestApart(d, manifest, ledger, e);
    var live, own := Spec("live", e.path, WantFile(source)), Spec(MANIFEST, manifest, WantBytes(data, DEFAULT_MODE));
    CalmPair(d, live, own);
    if backup.Some? {
      var original := Spec("original", backup.value.path, WantFile(backup.value.source));
      CalmTriple(d, original, live, own);
      assert [original] + [live, own] == [original, live, own];
    }
  }

  /** What a switch plan consists of. */
  lemma SwitchShape(manifest: Path, records: seq<Record>, e: Record, source: Path, sha: Digest, data: Content,
                    backup: Option<Backup>)
    requires Layout(manifest, records) && e in records
    requires backup.Some? ==> Roomy(manifest, records, backup.value.path)
    ensures var plan := SwitchPlan(manifest, data, e, source, sha, backup);
            && (forall s :: s in plan.specs ==>
                  (s.role in plan.roles || s.role == MANIFEST) && s.after != WantAbsent && s.after != WantUnchanged
                  && Apart(s.path, Bak(manifest)))
            && PlanPaths(plan) == {e.path, manifest} + (if backup.Some? then {backup.value.path} else {})
            && Spec("live", e.path, WantFile(source)) in plan.specs
            && Spec(MANIFEST, manifest, WantBytes(data, DEFAULT_MODE)) in plan.specs
            && ExpectSha("live", true, sha) in plan.checks
  {
    BackupIsBeside(manifest);
    var plan := SwitchPlan(manifest, data, e, source, sha, backup);
    var n := |plan.specs|;
    var live, own := Spec("live", e.path, WantFile(source)), Spec(MANIFEST, manifest, WantBytes(data, DEFAULT_MODE));
    assert plan.specs[n - 2] == live && plan.specs[n - 1] == own && plan.checks[1] == ExpectSha("live", true, sha);
    if backup.Some? {
      var original := Spec("original", backup.value.path, WantFile(backup.value.source));
      assert plan.specs[0] == original && plan.specs == [original, live, own];
      assert plan.roles[0] == "original" && plan.roles[1] == "live";
    } else {
      assert plan.specs == [live, own] && plan.roles[0] == "live";
    }
  }

  lemma SwitchIsSound(d: Disk, manifest: Path, ledger: Ledger, e: Record, source: Path, sha: Digest,
                      backup: Option<Backup>)
    requires Switchable(d, manifest, ledger, e)
    requires backup.Some? ==> Spare(d, manifest, ledger.records, backup.value)
    ensures var after := Switched(ledger, e, sha);
            Sound(d, manifest, SwitchPlan(manifest, Current(after.records), e, source, sha, backup), after)
  {
    hide Calm, Settled, Beside, Standing, Honest, Layout, Follow, Trail;
    var entry, after := e.(sha := sha), Switched(ledger, e, sha);
    var plan := SwitchPlan(manifest, Current(after.records), e, source, sha, backup);
    HonestHas(d, manifest, ledger);
    SwitchLayout(manifest, ledger.records, entry);
    SwitchKeeps(manifest, ledger.records, entry);
    SwitchIsCalm(d, manifest, ledger, e, source, sha, Current(after.records), backup);
    SwitchShape(manifest, ledger.records, e, source, sha, Current(after.records), backup);
    var live := Spec("live", e.path, WantFile(source));
    forall r | r in after.records && r.name in after.reach
      ensures || (after.reach[r.name] == {r.path} && exists s :: Carries(plan, s, r))
              || (Agrees(Beside(d, manifest, plan), r)
                  && Trail(Beside(d, manifest, plan), r.path, MAX_LINKS) == after.reach[r.name])
    {
      if r == entry {
        assert Carries(plan, live, r);
      } else {
        HonestVouches(d, manifest, ledger, r);
        BesideAgrees(d, manifest, plan, {e.path}, r);
      }
    }
  }

  lemma HonestHas(d: Disk, manifest: Path, ledger: Ledger)
    requires Honest(d, manifest, ledger)
    ensures manifest != [] && Layout(manifest, ledger.records)
  {}

  lemma HonestVouches(d: Disk, manifest: Path, ledger: Ledger, r: Record)
    requires Honest(d, manifest, ledger) && r in ledger.records && r.name in ledger.reach
    ensures manifest != [] && Agrees(Standing(d, manifest), r)
            && Trail(Standing(d, manifest), r.path, MAX_LINKS) == ledger.reach[r.name]
  {}

  /** A new tool at a path apart from everything managed. */
  ghost predicate Joinable(d: Disk, manifest: Path, ledger: Ledger, entry: Record, backup: Backup)
  {
    && Honest(d, manifest, ledger) && Settled(d, manifest) && Find(ledger.records, entry.name) == |ledger.records|
    && Spare(d, manifest, ledger.records, backup)
    && Roomy(manifest, ledger.records, entry.path) && Apart(backup.path, entry.path)
  }

  lemma AdoptIsCalm(d: Disk, manifest: Path, ledger: Ledger, entry: Record, data: Content, backup: Backup)
    requires Joinable(d, manifest, ledger, entry, backup)
    ensures Calm(d, AdoptPlan(manifest, data, entry, backup).specs)
  {
    var guard, own := Spec("live-guard", entry.path, WantUnchanged), Spec(MANIFEST, manifest, WantBytes(data, DEFAULT_MODE));
    CalmPair(d, guard, own);
    CalmTriple(d, Spec("original", backup.path, WantFile(backup.source)), guard, own);
  }

  lemma AdoptShape(manifest: Path, records: seq<Record>, entry: Record, data: Content, backup: Backup)
    requires Roomy(manifest, records, backup.path) && Roomy(manifest, records, entry.path)
    ensures var plan := AdoptPlan(manifest, data, entry, backup);
            && (forall s :: s in plan.specs ==>
                  (s.role in plan.roles || s.role == MANIFEST || s.after.WantUnchanged?) && s.after != WantAbsent
                  && Apart(s.path, Bak(manifest)))
            && PlanPaths(plan) == {backup.path, manifest}
            && Spec(MANIFEST, manifest, WantBytes(data, DEFAULT_MODE)) in plan.specs
  {
    BackupIsBeside(manifest);
    var plan := AdoptPlan(manifest, data, entry, backup);
    var original, guard, own := Spec("original", backup.path, WantFile(backup.source)),
                                Spec("live-guard", entry.path, WantUnchanged),
                                Spec(MANIFEST, manifest, WantBytes(data, DEFAULT_MODE));
    assert plan.specs[0] == original && plan.specs[1] == guard && plan.specs[2] == own;
    assert plan.roles[0] == "original";
  }

  lemma AdoptIsSound(d: Disk, manifest: Path, ledger: Ledger, entry: Record, backup: Backup)
    requires Joinable(d, manifest, ledger, entry, backup)
    ensures var after := Adopted(ledger, entry, KnownTrail(d, manifest, entry));
            Sound(d, manifest, AdoptPlan(manifest, Current(after.records), entry, backup), after)
  {
    hide Calm, Settled, Beside, Standing, Honest, Layout, Follow, Trail;
    var after := Adopted(ledger, entry, KnownTrail(d, manifest, entry));
    var plan := AdoptPlan(manifest, Current(after.records), entry, backup);
    HonestHas(d, manifest, ledger);
    AdoptLayout(manifest, ledger.records, entry);
    AdoptIsCalm(d, manifest, ledger, entry, Current(after.records), backup);
    AdoptShape(manifest, ledger.records, entry, Current(after.records), backup);
    forall r | r in after.records && r.name in after.reach
      ensures Agrees(Beside(d, manifest, plan), r)
              && Trail(Beside(d, manifest, plan), r.path, MAX_LINKS) == after.reach[r.name]
    {
      if r in ledger.records {
        HonestVouches(d, manifest, ledger, r);
      } else {
        assert r == entry;
      }
      BesideAgrees(d, manifest, plan, {}, r);
    }
  }

  // ---- when nothing fails ----

  /** A plain file with this digest. */
  predicate Artifact(d: Disk, source: Path, sha: Digest)
  {
    IsFile(d.tree, source) && d.tree[source].Regular? && Sha(d.tree[source].data) == sha
  }

  lemma ArtifactReads(d: Disk, source: Path, sha: Digest)
    requires Artifact(d, source, sha)
    ensures Read(d.tree, source) == Some(sha)
  {}

  /** No journal is left over, and the manifest can be saved. */
  predicate Quiet(d: Disk, manifest: Path, records: seq<Record>)
    requires manifest != []
  {
    d.stage == NoJournal && Coherent(d.tree) && Writable(d.tree, manifest) && Valid(records)
  }

  /** The original can be backed up: nothing is in the way, and the copy is at hand. */
  predicate CanBackUp(d: Disk, backup: Backup, sha: Digest)
  {
    backup.path !in d.tree && Passable(d.tree, Dir(backup.path)) && Artifact(d, backup.source, sha)
  }

  /** The live file still has its recorded digest, and the artifact the one it is to be activated with. */
  predicate CanSwitch(d: Disk, e: Record, source: Path, sha: Digest)
  {
    && Capturable(d.tree, e.path) && Read(d.tree, e.path) == Some(e.sha)
    && Passable(d.tree, Dir(e.path)) && Artifact(d, source, sha)
  }

  lemma RolesAreValid()
    ensures ValidRole("live") && ValidRole("live-guard") && ValidRole("original") && ValidRole(MANIFEST)
  {}

  /** The tool is managed, and can be switched to this artifact. */
  predicate Activatable(d: Disk, records: seq<Record>, name: string, source: Path, sha: Digest)
  {
    Find(records, name) < |records| && CanSwitch(d, records[Find(records, name)], source, sha)
  }

  /** The file can be read, without coming across the manifest or its backup. */
  predicate Readable(d: Disk, manifest: Path, path: Path, sha: Digest)
    requires manifest != []
  {
    && Capturable(d.tree, path) && Read(d.tree, path) == Some(sha)
    && Trail(Seen(d.tree), path, MAX_LINKS) !! {manifest, Bak(manifest)}
  }

  /** A new tool: its name and path are free, its file can be read, and it can be backed up. */
  predicate Adoptable(d: Disk, manifest: Path, records: seq<Record>, name: string, path: Path, backup: Backup)
    requires manifest != []
  {
    && (forall r :: r in records ==> r.name != name && r.path != path)
    && Read(d.tree, path).Some? && Readable(d, manifest, path, Read(d.tree, path).value)
    && CanBackUp(d, backup, Read(d.tree, path).value)
  }

  lemma NewEntryIsValid(records: seq<Record>, entry: Record)
    requires Find(records, entry.name) == |records| && entry.path != []
    ensures Valid(records) && entry.name != "" && (forall r :: r in records ==> r.path != entry.path) ==>
              Valid(Putting(records, entry))
  {}

  lemma NewDigestIsValid(records: seq<Record>, e: Record, sha: Digest)
    requires Find(records, e.name) < |records| && e == records[Find(records, e.name)]
    ensures Valid(records) ==> Valid(Putting(records, e.(sha := sha)))
  {
    var after := Putting(records, e.(sha := sha));
    forall j | 0 <= j < |records|
      ensures after[j].name == records[j].name && after[j].path == records[j].path
    {
      PuttingAt(records, e.(sha := sha), j);
    }
  }

  lemma FeasiblePair(d: Disk, a: Spec, b: Spec)
    requires SpecFeasible(d, a) && SpecFeasible(d, b) && a.role != b.role && a.path != b.path
    ensures Feasible(d, [a, b])
  {}

  lemma FeasibleTriple(d: Disk, a: Spec, b: Spec, c: Spec)
    requires Feasible(d, [b, c]) && SpecFeasible(d, a)
    requires a.role != b.role && a.role != c.role && a.path != b.path && a.path != c.path
    ensures Feasible(d, [a, b, c])
  {
    var two, three := [b, c], [a, b, c];
    assert two[0] in two && two[1] in two;
    assert two[0].role != two[1].role && two[0].path != two[1].path;
    assert forall s :: s in three ==> s == a || s in two;
  }

  lemma ManifestIsFeasible(d: Disk, manifest: Path, records: seq<Record>)
    requires manifest != [] && Writable(d.tree, manifest) && Coherent(d.tree)
    ensures SpecFeasible(d, ManifestSpec(manifest, records))
  {
    RolesAreValid();
    DirIsPassable(d.tree, Dir(manifest));
  }

  lemma SwitchIsSmooth(d: Disk, manifest: Path, e: Record, source: Path, sha: Digest, after: seq<Record>)
    requires manifest != [] && Apart(e.path, manifest)
    requires d.stage == NoJournal && Coherent(d.tree) && Writable(d.tree, manifest) && Valid(after)
    requires CanSwitch(d, e, source, sha)
    ensures Smooth(d, manifest, SwitchPlan(manifest, Current(after), e, source, sha, None), after)
  {
    var plan := SwitchPlan(manifest, Current(after), e, source, sha, None);
    var live, own := Spec("live", e.path, WantFile(source)), ManifestSpec(manifest, after);
    assert plan.specs == [live, own] && live in plan.specs;
    LiveIsForeseen(d, plan, live, e, source, sha);
    assert SpecFeasible(d, live);
    ManifestIsFeasible(d, manifest, after);
    FeasiblePair(d, live, own);
    PairIsSmooth(d, manifest, plan, after, live, own);
  }

  lemma PairIsSmooth(d: Disk, manifest: Path, plan: Plan, after: seq<Record>, live: Spec, own: Spec)
    requires manifest != [] && d.stage == NoJournal && Coherent(d.tree) && Writable(d.tree, manifest) && Valid(after)
    requires plan.specs == [live, own] && plan.roles == [live.role] && own == ManifestSpec(manifest, after)
    requires live.role != MANIFEST && live.after.WantFile? && Passable(d.tree, Dir(live.path))
    requires AllForeseen(d, plan) && Feasible(d, plan.specs)
    ensures Smooth(d, manifest, plan, after)
  {
    hide AllForeseen, Writable, Valid, Feasible, Coherent, AllApplicable, Passable;
    assert plan.specs[0] == live && plan.specs[1] == own;
    OnlyLiveMoves(d, plan, live, own);
  }

  lemma OnlyLiveMoves(d: Disk, plan: Plan, live: Spec, own: Spec)
    requires plan.specs == [live, own] && plan.roles == [live.role] && own.role == MANIFEST
    requires live.role != MANIFEST && live.after.WantFile? && Passable(d.tree, Dir(live.path))
    ensures AllApplicable(d, plan)
  {
    assert plan.specs[0] == live && plan.roles[0] == live.role;
    assert forall s :: s in plan.specs && s.role in plan.roles ==> s == live;
  }

  lemma LiveIsForeseen(d: Disk, plan: Plan, live: Spec, e: Record, source: Path, sha: Digest)
    requires live == Spec("live", e.path, WantFile(source)) && live in plan.specs && CanSwitch(d, e, source, sha)
    requires plan.checks == [ExpectSha("live", false, e.sha), ExpectSha("live", true, sha)]
    ensures AllForeseen(d, plan)
  {
    ArtifactReads(d, source, sha);
    assert Foreseen(d, plan.specs, ExpectSha("live", false, e.sha));
    assert Foreseen(d, plan.specs, ExpectSha("live", true, sha));
  }

  /** Backing the original up on the way adds one participant, two checks and one role. */
  lemma BackupIsSmooth(d: Disk, manifest: Path, e: Record, source: Path, sha: Digest, after: seq<Record>, backup: Backup)
    requires manifest != [] && Apart(e.path, manifest) && Apart(backup.path, manifest) && Apart(backup.path, e.path)
    requires Smooth(d, manifest, SwitchPlan(manifest, Current(after), e, source, sha, None), after)
    requires CanBackUp(d, backup, e.sha) && backup.path != []
    ensures Smooth(d, manifest, SwitchPlan(manifest, Current(after), e, source, sha, Some(backup)), after)
  {
    hide AllForeseen, AllApplicable, Steadfast, Writable, Valid, Coherent;
    RolesAreValid();
    var small := SwitchPlan(manifest, Current(after), e, source, sha, None);
    var plan := SwitchPlan(manifest, Current(after), e, source, sha, Some(backup));
    var original := Spec("original", backup.path, WantFile(backup.source));
    assert small.specs == [small.specs[0], small.specs[1]];
    FeasibleTriple(d, original, small.specs[0], small.specs[1]);
    assert plan.specs == [original] + small.specs == [original, small.specs[0], small.specs[1]];
    OneMoreMoves(d, manifest, small, plan, after, original, e.sha);
  }

  lemma OneMoreMoves(d: Disk, manifest: Path, small: Plan, plan: Plan, after: seq<Record>, original: Spec, sha: Digest)
    requires manifest != [] && Smooth(d, manifest, small, after) && Feasible(d, plan.specs)
    requires plan.specs == [original] + small.specs && plan.roles == [original.role] + small.roles
    requires plan.checks == small.checks + [ExpectAbsent(original.role), ExpectSha(original.role, true, sha)]
    requires original.role != MANIFEST && forall s :: s in small.specs ==> s.role != original.role
    requires forall s :: s in small.specs ==> !s.after.WantUnchanged?
    requires original.after.WantFile? && CanBackUp(d, Backup(original.path, original.after.source), sha)
    ensures Smooth(d, manifest, plan, after)
  {
    hide AllForeseen, AllApplicable, Foreseen, Writable, Steadfast, Coherent, Valid;
    assert original in plan.specs && SpecFeasible(d, original);
    OriginalIsForeseen(d, plan.specs, original, sha);
    AllForeseenInMore(d, small, plan, [ExpectAbsent(original.role), ExpectSha(original.role, true, sha)]);
    AllApplicableInMore(d, small, plan, original);
  }

  lemma AllApplicableInMore(d: Disk, small: Plan, plan: Plan, original: Spec)
    requires plan.specs == [original] + small.specs && plan.roles == [original.role] + small.roles
    requires original.role != MANIFEST && forall t :: t in small.specs ==> t.role != original.role
    requires original.after.WantFile? && original.path !in d.tree && Passable(d.tree, Dir(original.path))
    requires AllApplicable(d, small)
    ensures AllApplicable(d, plan)
  {
    assert original in plan.specs && forall s :: s in small.specs ==> s in plan.specs;
    forall s | s in plan.specs && s.role in plan.roles ensures Applicable(d, plan, s) {
      ApplicableInMore(d, small, plan, original, s);
    }
  }

  lemma ApplicableInMore(d: Disk, small: Plan, plan: Plan, original: Spec, s: Spec)
    requires plan.specs == [original] + small.specs && plan.roles == [original.role] + small.roles
    requires forall t :: t in small.specs ==> t.role != original.role
    requires original.after.WantFile? && original.path !in d.tree && Passable(d.tree, Dir(original.path))
    requires forall t :: t in small.specs && t.role in small.roles ==> Applicable(d, small, t)
    requires s in plan.specs && s.role in plan.roles
    ensures Applicable(d, plan, s)
  {
    if s != original {
      assert s in small.specs && s.role in small.roles && Applicable(d, small, s);
      forall t | t in plan.specs && t.role in plan.roles && t != s && s.path in d.tree && d.tree[s.path].Symlink?
        ensures t.path !in d.tree
      {
        if t != original {
          assert t in small.specs && t.role in small.roles;
        }
      }
    }
  }

  lemma OriginalIsForeseen(d: Disk, specs: seq<Spec>, original: Spec, sha: Digest)
    requires original in specs && original.after.WantFile? && original.path != []
    requires original.path !in d.tree && Artifact(d, original.after.source, sha)
    ensures Foreseen(d, specs, ExpectAbsent(original.role)) && Foreseen(d, specs, ExpectSha(original.role, true, sha))
  {
    ArtifactReads(d, original.after.source, sha);
  }

  lemma AllForeseenInMore(d: Disk, small: Plan, plan: Plan, more: seq<Check>)
    requires AllForeseen(d, small) && forall c :: c in more ==> Foreseen(d, plan.specs, c)
    requires (forall s :: s in small.specs ==> s in plan.specs) && plan.checks == small.checks + more
    ensures AllForeseen(d, plan)
  {
    forall c | c in plan.checks ensures Foreseen(d, plan.specs, c) {
      if c in small.checks {
        ForeseenInMore(d, small.specs, plan.specs, c);
      }
    }
  }

  lemma ForeseenInMore(d: Disk, fewer: seq<Spec>, more: seq<Spec>, c: Check)
    requires Foreseen(d, fewer, c) && forall s :: s in fewer ==> s in more
    ensures Foreseen(d, more, c)
  {}

  lemma AdoptIsSmooth(d: Disk, manifest: Path, entry: Record, after: seq<Record>, backup: Backup)
    requires manifest != [] && Apart(entry.path, manifest) && Apart(backup.path, manifest) && Apart(backup.path, entry.path)
    requires d.stage == NoJournal && Coherent(d.tree) && Writable(d.tree, manifest) && Valid(after)
    requires CanBackUp(d, backup, entry.sha) && backup.path != []
    requires Readable(d, manifest, entry.path, entry.sha)
    ensures Smooth(d, manifest, AdoptPlan(manifest, Current(after), entry, backup), after)
  {
    RolesAreValid();
    ManifestIsFeasible(d, manifest, after);
    var plan := AdoptPlan(manifest, Current(after), entry, backup);
    var original, guard, own := Spec("original", backup.path, WantFile(backup.source)),
                                Spec("live-guard", entry.path, WantUnchanged), ManifestSpec(manifest, after);
    assert plan.specs == [original, guard, own];
    FeasiblePair(d, guard, own);
    FeasibleTriple(d, original, guard, own);
    GuardedBackupIsSmooth(d, manifest, plan, after, original, guard, own, entry.sha);
  }

  /** The same for any names of the three roles. */
  lemma GuardedBackupIsSmooth(d: Disk, manifest: Path, plan: Plan, after: seq<Record>,
                              original: Spec, guard: Spec, own: Spec, sha: Digest)
    requires manifest != [] && d.stage == NoJournal && Coherent(d.tree) && Writable(d.tree, manifest) && Valid(after)
    requires plan.specs == [original, guard, own] && plan.roles == [original.role]
    requires plan.checks == [ExpectAbsent(original.role), ExpectSha(original.role, true, sha),
                             ExpectSha(guard.role, false, sha)]
    requires own == ManifestSpec(manifest, after) && guard.after.WantUnchanged? && original.after.WantFile?
    requires original.role != guard.role && own.role != guard.role && own.role != original.role
    requires Feasible(d, plan.specs) && CanBackUp(d, Backup(original.path, original.after.source), sha)
    requires Readable(d, manifest, guard.path, sha)
    ensures Smooth(d, manifest, plan, after)
  {
    hide AllForeseen, Writable, Follow, Trail, Seen, Steadfast, Valid, Coherent;
    OnlyOneMoves(plan, original, guard, own);
    assert SpecFeasible(d, original) && original.path != [];
    ForeseenAll(d, plan, original, guard, sha);
    GuardIsSteadfast(d, manifest, plan, original, guard, own, sha);
    assert Applicable(d, plan, original);
  }

  lemma GuardIsSteadfast(d: Disk, manifest: Path, plan: Plan, original: Spec, guard: Spec, own: Spec, sha: Digest)
    requires manifest != [] && plan.specs == [original, guard, own] && own.path == manifest
    requires guard.after.WantUnchanged? && original.path !in d.tree && Readable(d, manifest, guard.path, sha)
    ensures Steadfast(d, manifest, plan, guard)
  {
    TrailIsThere(Seen(d.tree), guard.path, MAX_LINKS);
    assert PlanPaths(plan) <= {original.path, manifest};
  }

  lemma ForeseenAll(d: Disk, plan: Plan, original: Spec, guard: Spec, sha: Digest)
    requires original in plan.specs && guard in plan.specs && original.path != []
    requires plan.checks == [ExpectAbsent(original.role), ExpectSha(original.role, true, sha),
                             ExpectSha(guard.role, false, sha)]
    requires original.after.WantFile? && CanBackUp(d, Backup(original.path, original.after.source), sha)
    requires Read(d.tree, guard.path) == Some(sha)
    ensures AllForeseen(d, plan)
  {
    OriginalIsForeseen(d, plan.specs, original, sha);
  }

  lemma OnlyOneMoves(plan: Plan, original: Spec, guard: Spec, own: Spec)
    requires plan.specs == [original, guard, own] && plan.roles == [original.role]
    requires original.role != guard.role && own.role != guard.role && own.role != original.role
    ensures own.role !in plan.roles && original in plan.specs && guard in plan.specs && own in plan.specs
    ensures forall s :: s in plan.specs && s.role in plan.roles ==> s == original
    ensures forall role :: role in plan.roles ==> role == original.role
  {}

  // ---- who else is affected ----

  lemma {:induction false} LoneTrailIsPlain(view: View, path: Path, links: nat)
    requires Follow(view, path, links).Some? && Trail(view, path, links) <= {path}
    ensures view[path].Plain?
    decreases links
  {
    if view[path].Leads? {
      assert view[path].to in Trail(view, view[path].to, links - 1);
      LoneTrailIsPlain(view, path, links - 1);
    }
  }

  /** What was on the disk for good and is not written is there for good afterwards. */
  lemma StandingExtends(a: Disk, b: Disk, manifest: Path, paths: set<Path>, replaced: Path)
    requires manifest != [] && Coherent(a.tree) && Added(a, b, paths)
    requires forall p :: p in paths - {manifest, Bak(manifest), replaced} ==> p !in a.tree
    ensures Extends(Standing(a, manifest) - {replaced}, Standing(b, manifest))
  {
    AddedExtends(a, b, paths);
  }

  /** After a switch, what another tool that was vouched for leads to has changed if and only if it was read
      through the switched file. */
  lemma OthersReadExactly(a: Disk, b: Disk, manifest: Path, paths: set<Path>, before: Ledger, e: Record, sha: Digest, r: Record)
    requires Honest(a, manifest, before) && Honest(b, manifest, Switched(before, e, sha)) && Coherent(a.tree)
    requires Added(a, b, paths) && forall p :: p in paths - {manifest, Bak(manifest), e.path} ==> p !in a.tree
    requires Find(before.records, e.name) < |before.records| && e == before.records[Find(before.records, e.name)]
    requires r in before.records && r.name in before.reach && r.name != e.name
    ensures Follow(Standing(b, manifest), r.path, MAX_LINKS) == Some(if e.path in before.reach[r.name] then sha else r.sha)
  {
    var after := Switched(before, e, sha);
    HonestVouches(a, manifest, before, r);
    SwitchedHas(before, e, sha, r);
    if e.path !in before.reach[r.name] {
      HonestVouches(b, manifest, after, r);
    } else {
      HonestVouches(b, manifest, after, e.(sha := sha));
      LoneTrailIsPlain(Standing(b, manifest), e.path, MAX_LINKS);
      StandingExtends(a, b, manifest, paths, e.path);
      ReadsAt(Standing(a, manifest), Standing(b, manifest), e.path, r.path, MAX_LINKS);
    }
  }

  lemma SwitchedHas(before: Ledger, e: Record, sha: Digest, r: Record)
    requires Find(before.records, e.name) < |before.records| && r in before.records && r.name != e.name
    ensures r in Switched(before, e, sha).records && e.(sha := sha) in Switched(before, e, sha).records
  {
    var i, after := Find(before.records, e.name), Switched(before, e, sha).records;
    var j :| 0 <= j < |before.records| && before.records[j] == r;
    assert after[j] == r && after[i] == e.(sha := sha);
  }

  /** The disk before a command, with the directories synced that the command syncs. */
  function Synced(a: Disk, b: Disk, manifest: Path, backup: Path): Disk
  {
    Hardened(a, Touched(a.tree, b.tree) + {Dir(backup), Dir(manifest)})
  }

  lemma MinusTwice(view: View, first: set<Path>, second: set<Path>)
    ensures view - first - second == view - (first + second)
  {}

  lemma SyncedForGood(a: Disk, b: Disk, manifest: Path, backup: Path)
    requires manifest != [] && Coherent(a.tree) && Added(a, b, {backup, manifest, Bak(manifest)})
    ensures Standing(b, manifest) - {backup} == Standing(Synced(a, b, manifest, backup), manifest) - {backup}
    ensures backup !in a.tree ==> backup !in Standing(Synced(a, b, manifest, backup), manifest)
  {
    BackupIsBeside(manifest);
    var paths, c := {backup, manifest, Bak(manifest)}, Synced(a, b, manifest, backup);
    assert DirsOf(paths) == {Dir(backup), Dir(manifest)};
    AddedForGood(a, b, paths);
    assert paths == {manifest, Bak(manifest)} + {backup};
    MinusTwice(ForGood(b), {manifest, Bak(manifest)}, {backup});
    MinusTwice(ForGood(c), {manifest, Bak(manifest)}, {backup});
  }

  /** Reading the live file of the new tool does not come across the new backup. */
  lemma BackupIsOffTheTrail(a: Disk, b: Disk, manifest: Path, backup: Path, path: Path)
    requires manifest != [] && backup !in a.tree && Added(a, b, {backup, manifest, Bak(manifest)})
    requires Read(a.tree, path).Some? && Trail(Seen(a.tree), path, MAX_LINKS) !! {manifest, Bak(manifest)}
    requires Follow(Standing(b, manifest), path, MAX_LINKS).Some?
    ensures backup !in Trail(Standing(b, manifest), path, MAX_LINKS)
  {
    TrailIsThere(Seen(a.tree), path, MAX_LINKS);
    UntouchedReads(Seen(a.tree), Seen(b.tree), {backup, manifest, Bak(manifest)}, path, MAX_LINKS);
    ForGoodIsSeen(b);
    ExtendedReads(Standing(b, manifest), Seen(b.tree), path, MAX_LINKS);
  }

  /** After an adoption the tool agrees if and only if its file would be there for good once the
      directories that the adoption synced have been synced. */
  lemma AdoptedAgreesExactly(a: Disk, b: Disk, manifest: Path, backup: Path, entry: Record)
    requires manifest != [] && Coherent(a.tree) && backup !in a.tree
    requires Added(a, b, {backup, manifest, Bak(manifest)})
    requires Read(a.tree, entry.path) == Some(entry.sha)
    requires Trail(Seen(a.tree), entry.path, MAX_LINKS) !! {manifest, Bak(manifest)}
    ensures Agrees(Standing(b, manifest), entry) <==> Agrees(Standing(Synced(a, b, manifest, backup), manifest), entry)
  {
    hide Added, Standing, Synced, Read;
    var now, synced := Standing(b, manifest), Standing(Synced(a, b, manifest, backup), manifest);
    SyncedForGood(a, b, manifest, backup);
    if Agrees(synced, entry) {
      TrailIsThere(synced, entry.path, MAX_LINKS);
      UntouchedReads(synced, now, {backup}, entry.path, MAX_LINKS);
    }
    if Agrees(now, entry) {
      BackupIsOffTheTrail(a, b, manifest, backup, entry.path);
      UntouchedReads(now, synced, {backup}, entry.path, MAX_LINKS);
    }
  }

  // ---- what is refused ----

  /** The live path is no link that leads to the manifest or its backup. */
  predicate Straight(d: Disk, manifest: Path, path: Path)
    requires manifest != []
  {
    path in d.tree && d.tree[path].Symlink? ==> Trail(Seen(d.tree), path, MAX_LINKS) !! {manifest, Bak(manifest)}
  }

  /** The manifest lies in a directory that is kept and can be saved, and the live path does not lead there. */
  predicate Tame(d: Disk, places: Places, manifest: Path, records: seq<Record>, path: Path)
    requires manifest != []
  {
    Ready(d, manifest, records) && EmptyParents.Kept(places, Dir(manifest)) && Straight(d, manifest, path)
  }

  /** Nothing has failed: the command has been carried out and has cleaned up, or the disk is at rest as before,
      with these entries as they were. */
  ghost predicate Returned(start: Disk, fs: FileSystem, manifest: Path, before: Ledger, paths: set<Path>, ok: bool)
    requires manifest != []
    reads fs
  {
    && fs.alive && (ok || Stages(start) == {NoJournal} ==> Stages(fs.disk) == {NoJournal})
    && (!ok ==> Idle(fs.disk, manifest, before) && Ready(fs.disk, manifest, before.records)
                && forall p :: p in paths ==> Slot(fs.disk, p) == Slot(start, p))
  }

  /** The file at `source` has been copied to this path, data and mode, and stays there; its digest is this one. */
  ghost predicate Installed(a: Disk, b: Disk, source: Path, path: Path, sha: Digest)
  {
    && source in a.tree && path in b.tree && b.tree[path] == a.tree[source]
    && b.tree[path].Regular? && Sha(b.tree[path].data) == sha && Lasting(b, path)
  }

  /** A file that is read through a path is there, and a free path is not on the way. */
  lemma ReadIsThere(tree: Tree, path: Path, free: Path)
    requires Read(tree, path).Some? && free !in tree
    ensures IsFile(tree, path) && free !in Trail(Seen(tree), path, MAX_LINKS)
  {
    TrailIsThere(Seen(tree), path, MAX_LINKS);
  }

  lemma LivePathInPlace(d: Disk, manifest: Path, plan: Plan, s: Spec, other: Option<Path>)
    requires manifest != [] && Coherent(d.tree) && Read(d.tree, s.path).Some? && Straight(d, manifest, s.path)
    requires other.Some? ==> other.value !in d.tree
    requires PlanPaths(plan) <= {s.path, manifest} + (if other.Some? then {other.value} else {})
    ensures InPlace(d, manifest, plan, s)
  {
    ReadIsThere(d.tree, s.path, if other.Some? then other.value else []);
  }

  lemma FreePathInPlace(d: Disk, manifest: Path, plan: Plan, s: Spec)
    requires manifest != [] && s.path != [] && IsDir(d.tree, Dir(s.path)) && !s.after.WantUnchanged?
    requires s.path in d.tree ==> d.tree[s.path].Regular?
    ensures InPlace(d, manifest, plan, s)
  {}

  /** Only the first participant may be new in a directory that is not kept. */
  lemma PlanIsRetractable(d: Disk, places: Places, manifest: Path, plan: Plan)
    requires manifest != [] && MANIFEST !in plan.roles && EmptyParents.Kept(places, Dir(manifest))
    requires forall s :: s in plan.specs ==> InPlace(d, manifest, plan, s)
    requires forall n :: 0 < n < |plan.specs| && Slot(d, plan.specs[n].path) == Gone ==> plan.specs[n].path == manifest
    ensures Retractable(d, places, manifest, plan)
  {
    hide InPlace, EmptyParents.Kept;
  }

  lemma SwitchRoles(manifest: Path, data: Content, e: Record, source: Path, sha: Digest, backup: Option<Backup>)
    ensures MANIFEST !in SwitchPlan(manifest, data, e, source, sha, backup).roles
  {
    RolesAreValid();
  }

  lemma AdoptRoles(manifest: Path, data: Content, entry: Record, backup: Backup)
    ensures MANIFEST !in AdoptPlan(manifest, data, entry, backup).roles
  {
    RolesAreValid();
  }

  lemma ReadyIsInPlace(d: Disk, places: Places, manifest: Path, records: seq<Record>, path: Path, plan: Plan, own: Spec)
    requires manifest != [] && Tame(d, places, manifest, records, path) && own.path == manifest && !own.after.WantUnchanged?
    ensures InPlace(d, manifest, plan, own) && EmptyParents.Kept(places, Dir(manifest))
  {
    hide Straight, EmptyParents.Kept;
  }

  /** The participants of both plans: a new backup, the live file, and the manifest. */
  lemma BackedUpIsRetractable(d: Disk, places: Places, manifest: Path, records: seq<Record>, plan: Plan,
                              original: Spec, live: Spec, own: Spec)
    requires manifest != [] && Coherent(d.tree) && Tame(d, places, manifest, records, live.path)
    requires plan.specs == [original, live, own] && MANIFEST !in plan.roles && Read(d.tree, live.path).Some?
    requires own.path == manifest && !own.after.WantUnchanged? && !original.after.WantUnchanged?
    requires original.path != [] && original.path !in d.tree && IsDir(d.tree, Dir(original.path))
    ensures Retractable(d, places, manifest, plan)
  {
    hide InPlace, Straight, EmptyParents.Kept, Retractable, Read;
    ReadyIsInPlace(d, places, manifest, records, live.path, plan, own);
    LivePathInPlace(d, manifest, plan, live, Some(original.path));
    FreePathInPlace(d, manifest, plan, original);
    ReadIsThere(d.tree, live.path, original.path);
    PlanIsRetractable(d, places, manifest, plan);
  }

  lemma BareIsRetractable(d: Disk, places: Places, manifest: Path, records: seq<Record>, plan: Plan, live: Spec, own: Spec)
    requires manifest != [] && Coherent(d.tree) && Tame(d, places, manifest, records, live.path)
    requires plan.specs == [live, own] && MANIFEST !in plan.roles && Read(d.tree, live.path).Some?
    requires own.path == manifest && !own.after.WantUnchanged?
    ensures Retractable(d, places, manifest, plan)
  {
    hide InPlace, Straight, EmptyParents.Kept, Retractable, Read;
    ReadyIsInPlace(d, places, manifest, records, live.path, plan, own);
    LivePathInPlace(d, manifest, plan, live, None);
    PlanIsRetractable(d, places, manifest, plan);
  }

  lemma SwitchIsRetractable(d: Disk, places: Places, manifest: Path, records: seq<Record>, data: Content, e: Record,
                            source: Path, sha: Digest, backup: Option<Backup>)
    requires manifest != [] && Coherent(d.tree) && Tame(d, places, manifest, records, e.path) && Read(d.tree, e.path).Some?
    requires backup.Some? ==> backup.value.path != [] && backup.value.path !in d.tree && IsDir(d.tree, Dir(backup.value.path))
    ensures Retractable(d, places, manifest, SwitchPlan(manifest, data, e, source, sha, backup))
  {
    hide Tame, Retractable, Read, Coherent;
    var plan := SwitchPlan(manifest, data, e, source, sha, backup);
    var live, own := Spec("live", e.path, WantFile(source)), Spec(MANIFEST, manifest, WantBytes(data, DEFAULT_MODE));
    SwitchRoles(manifest, data, e, source, sha, backup);
    if backup.Some? {
      var original := Spec("original", backup.value.path, WantFile(backup.value.source));
      assert plan.specs == [original, live, own];
      BackedUpIsRetractable(d, places, manifest, records, plan, original, live, own);
    } else {
      BareIsRetractable(d, places, manifest, records, plan, live, own);
    }
  }

  lemma AdoptIsRetractable(d: Disk, places: Places, manifest: Path, records: seq<Record>, data: Content, entry: Record,
                           backup: Backup)
    requires manifest != [] && Coherent(d.tree) && Tame(d, places, manifest, records, entry.path)
    requires Read(d.tree, entry.path).Some?
    requires backup.path != [] && backup.path !in d.tree && IsDir(d.tree, Dir(backup.path))
    ensures Retractable(d, places, manifest, AdoptPlan(manifest, data, entry, backup))
  {
    hide Tame, Retractable, Read, Coherent;
    var original, guard, own := Spec("original", backup.path, WantFile(backup.source)),
                                Spec("live-guard", entry.path, WantUnchanged),
                                Spec(MANIFEST, manifest, WantBytes(data, DEFAULT_MODE));
    AdoptRoles(manifest, data, entry, backup);
    BackedUpIsRetractable(d, places, manifest, records, AdoptPlan(manifest, data, entry, backup), original, guard, own);
  }

  lemma PlanPathsBack(a: Disk, b: Disk, plan: Plan)
    requires Withdrawn(a, b, plan)
    ensures forall p :: p in PlanPaths(plan) ==> Slot(b, p) == Slot(a, p)
  {}

  // ---- what has been carried out ----

  /** A participant that is to become a copy of a file is one now. */
  lemma IsCopied(a: Disk, b: Disk, plan: Plan, intent: Intent, s: Spec, source: Path)
    requires AllCaptured(a, plan.specs, intent) && Fulfilled(b, plan, intent)
    requires s in plan.specs && s.after == WantFile(source) && s.path != []
    ensures source in a.tree && s.path in b.tree && b.tree[s.path] == a.tree[source] && b.tree[s.path].Regular?
    ensures forall sha :: ExpectSha(s.role, true, sha) in plan.checks ==> Sha(b.tree[s.path].data) == sha
    ensures Slot(a, s.path) == Gone ==> Lasting(b, s.path)
  {
    hide AllCaptured, ValidIntent;
    var m := MutationOf(a, plan.specs, intent, s);
    assert Reached(b, m, true);
    OneFits(Slot(a, source), Slot(b, s.path), m.after);
    forall sha | ExpectSha(s.role, true, sha) in plan.checks ensures Sha(b.tree[s.path].data) == sha {
      assert Satisfied(ExpectSha(s.role, true, sha), intent);
      RolesAreUnique(intent, m);
    }
    if Slot(a, s.path) == Gone {
      assert !Guard(m) && Firm(b, Dir(s.path));
    }
  }

  lemma VouchedIsLasting(d: Disk, manifest: Path, ledger: Ledger, r: Record)
    requires Honest(d, manifest, ledger) && r in ledger.records && r.name in ledger.reach
    ensures Lasting(d, r.path)
  {
    HonestVouches(d, manifest, ledger, r);
    assert r.path in Standing(d, manifest);
  }

  lemma SwitchInstalls(a: Disk, b: Disk, manifest: Path, before: Ledger, e: Record, source: Path, sha: Digest, data: Content,
                       backup: Option<Backup>, intent: Intent)
    requires Switchable(a, manifest, before, e) && Honest(b, manifest, Switched(before, e, sha))
    requires backup.Some? ==> Spare(a, manifest, before.records, backup.value)
    requires var plan := SwitchPlan(manifest, data, e, source, sha, backup);
             AllCaptured(a, plan.specs, intent) && Fulfilled(b, plan, intent)
    ensures Installed(a, b, source, e.path, sha)
    ensures backup.Some? ==> Installed(a, b, backup.value.source, backup.value.path, e.sha)
  {
    hide AllCaptured, Fulfilled, Honest, Switched, Lasting, Roomy, Settled;
    HonestApart(a, manifest, before, e);
    var plan, n := SwitchPlan(manifest, data, e, source, sha, backup), if backup.Some? then 1 else 0;
    var live := Spec("live", e.path, WantFile(source));
    assert plan.specs[n] == live && plan.checks[1] == ExpectSha("live", true, sha);
    IsCopied(a, b, plan, intent, live, source);
    SwitchedIsLasting(b, manifest, before, e, sha);
    if backup.Some? {
      var original := Spec("original", backup.value.path, WantFile(backup.value.source));
      assert plan.specs[0] == original && plan.checks[3] == ExpectSha("original", true, e.sha);
      SpareIsFree(a, manifest, before.records, backup);
      IsCopied(a, b, plan, intent, original, backup.value.source);
    }
  }

  lemma SwitchedIsLasting(d: Disk, manifest: Path, before: Ledger, e: Record, sha: Digest)
    requires Honest(d, manifest, Switched(before, e, sha)) && Find(before.records, e.name) < |before.records|
    ensures Lasting(d, e.path)
  {
    hide Honest, Lasting;
    var after := Switched(before, e, sha);
    assert after.records[Find(before.records, e.name)] == e.(sha := sha);
    VouchedIsLasting(d, manifest, after, e.(sha := sha));
  }

  lemma AdoptInstalls(a: Disk, b: Disk, manifest: Path, records: seq<Record>, entry: Record, data: Content, backup: Backup,
                      intent: Intent)
    requires Spare(a, manifest, records, backup)
    requires var plan := AdoptPlan(manifest, data, entry, backup);
             AllCaptured(a, plan.specs, intent) && Fulfilled(b, plan, intent)
    ensures Installed(a, b, backup.source, backup.path, entry.sha)
  {
    hide AllCaptured, Fulfilled, Lasting, Roomy, Settled;
    var plan, original := AdoptPlan(manifest, data, entry, backup), Spec("original", backup.path, WantFile(backup.source));
    assert plan.specs[0] == original && plan.checks[1] == ExpectSha("original", true, entry.sha);
    SpareIsFree(a, manifest, records, Some(backup));
    IsCopied(a, b, plan, intent, original, backup.source);
  }

  // ---- the commands ----

  /** A command starts at rest, with the manifest in memory and its place on the disk settled. */
  ghost predicate Started(d: Disk, manifest: Path, m: Manifest, ledger: Ledger)
    reads m
  {
    Idle(d, manifest, ledger) && Settled(d, manifest) && m.schema == CURRENT_SCHEMA && m.records == ledger.records
  }

  /** The new manifest is there and tells the truth, and no crash or recovery takes that back. */
  ghost predicate Done(d: Disk, intent: Intent, manifest: Path, after: Ledger)
  {
    Honest(d, manifest, after) && Consistent(d, intent, manifest, after, after) && Ready(d, manifest, after.records)
  }

  /** After a switch the other tools lead for good to what they led to, except that those that were read
      through the switched file now lead to its new content. Such a tool still agrees with its record if and
      only if that is the recorded content. */
  ghost predicate OthersExactly(now: Disk, manifest: Path, before: Ledger, e: Record, sha: Digest)
    requires manifest != []
  {
    forall r :: r in before.records && r.name in before.reach && r.name != e.name ==>
      Follow(Standing(now, manifest), r.path, MAX_LINKS) == Some(if e.path in before.reach[r.name] then sha else r.sha)
  }

  lemma AtRestIsConsistent(d: Disk, intent: Intent, manifest: Path, ledger: Ledger)
    requires Idle(d, manifest, ledger)
    ensures Consistent(d, intent, manifest, ledger, ledger) && manifest != [] && Coherent(d.tree)
    ensures Honest(d, manifest, ledger)
  {}

  method Switch(fs: FileSystem, places: Places, manifest: Path, m: Manifest, id: string, e: Record, source: Path,
                sha: Digest, backup: Option<Backup>, ghost before: Ledger)
    returns (ok: bool, ghost intent: Intent, ghost after: Ledger)
    requires ValidId(id) && Started(fs.disk, manifest, m, before) && Switchable(fs.disk, manifest, before, e)
    requires backup.Some? ==> Spare(fs.disk, manifest, before.records, backup.value)
    modifies fs, m`records
    ensures fs.alive ==> old(fs.alive)
    ensures Consistent(fs.disk, intent, manifest, before, after)
    ensures FilesKept(old(fs.disk), fs.disk, SwitchPaths(manifest, e, backup))
    ensures after == before || after == Switched(before, e, sha)
    ensures ok ==> m.records == after.records && Done(fs.disk, intent, manifest, after) && after == Switched(before, e, sha)
                   && OthersExactly(fs.disk, manifest, before, e, sha)
    ensures ok ==> Installed(old(fs.disk), fs.disk, source, e.path, sha)
    ensures ok && backup.Some? ==> Installed(old(fs.disk), fs.disk, backup.value.source, backup.value.path, e.sha)
    ensures old(fs.Steady()) && Quiet(old(fs.disk), manifest, before.records)
            && CanSwitch(old(fs.disk), e, source, sha)
            && (backup.Some? ==> CanBackUp(old(fs.disk), backup.value, e.sha)) ==>
              ok && Stages(fs.disk) == {NoJournal} && fs.alive
    // Without faults, it is carried out or leaves the disk at rest.
    ensures old(fs.Steady()) && Tame(old(fs.disk), places, manifest, before.records, e.path)
            && Read(old(fs.disk).tree, e.path).Some?
            && (backup.Some? ==> IsDir(old(fs.disk).tree, Dir(backup.value.path))) ==>
              Returned(old(fs.disk), fs, manifest, before, SwitchPaths(manifest, e, backup) - {Bak(manifest)}, ok)
  {
    hide Idle, Settled, Spare, Consistent, Writable, CanSwitch, CanBackUp, OthersExactly, Smooth, Sound, Honest, Added,
         AllCaptured, Layout, Fulfilled, Installed, Withdrawn, Retractable, Straight, EmptyParents.Kept;
    intent, after := Intent(id, []), before;
    AtRestIsConsistent(fs.disk, intent, manifest, before);
    var entry := e.(sha := sha);
    var target := m.Clone();
    target.Put(entry);
    NewDigestIsValid(m.records, e, sha);
    var encoded := target.EncodeManifest();
    if encoded.None? {
      return false, intent, after;
    }
    after := Switched(before, e, sha);
    SwitchTouches(manifest, encoded.value, e, source, sha, backup);
    SwitchIsSound(fs.disk, manifest, before, e, source, sha, backup);
    SwitchWillDo(fs.disk, manifest, before, e, source, sha, backup);
    if Tame(fs.disk, places, manifest, before.records, e.path) && Read(fs.disk.tree, e.path).Some?
       && (backup.Some? ==> IsDir(fs.disk.tree, Dir(backup.value.path))) {
      SpareIsFree(fs.disk, manifest, before.records, backup);
      SwitchIsRetractable(fs.disk, places, manifest, before.records, encoded.value, e, source, sha, backup);
    }
    ok, intent := Transact(fs, places, manifest, m, id,
                           SwitchPlan(manifest, encoded.value, e, source, sha, backup), entry, before, after);
    if ok {
      SwitchDone(old(fs.disk), fs.disk, manifest, before, e, source, sha, backup, intent);
      SwitchInstalls(old(fs.disk), fs.disk, manifest, before, e, source, sha, encoded.value, backup, intent);
    } else if Withdrawn(old(fs.disk), fs.disk, SwitchPlan(manifest, encoded.value, e, source, sha, backup)) {
      PlanPathsBack(old(fs.disk), fs.disk, SwitchPlan(manifest, encoded.value, e, source, sha, backup));
    }
  }

  /** What a switch may write. */
  function SwitchPaths(manifest: Path, e: Record, backup: Option<Backup>): set<Path>
    requires manifest != []
  {
    {e.path, manifest, Bak(manifest)} + (if backup.Some? then {backup.value.path} else {})
  }

  lemma SwitchTouches(manifest: Path, data: Content, e: Record, source: Path, sha: Digest, backup: Option<Backup>)
    requires manifest != []
    ensures var paths := PlanPaths(SwitchPlan(manifest, data, e, source, sha, backup));
            && paths + {manifest, Bak(manifest)} == SwitchPaths(manifest, e, backup)
            && SwitchPaths(manifest, e, backup) - {Bak(manifest)} <= paths
  {
    var plan := SwitchPlan(manifest, data, e, source, sha, backup);
    var live, own := Spec("live", e.path, WantFile(source)), Spec(MANIFEST, manifest, WantBytes(data, DEFAULT_MODE));
    if backup.Some? {
      assert plan.specs == [Spec("original", backup.value.path, WantFile(backup.value.source)), live, own];
      assert plan.specs[0] in plan.specs && plan.specs[1] in plan.specs;
    } else {
      assert plan.specs == [live, own];
      assert plan.specs[0] in plan.specs;
    }
  }

  lemma SpareIsFree(d: Disk, manifest: Path, records: seq<Record>, backup: Option<Backup>)
    requires backup.Some? ==> Spare(d, manifest, records, backup.value)
    ensures backup.Some? ==> backup.value.path != [] && backup.value.path !in d.tree
  {}

  lemma SwitchWillDo(d: Disk, manifest: Path, before: Ledger, e: Record, source: Path, sha: Digest, backup: Option<Backup>)
    requires Switchable(d, manifest, before, e)
    requires backup.Some? ==> Spare(d, manifest, before.records, backup.value)
    ensures var after := Switched(before, e, sha).records;
            Quiet(d, manifest, before.records) && CanSwitch(d, e, source, sha)
            && (backup.Some? ==> CanBackUp(d, backup.value, e.sha)) ==>
              Smooth(d, manifest, SwitchPlan(manifest, Current(after), e, source, sha, backup), after)
  {
    var after := Switched(before, e, sha).records;
    HonestApart(d, manifest, before, e);
    NewDigestIsValid(before.records, e, sha);
    if Quiet(d, manifest, before.records) && CanSwitch(d, e, source, sha)
       && (backup.Some? ==> CanBackUp(d, backup.value, e.sha))
    {
      SwitchIsSmooth(d, manifest, e, source, sha, after);
      if backup.Some? {
        BackupIsSmooth(d, manifest, e, source, sha, after, backup.value);
      }
    }
  }

  /** Besides the live file and the manifest, a switch writes only what was not there. */
  lemma SwitchWrites(d: Disk, manifest: Path, records: seq<Record>, e: Record, source: Path, sha: Digest, data: Content,
                     backup: Option<Backup>, intent: Intent)
    requires Layout(manifest, records) && e in records
    requires backup.Some? ==> Spare(d, manifest, records, backup.value)
    requires AllCaptured(d, SwitchPlan(manifest, data, e, source, sha, backup).specs, intent)
    ensures forall p :: p in Written(intent, manifest) - {manifest, Bak(manifest), e.path} ==> p !in d.tree
  {
    SwitchShape(manifest, records, e, source, sha, data, backup);
    MoversArePlanned(d, SwitchPlan(manifest, data, e, source, sha, backup), intent);
  }

  lemma SwitchDone(a: Disk, b: Disk, manifest: Path, before: Ledger, e: Record, source: Path, sha: Digest,
                   backup: Option<Backup>, intent: Intent)
    requires Switchable(a, manifest, before, e) && Coherent(a.tree)
    requires backup.Some? ==> Spare(a, manifest, before.records, backup.value)
    requires var plan := SwitchPlan(manifest, Current(Switched(before, e, sha).records), e, source, sha, backup);
             AllCaptured(a, plan.specs, intent)
    requires Honest(b, manifest, Switched(before, e, sha)) && Added(a, b, Written(intent, manifest))
    ensures OthersExactly(b, manifest, before, e, sha)
  {
    hide Honest, Added, AllCaptured, Settled, Standing, Switched, Spare, SwitchPlan, Agrees;
    HonestApart(a, manifest, before, e);
    HonestHas(a, manifest, before);
    SwitchWrites(a, manifest, before.records, e, source, sha, Current(Switched(before, e, sha).records), backup, intent);
    forall r | r in before.records && r.name in before.reach && r.name != e.name
      ensures Follow(Standing(b, manifest), r.path, MAX_LINKS) == Some(if e.path in before.reach[r.name] then sha else r.sha)
    {
      OthersReadExactly(a, b, manifest, Written(intent, manifest), before, e, sha, r);
    }
  }

  /** The transaction of an adoption. */
  method Register(fs: FileSystem, places: Places, manifest: Path, m: Manifest, id: string, entry: Record,
                  backup: Backup, ghost before: Ledger)
    returns (ok: bool, ghost intent: Intent, ghost after: Ledger)
    requires ValidId(id) && Started(fs.disk, manifest, m, before) && Joinable(fs.disk, manifest, before, entry, backup)
    modifies fs, m`records
    ensures fs.alive ==> old(fs.alive)
    ensures Consistent(fs.disk, intent, manifest, before, after)
    ensures FilesKept(old(fs.disk), fs.disk, {backup.path, manifest, Bak(manifest)})
    ensures after == before || after == Adopted(before, entry, KnownTrail(old(fs.disk), manifest, entry))
    ensures ok ==> m.records == after.records && Done(fs.disk, intent, manifest, after)
                   && after == Adopted(before, entry, KnownTrail(old(fs.disk), manifest, entry))
                   && Added(old(fs.disk), fs.disk, {backup.path, manifest, Bak(manifest)})
                   && Installed(old(fs.disk), fs.disk, backup.source, backup.path, entry.sha)
    ensures old(fs.Steady()) && Quiet(old(fs.disk), manifest, before.records) && entry.name != ""
            && Readable(old(fs.disk), manifest, entry.path, entry.sha)
            && (forall r :: r in before.records ==> r.path != entry.path)
            && CanBackUp(old(fs.disk), backup, entry.sha) ==>
              ok && Stages(fs.disk) == {NoJournal} && fs.alive
    ensures old(fs.Steady()) && Tame(old(fs.disk), places, manifest, before.records, entry.path)
            && Read(old(fs.disk).tree, entry.path).Some? && IsDir(old(fs.disk).tree, Dir(backup.path)) ==>
              Returned(old(fs.disk), fs, manifest, before, {backup.path, manifest}, ok)
  {
    hide AdoptPlan, PlanPaths, SpecFeasible, CanBackUp, Idle, Settled, Consistent, Smooth, Sound, Honest, Added, AllCaptured, Readable, KnownTrail, Layout, Fulfilled, Installed, Withdrawn,
         Retractable, Straight, EmptyParents.Kept, Writable;
    intent, after := Intent(id, []), before;
    AtRestIsConsistent(fs.disk, intent, manifest, before);
    var target := m.Clone();
    target.Put(entry);
    NewEntryIsValid(m.records, entry);
    var encoded := target.EncodeManifest();
    if encoded.None? {
      return false, intent, after;
    }
    after := Adopted(before, entry, KnownTrail(fs.disk, manifest, entry));
    AdoptIsSound(fs.disk, manifest, before, entry, backup);
    AdoptTouches(manifest, before.records, encoded.value, entry, backup);
    ghost var plan := AdoptPlan(manifest, encoded.value, entry, backup);
    if Quiet(fs.disk, manifest, before.records) && CanBackUp(fs.disk, backup, entry.sha) && Valid(after.records)
       && Readable(fs.disk, manifest, entry.path, entry.sha) {
      AdoptIsSmooth(fs.disk, manifest, entry, after.records, backup);
    }
    if Tame(fs.disk, places, manifest, before.records, entry.path) && Read(fs.disk.tree, entry.path).Some?
       && IsDir(fs.disk.tree, Dir(backup.path)) {
      SpareIsFree(fs.disk, manifest, before.records, Some(backup));
      AdoptIsRetractable(fs.disk, places, manifest, before.records, encoded.value, entry, backup);
    }
    ok, intent := Transact(fs, places, manifest, m, id, AdoptPlan(manifest, encoded.value, entry, backup), entry,
                           before, after);
    if ok {
      AdoptWrites(old(fs.disk), manifest, before, entry, backup, encoded.value, intent);
      AdoptInstalls(old(fs.disk), fs.disk, manifest, before.records, entry, encoded.value, backup, intent);
    } else if Withdrawn(old(fs.disk), fs.disk, AdoptPlan(manifest, encoded.value, entry, backup)) {
      PlanPathsBack(old(fs.disk), fs.disk, AdoptPlan(manifest, encoded.value, entry, backup));
    }
  }

  lemma AdoptTouches(manifest: Path, records: seq<Record>, data: Content, entry: Record, backup: Backup)
    requires Roomy(manifest, records, backup.path) && Roomy(manifest, records, entry.path)
    ensures PlanPaths(AdoptPlan(manifest, data, entry, backup)) + {manifest, Bak(manifest)}
            == {backup.path, manifest, Bak(manifest)}
    ensures PlanPaths(AdoptPlan(manifest, data, entry, backup)) == {backup.path, manifest}
  {
    AdoptShape(manifest, records, entry, data, backup);
  }

  /** An adoption writes exactly the backup and the manifest. */
  lemma AdoptWrites(d: Disk, manifest: Path, before: Ledger, entry: Record, backup: Backup, data: Content, intent: Intent)
    requires Joinable(d, manifest, before, entry, backup)
    requires AllCaptured(d, AdoptPlan(manifest, data, entry, backup).specs, intent)
    ensures Written(intent, manifest) == {backup.path, manifest, Bak(manifest)}
  {
    hide AllCaptured, Honest, Settled, Lasting, Matches;
    var plan := AdoptPlan(manifest, data, entry, backup);
    AdoptShape(manifest, before.records, entry, data, backup);
    MoversArePlanned(d, plan, intent);
    var original := Spec("original", backup.path, WantFile(backup.source));
    assert plan.specs[0] == original;
    var m := MutationOf(d, plan.specs, intent, original);
    AbsentMoves(d, original, m);
    assert m.path in Movers(intent);
  }

  lemma AbsentMoves(d: Disk, s: Spec, m: Mutation)
    requires Captured(d, s, m) && s.after.WantFile? && Slot(d, s.path) == Gone
    ensures !Guard(m)
  {}

  /** The digest of a live file is what adoption records. */
  function NewEntry(tree: Tree, name: string, path: Path): Record
    requires Read(tree, path).Some?
  {
    Record(name, path, Read(tree, path).value)
  }

  /** A tool of this name has been adopted from this disk. */
  ghost predicate Adoption(d: Disk, manifest: Path, before: Ledger, after: Ledger, name: string, path: Path)
    requires manifest != []
  {
    && Find(before.records, name) == |before.records| && Read(d.tree, path).Some?
    && var entry := NewEntry(d.tree, name, path); after == Adopted(before, entry, KnownTrail(d, manifest, entry))
  }

  /** The tool of this name has been switched to new content. */
  predicate Activation(before: Ledger, after: Ledger, name: string, sha: Digest)
  {
    Find(before.records, name) < |before.records| && after == Switched(before, before.records[Find(before.records, name)], sha)
  }

  /** Where the live file of a managed tool has reached the disk. Vouching for a tool says so; an unvouched
      one may have been adopted before it was. */
  ghost predicate LiveSettled(d: Disk, records: seq<Record>, name: string)
  {
    Find(records, name) < |records| ==> Settled(d, records[Find(records, name)].path)
  }

  /** The live file of a tool, and the manifest. */
  function LivePaths(manifest: Path, records: seq<Record>, name: string): set<Path>
    requires manifest != []
  {
    {manifest, Bak(manifest)} + (if Find(records, name) < |records| then {records[Find(records, name)].path} else {})
  }

  /** Register a new tool without touching its file. */
  method Adopt(fs: FileSystem, places: Places, manifest: Path, m: Manifest, id: string, name: string, path: Path,
               backup: Backup, ghost before: Ledger)
    returns (ok: bool, ghost intent: Intent, ghost after: Ledger)
    requires ValidId(id) && Started(fs.disk, manifest, m, before)
    requires Roomy(manifest, m.records, backup.path) && Settled(fs.disk, backup.path)
    requires Roomy(manifest, m.records, path) && Apart(backup.path, path)
    modifies fs, m`records
    ensures fs.alive ==> old(fs.alive)
    ensures Consistent(fs.disk, intent, manifest, before, after)
    ensures FilesKept(old(fs.disk), fs.disk,
                      {manifest, Bak(manifest)} + (if backup.path in old(fs.disk.tree) then {} else {backup.path}))
    ensures after == before || Adoption(old(fs.disk), manifest, before, after, name, path)
    ensures ok ==> m.records == after.records && Done(fs.disk, intent, manifest, after)
                   && Adoption(old(fs.disk), manifest, before, after, name, path)
                   && Added(old(fs.disk), fs.disk, {backup.path, manifest, Bak(manifest)})
    // Neither the name nor the path was managed and nothing was in the place of the backup.
    ensures ok ==> (forall r :: r in before.records ==> r.name != name && r.path != path)
                   && backup.path !in old(fs.disk.tree)
    // The original has been backed up, data and mode.
    ensures ok ==> Installed(old(fs.disk), fs.disk, backup.source, backup.path, Read(old(fs.disk.tree), path).value)
    // Whether or not the live file had reached the disk, this is exactly when the new record is true for good.
    ensures ok && Trail(Seen(old(fs.disk).tree), path, MAX_LINKS) !! {manifest, Bak(manifest)} ==>
              var entry := NewEntry(old(fs.disk.tree), name, path);
              Agrees(Standing(fs.disk, manifest), entry)
              <==> Agrees(Standing(Synced(old(fs.disk), fs.disk, manifest, backup.path), manifest), entry)
    // Without faults, only what the command checks can stop it.
    ensures old(fs.Steady()) && Quiet(old(fs.disk), manifest, before.records) && name != ""
            && Adoptable(old(fs.disk), manifest, before.records, name, path, backup) ==>
              ok && Stages(fs.disk) == {NoJournal} && fs.alive
    // And whatever stops it, the disk is at rest.
    ensures old(fs.Steady()) && Tame(old(fs.disk), places, manifest, before.records, path)
            && IsDir(old(fs.disk).tree, Dir(backup.path)) ==>
              Returned(old(fs.disk), fs, manifest, before, {backup.path, manifest}, ok)
  {
    hide Idle, Settled, Consistent, Done, Added, Synced, Agrees, KnownTrail, Honest, Layout, Installed, Writable, Straight,
         EmptyParents.Kept;
    intent, after := Intent(id, []), before;
    AtRestIsConsistent(fs.disk, intent, manifest, before);
    var sha := Read(fs.disk.tree, path);
    if sha.None? {
      return false, intent, after;
    }
    var existing := m.Get(name);
    if existing.Some? || (exists r :: r in m.records && r.path == path) || backup.path in fs.disk.tree {
      return false, intent, after;
    }
    ok, intent, after := Register(fs, places, manifest, m, id, Record(name, path, sha.value), backup, before);
    if ok && Trail(Seen(old(fs.disk).tree), path, MAX_LINKS) !! {manifest, Bak(manifest)} {
      AdoptedAgreesExactly(old(fs.disk), fs.disk, manifest, backup.path, Record(name, path, sha.value));
    }
  }

  lemma UpgradePaths(manifest: Path, records: seq<Record>, name: string, backup: Backup, needed: bool)
    requires Roomy(manifest, records, backup.path) && Find(records, name) < |records|
    ensures var all := SwitchPaths(manifest, records[Find(records, name)], if needed then Some(backup) else None);
            var live, original := LivePaths(manifest, records, name), if needed then {backup.path} else {};
            all == live + original && all - {Bak(manifest)} == live - {Bak(manifest)} + original
  {}

  /** Activate the artifact `source`, whose digest is `sha`, and back the original up if nothing did. */
  method Upgrade(fs: FileSystem, places: Places, manifest: Path, m: Manifest, id: string, name: string, source: Path,
                 sha: Digest, backup: Backup, ghost before: Ledger)
    returns (ok: bool, ghost intent: Intent, ghost after: Ledger)
    requires ValidId(id) && Started(fs.disk, manifest, m, before) && LiveSettled(fs.disk, m.records, name)
    requires Roomy(manifest, m.records, backup.path) && Settled(fs.disk, backup.path)
    modifies fs, m`records
    ensures fs.alive ==> old(fs.alive)
    ensures Consistent(fs.disk, intent, manifest, before, after)
    ensures FilesKept(old(fs.disk), fs.disk, LivePaths(manifest, before.records, name)
                                             + (if backup.path in old(fs.disk.tree) then {} else {backup.path}))
    ensures after == before || Activation(before, after, name, sha)
    ensures ok ==> m.records == after.records && Done(fs.disk, intent, manifest, after) && Activation(before, after, name, sha)
                   && OthersExactly(fs.disk, manifest, before, before.records[Find(before.records, name)], sha)
    // The live file was still what is recorded.
    ensures ok ==> Read(old(fs.disk.tree), before.records[Find(before.records, name)].path)
                   == Some(before.records[Find(before.records, name)].sha)
    // The artifact has been installed, data and mode, and the original been backed up unless that was done before.
    ensures ok ==> Installed(old(fs.disk), fs.disk, source, before.records[Find(before.records, name)].path, sha)
    ensures ok && backup.path !in old(fs.disk.tree) ==>
              Installed(old(fs.disk), fs.disk, backup.source, backup.path, before.records[Find(before.records, name)].sha)
    ensures old(fs.Steady()) && Quiet(old(fs.disk), manifest, before.records)
            && Activatable(old(fs.disk), before.records, name, source, sha)
            && (backup.path in old(fs.disk.tree)
                || CanBackUp(old(fs.disk), backup, before.records[Find(before.records, name)].sha)) ==>
              ok && Stages(fs.disk) == {NoJournal} && fs.alive
    ensures old(fs.Steady()) && Ready(old(fs.disk), manifest, before.records) && IsDir(old(fs.disk).tree, Dir(backup.path))
            && (Find(before.records, name) < |before.records| ==>
                  Tame(old(fs.disk), places, manifest, before.records, before.records[Find(before.records, name)].path)) ==>
              Returned(old(fs.disk), fs, manifest, before,
                       LivePaths(manifest, before.records, name) - {Bak(manifest)}
                       + (if backup.path in old(fs.disk.tree) then {} else {backup.path}), ok)
  {
    hide LivePaths, SwitchPaths, Read, Capturable, Settled, Consistent, Done, OthersExactly, CanBackUp, Honest, Layout, Installed, Follow, Writable, Straight, Idle,
         EmptyParents.Kept;
    intent, after := Intent(id, []), before;
    AtRestIsConsistent(fs.disk, intent, manifest, before);
    var e := m.Get(name);
    if e.None? || Read(fs.disk.tree, e.value.path) != Some(e.value.sha) {
      return false, intent, after;
    }
    var needed := if backup.path in fs.disk.tree then None else Some(backup);
    UpgradePaths(manifest, before.records, name, backup, needed.Some?);
    ok, intent, after := Switch(fs, places, manifest, m, id, e.value, source, sha, needed, before);
  }

  /** Activate an artifact of the lineage, or the original. The artifact must still have the digest
      that the history, or the adoption anchor, recorded for it. */
  method Rollback(fs: FileSystem, places: Places, manifest: Path, m: Manifest, id: string, name: string, source: Path,
                  recorded: Option<Digest>, ghost before: Ledger)
    returns (ok: bool, ghost intent: Intent, ghost after: Ledger)
    requires ValidId(id) && Started(fs.disk, manifest, m, before) && LiveSettled(fs.disk, m.records, name)
    modifies fs, m`records
    ensures fs.alive ==> old(fs.alive)
    ensures Consistent(fs.disk, intent, manifest, before, after)
    ensures FilesKept(old(fs.disk), fs.disk, LivePaths(manifest, before.records, name))
    ensures after == before
            || (Read(old(fs.disk.tree), source).Some? && (recorded.Some? ==> Read(old(fs.disk.tree), source) == recorded)
                && Activation(before, after, name, Read(old(fs.disk.tree), source).value))
    // Neither the live file nor the artifact had drifted.
    ensures ok ==> Find(before.records, name) < |before.records|
                   && Read(old(fs.disk.tree), before.records[Find(before.records, name)].path)
                      == Some(before.records[Find(before.records, name)].sha)
    ensures ok ==> m.records == after.records && Done(fs.disk, intent, manifest, after)
                   && Read(old(fs.disk.tree), source).Some? && (recorded.Some? ==> Read(old(fs.disk.tree), source) == recorded)
                   && Activation(before, after, name, Read(old(fs.disk.tree), source).value)
                   && OthersExactly(fs.disk, manifest, before, before.records[Find(before.records, name)],
                                    Read(old(fs.disk.tree), source).value)
                   && Installed(old(fs.disk), fs.disk, source, before.records[Find(before.records, name)].path,
                                Read(old(fs.disk.tree), source).value)
    ensures old(fs.Steady()) && Quiet(old(fs.disk), manifest, before.records)
            && Read(old(fs.disk.tree), source).Some? && (recorded.Some? ==> Read(old(fs.disk.tree), source) == recorded)
            && Activatable(old(fs.disk), before.records, name, source, Read(old(fs.disk.tree), source).value) ==>
              ok && Stages(fs.disk) == {NoJournal} && fs.alive
    ensures old(fs.Steady()) && Ready(old(fs.disk), manifest, before.records)
            && (Find(before.records, name) < |before.records| ==>
                  Tame(old(fs.disk), places, manifest, before.records, before.records[Find(before.records, name)].path)) ==>
              Returned(old(fs.disk), fs, manifest, before, LivePaths(manifest, before.records, name) - {Bak(manifest)}, ok)
  {
    hide Settled, Spare, Consistent, Done, OthersExactly, Honest, Layout, Installed, Follow, Writable, Straight, Idle,
         EmptyParents.Kept;
    intent, after := Intent(id, []), before;
    AtRestIsConsistent(fs.disk, intent, manifest, before);
    var e := m.Get(name);
    if e.None? || Read(fs.disk.tree, e.value.path) != Some(e.value.sha) {
      return false, intent, after;
    }
    var sha := Read(fs.disk.tree, source);
    if sha.None? || (recorded.Some? && sha != recorded) {
      return false, intent, after;
    }
    ok, intent, after := Switch(fs, places, manifest, m, id, e.value, source, sha.value, None, before);
  }

  // ---- when nobody is read through another tool's file ----

  /** Every tool is vouched for. */
  predicate Full(ledger: Ledger)
  {
    forall r :: r in ledger.records ==> r.name in ledger.reach
  }

  /** No managed file leads to the file of another tool. */
  predicate Separate(ledger: Ledger)
  {
    forall r, s :: r in ledger.records && s in ledger.records && r.name != s.name && r.name in ledger.reach ==>
      s.path !in ledger.reach[r.name]
  }

  /** A switch keeps vouching for everybody if and only if nobody else is read through the switched file. */
  lemma NobodyIsLost(manifest: Path, before: Ledger, e: Record, sha: Digest)
    requires Layout(manifest, before.records) && Full(before)
    requires Find(before.records, e.name) < |before.records| && e == before.records[Find(before.records, e.name)]
    ensures Full(Switched(before, e, sha)) <==>
            forall r :: r in before.records && r.name != e.name ==> e.path !in before.reach[r.name]
    ensures Separate(before) ==> Full(Switched(before, e, sha)) && Separate(Switched(before, e, sha))
  {
    var entry, after := e.(sha := sha), Switched(before, e, sha);
    SwitchKeeps(manifest, before.records, entry);
    forall r | r in before.records && r.name != e.name ensures r in after.records {
      SwitchedHas(before, e, sha, r);
    }
    assert forall r :: r in after.records && r != entry ==> r in before.records && r.name != e.name;
    if Separate(before) {
      SeparateStays(manifest, before, e, sha);
    }
  }

  lemma SeparateStays(manifest: Path, before: Ledger, e: Record, sha: Digest)
    requires Layout(manifest, before.records) && Separate(before)
    requires Find(before.records, e.name) < |before.records| && e == before.records[Find(before.records, e.name)]
    ensures Separate(Switched(before, e, sha))
  {
    var entry, after := e.(sha := sha), Switched(before, e, sha);
    SwitchKeeps(manifest, before.records, entry);
    forall r, s | r in after.records && s in after.records && r.name != s.name && r.name in after.reach
      ensures s.path !in after.reach[r.name]
    {
      if r == entry {
        assert s in before.records && s.name != e.name;
        PathsDiffer(manifest, before.records, e, s);
      } else {
        assert r in before.records && (s == entry || s in before.records);
      }
    }
  }

  lemma PathsDiffer(manifest: Path, records: seq<Record>, r: Record, s: Record)
    requires Layout(manifest, records) && r in records && s in records && r.name != s.name
    ensures r.path != s.path
  {
    var i :| 0 <= i < |records| && records[i] == r;
    var j :| 0 <= j < |records| && records[j] == s;
    assert i < j ==> Apart(records[i].path, records[j].path);
    assert j < i ==> Apart(records[j].path, records[i].path);
  }

  /** Reading a file comes across nothing but what has reached the disk and is not the manifest's, and across
      no managed file; and no managed file leads to it. */
  ghost predicate Independent(d: Disk, manifest: Path, records: seq<Record>, path: Path)
    requires manifest != []
  {
    var trail := Trail(Seen(d.tree), path, MAX_LINKS);
    && trail <= Standing(d, manifest).Keys
    && forall r :: r in records ==> r.path !in trail && path !in Trail(Seen(d.tree), r.path, MAX_LINKS)
  }

  lemma StandingIsSeen(d: Disk, manifest: Path)
    requires manifest != []
    ensures Extends(Standing(d, manifest), Seen(d.tree))
  {
    ForGoodIsSeen(d);
  }

  /** A file is read for good if and only if all that reading it comes across is there for good. */
  lemma KnownExactly(d: Disk, manifest: Path, entry: Record)
    requires manifest != [] && Read(d.tree, entry.path) == Some(entry.sha)
    ensures var trail := Trail(Seen(d.tree), entry.path, MAX_LINKS);
            KnownTrail(d, manifest, entry) == if trail <= Standing(d, manifest).Keys then Some(trail) else None
  {
    hide Standing, Seen;
    var seen, now := Seen(d.tree), Standing(d, manifest);
    StandingIsSeen(d, manifest);
    if Agrees(now, entry) {
      ExtendedReads(now, seen, entry.path, MAX_LINKS);
      TrailIsThere(now, entry.path, MAX_LINKS);
    }
    if Trail(seen, entry.path, MAX_LINKS) <= now.Keys {
      UntouchedReads(seen, now, seen.Keys - now.Keys, entry.path, MAX_LINKS);
    }
  }

  lemma VouchedTrail(d: Disk, manifest: Path, ledger: Ledger, r: Record)
    requires Honest(d, manifest, ledger) && r in ledger.records && r.name in ledger.reach
    ensures manifest != [] && ledger.reach[r.name] == Trail(Seen(d.tree), r.path, MAX_LINKS)
  {
    hide Standing, Seen;
    HonestVouches(d, manifest, ledger, r);
    StandingIsSeen(d, manifest);
    ExtendedReads(Standing(d, manifest), Seen(d.tree), r.path, MAX_LINKS);
  }

  /** A file that is vouched for does not lead to the manifest. */
  lemma VouchedIsStraight(d: Disk, manifest: Path, ledger: Ledger, r: Record)
    requires Honest(d, manifest, ledger) && r in ledger.records && r.name in ledger.reach
    ensures manifest != [] && Straight(d, manifest, r.path)
  {
    hide Seen;
    VouchedTrail(d, manifest, ledger, r);
    HonestVouches(d, manifest, ledger, r);
    TrailIsThere(Standing(d, manifest), r.path, MAX_LINKS);
  }

  /** An adoption keeps vouching for everybody, and nobody else read through a tool's file, if and only if its
      file is independent of the others. */
  lemma AdoptedKeepsAllExactly(d: Disk, manifest: Path, before: Ledger, after: Ledger, name: string, path: Path)
    requires manifest != [] && Honest(d, manifest, before) && Full(before) && Separate(before)
    requires Adoption(d, manifest, before, after, name, path)
    ensures Full(after) && Separate(after) <==> Independent(d, manifest, before.records, path)
  {
    hide Honest, KnownTrail, Standing, Seen;
    var entry := NewEntry(d.tree, name, path);
    var trail := KnownTrail(d, manifest, entry);
    KnownExactly(d, manifest, entry);
    forall r | r in before.records ensures before.reach[r.name] == Trail(Seen(d.tree), r.path, MAX_LINKS) {
      VouchedTrail(d, manifest, before, r);
    }
    OneMoreIsSeparate(before, entry, trail);
  }

  lemma OneMoreIsSeparate(before: Ledger, entry: Record, trail: Option<set<Path>>)
    requires Full(before) && Separate(before) && Find(before.records, entry.name) == |before.records|
    ensures var after := Adopted(before, entry, trail);
            Full(after) && Separate(after) <==>
              trail.Some? && forall r :: r in before.records ==> r.path !in trail.value && entry.path !in before.reach[r.name]
  {
    var after := Adopted(before, entry, trail);
    assert after.records == before.records + [entry];
    assert entry in after.records && forall r :: r in before.records ==> r in after.records && r.name != entry.name;
    assert forall r :: r in after.records ==> r == entry || r in before.records;
  }
}
