/** One command as one transaction, from PREPARED to the removed journal. */
module Activate {
  import opened Options
  import opened Files
  import opened Disks
  import opened Views
  import opened Journal
  import opened DurableFs
  import opened EmptyParents
  import opened JournalDir
  import opened Recovery
  import opened Capture
  import opened Transactions
  import opened Managed
  import opened Reversals
  import opened ManifestFile
  import opened Additions
  import opened Commands

  /** The invariant of every run: at rest with one of two manifests, or inside a transaction that
      leads to one of them. */
  ghost predicate Consistent(d: Disk, intent: Intent, manifest: Path, before: Ledger, after: Ledger)
  {
    Idle(d, manifest, before) || Idle(d, manifest, after) || Guarded(d, intent, manifest, before, after)
  }

  lemma CrashKeepsConsistent(a: Disk, b: Disk, intent: Intent, manifest: Path, before: Ledger, after: Ledger)
    requires Consistent(a, intent, manifest, before, after) && Crashed(a, b)
    ensures Consistent(b, intent, manifest, before, after)
  {
    if Idle(a, manifest, before) {
      CrashKeepsIdle(a, b, manifest, before);
    } else if Idle(a, manifest, after) {
      CrashKeepsIdle(a, b, manifest, after);
    } else {
      CrashKeepsGuarded(a, b, intent, manifest, before, after);
    }
  }

  /** Whenever no transaction is pending, the manifest is the whole old or the whole new document
      and tells the truth. */
  lemma ConsistentAtRest(d: Disk, intent: Intent, manifest: Path, before: Ledger, after: Ledger)
    requires Consistent(d, intent, manifest, before, after) && Pending !in Stages(d)
    ensures Idle(d, manifest, before) || Idle(d, manifest, after)
  {
    if Guarded(d, intent, manifest, before, after) {
      GuardedSettles(d, intent, manifest, before, after);
    }
  }

  lemma ForGoodSameFiles(a: Disk, b: Disk)
    requires SameFiles(a, b)
    ensures ForGood(b) == ForGood(a) && forall p :: Lasting(b, p) <==> Lasting(a, p)
  {
    SameFilesSameOutcomes(a, b);
    forall p ensures Lasting(b, p) <==> Lasting(a, p) {
      assert Outcomes(b, p) == Outcomes(a, p);
    }
  }

  lemma HonestSameFiles(a: Disk, b: Disk, manifest: Path, ledger: Ledger)
    requires Honest(a, manifest, ledger) && SameFiles(a, b)
    ensures Honest(b, manifest, ledger)
  {
    ForGoodSameFiles(a, b);
    assert Standing(b, manifest) == Standing(a, manifest);
  }

  lemma IdleSameFiles(a: Disk, b: Disk, manifest: Path, ledger: Ledger)
    requires Idle(a, manifest, ledger) && SameFiles(a, b) && Pending !in Stages(b)
    ensures Idle(b, manifest, ledger)
  {
    HonestSameFiles(a, b, manifest, ledger);
  }

  // ---- steps that keep a transaction guarded ----

  /** From `a` to `b` nothing of what a transaction does not write has changed. */
  ghost predicate Respects(a: Disk, b: Disk, intent: Intent, manifest: Path)
    requires manifest != []
  {
    Coherent(b.tree) && FilesKept(a, b, Movers(intent) + {manifest, Bak(manifest)}) && ManifestKept(a, b, intent, manifest)
  }

  lemma ElsewhereRespects(a: Disk, b: Disk, intent: Intent, manifest: Path)
    requires manifest != [] && ValidIntent(intent) && Elsewhere(a, b, intent)
    ensures Respects(a, b, intent, manifest)
  {
    ElsewhereKeepsManifest(a, b, intent, manifest);
  }

  lemma SameFilesRespect(a: Disk, b: Disk, intent: Intent, manifest: Path)
    requires manifest != [] && SameFiles(a, b) && Coherent(a.tree)
    ensures Respects(a, b, intent, manifest)
  {
    SameFilesSameOutcomes(a, b);
  }

  lemma GuardedStep(a: Disk, b: Disk, intent: Intent, manifest: Path, before: Ledger, after: Ledger)
    requires Guarded(a, intent, manifest, before, after) && manifest != [] && Respects(a, b, intent, manifest)
    requires Undecided(a, intent) ==> Undecided(b, intent)
    requires Forward(a, intent) ==> Forward(b, intent) && (Steered(a, intent, true) ==> Steered(b, intent, true))
    ensures Guarded(b, intent, manifest, before, after)
  {
    if SideTrue(a, intent, manifest, before, false) {
      SideKept(a, b, intent, manifest, before, false);
    }
    if SideTrue(a, intent, manifest, after, true) {
      SideKept(a, b, intent, manifest, after, true);
    }
  }

  // ---- recovery ----

  /** What an attempt to recover does, however it ends. */
  ghost predicate Attempted(a: Disk, b: Disk, places: Places, intent: Intent)
  {
    && Coherent(b.tree)
    && (Safe(a, intent) && (Stages(b) == {Pending} || Backing(a, places, intent)) ==>
          Safe(b, intent) && forall after :: Steered(a, intent, after) ==> Steered(b, intent, after))
    && (Safe(a, intent) ==> HoldsSide(a, b, intent))
    && (Pending !in Stages(a) ==> Pending !in Stages(b))
    && (a.stage == Pending && a.box.intent.Some? ==> Elsewhere(a, b, a.box.intent.value))
    && (a.stage != Pending || a.box.intent.None? ==> SameFiles(a, b))
  }

  lemma AttemptRespects(a: Disk, b: Disk, places: Places, intent: Intent, manifest: Path)
    requires manifest != [] && Safe(a, intent) && Attempted(a, b, places, intent)
    ensures Respects(a, b, intent, manifest)
  {
    if a.stage == Pending {
      assert Pending in Stages(a) && a.box.intent == Some(intent);
      ElsewhereRespects(a, b, intent, manifest);
    } else {
      SameFilesRespect(a, b, intent, manifest);
    }
  }

  lemma UndecidedIsBacked(d: Disk, places: Places, intent: Intent)
    requires Undecided(d, intent) && Additive(intent)
    ensures Backing(d, places, intent)
  {
    if d.stage == Pending {
      assert Pending in Stages(d) && d.marker in Markers(d);
      RollBackIsSupported(d, places, intent);
    }
  }

  lemma ForwardIsBacked(d: Disk, places: Places, intent: Intent)
    requires Forward(d, intent)
    ensures Backing(d, places, intent)
  {
    if d.stage == Pending {
      assert Pending in Stages(d);
      ReachedIsSupported(d, places, intent, true);
    }
  }

  lemma ForwardStays(a: Disk, b: Disk, places: Places, intent: Intent)
    requires Forward(a, intent) && Attempted(a, b, places, intent)
    ensures Forward(b, intent) && (Steered(a, intent, true) ==> Steered(b, intent, true))
  {
    ForwardIsBacked(a, places, intent);
    if a.stage == Pending {
      assert Pending in Stages(a);
    } else {
      SameFilesSameFates(a, b, intent);
    }
  }

  lemma RecoverStep(a: Disk, b: Disk, places: Places, intent: Intent, manifest: Path, before: Ledger, after: Ledger)
    requires Consistent(a, intent, manifest, before, after) && Attempted(a, b, places, intent)
    ensures Consistent(b, intent, manifest, before, after)
  {
    if Idle(a, manifest, before) {
      IdleSameFiles(a, b, manifest, before);
    } else if Idle(a, manifest, after) {
      IdleSameFiles(a, b, manifest, after);
    } else {
      AttemptRespects(a, b, places, intent, manifest);
      if Undecided(a, intent) {
        UndecidedIsBacked(a, places, intent);
      }
      if Forward(a, intent) {
        ForwardStays(a, b, places, intent);
      }
      GuardedStep(a, b, intent, manifest, before, after);
    }
  }

  /** What recovery makes of a disk: only what a pending journal names is touched, and success leaves no
      journal, with everything on the decided side. */
  ghost predicate Recovered(a: Disk, b: Disk, places: Places, intent: Intent, ok: bool)
  {
    && Attempted(a, b, places, intent) && (ok ==> Stages(b) == {NoJournal})
    && (a.stage == Pending ==>
          && Safe(a, intent)
          && (ok ==> AllKnown(a, intent) && Finished(a, b, places, intent, Decided(a, intent, true))))
  }

  lemma PendingIsSafe(d: Disk, intent: Intent, manifest: Path, before: Ledger, after: Ledger)
    requires Consistent(d, intent, manifest, before, after)
    ensures d.stage == Pending ==> Safe(d, intent) && d.box.intent == Some(intent)
  {
    if d.stage == Pending {
      assert Pending in Stages(d);
    }
  }

  /** Resolving whatever journal is there keeps a run consistent. */
  method RecoverConsistently(fs: FileSystem, places: Places, ghost intent: Intent, ghost manifest: Path,
                             ghost before: Ledger, ghost after: Ledger)
    returns (ok: bool)
    requires Consistent(fs.disk, intent, manifest, before, after)
    modifies fs
    ensures fs.alive ==> old(fs.alive)
    ensures Consistent(fs.disk, intent, manifest, before, after)
    ensures ok ==> Stages(fs.disk) == {NoJournal}
                   && (Idle(fs.disk, manifest, before) || Idle(fs.disk, manifest, after))
    ensures Recovered(old(fs.disk), fs.disk, places, intent, ok)
    ensures old(fs.Steady()) ==> fs.alive && ok == Recoverable(old(fs.disk), places, intent)
  {
    PendingIsSafe(fs.disk, intent, manifest, before, after);
    ok := Recover(fs, places, intent);
    RecoverStep(old(fs.disk), fs.disk, places, intent, manifest, before, after);
    if ok {
      ConsistentAtRest(fs.disk, intent, manifest, before, after);
    }
  }

  // ---- plans that can be taken back ----

  /** Whatever has been done, the plan can be taken back: the directories are there, links do not lead to what
      the plan writes, and no directory of something new is pruned with something else that is new. */
  predicate Retractable(d: Disk, places: Places, manifest: Path, plan: Plan)
    requires manifest != []
  {
    && MANIFEST !in plan.roles && Kept(places, Dir(manifest))
    && (forall s :: s in plan.specs ==> InPlace(d, manifest, plan, s))
    && (forall n :: 0 <= n < |plan.specs| && Slot(d, plan.specs[n].path) == Gone ==>
          var dir := Dir(plan.specs[n].path);
          || Kept(places, dir)
          || forall i :: 0 <= i < n && Slot(d, plan.specs[i].path) == Gone ==> !(dir <= plan.specs[i].path))
  }

  predicate InPlace(d: Disk, manifest: Path, plan: Plan, s: Spec)
    requires manifest != []
  {
    && s.path != [] && IsDir(d.tree, Dir(s.path)) && (s.after.WantUnchanged? ==> IsFile(d.tree, s.path))
    && (s.path in d.tree && d.tree[s.path].Symlink? ==>
          Trail(Seen(d.tree), s.path, MAX_LINKS) !! PlanPaths(plan) - {s.path} + {manifest, Bak(manifest)})
  }

  lemma BegunIsReversible(d: Disk, places: Places, manifest: Path, plan: Plan, after: Ledger, intent: Intent)
    requires manifest != [] && ValidIntent(intent) && AllCaptured(d, plan.specs, intent) && Sound(d, manifest, plan, after)
    requires Lasting(d, manifest) && Retractable(d, places, manifest, plan)
    ensures Reversible(d, places, intent, manifest)
  {
    hide Sound, InPlace, Lasting, Captured, Leading, Unmoved, WellPlaced, Retractable, Written, Guard;
    MoversArePlanned(d, plan, intent);
    forall m | m in intent.mutations
      ensures m.path != [] && IsDir(d.tree, Dir(m.path))
      ensures Leading(d.tree, Written(intent, manifest), m.before) && Leading(d.tree, Written(intent, manifest), m.after)
      ensures Guard(m) ==> Unmoved(d, manifest, m)
    {
      var s := SpecOf(d, plan.specs, intent, m);
      PlannedSpec(d, places, manifest, plan, after, s);
      CapturedInPlace(d, manifest, plan, intent, s, m);
    }
    BegunIsWellPlaced(d, places, manifest, plan, intent);
  }

  lemma PlannedSpec(d: Disk, places: Places, manifest: Path, plan: Plan, after: Ledger, s: Spec)
    requires manifest != [] && Sound(d, manifest, plan, after) && Retractable(d, places, manifest, plan) && s in plan.specs
    ensures InPlace(d, manifest, plan, s) && !s.after.WantAbsent? && Apart(s.path, Bak(manifest))
  {}

  lemma BegunIsWellPlaced(d: Disk, places: Places, manifest: Path, plan: Plan, intent: Intent)
    requires manifest != [] && AllCaptured(d, plan.specs, intent) && Retractable(d, places, manifest, plan)
    ensures WellPlaced(places, intent)
  {
    hide Captured, Kept, InPlace;
    forall i | 0 <= i < |intent.mutations|
      ensures intent.mutations[i].path == plan.specs[i].path
      ensures WasAbsent(intent, i) ==> Slot(d, plan.specs[i].path) == Gone
    {
      CapturedPath(d, plan.specs[i], intent.mutations[i]);
      if WasAbsent(intent, i) {
        WasGone(d, plan.specs[i], intent.mutations[i]);
      }
    }
  }

  lemma WasGone(d: Disk, s: Spec, m: Mutation)
    requires Captured(d, s, m) && m.before.Absent?
    ensures Slot(d, s.path) == Gone
  {}

  lemma CapturedPath(d: Disk, s: Spec, m: Mutation)
    requires Captured(d, s, m)
    ensures m.path == s.path
  {}

  lemma CapturedInPlace(d: Disk, manifest: Path, plan: Plan, intent: Intent, s: Spec, m: Mutation)
    requires manifest != [] && Captured(d, s, m) && InPlace(d, manifest, plan, s) && Lasting(d, manifest)
    requires Movers(intent) <= PlanPaths(plan) && !s.after.WantAbsent? && Apart(s.path, Bak(manifest))
    ensures m.path != [] && IsDir(d.tree, Dir(m.path))
    ensures Leading(d.tree, Written(intent, manifest), m.before) && Leading(d.tree, Written(intent, manifest), m.after)
    ensures Guard(m) ==> Unmoved(d, manifest, m)
  {
    hide Lasting;
    if m.before.Link? {
      LinkLeads(d.tree, s.path, Written(intent, manifest), PlanPaths(plan) + {manifest, Bak(manifest)}, m.before);
    }
  }

  /** A captured link leads to its content without coming back to its own path. */
  lemma LinkLeads(tree: Tree, path: Path, written: set<Path>, planned: set<Path>, state: State)
    requires state.Link? && Matches(tree, path, state) && written <= planned
    requires Trail(Seen(tree), path, MAX_LINKS) !! planned - {path}
    ensures Leading(tree, written, state)
  {
    NoReturn(Seen(tree), path, MAX_LINKS);
    ReadsWithout(Seen(tree), written, state.target.to, MAX_LINKS - 1);
  }

  // ---- the beginning ----

  /** A started transaction that failed early is at rest or can only roll back. */
  lemma BegunIsConsistent(a: Disk, b: Disk, intent: Intent, manifest: Path, plan: Plan, before: Ledger, after: Ledger)
    requires Idle(a, manifest, before) && Sound(a, manifest, plan, after) && SameFiles(a, b)
    requires Pending !in Stages(b) || (Undecided(b, intent) && AllCaptured(b, plan.specs, intent))
    ensures Consistent(b, intent, manifest, before, after)
    ensures Pending in Stages(b) ==> Additive(intent) && SideTrue(b, intent, manifest, before, false)
    ensures Sound(b, manifest, plan, after)
  {
    SoundSameFiles(a, b, manifest, plan, after);
    if Pending !in Stages(b) {
      IdleSameFiles(a, b, manifest, before);
    } else {
      HonestSameFiles(a, b, manifest, before);
      PreparedTruth(b, manifest, plan, before, after, intent);
      PlansAreAdditive(b, plan, intent);
    }
  }

  lemma SoundSameFiles(a: Disk, b: Disk, manifest: Path, plan: Plan, after: Ledger)
    requires Sound(a, manifest, plan, after) && SameFiles(a, b)
    ensures Sound(b, manifest, plan, after)
  {
    CalmSameFiles(a, b, plan.specs);
    ForGoodSameFiles(a, b);
    assert Beside(b, manifest, plan) == Beside(a, manifest, plan);
  }

  /** Publish the journal of one command. */
  method Open(fs: FileSystem, places: Places, id: string, plan: Plan,
              ghost manifest: Path, ghost before: Ledger, ghost after: Ledger)
    returns (ok: bool, tx: Transaction?, ghost intent: Intent)
    requires ValidId(id) && Idle(fs.disk, manifest, before) && Sound(fs.disk, manifest, plan, after)
    modifies fs
    ensures fs.alive ==> old(fs.alive)
    ensures SameFiles(old(fs.disk), fs.disk)
    ensures Consistent(fs.disk, intent, manifest, before, after)
    ensures ok ==> tx != null && fresh(tx) && tx.fs == fs && tx.places == places && tx.intent == intent
                   && !tx.committed && !tx.done
    ensures ok && Retractable(old(fs.disk), places, manifest, plan) ==> Reversible(fs.disk, places, intent, manifest)
    // Without faults, a refusal leaves the disk at rest.
    ensures old(fs.Steady()) ==> fs.alive && (!ok ==> Idle(fs.disk, manifest, before))
    ensures old(fs.Steady()) && !ok && Stages(old(fs.disk)) == {NoJournal} ==> Stages(fs.disk) == {NoJournal}
    ensures ok ==> Prepared(fs.disk, intent) && Revocable(fs.disk, intent) && AllCaptured(fs.disk, plan.specs, intent)
    ensures ok ==> Sound(fs.disk, manifest, plan, after) && SideTrue(fs.disk, intent, manifest, before, false)
    ensures old(fs.Steady()) && Smooth(old(fs.disk), manifest, plan, after.records) ==>
              ok && fs.alive && Favourable(fs.disk, intent, manifest, plan, after.records)
  {
    ok, tx, intent := Begin(fs, places, id, plan.specs);
    BegunIsConsistent(old(fs.disk), fs.disk, intent, manifest, plan, before, after);
    if Pending !in Stages(fs.disk) {
      IdleSameFiles(old(fs.disk), fs.disk, manifest, before);
    }
    if ok && Retractable(old(fs.disk), places, manifest, plan) {
      OpenedIsReversible(old(fs.disk), fs.disk, places, manifest, plan, before, after, intent);
    }
    if ok && Smooth(old(fs.disk), manifest, plan, after.records) {
      SmoothIsFavourable(old(fs.disk), fs.disk, manifest, plan, after.records, intent);
    }
  }

  lemma OpenedIsReversible(a: Disk, b: Disk, places: Places, manifest: Path, plan: Plan, before: Ledger, after: Ledger,
                           intent: Intent)
    requires Idle(a, manifest, before) && manifest != [] && SameFiles(a, b) && Sound(b, manifest, plan, after)
    requires ValidIntent(intent) && AllCaptured(b, plan.specs, intent) && Retractable(a, places, manifest, plan)
    ensures Reversible(b, places, intent, manifest)
  {
    hide Sound, Reversible, AllCaptured;
    HonestSameFiles(a, b, manifest, before);
    assert Retractable(b, places, manifest, plan);
    BegunIsReversible(b, places, manifest, plan, after, intent);
  }

  // ---- between Begin and Commit ----

  /** Nothing but a failure of the file system keeps the prepared transaction from advancing. */
  ghost predicate Favourable(d: Disk, intent: Intent, manifest: Path, plan: Plan, records: seq<Record>)
    requires manifest != []
  {
    && (forall c :: c in plan.checks ==> Satisfied(c, intent))
    && MANIFEST !in plan.roles && AllAdvancable(d, intent, plan.roles)
    && Unaffected(d, intent, Written(intent, manifest))
    && Writable(d.tree, manifest) && Valid(records)
  }

  /** A participant that is not to become a plain file is a link, and these paths are not on its trail. */
  ghost predicate Unaffected(d: Disk, intent: Intent, paths: set<Path>)
  {
    forall m :: m in intent.mutations && !m.after.RegularFile? ==>
      m.after.Link? && Matches(d.tree, m.path, m.after) && Trail(Seen(d.tree), m.path, MAX_LINKS) !! paths
  }

  /** Every participant is in its after state, and those the command moves are there for good. */
  ghost predicate Arrived(d: Disk, intent: Intent)
  {
    (forall m :: m in intent.mutations ==> Reached(d, m, true)) && Rooted(d, intent, true)
  }

  /** Every participant is in its after state, and all checks of what was captured hold. */
  ghost predicate Fulfilled(d: Disk, plan: Plan, intent: Intent)
  {
    ValidIntent(intent) && Arrived(d, intent) && forall c :: c in plan.checks ==> Satisfied(c, intent)
  }

  /** The participants are what they were. */
  predicate Withdrawn(a: Disk, b: Disk, plan: Plan)
  {
    forall s :: s in plan.specs ==> Slot(b, s.path) == Slot(a, s.path)
  }

  /** Check, move the participants, then switch the manifest. */
  method Advance(tx: Transaction, manifest: Path, m: Manifest, plan: Plan, entry: Record,
                 ghost before: Ledger, ghost after: Ledger)
    returns (ok: bool)
    requires Revocable(tx.fs.disk, tx.intent) && tx.fs.disk.marker == None && tx.fs.disk.markerLimbo == {}
    requires AllCaptured(tx.fs.disk, plan.specs, tx.intent) && Sound(tx.fs.disk, manifest, plan, after)
    requires SideTrue(tx.fs.disk, tx.intent, manifest, before, false)
    requires m.schema == CURRENT_SCHEMA && after.records == Putting(m.records, entry)
    modifies tx.fs, m`records
    ensures tx.fs.alive ==> old(tx.fs.alive)
    ensures Ongoing(tx.fs.disk, tx.intent) && Guarded(tx.fs.disk, tx.intent, manifest, before, after)
    ensures Undecided(tx.fs.disk, tx.intent)
    ensures FilesKept(old(tx.fs.disk), tx.fs.disk, Written(tx.intent, manifest))
    ensures ok ==> Underway(tx.fs.disk, tx.intent, manifest, before, after) && Fulfilled(tx.fs.disk, plan, tx.intent)
                   && Added(old(tx.fs.disk), tx.fs.disk, Written(tx.intent, manifest))
                   && Ready(tx.fs.disk, manifest, m.records)
    ensures m.records == if ok then after.records else old(m.records)
    ensures Reversible(old(tx.fs.disk), tx.places, tx.intent, manifest) ==>
              Reversible(tx.fs.disk, tx.places, tx.intent, manifest)
    ensures old(tx.fs.Steady()) && !tx.done && MANIFEST !in plan.roles && Writable(old(tx.fs.disk.tree), manifest) ==>
              tx.fs.alive && PlainOrGone(tx.fs.disk.tree, Bak(manifest))
    ensures old(tx.fs.Steady()) && !tx.done
            && Favourable(old(tx.fs.disk), tx.intent, manifest, plan, after.records) ==>
              ok && tx.fs.alive && AllMatch(tx.fs.disk, tx.intent, true)
  {
    hide Fulfilled, Satisfied, Guarded, SideTrue, AllCaptured, Arrived, Added, OnlyAtBoth, ManifestKept, AllMatch, Unaffected, AllAdvancable,
         Safe, Undecided, Additive, Writable, Reversible, PlainOrGone, Slot;
    ghost var began := tx.fs.disk;
    ghost var own := ManifestMutation(began, manifest, plan, after, tx.intent);
    ok := CheckAndApply(tx, manifest, plan, before, after, own);
    BackupStaysPlain(began, tx.fs.disk, manifest);
    if !ok {
      return;
    }
    ghost var applied := tx.fs.disk;
    ok := SwitchManifest(tx, manifest, m, entry, own);
    SwitchRespects(applied, tx.fs.disk, tx.intent, manifest);
    SwitchReverses(applied, tx.fs.disk, tx.places, tx.intent, manifest);
    BackupStaysPlain(applied, tx.fs.disk, manifest);
    if ok {
      ReadyIsPlain(tx.fs.disk, manifest, m.records);
    }
    FilesKeptTransitive(began, applied, tx.fs.disk, Written(tx.intent, manifest));
    UnderwayKept(applied, tx.fs.disk, tx.intent, manifest, before, after);
    UnderwayIsGuarded(tx.fs.disk, tx.intent, manifest, before, after);
    if ok {
      ArrivedStep(began, applied, tx.fs.disk, manifest, plan, after, tx.intent, own);
      ArrivedIsFulfilled(tx.fs.disk, plan, tx.intent);
    }
  }

  lemma ArrivedIsFulfilled(d: Disk, plan: Plan, intent: Intent)
    requires Ongoing(d, intent) && Arrived(d, intent) && forall c :: c in plan.checks ==> Satisfied(c, intent)
    ensures Fulfilled(d, plan, intent)
  {}

  lemma FulfilledIsArrived(d: Disk, plan: Plan, intent: Intent)
    requires Fulfilled(d, plan, intent)
    ensures Arrived(d, intent)
  {}

  lemma BackupStaysPlain(a: Disk, b: Disk, manifest: Path)
    requires manifest != []
    ensures Writable(a.tree, manifest) && Slot(b, Bak(manifest)) == Slot(a, Bak(manifest)) ==> PlainOrGone(b.tree, Bak(manifest))
    ensures PlainOrGone(a.tree, Bak(manifest)) && b == a ==> PlainOrGone(b.tree, Bak(manifest))
  {}

  lemma ReadyIsPlain(d: Disk, manifest: Path, records: seq<Record>)
    requires manifest != [] && Ready(d, manifest, records)
    ensures PlainOrGone(d.tree, Bak(manifest))
  {}

  lemma SwitchReverses(a: Disk, b: Disk, places: Places, intent: Intent, manifest: Path)
    requires manifest != [] && Revocable(a, intent) && OnlyAtBoth(a, b, manifest, Bak(manifest))
    requires ManifestKept(a, b, intent, manifest)
    ensures Reversible(a, places, intent, manifest) ==> Reversible(b, places, intent, manifest)
  {
    if Reversible(a, places, intent, manifest) {
      ReversibleStep(a, b, places, intent, manifest);
    }
  }

  lemma UnderwayIsGuarded(d: Disk, intent: Intent, manifest: Path, before: Ledger, after: Ledger)
    requires Underway(d, intent, manifest, before, after)
    ensures Guarded(d, intent, manifest, before, after)
  {}

  lemma SwitchRespects(a: Disk, b: Disk, intent: Intent, manifest: Path)
    requires manifest != [] && OnlyAtBoth(a, b, manifest, Bak(manifest))
    ensures SameJournal(a, b) && FilesKept(a, b, Movers(intent) + {manifest, Bak(manifest)})
  {}

  lemma ManifestMutation(d: Disk, manifest: Path, plan: Plan, after: Ledger, intent: Intent) returns (own: Mutation)
    requires Sound(d, manifest, plan, after) && AllCaptured(d, plan.specs, intent)
    ensures own in intent.mutations && own.role == MANIFEST && own.path == manifest
    ensures Fits(Holds(Regular(Current(after.records), DEFAULT_MODE)), own.after)
    ensures forall m :: m in intent.mutations ==> Apart(m.path, Bak(manifest))
  {
    own := MutationOf(d, plan.specs, intent, ManifestSpec(manifest, after.records));
    BackupIsNoParticipant(d, manifest, plan, after, intent);
  }

  /** Check what was captured, then move the participants other than the manifest. */
  method CheckAndApply(tx: Transaction, ghost manifest: Path, plan: Plan,
                       ghost before: Ledger, ghost after: Ledger, ghost own: Mutation)
    returns (ok: bool)
    requires Revocable(tx.fs.disk, tx.intent) && tx.fs.disk.marker == None && tx.fs.disk.markerLimbo == {}
    requires AllCaptured(tx.fs.disk, plan.specs, tx.intent) && Sound(tx.fs.disk, manifest, plan, after)
    requires SideTrue(tx.fs.disk, tx.intent, manifest, before, false)
    requires own in tx.intent.mutations && own.role == MANIFEST && own.path == manifest
    requires forall m :: m in tx.intent.mutations ==> Apart(m.path, Bak(manifest))
    modifies tx.fs
    ensures tx.fs.alive ==> old(tx.fs.alive)
    ensures Revocable(tx.fs.disk, tx.intent) && SameJournal(old(tx.fs.disk), tx.fs.disk)
    ensures Guarded(tx.fs.disk, tx.intent, manifest, before, after)
    ensures FilesKept(old(tx.fs.disk), tx.fs.disk, Written(tx.intent, manifest))
    ensures ok ==> Underway(tx.fs.disk, tx.intent, manifest, before, after)
    ensures ok ==> forall c :: c in plan.checks ==> Satisfied(c, tx.intent)
    ensures ok ==> forall m :: m in tx.intent.mutations && m.role in plan.roles ==> Reached(tx.fs.disk, m, true)
    ensures ok ==> Added(old(tx.fs.disk), tx.fs.disk, MoversIn(tx.intent, plan.roles))
    ensures forall m :: m in tx.intent.mutations && m.role !in plan.roles ==>
              Undisturbed(old(tx.fs.disk), tx.fs.disk, m.path)
    ensures Reversible(old(tx.fs.disk), tx.places, tx.intent, manifest) ==>
              Reversible(tx.fs.disk, tx.places, tx.intent, manifest)
    ensures Slot(tx.fs.disk, Bak(manifest)) == Slot(old(tx.fs.disk), Bak(manifest))
    ensures old(tx.fs.Steady()) ==> tx.fs.alive
    ensures ok && MANIFEST !in plan.roles && Writable(old(tx.fs.disk.tree), manifest) ==>
              Writable(tx.fs.disk.tree, manifest) && Matches(tx.fs.disk.tree, manifest, own.before)
    ensures old(tx.fs.Steady()) && !tx.done && Favourable(old(tx.fs.disk), tx.intent, manifest, plan, after.records) ==> ok
  {
    hide Reversible, Writable, Matches, AllCaptured, SideTrue, Unaffected, Added, Elsewhere, ManifestKept, Sound, Coherent;
    ghost var began := tx.fs.disk;
    ok := RunChecks(tx, plan.checks);
    if !ok {
      return;
    }
    CheckedTruth(began, manifest, plan, after, tx.intent);
    ok := ApplyRoles(tx, plan.roles);
    ElsewhereRespects(began, tx.fs.disk, tx.intent, manifest);
    UnderwayKept(began, tx.fs.disk, tx.intent, manifest, before, after);
    BackupUndisturbed(began, tx.fs.disk, tx.intent, manifest);
    if Reversible(began, tx.places, tx.intent, manifest) {
      ReversibleStep(began, tx.fs.disk, tx.places, tx.intent, manifest);
    }
    if ok && MANIFEST !in plan.roles && Writable(began.tree, manifest) {
      var s := SpecOf(began, plan.specs, tx.intent, own);
      ManifestStillWritable(began, tx.fs.disk, tx.intent, manifest, plan.roles, own);
    }
  }

  lemma BackupUndisturbed(a: Disk, b: Disk, intent: Intent, manifest: Path)
    requires manifest != [] && Elsewhere(a, b, intent)
    requires forall m :: m in intent.mutations ==> Apart(m.path, Bak(manifest))
    ensures Slot(b, Bak(manifest)) == Slot(a, Bak(manifest))
  {
    assert Undisturbed(a, b, Bak(manifest));
  }

  /** Moving the other participants leaves the manifest and its backup as they were. */
  lemma ManifestStillWritable(a: Disk, b: Disk, intent: Intent, manifest: Path, roles: seq<string>, own: Mutation)
    requires manifest != [] && Coherent(a.tree) && Added(a, b, MoversIn(intent, roles)) && Elsewhere(a, b, intent)
    requires Undisturbed(a, b, manifest) && Matches(a.tree, manifest, own.before) && Writable(a.tree, manifest)
    requires forall m :: m in intent.mutations ==> Apart(m.path, Bak(manifest))
    ensures Writable(b.tree, manifest) && Matches(b.tree, manifest, own.before)
  {
    assert Undisturbed(a, b, Bak(manifest));
    assert Slot(b, manifest) == Slot(a, manifest) && Slot(b, Bak(manifest)) == Slot(a, Bak(manifest));
    DirsStay(a, b, MoversIn(intent, roles), Dir(manifest));
    if manifest !in a.tree {
      DirIsPassable(b.tree, Dir(manifest));
    }
  }

  lemma DirsStay(a: Disk, b: Disk, paths: set<Path>, dir: Path)
    requires Added(a, b, paths) && IsDir(a.tree, dir)
    ensures IsDir(b.tree, dir)
  {}

  lemma BackupIsNoParticipant(d: Disk, manifest: Path, plan: Plan, after: Ledger, intent: Intent)
    requires Sound(d, manifest, plan, after) && AllCaptured(d, plan.specs, intent)
    ensures forall m :: m in intent.mutations ==> Apart(m.path, Bak(manifest))
  {
    forall m | m in intent.mutations ensures Apart(m.path, Bak(manifest)) {
      var s := SpecOf(d, plan.specs, intent, m);
    }
  }

  lemma ArrivedStep(a: Disk, b: Disk, c: Disk, manifest: Path, plan: Plan, after: Ledger, intent: Intent, own: Mutation)
    requires Revocable(a, intent) && Sound(a, manifest, plan, after) && AllCaptured(a, plan.specs, intent)
    requires own in intent.mutations && own.role == MANIFEST && own.path == manifest
    requires forall m :: m in intent.mutations && m.role in plan.roles ==> Reached(b, m, true)
    requires Reached(c, own, true)
    requires forall m :: m in intent.mutations && m != own ==> Undisturbed(b, c, m.path)
    requires forall m :: m in intent.mutations && m.role !in plan.roles ==> Undisturbed(a, b, m.path)
    requires Added(a, b, MoversIn(intent, plan.roles)) && Added(b, c, {manifest, Bak(manifest)})
    requires Ongoing(c, intent)
    ensures Arrived(c, intent) && Added(a, c, Written(intent, manifest))
    ensures Unaffected(a, intent, Written(intent, manifest)) ==> AllMatch(c, intent, true)
  {
    AllReached(a, b, c, plan, intent, own);
    AllAdded(a, b, c, manifest, plan, intent, own);
    ReachedIsRooted(a, c, plan.specs, intent, Written(intent, manifest));
    if Unaffected(a, intent, Written(intent, manifest)) {
      ArrivedMatches(a, c, intent, Written(intent, manifest));
    }
  }

  lemma AllReached(a: Disk, b: Disk, c: Disk, plan: Plan, intent: Intent, own: Mutation)
    requires AllCaptured(a, plan.specs, intent) && ValidIntent(intent)
    requires forall s :: s in plan.specs ==> s.role in plan.roles || s.role == MANIFEST || s.after.WantUnchanged?
    requires own in intent.mutations && own.role == MANIFEST
    requires forall m :: m in intent.mutations && m.role in plan.roles ==> Reached(b, m, true)
    requires Reached(c, own, true)
    requires forall m :: m in intent.mutations && m != own ==> Undisturbed(b, c, m.path)
    requires forall m :: m in intent.mutations && m.role !in plan.roles ==> Undisturbed(a, b, m.path)
    ensures forall m :: m in intent.mutations ==> Reached(c, m, true)
  {
    forall m | m in intent.mutations ensures Reached(c, m, true) {
      if m != own {
        if m.role in plan.roles {
          UndisturbedReached(b, c, m, true);
        } else {
          var s := SpecOf(a, plan.specs, intent, m);
          RolesAreUnique(intent, own);
          assert Undisturbed(a, b, m.path) && Undisturbed(b, c, m.path);
          AlikeFits(Slot(c, m.path), m.before, m.after);
        }
      }
    }
  }

  lemma ReachedIsFile(d: Disk, m: Mutation)
    requires Reached(d, m, true)
    ensures !IsDir(d.tree, m.path)
  {}

  /** Every participant that moves is applied by the command, or is the manifest. */
  lemma AllWritten(d: Disk, manifest: Path, plan: Plan, intent: Intent, own: Mutation)
    requires AllCaptured(d, plan.specs, intent) && ValidIntent(intent) && manifest != []
    requires forall s :: s in plan.specs ==> s.role in plan.roles || s.role == MANIFEST || s.after.WantUnchanged?
    requires own in intent.mutations && own.role == MANIFEST && own.path == manifest
    ensures MoversIn(intent, plan.roles) + {manifest, Bak(manifest)} == Written(intent, manifest)
  {
    forall p | p in Movers(intent) ensures p in MoversIn(intent, plan.roles) + {manifest} {
      var m := MoverAt(intent, p);
      var s := SpecOf(d, plan.specs, intent, m);
      RolesAreUnique(intent, own);
    }
  }

  lemma AllAdded(a: Disk, b: Disk, c: Disk, manifest: Path, plan: Plan, intent: Intent, own: Mutation)
    requires ValidIntent(intent) && AllCaptured(a, plan.specs, intent) && manifest != []
    requires forall s :: s in plan.specs ==> s.role in plan.roles || s.role == MANIFEST || s.after.WantUnchanged?
    requires own in intent.mutations && own.role == MANIFEST && own.path == manifest
    requires forall m :: m in intent.mutations ==> Reached(c, m, true)
    requires Added(a, b, MoversIn(intent, plan.roles)) && Added(b, c, {manifest, Bak(manifest)})
    ensures Added(a, c, Written(intent, manifest))
  {
    hide AllCaptured, Reached;
    AllWritten(a, manifest, plan, intent, own);
    forall p | p in MoversIn(intent, plan.roles) ensures !IsDir(c.tree, p) {
      var m :| m in intent.mutations && m.role in plan.roles && !Guard(m) && m.path == p;
      ReachedIsFile(c, m);
    }
    AddedTwice(a, b, c, MoversIn(intent, plan.roles), {manifest, Bak(manifest)});
  }

  /** Participants that were settled, and whose directories have been made and synced, are there for good. */
  lemma ReachedIsRooted(a: Disk, b: Disk, specs: seq<Spec>, intent: Intent, paths: set<Path>)
    requires Calm(a, specs) && AllCaptured(a, specs, intent) && Added(a, b, paths)
    requires forall m :: m in intent.mutations ==> Reached(b, m, true)
    ensures Rooted(b, intent, true)
  {
    forall m | m in intent.mutations && !Guard(m) && !m.after.Absent? ensures Firm(b, Dir(m.path)) {
      var s := SpecOf(a, specs, intent, m);
      assert Fits(Slot(b, m.path), m.after);
      AddedFirm(a, b, paths, m.path);
    }
  }

  /** What has arrived is also what a reader finds, links included. */
  lemma ArrivedMatches(a: Disk, b: Disk, intent: Intent, paths: set<Path>)
    requires Added(a, b, paths) && Unaffected(a, intent, paths) && Arrived(b, intent) && Ongoing(b, intent)
    ensures AllMatch(b, intent, true)
  {
    IntactPayloads(b, intent);
    forall m | m in intent.mutations ensures Matches(b.tree, m.path, m.after) {
      assert Fits(Slot(b, m.path), m.after);
      if m.after.Link? {
        assert Extends(Seen(a.tree) - paths, Seen(b.tree));
        UntouchedReads(Seen(a.tree), Seen(b.tree), paths, m.path, MAX_LINKS);
      }
    }
  }

  lemma IntactPayloads(d: Disk, intent: Intent)
    requires Ongoing(d, intent)
    ensures forall m :: m in intent.mutations ==> HasPayload(d, m.before) && HasPayload(d, m.after)
  {}

  // ---- the decision and after ----

  /** A marker that is not completely written decides nothing. */
  lemma UnfinishedMarker(d: Disk, intent: Intent)
    requires Safe(d, intent) && Moment(d.marker, d.markerLimbo, intent.id) && d.marker != Some(Decision(intent.id))
    requires Stages(d) == {Pending}
    ensures Undecided(d, intent)
  {
    forall m | m in Markers(d) ensures Committed(m, intent.id) == Some(false) {
      MomentReads(d, intent.id, m);
      if d.marker.Some? {
        MarkerClassification(d.marker.value, intent.id);
      }
    }
  }

  /** The decision has been made for good, and everything is on the new side for good. */
  ghost predicate Landed(d: Disk, intent: Intent, manifest: Path, after: Ledger)
  {
    && Ongoing(d, intent) && Forward(d, intent) && Steered(d, intent, true) && Additive(intent)
    && SideTrue(d, intent, manifest, after, true)
  }

  /** Make the decision. When that fails the marker may or may not be there, so recovery reads it
      and finishes on the side it names. */
  method CommitTransaction(tx: Transaction, ghost manifest: Path, ghost before: Ledger, ghost after: Ledger)
    returns (ok: bool)
    requires manifest != [] && Underway(tx.fs.disk, tx.intent, manifest, before, after) && Arrived(tx.fs.disk, tx.intent)
    requires !tx.committed && !tx.done
    modifies tx`committed, tx.fs
    ensures tx.fs.alive ==> old(tx.fs.alive)
    ensures Consistent(tx.fs.disk, tx.intent, manifest, before, after)
    ensures FilesKept(old(tx.fs.disk), tx.fs.disk, Written(tx.intent, manifest))
    ensures ok ==> SameFiles(old(tx.fs.disk), tx.fs.disk) && Landed(tx.fs.disk, tx.intent, manifest, after)
    ensures old(tx.fs.Steady()) && AllMatch(old(tx.fs.disk), tx.intent, true) ==> ok && tx.fs.alive
  {
    hide Consistent, Guarded, SideTrue, Arrived, AllMatch, Landed, Safe, Undecided, Additive;
    ok := tx.Commit();
    ghost var decided := tx.fs.disk;
    DecidedStep(old(tx.fs.disk), decided, tx.intent, manifest, before, after);
    UnderwayIsSame(old(tx.fs.disk), decided, tx.intent, manifest, before, after);
    if !ok {
      var recovered := RecoverConsistently(tx.fs, tx.places, tx.intent, manifest, before, after);
      AttemptRespects(decided, tx.fs.disk, tx.places, tx.intent, manifest);
      FilesKeptTransitive(old(tx.fs.disk), decided, tx.fs.disk, Written(tx.intent, manifest));
    }
  }

  /** What has arrived is decided once the marker is complete, and for good once it is synced. */
  lemma FinishedMarker(a: Disk, b: Disk, intent: Intent)
    requires Arrived(a, intent) && SameFiles(a, b) && Ongoing(b, intent) && b.marker == Some(Decision(intent.id))
    ensures Forward(b, intent) && (b.markerLimbo == {} ==> Steered(b, intent, true))
  {
    ReachedIsBound(a, intent, true);
    SameFilesSameFates(a, b, intent);
  }

  lemma DecidedStep(a: Disk, b: Disk, intent: Intent, manifest: Path, before: Ledger, after: Ledger)
    requires Underway(a, intent, manifest, before, after) && Arrived(a, intent)
    requires SameFiles(a, b) && Ongoing(b, intent) && Moment(b.marker, b.markerLimbo, intent.id)
    ensures Consistent(b, intent, manifest, before, after)
    ensures b.marker == Some(Decision(intent.id)) && b.markerLimbo == {} ==> Landed(b, intent, manifest, after)
  {
    SameFilesRespect(a, b, intent, manifest);
    SideKept(a, b, intent, manifest, before, false);
    SideKept(a, b, intent, manifest, after, true);
    if b.marker == Some(Decision(intent.id)) {
      FinishedMarker(a, b, intent);
    } else {
      UnfinishedMarker(b, intent);
    }
  }

  /** Abort; when that fails too, the journal stays for the next recovery. */
  method Undo(tx: Transaction, ghost manifest: Path, ghost before: Ledger, ghost after: Ledger)
    returns (aborted: bool)
    requires Ongoing(tx.fs.disk, tx.intent) && Guarded(tx.fs.disk, tx.intent, manifest, before, after)
    requires manifest != [] && Undecided(tx.fs.disk, tx.intent) && !tx.done
    modifies tx`done, tx.fs
    ensures tx.fs.alive ==> old(tx.fs.alive)
    ensures Consistent(tx.fs.disk, tx.intent, manifest, before, after)
    ensures FilesKept(old(tx.fs.disk), tx.fs.disk, Written(tx.intent, manifest))
    ensures aborted ==> Stages(tx.fs.disk) == {NoJournal} && Idle(tx.fs.disk, manifest, before)
    // Without faults, a transaction that can be taken back is.
    ensures old(tx.fs.Steady()) && !tx.committed
            && Reversible(old(tx.fs.disk), tx.places, tx.intent, manifest) ==>
              && aborted && tx.fs.alive && Elsewhere(old(tx.fs.disk), tx.fs.disk, tx.intent)
              && Finished(old(tx.fs.disk), tx.fs.disk, tx.places, tx.intent, false)
  {
    hide Reversible, Completes, Finished;
    if Reversible(tx.fs.disk, tx.places, tx.intent, manifest) {
      ReversibleCompletes(tx.fs.disk, tx.places, tx.intent, manifest);
    }
    RollBackIsSupported(tx.fs.disk, tx.places, tx.intent);
    aborted := tx.Abort();
    ElsewhereRespects(old(tx.fs.disk), tx.fs.disk, tx.intent, manifest);
    assert Undecided(tx.fs.disk, tx.intent);
    SideKept(old(tx.fs.disk), tx.fs.disk, tx.intent, manifest, before, false);
    if aborted {
      SettledSideIsHonest(tx.fs.disk, tx.intent, manifest, before, false);
    }
  }

  /** When everything has been taken back, the next command finds the manifest as this one did. */
  lemma UndoneIsReady(a: Disk, b: Disk, places: Places, intent: Intent, manifest: Path, before: Ledger)
    requires manifest != [] && Ongoing(a, intent) && Reversible(a, places, intent, manifest)
    requires Elsewhere(a, b, intent) && Finished(a, b, places, intent, false)
    requires SideTrue(a, intent, manifest, before, false) && Valid(before.records)
    requires PlainOrGone(a.tree, Bak(manifest)) && Kept(places, Dir(manifest))
    requires forall m :: m in intent.mutations ==> Apart(m.path, Bak(manifest))
    ensures Ready(b, manifest, before.records)
  {
    hide Vouches, Layout, Safe, Kept, Leading, Unmoved, WellPlaced, Reached, Followed, Bound;
    var own :| own in intent.mutations && own.path == manifest && StateDescribes(own.before, before.records);
    KeptDirIsThere(a, b, places, intent, manifest, Dir(manifest));
    BackupUndisturbed(a, b, intent, manifest);
    ManifestIsBack(b, manifest, own, before.records);
    assert PlainOrGone(b.tree, Bak(manifest)) by {
      assert Slot(b, Bak(manifest)) == Slot(a, Bak(manifest));
    }
  }

  lemma ManifestIsBack(d: Disk, manifest: Path, own: Mutation, records: seq<Record>)
    requires Matches(d.tree, manifest, own.before) && StateDescribes(own.before, records) && Valid(records)
    ensures PlainOrGone(d.tree, manifest) && (manifest in d.tree ==> Decoded(d.tree[manifest].data).Some?)
  {}

  /** Remove the journal. A failed cleanup is only a warning; the next process finishes it. */
  method Clean(tx: Transaction, ghost manifest: Path, ghost after: Ledger)
    requires Landed(tx.fs.disk, tx.intent, manifest, after) && !tx.done
    modifies tx`done, tx.fs
    ensures tx.fs.alive ==> old(tx.fs.alive)
    ensures SameFiles(old(tx.fs.disk), tx.fs.disk)
    ensures forall before :: Consistent(tx.fs.disk, tx.intent, manifest, before, after)
    ensures Honest(tx.fs.disk, manifest, after)
    ensures old(tx.fs.Steady()) ==> Stages(tx.fs.disk) == {NoJournal} && tx.fs.alive
  {
    assert Pending in Stages(tx.fs.disk);
    var cleaned := tx.Finalize();
    FinalizeStep(old(tx.fs.disk), tx.fs.disk, tx.intent, manifest, after);
  }

  lemma FinalizeStep(a: Disk, b: Disk, intent: Intent, manifest: Path, after: Ledger)
    requires Landed(a, intent, manifest, after)
    requires SameFiles(a, b) && Safe(b, intent) && Bound(b, intent, true) && Steered(b, intent, true)
    requires Pending in Stages(b) ==> b.marker == a.marker
    ensures forall before :: Consistent(b, intent, manifest, before, after)
    ensures Honest(b, manifest, after)
  {
    SameFilesRespect(a, b, intent, manifest);
    SideKept(a, b, intent, manifest, after, true);
    SettledSideIsHonest(b, intent, manifest, after, true);
  }

  lemma UnderwayIsSame(a: Disk, b: Disk, intent: Intent, manifest: Path, before: Ledger, after: Ledger)
    requires manifest != [] && Underway(a, intent, manifest, before, after) && SameFiles(a, b)
    ensures FilesKept(a, b, Written(intent, manifest))
  {
    SameFilesRespect(a, b, intent, manifest);
  }

  /** Make the decision, then clean up. */
  method Conclude(tx: Transaction, ghost manifest: Path, ghost before: Ledger, ghost after: Ledger)
    returns (ok: bool)
    requires manifest != [] && Underway(tx.fs.disk, tx.intent, manifest, before, after) && Arrived(tx.fs.disk, tx.intent)
    requires !tx.committed && !tx.done
    modifies tx, tx.fs
    ensures tx.fs.alive ==> old(tx.fs.alive)
    ensures Consistent(tx.fs.disk, tx.intent, manifest, before, after)
    ensures FilesKept(old(tx.fs.disk), tx.fs.disk, Written(tx.intent, manifest))
    ensures ok ==> SameFiles(old(tx.fs.disk), tx.fs.disk) && Honest(tx.fs.disk, manifest, after)
                   && Consistent(tx.fs.disk, tx.intent, manifest, after, after)
    ensures old(tx.fs.Steady()) && AllMatch(old(tx.fs.disk), tx.intent, true) ==>
              ok && Stages(tx.fs.disk) == {NoJournal} && tx.fs.alive
  {
    hide Underway, Arrived, Landed, Consistent, Honest, AllMatch;
    ok := CommitTransaction(tx, manifest, before, after);
    if ok {
      Clean(tx, manifest, after);
      UnderwayIsSame(old(tx.fs.disk), tx.fs.disk, tx.intent, manifest, before, after);
    }
  }

  /** What can still only go back goes back to the old ledger. */
  lemma UndoneSide(d: Disk, intent: Intent, manifest: Path, before: Ledger, after: Ledger)
    requires Guarded(d, intent, manifest, before, after) && Undecided(d, intent) && Ongoing(d, intent)
    ensures SideTrue(d, intent, manifest, before, false)
  {
    assert d.marker in Markers(d);
  }

  lemma ReversibleArrives(d: Disk, places: Places, intent: Intent, manifest: Path)
    requires manifest != [] && Ongoing(d, intent) && Arrived(d, intent) && Reversible(d, places, intent, manifest)
    ensures AllMatch(d, intent, true)
  {
    hide Reversible;
    ReversibleMatches(d, places, intent, manifest);
  }

  lemma AddedSameFiles(a: Disk, b: Disk, c: Disk, d: Disk, paths: set<Path>)
    requires SameFiles(a, b) && Added(b, c, paths) && SameFiles(c, d)
    ensures Added(a, d, paths)
  {}

  lemma ManifestIsNamed(d: Disk, manifest: Path, ledger: Ledger)
    requires Idle(d, manifest, ledger)
    ensures manifest != []
  {}

  lemma FulfilledSameFiles(a: Disk, b: Disk, plan: Plan, intent: Intent)
    requires SameFiles(a, b) && Fulfilled(a, plan, intent)
    ensures Fulfilled(b, plan, intent)
  {
    SameFilesSameOutcomes(a, b);
    forall m | m in intent.mutations ensures Reached(b, m, true) {
      assert Reached(a, m, true);
    }
  }

  /** Two entries that fit one state are the same. */
  lemma OneFits(a: Fate, b: Fate, state: State)
    requires Fits(a, state) && Fits(b, state)
    ensures a == b
  {}

  lemma UndoneIsWithdrawn(a: Disk, b: Disk, c: Disk, places: Places, plan: Plan, intent: Intent)
    requires AllCaptured(a, plan.specs, intent) && Finished(b, c, places, intent, false)
    ensures Withdrawn(a, c, plan)
  {
    hide Fits, Followed, Bound;
    forall s | s in plan.specs ensures Slot(c, s.path) == Slot(a, s.path) {
      var m := MutationOf(a, plan.specs, intent, s);
      assert Reached(c, m, false) && Slot(a, s.path) == Visible(a.tree, s.path);
      OneFits(Slot(a, s.path), Slot(c, s.path), m.before);
    }
  }

  /** Take an open transaction to its end: to its new side, or back. */
  method Perform(tx: Transaction, manifest: Path, m: Manifest, plan: Plan, entry: Record,
                 ghost before: Ledger, ghost after: Ledger)
    returns (ok: bool)
    requires Revocable(tx.fs.disk, tx.intent) && tx.fs.disk.marker == None && tx.fs.disk.markerLimbo == {}
    requires AllCaptured(tx.fs.disk, plan.specs, tx.intent) && Sound(tx.fs.disk, manifest, plan, after)
    requires SideTrue(tx.fs.disk, tx.intent, manifest, before, false)
    requires m.schema == CURRENT_SCHEMA && after.records == Putting(m.records, entry) && !tx.committed && !tx.done
    modifies tx, tx.fs, m`records
    ensures tx.fs.alive ==> old(tx.fs.alive)
    ensures Consistent(tx.fs.disk, tx.intent, manifest, before, after)
    ensures FilesKept(old(tx.fs.disk), tx.fs.disk, Written(tx.intent, manifest))
    ensures ok ==> m.records == after.records && Honest(tx.fs.disk, manifest, after)
                   && Consistent(tx.fs.disk, tx.intent, manifest, after, after) && Ready(tx.fs.disk, manifest, after.records)
                   && Added(old(tx.fs.disk), tx.fs.disk, Written(tx.intent, manifest))
                   && Fulfilled(tx.fs.disk, plan, tx.intent)
    ensures old(tx.fs.Steady()) && Favourable(old(tx.fs.disk), tx.intent, manifest, plan, after.records) ==>
              ok && Stages(tx.fs.disk) == {NoJournal} && tx.fs.alive
    // Without faults, the transaction comes to its end or is taken back.
    ensures old(tx.fs.Steady()) && Ready(old(tx.fs.disk), manifest, before.records) && MANIFEST !in plan.roles
            && Kept(tx.places, Dir(manifest)) && Reversible(old(tx.fs.disk), tx.places, tx.intent, manifest) ==>
              && tx.fs.alive && Stages(tx.fs.disk) == {NoJournal}
              && (!ok ==> Idle(tx.fs.disk, manifest, before) && Ready(tx.fs.disk, manifest, before.records)
                          && Withdrawn(old(tx.fs.disk), tx.fs.disk, plan))
  {
    hide Fulfilled, Consistent, Guarded, SideTrue, AllCaptured, Favourable, Honest, Underway, Arrived, Added, AllMatch, Idle,
         Ongoing, Undecided, Reversible, Finished, Writable, PlainOrGone;
    ghost var began := tx.fs.disk;
    BackupIsNoParticipant(began, manifest, plan, after, tx.intent);
    ok := Advance(tx, manifest, m, plan, entry, before, after);
    ghost var advanced := tx.fs.disk;
    if !ok {
      var aborted := Undo(tx, manifest, before, after);
      FilesKeptTransitive(began, advanced, tx.fs.disk, Written(tx.intent, manifest));
      UndoneSide(advanced, tx.intent, manifest, before, after);
      if PlainOrGone(advanced.tree, Bak(manifest)) && Valid(before.records) && Kept(tx.places, Dir(manifest))
         && Reversible(advanced, tx.places, tx.intent, manifest)
         && Elsewhere(advanced, tx.fs.disk, tx.intent) && Finished(advanced, tx.fs.disk, tx.places, tx.intent, false) {
        UndoneIsReady(advanced, tx.fs.disk, tx.places, tx.intent, manifest, before);
        UndoneIsWithdrawn(began, advanced, tx.fs.disk, tx.places, plan, tx.intent);
      }
      return;
    }
    FulfilledIsArrived(advanced, plan, tx.intent);
    if Reversible(advanced, tx.places, tx.intent, manifest) {
      ReversibleArrives(advanced, tx.places, tx.intent, manifest);
    }
    ok := Conclude(tx, manifest, before, after);
    FilesKeptTransitive(began, advanced, tx.fs.disk, Written(tx.intent, manifest));
    if ok {
      AddedSameFiles(old(tx.fs.disk), old(tx.fs.disk), advanced, tx.fs.disk, Written(tx.intent, manifest));
      FulfilledSameFiles(advanced, tx.fs.disk, plan, tx.intent);
    }
  }

  /** Run one command. Whatever fails, and wherever the process stops, the disk stays consistent;
      success means that the new manifest and every live file it vouches for are there for good, whatever
      happens later, and that nothing was written but the participants and the manifest. */
  method Transact(fs: FileSystem, places: Places, manifest: Path, m: Manifest, id: string, plan: Plan, entry: Record,
                  ghost before: Ledger, ghost after: Ledger)
    returns (ok: bool, ghost intent: Intent)
    requires ValidId(id) && Idle(fs.disk, manifest, before) && Sound(fs.disk, manifest, plan, after)
    requires m.schema == CURRENT_SCHEMA && after.records == Putting(m.records, entry)
    modifies fs, m`records
    ensures fs.alive ==> old(fs.alive)
    ensures Consistent(fs.disk, intent, manifest, before, after)
    // Whatever happens, no other file is touched.
    ensures FilesKept(old(fs.disk), fs.disk, PlanPaths(plan) + {manifest, Bak(manifest)})
    ensures ok ==> m.records == after.records && Honest(fs.disk, manifest, after)
                   && Consistent(fs.disk, intent, manifest, after, after) && Ready(fs.disk, manifest, after.records)
                   && AllCaptured(old(fs.disk), plan.specs, intent)
                   && Added(old(fs.disk), fs.disk, Written(intent, manifest)) && Fulfilled(fs.disk, plan, intent)
    ensures old(fs.Steady()) && Smooth(old(fs.disk), manifest, plan, after.records) ==>
              ok && Stages(fs.disk) == {NoJournal} && fs.alive
    // Without faults, a plan that can be taken back is carried out or leaves the disk at rest.
    ensures old(fs.Steady()) && Ready(old(fs.disk), manifest, before.records)
            && Retractable(old(fs.disk), places, manifest, plan) ==>
              && fs.alive && (ok || Stages(old(fs.disk)) == {NoJournal} ==> Stages(fs.disk) == {NoJournal})
              && (!ok ==> Idle(fs.disk, manifest, before) && Ready(fs.disk, manifest, before.records)
                          && Withdrawn(old(fs.disk), fs.disk, plan))
  {
    hide Consistent, Guarded, Sound, SideTrue, AllCaptured, Smooth, Favourable, Honest, Added, Idle, Revocable, Reversible,
         Writable;
    ManifestIsNamed(fs.disk, manifest, before);
    var tx;
    ok, tx, intent := Open(fs, places, id, plan, manifest, before, after);
    OpenedKeeps(old(fs.disk), fs.disk, manifest, plan, before);
    if ok {
      ghost var prepared := fs.disk;
      CapturedSameFiles(prepared, old(fs.disk), plan.specs, intent);
      ok := Perform(tx, manifest, m, plan, entry, before, after);
      PerformedKeeps(old(fs.disk), prepared, fs.disk, manifest, plan, intent);
      if ok {
        AddedSameFiles(old(fs.disk), prepared, fs.disk, fs.disk, Written(intent, manifest));
      }
    }
  }

  lemma OpenedKeeps(a: Disk, b: Disk, manifest: Path, plan: Plan, before: Ledger)
    requires manifest != [] && Idle(a, manifest, before) && SameFiles(a, b)
    ensures FilesKept(a, b, PlanPaths(plan) + {manifest, Bak(manifest)})
  {
    hide Honest;
    SameFilesSameOutcomes(a, b);
  }

  lemma PerformedKeeps(a: Disk, b: Disk, c: Disk, manifest: Path, plan: Plan, intent: Intent)
    requires manifest != [] && AllCaptured(b, plan.specs, intent) && FilesKept(b, c, Written(intent, manifest))
    requires FilesKept(a, b, PlanPaths(plan) + {manifest, Bak(manifest)})
    ensures FilesKept(a, c, PlanPaths(plan) + {manifest, Bak(manifest)})
  {
    hide AllCaptured, FileKept;
    MoversArePlanned(b, plan, intent);
    FilesKeptTransitive(a, b, c, PlanPaths(plan) + {manifest, Bak(manifest)});
  }

  // ---- when nothing fails ----

  /** The digest a participant is to have. */
  function DesiredSha(d: Disk, s: Spec): Option<Digest>
  {
    match s.after
    case WantAbsent => None
    case WantFile(source) => Read(d.tree, source)
    case WantBytes(data, _) => Some(Sha(data))
    case WantUnchanged => Read(d.tree, s.path)
  }

  /** The disk already says that the check will pass. */
  predicate Foreseen(d: Disk, specs: seq<Spec>, c: Check)
  {
    exists s :: s in specs && s.role == c.role
                && match c
                   case ExpectSha(_, after, sha) => (if after then DesiredSha(d, s) else Read(d.tree, s.path)) == Some(sha)
                   case ExpectAbsent(_) => Slot(d, s.path) == Gone
  }

  /** What is only guarded is a file, and reading it comes across nothing that the plan writes. */
  predicate Steadfast(d: Disk, manifest: Path, plan: Plan, s: Spec)
    requires manifest != []
  {
    && IsFile(d.tree, s.path)
    && (d.tree[s.path].Symlink? ==> Trail(Seen(d.tree), s.path, MAX_LINKS) !! PlanPaths(plan) + {Bak(manifest)})
  }

  /** What is to be applied is a file with a way down to it; only one participant may replace something
      if that is a link. */
  predicate Applicable(d: Disk, plan: Plan, s: Spec)
  {
    && (s.after.WantFile? || s.after.WantBytes?) && Passable(d.tree, Dir(s.path))
    && (s.path in d.tree && d.tree[s.path].Symlink? ==>
          forall t :: t in plan.specs && t.role in plan.roles && t != s ==> t.path !in d.tree)
  }

  /** The checks will pass. */
  predicate AllForeseen(d: Disk, plan: Plan)
  {
    forall c :: c in plan.checks ==> Foreseen(d, plan.specs, c)
  }

  /** The roles to be applied are participants other than the manifest, and nothing is in their way. */
  predicate AllApplicable(d: Disk, plan: Plan)
  {
    && MANIFEST !in plan.roles && (forall role :: role in plan.roles ==> exists s :: s in plan.specs && s.role == role)
    && (forall s :: s in plan.specs && s.role in plan.roles ==> Applicable(d, plan, s))
  }

  /** Nothing but a failure of the file system keeps the plan from being carried out. */
  predicate Smooth(d: Disk, manifest: Path, plan: Plan, records: seq<Record>)
    requires manifest != []
  {
    && d.stage == NoJournal && Coherent(d.tree) && Feasible(d, plan.specs)
    && AllForeseen(d, plan) && AllApplicable(d, plan)
    && (forall s :: s in plan.specs && s.after.WantUnchanged? ==> Steadfast(d, manifest, plan, s))
    && (forall s :: s in plan.specs ==> !s.after.WantAbsent?)
    && Writable(d.tree, manifest) && Valid(records) && ManifestSpec(manifest, records) in plan.specs
  }

  lemma CapturedSha(d: Disk, s: Spec, m: Mutation)
    requires Captured(d, s, m)
    ensures StateSha(m.before) == Read(d.tree, s.path) && StateSha(m.after) == DesiredSha(d, s)
    ensures m.before.Absent? <==> Slot(d, s.path) == Gone
  {}

  lemma ForeseenIsSatisfied(d: Disk, specs: seq<Spec>, intent: Intent, c: Check)
    requires AllCaptured(d, specs, intent) && Foreseen(d, specs, c)
    ensures Satisfied(c, intent)
  {
    var s :| s in specs && s.role == c.role
             && match c
                case ExpectSha(_, after, sha) => (if after then DesiredSha(d, s) else Read(d.tree, s.path)) == Some(sha)
                case ExpectAbsent(_) => Slot(d, s.path) == Gone;
    var m := MutationOf(d, specs, intent, s);
    CapturedSha(d, s, m);
    assert Passed(c, m);
  }

  lemma SmoothAdvances(d: Disk, manifest: Path, plan: Plan, records: seq<Record>, intent: Intent)
    requires manifest != [] && Smooth(d, manifest, plan, records) && AllCaptured(d, plan.specs, intent)
    requires forall m :: m in intent.mutations ==> HasPayload(d, m.after)
    ensures AllAdvancable(d, intent, plan.roles)
  {
    forall role | role in plan.roles ensures exists m :: m in intent.mutations && m.role == role {
      var s :| s in plan.specs && s.role == role;
      var m := MutationOf(d, plan.specs, intent, s);
    }
    forall m | m in intent.mutations && m.role in plan.roles ensures Advancable(d, m) {
      ApplicableAdvances(d, plan, intent, m);
    }
    forall m, o | m in intent.mutations && o in intent.mutations && m != o && m.role in plan.roles
                  && o.role in plan.roles && m.before.Link?
      ensures o.before.Absent?
    {
      OtherIsAbsent(d, plan, intent, m, o);
    }
  }

  lemma ApplicableAdvances(d: Disk, plan: Plan, intent: Intent, m: Mutation)
    requires AllCaptured(d, plan.specs, intent) && m in intent.mutations && m.role in plan.roles
    requires forall s :: s in plan.specs && s.role in plan.roles ==> Applicable(d, plan, s)
    requires HasPayload(d, m.after)
    ensures Advancable(d, m)
  {
    var s := SpecOf(d, plan.specs, intent, m);
    assert Applicable(d, plan, s);
  }

  lemma OtherIsAbsent(d: Disk, plan: Plan, intent: Intent, m: Mutation, o: Mutation)
    requires AllCaptured(d, plan.specs, intent) && Feasible(d, plan.specs)
    requires m in intent.mutations && o in intent.mutations && m != o && m.role in plan.roles && o.role in plan.roles
    requires forall s :: s in plan.specs && s.role in plan.roles ==> Applicable(d, plan, s)
    requires m.before.Link?
    ensures o.before.Absent?
  {
    hide Wants, Coherent;
    var i :| 0 <= i < |intent.mutations| && intent.mutations[i] == m;
    var j :| 0 <= j < |intent.mutations| && intent.mutations[j] == o;
    assert Captured(d, plan.specs[i], m) && Captured(d, plan.specs[j], o);
    assert Applicable(d, plan, plan.specs[i]);
    assert plan.specs[j] != plan.specs[i];
  }

  lemma SmoothIsUnaffected(d: Disk, manifest: Path, plan: Plan, records: seq<Record>, intent: Intent)
    requires manifest != [] && Smooth(d, manifest, plan, records) && AllCaptured(d, plan.specs, intent)
    ensures Unaffected(d, intent, Written(intent, manifest))
  {
    MoversArePlanned(d, plan, intent);
    assert ManifestSpec(manifest, records).path in PlanPaths(plan);
    forall m | m in intent.mutations && !m.after.RegularFile?
      ensures m.after.Link? && Matches(d.tree, m.path, m.after)
              && Trail(Seen(d.tree), m.path, MAX_LINKS) !! Written(intent, manifest)
    {
      var s := SpecOf(d, plan.specs, intent, m);
      assert s.after.WantUnchanged? && Steadfast(d, manifest, plan, s);
    }
  }

  /** What the disk says before the transaction holds for the prepared one. */
  lemma SmoothIsFavourable(a: Disk, b: Disk, manifest: Path, plan: Plan, records: seq<Record>, intent: Intent)
    requires manifest != [] && Smooth(a, manifest, plan, records) && SameFiles(a, b)
    requires AllCaptured(b, plan.specs, intent) && Ongoing(b, intent)
    ensures Favourable(b, intent, manifest, plan, records)
  {
    var c := b.(stage := NoJournal);
    SmoothSameFiles(a, c, manifest, plan, records);
    CapturedSameFiles(b, c, plan.specs, intent);
    IntactPayloads(b, intent);
    SmoothAdvances(c, manifest, plan, records, intent);
    SmoothIsUnaffected(c, manifest, plan, records, intent);
    forall check | check in plan.checks ensures Satisfied(check, intent) {
      ForeseenIsSatisfied(c, plan.specs, intent, check);
    }
    assert forall m :: Advancable(c, m) ==> Advancable(b, m);
  }

  lemma SmoothSameFiles(a: Disk, b: Disk, manifest: Path, plan: Plan, records: seq<Record>)
    requires manifest != [] && Smooth(a, manifest, plan, records) && SameFiles(a, b) && b.stage == NoJournal
    ensures Smooth(b, manifest, plan, records)
  {
    assert forall p :: Slot(b, p) == Slot(a, p);
    CalmEverywhere(a, b, plan.specs);
    forall check | check in plan.checks ensures Foreseen(b, plan.specs, check) {
      assert Foreseen(a, plan.specs, check);
    }
    assert forall s :: Applicable(a, plan, s) ==> Applicable(b, plan, s);
    assert forall s :: Steadfast(a, manifest, plan, s) ==> Steadfast(b, manifest, plan, s);
  }
}
