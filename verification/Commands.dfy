/** Adopt, upgrade and rollback as transactions over the live file, the original backup and the
    manifest. */
module Commands {
  import opened Options
  import opened Files
  import opened Disks
  import opened Views
  import opened Journal
  import opened DurableFs
  import opened EmptyParents
  import opened JournalDir
  import opened Converge
  import opened Recovery
  import opened Capture
  import opened Transactions
  import opened Managed
  import opened Reversals
  import opened ManifestFile
  import opened Additions

  /** What a command checks about the captured states before it touches anything. */
  datatype Check = ExpectSha(role: string, after: bool, sha: Digest) | ExpectAbsent(role: string)

  /** A command: its participants, its checks, and the roles it applies itself. The manifest goes
      through its own durable save, guards are only verified. */
  datatype Plan = Plan(specs: seq<Spec>, checks: seq<Check>, roles: seq<string>)

  predicate Passed(c: Check, m: Mutation)
  {
    match c
    case ExpectSha(role, after, sha) => role == m.role ==> StateSha(Target(m, after)) == Some(sha)
    case ExpectAbsent(role) => role == m.role ==> m.before.Absent?
  }

  const MANIFEST := "manifest"

  function ManifestSpec(manifest: Path, records: seq<Record>): Spec
  {
    Spec(MANIFEST, manifest, WantBytes(Current(records), DEFAULT_MODE))
  }

  /** The paths that a plan may write. */
  function PlanPaths(plan: Plan): set<Path>
  {
    set s | s in plan.specs && !s.after.WantUnchanged? :: s.path
  }

  /** What is there for good and the plan leaves alone. */
  ghost function Beside(d: Disk, manifest: Path, plan: Plan): View
    requires manifest != []
  {
    Standing(d, manifest) - PlanPaths(plan)
  }

  /** The participant that writes the content of a record, and the check that says so. */
  predicate Carries(plan: Plan, s: Spec, r: Record)
  {
    && s in plan.specs && s.path == r.path && (s.after.WantFile? || s.after.WantBytes?)
    && ExpectSha(s.role, true, r.sha) in plan.checks
  }

  /** A plan that takes the manifest to `after`. Every record that `after` vouches for is carried by the
      plan, or leads to its content without touching anything the plan writes. */
  ghost predicate Sound(d: Disk, manifest: Path, plan: Plan, after: Ledger)
  {
    && Calm(d, plan.specs) && Layout(manifest, after.records)
    && ManifestSpec(manifest, after.records) in plan.specs
    && (forall s :: s in plan.specs ==>
          && (s.role in plan.roles || s.role == MANIFEST || s.after.WantUnchanged?)
          && !s.after.WantAbsent? && Apart(s.path, Bak(manifest)))
    && (forall r :: r in after.records && r.name in after.reach ==>
          || (after.reach[r.name] == {r.path} && exists s :: Carries(plan, s, r))
          || (Agrees(Beside(d, manifest, plan), r)
              && Trail(Beside(d, manifest, plan), r.path, MAX_LINKS) == after.reach[r.name]))
  }

  lemma MutationOf(d: Disk, specs: seq<Spec>, intent: Intent, s: Spec) returns (m: Mutation)
    requires AllCaptured(d, specs, intent) && s in specs
    ensures m in intent.mutations && Captured(d, s, m)
  {
    var i :| 0 <= i < |specs| && specs[i] == s;
    m := intent.mutations[i];
  }

  lemma SpecOf(d: Disk, specs: seq<Spec>, intent: Intent, m: Mutation) returns (s: Spec)
    requires AllCaptured(d, specs, intent) && m in intent.mutations
    ensures s in specs && Captured(d, s, m)
  {
    var i :| 0 <= i < |specs| && intent.mutations[i] == m;
    s := specs[i];
  }

  /** Only what the plan may write moves. */
  lemma MoversArePlanned(d: Disk, plan: Plan, intent: Intent)
    requires AllCaptured(d, plan.specs, intent)
    ensures Movers(intent) <= PlanPaths(plan)
  {
    forall m | m in intent.mutations && !Guard(m) ensures m.path in PlanPaths(plan) {
      var s := SpecOf(d, plan.specs, intent, m);
    }
  }

  lemma PlansAreAdditive(d: Disk, plan: Plan, intent: Intent)
    requires AllCaptured(d, plan.specs, intent) && forall s :: s in plan.specs ==> !s.after.WantAbsent?
    ensures Additive(intent)
  {
    forall m | m in intent.mutations && m.after.Absent? ensures m.before.Absent? {
      var s := SpecOf(d, plan.specs, intent, m);
    }
  }

  /** The before states of a freshly prepared journal tell the truth of the old manifest. */
  lemma PreparedTruth(d: Disk, manifest: Path, plan: Plan, before: Ledger, after: Ledger, intent: Intent)
    requires Honest(d, manifest, before) && Sound(d, manifest, plan, after) && AllCaptured(d, plan.specs, intent)
    requires ValidIntent(intent)
    ensures SideTrue(d, intent, manifest, before, false)
  {
    var own := MutationOf(d, plan.specs, intent, ManifestSpec(manifest, after.records));
    FittingSlot(Slot(d, manifest), own.before, before.records);
    var standing, side := Standing(d, manifest), SideView(d, intent, manifest, false);
    forall p | p in standing ensures p in side && side[p] == standing[p] {
      if p in Movers(intent) {
        var m := MoverAt(intent, p);
        var s := SpecOf(d, plan.specs, intent, m);
        assert Matches(d.tree, p, m.before);
      }
    }
    ExtendedVouches(standing, side, before);
  }

  /** A checked participant that carries a record has its digest. */
  lemma CarriedState(d: Disk, plan: Plan, intent: Intent, r: Record, s: Spec) returns (m: Mutation)
    requires AllCaptured(d, plan.specs, intent) && Carries(plan, s, r)
    requires forall c, m :: c in plan.checks && m in intent.mutations ==> Passed(c, m)
    ensures m in intent.mutations && Captured(d, s, m) && m.path == r.path
    ensures m.after.RegularFile? && m.after.sha == r.sha
  {
    hide Matches;
    m := MutationOf(d, plan.specs, intent, s);
    assert Passed(ExpectSha(s.role, true, r.sha), m);
  }

  lemma CarriedMover(d: Disk, intent: Intent, manifest: Path, m: Mutation)
    requires manifest != [] && ValidIntent(intent) && m in intent.mutations && !Guard(m) && m.after.RegularFile?
    requires m.path != manifest && m.path != Bak(manifest)
    ensures var side := SideView(d, intent, manifest, true); m.path in side && side[m.path] == Plain(m.after.sha)
  {
    hide ForGood, MoverAt, Guard, ValidIntent;
    MoverIs(intent, m);
  }

  lemma CarriedGuard(d: Disk, intent: Intent, manifest: Path, m: Mutation)
    requires manifest != [] && ValidIntent(intent) && m in intent.mutations && Guard(m) && m.after.RegularFile?
    requires Lasting(d, m.path) && m.path != [] && Fits(Slot(d, m.path), m.before)
    requires m.path != manifest && m.path != Bak(manifest)
    ensures var side := SideView(d, intent, manifest, true); m.path in side && side[m.path] == Plain(m.after.sha)
  {
    hide Lasting, ValidIntent;
    OneAtAPath(intent, m);
  }

  /** What a carried record leads to once the plan has been carried out. */
  lemma CarriedReads(d: Disk, manifest: Path, plan: Plan, after: Ledger, intent: Intent, r: Record, s: Spec)
    requires Sound(d, manifest, plan, after) && AllCaptured(d, plan.specs, intent) && ValidIntent(intent)
    requires forall c, m :: c in plan.checks && m in intent.mutations ==> Passed(c, m)
    requires r in after.records && Carries(plan, s, r)
    ensures var side := SideView(d, intent, manifest, true); r.path in side && side[r.path] == Plain(r.sha)
  {
    hide AllCaptured, ValidIntent, SideView, Agrees, Beside, Trail, Lasting, Footing;
    var m := CarriedState(d, plan, intent, r, s);
    if Guard(m) {
      assert Settled(d, r.path);
      CarriedGuard(d, intent, manifest, m);
    } else {
      CarriedMover(d, intent, manifest, m);
    }
  }

  lemma OneAtAPath(intent: Intent, m: Mutation)
    requires ValidIntent(intent) && m in intent.mutations
    ensures forall o :: o in intent.mutations && o.path == m.path ==> o == m
    ensures Guard(m) ==> m.path !in Movers(intent)
  {
    forall o | o in intent.mutations && o.path == m.path ensures o == m {
      var i :| 0 <= i < |intent.mutations| && intent.mutations[i] == m;
      var j :| 0 <= j < |intent.mutations| && intent.mutations[j] == o;
    }
  }

  lemma BesideStays(d: Disk, manifest: Path, plan: Plan, intent: Intent)
    requires manifest != [] && AllCaptured(d, plan.specs, intent)
    ensures Extends(Beside(d, manifest, plan), SideView(d, intent, manifest, true))
  {
    MoversArePlanned(d, plan, intent);
  }

  lemma CheckedAgrees(d: Disk, manifest: Path, plan: Plan, after: Ledger, intent: Intent, r: Record)
    requires Sound(d, manifest, plan, after) && AllCaptured(d, plan.specs, intent) && ValidIntent(intent)
    requires forall c, m :: c in plan.checks && m in intent.mutations ==> Passed(c, m)
    requires r in after.records && r.name in after.reach
    ensures var side := SideView(d, intent, manifest, true);
            Agrees(side, r) && Trail(side, r.path, MAX_LINKS) == after.reach[r.name]
  {
    hide AllCaptured, ValidIntent, Calm, SideView, Beside, Extends, ManifestSpec;
    var beside, side := Beside(d, manifest, plan), SideView(d, intent, manifest, true);
    if Agrees(beside, r) && Trail(beside, r.path, MAX_LINKS) == after.reach[r.name] {
      BesideStays(d, manifest, plan, intent);
      ExtendedReads(beside, side, r.path, MAX_LINKS);
    } else {
      var s :| Carries(plan, s, r);
      CarriedReads(d, manifest, plan, after, intent, r, s);
    }
  }

  /** Once the checks have passed, the after states tell the truth of the new manifest. */
  lemma CheckedTruth(d: Disk, manifest: Path, plan: Plan, after: Ledger, intent: Intent)
    requires Sound(d, manifest, plan, after) && AllCaptured(d, plan.specs, intent) && ValidIntent(intent)
    requires forall c, m :: c in plan.checks && m in intent.mutations ==> Passed(c, m)
    ensures SideTrue(d, intent, manifest, after, true)
  {
    CheckedRecord(d, manifest, plan, after, intent);
    forall r | r in after.records && r.name in after.reach
      ensures var side := SideView(d, intent, manifest, true);
              Agrees(side, r) && Trail(side, r.path, MAX_LINKS) == after.reach[r.name]
    {
      CheckedAgrees(d, manifest, plan, after, intent, r);
    }
  }

  lemma CheckedRecord(d: Disk, manifest: Path, plan: Plan, after: Ledger, intent: Intent)
    requires Sound(d, manifest, plan, after) && AllCaptured(d, plan.specs, intent)
    ensures Recorded(d, intent, manifest, after.records, true)
  {
    var s := ManifestSpec(manifest, after.records);
    var own := MutationOf(d, plan.specs, intent, s);
    assert StateDescribes(own.after, after.records);
    if Guard(own) {
      assert Settled(d, manifest) && Fits(Slot(d, manifest), own.before);
      AlikeFits(Slot(d, manifest), own.before, own.after);
    }
  }

  // ---- the steps between Begin and Commit ----

  /** The participant that a check is about satisfies it. */
  predicate Satisfied(c: Check, intent: Intent)
  {
    exists m :: m in intent.mutations && m.role == c.role && Passed(c, m)
  }

  /** The commands' own checks of what was captured. */
  method RunChecks(tx: Transaction, checks: seq<Check>) returns (ok: bool)
    requires ValidIntent(tx.intent)
    ensures ok <==> forall c :: c in checks ==> Satisfied(c, tx.intent)
    ensures ok ==> forall c, m :: c in checks && m in tx.intent.mutations ==> Passed(c, m)
  {
    for i := 0 to |checks|
      invariant forall k :: 0 <= k < i ==> Satisfied(checks[k], tx.intent)
      invariant forall k, m :: 0 <= k < i && m in tx.intent.mutations ==> Passed(checks[k], m)
    {
      var m := tx.Lookup(checks[i].role);
      if m.None? || !Passed(checks[i], m.value) {
        if m.Some? {
          RolesAreUnique(tx.intent, m.value);
        }
        assert checks[i] in checks && !Satisfied(checks[i], tx.intent);
        return false;
      }
      RolesAreUnique(tx.intent, m.value);
    }
    ok := true;
  }

  lemma ElsewhereTransitive(a: Disk, b: Disk, c: Disk, intent: Intent)
    requires Elsewhere(a, b, intent) && Elsewhere(b, c, intent)
    ensures Elsewhere(a, c, intent)
  {
    FilesKeptTransitive(a, b, c, Movers(intent));
    forall p | forall m :: m in intent.mutations ==> !(p <= m.path) ensures Undisturbed(a, c, p) {
      assert Undisturbed(a, b, p) && Undisturbed(b, c, p);
    }
  }

  /** Nothing but a failure of the file system keeps this participant from advancing. */
  predicate Advancable(d: Disk, m: Mutation)
  {
    && m.after.RegularFile? && HasPayload(d, m.after) && Passable(d.tree, Dir(m.path))
    && (Matches(d.tree, m.path, m.before) || Matches(d.tree, m.path, m.after))
  }

  /** Every one of these roles is there, and nothing is in its way: a link that one of them replaces is
      not changed by the others. */
  predicate AllAdvancable(d: Disk, intent: Intent, roles: seq<string>)
  {
    && (forall role :: role in roles ==> exists m :: m in intent.mutations && m.role == role)
    && (forall m :: m in intent.mutations && m.role in roles ==> Advancable(d, m))
    && (forall m, o :: m in intent.mutations && o in intent.mutations && m != o && m.role in roles ==>
          (o.role in roles && m.before.Link? ==> o.before.Absent?))
  }

  lemma AdvancableTurns(d: Disk, places: Places, m: Mutation)
    requires Coherent(d.tree) && m.path != [] && Advancable(d, m)
    ensures Turn(places, d.box, d.tree, m, m.after).Some?
  {
    if !Matches(d.tree, m.path, m.after) {
      AlikeMatches(d.tree, m.path, m.before, m.before);
      if Alike(m.after, m.before) {
        AlikeMatches(d.tree, m.path, m.after, m.before);
      }
    }
  }

  lemma ParticipantsApart(intent: Intent, m: Mutation, other: Mutation)
    requires Flat(intent) && m in intent.mutations && other in intent.mutations && m.role != other.role
    ensures !(m.path <= other.path) && !(other.path <= m.path)
  {
    var i :| 0 <= i < |intent.mutations| && intent.mutations[i] == m;
    var j :| 0 <= j < |intent.mutations| && intent.mutations[j] == other;
  }

  /** A file put in place leaves the way to any path that is neither above nor below it passable. */
  lemma MoveKeepsPassable(a: Tree, moved: Path, node: Node, dir: Path)
    requires moved != [] && Passable(a, Dir(moved)) && Passable(a, dir) && !(moved <= dir)
    ensures Passable(WithDirs(a, Dir(moved))[moved := node], dir)
  {
    WithDirsAdds(a, Dir(moved));
  }

  lemma MoveKeepsRead(a: Tree, moved: Path, node: Node, path: Path)
    requires moved != [] && Passable(a, Dir(moved)) && !node.Directory? && moved !in a && Read(a, path).Some?
    ensures Read(WithDirs(a, Dir(moved))[moved := node], path) == Read(a, path)
  {
    WithDirsAdds(a, Dir(moved));
    assert Extends(Seen(a), Seen(WithDirs(a, Dir(moved))[moved := node]));
    ExtendedReads(Seen(a), Seen(WithDirs(a, Dir(moved))[moved := node]), path, MAX_LINKS);
  }

  /** Another participant keeps its state when a file is put in place, unless it is a link and something
      was replaced. */
  lemma MoveKeepsMatch(a: Tree, b: Tree, moved: Path, node: Node, path: Path, state: State)
    requires moved != [] && Passable(a, Dir(moved)) && !node.Directory?
    requires b == WithDirs(a, Dir(moved))[moved := node]
    requires !(path <= moved) && !(moved <= path) && (state.Link? ==> moved !in a)
    ensures Matches(a, path, state) ==> Matches(b, path, state)
  {
    if Matches(a, path, state) {
      WithDirsAdds(a, Dir(moved));
      assert Visible(b, path) == Visible(a, path);
      if state.Absent? {
        MoveKeepsPassable(a, moved, node, Dir(path));
      }
      if state.Link? {
        MoveKeepsRead(a, moved, node, path);
      }
    }
  }

  lemma StillAdvancable(b: Disk, c: Disk, places: Places, m: Mutation, o: Mutation)
    requires Coherent(b.tree) && !(m.path <= o.path) && !(o.path <= m.path) && o.path != [] && m != o
    requires Advancable(b, m) && Advancable(b, o) && Turn(places, b.box, b.tree, o, o.after) == Some(c.tree) && c.box == b.box
    requires m.before.Link? ==> o.before.Absent?
    ensures Advancable(c, m)
  {
    if !Matches(b.tree, o.path, o.after) {
      if m.before.Link? {
        assert Matches(b.tree, o.path, o.before);
      }
      var node := GoalNode(b.box, o.after);
      MoveKeepsPassable(b.tree, o.path, node, Dir(m.path));
      MoveKeepsMatch(b.tree, c.tree, o.path, node, m.path, if m.before.Link? then m.before else Absent);
      MoveKeepsMatch(b.tree, c.tree, o.path, node, m.path, m.after);
      if !m.before.Link? {
        MoveKeepsMatch(b.tree, c.tree, o.path, node, m.path, m.before);
      }
    }
  }

  lemma AdvancedIsAdvancable(b: Disk, c: Disk, m: Mutation)
    requires Advancable(b, m) && Coherent(c.tree) && c.box == b.box && Matches(c.tree, m.path, m.after)
    ensures Advancable(c, m)
  {
    forall p | p in c.tree && p <= Dir(m.path) ensures c.tree[p].Directory? {
      AncestorsAreDirectories(c.tree, m.path, p);
    }
  }

  /** What the participants with these roles write. */
  function MoversIn(intent: Intent, roles: seq<string>): set<Path>
  {
    set m | m in intent.mutations && m.role in roles && !Guard(m) :: m.path
  }

  /** A prepared transaction in which nothing is decided. */
  ghost predicate Revocable(d: Disk, intent: Intent)
  {
    Ongoing(d, intent) && Undecided(d, intent) && Additive(intent)
  }

  lemma OthersStillAdvance(b: Disk, c: Disk, places: Places, intent: Intent, roles: seq<string>, o: Mutation)
    requires Ongoing(b, intent) && AllAdvancable(b, intent, roles)
    requires o in intent.mutations && o.role in roles && Coherent(c.tree) && c.box == b.box
    requires Turn(places, b.box, b.tree, o, o.after) == Some(c.tree) && Matches(c.tree, o.path, o.after)
    ensures AllAdvancable(c, intent, roles)
  {
    forall m | m in intent.mutations && m.role in roles ensures Advancable(c, m) {
      RolesAreUnique(intent, o);
      if m == o {
        AdvancedIsAdvancable(b, c, o);
      } else {
        ParticipantsApart(intent, m, o);
        StillAdvancable(b, c, places, m, o);
      }
    }
  }

  /** Advance one role; the others stay in a position to advance. */
  method ApplyRole(tx: Transaction, role: string, ghost roles: seq<string>) returns (ok: bool)
    requires Revocable(tx.fs.disk, tx.intent) && role in roles
    modifies tx.fs
    ensures tx.fs.alive ==> old(tx.fs.alive)
    ensures Revocable(tx.fs.disk, tx.intent)
    ensures SameJournal(old(tx.fs.disk), tx.fs.disk) && Elsewhere(old(tx.fs.disk), tx.fs.disk, tx.intent)
    ensures ok ==> forall m :: m in tx.intent.mutations && m.role == role ==> Reached(tx.fs.disk, m, true)
    ensures ok ==> Added(old(tx.fs.disk), tx.fs.disk, MoversIn(tx.intent, [role]))
    ensures forall m :: m in tx.intent.mutations && m.role != role ==>
              Undisturbed(old(tx.fs.disk), tx.fs.disk, m.path)
    ensures DirsKept(old(tx.fs.disk.tree), tx.fs.disk.tree)
    ensures old(tx.fs.Steady()) ==> tx.fs.alive
    ensures old(tx.fs.Steady()) && !tx.done && AllAdvancable(old(tx.fs.disk), tx.intent, roles) ==>
              ok && AllAdvancable(tx.fs.disk, tx.intent, roles)
  {
    ghost var was := tx.fs.disk;
    RoleAdvances(was, tx.places, tx.intent, role, roles);
    ok := tx.Apply(role);
    RoleKeepsDirs(was, tx.fs.disk, tx.places, tx.intent, role, ok);
    if ok {
      ghost var moved :| moved in tx.intent.mutations && moved.role == role;
      RoleApplied(was, tx.fs.disk, tx.places, tx.intent, roles, moved);
    }
  }

  /** No directory goes while nothing is removed. */
  lemma RoleKeepsDirs(a: Disk, b: Disk, places: Places, intent: Intent, role: string, ok: bool)
    requires Additive(intent)
    requires forall m :: m in intent.mutations && m.role == role ==> Advanced(a, b, places, m, ok)
    requires (forall m :: m in intent.mutations ==> m.role != role) ==> b == a
    ensures DirsKept(a.tree, b.tree)
  {
    if m :| m in intent.mutations && m.role == role {
      assert Advanced(a, b, places, m, ok);
    }
  }

  lemma DirsKeptTwice(a: Tree, b: Tree, c: Tree)
    requires Coherent(a) && DirsKept(a, b) && DirsKept(b, c)
    ensures DirsKept(a, c)
  {}

  lemma RoleAdvances(d: Disk, places: Places, intent: Intent, role: string, roles: seq<string>)
    requires Ongoing(d, intent) && role in roles
    ensures AllAdvancable(d, intent, roles) ==>
              exists m :: m in intent.mutations && m.role == role && Turn(places, d.box, d.tree, m, m.after).Some?
  {
    if AllAdvancable(d, intent, roles) {
      var m :| m in intent.mutations && m.role == role;
      AdvancableTurns(d, places, m);
    }
  }

  lemma RoleApplied(b: Disk, c: Disk, places: Places, intent: Intent, roles: seq<string>, moved: Mutation)
    requires Revocable(b, intent) && moved in intent.mutations && moved.role in roles
    requires Advanced(b, c, places, moved, true) && c.box == b.box
    ensures forall m :: m in intent.mutations && m.role == moved.role ==> Reached(c, m, true)
    ensures Added(b, c, MoversIn(intent, [moved.role]))
    ensures AllAdvancable(b, intent, roles) ==> AllAdvancable(c, intent, roles)
  {
    hide Undecided, Added, AllAdvancable, Turn, KeepsTree, Coherent, FilesKept;
    RolesAreUnique(intent, moved);
    AddedByTurn(b, c, places, moved);
    assert MoversIn(intent, [moved.role]) == if Guard(moved) then {} else {moved.path};
    if AllAdvancable(b, intent, roles) {
      OthersStillAdvance(b, c, places, intent, roles, moved);
    }
  }

  /** What the first of these roles and the next one have added. */
  lemma AddedByRoles(a: Disk, b: Disk, c: Disk, intent: Intent, first: seq<string>, role: string)
    requires Revocable(a, intent) && Added(a, b, MoversIn(intent, first)) && Added(b, c, MoversIn(intent, [role]))
    requires forall m :: m in intent.mutations && m.role in first ==> Reached(c, m, true)
    ensures Added(a, c, MoversIn(intent, first + [role]))
  {
    assert MoversIn(intent, first + [role]) == MoversIn(intent, first) + MoversIn(intent, [role]);
    forall p | p in MoversIn(intent, first) ensures !IsDir(c.tree, p) {
      var m :| m in intent.mutations && m.role in first && !Guard(m) && m.path == p;
      assert Fits(Slot(c, p), m.after);
    }
    forall p | p in MoversIn(intent, [role]) ensures !IsDir(a.tree, p) {
      var m :| m in intent.mutations && m.role in [role] && !Guard(m) && m.path == p;
      assert Slot(a, p) in Fates(a, p) && Slot(a, p) in Outcomes(a, p);
    }
    AddedTwice(a, b, c, MoversIn(intent, first), MoversIn(intent, [role]));
  }

  /** Advance the participants with these roles, in this order. */
  method ApplyRoles(tx: Transaction, roles: seq<string>) returns (ok: bool)
    requires Revocable(tx.fs.disk, tx.intent)
    modifies tx.fs
    ensures tx.fs.alive ==> old(tx.fs.alive)
    ensures Revocable(tx.fs.disk, tx.intent)
    ensures SameJournal(old(tx.fs.disk), tx.fs.disk) && Elsewhere(old(tx.fs.disk), tx.fs.disk, tx.intent)
    ensures ok ==> forall m :: m in tx.intent.mutations && m.role in roles ==> Reached(tx.fs.disk, m, true)
    ensures ok ==> Added(old(tx.fs.disk), tx.fs.disk, MoversIn(tx.intent, roles))
    ensures forall m :: m in tx.intent.mutations && m.role !in roles ==>
              Undisturbed(old(tx.fs.disk), tx.fs.disk, m.path)
    ensures DirsKept(old(tx.fs.disk.tree), tx.fs.disk.tree)
    ensures old(tx.fs.Steady()) ==> tx.fs.alive
    ensures old(tx.fs.Steady()) && !tx.done && AllAdvancable(old(tx.fs.disk), tx.intent, roles) ==> ok
  {
    ElsewhereNowhere(tx.fs.disk, tx.intent);
    AddedNothing(tx.fs.disk, tx.fs.disk);
    assert MoversIn(tx.intent, []) == {};
    for i := 0 to |roles|
      invariant tx.fs.alive ==> old(tx.fs.alive)
      invariant Revocable(tx.fs.disk, tx.intent)
      invariant SameJournal(old(tx.fs.disk), tx.fs.disk) && Elsewhere(old(tx.fs.disk), tx.fs.disk, tx.intent)
      invariant forall m :: m in tx.intent.mutations && m.role in roles[..i] ==> Reached(tx.fs.disk, m, true)
      invariant Added(old(tx.fs.disk), tx.fs.disk, MoversIn(tx.intent, roles[..i]))
      invariant forall m :: m in tx.intent.mutations && m.role !in roles ==>
                  Undisturbed(old(tx.fs.disk), tx.fs.disk, m.path)
      invariant DirsKept(old(tx.fs.disk.tree), tx.fs.disk.tree)
      invariant old(tx.fs.Steady()) ==> tx.fs.alive
      invariant old(tx.fs.Steady()) && !tx.done && AllAdvancable(old(tx.fs.disk), tx.intent, roles) ==>
                  AllAdvancable(tx.fs.disk, tx.intent, roles)
    {
      ghost var was := tx.fs.disk;
      ok := ApplyRole(tx, roles[i], roles);
      ElsewhereTransitive(old(tx.fs.disk), was, tx.fs.disk, tx.intent);
      UndisturbedTransitive(old(tx.fs.disk), was, tx.fs.disk, tx.intent, roles);
      DirsKeptTwice(old(tx.fs.disk.tree), was.tree, tx.fs.disk.tree);
      if !ok {
        return;
      }
      assert roles[..i + 1] == roles[..i] + [roles[i]];
      ReachedSoFar(was, tx.fs.disk, tx.intent, roles[..i], roles[i]);
      AddedByRoles(old(tx.fs.disk), was, tx.fs.disk, tx.intent, roles[..i], roles[i]);
    }
    assert roles[..|roles|] == roles;
    ok := true;
  }

  lemma ReachedSoFar(b: Disk, c: Disk, intent: Intent, first: seq<string>, role: string)
    requires forall m :: m in intent.mutations && m.role in first ==> Reached(b, m, true)
    requires forall m :: m in intent.mutations && m.role == role ==> Reached(c, m, true)
    requires forall m :: m in intent.mutations && m.role != role ==> Undisturbed(b, c, m.path)
    ensures forall m :: m in intent.mutations && m.role in first + [role] ==> Reached(c, m, true)
  {
    forall m | m in intent.mutations && m.role in first + [role] ensures Reached(c, m, true) {
      if m.role != role {
        UndisturbedReached(b, c, m, true);
      }
    }
  }

  lemma UndisturbedTransitive(a: Disk, b: Disk, c: Disk, intent: Intent, roles: seq<string>)
    requires forall m :: m in intent.mutations && m.role !in roles ==> Undisturbed(a, b, m.path)
    requires forall m :: m in intent.mutations && m.role !in roles ==> Undisturbed(b, c, m.path)
    ensures forall m :: m in intent.mutations && m.role !in roles ==> Undisturbed(a, c, m.path)
  {
    forall m | m in intent.mutations && m.role !in roles ensures Undisturbed(a, c, m.path) {
      assert Undisturbed(a, b, m.path) && Undisturbed(b, c, m.path);
    }
  }

  // ---- the manifest's own step ----

  lemma OthersAreApart(intent: Intent, own: Mutation)
    requires Flat(intent) && own in intent.mutations
    ensures forall m :: m in intent.mutations && m != own ==> !(m.path <= own.path) && m.path != own.path
  {
    forall m | m in intent.mutations && m != own ensures !(m.path <= own.path) {
      var i :| 0 <= i < |intent.mutations| && intent.mutations[i] == m;
      var j :| 0 <= j < |intent.mutations| && intent.mutations[j] == own;
    }
  }

  /** Saving the manifest moves that participant towards its after state and no other. */
  lemma SaveStep(a: Disk, b: Disk, intent: Intent, manifest: Path, own: Mutation, node: Node)
    requires Ongoing(a, intent) && own in intent.mutations && own.path == manifest && manifest != []
    requires OnlyAtBoth(a, b, manifest, Bak(manifest)) && Fits(Holds(node), own.after)
    requires Fates(b, manifest) <= Fates(a, manifest) + {Holds(node)}
    requires forall m :: m in intent.mutations ==> Apart(m.path, Bak(manifest))
    ensures Ongoing(b, intent)
    ensures Undecided(a, intent) ==> Undecided(b, intent)
    ensures forall m :: m in intent.mutations && m != own ==> Undisturbed(a, b, m.path)
  {
    OthersAreApart(intent, own);
    forall m | m in intent.mutations && !Guard(m) ensures ContainedAt(b, m) {
      SaveKeepsContained(a, b, manifest, own, node, m);
    }
    ContainedKeepsSafe(a, b, intent);
  }

  lemma SaveKeepsContained(a: Disk, b: Disk, manifest: Path, own: Mutation, node: Node, m: Mutation)
    requires manifest != [] && own.path == manifest && m.path != []
    requires OnlyAtBoth(a, b, manifest, Bak(manifest)) && Fits(Holds(node), own.after)
    requires Fates(b, manifest) <= Fates(a, manifest) + {Holds(node)}
    requires m != own ==> !(m.path <= manifest) && Apart(m.path, Bak(manifest))
    requires forall f :: f in Outcomes(a, m.path) ==> Fits(f, m.before) || Fits(f, m.after)
    ensures ContainedAt(b, m)
  {
    if m == own {
      ContainedMove(a, b, m, m.after);
    } else {
      SlotIsFile(a, m);
      OutcomesKept(a, b, m.path);
    }
  }

  lemma SlotIsFile(d: Disk, m: Mutation)
    requires ContainedAt(d, m)
    ensures Slot(d, m.path) != Holds(Directory)
  {
    assert Slot(d, m.path) in Outcomes(d, m.path);
  }

  /** A guarded manifest is rewritten as it was. */
  lemma SaveKeepsManifest(a: Disk, b: Disk, intent: Intent, manifest: Path, own: Mutation, node: Node)
    requires ValidIntent(intent) && own in intent.mutations && own.path == manifest && manifest != []
    requires OnlyAtBoth(a, b, manifest, Bak(manifest)) && Fits(Holds(node), own.after) && own.after.RegularFile?
    requires Fates(b, manifest) <= Fates(a, manifest) + {Holds(node)}
    requires Fits(Slot(a, manifest), own.before)
    ensures ManifestKept(a, b, intent, manifest)
  {
    OneAtAPath(intent, own);
    if Guard(own) && Lasting(a, manifest) {
      assert Slot(a, manifest) == Holds(node) && Slot(b, manifest) in Fates(b, manifest);
      WhatCannotGoIsFirm(a, manifest);
      FirmKept(a, b, Dir(manifest));
    }
  }

  lemma ElsewhereKeepsManifest(a: Disk, b: Disk, intent: Intent, manifest: Path)
    requires ValidIntent(intent) && Elsewhere(a, b, intent)
    ensures ManifestKept(a, b, intent, manifest)
  {
    forall m | m in intent.mutations && m.path == manifest && Guard(m) && IsFile(a.tree, manifest) && Lasting(a, manifest)
      ensures Lasting(b, manifest) && Slot(b, manifest) == Slot(a, manifest)
    {
      OneAtAPath(intent, m);
      assert FileKept(a, b, manifest);
      WhatCannotGoIsFirm(a, manifest);
      assert Slot(b, manifest) in Fates(b, manifest);
    }
  }

  /** An open transaction that can go either way, each way to the truth. */
  ghost predicate Underway(d: Disk, intent: Intent, manifest: Path, before: Ledger, after: Ledger)
  {
    && Revocable(d, intent) && d.marker == None && d.markerLimbo == {}
    && SideTrue(d, intent, manifest, before, false) && SideTrue(d, intent, manifest, after, true)
  }

  lemma UnderwayKept(a: Disk, b: Disk, intent: Intent, manifest: Path, before: Ledger, after: Ledger)
    requires Underway(a, intent, manifest, before, after) && SameJournal(a, b) && Revocable(b, intent)
    requires FilesKept(a, b, Movers(intent) + {manifest, Bak(manifest)}) && ManifestKept(a, b, intent, manifest)
    ensures Underway(b, intent, manifest, before, after)
  {
    SideKept(a, b, intent, manifest, before, false);
    SideKept(a, b, intent, manifest, after, true);
  }

  lemma NothingChanged(d: Disk, intent: Intent, manifest: Path)
    requires manifest != [] && Coherent(d.tree)
    ensures OnlyAtBoth(d, d, manifest, Bak(manifest)) && ManifestKept(d, d, intent, manifest)
  {}

  /** The manifest's own step: verify that nobody changed it, then save it. A failed save takes the
      new entry back. */
  method SwitchManifest(tx: Transaction, manifest: Path, m: Manifest, entry: Record, ghost own: Mutation)
    returns (ok: bool)
    requires manifest != [] && own in tx.intent.mutations && own.role == MANIFEST && own.path == manifest
    requires Revocable(tx.fs.disk, tx.intent) && m.schema == CURRENT_SCHEMA
    requires Fits(Holds(Regular(Current(Putting(m.records, entry)), DEFAULT_MODE)), own.after)
    requires forall o :: o in tx.intent.mutations ==> Apart(o.path, Bak(manifest))
    modifies tx.fs, m`records
    ensures tx.fs.alive ==> old(tx.fs.alive)
    ensures Revocable(tx.fs.disk, tx.intent)
    ensures OnlyAtBoth(old(tx.fs.disk), tx.fs.disk, manifest, Bak(manifest))
    ensures ManifestKept(old(tx.fs.disk), tx.fs.disk, tx.intent, manifest)
    ensures m.records == if ok then Putting(old(m.records), entry) else old(m.records)
    ensures ok ==> Reached(tx.fs.disk, own, true) && Added(old(tx.fs.disk), tx.fs.disk, {manifest, Bak(manifest)})
                   && Ready(tx.fs.disk, manifest, m.records)
    ensures forall o :: o in tx.intent.mutations && o != own ==>
              Undisturbed(old(tx.fs.disk), tx.fs.disk, o.path)
    ensures old(tx.fs.Steady()) && !tx.done && Writable(old(tx.fs.disk.tree), manifest) ==>
              tx.fs.alive && (ok || tx.fs.disk == old(tx.fs.disk))
    ensures old(tx.fs.Steady()) && !tx.done && Matches(old(tx.fs.disk.tree), manifest, own.before)
            && Writable(old(tx.fs.disk.tree), manifest) && Valid(Putting(old(m.records), entry)) ==>
              ok && tx.fs.alive
  {
    hide OnlyAtBoth, Undecided, Additive, ManifestKept, Added, Reached, Ready, Writable, Putting, Find;
    NothingChanged(tx.fs.disk, tx.intent, manifest);
    ok := tx.Verify(MANIFEST, false);
    if !ok {
      return;
    }
    var previous := m.Get(entry.name);
    PutIsUndone(m.records, entry);
    m.Put(entry);
    ok := m.Save(tx.fs, manifest);
    SaveTaken(old(tx.fs.disk), tx.fs.disk, tx.intent, manifest, own, m.records, ok);
    if !ok {
      if previous.Some? {
        m.Put(previous.value);
      } else {
        var removed := m.Remove(entry.name);
      }
    }
  }

  /** The manifest on the disk can be saved over, and the one in memory is valid. */
  predicate Ready(d: Disk, manifest: Path, records: seq<Record>)
    requires manifest != []
  {
    Writable(d.tree, manifest) && Valid(records)
  }

  lemma SavedIsReady(a: Disk, b: Disk, manifest: Path, records: seq<Record>)
    requires manifest != [] && Valid(records) && Coherent(b.tree) && b.tree == Saved(a.tree, manifest, Current(records))
    requires PlainOrGone(a.tree, Bak(manifest))
    ensures Ready(b, manifest, records) && Slot(b, manifest) == Holds(Regular(Current(records), DEFAULT_MODE))
  {
    BackupIsBeside(manifest);
  }

  /** Whatever a save did, the transaction stays open; a save that succeeded has added the manifest. */
  lemma SaveTaken(a: Disk, b: Disk, intent: Intent, manifest: Path, own: Mutation, records: seq<Record>, ok: bool)
    requires Revocable(a, intent) && own in intent.mutations && own.path == manifest && manifest != []
    requires OnlyAtBoth(a, b, manifest, Bak(manifest)) && Matches(a.tree, manifest, own.before)
    requires Fits(Holds(Regular(Current(records), DEFAULT_MODE)), own.after)
    requires forall m :: m in intent.mutations ==> Apart(m.path, Bak(manifest))
    requires match Encoded(CURRENT_SCHEMA, records)
             case None => !ok && b == a
             case Some(data) =>
               && Fates(b, manifest) <= Fates(a, manifest) + {Holds(Regular(data, DEFAULT_MODE))}
               && (ok ==> b.tree == Saved(a.tree, manifest, data))
    requires ok ==> PlainOrGone(a.tree, manifest) && PlainOrGone(a.tree, Bak(manifest))
                    && Durable(b, manifest) && b.limbo == Forget(a.limbo, {Dir(manifest)})
    ensures Revocable(b, intent) && ManifestKept(a, b, intent, manifest)
    ensures ok ==> Reached(b, own, true) && Added(a, b, {manifest, Bak(manifest)}) && Ready(b, manifest, records)
    ensures forall o :: o in intent.mutations && o != own ==> Undisturbed(a, b, o.path)
  {
    hide Undecided, Saved, PlainOrGone, ManifestKept, Writable, Added, ContainedAt;
    var node := Regular(Current(records), DEFAULT_MODE);
    SaveStep(a, b, intent, manifest, own, node);
    SaveKeepsManifest(a, b, intent, manifest, own, node);
    if ok {
      AddedBySave(a, b, manifest, Current(records));
      SavedIsReady(a, b, manifest, records);
    }
  }
}
