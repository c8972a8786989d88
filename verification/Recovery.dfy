/** The transaction engine: apply, verify, commit, abort, finalize and recover. */
module Recovery {
  import opened Options
  import opened Files
  import opened Disks
  import opened Views
  import opened Journal
  import opened DurableFs
  import opened EmptyParents
  import opened Converge
  import opened JournalDir

  // ---- one participant ----

  /** The state a participant is expected to be in when it is not at its target. */
  function Other(m: Mutation, target: State): State
  {
    if Alike(target, m.before) then m.after else m.before
  }

  /** What a fault-free turn makes of the tree, or nothing when it fails. A participant that is
      already right needs its directory, whose sync makes it final; one that is to appear needs a way
      down to it. */
  function Turn(places: Places, box: Box, tree: Tree, m: Mutation, target: State): Option<Tree>
  {
    if Matches(tree, m.path, target) then
      if Guard(m) || IsDir(tree, Dir(m.path)) then Some(tree) else None
    else if !Matches(tree, m.path, Other(m, target)) || !Backed(box, target) then None
    else if !target.Absent? && !Passable(tree, Dir(m.path)) then None
    else
      var moved := Moved(places, box, tree, m.path, target);
      if Matches(moved, m.path, target) then Some(moved) else None
  }

  /** The directories such a turn syncs. */
  function TurnSyncs(m: Mutation, a: Tree, b: Tree): set<Path>
  {
    if Guard(m) then {} else SyncedDirs(a, b, m.path)
  }

  /** Make a participant final that already matches. */
  method Reassert(fs: FileSystem, path: Path, target: State) returns (ok: bool)
    requires fs.Valid() && Matches(fs.disk.tree, path, target)
    modifies fs
    ensures fs.alive ==> old(fs.alive)
    ensures OnlyAt(old(fs.disk), fs.disk, path) && Undisturbed(old(fs.disk), fs.disk, path)
    ensures KeepsTree(old(fs.disk), fs.disk) && fs.disk.tree == old(fs.disk.tree)
    ensures ok ==> Durable(fs.disk, path) && IsDir(fs.disk.tree, Dir(path))
                   && fs.disk.limbo == Forget(old(fs.disk.limbo), {Dir(path)})
    ensures old(fs.Steady()) ==> fs.alive && ok == IsDir(fs.disk.tree, Dir(path))
  {
    ok := PersistMatchedState(fs, path, target);
    if !ok {
      return;
    }
    var matches;
    ok, matches := MatchesState(fs, path, target);
    ok := ok && matches;
  }

  /** Replace what a path holds by a verified payload of the target state, and look at the result. */
  method MoveTo(fs: FileSystem, places: Places, path: Path, current: State, target: State) returns (ok: bool)
    requires fs.Valid() && Matches(fs.disk.tree, path, current) && !Matches(fs.disk.tree, path, target)
    modifies fs
    ensures fs.alive ==> old(fs.alive)
    ensures OnlyAt(old(fs.disk), fs.disk, path) && (!target.Absent? ==> KeepsTree(old(fs.disk), fs.disk))
    ensures KeptStay(places, old(fs.disk.tree), fs.disk.tree)
    ensures forall f :: f in Fates(fs.disk, path) ==> f in Fates(old(fs.disk), path) || Fits(f, target)
    ensures ok ==> Backed(old(fs.disk.box), target) && (target.Absent? || Passable(old(fs.disk.tree), Dir(path)))
                   && fs.disk.tree == Moved(places, old(fs.disk.box), old(fs.disk.tree), path, target)
                   && fs.disk.limbo == Forget(old(fs.disk.limbo), SyncedDirs(old(fs.disk.tree), fs.disk.tree, path))
                   && Matches(fs.disk.tree, path, target) && Durable(fs.disk, path)
    ensures old(fs.Steady()) ==>
              fs.alive
              && (Backed(old(fs.disk.box), target) && (target.Absent? || Passable(old(fs.disk.tree), Dir(path)))
                  && Matches(Moved(places, old(fs.disk.box), old(fs.disk.tree), path, target), path, target) ==>
                    ok)
  {
    Untouched(fs.disk, path);
    ok := VerifyStatePayload(fs, target);
    if !ok {
      return;
    }
    ok := ApplyState(fs, places, path, current, target);
    if !ok {
      return;
    }
    var matches;
    ok, matches := MatchesState(fs, path, target);
    ok := ok && matches;
  }

  /** Advance one participant to `target`, only ever from one of its captured states. */
  method ConvergeMutation(fs: FileSystem, places: Places, m: Mutation, target: State) returns (ok: bool)
    requires fs.Valid() && (target == m.before || target == m.after)
    modifies fs
    ensures fs.alive ==> old(fs.alive)
    ensures OnlyAt(old(fs.disk), fs.disk, m.path) && (!target.Absent? ==> KeepsTree(old(fs.disk), fs.disk))
    ensures KeptStay(places, old(fs.disk.tree), fs.disk.tree)
    // Drift and read-only guards are never touched.
    ensures !Matches(old(fs.disk.tree), m.path, m.before) && !Matches(old(fs.disk.tree), m.path, m.after) ==>
              !ok && fs.disk == old(fs.disk)
    ensures Guard(m) ==> fs.disk == old(fs.disk)
    // Whatever else happens, a crash leaves what it could leave before, or the target.
    ensures forall f :: f in Fates(fs.disk, m.path) ==> f in Fates(old(fs.disk), m.path) || Fits(f, target)
    // Success is the whole turn: the tree, the synced directories, and a final entry.
    ensures ok ==> Turn(places, old(fs.disk.box), old(fs.disk.tree), m, target) == Some(fs.disk.tree)
                   && fs.disk.limbo == Forget(old(fs.disk.limbo), TurnSyncs(m, old(fs.disk.tree), fs.disk.tree))
                   && Matches(fs.disk.tree, m.path, target) && (Guard(m) || Durable(fs.disk, m.path))
    ensures old(fs.Steady()) ==>
              fs.alive && ok == Turn(places, old(fs.disk.box), old(fs.disk.tree), m, target).Some?
  {
    hide OnlyAt, KeepsTree, Passable, Read, Coherent, Moved;
    Untouched(fs.disk, m.path);
    AlikeMatches(fs.disk.tree, m.path, m.before, m.before);
    if Guard(m) {
      AlikeMatches(fs.disk.tree, m.path, m.before, m.after);
      assert Forget(fs.disk.limbo, {}) == fs.disk.limbo;
    }
    var matches;
    ok, matches := MatchesState(fs, m.path, target);
    if !ok {
      return;
    }
    if matches {
      if !Guard(m) {
        assert SyncedDirs(fs.disk.tree, fs.disk.tree, m.path) == {Dir(m.path)};
        ok := Reassert(fs, m.path, target);
      }
      return;
    }
    var other := if Alike(target, m.before) then m.after else m.before;
    ok, matches := MatchesState(fs, m.path, other);
    if !ok || !matches {
      return false;
    }
    ok := MoveTo(fs, places, m.path, other, target);
  }

  // ---- progress of the convergence loop ----

  /** At its target, and final in its directory unless it is a read-only guard. */
  ghost predicate Reached(d: Disk, m: Mutation, after: bool)
  {
    Fits(Slot(d, m.path), Target(m, after)) && (Guard(m) || Durable(d, m.path))
  }

  /** The paths of the participants that are not only guarded. */
  function Movers(intent: Intent): set<Path>
  {
    set m | m in intent.mutations && !Guard(m) :: m.path
  }

  /** No file but the participants that move is disturbed, and nothing else but directories above them. */
  ghost predicate Elsewhere(a: Disk, b: Disk, intent: Intent)
  {
    && Coherent(b.tree) && FilesKept(a, b, Movers(intent))
    && forall p :: (forall m :: m in intent.mutations ==> !(p <= m.path)) ==> Undisturbed(a, b, p)
  }

  lemma ElsewhereNowhere(a: Disk, intent: Intent)
    requires Coherent(a.tree)
    ensures Elsewhere(a, a, intent)
  {}

  lemma ElsewhereStep(a: Disk, b: Disk, c: Disk, intent: Intent, m: Mutation)
    requires Elsewhere(a, b, intent) && m in intent.mutations && OnlyAt(b, c, m.path) && (Guard(m) ==> c == b)
    ensures Elsewhere(a, c, intent)
  {
    forall p | IsFile(b.tree, p) && p !in Movers(intent) ensures FileKept(b, c, p) {
      assert !Guard(m) ==> p != m.path;
    }
    FilesKeptTransitive(a, b, c, Movers(intent));
    forall p | forall m :: m in intent.mutations ==> !(p <= m.path) ensures Undisturbed(a, c, p) {
      assert !(p <= m.path);
      assert Undisturbed(a, b, p) && Undisturbed(b, c, p);
    }
  }

  /** Participants before `i` have reached their side, the others are as they were. */
  ghost predicate Progress(a: Disk, b: Disk, intent: Intent, after: bool, i: nat)
  {
    && i <= |intent.mutations| && SameJournal(a, b)
    && (forall j :: 0 <= j < i ==> Reached(b, intent.mutations[j], after))
    && (forall j :: i <= j < |intent.mutations| ==> Undisturbed(a, b, intent.mutations[j].path))
  }

  lemma UndisturbedReached(b: Disk, c: Disk, m: Mutation, after: bool)
    requires Reached(b, m, after) && Undisturbed(b, c, m.path)
    ensures Reached(c, m, after)
  {}

  lemma ProgressStep(a: Disk, b: Disk, c: Disk, intent: Intent, after: bool, i: nat)
    requires Flat(intent) && Progress(a, b, intent, after, i) && i < |intent.mutations|
    requires OnlyAt(b, c, intent.mutations[i].path) && Reached(c, intent.mutations[i], after)
    ensures Progress(a, c, intent, after, i + 1)
  {
    var path := intent.mutations[i].path;
    forall j | 0 <= j < |intent.mutations| && j != i
      ensures Undisturbed(b, c, intent.mutations[j].path)
    {
      assert !(intent.mutations[j].path <= path);
    }
    forall j | 0 <= j < i ensures Reached(c, intent.mutations[j], after) {
      UndisturbedReached(b, c, intent.mutations[j], after);
    }
  }

  // ---- every fate stays a captured state ----

  ghost predicate ContainedAt(d: Disk, m: Mutation)
  {
    forall f :: f in Outcomes(d, m.path) ==> Fits(f, m.before) || Fits(f, m.after)
  }

  lemma FirmKept(a: Disk, b: Disk, dir: Path)
    requires KeepsTree(a, b) && Firm(a, dir)
    ensures Firm(b, dir)
  {
    forall p | p <= dir ensures Fates(b, p) == {Holds(Directory)} {
      assert Fates(a, p) == {Holds(Directory)} && Slot(a, p) in Fates(a, p);
      assert IsDir(a.tree, p);
      assert Slot(b, p) in Fates(b, p);
    }
  }

  /** The participant that moves. */
  lemma ContainedMove(b: Disk, c: Disk, m: Mutation, target: State)
    requires ContainedAt(b, m) && (target == m.before || target == m.after)
    requires !target.Absent? ==> KeepsTree(b, c)
    requires forall f :: f in Fates(c, m.path) ==> f in Fates(b, m.path) || Fits(f, target)
    ensures ContainedAt(c, m)
  {
    if !target.Absent? && Firm(b, Dir(m.path)) {
      FirmKept(b, c, Dir(m.path));
    }
  }

  /** Any other participant: a file keeps its directories, and an absent one may be absent. */
  lemma OutcomesKept(b: Disk, c: Disk, path: Path)
    requires path != [] && Undisturbed(b, c, path) && Slot(b, path) != Holds(Directory)
    requires IsFile(b.tree, path) ==> FileKept(b, c, path)
    ensures Outcomes(c, path) <= Outcomes(b, path)
  {
    assert Slot(b, path) in Fates(b, path);
  }

  lemma OutcomesKeptAt(b: Disk, c: Disk, m: Mutation, path: Path, target: State)
    requires OnlyAt(b, c, path) && !(m.path <= path) && m.path != [] && Fits(Slot(b, m.path), target)
    ensures Outcomes(c, m.path) <= Outcomes(b, m.path)
  {
    assert Undisturbed(b, c, m.path);
    if IsFile(b.tree, m.path) {
      assert FileKept(b, c, m.path);
    }
    OutcomesKept(b, c, m.path);
  }

  /** One step at participant `i` keeps every fate a captured state. */
  lemma ContainedStep(b: Disk, c: Disk, intent: Intent, i: nat, target: State)
    requires Flat(intent) && Contained(b, intent) && i < |intent.mutations|
    requires target == intent.mutations[i].before || target == intent.mutations[i].after
    requires OnlyAt(b, c, intent.mutations[i].path) && (!target.Absent? ==> KeepsTree(b, c))
    requires forall f :: f in Fates(c, intent.mutations[i].path) ==>
               f in Fates(b, intent.mutations[i].path) || Fits(f, target)
    ensures Contained(c, intent)
  {
    forall m | m in intent.mutations && !Guard(m) ensures ContainedAt(c, m) {
      assert ContainedAt(b, m);
      var j :| 0 <= j < |intent.mutations| && intent.mutations[j] == m;
      if j == i {
        ContainedMove(b, c, m, target);
      } else {
        assert !(m.path <= intent.mutations[i].path);
        assert Slot(b, m.path) in Fates(b, m.path);
        OutcomesKeptAt(b, c, m, intent.mutations[i].path,
                       if Fits(Slot(b, m.path), m.before) then m.before else m.after);
      }
    }
  }

  /** And a side that all participants are on for good stays that way while they are moved there. */
  lemma BoundStep(b: Disk, c: Disk, intent: Intent, i: nat, after: bool)
    requires Flat(intent) && Bound(b, intent, after) && i < |intent.mutations|
    requires OnlyAt(b, c, intent.mutations[i].path)
    requires !Target(intent.mutations[i], after).Absent? ==> KeepsTree(b, c)
    requires forall f :: f in Fates(c, intent.mutations[i].path) ==>
               f in Fates(b, intent.mutations[i].path) || Fits(f, Target(intent.mutations[i], after))
    ensures Bound(c, intent, after)
  {
    forall m, f | m in intent.mutations && !Guard(m) && f in Outcomes(c, m.path) ensures Fits(f, Target(m, after)) {
      assert forall g :: g in Outcomes(b, m.path) ==> Fits(g, Target(m, after));
      assert Slot(b, m.path) in Fates(b, m.path);
      var j :| 0 <= j < |intent.mutations| && intent.mutations[j] == m;
      if j == i {
        if !Target(m, after).Absent? && Firm(b, Dir(m.path)) {
          FirmKept(b, c, Dir(m.path));
        }
      } else {
        assert !(m.path <= intent.mutations[i].path);
        OutcomesKeptAt(b, c, m, intent.mutations[i].path, Target(m, after));
      }
    }
  }

  // ---- when a reached side is there for good ----

  /** The directories above every participant that is to be there are there for good. */
  ghost predicate Rooted(d: Disk, intent: Intent, after: bool)
  {
    forall m :: m in intent.mutations && !Guard(m) && !Target(m, after).Absent? ==> Firm(d, Dir(m.path))
  }

  /** Participants that have reached a side are there for good exactly when their directories are. */
  lemma ReachedIsBound(d: Disk, intent: Intent, after: bool)
    requires forall m :: m in intent.mutations ==> Reached(d, m, after)
    ensures Bound(d, intent, after) <==> Rooted(d, intent, after)
  {
    forall m | m in intent.mutations && !Guard(m)
      ensures (forall f :: f in Outcomes(d, m.path) ==> Fits(f, Target(m, after)))
              <==> Target(m, after).Absent? || Firm(d, Dir(m.path))
    {
      assert Reached(d, m, after) && Slot(d, m.path) in Fates(d, m.path);
      assert !Firm(d, Dir(m.path)) ==> Gone in Outcomes(d, m.path);
      assert Fates(d, m.path) <= Outcomes(d, m.path);
    }
  }

  /** Every directory on the way to a participant that is to be there is there for good before, or is
      an entry of a directory in `dirs`. */
  ghost predicate Supports(d: Disk, intent: Intent, after: bool, dirs: set<Path>)
  {
    forall m, p :: m in intent.mutations && !Guard(m) && !Target(m, after).Absent? && SupportOf(d, m.path, p) ==>
      Durable(d, p) || Dir(p) in dirs
  }

  predicate SupportOf(d: Disk, path: Path, dir: Path)
  {
    dir != [] && dir <= Dir(path) && IsDir(d.tree, dir)
  }

  /** When exactly the entries in `dirs` have been synced, what was missing has been made there, and the
      rest of the tree is as it was: the reached side is there for good if and only if it was
      supported. */
  lemma RootedExactly(a: Disk, b: Disk, intent: Intent, after: bool, dirs: set<Path>)
    requires Flat(intent) && Coherent(b.tree) && b.limbo == Forget(a.limbo, dirs)
    requires Touched(a.tree, b.tree) <= dirs
    requires forall m :: m in intent.mutations ==> Fits(Slot(b, m.path), Target(m, after))
    requires forall p :: IsFile(a.tree, p) && p !in Movers(intent) ==> p in b.tree && b.tree[p] == a.tree[p]
    ensures Rooted(b, intent, after) <==> Supports(a, intent, after, dirs)
  {
    forall m | m in intent.mutations && !Guard(m) && !Target(m, after).Absent?
      ensures Firm(b, Dir(m.path)) <==> forall p :: SupportOf(a, m.path, p) ==> Durable(a, p) || Dir(p) in dirs
    {
      assert m.path in b.tree;
      FirmExactly(a, b, intent, m.path, dirs);
    }
  }

  lemma FirmExactly(a: Disk, b: Disk, intent: Intent, path: Path, dirs: set<Path>)
    requires Flat(intent) && Coherent(b.tree) && b.limbo == Forget(a.limbo, dirs)
    requires path in b.tree && path in Movers(intent) && Touched(a.tree, b.tree) <= dirs
    requires forall p :: IsFile(a.tree, p) && p !in Movers(intent) ==> p in b.tree && b.tree[p] == a.tree[p]
    ensures Firm(b, Dir(path)) <==> forall p :: SupportOf(a, path, p) ==> Durable(a, p) || Dir(p) in dirs
  {
    forall p | p <= Dir(path)
      ensures Fates(b, p) == {Holds(Directory)} <==> (SupportOf(a, path, p) ==> Durable(a, p) || Dir(p) in dirs)
    {
      if p != [] {
        assert p < path;
        AncestorsAreDirectories(b.tree, path, p);
        NoParticipantAbove(intent, path, p);
        if p !in a.tree {
          assert Dir(p) in Touched(a.tree, b.tree);
        }
      }
    }
  }

  lemma NoParticipantAbove(intent: Intent, path: Path, above: Path)
    requires Flat(intent) && path in Movers(intent) && above < path
    ensures above !in Movers(intent)
  {}

  // ---- the whole fault-free run, before it starts ----

  /** Where a run has come: the tree, and the directories synced so far. */
  datatype Course = Course(tree: Tree, synced: set<Path>)

  /** The first `n` turns of a fault-free run, or nothing when one of them fails. */
  function Replay(places: Places, box: Box, tree: Tree, intent: Intent, after: bool, n: nat): Option<Course>
    requires n <= |intent.mutations|
  {
    if n == 0 then Some(Course(tree, {}))
    else
      match Replay(places, box, tree, intent, after, n - 1)
      case None => None
      case Some(c) =>
        var m := intent.mutations[n - 1];
        match Turn(places, box, c.tree, m, Target(m, after))
        case None => None
        case Some(next) => Some(Course(next, c.synced + TurnSyncs(m, c.tree, next)))
  }

  /** The whole run. */
  function Run(d: Disk, places: Places, intent: Intent, after: bool): Option<Course>
  {
    Replay(places, d.box, d.tree, intent, after, |intent.mutations|)
  }

  lemma {:induction false} FailedStaysFailed(places: Places, box: Box, tree: Tree, intent: Intent, after: bool, n: nat, k: nat)
    requires n <= k <= |intent.mutations| && Replay(places, box, tree, intent, after, n).None?
    ensures Replay(places, box, tree, intent, after, k).None?
    decreases k
  {
    if n < k {
      FailedStaysFailed(places, box, tree, intent, after, n, k - 1);
    }
  }

  /** What a run adds or removes lies in a directory that it syncs. */
  lemma {:induction false} ReplayTouches(places: Places, box: Box, tree: Tree, intent: Intent, after: bool, n: nat)
    requires n <= |intent.mutations| && Replay(places, box, tree, intent, after, n).Some?
    ensures var c := Replay(places, box, tree, intent, after, n).value; Touched(tree, c.tree) <= c.synced
  {
    if n > 0 {
      ReplayTouches(places, box, tree, intent, after, n - 1);
      var c, next := Replay(places, box, tree, intent, after, n - 1).value, Replay(places, box, tree, intent, after, n).value;
      TouchedBetween(tree, c.tree, next.tree);
    }
  }

  /** Above what has gone, no directory is left empty that may be pruned. */
  ghost predicate EmptiedIsGone(places: Places, a: Tree, b: Tree)
  {
    forall q :: q in a && q !in b ==> NoneEmpty(places, b, q)
  }

  lemma {:induction false} RunLeavesNoneEmpty(places: Places, box: Box, tree: Tree, intent: Intent, after: bool, n: nat)
    requires Coherent(tree) && n <= |intent.mutations| && Replay(places, box, tree, intent, after, n).Some?
    ensures var c := Replay(places, box, tree, intent, after, n).value;
            Coherent(c.tree) && EmptiedIsGone(places, tree, c.tree)
  {
    hide NoneEmpty, Turn, Coherent;
    if n > 0 {
      RunLeavesNoneEmpty(places, box, tree, intent, after, n - 1);
      var m, c := intent.mutations[n - 1], Replay(places, box, tree, intent, after, n - 1).value;
      TurnLeavesNoneEmpty(places, box, tree, c.tree, m, Target(m, after));
    }
  }

  lemma TurnLeavesNoneEmpty(places: Places, box: Box, start: Tree, a: Tree, m: Mutation, target: State)
    requires Coherent(a) && EmptiedIsGone(places, start, a) && Turn(places, box, a, m, target).Some?
    ensures var b := Turn(places, box, a, m, target).value; Coherent(b) && EmptiedIsGone(places, start, b)
  {
    hide Kept, NoneEmpty, Passable, Coherent, EmptiedIsGone, Prune, WithDirs;
    if !Matches(a, m.path, target) {
      if target.Absent? {
        RemovalLeavesNoneEmpty(places, start, a, m.path);
      } else {
        AdditionLeavesNoneEmpty(places, start, a, m.path, GoalNode(box, target));
      }
    }
  }

  lemma RemovalLeavesNoneEmpty(places: Places, start: Tree, a: Tree, path: Path)
    requires Coherent(a) && EmptiedIsGone(places, start, a) && IsFile(a, path)
    ensures var b := Prune(places, a - {path}, Dir(path)); Coherent(b) && EmptiedIsGone(places, start, b)
  {
    hide Kept;
    var rest := a - {path};
    FilesAreChildless(a, path);
    RemovalKeepsCoherent(a, path);
    assert IsDir(rest, Dir(path));
    PruneLeavesNoneEmpty(places, rest, path);
    PruneOnlyRemoves(places, rest, Dir(path));
    GoneFrom(places, start, a, Prune(places, rest, Dir(path)), path);
  }

  lemma GoneFrom(places: Places, start: Tree, a: Tree, b: Tree, path: Path)
    requires EmptiedIsGone(places, start, a) && NoneEmpty(places, b, path) && b.Keys <= a.Keys
    requires (forall p :: p in b ==> b[p] == a[p]) && forall p :: p in a && p !in b ==> p <= path
    ensures EmptiedIsGone(places, start, b)
  {
    hide Kept;
    forall q, p | q in start && q !in b && p < q && IsDir(b, p) && !Kept(places, p) ensures HasChild(b, p) {
      if q !in a {
        assert NoneEmpty(places, a, q) && IsDir(a, p);
        var child :| child in a && child != [] && Dir(child) == p;
        if child !in b {
          assert p < child <= path;
        }
      }
    }
  }

  lemma AdditionLeavesNoneEmpty(places: Places, start: Tree, a: Tree, path: Path, node: Node)
    requires Coherent(a) && EmptiedIsGone(places, start, a) && path != [] && !node.Directory? && !IsDir(a, path)
    requires Passable(a, Dir(path))
    ensures var b := WithDirs(a, Dir(path))[path := node]; Coherent(b) && EmptiedIsGone(places, start, b)
  {
    hide Kept;
    var made := WithDirs(a, Dir(path));
    var b := made[path := node];
    WithDirsAdds(a, Dir(path));
    WithDirsIsCoherent(a, Dir(path));
    AdditionKeepsCoherent(made, path, node);
    forall q, p | q in start && q !in b && p < q && IsDir(b, p) && !Kept(places, p) ensures HasChild(b, p) {
      if IsDir(a, p) {
        assert q !in a && NoneEmpty(places, a, q);
        var child :| child in a && child != [] && Dir(child) == p;
        assert child in b;
      } else {
        assert p <= Dir(path);
        HasNext(b, p, path);
      }
    }
  }

  lemma TouchedBetween(a: Tree, b: Tree, c: Tree)
    ensures Touched(a, c) <= Touched(a, b) + Touched(b, c)
  {
    forall p | p in (a.Keys - c.Keys) + (c.Keys - a.Keys) ensures Dir(p) in Touched(a, b) + Touched(b, c) {
      assert p in (a.Keys - b.Keys) + (b.Keys - a.Keys) || p in (b.Keys - c.Keys) + (c.Keys - b.Keys);
    }
  }

  /** The run has come this far on the disk. */
  ghost predicate Followed(a: Disk, b: Disk, places: Places, intent: Intent, after: bool, n: nat)
  {
    && n <= |intent.mutations|
    && Replay(places, a.box, a.tree, intent, after, n).Some?
    && var c := Replay(places, a.box, a.tree, intent, after, n).value;
       b.tree == c.tree && b.limbo == Forget(a.limbo, c.synced)
  }

  lemma FollowedStep(a: Disk, b: Disk, c: Disk, places: Places, intent: Intent, after: bool, n: nat)
    requires Followed(a, b, places, intent, after, n) && n < |intent.mutations| && b.box == a.box
    requires var m := intent.mutations[n];
             Turn(places, b.box, b.tree, m, Target(m, after)) == Some(c.tree)
             && c.limbo == Forget(b.limbo, TurnSyncs(m, b.tree, c.tree))
    ensures Followed(a, c, places, intent, after, n + 1)
  {
    var m := intent.mutations[n];
    ForgetTwice(a.limbo, Replay(places, a.box, a.tree, intent, after, n).value.synced, TurnSyncs(m, b.tree, c.tree));
  }

  /** What every outcome of the loop keeps. */
  ghost predicate Spared(a: Disk, b: Disk, intent: Intent, after: bool)
  {
    && SameJournal(a, b) && Elsewhere(a, b, intent)
    && (Flat(intent) && Contained(a, intent) ==> Contained(b, intent))
    && (Flat(intent) && Bound(a, intent, after) ==> Bound(b, intent, after))
  }

  /** What `n` successful rounds have achieved. */
  ghost predicate Converged(a: Disk, b: Disk, places: Places, intent: Intent, after: bool, n: nat)
  {
    && Spared(a, b, intent, after) && KeptStay(places, a.tree, b.tree)
    && (Flat(intent) ==> Progress(a, b, intent, after, n))
    && Followed(a, b, places, intent, after, n)
  }

  /** One round of the loop. */
  method ConvergeNext(fs: FileSystem, places: Places, intent: Intent, after: bool, n: nat, ghost start: Disk)
    returns (ok: bool)
    requires fs.Valid() && n < |intent.mutations| && Converged(start, fs.disk, places, intent, after, n)
    modifies fs
    ensures fs.alive ==> old(fs.alive)
    ensures Spared(start, fs.disk, intent, after) && KeptStay(places, start.tree, fs.disk.tree)
    ensures ok ==> Converged(start, fs.disk, places, intent, after, n + 1)
    ensures old(fs.Steady()) ==>
              fs.alive && ok == Replay(places, start.box, start.tree, intent, after, n + 1).Some?
  {
    hide Flat, Contained, Bound, Elsewhere, KeepsTree, FilesKept;
    var m := intent.mutations[n];
    ok := ConvergeMutation(fs, places, m, Target(m, after));
    ElsewhereStep(start, old(fs.disk), fs.disk, intent, m);
    if Flat(intent) && Contained(old(fs.disk), intent) {
      ContainedStep(old(fs.disk), fs.disk, intent, n, Target(m, after));
    }
    if Flat(intent) && Bound(old(fs.disk), intent, after) {
      BoundStep(old(fs.disk), fs.disk, intent, n, after);
    }
    if ok {
      FollowedStep(start, old(fs.disk), fs.disk, places, intent, after, n);
      if Flat(intent) {
        ProgressStep(start, old(fs.disk), fs.disk, intent, after, n);
      }
    }
  }

  lemma ConvergedAtFirst(d: Disk, places: Places, intent: Intent, after: bool)
    requires Coherent(d.tree)
    ensures Converged(d, d, places, intent, after, 0)
  {
    ElsewhereNowhere(d, intent);
    assert Forget(d.limbo, {}) == d.limbo;
  }

  /** Move every participant to one side, in the order of the intent. */
  method ConvergeAll(fs: FileSystem, places: Places, intent: Intent, after: bool) returns (ok: bool)
    requires fs.Valid()
    modifies fs
    ensures fs.alive ==> old(fs.alive)
    ensures Spared(old(fs.disk), fs.disk, intent, after) && KeptStay(places, old(fs.disk.tree), fs.disk.tree)
    ensures ok && Flat(intent) ==> forall m :: m in intent.mutations ==> Reached(fs.disk, m, after)
    // Success is the whole run, and without faults exactly a run that can be completed succeeds.
    ensures ok ==> Followed(old(fs.disk), fs.disk, places, intent, after, |intent.mutations|)
    ensures old(fs.Steady()) ==> fs.alive && ok == Run(old(fs.disk), places, intent, after).Some?
  {
    hide Flat, Contained, Bound, FilesKept, Reached, Replay, Coherent;
    ConvergedAtFirst(fs.disk, places, intent, after);
    for i := 0 to |intent.mutations|
      invariant fs.alive ==> old(fs.alive)
      invariant fs.Valid() && Converged(old(fs.disk), fs.disk, places, intent, after, i)
      invariant old(fs.Steady()) ==> fs.Steady()
    {
      ok := ConvergeNext(fs, places, intent, after, i, old(fs.disk));
      if !ok {
        if old(fs.Steady()) {
          FailedStaysFailed(places, old(fs.disk.box), old(fs.disk.tree), intent, after, i + 1, |intent.mutations|);
        }
        return;
      }
    }
    ok := true;
  }

  // ---- recovery of a loaded journal ----

  /** In one of its captured states, with everything at hand to reach either. */
  predicate Known(d: Disk, m: Mutation)
  {
    && (Matches(d.tree, m.path, m.before) || Matches(d.tree, m.path, m.after))
    && HasPayload(d, m.before) && HasPayload(d, m.after)
  }

  predicate AllKnown(d: Disk, intent: Intent)
  {
    forall m :: m in intent.mutations ==> Known(d, m)
  }

  /** Classify every participant before touching any of them. */
  method Classify(fs: FileSystem, intent: Intent) returns (ok: bool)
    modifies fs`alive
    ensures fs.alive ==> old(fs.alive)
    ensures ok ==> AllKnown(fs.disk, intent)
    ensures old(fs.Steady()) ==> fs.alive && ok == AllKnown(fs.disk, intent)
  {
    for i := 0 to |intent.mutations|
      invariant fs.alive ==> old(fs.alive)
      invariant forall j :: 0 <= j < i ==> Known(fs.disk, intent.mutations[j])
      invariant old(fs.Steady()) ==> fs.Steady()
    {
      var m := intent.mutations[i];
      assert AllKnown(fs.disk, intent) ==> Known(fs.disk, m);
      var readable, before := MatchesState(fs, m.path, m.before);
      if !readable {
        return false;
      }
      var after;
      readable, after := MatchesState(fs, m.path, m.after);
      if !readable || (!before && !after) {
        return false;
      }
      ok := VerifyStatePayload(fs, m.before);
      if !ok {
        return;
      }
      ok := VerifyStatePayload(fs, m.after);
      if !ok {
        return;
      }
    }
    ok := true;
  }

  predicate AllMatch(d: Disk, intent: Intent, after: bool)
  {
    forall m :: m in intent.mutations ==> Matches(d.tree, m.path, Target(m, after)) && HasPayload(d, Target(m, after))
  }

  /** Check that every participant matches one side. */
  method VerifyIntentTarget(fs: FileSystem, intent: Intent, after: bool) returns (ok: bool)
    modifies fs`alive
    ensures fs.alive ==> old(fs.alive)
    ensures ok ==> AllMatch(fs.disk, intent, after)
    ensures old(fs.Steady()) ==> fs.alive && ok == AllMatch(fs.disk, intent, after)
  {
    for i := 0 to |intent.mutations|
      invariant fs.alive ==> old(fs.alive)
      invariant forall j :: 0 <= j < i ==>
                  Matches(fs.disk.tree, intent.mutations[j].path, Target(intent.mutations[j], after))
                  && HasPayload(fs.disk, Target(intent.mutations[j], after))
      invariant old(fs.Steady()) ==> fs.Steady()
    {
      var m := intent.mutations[i];
      ok := VerifyStatePayload(fs, Target(m, after));
      if !ok {
        return;
      }
      var matches;
      ok, matches := MatchesState(fs, m.path, Target(m, after));
      if !ok || !matches {
        return false;
      }
    }
    ok := true;
  }

  /** Move the journal out of the pending namespace, then remove it. */
  method FinalizeDirectory(fs: FileSystem, ghost intent: Intent, ghost after: bool) returns (ok: bool)
    requires fs.disk.stage == Pending
    modifies fs
    ensures fs.alive ==> old(fs.alive)
    ensures SameFiles(old(fs.disk), fs.disk)
    ensures Safe(old(fs.disk), intent) && Stages(old(fs.disk)) == {Pending}
            && Bound(old(fs.disk), intent, after) ==>
              Safe(fs.disk, intent) && Bound(fs.disk, intent, after)
              && (Steered(old(fs.disk), intent, after) ==> Steered(fs.disk, intent, after))
    ensures fs.disk == old(fs.disk) || Stages(fs.disk) != {Pending}
    ensures Pending in Stages(fs.disk) ==> fs.disk.marker == old(fs.disk.marker)
    ensures ok ==> fs.disk.stage == NoJournal && fs.disk.stageLimbo == {} && fs.disk.root == old(fs.disk.root)
    ensures old(fs.Steady()) ==> ok && fs.alive
  {
    hide Safe, Bound, Steered;
    ghost var safe := Safe(fs.disk, intent) && Stages(fs.disk) == {Pending} && Bound(fs.disk, intent, after);
    ok := RenameJournal(fs, Completed);
    assert fs.disk != old(fs.disk) ==> Completed in Stages(fs.disk);
    if safe {
      SettledMayLeavePending(old(fs.disk), fs.disk, intent, after);
    }
    if !ok {
      return;
    }
    ghost var retired := fs.disk;
    ok := RemoveJournal(fs, Completed);
    assert fs.disk.stage != Pending;
    if safe {
      SettledMayLeavePending(retired, fs.disk, intent, after);
    }
  }

  /** A fault-free recovery to this side succeeds exactly when every participant is known, every turn of
      the run can be made, and the result is the side. */
  predicate Completes(d: Disk, places: Places, intent: Intent, after: bool)
  {
    && AllKnown(d, intent)
    && match Run(d, places, intent, after)
       case None => false
       case Some(c) => forall m :: m in intent.mutations ==> Matches(c.tree, m.path, Target(m, after))
  }

  /** Every directory on the way to a participant that is to be there is there for good, or is synced by
      the run. */
  ghost predicate Supported(d: Disk, places: Places, intent: Intent, after: bool)
  {
    Run(d, places, intent, after).Some? ==> Supports(d, intent, after, Run(d, places, intent, after).value.synced)
  }

  /** While the pending journal is final, containment is all that safety asks for. */
  lemma ContainedKeepsSafe(a: Disk, b: Disk, intent: Intent)
    requires Safe(a, intent) && Stages(a) == {Pending} && SameJournal(a, b) && Contained(b, intent) && Coherent(b.tree)
    ensures Safe(b, intent) && Stages(b) == {Pending}
    ensures forall after :: Steered(a, intent, after) ==> Steered(b, intent, after)
  {}

  lemma ElsewhereSameFiles(a: Disk, b: Disk, c: Disk, intent: Intent)
    requires Elsewhere(a, b, intent) && SameFiles(b, c)
    ensures Elsewhere(a, c, intent)
  {
    SameFilesSameOutcomes(b, c);
    forall p | IsFile(a.tree, p) && p !in Movers(intent) ensures FileKept(a, c, p) {
      assert FileKept(a, b, p);
    }
    forall p | forall m :: m in intent.mutations ==> !(p <= m.path) ensures Undisturbed(a, c, p) {
      assert Undisturbed(a, b, p) && Fates(c, p) == Fates(b, p);
    }
  }

  /** The run is there for good exactly when it was supported. */
  lemma BoundExactly(a: Disk, b: Disk, places: Places, intent: Intent, after: bool)
    requires Flat(intent) && Elsewhere(a, b, intent)
    requires Followed(a, b, places, intent, after, |intent.mutations|)
    requires forall m :: m in intent.mutations ==> Reached(b, m, after)
    ensures Bound(b, intent, after) <==> Supported(a, places, intent, after)
  {
    ReplayTouches(places, a.box, a.tree, intent, after, |intent.mutations|);
    ReachedIsBound(b, intent, after);
    forall p | IsFile(a.tree, p) && p !in Movers(intent) ensures p in b.tree && b.tree[p] == a.tree[p] {
      assert FileKept(a, b, p);
    }
    RootedExactly(a, b, intent, after, Run(a, places, intent, after).value.synced);
  }

  /** Without faults, recovery succeeds exactly here. */
  ghost predicate Recoverable(d: Disk, places: Places, intent: Intent)
  {
    d.stage == Pending ==> Safe(d, intent) && Completes(d, places, intent, Decided(d, intent, true))
  }

  /** All participants are on the side, nothing but the run has happened, and they are there for good exactly
      when that was supported. */
  ghost predicate Finished(a: Disk, b: Disk, places: Places, intent: Intent, after: bool)
  {
    && (forall m :: m in intent.mutations ==> Matches(b.tree, m.path, Target(m, after)) && Reached(b, m, after))
    && Followed(a, b, places, intent, after, |intent.mutations|)
    && (Bound(b, intent, after) <==> Supported(a, places, intent, after))
  }

  lemma FinishedSameFiles(a: Disk, b: Disk, c: Disk, places: Places, intent: Intent, after: bool)
    requires Elsewhere(a, b, intent) && SameFiles(b, c)
    ensures Elsewhere(a, c, intent) && (Bound(b, intent, after) <==> Bound(c, intent, after))
    ensures Finished(a, b, places, intent, after) ==> Finished(a, c, places, intent, after)
  {
    hide Elsewhere, SameFiles, Bound, Reached, Followed, Supported, Matches;
    SameFilesSameFates(b, c, intent);
    ElsewhereSameFiles(a, b, c, intent);
    FollowedSameFiles(a, b, c, places, intent, after);
    forall m | m in intent.mutations
      ensures Matches(c.tree, m.path, Target(m, after)) <==> Matches(b.tree, m.path, Target(m, after))
      ensures Reached(c, m, after) <==> Reached(b, m, after)
    {
      ReachedSameFiles(b, c, m, after);
    }
  }

  lemma FollowedSameFiles(a: Disk, b: Disk, c: Disk, places: Places, intent: Intent, after: bool)
    requires SameFiles(b, c)
    ensures var n := |intent.mutations|;
            Followed(a, b, places, intent, after, n) <==> Followed(a, c, places, intent, after, n)
  {}

  lemma ReachedSameFiles(b: Disk, c: Disk, m: Mutation, after: bool)
    requires SameFiles(b, c)
    ensures Reached(c, m, after) <==> Reached(b, m, after)
    ensures c.tree == b.tree
  {
    hide Fits;
    SameFilesSameOutcomes(b, c);
  }

  /** Classify, move and verify every participant. */
  method MoveAll(fs: FileSystem, places: Places, intent: Intent, committed: bool) returns (ok: bool)
    requires fs.Valid()
    modifies fs
    ensures fs.alive ==> old(fs.alive)
    ensures Spared(old(fs.disk), fs.disk, intent, committed) && KeptStay(places, old(fs.disk.tree), fs.disk.tree)
    ensures !AllKnown(old(fs.disk), intent) ==> !ok && fs.disk == old(fs.disk)
    ensures ok && Flat(intent) ==> Finished(old(fs.disk), fs.disk, places, intent, committed)
    ensures old(fs.Steady()) ==> fs.alive && ok == Completes(old(fs.disk), places, intent, committed)
  {
    ElsewhereNowhere(fs.disk, intent);
    ok := Classify(fs, intent);
    if !ok {
      return;
    }
    ok := ConvergeAll(fs, places, intent, committed);
    if !ok {
      return;
    }
    ok := VerifyIntentTarget(fs, intent, committed);
    if ok && Flat(intent) {
      BoundExactly(old(fs.disk), fs.disk, places, intent, committed);
    }
  }

  /** Recover the pending transaction to one side. */
  method RecoverLoaded(fs: FileSystem, places: Places, intent: Intent, committed: bool) returns (ok: bool)
    requires fs.Valid() && fs.disk.stage == Pending
    modifies fs
    ensures fs.alive ==> old(fs.alive)
    ensures Elsewhere(old(fs.disk), fs.disk, intent) && KeptStay(places, old(fs.disk.tree), fs.disk.tree)
    // Drift anywhere stops recovery before it touches anything.
    ensures !AllKnown(old(fs.disk), intent) ==> !ok && fs.disk == old(fs.disk)
    // Safety at every moment, as long as the journal stays or the run is supported.
    ensures Safe(old(fs.disk), intent) && Stages(old(fs.disk)) == {Pending}
            && (Stages(fs.disk) == {Pending} || Supported(old(fs.disk), places, intent, committed)) ==>
              Safe(fs.disk, intent)
              && (Steered(old(fs.disk), intent, committed) ==> Steered(fs.disk, intent, committed))
    ensures Flat(intent) && Bound(old(fs.disk), intent, committed) ==> Bound(fs.disk, intent, committed)
    ensures Pending in Stages(fs.disk) ==> fs.disk.marker == old(fs.disk.marker)
    // Success: no journal, every participant on the side, and there for good exactly when supported.
    ensures ok ==> fs.disk.stage == NoJournal && fs.disk.stageLimbo == {} && fs.disk.root == old(fs.disk.root)
    ensures ok && Flat(intent) ==> Finished(old(fs.disk), fs.disk, places, intent, committed)
    ensures old(fs.Steady()) ==> fs.alive && ok == Completes(old(fs.disk), places, intent, committed)
  {
    ok := MoveAll(fs, places, intent, committed);
    ghost var moved := fs.disk;
    if Safe(old(fs.disk), intent) && Stages(old(fs.disk)) == {Pending} {
      ContainedKeepsSafe(old(fs.disk), fs.disk, intent);
    }
    if !ok {
      return;
    }
    ok := FinalizeDirectory(fs, intent, committed);
    FinishedSameFiles(old(fs.disk), moved, fs.disk, places, intent, committed);
  }

  // ---- recovery from the transaction root ----

  /** The side that recovery takes, as the visible marker tells. */
  ghost predicate Decided(d: Disk, intent: Intent, after: bool)
  {
    Committed(d.marker, intent.id) == Some(after)
  }

  /** The run that recovery would make is supported. */
  ghost predicate Backing(d: Disk, places: Places, intent: Intent)
  {
    d.stage == Pending ==> Supported(d, places, intent, Decided(d, intent, true))
  }

  /** After a crash it always is: whatever is there has survived. */
  lemma CrashSupports(d: Disk, d': Disk, places: Places, intent: Intent, after: bool)
    requires Crashed(d, d')
    ensures Supported(d', places, intent, after) && Backing(d', places, intent)
  {
    CrashSettles(d, d');
    forall p ensures Durable(d', p) {
      assert Lasting(d', p);
    }
  }

  /** What recovery asks of a disk depends on its files and the journal's contents alone. */
  lemma SameForRecovery(a: Disk, b: Disk, places: Places, intent: Intent)
    requires SameFiles(a, b) && SameContents(a, b)
    ensures forall it :: AllKnown(b, it) <==> AllKnown(a, it)
    ensures forall after :: Completes(b, places, intent, after) <==> Completes(a, places, intent, after)
    ensures forall after :: Supported(b, places, intent, after) <==> Supported(a, places, intent, after)
  {
    forall it ensures AllKnown(b, it) <==> AllKnown(a, it) {
      assert forall m :: Known(b, m) <==> Known(a, m);
    }
    SameFilesSameOutcomes(a, b);
    forall after ensures Supported(b, places, intent, after) <==> Supported(a, places, intent, after) {
      assert forall p :: Durable(b, p) <==> Durable(a, p);
      assert forall path, p :: SupportOf(b, path, p) <==> SupportOf(a, path, p);
    }
  }

  lemma SameFilesElsewhere(a: Disk, b: Disk, c: Disk, intent: Intent)
    requires SameFiles(a, b) && Elsewhere(b, c, intent)
    ensures Elsewhere(a, c, intent)
  {
    SameFilesSameOutcomes(a, b);
    forall p | IsFile(a.tree, p) && p !in Movers(intent) ensures FileKept(a, c, p) {
      assert FileKept(b, c, p);
    }
    forall p | forall m :: m in intent.mutations ==> !(p <= m.path) ensures Undisturbed(a, c, p) {
      assert Undisturbed(b, c, p) && Fates(b, p) == Fates(a, p);
    }
  }

  /** Remove an abandoned building journal, or a completed one. */
  method RemoveResidue(fs: FileSystem, ghost intent: Intent) returns (ok: bool)
    requires fs.disk.stage == Building || fs.disk.stage == Completed
    requires Stages(fs.disk) == {fs.disk.stage} && fs.disk.root.Synced?
    modifies fs
    ensures fs.alive ==> old(fs.alive)
    ensures SameFiles(old(fs.disk), fs.disk) && Pending !in Stages(fs.disk)
    ensures Safe(old(fs.disk), intent) ==>
              Safe(fs.disk, intent) && (Bound(fs.disk, intent, false) || Bound(fs.disk, intent, true))
    ensures forall after :: Steered(old(fs.disk), intent, after) ==> Steered(fs.disk, intent, after)
    ensures ok ==> fs.disk.stage == NoJournal && Stages(fs.disk) == {NoJournal}
    ensures old(fs.Steady()) ==> ok && fs.alive
  {
    ok := RemoveJournal(fs, fs.disk.stage);
    if Safe(old(fs.disk), intent) {
      SettledMayLeavePending(old(fs.disk), fs.disk, intent, Bound(old(fs.disk), intent, true));
    }
    forall after | Steered(old(fs.disk), intent, after) ensures Steered(fs.disk, intent, after) {
      SettledMayLeavePending(old(fs.disk), fs.disk, intent, after);
    }
  }

  /** Decode the intent and read the commit decision. */
  method LoadPending(fs: FileSystem) returns (ok: bool, loaded: Intent, committed: bool)
    modifies fs`alive
    ensures fs.alive ==> old(fs.alive)
    ensures ok ==> fs.disk.box.intent == Some(loaded) && Committed(fs.disk.marker, loaded.id) == Some(committed)
    ensures old(fs.Steady()) ==>
              fs.alive && ok == (fs.disk.box.intent.Some? && ValidIntent(fs.disk.box.intent.value)
                                 && Committed(fs.disk.marker, fs.disk.box.intent.value.id).Some?)
  {
    loaded, committed := Intent("", []), false;
    var fails := fs.Hazard();
    if fails || fs.disk.box.intent.None? || !ValidIntent(fs.disk.box.intent.value) {
      return false, loaded, committed;
    }
    loaded := fs.disk.box.intent.value;
    var decision := Committed(fs.disk.marker, loaded.id);
    fails := fs.Hazard();
    if fails || decision.None? {
      return false, loaded, committed;
    }
    ok, committed := true, decision.value;
  }

  /** An open transaction: its journal is pending for good. */
  ghost predicate Ongoing(d: Disk, intent: Intent)
  {
    Safe(d, intent) && d.stage == Pending && Stages(d) == {Pending} && d.root.Synced?
  }

  /** A decided side that already holds for good is not left, and the decision is not touched. */
  ghost predicate HoldsSide(a: Disk, b: Disk, intent: Intent)
  {
    && (var side := a.stage == Pending && Decided(a, intent, true);
        a.stage == Pending && Bound(a, intent, side) ==> Bound(b, intent, side))
    && (Pending in Stages(b) ==> b.marker == a.marker)
  }

  method RecoverPending(fs: FileSystem, places: Places, ghost intent: Intent) returns (ok: bool)
    requires fs.Valid() && fs.disk.stage == Pending && Stages(fs.disk) == {Pending} && fs.disk.root.Synced?
    modifies fs
    ensures fs.alive ==> old(fs.alive)
    ensures fs.Valid()
    ensures old(fs.disk.box.intent).Some? ==> Elsewhere(old(fs.disk), fs.disk, old(fs.disk.box.intent).value)
    ensures KeptStay(places, old(fs.disk.tree), fs.disk.tree)
    ensures old(fs.disk.box.intent).None? ==> fs.disk == old(fs.disk)
    ensures old(fs.disk.box.intent).Some? && !AllKnown(old(fs.disk), old(fs.disk.box.intent).value) ==>
              !ok && fs.disk == old(fs.disk)
    ensures Safe(old(fs.disk), intent) && (Stages(fs.disk) == {Pending} || Backing(old(fs.disk), places, intent)) ==>
              Safe(fs.disk, intent)
              && forall after :: Steered(old(fs.disk), intent, after) ==> Steered(fs.disk, intent, after)
    ensures Safe(old(fs.disk), intent) ==> HoldsSide(old(fs.disk), fs.disk, intent)
    ensures ok ==> fs.disk.stage == NoJournal && Stages(fs.disk) == {NoJournal}
    ensures ok && Safe(old(fs.disk), intent) ==>
              var side := Decided(old(fs.disk), intent, true);
              Finished(old(fs.disk), fs.disk, places, intent, side)
    ensures old(fs.Steady()) && Safe(old(fs.disk), intent) ==>
              fs.alive && ok == Completes(old(fs.disk), places, intent, Decided(old(fs.disk), intent, true))
  {
    if fs.disk.box.intent.Some? {
      ElsewhereNowhere(fs.disk, fs.disk.box.intent.value);
    }
    var loaded, committed;
    ok, loaded, committed := LoadPending(fs);
    if !ok {
      return;
    }
    assert Safe(fs.disk, intent) ==> loaded == intent && fs.disk.marker in Markers(fs.disk);
    ok := RecoverLoaded(fs, places, loaded, committed);
  }

  /** What recovery does, first of all to the participants. */
  method Resolve(fs: FileSystem, places: Places, ghost intent: Intent) returns (ok: bool)
    requires fs.Valid()
    modifies fs
    ensures fs.alive ==> old(fs.alive)
    ensures fs.Valid()
    ensures Pending !in Stages(old(fs.disk)) ==> Pending !in Stages(fs.disk)
    // Safety at every moment at which the method may return or the process may stop.
    ensures Safe(old(fs.disk), intent) && (Stages(fs.disk) == {Pending} || Backing(old(fs.disk), places, intent)) ==>
              Safe(fs.disk, intent)
              && forall after :: Steered(old(fs.disk), intent, after) ==> Steered(fs.disk, intent, after)
    ensures Safe(old(fs.disk), intent) ==> HoldsSide(old(fs.disk), fs.disk, intent)
    // Success: no journal, every participant on the decided side, and there for good exactly when the
    // directories above those that are to be there were supported.
    ensures ok ==> fs.disk.stage == NoJournal && Stages(fs.disk) == {NoJournal}
    ensures ok && Safe(old(fs.disk), intent) && old(fs.disk.stage) == Pending ==>
              var side := Decided(old(fs.disk), intent, true);
              Finished(old(fs.disk), fs.disk, places, intent, side)
    ensures Safe(old(fs.disk), intent) && old(fs.disk.stage) != Pending ==>
              ok ==> Bound(fs.disk, intent, false) || Bound(fs.disk, intent, true)
    // Only participants and the directories above them are touched, and nothing when there is drift.
    ensures old(fs.disk.stage) == Pending && old(fs.disk.box.intent).Some? ==>
              Elsewhere(old(fs.disk), fs.disk, old(fs.disk.box.intent).value)
    ensures old(fs.disk.stage) != Pending || old(fs.disk.box.intent).None? ==> SameFiles(old(fs.disk), fs.disk)
    ensures KeptStay(places, old(fs.disk.tree), fs.disk.tree)
    ensures old(fs.disk.stage) == Pending && old(fs.disk.box.intent).Some?
            && !AllKnown(old(fs.disk), old(fs.disk.box.intent).value) ==>
              !ok && SameFiles(old(fs.disk), fs.disk) && SameContents(old(fs.disk), fs.disk)
              && fs.disk.stage == Pending
    // Without faults, an attempt succeeds exactly when the run can be completed.
    ensures old(fs.Steady()) && old(fs.disk.stage) != Pending ==> ok && fs.alive
    ensures old(fs.Steady()) && Safe(old(fs.disk), intent) && old(fs.disk.stage) == Pending ==>
              fs.alive && ok == Completes(old(fs.disk), places, intent, Decided(old(fs.disk), intent, true))
  {
    hide KeptStay, Kept;
    ok := EnsureTransactionRoot(fs);
    ghost var ensured := fs.disk;
    EnsuredForRecovery(old(fs.disk), fs.disk, places, intent);
    NoneGone(places, fs.disk.tree);
    if !ok {
      return;
    }
    if fs.disk.stage == Pending {
      ok := RecoverPending(fs, places, intent);
      RecoveredFrom(old(fs.disk), ensured, fs.disk, places, intent);
    } else if fs.disk.stage != NoJournal {
      ok := RemoveResidue(fs, intent);
    }
  }

  /** Resolve whatever journal an earlier process left behind. */
  method Recover(fs: FileSystem, places: Places, ghost intent: Intent) returns (ok: bool)
    requires fs.Valid()
    modifies fs
    ensures fs.alive ==> old(fs.alive)
    ensures fs.Valid()
    ensures Pending !in Stages(old(fs.disk)) ==> Pending !in Stages(fs.disk)
    // Safety at every moment at which the method may return or the process may stop.
    ensures Safe(old(fs.disk), intent) && (Stages(fs.disk) == {Pending} || Backing(old(fs.disk), places, intent)) ==>
              Safe(fs.disk, intent)
              && forall after :: Steered(old(fs.disk), intent, after) ==> Steered(fs.disk, intent, after)
    ensures Safe(old(fs.disk), intent) ==> HoldsSide(old(fs.disk), fs.disk, intent)
    // Success: no journal, every participant on the decided side, and there for good exactly when the
    // directories above those that are to be there were supported.
    ensures ok ==> fs.disk.stage == NoJournal && Stages(fs.disk) == {NoJournal}
    ensures ok && Safe(old(fs.disk), intent) && old(fs.disk.stage) == Pending ==>
              var side := Decided(old(fs.disk), intent, true);
              Finished(old(fs.disk), fs.disk, places, intent, side)
    // Spelled out: the after states if the marker was the decision, and the before states otherwise.
    ensures ok && Safe(old(fs.disk), intent) && old(fs.disk.stage) == Pending ==>
              forall m :: m in intent.mutations ==>
                match if old(fs.disk.marker) == Some(intent.id + "\n") then m.after else m.before
                case Absent => m.path !in fs.disk.tree
                case RegularFile(sha, mode, _) =>
                  m.path in fs.disk.tree && fs.disk.tree[m.path].Regular?
                  && Sha(fs.disk.tree[m.path].data) == sha && fs.disk.tree[m.path].mode == mode
                case Link(_, target) => m.path in fs.disk.tree && fs.disk.tree[m.path] == Symlink(target)
    ensures Safe(old(fs.disk), intent) && old(fs.disk.stage) != Pending ==>
              ok ==> Bound(fs.disk, intent, false) || Bound(fs.disk, intent, true)
    // Only participants and the directories above them are touched, and nothing when there is drift.
    ensures old(fs.disk.stage) == Pending && old(fs.disk.box.intent).Some? ==>
              Elsewhere(old(fs.disk), fs.disk, old(fs.disk.box.intent).value)
    ensures old(fs.disk.stage) != Pending || old(fs.disk.box.intent).None? ==> SameFiles(old(fs.disk), fs.disk)
    // The data root and what it lies in, what lies directly in it, the home and what lies directly in that, and
    // what lies at the top are never removed; every other directory goes when success has emptied it.
    ensures forall p :: IsDir(old(fs.disk.tree), p)
                        && (|p| <= 1 || p <= places.dataRoot || Dir(p) == places.dataRoot
                            || places.home == Some(p) || places.home == Some(Dir(p))) ==>
              IsDir(fs.disk.tree, p)
    ensures ok && Safe(old(fs.disk), intent) ==>
              forall q, p :: q in old(fs.disk.tree) && q !in fs.disk.tree && p < q && IsDir(fs.disk.tree, p)
                             && !(|p| <= 1 || p <= places.dataRoot || Dir(p) == places.dataRoot
                                  || places.home == Some(p) || places.home == Some(Dir(p))) ==>
                HasChild(fs.disk.tree, p)
    ensures old(fs.disk.stage) == Pending && old(fs.disk.box.intent).Some?
            && !AllKnown(old(fs.disk), old(fs.disk.box.intent).value) ==>
              !ok && SameFiles(old(fs.disk), fs.disk) && SameContents(old(fs.disk), fs.disk)
              && fs.disk.stage == Pending
    // Without faults, an attempt succeeds exactly when the run can be completed.
    ensures old(fs.Steady()) && old(fs.disk.stage) != Pending ==> ok && fs.alive
    ensures old(fs.Steady()) && Safe(old(fs.disk), intent) && old(fs.disk.stage) == Pending ==>
              fs.alive && ok == Completes(old(fs.disk), places, intent, Decided(old(fs.disk), intent, true))
  {
    hide KeptStay, Kept, Supported, Completes, Elsewhere, Contained, Safe, Steered, Finished, AllKnown;
    ghost var start := fs.disk;
    ok := Resolve(fs, places, intent);
    StaySpelledOut(places, start.tree, fs.disk.tree);
    if ok && Safe(start, intent) && start.stage == Pending {
      FinishedLeavesNoneEmpty(start, fs.disk, places, intent, Decided(start, intent, true));
      FinishedSpelledOut(start, fs.disk, places, intent, Decided(start, intent, true));
    }
  }

  lemma FinishedSpelledOut(a: Disk, b: Disk, places: Places, intent: Intent, after: bool)
    requires Finished(a, b, places, intent, after) && after == Decided(a, intent, true)
    ensures after <==> a.marker == Some(intent.id + "\n")
    ensures forall m :: m in intent.mutations ==>
              match if after then m.after else m.before
              case Absent => m.path !in b.tree
              case RegularFile(sha, mode, _) =>
                m.path in b.tree && b.tree[m.path].Regular? && Sha(b.tree[m.path].data) == sha && b.tree[m.path].mode == mode
              case Link(_, target) => m.path in b.tree && b.tree[m.path] == Symlink(target)
  {
    hide Followed, Supported, Bound, Reached;
    forall m | m in intent.mutations ensures Matches(b.tree, m.path, if after then m.after else m.before) {
      assert Matches(b.tree, m.path, Target(m, after));
    }
  }

  lemma NoneGone(places: Places, tree: Tree)
    ensures KeptStay(places, tree, tree)
  {}

  lemma FinishedLeavesNoneEmpty(a: Disk, b: Disk, places: Places, intent: Intent, after: bool)
    requires Coherent(a.tree) && Finished(a, b, places, intent, after)
    ensures forall q, p :: q in a.tree && q !in b.tree && p < q && IsDir(b.tree, p)
                           && !(|p| <= 1 || p <= places.dataRoot || Dir(p) == places.dataRoot
                                || places.home == Some(p) || places.home == Some(Dir(p))) ==>
              HasChild(b.tree, p)
  {
    hide Kept;
    RunLeavesNoneEmpty(places, a.box, a.tree, intent, after, |intent.mutations|);
    forall q | q in a.tree && q !in b.tree
      ensures forall p :: p < q && IsDir(b.tree, p)
                          && !(|p| <= 1 || p <= places.dataRoot || Dir(p) == places.dataRoot
                               || places.home == Some(p) || places.home == Some(Dir(p))) ==>
                HasChild(b.tree, p)
    {
      GoneSpelledOut(places, b.tree, q);
    }
  }

  lemma EnsuredForRecovery(a: Disk, b: Disk, places: Places, intent: Intent)
    requires Coherent(a.tree) && SameFiles(a, b) && SameContents(a, b) && b.stage == a.stage && Stages(b) <= Stages(a)
    ensures Safe(a, intent) ==> Safe(b, intent) && HoldsSide(a, b, intent)
    ensures forall after :: Steered(a, intent, after) ==> Steered(b, intent, after)
    ensures Backing(b, places, intent) <==> Backing(a, places, intent)
    ensures a.box.intent.Some? ==> Elsewhere(a, b, a.box.intent.value)
  {
    if Safe(a, intent) {
      FewerStagesKeepSafe(a, b, intent);
    }
    SameForRecovery(a, b, places, intent);
    SameFilesSameFates(a, b, intent);
    if a.box.intent.Some? {
      ElsewhereNowhere(b, a.box.intent.value);
      SameFilesElsewhere(a, b, b, a.box.intent.value);
    }
  }

  lemma RecoveredFrom(a: Disk, b: Disk, c: Disk, places: Places, intent: Intent)
    requires SameFiles(a, b) && SameContents(a, b) && b.stage == a.stage
    ensures b.box.intent.Some? && Elsewhere(b, c, b.box.intent.value) ==> Elsewhere(a, c, b.box.intent.value)
    ensures HoldsSide(b, c, intent) ==> HoldsSide(a, c, intent)
    ensures forall it :: AllKnown(b, it) <==> AllKnown(a, it)
    ensures forall after :: Completes(b, places, intent, after) <==> Completes(a, places, intent, after)
    ensures forall after :: Finished(b, c, places, intent, after) ==> Finished(a, c, places, intent, after)
  {
    hide Elsewhere, AllKnown, Completes, Supported, Contained;
    SameForRecovery(a, b, places, intent);
    SameFilesSameFates(a, b, intent);
    if b.box.intent.Some? && Elsewhere(b, c, b.box.intent.value) {
      SameFilesElsewhere(a, b, c, b.box.intent.value);
    }
  }
}
