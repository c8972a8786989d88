/** Recovery that is itself interrupted, any number of times, and the disks on which it falls short. */
module Attempts {
  import opened Options
  import opened Files
  import opened Disks
  import opened Views
  import opened Journal
  import opened DurableFs
  import opened EmptyParents
  import opened Converge
  import opened JournalDir
  import opened Recovery

  lemma SomeCrash(d: Disk)
    requires Coherent(d.tree)
    ensures exists d' :: Crashed(d, d')
  {
    assert Crashed(d, Left(d, d.stage, d.marker));
  }

  /** One attempt: the disk that it met, and the one that it left. */
  datatype Try = Try(met: Disk, left: Disk)

  function LeftBy(first: Disk, tries: seq<Try>, n: nat): Disk
    requires n <= |tries|
  {
    if n == 0 then first else tries[n - 1].left
  }

  predicate Met(left: Disk, restart: bool, met: Disk)
  {
    if restart then Crashed(left, met) else met == left
  }

  /** An attempt meets the disk that the one before it left, or what the crash before a restart made of that. */
  predicate Chained(first: Disk, restarts: seq<bool>, tries: seq<Try>)
    requires |tries| <= |restarts|
  {
    forall i :: 0 <= i < |tries| ==>
      Met(LeftBy(first, tries, i), restarts[i], tries[i].met)
  }

  ghost predicate AllSafe(tries: seq<Try>, n: nat, intent: Intent)
    requires n <= |tries|
  {
    forall i :: 0 <= i < n ==> Safe(tries[i].met, intent)
  }

  /** As long as the disks met were safe, exactly the attempt succeeded whose run could be completed. */
  ghost predicate FirstSucceeds(places: Places, intent: Intent, tries: seq<Try>, ok: bool)
  {
    forall i :: 0 <= i < |tries| && AllSafe(tries, i + 1, intent) ==>
      (ok && i == |tries| - 1 <==> Recoverable(tries[i].met, places, intent))
  }

  /** Try until an attempt succeeds. An attempt may stop anywhere; the machine starts again before those
      rounds that say so, and the others follow in the same boot. Every participant stays in a captured
      state, every attempt is steered to the same side, and success means that all participants are on
      that side for good, as long as every attempt was supported, which it is after each restart. */
  method Attempt(fs: FileSystem, places: Places, ghost intent: Intent, restarts: seq<bool>)
    returns (ok: bool, ghost supported: bool, ghost tries: seq<Try>)
    requires fs.Valid() && Safe(fs.disk, intent)
    modifies fs
    ensures |tries| <= |restarts| && Chained(old(fs.disk), restarts, tries) && fs.disk == LeftBy(old(fs.disk), tries, |tries|)
    ensures (forall i :: 0 <= i < |restarts| ==> restarts[i]) ==> supported
    ensures supported ==> AllSafe(tries, |tries|, intent) && Safe(fs.disk, intent) && Contained(fs.disk, intent)
    ensures supported ==> forall after :: Steered(old(fs.disk), intent, after) ==> Steered(fs.disk, intent, after)
    ensures if ok then tries != [] && Stages(fs.disk) == {NoJournal} else |tries| == |restarts|
    ensures ok && supported ==> Bound(fs.disk, intent, false) || Bound(fs.disk, intent, true)
    ensures ok && supported ==> forall after :: Steered(old(fs.disk), intent, after) ==> Bound(fs.disk, intent, after)
    // Without faults the first attempt succeeds whose run can be completed, however the machine has come to it.
    ensures fs.reliable && (old(fs.alive) || (restarts != [] && restarts[0])) ==>
              FirstSucceeds(places, intent, tries, ok)
  {
    hide Safe, Steered, Crashed, Backing, Recoverable, Bound, Contained;
    ok, supported, tries := false, true, [];
    var round := 0;
    while round < |restarts| && !ok
      invariant round == |tries| <= |restarts| && Chained(old(fs.disk), restarts, tries)
      invariant fs.Valid() && fs.disk == LeftBy(old(fs.disk), tries, |tries|)
      invariant supported ==> Safe(fs.disk, intent) && AllSafe(tries, |tries|, intent)
      invariant supported ==>
                  forall after :: Steered(old(fs.disk), intent, after) ==> Steered(fs.disk, intent, after)
      invariant ok ==> tries != [] && Stages(fs.disk) == {NoJournal}
      invariant (forall i :: 0 <= i < |tries| ==> restarts[i]) ==> supported
      invariant tries == [] ==> fs.alive == old(fs.alive)
      invariant fs.reliable && (old(fs.alive) || (restarts != [] && restarts[0])) ==>
                  (tries != [] && AllSafe(tries, |tries|, intent) ==> fs.alive) && FirstSucceeds(places, intent, tries, ok)
      decreases |restarts| - round
    {
      if restarts[round] {
        SomeCrash(fs.disk);
        var found :| Crashed(fs.disk, found);
        Restarted(fs.disk, found, places, intent);
        fs.Reboot(found);
      }
      ghost var met := fs.disk;
      supported := supported && Backing(met, places, intent);
      ok := TryOnce(fs, places, intent);
      ChainedMore(old(fs.disk), restarts, tries, Try(met, fs.disk));
      OneMoreTry(places, intent, tries, Try(met, fs.disk), ok);
      tries := tries + [Try(met, fs.disk)];
      round := round + 1;
    }
    if supported {
      SafeIsContained(fs.disk, intent);
      if ok {
        SettledIsBound(fs.disk, intent);
      }
    }
  }

  lemma Restarted(a: Disk, b: Disk, places: Places, intent: Intent)
    requires Coherent(a.tree) && Crashed(a, b)
    ensures Coherent(b.tree) && Backing(b, places, intent)
    ensures Safe(a, intent) ==> Safe(b, intent)
    ensures Safe(a, intent) ==> forall after :: Steered(a, intent, after) ==> Steered(b, intent, after)
  {
    if Safe(a, intent) {
      CrashKeepsSafe(a, b, intent);
    }
    CrashSupports(a, b, places, intent, true);
  }

  /** One attempt, and what the next ones may rely on. */
  method TryOnce(fs: FileSystem, places: Places, ghost intent: Intent) returns (ok: bool)
    requires fs.Valid()
    modifies fs
    ensures fs.Valid() && (ok ==> Stages(fs.disk) == {NoJournal})
    ensures Safe(old(fs.disk), intent) && Backing(old(fs.disk), places, intent) ==>
              Safe(fs.disk, intent)
              && forall after :: Steered(old(fs.disk), intent, after) ==> Steered(fs.disk, intent, after)
    ensures old(fs.Steady()) && Safe(old(fs.disk), intent) ==>
              fs.alive && ok == Recoverable(old(fs.disk), places, intent)
  {
    hide Safe, Steered, Backing, Completes, Finished, HoldsSide, AllKnown;
    ok := Recover(fs, places, intent);
  }

  lemma ChainedMore(first: Disk, restarts: seq<bool>, tries: seq<Try>, next: Try)
    requires |tries| < |restarts| && Chained(first, restarts, tries)
    requires Met(LeftBy(first, tries, |tries|), restarts[|tries|], next.met)
    ensures Chained(first, restarts, tries + [next])
  {
    hide Met;
    forall i | 0 <= i <= |tries|
      ensures Met(LeftBy(first, tries + [next], i), restarts[i], (tries + [next])[i].met)
    {
      assert LeftBy(first, tries + [next], i) == LeftBy(first, tries, i);
    }
  }

  lemma OneMoreTry(places: Places, intent: Intent, tries: seq<Try>, next: Try, ok: bool)
    ensures AllSafe(tries + [next], |tries| + 1, intent) ==> AllSafe(tries, |tries|, intent) && Safe(next.met, intent)
    ensures AllSafe(tries, |tries|, intent) && Safe(next.met, intent) ==> AllSafe(tries + [next], |tries| + 1, intent)
    ensures FirstSucceeds(places, intent, tries, false)
            && (AllSafe(tries + [next], |tries| + 1, intent) ==> (ok <==> Recoverable(next.met, places, intent))) ==>
              FirstSucceeds(places, intent, tries + [next], ok)
  {
    hide Safe, Recoverable;
    var more := tries + [next];
    assert more[|tries|] == next && forall i :: 0 <= i < |tries| ==> more[i] == tries[i];
    if FirstSucceeds(places, intent, tries, false)
       && (AllSafe(more, |tries| + 1, intent) ==> (ok <==> Recoverable(next.met, places, intent))) {
      forall i | 0 <= i < |more| && AllSafe(more, i + 1, intent)
        ensures ok && i == |more| - 1 <==> Recoverable(more[i].met, places, intent)
      {
        assert i < |tries| ==> AllSafe(tries, i + 1, intent);
      }
    }
  }

  lemma SettledIsBound(d: Disk, intent: Intent)
    requires Safe(d, intent) && Stages(d) == {NoJournal}
    ensures Bound(d, intent, false) || Bound(d, intent, true)
    ensures forall after :: Steered(d, intent, after) ==> Bound(d, intent, after)
  {}

  lemma SafeIsContained(d: Disk, intent: Intent)
    requires Safe(d, intent)
    ensures Contained(d, intent)
  {
    if Bound(d, intent, false) {
      BoundIsContained(d, intent, false);
    } else if Bound(d, intent, true) {
      BoundIsContained(d, intent, true);
    }
  }

  // ---- the decision ----

  /** At any moment of Commit: until the decision is completely visible all attempts, however many, are
      steered back, and once it is completely synced all are steered forward. In between they are
      steered nowhere. */
  lemma CommitSteers(d: Disk, intent: Intent)
    requires Ongoing(d, intent) && Moment(d.marker, d.markerLimbo, intent.id)
    ensures Steered(d, intent, false) <==> d.marker != Some(Decision(intent.id))
    ensures Steered(d, intent, true) <==> d.marker == Some(Decision(intent.id)) && d.markerLimbo == {}
  {
    assert d.marker in Markers(d);
    if d.marker == Some(Decision(intent.id)) && d.markerLimbo != {} {
      assert None in Markers(d);
    }
    if d.marker != Some(Decision(intent.id)) || d.markerLimbo == {} {
      forall marker | marker in Markers(d) ensures Committed(marker, intent.id) == Committed(d.marker, intent.id) {
        MomentReads(d, intent.id, marker);
      }
    }
    if d.marker.Some? {
      MarkerClassification(d.marker.value, intent.id);
    }
  }

  /** A Commit that stops between writing the marker and syncing it leaves a disk from which a crash
      leads to an attempt that can only end on one side, and another crash to one that can only end on
      the other. */
  method StopBeforeSync(fs: FileSystem, ghost intent: Intent, id: string) returns (ghost forward: Disk, ghost back: Disk)
    requires fs.Valid() && fs.Steady() && id == intent.id && Ongoing(fs.disk, intent)
    requires fs.disk.marker == None && fs.disk.markerLimbo == {}
    modifies fs
    ensures Ongoing(fs.disk, intent) && fs.disk.marker == Some(Decision(id)) && Moment(fs.disk.marker, fs.disk.markerLimbo, id)
    ensures Crashed(fs.disk, forward) && Steered(forward, intent, true) && forward.stage == Pending
    ensures Crashed(fs.disk, back) && Steered(back, intent, false) && back.stage == Pending
  {
    var written := CreateMarker(fs, id);
    MomentsAreExplained(fs.disk.marker, fs.disk.markerLimbo, id);
    SameFilesSameFates(old(fs.disk), fs.disk, intent);
    assert Ongoing(fs.disk, intent);
    forward, back := Left(fs.disk, Pending, fs.disk.marker), Left(fs.disk, Pending, None);
    CrashKeepsSafe(fs.disk, forward, intent);
    CrashKeepsSafe(fs.disk, back, intent);
    CommitSteers(forward, intent);
    CommitSteers(back, intent);
  }

  // ---- where success falls short ----

  /** A disk like `d`, with another entry in place of the directory `dir`, and nothing below it. */
  function Losing(d: Disk, dir: Path, entry: Option<Node>): Disk
  {
    var rest := map p | p in d.tree && !(dir <= p) :: d.tree[p];
    d.(tree := if entry.Some? then rest[dir := entry.value] else rest,
       limbo := map[], unflushed := {}, root := Synced, stageLimbo := {}, markerLimbo := {})
  }

  function SlotOf(entry: Option<Node>): Fate
  {
    if entry.Some? then Holds(entry.value) else Gone
  }

  lemma LosingSlot(d: Disk, dir: Path, entry: Option<Node>, p: Path)
    requires dir != []
    ensures Slot(Losing(d, dir, entry), p) == if p == dir then SlotOf(entry) else if dir < p then Gone else Slot(d, p)
  {}

  lemma LosingIsCoherent(d: Disk, dir: Path, entry: Option<Node>)
    requires Coherent(d.tree) && dir != [] && IsDir(d.tree, Dir(dir))
    ensures Coherent(Losing(d, dir, entry).tree)
  {
    var tree := Losing(d, dir, entry).tree;
    forall p | p in tree ensures p != [] && IsDir(tree, Dir(p)) {
      LosingSlot(d, dir, entry, p);
      LosingSlot(d, dir, entry, Dir(p));
      if p == dir {
        assert !(dir <= Dir(dir));
      } else {
        assert IsDir(d.tree, Dir(p)) && !(dir <= Dir(p));
      }
    }
  }

  /** A crash may leave it when that entry may survive. */
  lemma MayLose(d: Disk, dir: Path, entry: Option<Node>)
    requires Coherent(d.tree) && dir != [] && IsDir(d.tree, Dir(dir))
    requires Survives(d, dir, SlotOf(entry)) && entry != Some(Directory)
    ensures Crashed(d, Losing(d, dir, entry))
  {
    LosingIsCoherent(d, dir, entry);
    var d' := Losing(d, dir, entry);
    forall p | p in d.tree.Keys + d.limbo.Keys + d'.tree.Keys && IsDir(d'.tree, Dir(p))
      ensures Survives(d, p, Slot(d', p))
    {
      LosingSlot(d, dir, entry, p);
      if dir < p {
        OnlyTheTop(d, dir, entry, p);
      }
    }
  }

  lemma OnlyTheTop(d: Disk, dir: Path, entry: Option<Node>, p: Path)
    requires dir != [] && entry != Some(Directory) && dir < p
    ensures !IsDir(Losing(d, dir, entry).tree, Dir(p))
  {
    assert dir <= Dir(p);
  }

  /** What sits in directories that are not there for good may be lost. */
  lemma LostByCrash(d: Disk, path: Path) returns (lost: Disk)
    requires Coherent(d.tree) && path in d.tree && !Firm(d, Dir(path))
    ensures Crashed(d, lost) && Slot(lost, path) == Gone && lost.stage == d.stage
  {
    var dir :| dir <= Dir(path) && Fates(d, dir) != {Holds(Directory)};
    assert path != [] && dir < path;
    AncestorsAreDirectories(d.tree, path, dir);
    assert IsDir(d.tree, Dir(dir));
    var f :| f in Fates(d, dir) && f != Holds(Directory);
    var entry := match f case Gone => None case Holds(node) => Some(node) case Torn => Some(Regular(Binary(""), 0));
    MayLose(d, dir, entry);
    LosingSlot(d, dir, entry, path);
    lost := Losing(d, dir, entry);
  }

  /** Recovery may succeed and remove the journal while a crash after that still leaves a participant on
      the other side of the decision: when a directory above it is there but was never synced into its
      own, because an earlier attempt stopped between making it and the sync, and this run does not sync
      it either. */
  method LostWithItsDirectory(fs: FileSystem, places: Places, ghost intent: Intent)
    returns (ok: bool, ghost m: Mutation, ghost lost: Disk)
    requires fs.Valid() && fs.Steady() && Ongoing(fs.disk, intent)
    requires Completes(fs.disk, places, intent, Decided(fs.disk, intent, true))
    requires !Supported(fs.disk, places, intent, Decided(fs.disk, intent, true))
    modifies fs
    ensures ok && fs.disk.stage == NoJournal
    ensures m in intent.mutations && Crashed(fs.disk, lost) && lost.stage == NoJournal
    ensures !Fits(Slot(lost, m.path), Target(m, Decided(old(fs.disk), intent, true)))
  {
    ghost var side := Decided(fs.disk, intent, true);
    ok := Recover(fs, places, intent);
    ReachedIsBound(fs.disk, intent, side);
    m :| m in intent.mutations && !Guard(m) && !Target(m, side).Absent? && !Firm(fs.disk, Dir(m.path));
    assert Matches(fs.disk.tree, m.path, Target(m, side));
    lost := LostByCrash(fs.disk, m.path);
  }

  /** A disk on which nothing is in flight and this journal is pending without a decision. */
  function Fresh(tree: Tree, intent: Intent, payload: string, data: Content): Disk
  {
    Disk(tree, map[], {}, Synced, Pending, {}, Box(Some(intent), map[payload := data]), true, None, {})
  }

  lemma FreshIsOngoing(tree: Tree, intent: Intent, payload: string, data: Content)
    requires Coherent(tree) && ValidIntent(intent) && Flat(intent)
    requires forall m :: m in intent.mutations ==>
               var d := Fresh(tree, intent, payload, data);
               && HasPayload(d, m.before) && HasPayload(d, m.after)
               && (Fits(Slot(d, m.path), m.before) || Fits(Slot(d, m.path), m.after))
    ensures Ongoing(Fresh(tree, intent, payload, data), intent)
  {
    var d := Fresh(tree, intent, payload, data);
    forall m, f | m in intent.mutations && f in Outcomes(d, m.path) ensures Fits(f, m.before) || Fits(f, m.after) {
      if m.path in tree {
        DirectoriesAreFirm(d, m.path);
      }
    }
  }

  /** `path` lies in `dir`, which lies in a top-level directory. */
  predicate Below(top: Path, dir: Path, path: Path)
  {
    path != [] && dir != [] && top != [] && Dir(path) == dir && Dir(dir) == top && Dir(top) == []
  }

  /** Making a missing directory above the one participant, synced or not, keeps the transaction open. */
  lemma MkdirKeepsOngoing(a: Disk, intent: Intent, m: Mutation, dir: Path) returns (b: Disk)
    requires Ongoing(a, intent) && intent.mutations == [m] && !Guard(m)
    requires dir != [] && dir < m.path && dir !in a.tree && IsDir(a.tree, Dir(dir))
    ensures b == Put(a, dir, Some(Directory), true) && Ongoing(b, intent)
  {
    b := Put(a, dir, Some(Directory), true);
    AdditionKeepsCoherent(a.tree, dir, Directory);
    DirStep(a, b, dir, Some(Directory), m.path);
    ContainedStep(a, b, intent, 0, m.before);
    ContainedKeepsSafe(a, b, intent);
  }

  /** Such a disk: a removed file is to be put back, its directory is gone, and making it again stopped
      before the sync. */
  lemma UnsyncedDirectory(top: Path, dir: Path, path: Path, data: Content, id: string, places: Places)
    returns (before: Disk, d: Disk, intent: Intent)
    requires ValidId(id) && Below(top, dir, path)
    ensures Ongoing(before, intent) && Decided(before, intent, false)
    ensures dir !in before.tree && IsDir(before.tree, top) && d == Put(before, dir, Some(Directory), true)
    ensures Ongoing(d, intent) && Decided(d, intent, false)
    ensures Completes(d, places, intent, false) && !Supported(d, places, intent, false)
  {
    hide Completes, Ongoing, Supported, Passable;
    var m := Mutation("live", path, RegularFile(Sha(data), 0x1C0, "p"), Absent);
    intent := Intent(id, [m]);
    var tree: Tree := map[top := Directory];
    before := Fresh(tree, intent, "p", data);
    assert |top| == 1 && |dir| == 2 && |path| == 3;
    FreshIsOngoing(tree, intent, "p", data);
    d := MkdirKeepsOngoing(before, intent, m, dir);
    PassableBelow(d.tree, top, dir);
    OneTurn(d, places, intent, m, data);
    StillPending(d, places, intent, m, dir);
  }

  /** An entry that is pending in a directory which the run does not sync does not support it. */
  lemma StillPending(d: Disk, places: Places, intent: Intent, m: Mutation, dir: Path)
    requires intent.mutations == [m] && !Guard(m) && !m.before.Absent? && Run(d, places, intent, false).Some?
    requires Run(d, places, intent, false).value.synced == {Dir(m.path)}
    requires SupportOf(d, m.path, dir) && Gone in Fates(d, dir) && Dir(dir) != Dir(m.path)
    ensures !Supported(d, places, intent, false)
  {
    assert m in intent.mutations;
  }

  lemma PassableBelow(tree: Tree, top: Path, dir: Path)
    requires tree == map[top := Directory][dir := Directory]
    ensures Passable(tree, dir)
  {}

  lemma OneTurn(d: Disk, places: Places, intent: Intent, m: Mutation, data: Content)
    requires intent.mutations == [m] && m.before == RegularFile(Sha(data), 0x1C0, "p") && m.after == Absent
    requires d.box.payloads == map["p" := data] && m.path != [] && m.path !in d.tree
    requires IsDir(d.tree, Dir(m.path)) && Passable(d.tree, Dir(m.path))
    ensures Completes(d, places, intent, false)
    ensures Run(d, places, intent, false).Some? && Run(d, places, intent, false).value.synced == {Dir(m.path)}
  {
    assert Replay(places, d.box, d.tree, intent, false, 0) == Some(Course(d.tree, {}));
    var next := d.tree[m.path := Regular(data, 0x1C0)];
    assert Moved(places, d.box, d.tree, m.path, m.before) == next;
    assert Turn(places, d.box, d.tree, m, m.before) == Some(next);
    assert Replay(places, d.box, d.tree, intent, false, 1).Some?;
  }

  // ---- where an attempt cannot succeed ----

  lemma PruneTakesTheDirectory(places: Places, tree: Tree, path: Path)
    requires Coherent(tree) && path in tree && !Kept(places, Dir(path))
    requires forall p :: p in tree && p != [] && Dir(p) == Dir(path) ==> p == path
    ensures !IsDir(Prune(places, tree - {path}, Dir(path)), Dir(path))
  {
    var rest := tree - {path};
    assert !HasChild(rest, Dir(path));
    var floor := PruneRemovesOneChain(places, rest - {Dir(path)}, Dir(Dir(path)));
  }

  /** An existing directory is not enough for an absent participant: removing its sibling prunes the
      directory, and then there is nothing left to sync. */
  lemma SiblingsCannotComplete(d: Disk, places: Places, intent: Intent, first: Mutation, second: Mutation)
    requires Coherent(d.tree) && intent.mutations == [first, second]
    requires first.before.Absent? && second.before.Absent? && !first.after.Absent? && !second.after.Absent?
    requires Dir(first.path) == Dir(second.path) && !Kept(places, Dir(first.path))
    requires first.path in d.tree && second.path !in d.tree
    requires forall p :: p in d.tree && p != [] && Dir(p) == Dir(first.path) ==> p == first.path
    ensures !Completes(d, places, intent, false)
  {
    var one := Replay(places, d.box, d.tree, intent, false, 1);
    assert Replay(places, d.box, d.tree, intent, false, 0) == Some(Course(d.tree, {}));
    if one.Some? {
      PruneTakesTheDirectory(places, d.tree, first.path);
      assert one.value.tree == Prune(places, d.tree - {first.path}, Dir(first.path));
      var floor := PruneRemovesOneChain(places, d.tree - {first.path}, Dir(first.path));
      assert second.path !in one.value.tree;
      assert Turn(places, d.box, one.value.tree, second, second.before).None?;
    }
    assert Replay(places, d.box, d.tree, intent, false, 2).None?;
  }

  /** So recovery of a perfectly safe disk fails, every time. */
  method SiblingStrands(fs: FileSystem, places: Places, ghost intent: Intent, ghost first: Mutation, ghost second: Mutation)
    returns (ok: bool)
    requires fs.Valid() && fs.Steady() && Ongoing(fs.disk, intent) && Decided(fs.disk, intent, false)
    requires intent.mutations == [first, second]
    requires first.before.Absent? && second.before.Absent? && !first.after.Absent? && !second.after.Absent?
    requires Dir(first.path) == Dir(second.path) && !Kept(places, Dir(first.path))
    requires first.path in fs.disk.tree && second.path !in fs.disk.tree
    requires forall p :: p in fs.disk.tree && p != [] && Dir(p) == Dir(first.path) ==> p == first.path
    modifies fs
    ensures !ok && IsDir(old(fs.disk.tree), Dir(second.path))
  {
    SiblingsCannotComplete(fs.disk, places, intent, first, second);
    ok := Recover(fs, places, intent);
  }

  /** A disk of this kind. */
  lemma StrandedSiblings(top: Path, dir: Path, one: Path, two: Path, data: Content, id: string, places: Places)
    returns (d: Disk, intent: Intent)
    requires ValidId(id) && Below(top, dir, one) && Below(top, dir, two) && one != two && !Kept(places, dir)
    ensures Ongoing(d, intent) && Decided(d, intent, false) && !Completes(d, places, intent, false)
    ensures |intent.mutations| == 2
    ensures forall m :: m in intent.mutations ==> m.before.Absent? && IsDir(d.tree, Dir(m.path))
  {
    hide Completes, Ongoing, Kept, Coherent, ValidIntent, Flat;
    var after := RegularFile(Sha(data), 0x1C0, "p");
    var first, second := Mutation("first", one, Absent, after), Mutation("second", two, Absent, after);
    intent := Intent(id, [first, second]);
    var tree := SiblingTree(top, dir, one, two, data);
    d := Fresh(tree, intent, "p", data);
    SiblingsAreValid(intent, first, second);
    FreshIsOngoing(tree, intent, "p", data);
    SiblingsCannotComplete(d, places, intent, first, second);
  }

  /** A directory that holds one of the two siblings. */
  lemma SiblingTree(top: Path, dir: Path, one: Path, two: Path, data: Content) returns (tree: Tree)
    requires Below(top, dir, one) && Below(top, dir, two) && one != two
    ensures Coherent(tree) && one in tree && tree[one] == Regular(data, 0x1C0) && two !in tree && IsDir(tree, dir)
    ensures forall p :: p in tree && p != [] && Dir(p) == dir ==> p == one
    ensures |one| == 3 && |two| == 3
  {
    assert |top| == 1 && |dir| == 2 && |one| == 3 && |two| == 3;
    tree := map[top := Directory, dir := Directory, one := Regular(data, 0x1C0)];
  }

  lemma SiblingsAreValid(intent: Intent, first: Mutation, second: Mutation)
    requires ValidId(intent.id) && intent.mutations == [first, second]
    requires first.role == "first" && second.role == "second"
    requires first.path != [] && second.path != [] && |first.path| == |second.path| && first.path != second.path
    requires ValidState(first.before) && ValidState(first.after) && ValidState(second.before) && ValidState(second.after)
    ensures ValidIntent(intent) && Flat(intent)
  {
    assert "first"[0] != "second"[0];
  }
}
