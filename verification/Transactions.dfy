/** A transaction from PREPARED to its end, as the commands drive it. */
module Transactions {
  import opened Options
  import opened Files
  import opened Disks
  import opened Views
  import opened Journal
  import opened DurableFs
  import opened EmptyParents
  import opened JournalDir
  import opened Converge
  import opened Recovery
  import opened Capture

  /** What is at a path has reached the disk, and so have the directories on the way to it. */
  ghost predicate Settled(d: Disk, path: Path)
  {
    Lasting(d, path) && Footing(d, Dir(path))
  }

  /** What Begin relies on: the participants do not nest, and those that are to move have reached the
      disk. Nothing is asked of those that are only guarded. */
  ghost predicate Calm(d: Disk, specs: seq<Spec>)
  {
    && (forall s :: s in specs ==> s.path != [] && (s.after.WantUnchanged? || Settled(d, s.path)))
    && (forall i, j :: 0 <= i < |specs| && 0 <= j < |specs| && i != j ==> !(specs[i].path <= specs[j].path))
  }

  ghost predicate AllCaptured(d: Disk, specs: seq<Spec>, intent: Intent)
  {
    && |intent.mutations| == |specs|
    && (forall i :: 0 <= i < |specs| ==> Captured(d, specs[i], intent.mutations[i]))
  }

  /** The journal is pending for good and nothing has been decided. */
  ghost predicate Prepared(d: Disk, intent: Intent)
  {
    && d.stage == Pending && Stages(d) == {Pending} && d.root.Synced?
    && d.marker == None && d.markerLimbo == {}
    && d.box.intent == Some(intent) && ValidIntent(intent)
  }

  lemma CalmIsFlat(d: Disk, specs: seq<Spec>, intent: Intent)
    requires Calm(d, specs) && AllCaptured(d, specs, intent)
    ensures Flat(intent)
    ensures Bound(d, intent, false)
  {
    forall m | m in intent.mutations
      ensures m.path != [] && (!Guard(m) ==> forall f :: f in Outcomes(d, m.path) ==> Fits(f, m.before))
    {
      var i :| 0 <= i < |specs| && intent.mutations[i] == m;
      assert specs[i] in specs && Captured(d, specs[i], m);
    }
    forall i, j | 0 <= i < |specs| && 0 <= j < |specs| && i != j
      ensures !(intent.mutations[i].path <= intent.mutations[j].path)
    {
      assert Captured(d, specs[i], intent.mutations[i]) && Captured(d, specs[j], intent.mutations[j]);
    }
  }

  /** A sealed journal with a valid intent makes the disk safe, whether or not it is published. */
  lemma SealedIsSafe(d: Disk, specs: seq<Spec>, intent: Intent)
    requires Coherent(d.tree) && Calm(d, specs) && AllCaptured(d, specs, intent) && ValidIntent(intent)
    requires Drafted(d, specs, intent.mutations)
    requires Pending in Stages(d) ==>
               d.sealed && d.box.intent == Some(intent) && d.marker == None && d.markerLimbo == {}
    ensures Undecided(d, intent) && Bound(d, intent, false)
  {
    hide Calm, AllCaptured, Contained, Bound, ValidIntent, Flat, Drafted, HasPayload;
    CalmIsFlat(d, specs, intent);
    BoundIsContained(d, intent, false);
    DraftIsBacked(d, specs, intent);
  }

  lemma DraftIsBacked(d: Disk, specs: seq<Spec>, intent: Intent)
    requires Drafted(d, specs, intent.mutations)
    ensures forall m :: m in intent.mutations ==> HasPayload(d, m.before) && HasPayload(d, m.after)
  {
    forall m | m in intent.mutations ensures HasPayload(d, m.before) && HasPayload(d, m.after) {
      var i :| 0 <= i < |intent.mutations| && intent.mutations[i] == m;
    }
  }

  lemma DraftIsValid(d: Disk, specs: seq<Spec>, intent: Intent)
    requires ValidId(intent.id) && |specs| > 0 && |intent.mutations| == |specs|
    requires Drafted(d, specs, intent.mutations)
    ensures ValidIntent(intent) && AllCaptured(d, specs, intent)
  {}

  class Transaction {
    const fs: FileSystem
    const places: Places
    const intent: Intent
    var committed: bool
    var done: bool

    constructor (fs: FileSystem, places: Places, intent: Intent)
      ensures this.fs == fs && this.places == places && this.intent == intent && !committed && !done
    {
      this.fs := fs;
      this.places := places;
      this.intent := intent;
      this.committed := false;
      this.done := false;
    }

    /** The participant with this role. */
    method Lookup(role: string) returns (m: Option<Mutation>)
      ensures m.Some? ==> m.value in intent.mutations && m.value.role == role
      ensures m.None? ==> forall i :: 0 <= i < |intent.mutations| ==> intent.mutations[i].role != role
    {
      for i := 0 to |intent.mutations|
        invariant forall j :: 0 <= j < i ==> intent.mutations[j].role != role
      {
        if intent.mutations[i].role == role {
          return Some(intent.mutations[i]);
        }
      }
      m := None;
    }

    /** Advance one participant to its after state. */
    method Apply(role: string) returns (ok: bool)
      requires fs.Valid() && ValidIntent(intent)
      modifies fs
      ensures fs.alive ==> old(fs.alive)
      ensures Ongoing(old(fs.disk), intent) ==> Ongoing(fs.disk, intent)
      ensures Undecided(old(fs.disk), intent) && Ongoing(old(fs.disk), intent) ==> Undecided(fs.disk, intent)
      ensures SameJournal(old(fs.disk), fs.disk) && Elsewhere(old(fs.disk), fs.disk, intent)
      ensures forall m :: m in intent.mutations && m.role == role ==>
                Advanced(old(fs.disk), fs.disk, places, m, ok) && (old(fs.Steady()) && !done ==>
                  fs.alive && ok == Turn(places, old(fs.disk.box), old(fs.disk.tree), m, m.after).Some?)
      ensures old(fs.Steady()) ==> fs.alive
      ensures ok ==> exists m :: m in intent.mutations && m.role == role
      ensures (forall m :: m in intent.mutations ==> m.role != role) ==> fs.disk == old(fs.disk)
      ensures forall m :: m in intent.mutations && m.role != role && Flat(intent) ==>
                Undisturbed(old(fs.disk), fs.disk, m.path)
    {
      ElsewhereNowhere(fs.disk, intent);
      forall m: Mutation { Untouched(fs.disk, m.path); }
      if done {
        return false;
      }
      var m := Lookup(role);
      if m.None? {
        return false;
      }
      ok := ApplyFound(m.value);
      RolesAreUnique(intent, m.value);
    }

    method ApplyFound(m: Mutation) returns (ok: bool)
      requires fs.Valid() && m in intent.mutations
      modifies fs
      ensures fs.alive ==> old(fs.alive)
      ensures Ongoing(old(fs.disk), intent) ==> Ongoing(fs.disk, intent)
      ensures Undecided(old(fs.disk), intent) && Ongoing(old(fs.disk), intent) ==> Undecided(fs.disk, intent)
      ensures SameJournal(old(fs.disk), fs.disk) && Elsewhere(old(fs.disk), fs.disk, intent)
      ensures Advanced(old(fs.disk), fs.disk, places, m, ok)
      ensures forall other :: other in intent.mutations && other.role != m.role && Flat(intent) ==>
                Undisturbed(old(fs.disk), fs.disk, other.path)
      ensures old(fs.Steady()) ==>
                fs.alive && ok == Turn(places, old(fs.disk.box), old(fs.disk.tree), m, m.after).Some?
    {
      ok := ConvergeMutation(fs, places, m, m.after);
      ApplyStep(old(fs.disk), fs.disk, intent, m);
    }

    /** Check one participant against its before or after state. */
    method Verify(role: string, after: bool) returns (ok: bool)
      requires ValidIntent(intent)
      modifies fs`alive
      ensures fs.alive ==> old(fs.alive)
      ensures forall m :: m in intent.mutations && m.role == role && ok ==>
                Matches(fs.disk.tree, m.path, Target(m, after))
      ensures old(fs.Steady()) ==> fs.alive
      ensures forall m :: m in intent.mutations && m.role == role && old(fs.Steady()) && !done ==>
                ok == Matches(fs.disk.tree, m.path, Target(m, after))
    {
      if done {
        return false;
      }
      var m := Lookup(role);
      if m.None? {
        return false;
      }
      RolesAreUnique(intent, m.value);
      var matches;
      ok, matches := MatchesState(fs, m.value.path, Target(m.value, after));
      ok := ok && matches;
    }

    /** Make the irreversible decision. It is made exactly when this succeeds; when it fails, the marker is
        left at some moment of being written. */
    method Commit() returns (ok: bool)
      requires fs.disk.marker == None ==> fs.disk.markerLimbo == {}
      modifies this`committed, fs
      ensures fs.alive ==> old(fs.alive)
      ensures SameFiles(old(fs.disk), fs.disk)
      ensures Ongoing(old(fs.disk), intent) ==> Ongoing(fs.disk, intent)
      ensures old(fs.disk.marker) == None ==>
                && Moment(fs.disk.marker, fs.disk.markerLimbo, intent.id)
                && (ok && !old(committed) <==> fs.disk.marker == Some(Decision(intent.id)) && fs.disk.markerLimbo == {})
      ensures ok && !old(committed) ==> old(fs.disk.marker) == None && AllMatch(old(fs.disk), intent, true)
      ensures committed == (old(committed) || ok)
      ensures old(fs.Steady()) && !done && !old(committed) ==>
                fs.alive && ok == (AllMatch(old(fs.disk), intent, true) && old(fs.disk.marker) == None)
    {
      if done {
        return false;
      }
      if committed {
        return true;
      }
      ok := VerifyIntentTarget(fs, intent, true);
      if !ok || fs.disk.marker != None {
        return false;
      }
      ok := WriteMarker(fs, intent.id);
      MomentsAreExplained(fs.disk.marker, fs.disk.markerLimbo, intent.id);
      SameFilesSameFates(old(fs.disk), fs.disk, intent);
      if ok {
        committed := true;
      }
    }

    /** Move every participant back and remove the journal. */
    method Abort() returns (ok: bool)
      requires fs.Valid() && (!done ==> fs.disk.stage == Pending)
      modifies this`done, fs
      ensures fs.alive ==> old(fs.alive)
      ensures fs.Valid() && Elsewhere(old(fs.disk), fs.disk, intent)
      ensures !AllKnown(old(fs.disk), intent) && !old(done) ==> !ok && fs.disk == old(fs.disk)
      // Nothing is taken back once the decision has been made, or while it cannot be told.
      ensures !old(done) && (old(committed) || Committed(old(fs.disk.marker), intent.id) != Some(false)) ==>
                !ok && fs.disk == old(fs.disk)
      ensures Ongoing(old(fs.disk), intent) && Undecided(old(fs.disk), intent)
              && Supported(old(fs.disk), places, intent, false) ==>
                Undecided(fs.disk, intent)
      ensures Ongoing(old(fs.disk), intent) && Supported(old(fs.disk), places, intent, false) ==> Safe(fs.disk, intent)
      ensures ok && !old(done) && Ongoing(old(fs.disk), intent) ==>
                Stages(fs.disk) == {NoJournal} && Finished(old(fs.disk), fs.disk, places, intent, false)
      ensures old(fs.Steady()) && !old(done) && !committed && Committed(old(fs.disk.marker), intent.id) == Some(false) ==>
                fs.alive && ok == Completes(old(fs.disk), places, intent, false)
    {
      ElsewhereNowhere(fs.disk, intent);
      if done {
        return true;
      }
      if committed || Committed(fs.disk.marker, intent.id) != Some(false) {
        return false;
      }
      ok := RecoverLoaded(fs, places, intent, false);
      if ok {
        done := true;
      }
    }

    /** Remove the journal of a committed transaction. */
    method Finalize() returns (ok: bool)
      requires !done ==> fs.disk.stage == Pending
      modifies this`done, fs
      ensures fs.alive ==> old(fs.alive)
      ensures SameFiles(old(fs.disk), fs.disk)
      ensures Ongoing(old(fs.disk), intent) && Bound(old(fs.disk), intent, true) ==>
                Safe(fs.disk, intent) && Bound(fs.disk, intent, true)
                && (Steered(old(fs.disk), intent, true) ==> Steered(fs.disk, intent, true))
      ensures Pending in Stages(fs.disk) ==> fs.disk.marker == old(fs.disk.marker)
      // The journal stays until the decision has been made.
      ensures !old(done) && old(fs.disk.marker) != Some(intent.id + "\n") ==> !ok && fs.disk == old(fs.disk)
      ensures ok && !old(done) && Ongoing(old(fs.disk), intent) ==> Stages(fs.disk) == {NoJournal}
      ensures old(fs.Steady()) && Committed(old(fs.disk.marker), intent.id) == Some(true) ==> ok && fs.alive
    {
      if done {
        return true;
      }
      var fails := fs.Hazard();
      if fails || Committed(fs.disk.marker, intent.id) != Some(true) {
        return false;
      }
      ok := FinalizeDirectory(fs, intent, true);
      if ok {
        done := true;
      }
    }
  }

  /** What applying one participant does. */
  ghost predicate Advanced(a: Disk, b: Disk, places: Places, m: Mutation, ok: bool)
  {
    && OnlyAt(a, b, m.path) && (!m.after.Absent? ==> KeepsTree(a, b)) && (Guard(m) ==> b == a)
    && (ok ==> Reached(b, m, true) && Matches(b.tree, m.path, m.after)
               && Turn(places, a.box, a.tree, m, m.after) == Some(b.tree)
               && b.limbo == Forget(a.limbo, TurnSyncs(m, a.tree, b.tree)))
  }

  lemma RolesAreUnique(intent: Intent, m: Mutation)
    requires ValidIntent(intent) && m in intent.mutations
    ensures forall other :: other in intent.mutations && other.role == m.role ==> other == m
  {}

  lemma ApplyStep(a: Disk, b: Disk, intent: Intent, m: Mutation)
    requires Coherent(a.tree) && m in intent.mutations
    requires OnlyAt(a, b, m.path) && (!m.after.Absent? ==> KeepsTree(a, b)) && (Guard(m) ==> b == a)
    requires forall f :: f in Fates(b, m.path) ==> f in Fates(a, m.path) || Fits(f, m.after)
    ensures Elsewhere(a, b, intent)
    ensures Ongoing(a, intent) ==> Ongoing(b, intent)
    ensures Ongoing(a, intent) && Undecided(a, intent) ==> Undecided(b, intent)
    ensures forall other :: other in intent.mutations && other.role != m.role && Flat(intent) ==>
              Undisturbed(a, b, other.path)
  {
    ElsewhereNowhere(a, intent);
    ElsewhereStep(a, a, b, intent, m);
    if Ongoing(a, intent) {
      var i :| 0 <= i < |intent.mutations| && intent.mutations[i] == m;
      ContainedStep(a, b, intent, i, m.after);
      ContainedKeepsSafe(a, b, intent);
    }
    forall other | other in intent.mutations && other.role != m.role && Flat(intent)
      ensures Undisturbed(a, b, other.path)
    {
      var i :| 0 <= i < |intent.mutations| && intent.mutations[i] == m;
      var j :| 0 <= j < |intent.mutations| && intent.mutations[j] == other;
      assert !(other.path <= m.path);
    }
  }

  /** Create the building directory. */
  method CreateBuilding(fs: FileSystem) returns (ok: bool)
    requires Stages(fs.disk) == {NoJournal} && fs.disk.root.Synced?
    modifies fs
    ensures fs.alive ==> old(fs.alive)
    ensures SameFiles(old(fs.disk), fs.disk) && fs.disk.root.Synced?
    ensures Stages(fs.disk) <= {NoJournal, Building}
    ensures ok ==> Stages(fs.disk) == {Building} && fs.disk.stageLimbo == {}
                   && !fs.disk.sealed && fs.disk.marker == None && fs.disk.markerLimbo == {}
    ensures old(fs.Steady()) ==> ok && fs.alive
  {
    var fails := fs.Hazard();
    if fails {
      return false;
    }
    fs.disk := fs.disk.(stage := Building, stageLimbo := {NoJournal}, box := Box(None, map[]), sealed := false,
                        marker := None, markerLimbo := {});
    ok := SyncTxRoot(fs);
  }

  /** Capture every participant, write the intent and publish the journal as PREPARED. */
  method Begin(fs: FileSystem, places: Places, id: string, specs: seq<Spec>)
    returns (ok: bool, tx: Transaction?, ghost intent: Intent)
    requires ValidId(id) && fs.Valid()
    modifies fs
    ensures fs.alive ==> old(fs.alive)
    ensures SameFiles(old(fs.disk), fs.disk)
    ensures ok ==> tx != null && fresh(tx) && tx.fs == fs && tx.places == places && tx.intent == intent
                   && !tx.committed && !tx.done
    ensures ok ==> intent.id == id && AllCaptured(fs.disk, specs, intent) && Prepared(fs.disk, intent)
    ensures ok && Calm(old(fs.disk), specs) ==> Undecided(fs.disk, intent) && Bound(fs.disk, intent, false)
    ensures !ok && Calm(old(fs.disk), specs) && Pending !in Stages(old(fs.disk)) ==>
              Pending !in Stages(fs.disk)
              || (Undecided(fs.disk, intent) && Bound(fs.disk, intent, false)
                  && AllCaptured(fs.disk, specs, intent))
    // Without faults, what can be captured is, and a refusal leaves no pending journal.
    ensures old(fs.Steady()) && old(fs.disk.stage) == NoJournal && Feasible(old(fs.disk), specs) ==> ok
    ensures old(fs.Steady()) ==> fs.alive && (!ok && Pending !in Stages(old(fs.disk)) ==> Pending !in Stages(fs.disk))
    // A refusal clears away what it has built.
    ensures old(fs.Steady()) && !ok && Stages(old(fs.disk)) == {NoJournal} ==> Stages(fs.disk) == {NoJournal}
    // Any journal an earlier process left behind blocks a new one.
    ensures old(fs.disk.stage) != NoJournal ==> !ok && fs.disk.stage == old(fs.disk.stage)
                                                && SameContents(old(fs.disk), fs.disk)
  {
    intent, tx := Intent(id, []), null;
    if |specs| == 0 || |specs| > MAX_MUTATIONS {
      return false, tx, intent;
    }
    ok := EnsureTransactionRoot(fs);
    if !ok || fs.disk.stage != NoJournal {
      return false, tx, intent;
    }
    CalmEverywhere(old(fs.disk), fs.disk, specs);
    var mutations;
    ok, mutations := Prepare(fs, id, specs);
    intent := Intent(id, mutations);
    if !ok {
      ghost var before := fs.disk;
      var cleaned := RemoveJournal(fs, Building);
      if Undecided(before, intent) && Bound(before, intent, false) {
        SettledMayLeavePending(before, fs.disk, intent, false);
        CapturedSameFiles(before, fs.disk, specs, intent);
      }
      return;
    }
    tx := new Transaction(fs, places, Intent(id, mutations));
  }

  lemma CalmEverywhere(a: Disk, b: Disk, specs: seq<Spec>)
    requires SameFiles(a, b)
    ensures Calm(a, specs) ==> Calm(b, specs)
    ensures Feasible(a, specs) ==> Feasible(b, specs)
  {
    if Calm(a, specs) {
      CalmSameFiles(a, b, specs);
    }
    if Feasible(a, specs) {
      forall s | s in specs ensures SpecFeasible(b, s) {
        assert SpecFeasible(a, s);
      }
    }
  }

  /** Build the journal and publish it. */
  method Prepare(fs: FileSystem, id: string, specs: seq<Spec>) returns (ok: bool, mutations: seq<Mutation>)
    requires ValidId(id) && 0 < |specs| <= MAX_MUTATIONS && fs.Valid()
    requires Stages(fs.disk) == {NoJournal} && fs.disk.root.Synced?
    modifies fs
    ensures fs.alive ==> old(fs.alive)
    ensures SameFiles(old(fs.disk), fs.disk)
    ensures ok ==> AllCaptured(fs.disk, specs, Intent(id, mutations)) && Prepared(fs.disk, Intent(id, mutations))
    ensures fs.disk.stage == Pending || Pending !in Stages(fs.disk)
    ensures Calm(old(fs.disk), specs) && (ok || Pending in Stages(fs.disk)) ==>
              Undecided(fs.disk, Intent(id, mutations)) && Bound(fs.disk, Intent(id, mutations), false)
              && AllCaptured(fs.disk, specs, Intent(id, mutations))
    ensures old(fs.Steady()) ==> fs.alive && (Feasible(old(fs.disk), specs) ==> ok)
    ensures old(fs.Steady()) && !ok ==> fs.disk.stage in {NoJournal, Building} && Pending !in Stages(fs.disk)
  {
    mutations := [];
    ok := CreateBuilding(fs);
    CalmEverywhere(old(fs.disk), fs.disk, specs);
    if !ok {
      return;
    }
    ok, mutations := CaptureAll(fs, specs);
    if !ok {
      return;
    }
    ghost var drafted := fs.disk;
    ok := Publish(fs, specs, Intent(id, mutations));
    DraftSameFiles(drafted, fs.disk, specs, mutations);
    DraftIsValid(fs.disk, specs, Intent(id, mutations));
    if Calm(old(fs.disk), specs) {
      CalmSameFiles(old(fs.disk), fs.disk, specs);
      SealedIsSafe(fs.disk, specs, Intent(id, mutations));
    }
  }

  lemma CapturedSameFiles(a: Disk, b: Disk, specs: seq<Spec>, intent: Intent)
    requires SameFiles(a, b)
    ensures AllCaptured(a, specs, intent) ==> AllCaptured(b, specs, intent)
  {
    assert forall p :: Slot(b, p) == Slot(a, p);
    assert forall s, m :: Captured(a, s, m) ==> Captured(b, s, m);
  }

  lemma CalmSameFiles(a: Disk, b: Disk, specs: seq<Spec>)
    requires Calm(a, specs) && SameFiles(a, b)
    ensures Calm(b, specs)
  {
    SameFilesSameOutcomes(a, b);
    forall p ensures Settled(b, p) <==> Settled(a, p) {}
  }

  lemma DraftSameFiles(a: Disk, b: Disk, specs: seq<Spec>, done: seq<Mutation>)
    requires Drafted(a, specs, done) && SameFiles(a, b) && b.box.payloads == a.box.payloads
    ensures Drafted(b, specs, done)
  {
    assert forall p :: Slot(b, p) == Slot(a, p);
    assert forall s :: HasPayload(b, s) <==> HasPayload(a, s);
  }

  /** Write the intent, seal the building directory and rename it to its pending name. */
  method Publish(fs: FileSystem, specs: seq<Spec>, intent: Intent) returns (ok: bool)
    requires Stages(fs.disk) == {Building} && fs.disk.root.Synced? && fs.disk.stageLimbo == {}
    requires fs.disk.marker == None && fs.disk.markerLimbo == {} && !fs.disk.sealed
    requires ValidId(intent.id) && |specs| > 0 && |intent.mutations| == |specs|
    requires Drafted(fs.disk, specs, intent.mutations)
    modifies fs
    ensures fs.alive ==> old(fs.alive)
    ensures SameFiles(old(fs.disk), fs.disk)
    ensures ok ==> Prepared(fs.disk, intent)
    ensures old(fs.Steady()) ==> ok && fs.alive
    ensures fs.disk.box.payloads == old(fs.disk.box.payloads) && ValidIntent(intent)
    ensures fs.disk.stage == Pending || Pending !in Stages(fs.disk)
    ensures Pending in Stages(fs.disk) ==>
              fs.disk.sealed && fs.disk.box.intent == Some(intent)
              && fs.disk.marker == None && fs.disk.markerLimbo == {}
  {
    DraftIsValid(fs.disk, specs, intent);
    var fails := fs.Hazard();
    if fails {
      return false;
    }
    fs.disk := fs.disk.(box := fs.disk.box.(intent := Some(intent)));
    fails := fs.Hazard();
    if fails {
      return false;
    }
    fs.disk := fs.disk.(sealed := true);
    ok := RenameJournal(fs, Pending);
  }
}
