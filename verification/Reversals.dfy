/** Why a transaction of hukou's commands can always be taken back. */
module Reversals {
  import opened Options
  import opened Files
  import opened Disks
  import opened Views
  import opened Journal
  import opened DurableFs
  import opened EmptyParents
  import opened Converge
  import opened Recovery
  import opened Completion
  import opened Managed

  predicate DirsKept(a: Tree, b: Tree)
  {
    forall dir :: dir in a && a[dir].Directory? ==> IsDir(b, dir)
  }

  /** The participant did not exist before the transaction. */
  predicate WasAbsent(intent: Intent, i: nat)
    requires i < |intent.mutations|
  {
    !Guard(intent.mutations[i]) && intent.mutations[i].before.Absent?
  }

  /** The directory of a participant that did not exist is kept, or nothing that is removed before lies in it. */
  predicate WellPlaced(places: Places, intent: Intent)
  {
    forall n :: 0 <= n < |intent.mutations| && WasAbsent(intent, n) ==>
      var dir := Dir(intent.mutations[n].path);
      Kept(places, dir) || forall i :: 0 <= i < n && WasAbsent(intent, i) ==> !(dir <= intent.mutations[i].path)
  }

  /** What the link of a captured state leads to is there, aside from what the command writes. */
  predicate Leading(tree: Tree, written: set<Path>, state: State)
  {
    state.Link? ==> Follow(Seen(tree) - written, state.target.to, MAX_LINKS - 1) == Some(state.sha)
  }

  /** A guarded participant is the file it was. */
  ghost predicate Unmoved(d: Disk, manifest: Path, m: Mutation)
    requires manifest != []
  {
    && m.path != Bak(manifest) && IsFile(d.tree, m.path) && Fits(Visible(d.tree, m.path), m.before)
    && (m.path == manifest ==> Lasting(d, manifest))
  }

  /** Whatever has been done so far, it can be taken back. */
  ghost predicate Reversible(d: Disk, places: Places, intent: Intent, manifest: Path)
    requires manifest != []
  {
    && WellPlaced(places, intent)
    && (forall m :: m in intent.mutations ==>
          && m.path != [] && IsDir(d.tree, Dir(m.path))
          && Leading(d.tree, Written(intent, manifest), m.before) && Leading(d.tree, Written(intent, manifest), m.after)
          && (Guard(m) ==> Unmoved(d, manifest, m)))
  }

  // ---- steps ----

  lemma ReversibleStep(a: Disk, b: Disk, places: Places, intent: Intent, manifest: Path)
    requires manifest != [] && ValidIntent(intent) && Reversible(a, places, intent, manifest) && DirsKept(a.tree, b.tree)
    requires FilesKept(a, b, Written(intent, manifest)) && ManifestKept(a, b, intent, manifest)
    ensures Reversible(b, places, intent, manifest)
  {
    hide WellPlaced, Leading, Unmoved, FilesKept, ManifestKept;
    forall m | m in intent.mutations
      ensures IsDir(b.tree, Dir(m.path))
      ensures Leading(b.tree, Written(intent, manifest), m.before) && Leading(b.tree, Written(intent, manifest), m.after)
      ensures Guard(m) ==> Unmoved(b, manifest, m)
    {
      LeadingStep(a, b, Written(intent, manifest), m.before);
      LeadingStep(a, b, Written(intent, manifest), m.after);
      if Guard(m) {
        UnmovedStep(a, b, intent, manifest, m);
      }
    }
  }

  lemma LeadingStep(a: Disk, b: Disk, written: set<Path>, state: State)
    requires FilesKept(a, b, written) && Leading(a.tree, written, state)
    ensures Leading(b.tree, written, state)
  {
    forall p | p in Seen(a.tree) - written
      ensures p in Seen(b.tree) - written && (Seen(b.tree) - written)[p] == (Seen(a.tree) - written)[p]
    {
      assert IsFile(a.tree, p) && FileKept(a, b, p);
    }
    if state.Link? {
      ExtendedReads(Seen(a.tree) - written, Seen(b.tree) - written, state.target.to, MAX_LINKS - 1);
    }
  }

  lemma UnmovedStep(a: Disk, b: Disk, intent: Intent, manifest: Path, m: Mutation)
    requires manifest != [] && ValidIntent(intent) && m in intent.mutations && Guard(m) && Unmoved(a, manifest, m)
    requires FilesKept(a, b, Written(intent, manifest)) && ManifestKept(a, b, intent, manifest)
    ensures Unmoved(b, manifest, m)
  {
    if m.path != manifest {
      GuardIsNoMover(intent, m);
      assert FileKept(a, b, m.path);
    } else {
      assert Slot(b, manifest) == Slot(a, manifest);
    }
  }

  lemma GuardIsNoMover(intent: Intent, m: Mutation)
    requires ValidIntent(intent) && m in intent.mutations && Guard(m)
    ensures m.path !in Movers(intent)
  {
    if m.path in Movers(intent) {
      var o := MoverAt(intent, m.path);
      var i :| 0 <= i < |intent.mutations| && intent.mutations[i] == m;
      var j :| 0 <= j < |intent.mutations| && intent.mutations[j] == o;
    }
  }

  // ---- what it is good for ----

  /** All participants are known, and can go back. */
  lemma ReversibleCompletes(d: Disk, places: Places, intent: Intent, manifest: Path)
    requires manifest != [] && Ongoing(d, intent) && Reversible(d, places, intent, manifest)
    ensures AllKnown(d, intent) && Detached(d.tree, intent) && Completes(d, places, intent, false)
  {
    hide WellPlaced, Leading, Unmoved, Detached, Completes, Known, Kept, AlreadyAbsent, Leaves;
    ReversibleIsDetached(d, places, intent, manifest);
    forall m | m in intent.mutations ensures Known(d, m) {
      ReversibleIsKnown(d, places, intent, manifest, m);
    }
    ReversibleIsAnchored(d, places, intent, manifest);
    CompletesExactly(d, places, intent, false);
  }

  lemma ReversibleIsDetached(d: Disk, places: Places, intent: Intent, manifest: Path)
    requires manifest != [] && Reversible(d, places, intent, manifest)
    ensures Detached(d.tree, intent)
  {
    forall m, s | m in intent.mutations && s in {m.before, m.after} ensures LinkDetached(d.tree, intent, s) {
      LeadingIsDetached(d.tree, intent, manifest, s);
    }
  }

  lemma LeadingIsDetached(tree: Tree, intent: Intent, manifest: Path, s: State)
    requires manifest != [] && Leading(tree, Written(intent, manifest), s)
    ensures LinkDetached(tree, intent, s)
  {
    if s.Link? {
      ExtendedReads(Seen(tree) - Written(intent, manifest), Seen(tree) - Movers(intent), s.target.to, MAX_LINKS - 1);
    }
  }

  /** A participant is what its entry says. */
  lemma EntryMatches(d: Disk, places: Places, intent: Intent, manifest: Path, m: Mutation, s: State)
    requires manifest != [] && Coherent(d.tree) && Reversible(d, places, intent, manifest)
    requires m in intent.mutations && (s == m.before || s == m.after) && Fits(Visible(d.tree, m.path), s)
    ensures Matches(d.tree, m.path, s)
  {
    hide WellPlaced, Unmoved, Fits;
    LeadingIsDetached(d.tree, intent, manifest, s);
    assert OtherFiles(d.tree, d.tree, intent);
    DirIsPassable(d.tree, Dir(m.path));
    MatchesEntry(d.tree, d.tree, intent, m.path, s);
  }

  lemma DirIsPassable(tree: Tree, dir: Path)
    requires Coherent(tree) && IsDir(tree, dir)
    ensures Passable(tree, dir)
  {
    forall p | p in tree && p <= dir ensures tree[p].Directory? {
      if p == dir {
        assert dir != [];
      } else {
        AncestorsAreDirectories(tree, dir, p);
      }
    }
  }

  lemma ReversibleIsKnown(d: Disk, places: Places, intent: Intent, manifest: Path, m: Mutation)
    requires manifest != [] && Ongoing(d, intent) && Reversible(d, places, intent, manifest) && m in intent.mutations
    ensures Known(d, m)
  {
    hide WellPlaced, Leading, Fits, Matches;
    assert Slot(d, m.path) == Visible(d.tree, m.path);
    if !Guard(m) {
      assert Slot(d, m.path) in Outcomes(d, m.path);
    }
    if Fits(Visible(d.tree, m.path), m.before) {
      EntryMatches(d, places, intent, manifest, m, m.before);
    } else {
      EntryMatches(d, places, intent, manifest, m, m.after);
    }
  }

  lemma ReversibleIsAnchored(d: Disk, places: Places, intent: Intent, manifest: Path)
    requires manifest != [] && Reversible(d, places, intent, manifest)
    ensures Anchored(d.tree, places, intent, false)
  {
    hide Kept, Leading, Unmoved;
    forall n | 0 <= n < |intent.mutations| && AlreadyAbsent(d.tree, intent.mutations[n], false)
      ensures var dir := Dir(intent.mutations[n].path);
              && IsDir(d.tree, dir)
              && (Kept(places, dir)
                  || forall i :: 0 <= i < n && Leaves(d.tree, intent, false, i) ==> !(dir <= intent.mutations[i].path))
    {
      assert intent.mutations[n] in intent.mutations && WasAbsent(intent, n);
      assert forall i :: 0 <= i < n && Leaves(d.tree, intent, false, i) ==> WasAbsent(intent, i);
    }
    AnchoredSimply(d.tree, places, intent, false);
  }

  /** Once all participants have their new entries, a reader finds the new states. */
  lemma ReversibleMatches(d: Disk, places: Places, intent: Intent, manifest: Path)
    requires manifest != [] && Ongoing(d, intent) && Reversible(d, places, intent, manifest)
    requires forall m :: m in intent.mutations ==> Reached(d, m, true)
    ensures AllMatch(d, intent, true)
  {
    hide WellPlaced, Leading, Unmoved, Fits, Matches;
    forall m | m in intent.mutations ensures Matches(d.tree, m.path, m.after) {
      assert Slot(d, m.path) == Visible(d.tree, m.path);
      EntryMatches(d, places, intent, manifest, m, m.after);
    }
  }

  /** A kept directory is there after everything has been taken back. */
  lemma KeptDirIsThere(a: Disk, b: Disk, places: Places, intent: Intent, manifest: Path, dir: Path)
    requires manifest != [] && Ongoing(a, intent) && Reversible(a, places, intent, manifest)
    requires Finished(a, b, places, intent, false) && Kept(places, dir) && IsDir(a.tree, dir)
    ensures IsDir(b.tree, dir)
  {
    hide Reversible, Finished, Detached, AllKnown;
    ReversibleCompletes(a, places, intent, manifest);
    FinishedDirs(a, b, places, intent, false, dir);
    if dir != [] {
      assert Stays(a.tree, places, intent, false, |intent.mutations|, dir);
    }
  }
}
