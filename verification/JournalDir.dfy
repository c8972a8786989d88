/** Steps on the journal directory: its name, its files and its COMMIT marker. */
module JournalDir {
  import opened Options
  import opened Files
  import opened Disks
  import opened Journal
  import opened DurableFs

  /** Nothing outside the journal differs. */
  ghost predicate SameFiles(a: Disk, b: Disk)
  {
    b.tree == a.tree && b.limbo == a.limbo && b.unflushed == a.unflushed
  }

  ghost predicate SameContents(a: Disk, b: Disk)
  {
    b.box == a.box && b.sealed == a.sealed && b.marker == a.marker && b.markerLimbo == a.markerLimbo
  }

  /** Create the transaction root if it is missing, and make it and the journal's current name
      final. A missing root holds no journal. */
  method EnsureTransactionRoot(fs: FileSystem) returns (ok: bool)
    modifies fs
    ensures fs.alive ==> old(fs.alive)
    ensures SameFiles(old(fs.disk), fs.disk) && SameContents(old(fs.disk), fs.disk)
    ensures Stages(fs.disk) <= Stages(old(fs.disk))
    ensures fs.disk.stage == old(fs.disk.stage)
    ensures ok ==> Stages(fs.disk) == {fs.disk.stage} && fs.disk.root.Synced? && fs.disk.stageLimbo == {}
    ensures old(fs.Steady()) ==> ok && fs.alive
  {
    var fails := fs.Hazard();
    if fails {
      return false;
    }
    if fs.disk.root == Missing {
      fs.disk := fs.disk.(root := Unsynced);
    }
    fails := fs.Hazard();
    if fails {
      return false;
    }
    fs.disk := fs.disk.(root := Synced);
    fails := fs.Hazard();
    if fails {
      return false;
    }
    fs.disk := fs.disk.(stageLimbo := {});
    ok := true;
  }

  /** Sync the transaction root directory. */
  method SyncTxRoot(fs: FileSystem) returns (ok: bool)
    modifies fs
    ensures fs.alive ==> old(fs.alive)
    ensures fs.disk == if ok then old(fs.disk).(stageLimbo := {}) else old(fs.disk)
    ensures old(fs.Steady()) ==> ok && fs.alive
  {
    var fails := fs.Hazard();
    if fails {
      return false;
    }
    fs.disk := fs.disk.(stageLimbo := {});
    ok := true;
  }

  /** Rename the journal directory, then sync the transaction root. */
  method RenameJournal(fs: FileSystem, name: Stage) returns (ok: bool)
    modifies fs
    ensures fs.alive ==> old(fs.alive)
    ensures ok ==> fs.disk == old(fs.disk).(stage := name, stageLimbo := {})
    ensures !ok ==> fs.disk == old(fs.disk)
                    || fs.disk == old(fs.disk).(stage := name, stageLimbo := Stages(old(fs.disk)))
    ensures old(fs.Steady()) ==> ok && fs.alive
  {
    var fails := fs.Hazard();
    if fails {
      return false;
    }
    fs.disk := fs.disk.(stage := name, stageLimbo := Stages(fs.disk));
    ok := SyncTxRoot(fs);
  }

  /** Remove the journal directory recursively if it has this name; its files go in any order. */
  method RemoveJournal(fs: FileSystem, name: Stage) returns (ok: bool)
    requires name != NoJournal
    modifies fs
    ensures fs.alive ==> old(fs.alive)
    ensures SameFiles(old(fs.disk), fs.disk) && fs.disk.root == old(fs.disk.root)
    ensures Stages(fs.disk) <= Stages(old(fs.disk)) + {NoJournal}
    ensures old(fs.disk.stage) != name ==>
              SameContents(old(fs.disk), fs.disk) && Stages(fs.disk) <= Stages(old(fs.disk))
    ensures ok ==> fs.disk.stageLimbo == {}
                   && fs.disk.stage == (if old(fs.disk.stage) == name then NoJournal else old(fs.disk.stage))
    ensures old(fs.Steady()) ==> ok && fs.alive
  {
    if fs.disk.stage == name {
      var fails := fs.Hazard();
      if fails {
        return false;
      }
      var left: Box := *;
      var leftMarker: Option<string> := *;
      fs.disk := fs.disk.(sealed := false, box := left, marker := leftMarker);
      fails := fs.Hazard();
      if fails {
        return false;
      }
      fs.disk := fs.disk.(stage := NoJournal, stageLimbo := Stages(fs.disk));
    }
    ok := SyncTxRoot(fs);
  }

  /** Create the COMMIT marker and write the decision into it, byte by byte. */
  method CreateMarker(fs: FileSystem, id: string) returns (ok: bool)
    requires fs.disk.marker == None && fs.disk.markerLimbo == {}
    modifies fs
    ensures fs.alive ==> old(fs.alive)
    ensures fs.disk == old(fs.disk).(marker := fs.disk.marker, markerLimbo := fs.disk.markerLimbo)
    ensures Moment(fs.disk.marker, fs.disk.markerLimbo, id)
    ensures ok ==> fs.disk.marker == Some(Decision(id)) && fs.disk.markerLimbo != {}
    ensures !ok ==> fs.disk.marker != Some(Decision(id))
    ensures old(fs.Steady()) ==> ok && fs.alive
  {
    var fails := fs.Hazard();
    if fails {
      return false;
    }
    fs.disk := fs.disk.(marker := Some(""), markerLimbo := {None});
    var written := 0;
    while written < |Decision(id)|
      invariant 0 <= written <= |Decision(id)|
      invariant fs.alive ==> old(fs.alive)
      invariant fs.disk == old(fs.disk).(marker := fs.disk.marker, markerLimbo := fs.disk.markerLimbo)
      invariant fs.disk.marker == Some(Decision(id)[..written]) && None in fs.disk.markerLimbo
      invariant Moment(fs.disk.marker, fs.disk.markerLimbo, id)
      invariant old(fs.Steady()) ==> fs.Steady()
    {
      fails := fs.Hazard();
      if fails {
        return false;
      }
      written := written + 1;
      assert Decision(id)[..written - 1] < Decision(id);
      fs.disk := fs.disk.(marker := Some(Decision(id)[..written]),
                          markerLimbo := fs.disk.markerLimbo + {fs.disk.marker});
    }
    assert Decision(id)[..written] == Decision(id);
    ok := true;
  }

  /** Sync the marker's data, then its directory entry. */
  method SealMarker(fs: FileSystem, id: string) returns (ok: bool)
    requires Moment(fs.disk.marker, fs.disk.markerLimbo, id)
    requires fs.disk.marker == Some(Decision(id)) && fs.disk.markerLimbo != {}
    modifies fs
    ensures fs.alive ==> old(fs.alive)
    ensures fs.disk == old(fs.disk).(markerLimbo := fs.disk.markerLimbo)
    ensures Moment(fs.disk.marker, fs.disk.markerLimbo, id)
    ensures ok <==> fs.disk.markerLimbo == {}
    ensures old(fs.Steady()) ==> ok && fs.alive
  {
    var fails := fs.Hazard();
    if fails {
      return false;
    }
    fs.disk := fs.disk.(markerLimbo := {None});
    fails := fs.Hazard();
    if fails {
      return false;
    }
    fs.disk := fs.disk.(markerLimbo := {});
    ok := true;
  }

  /** Create the COMMIT marker and make it final. At every moment a crash leaves nothing, a part of the
      decision or all of it; all of it for certain exactly on success. */
  method WriteMarker(fs: FileSystem, id: string) returns (ok: bool)
    requires fs.disk.marker == None && fs.disk.markerLimbo == {}
    modifies fs
    ensures fs.alive ==> old(fs.alive)
    ensures fs.disk == old(fs.disk).(marker := fs.disk.marker, markerLimbo := fs.disk.markerLimbo)
    ensures Moment(fs.disk.marker, fs.disk.markerLimbo, id)
    ensures ok <==> fs.disk.marker == Some(Decision(id)) && fs.disk.markerLimbo == {}
    ensures old(fs.Steady()) ==> ok && fs.alive
  {
    ok := CreateMarker(fs, id);
    if ok {
      ok := SealMarker(fs, id);
    }
  }

  /** Recovery explains every marker of such a moment, and only a visible decision can come back. */
  lemma MomentsAreExplained(marker: Option<string>, limbo: set<Option<string>>, id: string)
    requires Moment(marker, limbo, id)
    ensures forall m :: m in {marker} + limbo ==> Committed(m, id).Some?
    ensures forall m :: m in {marker} + limbo && Committed(m, id) == Some(true) ==> m == marker
  {
    forall m | m in {marker} + limbo
      ensures Committed(m, id).Some? && (Committed(m, id) == Some(true) ==> m == marker)
    {
      if m.Some? {
        MarkerClassification(m.value, id);
      }
    }
  }

  /** Safety only depends on the files, on the names the journal may have, and on its contents
      while it may still be pending. */
  lemma FewerStagesKeepSafe(a: Disk, b: Disk, intent: Intent)
    requires Safe(a, intent) && SameFiles(a, b) && Stages(b) <= Stages(a)
    requires Pending in Stages(b) ==> SameContents(a, b)
    ensures Safe(b, intent)
    ensures forall after :: Steered(a, intent, after) ==> Steered(b, intent, after)
  {
    SameFilesSameFates(a, b, intent);
    assert b.stage in Stages(b);
  }

  lemma SameFilesSameOutcomes(a: Disk, b: Disk)
    requires SameFiles(a, b)
    ensures forall p :: Slot(b, p) == Slot(a, p) && Fates(b, p) == Fates(a, p) && (Firm(b, p) <==> Firm(a, p))
    ensures forall p :: Outcomes(b, p) == Outcomes(a, p)
  {
    assert forall p :: Fates(b, p) == Fates(a, p);
    forall p ensures Firm(b, p) <==> Firm(a, p) {}
  }

  lemma SameFilesSameFates(a: Disk, b: Disk, intent: Intent)
    requires SameFiles(a, b)
    ensures Contained(a, intent) <==> Contained(b, intent)
    ensures forall after :: Bound(a, intent, after) <==> Bound(b, intent, after)
  {
    SameFilesSameOutcomes(a, b);
  }

  /** Once every participant is on one side for good, the journal may take any other name. */
  lemma SettledMayLeavePending(a: Disk, b: Disk, intent: Intent, after: bool)
    requires Safe(a, intent) && Bound(a, intent, after) && SameFiles(a, b)
    requires Pending in Stages(b) ==> Pending in Stages(a) && SameContents(a, b)
    ensures Safe(b, intent) && Bound(b, intent, after)
    ensures Steered(a, intent, after) ==> Steered(b, intent, after)
  {
    SameFilesSameFates(a, b, intent);
  }
}
