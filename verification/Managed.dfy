/** What the manifest says about the live files, on a disk at rest and inside a transaction. */
module Managed {
  import opened Options
  import opened Files
  import opened Disks
  import opened Views
  import opened Journal
  import opened DurableFs
  import opened EmptyParents
  import opened JournalDir
  import opened Recovery
  import opened Transactions

  /** The sibling that keeps the previous manifest. */
  function Bak(path: Path): Path
    requires path != []
  {
    path[..|path| - 1] + [path[|path| - 1] + ".bak"]
  }

  /** What loading the manifest reads: nothing is an empty manifest. */
  predicate Describes(slot: Fate, records: seq<Record>)
  {
    (slot == Gone && records == [])
    || (slot.Holds? && slot.node.Regular? && Lists(slot.node.data, records))
  }

  predicate StateDescribes(state: State, records: seq<Record>)
  {
    (state.Absent? && records == []) || (state.RegularFile? && Lists(state.sha.content, records))
  }

  function StateSha(state: State): Option<Digest>
  {
    if state.Absent? then None else Some(state.sha)
  }

  lemma FittingSlot(slot: Fate, state: State, records: seq<Record>)
    requires Fits(slot, state)
    ensures StateDescribes(state, records) <==> Describes(slot, records)
  {}

  predicate Apart(a: Path, b: Path) { !(a <= b) && !(b <= a) }

  /** The manifest, its backup and the live paths are distinct and do not nest. */
  predicate Layout(manifest: Path, records: seq<Record>)
  {
    && manifest != []
    && (forall r :: r in records ==> r.path != [] && Apart(r.path, manifest) && Apart(r.path, Bak(manifest)))
    && (forall i, j :: 0 <= i < j < |records| ==>
          records[i].name != records[j].name && Apart(records[i].path, records[j].path))
  }

  /** What a manifest says, and for the tools whose record is known to agree with the live file, the
      paths at which reading that file looks. */
  datatype Ledger = Ledger(records: seq<Record>, reach: map<string, set<Path>>)

  predicate Agrees(view: View, r: Record)
  {
    Follow(view, r.path, MAX_LINKS) == Some(r.sha)
  }

  predicate Vouches(view: View, ledger: Ledger)
  {
    forall r :: r in ledger.records && r.name in ledger.reach ==>
      Agrees(view, r) && Trail(view, r.path, MAX_LINKS) == ledger.reach[r.name]
  }

  /** What is there for good, apart from the manifest and its backup. */
  ghost function Standing(d: Disk, manifest: Path): View
    requires manifest != []
  {
    ForGood(d) - {manifest, Bak(manifest)}
  }

  /** The manifest holds these records for good, and every tool that is vouched for has a live path that
      leads, for good, to the recorded content. */
  ghost predicate Honest(d: Disk, manifest: Path, ledger: Ledger)
  {
    && Layout(manifest, ledger.records)
    && Lasting(d, manifest) && Describes(Slot(d, manifest), ledger.records)
    && Vouches(Standing(d, manifest), ledger)
  }

  /** Honest, and no crash brings a pending transaction back. */
  ghost predicate Idle(d: Disk, manifest: Path, ledger: Ledger)
  {
    Coherent(d.tree) && Pending !in Stages(d) && Honest(d, manifest, ledger)
  }

  lemma ExtendedVouches(a: View, b: View, ledger: Ledger)
    requires Vouches(a, ledger) && Extends(a, b)
    ensures Vouches(b, ledger)
  {
    forall r | r in ledger.records && r.name in ledger.reach
      ensures Agrees(b, r) && Trail(b, r.path, MAX_LINKS) == ledger.reach[r.name]
    {
      ExtendedReads(a, b, r.path, MAX_LINKS);
    }
  }

  // ---- inside a transaction ----

  /** The participant that moves at this path. */
  ghost function MoverAt(intent: Intent, path: Path): Mutation
    requires path in Movers(intent)
  {
    var m :| m in intent.mutations && !Guard(m) && m.path == path;
    m
  }

  lemma MoverIs(intent: Intent, m: Mutation)
    requires ValidIntent(intent) && m in intent.mutations && !Guard(m)
    ensures m.path in Movers(intent) && MoverAt(intent, m.path) == m
  {
    var o := MoverAt(intent, m.path);
    var i :| 0 <= i < |intent.mutations| && intent.mutations[i] == m;
    var j :| 0 <= j < |intent.mutations| && intent.mutations[j] == o;
  }

  function StateEntry(state: State): Entry
    requires !state.Absent?
  {
    match state
    case RegularFile(sha, _, _) => Plain(sha)
    case Link(_, target) => Leads(target.to)
  }

  /** What will be there for good once the participants are on this side. */
  ghost function SideView(d: Disk, intent: Intent, manifest: Path, after: bool): View
    requires manifest != []
  {
    (ForGood(d) - Movers(intent)
     + map p | p in Movers(intent) && !Target(MoverAt(intent, p), after).Absent? ::
         StateEntry(Target(MoverAt(intent, p), after)))
    - {manifest, Bak(manifest)}
  }

  /** The manifest participant holds these records on this side; when it is only a guard, it holds them
      now and for good. */
  ghost predicate Recorded(d: Disk, intent: Intent, manifest: Path, records: seq<Record>, after: bool)
  {
    exists m :: m in intent.mutations && m.path == manifest && StateDescribes(Target(m, after), records)
                && (Guard(m) ==> IsFile(d.tree, manifest) && Lasting(d, manifest) && Describes(Slot(d, manifest), records))
  }

  /** With all participants on this side, the disk is honest. */
  ghost predicate SideTrue(d: Disk, intent: Intent, manifest: Path, ledger: Ledger, after: bool)
  {
    && Layout(manifest, ledger.records) && Recorded(d, intent, manifest, ledger.records, after)
    && Vouches(SideView(d, intent, manifest, after), ledger)
  }

  /** A participant on one side for good: only one slot fits a state. */
  lemma BoundSlot(d: Disk, intent: Intent, after: bool, m: Mutation)
    requires Bound(d, intent, after) && m in intent.mutations && !Guard(m)
    ensures Fits(Slot(d, m.path), Target(m, after)) && Lasting(d, m.path)
  {
    assert Slot(d, m.path) in Fates(d, m.path);
    forall f | f in Outcomes(d, m.path) ensures f == Slot(d, m.path) {
      assert Fits(f, Target(m, after)) && Fits(Slot(d, m.path), Target(m, after));
    }
  }

  lemma SideIsForGood(d: Disk, intent: Intent, manifest: Path, after: bool)
    requires manifest != [] && Flat(intent) && Bound(d, intent, after)
    ensures Extends(SideView(d, intent, manifest, after), Standing(d, manifest))
  {
    var side := SideView(d, intent, manifest, after);
    forall p | p in side ensures p in Standing(d, manifest) && Standing(d, manifest)[p] == side[p] {
      if p in Movers(intent) {
        BoundSlot(d, intent, after, MoverAt(intent, p));
      }
    }
  }

  lemma SettledSideIsHonest(d: Disk, intent: Intent, manifest: Path, ledger: Ledger, after: bool)
    requires Flat(intent) && Bound(d, intent, after) && SideTrue(d, intent, manifest, ledger, after)
    ensures Honest(d, manifest, ledger)
  {
    var m :| m in intent.mutations && m.path == manifest && StateDescribes(Target(m, after), ledger.records)
             && (Guard(m) ==> IsFile(d.tree, manifest) && Lasting(d, manifest) && Describes(Slot(d, manifest), ledger.records));
    if !Guard(m) {
      BoundSlot(d, intent, after, m);
      FittingSlot(Slot(d, manifest), Target(m, after), ledger.records);
    }
    SideIsForGood(d, intent, manifest, after);
    ExtendedVouches(SideView(d, intent, manifest, after), Standing(d, manifest), ledger);
  }

  /** A step that keeps every file but the participants, the manifest and its backup keeps what will be
      there for good. */
  lemma SideExtends(a: Disk, b: Disk, intent: Intent, manifest: Path, after: bool)
    requires manifest != [] && FilesKept(a, b, Movers(intent) + {manifest, Bak(manifest)})
    ensures Extends(SideView(a, intent, manifest, after), SideView(b, intent, manifest, after))
  {
    hide Lasting, MoverAt;
    var x, y := SideView(a, intent, manifest, after), SideView(b, intent, manifest, after);
    forall p | p in x ensures p in y && y[p] == x[p] {
      if p !in Movers(intent) {
        KeptForGood(a, b, p);
      }
    }
  }

  lemma KeptForGood(a: Disk, b: Disk, path: Path)
    requires path in ForGood(a) && FileKept(a, b, path)
    ensures path in ForGood(b) && ForGood(b)[path] == ForGood(a)[path]
  {
    assert Fates(a, path) <= Outcomes(a, path) && Slot(b, path) in Fates(b, path);
    WhatCannotGoIsFirm(a, path);
  }

  /** A guarded manifest stays what it is. */
  ghost predicate ManifestKept(a: Disk, b: Disk, intent: Intent, manifest: Path)
  {
    forall m :: m in intent.mutations && m.path == manifest && Guard(m) && IsFile(a.tree, manifest) && Lasting(a, manifest) ==>
      Lasting(b, manifest) && Slot(b, manifest) == Slot(a, manifest)
  }

  lemma SideKept(a: Disk, b: Disk, intent: Intent, manifest: Path, ledger: Ledger, after: bool)
    requires SideTrue(a, intent, manifest, ledger, after)
    requires FilesKept(a, b, Movers(intent) + {manifest, Bak(manifest)}) && ManifestKept(a, b, intent, manifest)
    ensures SideTrue(b, intent, manifest, ledger, after)
  {
    SideExtends(a, b, intent, manifest, after);
    ExtendedVouches(SideView(a, intent, manifest, after), SideView(b, intent, manifest, after), ledger);
  }

  /** What the command writes. */
  function Written(intent: Intent, manifest: Path): set<Path>
    requires manifest != []
  {
    Movers(intent) + {manifest, Bak(manifest)}
  }

  /** No participant that is there disappears. */
  predicate Additive(intent: Intent)
  {
    forall m :: m in intent.mutations && m.after.Absent? ==> m.before.Absent?
  }

  /** The new side is reached for good, and the visible marker says so while the journal may be pending. */
  ghost predicate Forward(d: Disk, intent: Intent)
  {
    Safe(d, intent) && Bound(d, intent, true) && (Pending in Stages(d) ==> Committed(d.marker, intent.id) == Some(true))
  }

  /** Inside a transaction from `before` to `after`: either it can only be rolled back, to an honest old
      disk, or it has reached an honest new one, with a decision that is final or may still be lost. */
  ghost predicate Guarded(d: Disk, intent: Intent, manifest: Path, before: Ledger, after: Ledger)
  {
    && Additive(intent) && Coherent(d.tree)
    && ((Undecided(d, intent) && SideTrue(d, intent, manifest, before, false))
        || (Forward(d, intent) && SideTrue(d, intent, manifest, after, true)
            && (Steered(d, intent, true) || SideTrue(d, intent, manifest, before, false))))
  }

  lemma GuardedSettles(d: Disk, intent: Intent, manifest: Path, before: Ledger, after: Ledger)
    requires Guarded(d, intent, manifest, before, after) && Pending !in Stages(d)
    ensures Idle(d, manifest, before) || Idle(d, manifest, after)
  {
    if Undecided(d, intent) && SideTrue(d, intent, manifest, before, false) {
      SettledSideIsHonest(d, intent, manifest, before, false);
    } else {
      SettledSideIsHonest(d, intent, manifest, after, true);
    }
  }

  lemma CrashKeepsSide(a: Disk, b: Disk, intent: Intent, manifest: Path, ledger: Ledger, after: bool)
    requires SideTrue(a, intent, manifest, ledger, after) && Crashed(a, b)
    ensures SideTrue(b, intent, manifest, ledger, after)
  {
    CrashKeepsForGood(a, b);
    assert Extends(SideView(a, intent, manifest, after), SideView(b, intent, manifest, after));
    ExtendedVouches(SideView(a, intent, manifest, after), SideView(b, intent, manifest, after), ledger);
    if Lasting(a, manifest) {
      CrashKeepsSlot(a, b, manifest);
    }
  }

  /** A crash inside a transaction leaves a transaction that can be recovered the same way. */
  lemma CrashKeepsGuarded(a: Disk, b: Disk, intent: Intent, manifest: Path, before: Ledger, after: Ledger)
    requires Guarded(a, intent, manifest, before, after) && Crashed(a, b)
    ensures Guarded(b, intent, manifest, before, after)
  {
    CrashKeepsSafe(a, b, intent);
    if SideTrue(a, intent, manifest, before, false) {
      CrashKeepsSide(a, b, intent, manifest, before, false);
    }
    if !(Undecided(a, intent) && SideTrue(a, intent, manifest, before, false)) {
      CrashKeepsSide(a, b, intent, manifest, after, true);
      CrashKeepsForward(a, b, intent);
    }
  }

  lemma CrashKeepsForward(a: Disk, b: Disk, intent: Intent)
    requires Forward(a, intent) && Crashed(a, b)
    ensures Forward(b, intent) || Undecided(b, intent)
    ensures Steered(a, intent, true) ==> Forward(b, intent) && Steered(b, intent, true)
  {
    CrashKeepsSafe(a, b, intent);
    CrashKeepsBound(a, b, intent, true);
    CrashSettles(a, b);
  }

  /** A crash at rest changes nothing that is managed. */
  lemma CrashKeepsIdle(a: Disk, b: Disk, manifest: Path, ledger: Ledger)
    requires Idle(a, manifest, ledger) && Crashed(a, b)
    ensures Idle(b, manifest, ledger)
  {
    CrashSettles(a, b);
    CrashKeepsSlot(a, b, manifest);
    CrashKeepsForGood(a, b);
    ExtendedVouches(Standing(a, manifest), Standing(b, manifest), ledger);
  }

  // ---- recovery inside a transaction ----

  /** Rolling back puts back what was there: its directories are there for good all along. */
  lemma RollBackIsSupported(d: Disk, places: Places, intent: Intent)
    requires Flat(intent) && Contained(d, intent) && Additive(intent)
    ensures Supported(d, places, intent, false)
  {
    forall m, p | m in intent.mutations && !Guard(m) && !m.before.Absent? && SupportOf(d, m.path, p)
      ensures Durable(d, p)
    {
      assert forall f :: f in Outcomes(d, m.path) ==> Fits(f, m.before) || Fits(f, m.after);
      WhatCannotGoIsFirm(d, m.path);
    }
  }

  lemma ReachedIsSupported(d: Disk, places: Places, intent: Intent, after: bool)
    requires Flat(intent) && Bound(d, intent, after)
    ensures Supported(d, places, intent, after)
  {
    forall m, p | m in intent.mutations && !Guard(m) && !Target(m, after).Absent? && SupportOf(d, m.path, p)
      ensures Durable(d, p)
    {
      assert forall f :: f in Outcomes(d, m.path) ==> Fits(f, Target(m, after));
      WhatCannotGoIsFirm(d, m.path);
    }
  }
}
