/** The write-ahead journal as a value: which states a participant may be in, when a
    disk is safe for an intent, and what a torn COMMIT marker means. */
module Journal {
  import opened Options
  import opened Files
  import opened Disks
  import opened Names
  import opened Views

  const MAX_MUTATIONS := 16

  /** Is this entry the one of a captured state? What a link leads to is not part of the entry. */
  predicate Fits(fate: Fate, state: State)
  {
    match fate
    case Gone => state.Absent?
    case Torn => false
    case Holds(Directory) => false
    case Holds(Regular(data, mode)) =>
      state.RegularFile? && mode == state.mode && Sha(data) == state.sha
    case Holds(Symlink(target)) => state.Link? && target == state.target
  }

  function Visible(tree: Tree, path: Path): (fate: Fate)
  {
    if path in tree then Holds(tree[path]) else Gone
  }

  /** Does a reader find a captured state at a path, following a link to what it leads to? */
  predicate Matches(tree: Tree, path: Path, state: State)
  {
    && path != [] && Fits(Visible(tree, path), state)
    && (state.Absent? ==> Passable(tree, Dir(path)))
    && (state.Link? ==> Read(tree, path) == Some(state.sha))
  }

  /** Equality of states that ignores where the payload is kept. */
  predicate Alike(a: State, b: State)
  {
    match a
    case Absent => b.Absent?
    case RegularFile(sha, mode, _) => b.RegularFile? && b.sha == sha && b.mode == mode
    case Link(sha, target) => b.Link? && b.sha == sha && b.target == target
  }

  predicate Guard(m: Mutation) { Alike(m.before, m.after) }

  function Target(m: Mutation, after: bool): State
  {
    if after then m.after else m.before
  }

  lemma AlikeFits(fate: Fate, a: State, b: State)
    requires Alike(a, b)
    ensures Fits(fate, a) <==> Fits(fate, b)
  {}

  lemma AlikeMatches(tree: Tree, path: Path, a: State, b: State)
    requires Alike(a, b)
    ensures Matches(tree, path, a) <==> Matches(tree, path, b)
  {}

  /** No path matches two states unless they are alike, so the side of a participant is clear. */
  lemma MatchDetermines(tree: Tree, path: Path, a: State, b: State)
    requires Matches(tree, path, a) && Matches(tree, path, b)
    ensures Alike(a, b)
  {}

  // ---- the intent ----

  predicate ValidState(state: State)
  {
    match state
    case Absent => true
    case RegularFile(_, _, payload) => payload != "" && '/' !in payload
    case Link(_, target) => target.text != ""
  }

  predicate ValidId(id: string)
  {
    |id| == 32 && forall c :: c in id ==> HexDigit(c)
  }

  predicate ValidRole(role: string)
  {
    role != "" && '/' !in role && '\\' !in role
  }

  predicate ValidIntent(intent: Intent)
  {
    && ValidId(intent.id)
    && 0 < |intent.mutations| <= MAX_MUTATIONS
    && (forall m :: m in intent.mutations ==>
          ValidRole(m.role) && ValidState(m.before) && ValidState(m.after))
    && (forall i, j :: 0 <= i < j < |intent.mutations| ==>
          && intent.mutations[i].role != intent.mutations[j].role
          && intent.mutations[i].path != intent.mutations[j].path)
  }

  /** No participant is the root or lies below another one. The commands never nest paths. */
  ghost predicate Flat(intent: Intent)
  {
    && (forall m :: m in intent.mutations ==> m.path != [])
    && (forall i, j :: 0 <= i < |intent.mutations| && 0 <= j < |intent.mutations| && i != j ==>
          !(intent.mutations[i].path <= intent.mutations[j].path))
  }

  // ---- the commit marker ----

  function Decision(id: string): string { id + "\n" }

  /** `None` stands for the hard error that keeps an unexplained marker for diagnosis. */
  function ClassifyCommitMarker(data: string, id: string): (committed: Option<bool>)
  {
    if data == Decision(id) then Some(true)
    else if |data| < |Decision(id)| && Decision(id)[..|data|] == data then Some(false)
    else None
  }

  /** A missing marker is an undecided transaction. */
  function Committed(marker: Option<string>, id: string): (committed: Option<bool>)
  {
    if marker.None? then Some(false) else ClassifyCommitMarker(marker.value, id)
  }

  /** Every moment of an interrupted write is classified, only the last one as committed,
      and nothing but a moment of that write is accepted. */
  lemma MarkerClassification(data: string, id: string)
    ensures ClassifyCommitMarker(data, id).Some? <==> data <= Decision(id)
    ensures ClassifyCommitMarker(data, id) == Some(true) <==> data == Decision(id)
    ensures forall k :: 0 <= k <= |Decision(id)| ==>
              ClassifyCommitMarker(Decision(id)[..k], id) == Some(k == |Decision(id)|)
  {
    if data <= Decision(id) {
      assert Decision(id)[..|data|] == data;
    }
    forall k | 0 <= k <= |Decision(id)|
      ensures ClassifyCommitMarker(Decision(id)[..k], id) == Some(k == |Decision(id)|)
    {
      if k == |Decision(id)| {
        assert Decision(id)[..k] == Decision(id);
      }
    }
  }

  // ---- what the disk may hold while a transaction is open ----

  /** Whatever a crash leaves at a participant that moves is its before or its after state.
      Read-only guards are never written, so nothing is promised about them. */
  ghost predicate Contained(d: Disk, intent: Intent)
  {
    forall m, f :: m in intent.mutations && !Guard(m) && f in Outcomes(d, m.path) ==>
      Fits(f, m.before) || Fits(f, m.after)
  }

  /** Whatever a crash leaves, every participant that moves is on the given side. */
  ghost predicate Bound(d: Disk, intent: Intent, after: bool)
  {
    forall m, f :: m in intent.mutations && !Guard(m) && f in Outcomes(d, m.path) ==> Fits(f, Target(m, after))
  }

  predicate Backed(box: Box, state: State)
  {
    state.RegularFile? ==>
      && '/' !in state.payload
      && state.payload in box.payloads && Sha(box.payloads[state.payload]) == state.sha
  }

  predicate HasPayload(d: Disk, state: State)
  {
    Backed(d.box, state)
  }

  /** The sealed journal holds the intent and everything needed to reach either side. */
  ghost predicate Intact(d: Disk, intent: Intent)
  {
    && d.sealed && d.box.intent == Some(intent)
    && (forall m :: m in intent.mutations ==>
          HasPayload(d, m.before) && HasPayload(d, m.after))
    && (forall marker :: marker in Markers(d) ==> Committed(marker, intent.id).Some?)
    && (forall marker :: marker in Markers(d) && Committed(marker, intent.id) == Some(true) ==>
          marker == d.marker)
  }

  /** The invariant of the whole protocol. While a crash may leave the journal pending, it is
      intact and every participant is in one of its two states; as soon as a crash may leave no
      pending journal, every participant is on one side for good. */
  ghost predicate Safe(d: Disk, intent: Intent)
  {
    && ValidIntent(intent) && Flat(intent) && Coherent(d.tree)
    && (Pending in Stages(d) ==> Intact(d, intent) && Contained(d, intent))
    && (Stages(d) != {Pending} ==> Bound(d, intent, false) || Bound(d, intent, true))
  }

  /** Safe, and every attempt can only end on this side. */
  ghost predicate Steered(d: Disk, intent: Intent, after: bool)
  {
    && Safe(d, intent)
    && (Pending in Stages(d) ==> forall m :: m in Markers(d) ==> Committed(m, intent.id) == Some(after))
    && (Stages(d) != {Pending} ==> Bound(d, intent, after))
  }

  ghost predicate Undecided(d: Disk, intent: Intent)
  {
    Steered(d, intent, false)
  }

  lemma BoundIsContained(d: Disk, intent: Intent, after: bool)
    requires Bound(d, intent, after)
    ensures Contained(d, intent)
  {
    forall m, f | m in intent.mutations && !Guard(m) && f in Outcomes(d, m.path)
      ensures Fits(f, m.before) || Fits(f, m.after)
    {
      assert Fits(f, Target(m, after));
    }
  }

  /** Safety survives a crash at any moment. */
  lemma CrashKeepsSafe(d: Disk, d': Disk, intent: Intent)
    requires Safe(d, intent) && Crashed(d, d')
    ensures Safe(d', intent)
    ensures d'.stage != Pending ==> Bound(d', intent, false) || Bound(d', intent, true)
    ensures forall after :: Steered(d, intent, after) ==> Steered(d', intent, after)
  {
    CrashSettles(d, d');
    if d'.stage == Pending {
      CrashKeepsContained(d, d', intent);
    }
    if Stages(d') != {Pending} {
      assert Stages(d') == {d'.stage} + (if d'.root.Synced? then {} else {NoJournal});
      assert Stages(d) != {Pending};
      var side := Bound(d, intent, true);
      CrashKeepsBound(d, d', intent, side);
      if Bound(d, intent, false) {
        CrashKeepsBound(d, d', intent, false);
      }
    }
  }

  /** What a crash leaves was among the outcomes, and is the only one after it. */
  lemma CrashNarrows(d: Disk, d': Disk, path: Path, f: Fate)
    requires Crashed(d, d') && f in Outcomes(d', path)
    ensures f == Slot(d', path) && Possible(d, path, f)
  {
    CrashSettles(d, d');
    assert Lasting(d', path);
  }

  lemma CrashKeepsContained(d: Disk, d': Disk, intent: Intent)
    requires Contained(d, intent) && Crashed(d, d')
    ensures Contained(d', intent)
  {
    forall m, f | m in intent.mutations && !Guard(m) && f in Outcomes(d', m.path)
      ensures Fits(f, m.before) || Fits(f, m.after)
    {
      CrashNarrows(d, d', m.path, f);
    }
  }

  lemma CrashKeepsBound(d: Disk, d': Disk, intent: Intent, after: bool)
    requires Bound(d, intent, after) && Crashed(d, d')
    ensures Bound(d', intent, after)
  {
    forall m, f | m in intent.mutations && !Guard(m) && f in Outcomes(d', m.path)
      ensures Fits(f, Target(m, after))
    {
      CrashNarrows(d, d', m.path, f);
    }
  }

  // ---- which decision a later attempt reads ----

  /** One of the disks a crash may leave: what is visible, with this name and this marker. */
  function Left(d: Disk, stage: Stage, marker: Option<string>): (d': Disk)
    requires Coherent(d.tree) && stage in Stages(d) && marker in Markers(d)
    ensures Crashed(d, d')
  {
    d.(limbo := map[], unflushed := {}, root := Synced, stage := stage, stageLimbo := {},
       marker := marker, markerLimbo := {})
  }

  /** A moment of Commit's write: nothing yet, a part of the decision, or all of it, with earlier
      moments still possible until both the file and its directory are synced. */
  predicate Moment(marker: Option<string>, limbo: set<Option<string>>, id: string)
  {
    && (marker.Some? ==> marker.value <= Decision(id))
    && (forall m :: m in limbo ==> m.Some? ==> m.value < Decision(id))
    && (marker.None? ==> limbo == {})
    && (marker.Some? && marker.value != Decision(id) ==> None in limbo)
    && (limbo != {} ==> None in limbo)
  }

  /** Some later attempt may read this decision. */
  ghost predicate MayRead(d: Disk, intent: Intent, decision: bool)
  {
    exists d' :: Crashed(d, d') && d'.stage == Pending && Committed(d'.marker, intent.id) == Some(decision)
  }

  lemma MayReadMarker(d: Disk, intent: Intent, marker: Option<string>, decision: bool)
    requires Coherent(d.tree) && Pending in Stages(d) && marker in Markers(d)
    requires Committed(marker, intent.id) == Some(decision)
    ensures MayRead(d, intent, decision)
  {
    assert Crashed(d, Left(d, Pending, marker));
  }

  /** At any moment of Commit, every later attempt reads the visible decision if and only if the
      decision is not completely written or completely synced. In between, both are possible. */
  lemma DecisionIsStable(d: Disk, intent: Intent)
    requires Coherent(d.tree) && Pending in Stages(d) && Moment(d.marker, d.markerLimbo, intent.id)
    ensures (forall decision :: MayRead(d, intent, decision) ==> Committed(d.marker, intent.id) == Some(decision))
            <==> (d.marker == Some(Decision(intent.id)) ==> d.markerLimbo == {})
    ensures d.marker == Some(Decision(intent.id)) && d.markerLimbo != {} ==>
              MayRead(d, intent, true) && MayRead(d, intent, false)
  {
    if d.marker == Some(Decision(intent.id)) && d.markerLimbo != {} {
      MayReadMarker(d, intent, d.marker, true);
      MayReadMarker(d, intent, None, false);
    } else {
      forall decision | MayRead(d, intent, decision) ensures Committed(d.marker, intent.id) == Some(decision) {
        var d' :| Crashed(d, d') && d'.stage == Pending && Committed(d'.marker, intent.id) == Some(decision);
        MomentReads(d, intent.id, d'.marker);
      }
    }
  }

  /** Before the decision is complete, and after it is synced, all markers say the same. */
  lemma MomentReads(d: Disk, id: string, marker: Option<string>)
    requires Moment(d.marker, d.markerLimbo, id) && marker in Markers(d)
    requires d.marker == Some(Decision(id)) ==> d.markerLimbo == {}
    ensures Committed(marker, id) == Committed(d.marker, id)
  {
    if marker.Some? {
      MarkerClassification(marker.value, id);
    }
    if d.marker.Some? {
      MarkerClassification(d.marker.value, id);
    }
  }

  /** A decision to roll back is never revised. */
  lemma RollBackIsFinal(d: Disk, d': Disk, intent: Intent)
    requires Safe(d, intent) && Crashed(d, d') && d'.stage == Pending
    requires Committed(d.marker, intent.id) == Some(false)
    ensures Committed(d'.marker, intent.id) == Some(false)
  {}
}
