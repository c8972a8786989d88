/** How the rollback command chooses its target, and where repeating it leads. */
module RollbackCommand {
  import opened Options
  import opened Names
  import opened Lineage
  import opened LineageChecks
  import opened Activation
  import opened Entry

  datatype Outcome = Done | AlreadyThere | Failed

  /** The digests of the artifacts the store holds, by tag. */
  type Artifacts = map<string, string>

  /** Digests are recorded in lower case, as the commands compute them. */
  predicate LowerCase(events: seq<Event>)
  {
    forall e :: e in events ==> Lower(e.sha) == e.sha
  }

  /** The events of a lineage only grow, by one event, and stay in lower case. */
  predicate Grew(before: Line, after: Line)
  {
    && |after.events| == |before.events| + 1 && after.events[..|before.events|] == before.events
    && after.activeId == after.events[|before.events|].id
    && (LowerCase(before.events) ==> LowerCase(after.events))
  }

  /** What the last event reverts. */
  function Reverts(l: Line): string
  {
    if l.events == [] then "" else l.events[|l.events| - 1].revertsId
  }

  lemma AppendGrows(before: Line, e: Event)
    requires Lower(e.sha) == e.sha || exists j :: 0 <= j < |before.events| && before.events[j].sha == e.sha
    ensures Grew(before, Appended(before, e))
  {}

  /** No two rollback targets share an id. */
  lemma TargetIsUnique(l: Line, a: nat, b: nat)
    requires l.events != [] && Unique(l.events) && a < |Below(l)| && b < |Below(l)| && Below(l)[a].id == Below(l)[b].id
    ensures a == b
  {
    if a < b {
      PastIsDistinct(l.events, |l.events| - 1, a + 1, b + 1);
    } else if b < a {
      PastIsDistinct(l.events, |l.events| - 1, b + 1, a + 1);
    }
  }

  /** Recording the rollback to an ancestor. */
  lemma AncestorGrows(l: Line, id: string, at: Timestamp, k: nat)
    requires ValidLine(l) && k < |Below(l)|
    ensures var after := Appended(l, RollbackEvent(l, Below(l)[k], id, at));
            Grew(l, after) && after.activeId == id && after.sha == Below(l)[k].sha && Reverts(after) == l.activeId
    ensures l.events != [] && Unique(l.events)
  {
    hide Below;
    var j := AncestorPosition(l, k);
    AppendGrows(l, RollbackEvent(l, Below(l)[k], id, at));
  }

  /** Record an ancestor on a copy of the entry, and take the copy over if the artifact matches. */
  method ActivateAncestor(entry: Entry, targetId: string, id: string, at: Timestamp, digest: string, ghost k: nat)
    returns (ok: bool)
    requires ValidLine(entry.Value()) && k < |Below(entry.Value())| && Below(entry.Value())[k].id == targetId
    modifies entry
    ensures ok <==> ValidEventId(id) && NewId(old(entry.Value()), id) && at.Rfc3339?
                    && Below(old(entry.Value()))[k].sha == digest
    ensures !ok ==> entry.Value() == old(entry.Value())
    ensures ok ==> ValidLine(entry.Value()) && Stack(entry.Value()) == old(Stack(entry.Value()))[k + 1..]
    ensures ok ==> Grew(old(entry.Value()), entry.Value()) && entry.activeId == id
                   && Reverts(entry.Value()) == old(entry.activeId)
  {
    hide Stack, NewId, ValidEventId, Unique, ValidLine, Grew, Reverts, RollbackEvent, Appended, Below;
    ghost var l := entry.Value();
    AncestorGrows(l, id, at, k);
    assert Below(l)[k] in Below(l);
    var prepared := new Entry(entry.tag, entry.sha, at);
    prepared.Assign(entry);
    ghost var found;
    ok, found := prepared.RecordRollback(id, targetId, at);
    if ok {
      TargetIsUnique(l, found, k);
    }
    ok := ok && prepared.sha == digest;
    if ok {
      entry.Assign(prepared);
    }
  }

  /** The same for the original. */
  method ActivateOriginal(entry: Entry, id: string, at: Timestamp, digest: string) returns (ok: bool)
    requires ValidLine(entry.Value())
    modifies entry
    ensures ok <==> ValidInput(id, ORIGINAL, digest, at) && NewId(old(entry.Value()), id)
                    && FreeTag(old(entry.Value()), ORIGINAL, digest)
    ensures !ok ==> entry.Value() == old(entry.Value())
    ensures ok ==> ValidLine(entry.Value()) && Stack(entry.Value()) == [Version(ORIGINAL, Lower(digest))]
    ensures ok ==> Grew(old(entry.Value()), entry.Value()) && entry.activeId == id
                   && Reverts(entry.Value()) == old(entry.activeId)
  {
    var prepared := new Entry(entry.tag, entry.sha, at);
    prepared.Assign(entry);
    ok := prepared.RecordRestoreOriginal(id, digest, at);
    if ok {
      LowerTwice(digest);
      AppendGrows(entry.Value(), RestoreEvent(entry.Value(), id, digest, at));
      entry.Assign(prepared);
    }
  }

  datatype Choice = NoTarget | Original | Current | Ancestor(tag: string, id: string)

  /** `k` is the first position below the top with this tag. */
  predicate Nearest(stack: seq<Version>, tag: string, k: nat)
  {
    0 < k < |stack| && stack[k].tag == tag && forall j :: 0 < j < k ==> stack[j].tag != tag
  }

  /** The choice names the rollback target at position `k`. */
  predicate Aims(l: Line, to: string, choice: Choice, k: nat)
    requires l.events != []
  {
    choice.Ancestor? ==>
      && k < |Below(l)| && Below(l)[k].id == choice.id && Below(l)[k].tag == choice.tag
      && (if to == "" then k == 0 else to != ORIGINAL && NearestBelow(l, to, k))
  }

  /** The choice when no target is named. */
  function DefaultChoice(l: Line): Choice
    requires l.events != []
  {
    if Below(l) == [] then NoTarget
    else if Below(l)[0].tag == l.tag then Current
    else Ancestor(Below(l)[0].tag, Below(l)[0].id)
  }

  method ChooseDefault(l: Line) returns (choice: Choice)
    requires ValidLine(l)
    ensures choice == DefaultChoice(l) && Aims(l, "", choice, 0)
  {
    var previous := Previous(l);
    if previous.None? {
      return NoTarget;
    }
    choice := if previous.value.tag == l.tag then Current else Ancestor(previous.value.tag, previous.value.id);
  }

  /** The previous activation, the original, or the nearest ancestor with a tag. */
  method ChooseTarget(l: Line, to: string) returns (choice: Choice, ghost k: nat)
    requires ValidLine(l)
    ensures Aims(l, to, choice, k)
    ensures choice == Original ==> to == ORIGINAL
    ensures to == "" ==> choice == DefaultChoice(l)
    ensures to != "" ==> (choice == Current <==> to == l.tag)
    ensures choice == NoTarget && to != "" ==> to != ORIGINAL && forall e :: e in Below(l) ==> e.tag != to
    ensures to == ORIGINAL && l.tag != ORIGINAL ==> choice == Original
  {
    k := 0;
    if to == "" {
      choice := ChooseDefault(l);
      return;
    }
    if to == l.tag {
      return Current, k;
    }
    if to == ORIGINAL {
      return Original, k;
    }
    var ancestor;
    ancestor, k := FindAncestorByTag(l, to);
    choice := if ancestor.None? then NoTarget else Ancestor(to, ancestor.value.id);
  }

  /** What restoring the original needs: its backup with the digest it was adopted with, which the history
      does not contradict. */
  predicate CanRestore(l: Line, id: string, at: Timestamp, artifacts: Artifacts, anchor: string)
  {
    && ORIGINAL in artifacts && (anchor != "" ==> artifacts[ORIGINAL] == anchor)
    && ValidInput(id, ORIGINAL, artifacts[ORIGINAL], at) && NewId(l, id) && FreeTag(l, ORIGINAL, artifacts[ORIGINAL])
  }

  /** The rollback target at position `k` of the stack is the one that is asked for, and not active already. */
  predicate Target(l: Line, to: string, k: nat)
    requires l.events != []
  {
    && 0 < k <= |Below(l)|
    && (if to == "" then k == 1 && Below(l)[0].tag != l.tag else to != ORIGINAL && to != l.tag && NearestBelow(l, to, k - 1))
  }

  /** What going back to it needs: a new event, and its artifact with the digest on record. */
  predicate CanGoBack(l: Line, to: string, id: string, at: Timestamp, artifacts: Artifacts, k: nat)
    requires l.events != []
  {
    && Target(l, to, k) && ValidEventId(id) && NewId(l, id) && at.Rfc3339?
    && Below(l)[k - 1].tag in artifacts && artifacts[Below(l)[k - 1].tag] == Below(l)[k - 1].sha
  }

  predicate Held(artifacts: Artifacts, v: Version)
  {
    v.tag in artifacts && artifacts[v.tag] == v.sha
  }

  /** What a completed rollback did to the stack. */
  predicate WentBack(before: seq<Version>, after: seq<Version>, to: string, k: nat)
  {
    && 0 < k < |before| && after == before[k..]
    && (if to == "" then k == 1 else Nearest(before, to, k))
  }

  lemma AimIsNearest(l: Line, to: string, choice: Choice, k: nat)
    requires l.events != [] && Aims(l, to, choice, k) && choice.Ancestor?
    ensures WentBack(Stack(l), Stack(l)[k + 1..], to, k + 1)
  {
    BelowIsStack(l);
  }

  /** Activate what was chosen. The artifact must have the digest on record, the original the one it
      was adopted with. */
  method Follow(entry: Entry, to: string, choice: Choice, id: string, at: Timestamp, artifacts: Artifacts, anchor: string,
                ghost k: nat)
    returns (ok: bool)
    requires ValidLine(entry.Value()) && (choice == Original || choice.Ancestor?)
    requires Aims(entry.Value(), to, choice, k)
    modifies entry
    ensures !ok ==> entry.Value() == old(entry.Value())
    ensures ok ==> ValidLine(entry.Value()) && Grew(old(entry.Value()), entry.Value()) && entry.activeId == id
                   && Reverts(entry.Value()) == old(entry.activeId)
    ensures ok && choice.Ancestor? ==> WentBack(old(Stack(entry.Value())), Stack(entry.Value()), to, k + 1)
    ensures ok && choice == Original ==>
              && ORIGINAL in artifacts && (anchor != "" ==> artifacts[ORIGINAL] == anchor)
              && Stack(entry.Value()) == [Version(ORIGINAL, Lower(artifacts[ORIGINAL]))]
    ensures choice == Original ==> (ok <==> CanRestore(old(entry.Value()), id, at, artifacts, anchor))
    ensures choice.Ancestor? ==>
              (ok <==> ValidEventId(id) && NewId(old(entry.Value()), id) && at.Rfc3339?
                       && choice.tag in artifacts && artifacts[choice.tag] == Below(old(entry.Value()))[k].sha)
  {
    if choice == Original {
      if ORIGINAL !in artifacts || (anchor != "" && artifacts[ORIGINAL] != anchor) {
        return false;
      }
      ok := ActivateOriginal(entry, id, at, artifacts[ORIGINAL]);
    } else {
      if choice.tag !in artifacts {
        return false;
      }
      AimIsNearest(entry.Value(), to, choice, k);
      ok := ActivateAncestor(entry, choice.id, id, at, artifacts[choice.tag], k);
    }
  }

  /** The nearest rollback target with this tag has its artifact, with the digest on record. */
  ghost predicate NamedAndHeld(l: Line, to: string, artifacts: Artifacts)
    requires l.events != []
  {
    exists j :: 0 <= j < |Below(l)| && Below(l)[j].tag == to && (forall i :: 0 <= i < j ==> Below(l)[i].tag != to)
                && to in artifacts && artifacts[to] == Below(l)[j].sha
  }

  /** Roll one tool back. */
  method Rollback(entry: Entry, to: string, id: string, at: Timestamp, artifacts: Artifacts, anchor: string)
    returns (outcome: Outcome, ghost k: nat)
    requires ValidLine(entry.Value())
    modifies entry
    ensures outcome != Done ==> entry.Value() == old(entry.Value())
    ensures outcome == Done ==> ValidLine(entry.Value()) && Grew(old(entry.Value()), entry.Value()) && entry.activeId == id
    // It is completed exactly when there is a target and nothing speaks against going back to it.
    ensures to != ORIGINAL ==>
              (outcome == Done <==> exists j :: CanGoBack(old(entry.Value()), to, id, at, artifacts, j))
    // A named tag goes back to its nearest occurrence whenever the artifact is there with the digest on record.
    ensures to !in {"", ORIGINAL, old(entry.tag)} && ValidEventId(id) && NewId(old(entry.Value()), id) && at.Rfc3339?
            && NamedAndHeld(old(entry.Value()), to, artifacts) ==>
              outcome == Done
    // Every target but the original pops: the default by one, a tag to its nearest occurrence.
    ensures outcome == Done && to != ORIGINAL ==> WentBack(old(Stack(entry.Value())), Stack(entry.Value()), to, k)
    ensures outcome == Done && to == ORIGINAL ==>
              && ORIGINAL in artifacts && (anchor != "" ==> artifacts[ORIGINAL] == anchor)
              && Stack(entry.Value()) == [Version(ORIGINAL, Lower(artifacts[ORIGINAL]))]
    ensures to == ORIGINAL && old(entry.tag) != ORIGINAL ==>
              (outcome == Done <==> CanRestore(old(entry.Value()), id, at, artifacts, anchor))
    ensures to == ORIGINAL == old(entry.tag) ==> outcome == AlreadyThere
    ensures outcome == Done && to != ORIGINAL ==>
              var before, after := old(Stack(entry.Value())), Stack(entry.Value());
              && 0 < k < |before| && after == before[k..]
              && (if to == "" then k == 1 else before[k].tag == to && forall j :: 0 < j < k ==> before[j].tag != to)
    // A tag that is active already is left alone, and nothing else is said to be there already.
    ensures to != "" ==> (outcome == AlreadyThere <==> to == old(entry.tag))
    // The event names what it went back from.
    ensures outcome == Done ==> entry.events != [] && entry.events[|entry.events| - 1].revertsId == old(entry.activeId)
    // The default does nothing when the next target carries the current tag.
    ensures to == "" ==> (outcome == AlreadyThere <==> Stuck(old(Stack(entry.Value()))))
    ensures to == "" && Proceeds(old(entry.Value()), id, at, artifacts) ==> outcome == Done
  {
    hide ValidLine, Stack, WentBack, Grew, CanRestore, LowerCase, NewId, FreeTag, CanGoBack, Aims, NamedAndHeld;
    var l := entry.Value();
    HasEvents(l);
    var choice;
    choice, k := ChooseTarget(l, to);
    TopOfStack(l);
    if to != ORIGINAL {
      OnlyTarget(l, to, choice, k, id, at, artifacts);
    }
    if to !in {"", ORIGINAL, l.tag} && ValidEventId(id) && NewId(l, id) && at.Rfc3339? && NamedAndHeld(l, to, artifacts) {
      NamedTargetIsThere(l, to, id, at, artifacts);
    }
    if choice == NoTarget {
      return Failed, k;
    }
    if choice == Current {
      return AlreadyThere, k;
    }
    var ok := Follow(entry, to, choice, id, at, artifacts, anchor, k);
    outcome, k := if ok then Done else Failed, k + 1;
    if ok && to != ORIGINAL {
      WentBackSpelledOut(Stack(l), Stack(entry.Value()), to, k);
    }
    if ok {
      HasEvents(entry.Value());
    }
  }

  lemma NamedTargetIsThere(l: Line, to: string, id: string, at: Timestamp, artifacts: Artifacts)
    requires l.events != [] && to !in {"", ORIGINAL, l.tag} && ValidEventId(id) && NewId(l, id) && at.Rfc3339?
    requires NamedAndHeld(l, to, artifacts)
    ensures exists j :: CanGoBack(l, to, id, at, artifacts, j)
  {
    hide NewId, Below;
    var j :| 0 <= j < |Below(l)| && Below(l)[j].tag == to && (forall i :: 0 <= i < j ==> Below(l)[i].tag != to)
             && to in artifacts && artifacts[to] == Below(l)[j].sha;
    assert CanGoBack(l, to, id, at, artifacts, j + 1);
  }

  lemma WentBackSpelledOut(before: seq<Version>, after: seq<Version>, to: string, k: nat)
    requires WentBack(before, after, to, k)
    ensures 0 < k < |before| && after == before[k..]
    ensures if to == "" then k == 1 else before[k].tag == to && forall j :: 0 < j < k ==> before[j].tag != to
  {}

  lemma HasEvents(l: Line)
    requires ValidLine(l)
    ensures l.events != []
  {}

  /** There is at most one target, and the choice names it. */
  lemma OnlyTarget(l: Line, to: string, choice: Choice, k: nat, id: string, at: Timestamp, artifacts: Artifacts)
    requires l.events != [] && Aims(l, to, choice, k) && to != ORIGINAL
    requires to == "" ==> choice == DefaultChoice(l)
    requires to != "" ==> (choice == Current <==> to == l.tag) && choice != Original
    requires choice == NoTarget && to != "" ==> forall e :: e in Below(l) ==> e.tag != to
    ensures choice.Ancestor? ==>
              ((exists j :: CanGoBack(l, to, id, at, artifacts, j))
               <==> ValidEventId(id) && NewId(l, id) && at.Rfc3339?
                    && choice.tag in artifacts && artifacts[choice.tag] == Below(l)[k].sha)
    ensures !choice.Ancestor? ==> !exists j :: CanGoBack(l, to, id, at, artifacts, j)
  {
    hide NewId;
    if choice.Ancestor? {
      assert Target(l, to, k + 1);
      forall j: nat | Target(l, to, j) ensures j == k + 1 {}
      if j :| CanGoBack(l, to, id, at, artifacts, j) {
        assert j == k + 1;
      }
      if ValidEventId(id) && NewId(l, id) && at.Rfc3339? && choice.tag in artifacts && artifacts[choice.tag] == Below(l)[k].sha {
        assert CanGoBack(l, to, id, at, artifacts, k + 1);
      }
    } else {
      forall j: nat ensures !Target(l, to, j) {
        if 0 < j <= |Below(l)| {
          assert Below(l)[j - 1] in Below(l);
        }
      }
    }
  }

  /** The next rollback target carries the tag that is already active. */
  predicate Stuck(stack: seq<Version>)
  {
    |stack| > 1 && stack[1].tag == stack[0].tag
  }

  /** What a default rollback needs. */
  predicate Proceeds(l: Line, id: string, at: Timestamp, artifacts: Artifacts)
  {
    && LowerCase(l.events) && ValidEventId(id) && NewId(l, id) && at.Rfc3339?
    && |Stack(l)| > 1 && !Stuck(Stack(l)) && Held(artifacts, Stack(l)[1])
  }

  /** Below the top of the stack are the rollback targets. */
  lemma BelowIsStack(l: Line)
    requires l.events != []
    ensures |Stack(l)| == |Below(l)| + 1
    ensures forall j :: 0 <= j < |Below(l)| ==> Stack(l)[j + 1] == Version(Below(l)[j].tag, Lower(Below(l)[j].sha))
  {}

  lemma TopOfStack(l: Line)
    requires ValidLine(l)
    ensures Stuck(Stack(l)) <==> DefaultChoice(l) == Current
    ensures LowerCase(l.events) && |Stack(l)| > 1 ==>
              Below(l) != [] && Stack(l)[1] == Version(Below(l)[0].tag, Below(l)[0].sha)
  {
    BelowIsStack(l);
    if LowerCase(l.events) && |Stack(l)| > 1 {
      var position := AncestorPosition(l, 0);
      assert l.events[position] in l.events;
    }
  }
}
