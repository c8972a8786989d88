/** A manifest entry whose lineage is updated in place, and the rollback command on top of it. */
module Entry {
  import opened Options
  import opened Names
  import opened Lineage
  import opened LineageChecks
  import opened Activation

  /** What a recorded input must satisfy on its own. */
  predicate ValidInput(id: string, tag: string, sha: string, at: Timestamp)
  {
    ValidEventId(id) && ValidActivationTag(tag) && ValidDigest(sha) && at.Rfc3339?
  }

  /** No event has this id. */
  predicate NewId(l: Line, id: string)
  {
    !Earlier(l.events, |l.events|, id)
  }

  /** The tag is free or bound to this digest. */
  predicate FreeTag(l: Line, tag: string, sha: string)
  {
    forall e :: e in l.events && e.tag == tag ==> EqualFold(e.sha, sha)
  }

  lemma ActiveIsEarlier(l: Line)
    requires ValidLine(l)
    ensures Earlier(l.events, |l.events|, l.activeId) && Unique(l.events) && Grounded(l.events)
  {
    assert l.events[|l.events| - 1].id == l.activeId;
  }

  /** Inputs make a valid event with the digest in lower case. */
  lemma InputMakesEvent(e: Event, sha: string)
    requires ValidInput(e.id, e.tag, sha, e.at) && !e.operation.Unsupported? && e.sha == Lower(sha)
    ensures ValidEvent(e) && Lower(e.sha) == Lower(sha)
  {
    LowerDigest(sha);
    LowerTwice(sha);
  }

  lemma FreeTagAgrees(l: Line, e: Event, sha: string)
    requires FreeTag(l, e.tag, sha) && Lower(e.sha) == Lower(sha)
    ensures forall other :: other in l.events ==> Agree(other, e)
  {}

  lemma UpgradeAppendable(l: Line, id: string, tag: string, sha: string, at: Timestamp)
    requires ValidLine(l) && ValidInput(id, tag, sha, at) && NewId(l, id) && FreeTag(l, tag, sha)
    ensures Appendable(l, UpgradeEvent(l, id, tag, sha, at))
  {
    ActiveIsEarlier(l);
    InputMakesEvent(UpgradeEvent(l, id, tag, sha, at), sha);
    FreeTagAgrees(l, UpgradeEvent(l, id, tag, sha, at), sha);
  }

  /** An upgrade keeps the lineage valid and pushes. */
  lemma UpgradeStep(l: Line, id: string, tag: string, sha: string, at: Timestamp)
    requires ValidLine(l) && ValidInput(id, tag, sha, at) && NewId(l, id) && FreeTag(l, tag, sha)
    ensures var after := Appended(l, UpgradeEvent(l, id, tag, sha, at));
            ValidLine(after) && Stack(after) == [Version(tag, Lower(sha))] + Stack(l)
  {
    var e := UpgradeEvent(l, id, tag, sha, at);
    UpgradeAppendable(l, id, tag, sha, at);
    AppendKeepsValid(l, e);
    UpgradeIsPush(l, e);
    LowerTwice(sha);
  }

  lemma RestoreAppendable(l: Line, id: string, sha: string, at: Timestamp)
    requires ValidLine(l) && ValidInput(id, ORIGINAL, sha, at) && NewId(l, id) && FreeTag(l, ORIGINAL, sha)
    ensures Appendable(l, RestoreEvent(l, id, sha, at))
  {
    ActiveIsEarlier(l);
    InputMakesEvent(RestoreEvent(l, id, sha, at), sha);
    FreeTagAgrees(l, RestoreEvent(l, id, sha, at), sha);
  }

  /** Restoring the original keeps the lineage valid and starts a new stack. */
  lemma RestoreStep(l: Line, id: string, sha: string, at: Timestamp)
    requires ValidLine(l) && ValidInput(id, ORIGINAL, sha, at) && NewId(l, id) && FreeTag(l, ORIGINAL, sha)
    ensures var after := Appended(l, RestoreEvent(l, id, sha, at));
            ValidLine(after) && Stack(after) == [Version(ORIGINAL, Lower(sha))]
  {
    RestoreAppendable(l, id, sha, at);
    AppendKeepsValid(l, RestoreEvent(l, id, sha, at));
    RestoreIsReset(l, RestoreEvent(l, id, sha, at));
    LowerTwice(sha);
  }

  lemma TargetIsGrounded(events: seq<Event>, j: nat)
    requires Grounded(events) && j < |events|
    ensures events[j].parentId != "" ==> Earlier(events, |events|, events[j].parentId)
  {
    assert GroundedAt(events, j);
  }

  lemma TargetIsBound(events: seq<Event>, j: nat, e: Event)
    requires TagsBound(events) && j < |events| && e.tag == events[j].tag && e.sha == events[j].sha
    ensures forall other :: other in events ==> Agree(other, e)
  {
    forall other | other in events ensures Agree(other, e) {
      assert Agree(other, events[j]);
    }
  }

  lemma TargetIsValid(events: seq<Event>, j: nat, e: Event)
    requires WellFormed(events) && j < |events| && e.tag == events[j].tag && e.sha == events[j].sha
    requires ValidEventId(e.id) && e.at.Rfc3339? && !e.operation.Unsupported?
    ensures ValidEvent(e)
  {
    assert ValidEvent(events[j]);
  }

  lemma RollbackAppendable(l: Line, id: string, j: nat, at: Timestamp)
    requires ValidLine(l) && j < |l.events| && ValidEventId(id) && at.Rfc3339? && NewId(l, id)
    ensures Appendable(l, RollbackEvent(l, l.events[j], id, at))
  {
    ActiveIsEarlier(l);
    TargetIsGrounded(l.events, j);
    TargetIsBound(l.events, j, RollbackEvent(l, l.events[j], id, at));
    TargetIsValid(l.events, j, RollbackEvent(l, l.events[j], id, at));
  }

  lemma AncestorPosition(l: Line, k: nat) returns (j: nat)
    requires l.events != [] && k < |Below(l)|
    ensures j < |l.events| && l.events[j] == Below(l)[k] == Past(l.events, |l.events| - 1)[k + 1]
  {
    j := PastOfAncestor(l.events, |l.events| - 1, k + 1);
    assert l.events[j] == Past(l.events, |l.events| - 1)[k + 1..][0];
  }

  lemma RollbackPops(l: Line, e: Event, k: nat)
    requires l.events != [] && Grounded(l.events) && k < |Below(l)| && e == RollbackEvent(l, Below(l)[k], e.id, e.at)
    ensures Stack(Appended(l, e)) == Stack(l)[k + 1..]
  {
    assert Below(l)[k] == Past(l.events, |l.events| - 1)[k + 1];
    RollbackIsDrop(l, e, k + 1);
  }

  /** A rollback keeps the lineage valid and pops down to its target. */
  lemma RollbackStep(l: Line, id: string, k: nat, at: Timestamp)
    requires ValidLine(l) && k < |Below(l)| && ValidEventId(id) && at.Rfc3339? && NewId(l, id)
    ensures var after := Appended(l, RollbackEvent(l, Below(l)[k], id, at));
            ValidLine(after) && Stack(after) == Stack(l)[k + 1..]
  {
    var e := RollbackEvent(l, Below(l)[k], id, at);
    RollbackPops(l, e, k);
    assert ValidLine(Appended(l, e)) by {
      var j := AncestorPosition(l, k);
      RollbackAppendable(l, id, j, at);
      AppendKeepsValid(l, e);
    }
  }

  lemma AdoptStep(id: string, tag: string, sha: string, at: Timestamp)
    requires ValidInput(id, tag, sha, at)
    ensures var after := Line(tag, Lower(sha), id, [Event(id, "", Adopted, tag, Lower(sha), at, "")]);
            ValidLine(after) && Stack(after) == [Version(tag, Lower(sha))]
  {
    var e := Event(id, "", Adopted, tag, Lower(sha), at, "");
    var empty := Line(tag, sha, "", []);
    InputMakesEvent(e, sha);
    assert empty.events + [e] == [e];
    AppendKeepsValid(empty, e);
    RestoreIsReset(empty, e);
  }

  /** Some rollback target has this id. */
  predicate HasTarget(l: Line, targetId: string)
    requires l.events != []
  {
    exists e :: e in Below(l) && e.id == targetId
  }

  /** What a rollback to a target requires. */
  predicate Revertible(l: Line, id: string, targetId: string, at: Timestamp)
  {
    ValidLine(l) && ValidEventId(id) && NewId(l, id) && at.Rfc3339? && HasTarget(l, targetId)
  }

  /** The rollback target with this id, and its position. */
  method FindTarget(l: Line, targetId: string) returns (target: Option<Event>, ghost k: nat)
    requires ValidLine(l)
    ensures target.Some? <==> HasTarget(l, targetId)
    ensures target.Some? ==> k < |Below(l)| && Below(l)[k] == target.value && target.value.id == targetId
  {
    k := 0;
    var ok, ancestors := Ancestors(l, |l.events|);
    for i := 0 to |ancestors|
      invariant forall j :: 0 <= j < i ==> ancestors[j].id != targetId
    {
      if ancestors[i].id == targetId {
        assert ancestors[i] in Below(l);
        return Some(ancestors[i]), i;
      }
    }
    target := None;
  }

  /** Whether an id is taken. */
  method IdIsNew(l: Line, id: string) returns (isNew: bool)
    requires ValidLine(l)
    ensures isNew <==> NewId(l, id)
  {
    var index := EventIndex(l);
    isNew := id !in index;
  }

  class Entry {
    var tag: string
    var sha: string
    var activeId: string
    var events: seq<Event>
    var updatedAt: Timestamp

    constructor (tag: string, sha: string, at: Timestamp)
      ensures Value() == Line(tag, sha, "", [])
    {
      this.tag, this.sha, this.activeId, this.events, this.updatedAt := tag, sha, "", [], at;
    }

    function Value(): Line
      reads this
    {
      Line(tag, sha, activeId, events)
    }

    /** Take over another entry's state. */
    method Assign(other: Entry)
      modifies this
      ensures Value() == other.Value()
    {
      tag, sha, activeId, events, updatedAt := other.tag, other.sha, other.activeId, other.events, other.updatedAt;
    }

    method AppendCurrent(e: Event)
      modifies this
      ensures Value() == Appended(old(Value()), e) && updatedAt == e.at
    {
      events := events + [e];
      activeId, tag, sha, updatedAt := e.id, e.tag, e.sha, e.at;
    }

    /** The root of a new lineage. */
    method RecordAdopt(id: string, at: Timestamp) returns (ok: bool)
      modifies this
      ensures ok <==> old(activeId) == "" && old(events) == [] && ValidInput(id, old(tag), old(sha), at)
      ensures ok ==> ValidLine(Value()) && tag == old(tag) && Stack(Value()) == [Version(tag, Lower(old(sha)))]
      ensures ok ==> events == [Event(id, "", Adopted, tag, Lower(old(sha)), at, "")]
      ensures !ok ==> unchanged(this)
    {
      if activeId != "" || |events| != 0 || !ValidInput(id, tag, sha, at) {
        return false;
      }
      var e := Event(id, "", Adopted, tag, Lower(sha), at, "");
      AdoptStep(id, tag, sha, at);
      sha, activeId, events, updatedAt := e.sha, e.id, [e], at;
      ok := true;
    }

    /** A push onto the undo stack. */
    method RecordUpgrade(id: string, tag': string, sha': string, at: Timestamp) returns (ok: bool)
      modifies this
      ensures ok <==> ValidLine(old(Value())) && ValidInput(id, tag', sha', at)
                      && NewId(old(Value()), id) && FreeTag(old(Value()), tag', sha')
      ensures ok ==> ValidLine(Value()) && Value() == Appended(old(Value()), UpgradeEvent(old(Value()), id, tag', sha', at))
      ensures ok ==> events == old(events) + [Event(id, old(activeId), Upgraded, tag', Lower(sha'), at, "")]
      ensures ok ==> Stack(Value()) == [Version(tag', Lower(sha'))] + old(Stack(Value()))
      ensures !ok ==> unchanged(this)
    {
      ok := ValidateActivations(Value());
      if !ok || !ValidInput(id, tag', sha', at) {
        return false;
      }
      ok := ValidateNewTagBinding(events, tag', sha');
      var isNew := IdIsNew(Value(), id);
      if !ok || !isNew {
        return false;
      }
      UpgradeStep(Value(), id, tag', sha', at);
      AppendCurrent(UpgradeEvent(Value(), id, tag', sha', at));
    }

    /** A pop down to the rollback target with this id. */
    method RecordRollback(id: string, targetId: string, at: Timestamp) returns (ok: bool, ghost k: nat)
      modifies this
      ensures ok <==> Revertible(old(Value()), id, targetId, at)
      ensures ok ==> k < |Below(old(Value()))| && Below(old(Value()))[k].id == targetId
      ensures ok ==> ValidLine(Value())
                     && Value() == Appended(old(Value()), RollbackEvent(old(Value()), Below(old(Value()))[k], id, at))
      ensures ok ==> var target := Below(old(Value()))[k];
                     events == old(events) + [Event(id, target.parentId, RolledBack, target.tag, target.sha, at, old(activeId))]
      ensures ok ==> Stack(Value()) == old(Stack(Value()))[k + 1..]
      ensures !ok ==> unchanged(this)
    {
      hide ValidLine, Stack, NewId, ValidEventId, Below;
      k := 0;
      ok := ValidateActivations(Value());
      if !ok || !ValidEventId(id) {
        return false, k;
      }
      var isNew := IdIsNew(Value(), id);
      if !isNew || !at.Rfc3339? {
        return false, k;
      }
      var target;
      target, k := FindTarget(Value(), targetId);
      if target.None? {
        return false, k;
      }
      RollbackStep(Value(), id, k, at);
      AppendCurrent(RollbackEvent(Value(), target.value, id, at));
      ok := true;
    }

    /** A new stack that holds the original alone. */
    method RecordRestoreOriginal(id: string, sha': string, at: Timestamp) returns (ok: bool)
      modifies this
      ensures ok <==> ValidLine(old(Value())) && ValidInput(id, ORIGINAL, sha', at)
                      && NewId(old(Value()), id) && FreeTag(old(Value()), ORIGINAL, sha')
      ensures ok ==> ValidLine(Value()) && Value() == Appended(old(Value()), RestoreEvent(old(Value()), id, sha', at))
      ensures ok ==> events == old(events) + [Event(id, "", RolledBack, ORIGINAL, Lower(sha'), at, old(activeId))]
      ensures ok ==> Stack(Value()) == [Version(ORIGINAL, Lower(sha'))]
      ensures !ok ==> unchanged(this)
    {
      ok := ValidateActivations(Value());
      if !ok || !ValidInput(id, ORIGINAL, sha', at) {
        return false;
      }
      ok := ValidateNewTagBinding(events, ORIGINAL, sha');
      var isNew := IdIsNew(Value(), id);
      if !ok || !isNew {
        return false;
      }
      RestoreStep(Value(), id, sha', at);
      AppendCurrent(RestoreEvent(Value(), id, sha', at));
    }
  }
}
