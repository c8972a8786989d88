/** The activation lineage of one tool: an append-only event log with parent pointers, and the
    undo stack it stands for. */
module Lineage {
  import opened Names

  datatype Operation = Legacy | Adopted | Upgraded | RolledBack | Repaired | Unsupported(text: string)

  datatype Event = Event(id: string, parentId: string, operation: Operation, tag: string, sha: string,
                         at: Timestamp, revertsId: string)

  /** The part of a manifest entry that the lineage is about. */
  datatype Line = Line(tag: string, sha: string, activeId: string, events: seq<Event>)

  predicate ValidEvent(e: Event)
  {
    && ValidEventId(e.id) && ValidActivationTag(e.tag) && ValidDigest(e.sha) && e.at.Rfc3339?
    && !e.operation.Unsupported?
  }

  /** The position of the first event with this id among the first `n`, or `n`. */
  function IndexBefore(events: seq<Event>, id: string, n: nat): (i: nat)
    requires n <= |events|
    ensures i <= n
    ensures i < n ==> events[i].id == id
    ensures forall j :: 0 <= j < i ==> events[j].id != id
  {
    if n == 0 then 0
    else
      var i := IndexBefore(events, id, n - 1);
      if i < n - 1 || events[n - 1].id == id then i else n
  }

  function IndexOf(events: seq<Event>, id: string): nat
  {
    IndexBefore(events, id, |events|)
  }

  lemma FirstAt(events: seq<Event>, id: string, n: nat, i: nat)
    requires i < n <= |events| && events[i].id == id
    requires forall j :: 0 <= j < i ==> events[j].id != id
    ensures IndexBefore(events, id, n) == i
  {}

  predicate Earlier(events: seq<Event>, i: nat, id: string)
    requires i <= |events|
  {
    exists j :: 0 <= j < i && events[j].id == id
  }

  predicate WellFormed(events: seq<Event>)
  {
    forall e :: e in events ==> ValidEvent(e)
  }

  predicate Unique(events: seq<Event>)
  {
    forall i :: 0 <= i < |events| ==> !Earlier(events, i, events[i].id)
  }

  predicate GroundedAt(events: seq<Event>, i: nat)
    requires i < |events|
  {
    && (events[i].parentId != "" ==> Earlier(events, i, events[i].parentId))
    && (events[i].revertsId != "" ==> Earlier(events, i, events[i].revertsId))
  }

  /** Parents and reverted events are strictly earlier. */
  predicate Grounded(events: seq<Event>)
  {
    forall i :: 0 <= i < |events| ==> GroundedAt(events, i)
  }

  predicate Agree(a: Event, b: Event) { a.tag == b.tag ==> EqualFold(a.sha, b.sha) }

  /** A tag keeps its digest over the whole history. */
  predicate TagsBound(events: seq<Event>)
  {
    forall a, b :: a in events && b in events ==> Agree(a, b)
  }

  predicate ValidLog(events: seq<Event>)
  {
    WellFormed(events) && Unique(events) && Grounded(events) && TagsBound(events)
  }

  /** The active event is the last one and agrees with the entry. */
  predicate ValidLine(l: Line)
  {
    && l.events != [] && l.activeId != "" && ValidLog(l.events)
    && var active := l.events[|l.events| - 1];
       active.id == l.activeId && active.tag == l.tag && EqualFold(active.sha, l.sha)
  }

  // ---- the undo stack ----

  /** An event followed by its ancestors, nearest first. */
  function Past(events: seq<Event>, i: nat): (past: seq<Event>)
    requires i < |events|
    ensures |past| > 0 && past[0] == events[i] && |past| <= i + 1
    decreases i
  {
    var parent := IndexBefore(events, events[i].parentId, i);
    [events[i]] + (if events[i].parentId != "" && parent < i then Past(events, parent) else [])
  }

  datatype Version = Version(tag: string, sha: string)

  function Versions(events: seq<Event>): (vs: seq<Version>)
    ensures |vs| == |events|
    ensures forall i :: 0 <= i < |events| ==> vs[i] == Version(events[i].tag, Lower(events[i].sha))
  {
    seq(|events|, i requires 0 <= i < |events| => Version(events[i].tag, Lower(events[i].sha)))
  }

  /** The active version on top, the rollback targets below. */
  function Stack(l: Line): (stack: seq<Version>)
  {
    if l.events == [] then [] else Versions(Past(l.events, |l.events| - 1))
  }

  lemma {:induction false} IndexIsStable(events: seq<Event>, more: seq<Event>, id: string, n: nat)
    requires n <= |events|
    ensures IndexBefore(events + more, id, n) == IndexBefore(events, id, n)
  {
    if n > 0 {
      IndexIsStable(events, more, id, n - 1);
    }
  }

  /** Later events do not change what lies below an event. */
  lemma {:induction false} PastIsStable(events: seq<Event>, more: seq<Event>, i: nat)
    requires i < |events|
    ensures Past(events + more, i) == Past(events, i)
    decreases i
  {
    var parent := IndexBefore(events, events[i].parentId, i);
    IndexIsStable(events, more, events[i].parentId, i);
    if events[i].parentId != "" && parent < i {
      PastIsStable(events, more, parent);
    }
  }

  /** Everything below an ancestor is its own past. */
  lemma {:induction false} PastOfAncestor(events: seq<Event>, i: nat, k: nat) returns (j: nat)
    requires i < |events| && k < |Past(events, i)|
    ensures j <= i && Past(events, j) == Past(events, i)[k..]
    decreases i
  {
    if k == 0 {
      j := i;
    } else {
      j := PastOfAncestor(events, IndexBefore(events, events[i].parentId, i), k - 1);
    }
  }

  /** In a valid log the past of an event holds no id twice. */
  lemma {:induction false} PastIsDistinct(events: seq<Event>, i: nat, a: nat, b: nat)
    requires Unique(events) && i < |events| && a < b < |Past(events, i)|
    ensures Past(events, i)[a].id != Past(events, i)[b].id
  {
    var j := PastOfAncestor(events, i, a);
    var parent := IndexBefore(events, events[j].parentId, j);
    assert Past(events, i)[b] == Past(events, j)[b - a] == Past(events, parent)[b - a - 1];
    var k := PastOfAncestor(events, parent, b - a - 1);
    assert !Earlier(events, j, events[j].id);
  }

  // ---- what the operations do to the stack ----

  function Appended(l: Line, e: Event): Line
  {
    Line(e.tag, e.sha, e.id, l.events + [e])
  }

  /** An event may be appended when its id is new, what it points to exists, and its tag is free or
      bound to the same digest. */
  predicate Appendable(l: Line, e: Event)
  {
    && ValidEvent(e) && !Earlier(l.events, |l.events|, e.id)
    && (e.parentId != "" ==> Earlier(l.events, |l.events|, e.parentId))
    && (e.revertsId != "" ==> Earlier(l.events, |l.events|, e.revertsId))
    && (forall other :: other in l.events ==> Agree(other, e))
  }

  lemma EarlierStays(events: seq<Event>, e: Event, i: nat, id: string)
    requires i <= |events|
    ensures Earlier(events + [e], i, id) <==> Earlier(events, i, id)
  {
    assert forall j :: 0 <= j < i ==> (events + [e])[j] == events[j];
  }

  lemma AppendKeepsOrder(l: Line, e: Event)
    requires Unique(l.events) && Grounded(l.events) && Appendable(l, e)
    ensures Unique(l.events + [e]) && Grounded(l.events + [e])
  {
    var events := l.events + [e];
    forall i | 0 <= i < |events|
      ensures !Earlier(events, i, events[i].id) && GroundedAt(events, i)
    {
      assert i < |l.events| ==> GroundedAt(l.events, i);
      EarlierStays(l.events, e, i, events[i].id);
      EarlierStays(l.events, e, i, events[i].parentId);
      EarlierStays(l.events, e, i, events[i].revertsId);
    }
  }

  lemma AppendKeepsValid(l: Line, e: Event)
    requires ValidLog(l.events) && Appendable(l, e)
    ensures ValidLine(Appended(l, e))
  {
    AppendKeepsOrder(l, e);
    forall a, b | a in l.events + [e] && b in l.events + [e] ensures Agree(a, b) {
      assert (a in l.events || a == e) && (b in l.events || b == e);
    }
  }

  /** The stack after appending: the new event on the past of its parent. */
  lemma AppendedStack(l: Line, e: Event)
    requires e.parentId != "" ==> Earlier(l.events, |l.events|, e.parentId)
    ensures Stack(Appended(l, e))
            == Versions([e]) + if e.parentId == "" then [] else Versions(Past(l.events, IndexOf(l.events, e.parentId)))
  {
    var events, n := l.events + [e], |l.events|;
    IndexIsStable(l.events, [e], e.parentId, n);
    if e.parentId != "" {
      PastIsStable(l.events, [e], IndexOf(l.events, e.parentId));
      assert Past(events, n) == [e] + Past(l.events, IndexOf(l.events, e.parentId));
    } else {
      assert Past(events, n) == [e];
    }
  }

  /** An event whose parent is the active one is a push. */
  lemma UpgradeIsPush(l: Line, e: Event)
    requires l.events != [] && Unique(l.events) && l.activeId != ""
    requires l.events[|l.events| - 1].id == l.activeId == e.parentId
    ensures Stack(Appended(l, e)) == [Version(e.tag, Lower(e.sha))] + Stack(l)
  {
    AppendedStack(l, e);
    assert !Earlier(l.events, |l.events| - 1, l.activeId);
    FirstAt(l.events, l.activeId, |l.events|, |l.events| - 1);
  }

  lemma IndexOfEarlier(events: seq<Event>, j: nat, id: string)
    requires j <= |events| && Earlier(events, j, id)
    ensures IndexOf(events, id) == IndexBefore(events, id, j) < j
  {
    FirstAt(events, id, |events|, IndexBefore(events, id, j));
  }

  /** One step down: below an event lies the past of its parent. */
  lemma ParentPast(events: seq<Event>, j: nat)
    requires j < |events| && events[j].parentId != "" && Earlier(events, j, events[j].parentId)
    ensures Earlier(events, |events|, events[j].parentId)
    ensures Past(events, j) == [events[j]] + Past(events, IndexOf(events, events[j].parentId))
  {
    IndexOfEarlier(events, j, events[j].parentId);
  }

  /** An event that repeats another one and takes over its parent has its stack. */
  lemma RepeatedStack(l: Line, e: Event, j: nat)
    requires j < |l.events| && GroundedAt(l.events, j)
    requires e.tag == l.events[j].tag && e.sha == l.events[j].sha && e.parentId == l.events[j].parentId
    ensures Stack(Appended(l, e)) == Versions(Past(l.events, j))
  {
    AppendedStack(l, e);
    if e.parentId != "" {
      ParentPast(l.events, j);
      VersionsOfMore(l.events[j], Past(l.events, IndexOf(l.events, e.parentId)));
    }
    assert Versions([e]) == Versions([l.events[j]]);
  }

  lemma VersionsOfMore(e: Event, events: seq<Event>)
    ensures Versions([e] + events) == Versions([e]) + Versions(events)
  {}

  lemma VersionsBelow(events: seq<Event>, k: nat)
    requires k <= |events|
    ensures Versions(events[k..]) == Versions(events)[k..]
  {}

  /** An event that repeats the k-th ancestor and takes over its parent drops everything above it. */
  lemma RollbackIsDrop(l: Line, e: Event, k: nat)
    requires Grounded(l.events) && k < |Stack(l)|
    requires var target := Past(l.events, |l.events| - 1)[k];
             e.tag == target.tag && e.sha == target.sha && e.parentId == target.parentId
    ensures Stack(Appended(l, e)) == Stack(l)[k..]
  {
    var past := Past(l.events, |l.events| - 1);
    var j := PastOfAncestor(l.events, |l.events| - 1, k);
    assert l.events[j] == past[k..][0];
    assert GroundedAt(l.events, j);
    RepeatedStack(l, e, j);
    VersionsBelow(past, k);
  }

  /** An event without a parent starts a new stack. */
  lemma RestoreIsReset(l: Line, e: Event)
    requires e.parentId == ""
    ensures Stack(Appended(l, e)) == [Version(e.tag, Lower(e.sha))]
  {
    AppendedStack(l, e);
  }
}
