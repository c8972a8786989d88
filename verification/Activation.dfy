/** The operations that record activations, and the rollback command on top of them. */
module Activation {
  import opened Options
  import opened Names
  import opened Lineage
  import opened LineageChecks

  /** The event an upgrade, a rollback or a restore appends. */
  function UpgradeEvent(l: Line, id: string, tag: string, sha: string, at: Timestamp): Event
  {
    Event(id, l.activeId, Upgraded, tag, Lower(sha), at, "")
  }

  function RollbackEvent(l: Line, target: Event, id: string, at: Timestamp): Event
  {
    Event(id, target.parentId, RolledBack, target.tag, target.sha, at, l.activeId)
  }

  function RestoreEvent(l: Line, id: string, sha: string, at: Timestamp): Event
  {
    Event(id, "", RolledBack, ORIGINAL, Lower(sha), at, l.activeId)
  }

  /** The rollback targets, nearest first. */
  function Below(l: Line): seq<Event>
    requires l.events != []
  {
    Past(l.events, |l.events| - 1)[1..]
  }

  // ---- reading the lineage ----

  /** The positions of all ids. */
  method EventIndex(l: Line) returns (index: map<string, nat>)
    requires Unique(l.events)
    ensures Indexed(l.events, |l.events|, index)
  {
    index := map[];
    for i := 0 to |l.events|
      invariant Indexed(l.events, i, index)
    {
      IndexStep(l.events, i, index);
      index := index[l.events[i].id := i];
    }
  }

  /** An index of unique ids finds the first, and only, event with an id. */
  lemma IndexFinds(events: seq<Event>, index: map<string, nat>, id: string)
    requires Unique(events) && Indexed(events, |events|, index) && Earlier(events, |events|, id)
    ensures id in index && index[id] == IndexOf(events, id)
  {
    assert Seen(events, |events|, index.Keys);
    var first := IndexOf(events, id);
    assert !Earlier(events, index[id], id);
  }

  /** The index leads from an event to its parent. */
  ghost predicate LinkedAt(events: seq<Event>, index: map<string, nat>, i: nat)
    requires i < |events|
  {
    if events[i].parentId == "" then Past(events, i) == [events[i]]
    else && events[i].parentId in index && index[events[i].parentId] < i
         && Past(events, i) == [events[i]] + Past(events, index[events[i].parentId])
  }

  ghost predicate Linked(events: seq<Event>, index: map<string, nat>)
  {
    forall i :: 0 <= i < |events| ==> LinkedAt(events, index, i)
  }

  lemma IndexLinks(events: seq<Event>, index: map<string, nat>)
    requires Unique(events) && Grounded(events) && Indexed(events, |events|, index)
    ensures Linked(events, index)
  {
    forall i | 0 <= i < |events| ensures LinkedAt(events, index, i) {
      if events[i].parentId != "" {
        assert GroundedAt(events, i);
        ParentPast(events, i);
        IndexFinds(events, index, events[i].parentId);
        IndexOfEarlier(events, i, events[i].parentId);
      }
    }
  }

  /** Position `n` of a past is event `chain[n]`, and the index leads on to the next one. */
  ghost predicate TracedAt(events: seq<Event>, index: map<string, nat>, past: seq<Event>, chain: seq<nat>, n: nat)
    requires n < |chain| == |past|
  {
    && chain[n] < |events| && past[n] == events[chain[n]]
    && (if n + 1 == |chain| then past[n].parentId == ""
        else past[n].parentId != "" && past[n].parentId in index && index[past[n].parentId] == chain[n + 1])
  }

  ghost predicate Traced(events: seq<Event>, index: map<string, nat>, past: seq<Event>, chain: seq<nat>)
  {
    |chain| == |past| > 0 && forall n :: 0 <= n < |chain| ==> TracedAt(events, index, past, chain, n)
  }

  lemma {:induction false} Trace(events: seq<Event>, index: map<string, nat>, i: nat) returns (chain: seq<nat>)
    requires Linked(events, index) && i < |events|
    ensures Traced(events, index, Past(events, i), chain) && chain[0] == i
    decreases i
  {
    assert LinkedAt(events, index, i);
    if events[i].parentId == "" {
      chain := [i];
      assert TracedAt(events, index, Past(events, i), chain, 0);
    } else {
      var parent := index[events[i].parentId];
      var rest := Trace(events, index, parent);
      chain := [i] + rest;
      TraceStep(events, index, Past(events, parent), rest, i);
    }
  }

  lemma TraceStep(events: seq<Event>, index: map<string, nat>, past: seq<Event>, rest: seq<nat>, i: nat)
    requires Traced(events, index, past, rest) && i < |events|
    requires events[i].parentId != "" && events[i].parentId in index && index[events[i].parentId] == rest[0]
    ensures Traced(events, index, [events[i]] + past, [i] + rest)
  {
    var longer, chain := [events[i]] + past, [i] + rest;
    forall n | 0 <= n < |chain| ensures TracedAt(events, index, longer, chain, n) {
      if n > 0 {
        assert TracedAt(events, index, past, rest, n - 1);
      }
    }
  }

  /** Collect what lies below an event. */
  method WalkDown(events: seq<Event>, index: map<string, nat>, start: nat, limit: nat) returns (result: seq<Event>)
    requires Linked(events, index) && start < |events|
    ensures var below := Past(events, start)[1..];
            result == if limit < |below| then below[..limit] else below
  {
    ghost var past := Past(events, start);
    ghost var chain := Trace(events, index, start);
    result := Collect(events, index, start, limit, past, chain);
  }

  method Collect(events: seq<Event>, index: map<string, nat>, start: nat, limit: nat,
                 ghost past: seq<Event>, ghost chain: seq<nat>)
    returns (result: seq<Event>)
    requires Traced(events, index, past, chain) && chain[0] == start < |events|
    ensures result == if limit < |past[1..]| then past[1..][..limit] else past[1..]
  {
    result := [];
    var current: nat := start;
    while events[current].parentId != "" && |result| < limit
      invariant |result| < |past| && |result| <= limit && current < |events|
      invariant current == chain[|result|] && result == past[1..|result| + 1]
      decreases limit - |result|
    {
      assert TracedAt(events, index, past, chain, |result|);
      current := index[events[current].parentId];
      assert TracedAt(events, index, past, chain, |result| + 1);
      result := result + [events[current]];
    }
    assert TracedAt(events, index, past, chain, |result|);
  }

  /** At most `limit` rollback targets, nearest first. */
  method Ancestors(l: Line, limit: int) returns (ok: bool, result: seq<Event>)
    ensures ok <==> limit >= 0 && ValidLine(l)
    ensures ok ==> result == if limit < |Below(l)| then Below(l)[..limit] else Below(l)
  {
    result := [];
    if limit < 0 {
      return false, result;
    }
    ok := ValidateActivations(l);
    if !ok {
      return;
    }
    var index := EventIndex(l);
    ActivePosition(l, index);
    IndexLinks(l.events, index);
    result := WalkDown(l.events, index, index[l.activeId], limit);
  }

  lemma ActivePosition(l: Line, index: map<string, nat>)
    requires ValidLine(l) && Indexed(l.events, |l.events|, index)
    ensures l.activeId in index && index[l.activeId] == |l.events| - 1
  {
    assert Earlier(l.events, |l.events|, l.activeId);
    IndexFinds(l.events, index, l.activeId);
    assert !Earlier(l.events, |l.events| - 1, l.activeId);
  }

  /** The next rollback target. */
  method Previous(l: Line) returns (previous: Option<Event>)
    ensures previous == if ValidLine(l) && Below(l) != [] then Some(Below(l)[0]) else None
  {
    var ok := ValidateActivations(l);
    if !ok {
      return None;
    }
    var index := EventIndex(l);
    ActivePosition(l, index);
    var current := l.events[index[l.activeId]];
    IndexLinks(l.events, index);
    assert LinkedAt(l.events, index, |l.events| - 1);
    if current.parentId == "" {
      return None;
    }
    previous := Some(l.events[index[current.parentId]]);
  }

  /** `k` is the nearest rollback target with this tag. */
  predicate NearestBelow(l: Line, tag: string, k: nat)
    requires l.events != []
  {
    k < |Below(l)| && Below(l)[k].tag == tag && forall j :: 0 <= j < k ==> Below(l)[j].tag != tag
  }

  /** The nearest rollback target with this tag. */
  method FindAncestorByTag(l: Line, tag: string) returns (found: Option<Event>, ghost k: nat)
    ensures found.Some? ==> ValidLine(l) && NearestBelow(l, tag, k) && Below(l)[k] == found.value
    ensures found.None? ==> tag == "" || !ValidLine(l) || forall e :: e in Below(l) ==> e.tag != tag
  {
    k := 0;
    if tag == "" {
      return None, k;
    }
    var ok, ancestors := Ancestors(l, |l.events|);
    if !ok {
      return None, k;
    }
    for i := 0 to |ancestors|
      invariant forall j :: 0 <= j < i ==> ancestors[j].tag != tag
    {
      if ancestors[i].tag == tag {
        return Some(ancestors[i]), i;
      }
    }
    found := None;
  }

  /** A new tag must be free or bound to the same digest. */
  method ValidateNewTagBinding(events: seq<Event>, tag: string, sha: string) returns (ok: bool)
    requires TagsBound(events)
    ensures ok <==> forall e :: e in events && e.tag == tag ==> EqualFold(e.sha, sha)
  {
    var bindings: map<string, string> := map[];
    for i := 0 to |events|
      invariant Bindings(events, i, bindings)
    {
      BindingStep(events, i, bindings);
      assert forall k :: 0 <= k < i ==> Agree(events[k], events[i]);
      bindings := bindings[events[i].tag := Lower(events[i].sha)];
    }
    BindingAnswers(events, bindings, tag, sha);
    ok := tag in bindings ==> bindings[tag] == Lower(sha);
  }

  lemma BindingAnswers(events: seq<Event>, bindings: map<string, string>, tag: string, sha: string)
    requires Bindings(events, |events|, bindings)
    ensures (tag in bindings ==> bindings[tag] == Lower(sha))
            <==> forall e :: e in events && e.tag == tag ==> EqualFold(e.sha, sha)
  {
    if tag in bindings {
      var k :| 0 <= k < |events| && events[k].tag == tag;
      assert events[k] in events;
    }
    forall e | e in events && e.tag == tag ensures tag in bindings && bindings[tag] == Lower(e.sha) {
      var k :| 0 <= k < |events| && events[k] == e;
    }
  }
}
