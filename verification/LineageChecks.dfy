/** Three separately written validators of the activation lineage, each with its own loop, and the
    proof that they accept the same lineages. */
module LineageChecks {
  import opened Names
  import opened Lineage

  /** Event `i` is valid after the events before it. */
  predicate StepOk(events: seq<Event>, i: nat)
    requires i < |events|
  {
    && ValidEvent(events[i]) && !Earlier(events, i, events[i].id) && GroundedAt(events, i)
    && (forall k :: 0 <= k < i ==> Agree(events[k], events[i]))
  }

  predicate LogTo(events: seq<Event>, n: nat)
    requires n <= |events|
  {
    forall i :: 0 <= i < n ==> StepOk(events, i)
  }

  lemma StepsAreLog(events: seq<Event>)
    requires LogTo(events, |events|)
    ensures ValidLog(events)
  {
    forall i | 0 <= i < |events| ensures !Earlier(events, i, events[i].id) && GroundedAt(events, i) {
      assert StepOk(events, i);
    }
    forall a, b | a in events && b in events ensures Agree(a, b) {
      var i :| 0 <= i < |events| && events[i] == a;
      var j :| 0 <= j < |events| && events[j] == b;
      assert StepOk(events, i) && StepOk(events, j);
    }
    forall e | e in events ensures ValidEvent(e) {
      var i :| 0 <= i < |events| && events[i] == e;
      assert StepOk(events, i);
    }
  }

  lemma LogHasSteps(events: seq<Event>, i: nat)
    requires ValidLog(events) && i < |events|
    ensures StepOk(events, i)
  {
    assert GroundedAt(events, i) && events[i] in events;
  }

  /** Reading the log once, from the front, checks every pair of events. */
  lemma LogIsSteps(events: seq<Event>)
    ensures ValidLog(events) <==> LogTo(events, |events|)
  {
    if LogTo(events, |events|) {
      StepsAreLog(events);
    }
    if ValidLog(events) {
      forall i | 0 <= i < |events| ensures StepOk(events, i) {
        LogHasSteps(events, i);
      }
    }
  }

  /** The invariant, spelled out position by position: no id occurs twice, parents and reverted events are
      earlier, a tag keeps its digest up to letter case, and the last event is the active one. */
  lemma ValidLineExactly(l: Line)
    ensures ValidLine(l) <==>
            && l.events != [] && l.activeId != ""
            && (var active := l.events[|l.events| - 1];
                active.id == l.activeId && active.tag == l.tag && Lower(active.sha) == Lower(l.sha))
            && (forall i :: 0 <= i < |l.events| ==>
                  var e := l.events[i];
                  && ValidEventId(e.id) && ValidActivationTag(e.tag) && ValidDigest(e.sha) && e.at.Rfc3339?
                  && !e.operation.Unsupported?
                  && (e.parentId != "" ==> exists j :: 0 <= j < i && l.events[j].id == e.parentId)
                  && (e.revertsId != "" ==> exists j :: 0 <= j < i && l.events[j].id == e.revertsId))
            && (forall i, j :: 0 <= i < j < |l.events| ==>
                  && l.events[i].id != l.events[j].id
                  && (l.events[i].tag == l.events[j].tag ==> Lower(l.events[i].sha) == Lower(l.events[j].sha)))
  {
    LogIsSteps(l.events);
    forall i | 0 <= i < |l.events|
      ensures StepOk(l.events, i) <==>
              var e := l.events[i];
              && ValidEventId(e.id) && ValidActivationTag(e.tag) && ValidDigest(e.sha) && e.at.Rfc3339?
              && !e.operation.Unsupported?
              && (e.parentId != "" ==> exists j :: 0 <= j < i && l.events[j].id == e.parentId)
              && (e.revertsId != "" ==> exists j :: 0 <= j < i && l.events[j].id == e.revertsId)
              && (forall j :: 0 <= j < i ==>
                    && l.events[j].id != e.id && (l.events[j].tag == e.tag ==> Lower(l.events[j].sha) == Lower(e.sha)))
    {}
  }

  /** The tags seen so far and the digests they are bound to. */
  ghost predicate Bindings(events: seq<Event>, i: nat, bindings: map<string, string>)
    requires i <= |events|
  {
    && (forall k :: 0 <= k < i ==> events[k].tag in bindings)
    && (forall k :: 0 <= k < i ==> bindings[events[k].tag] == Lower(events[k].sha))
    && (forall tag :: tag in bindings ==> exists k :: 0 <= k < i && events[k].tag == tag)
  }

  /** The binding test compares with every earlier event of the tag. */
  lemma BindingStep(events: seq<Event>, i: nat, bindings: map<string, string>)
    requires i < |events| && Bindings(events, i, bindings)
    ensures (events[i].tag in bindings ==> bindings[events[i].tag] == Lower(events[i].sha))
            <==> forall k :: 0 <= k < i ==> Agree(events[k], events[i])
    ensures (events[i].tag in bindings ==> bindings[events[i].tag] == Lower(events[i].sha)) ==>
              Bindings(events, i + 1, bindings[events[i].tag := Lower(events[i].sha)])
  {
    var next := bindings[events[i].tag := Lower(events[i].sha)];
    forall tag | tag in next ensures exists k :: 0 <= k < i + 1 && events[k].tag == tag {
      if tag == events[i].tag {
        assert events[i].tag == tag;
      } else {
        assert tag in bindings;
      }
    }
  }

  /** The ids seen so far. */
  ghost predicate Seen(events: seq<Event>, i: nat, seen: set<string>)
    requires i <= |events|
  {
    forall id :: id in seen <==> Earlier(events, i, id)
  }

  lemma SeenStep(events: seq<Event>, i: nat, seen: set<string>)
    requires i < |events| && Seen(events, i, seen)
    ensures Seen(events, i + 1, seen + {events[i].id})
  {
    forall id ensures id in seen + {events[i].id} <==> Earlier(events, i + 1, id) {
      if id == events[i].id {
        assert events[i].id == id;
      }
    }
  }

  /** The position of every id seen so far. */
  ghost predicate Indexed(events: seq<Event>, i: nat, index: map<string, nat>)
    requires i <= |events|
  {
    && Seen(events, i, index.Keys)
    && (forall id :: id in index ==> index[id] < i && events[index[id]].id == id)
  }

  lemma IndexStep(events: seq<Event>, i: nat, index: map<string, nat>)
    requires i < |events| && Indexed(events, i, index)
    ensures Indexed(events, i + 1, index[events[i].id := i])
  {
    SeenStep(events, i, index.Keys);
    assert index[events[i].id := i].Keys == index.Keys + {events[i].id};
  }

  /** One round of the activation package's loop. */
  method CheckEvent(ghost events: seq<Event>, ghost i: nat, e: Event, index: map<string, nat>,
                    bindings: map<string, string>)
    returns (ok: bool, bound: map<string, string>)
    requires i < |events| && e == events[i] && Seen(events, i, index.Keys) && Bindings(events, i, bindings)
    ensures ok <==> StepOk(events, i)
    ensures ok ==> Bindings(events, i + 1, bound)
  {
    BindingStep(events, i, bindings);
    bound := bindings;
    if !ValidEventId(e.id) || !ValidActivationTag(e.tag) || !ValidDigest(e.sha) || !e.at.Rfc3339? {
      return false, bound;
    }
    if e.tag in bindings && bindings[e.tag] != Lower(e.sha) {
      return false, bound;
    }
    bound := bindings[e.tag := Lower(e.sha)];
    if e.operation.Unsupported? || e.id in index {
      return false, bound;
    }
    ok := (e.parentId != "" ==> e.parentId in index) && (e.revertsId != "" ==> e.revertsId in index);
  }

  /** The loop of the activation package. */
  method CheckActivations(events: seq<Event>) returns (ok: bool, index: map<string, nat>)
    ensures ok <==> LogTo(events, |events|)
    ensures ok ==> Indexed(events, |events|, index)
  {
    index := map[];
    var bindings: map<string, string> := map[];
    for i := 0 to |events|
      invariant LogTo(events, i) && Indexed(events, i, index) && Bindings(events, i, bindings)
    {
      ok, bindings := CheckEvent(events, i, events[i], index, bindings);
      if !ok {
        return;
      }
      IndexStep(events, i, index);
      index := index[events[i].id := i];
    }
    ok := true;
  }

  /** The validator of the activation package. */
  method ValidateActivations(l: Line) returns (ok: bool)
    ensures ok <==> ValidLine(l)
  {
    if |l.events| == 0 || l.activeId == "" {
      return false;
    }
    var index;
    ok, index := CheckActivations(l.events);
    LogIsSteps(l.events);
    if !ok {
      return;
    }
    ActiveIsLast(l, index);
    if l.activeId !in index || index[l.activeId] != |l.events| - 1 {
      return false;
    }
    var active := l.events[index[l.activeId]];
    ok := active.tag == l.tag && EqualFold(active.sha, l.sha);
  }

  lemma ActiveIsLast(l: Line, index: map<string, nat>)
    requires l.events != [] && Indexed(l.events, |l.events|, index) && LogTo(l.events, |l.events|)
    ensures (l.activeId in index && index[l.activeId] == |l.events| - 1)
            <==> l.events[|l.events| - 1].id == l.activeId
  {
    var n := |l.events| - 1;
    if l.events[n].id == l.activeId {
      assert Earlier(l.events, |l.events|, l.activeId);
      assert StepOk(l.events, n);
    }
  }

  /** One round of the manifest package's loops. */
  method CheckDecoded(ghost events: seq<Event>, ghost i: nat, e: Event, seen: set<string>, bindings: map<string, string>)
    returns (ok: bool, bound: map<string, string>)
    requires i < |events| && e == events[i] && Seen(events, i, seen) && Bindings(events, i, bindings)
    ensures ok <==> StepOk(events, i)
    ensures ok ==> Bindings(events, i + 1, bound)
  {
    BindingStep(events, i, bindings);
    ok, bound := ValidateDecodedActivation(e, bindings);
    ok := ok && e.id !in seen
          && (e.parentId != "" ==> e.parentId in seen)
          && (e.revertsId != "" ==> e.revertsId in seen);
  }

  /** The loop of the manifest package. */
  method CheckDecodedEvents(events: seq<Event>) returns (ok: bool)
    ensures ok <==> LogTo(events, |events|)
  {
    var seen: set<string> := {};
    var bindings: map<string, string> := map[];
    for i := 0 to |events|
      invariant LogTo(events, i) && Seen(events, i, seen) && Bindings(events, i, bindings)
    {
      ok, bindings := CheckDecoded(events, i, events[i], seen, bindings);
      if !ok {
        return;
      }
      SeenStep(events, i, seen);
      seen := seen + {events[i].id};
    }
    ok := true;
  }

  /** The validator of the manifest package, for an entry about to be saved. */
  method ValidateEntryLineage(l: Line) returns (ok: bool)
    ensures ok <==> ValidLine(l)
  {
    if |l.events| == 0 || l.activeId == "" {
      return false;
    }
    ok := CheckDecodedEvents(l.events);
    LogIsSteps(l.events);
    if !ok {
      return;
    }
    var active := l.events[|l.events| - 1];
    ok := active.id == l.activeId && active.tag == l.tag && EqualFold(active.sha, l.sha);
  }

  /** Check one event on its own and against the bindings, and bind its tag. */
  method ValidateDecodedActivation(e: Event, bindings: map<string, string>)
    returns (ok: bool, bound: map<string, string>)
    ensures ok <==> ValidEvent(e) && (e.tag in bindings ==> bindings[e.tag] == Lower(e.sha))
    ensures ok ==> bound == bindings[e.tag := Lower(e.sha)]
  {
    bound := bindings;
    if e.id == "" || |e.id| > 128 {
      return false, bound;
    }
    for i := 0 to |e.id|
      invariant forall k :: 0 <= k < i ==> IdChar(e.id[k])
    {
      if !IdChar(e.id[i]) {
        return false, bound;
      }
    }
    if e.operation.Unsupported? || !ValidActivationTag(e.tag) || !ValidDigest(e.sha) {
      return false, bound;
    }
    if e.tag in bindings && bindings[e.tag] != Lower(e.sha) {
      return false, bound;
    }
    bound := bindings[e.tag := Lower(e.sha)];
    ok := e.at.Rfc3339?;
  }

  datatype Stored = Stored(mode: string, channel: string, depth: int, overrides: bool, line: Line)

  predicate ValidPolicy(e: Stored)
  {
    && e.mode in {"semver", "github-latest"} && e.channel in {"stable", "prerelease"}
    && (e.overrides ==> e.depth >= 0)
  }

  /** The validator of a decoded document, before any default could be filled in. */
  method ValidateDecodedV2(depth: int, entries: seq<Stored>) returns (ok: bool)
    ensures ok <==> depth >= 0 && forall e :: e in entries ==> ValidPolicy(e) && ValidLine(e.line)
  {
    if depth < 0 {
      return false;
    }
    for n := 0 to |entries|
      invariant forall k :: 0 <= k < n ==> ValidPolicy(entries[k]) && ValidLine(entries[k].line)
    {
      var e := entries[n];
      if !ValidPolicy(e) {
        return false;
      }
      if |e.line.events| == 0 || e.line.activeId == "" {
        return false;
      }
      LogIsSteps(e.line.events);
      ok := CheckDecodedEvents(e.line.events);
      if !ok {
        return;
      }
      var active := e.line.events[|e.line.events| - 1];
      if active.id != e.line.activeId || active.tag != e.line.tag || !EqualFold(active.sha, e.line.sha) {
        return false;
      }
    }
    ok := true;
  }
}
