/** Repeating the default rollback walks down the old stack in order and stops. */
module Drain {
  import opened Names
  import opened Lineage
  import opened LineageChecks
  import opened Activation
  import opened Entry
  import opened RollbackCommand
  import opened Undo
  import Policy

  /** How often the default rollback proceeds: until the bottom, or until two neighbours share a tag. */
  function Steps(stack: seq<Version>): (n: nat)
    ensures stack != [] ==> n < |stack|
  {
    if |stack| < 2 || Stuck(stack) then 0 else 1 + Steps(stack[1..])
  }

  /** The whole stack is visited exactly when no two neighbours share a tag. */
  lemma {:induction false} StepsReachTheBottom(stack: seq<Version>)
    requires stack != []
    ensures Steps(stack) == |stack| - 1 <==> forall i :: 0 < i < |stack| ==> stack[i].tag != stack[i - 1].tag
  {
    if |stack| > 1 && !Stuck(stack) {
      StepsReachTheBottom(stack[1..]);
      var rest := stack[1..];
      if forall i :: 0 < i < |rest| ==> rest[i].tag != rest[i - 1].tag {
        forall i | 0 < i < |stack| ensures stack[i].tag != stack[i - 1].tag {
          if i > 1 {
            assert rest[i - 1].tag != rest[i - 2].tag;
          }
        }
      } else {
        var i :| 0 < i < |rest| && rest[i].tag == rest[i - 1].tag;
        assert stack[i + 1].tag == stack[i].tag;
      }
    }
  }

  /** Distinct ids that no event has. */
  predicate NewIds(l: Line, ids: seq<string>, from: nat)
  {
    && (forall i :: from <= i < |ids| ==> ValidEventId(ids[i]) && NewId(l, ids[i]))
    && (forall i, j :: 0 <= i < j < |ids| ==> ids[i] != ids[j])
  }

  lemma IdsStayNew(before: Line, after: Line, ids: seq<string>, n: nat)
    requires NewIds(before, ids, n) && n < |ids| && Grew(before, after) && after.activeId == ids[n]
    ensures NewIds(after, ids, n + 1)
  {
    forall i | n < i < |ids| ensures NewId(after, ids[i]) {
      forall j | 0 <= j < |after.events| ensures after.events[j].id != ids[i] {
        if j < |before.events| {
          assert after.events[j] == before.events[j];
          assert NewId(before, ids[i]);
        }
      }
    }
  }

  lemma TopIsActive(l: Line)
    requires ValidLine(l)
    ensures Stack(l)[0] == Version(l.tag, Lower(l.sha))
  {}

  /** The entry has come down to position `n` of the old stack. */
  ghost predicate Along(l: Line, stack: seq<Version>, ids: seq<string>, n: nat)
  {
    n < |stack| && ValidLine(l) && LowerCase(l.events) && NewIds(l, ids, n) && Stack(l) == stack[n..]
  }

  /** One default rollback. */
  method Round(entry: Entry, ids: seq<string>, at: Timestamp, artifacts: Artifacts, ghost stack: seq<Version>, n: nat)
    returns (outcome: Outcome)
    requires Along(entry.Value(), stack, ids, n) && n < |ids| && at.Rfc3339?
    requires n + 1 < |stack| ==> Held(artifacts, stack[n + 1])
    modifies entry
    ensures outcome == if n + 1 == |stack| then Failed else if Stuck(stack[n..]) then AlreadyThere else Done
    ensures outcome != Done ==> Along(entry.Value(), stack, ids, n)
    ensures outcome == Done ==>
              Along(entry.Value(), stack, ids, n + 1) && Version(entry.tag, Lower(entry.sha)) == stack[n + 1]
  {
    if n + 1 < |stack| {
      assert stack[n..][1] == stack[n + 1];
    }
    ghost var before := entry.Value();
    ghost var k;
    outcome, k := Rollback(entry, "", ids[n], at, artifacts, "");
    if outcome == Done {
      assert stack[n..][1..] == stack[n + 1..];
      IdsStayNew(before, entry.Value(), ids, n);
      TopIsActive(entry.Value());
    }
  }

  lemma OneMore(stack: seq<Version>, n: nat)
    requires n + 1 < |stack|
    ensures stack[1..n + 2] == stack[1..n + 1] + [stack[n + 1]]
  {}

  lemma StepsAt(stack: seq<Version>, n: nat)
    requires n < |stack|
    ensures Steps(stack[n..]) == if n + 1 == |stack| || Stuck(stack[n..]) then 0 else 1 + Steps(stack[n + 1..])
  {
    assert stack[n..][1..] == stack[n + 1..];
  }

  /** Roll back by default until that does nothing more. */
  method RollbackAll(entry: Entry, ids: seq<string>, at: Timestamp, artifacts: Artifacts)
    returns (visited: seq<Version>, last: Outcome)
    requires ValidLine(entry.Value()) && LowerCase(entry.events) && at.Rfc3339?
    requires forall i :: 0 < i < |Stack(entry.Value())| ==> Held(artifacts, Stack(entry.Value())[i])
    requires NewIds(entry.Value(), ids, 0) && |ids| >= |Stack(entry.Value())|
    modifies entry
    ensures var stack, n := old(Stack(entry.Value())), Steps(old(Stack(entry.Value())));
            && visited == stack[1..n + 1] && Stack(entry.Value()) == stack[n..]
            && last == if n == |stack| - 1 then Failed else AlreadyThere
  {
    ghost var stack := Stack(entry.Value());
    visited := [];
    var n := 0;
    assert stack[0..] == stack;
    last := Done;
    while last == Done
      invariant Along(entry.Value(), stack, ids, n) && visited == stack[1..n + 1]
      invariant Steps(stack) == n + Steps(stack[n..])
      invariant last != Done ==> Steps(stack) == n && last == if n == |stack| - 1 then Failed else AlreadyThere
      decreases |stack| - n, last == Done
    {
      StepsAt(stack, n);
      last := Round(entry, ids, at, artifacts, stack, n);
      if last == Done {
        OneMore(stack, n);
        visited := visited + [Version(entry.tag, Lower(entry.sha))];
        n := n + 1;
      }
    }
  }

  // ---- what the commands build ----

  /** No two neighbours of the stack share a tag. */
  predicate Distinct(stack: seq<Version>)
  {
    forall i :: 0 < i < |stack| ==> stack[i].tag != stack[i - 1].tag
  }

  datatype Deed =
    | Update(policy: Policy.UpdatePolicy, releases: seq<Policy.Release>, sha: string, id: string, at: Timestamp)
    | Back(to: string, id: string, at: Timestamp, artifacts: Artifacts, anchor: string)

  /** What holds of a tool that only the commands have touched. */
  predicate Kept(l: Line)
  {
    ValidLine(l) && LowerCase(l.events) && Distinct(Stack(l))
  }

  lemma PushKeepsDistinct(stack: seq<Version>, v: Version)
    requires Distinct(stack) && (stack != [] ==> stack[0].tag != v.tag)
    ensures Distinct([v] + stack)
  {
    forall i | 0 < i < |stack| + 1 ensures ([v] + stack)[i].tag != ([v] + stack)[i - 1].tag {
      if i > 1 {
        assert stack[i - 1].tag != stack[i - 2].tag;
      }
    }
  }

  lemma DropKeepsDistinct(stack: seq<Version>, k: nat)
    requires Distinct(stack) && k <= |stack|
    ensures Distinct(stack[k..])
  {
    forall i | 0 < i < |stack| - k ensures stack[k..][i].tag != stack[k..][i - 1].tag {
      assert stack[k + i].tag != stack[k + i - 1].tag;
    }
  }

  /** What the upgrade command makes of a lineage: a push of what the policy activates, unless the history
      refuses the event. */
  ghost predicate Updates(scheme: Policy.Scheme, a: Line, deed: Deed, step: Step, b: Line)
    requires deed.Update?
  {
    exists d: Policy.Decision :: Policy.Decides(scheme, deed.policy, a.tag, deed.releases, d)
      && if d.Activate? && ValidInput(deed.id, d.candidate, deed.sha, deed.at) && NewId(a, deed.id)
            && FreeTag(a, d.candidate, deed.sha) then
           step == Pushed(Version(d.candidate, Lower(deed.sha)))
           && b == Appended(a, UpgradeEvent(a, deed.id, d.candidate, deed.sha, deed.at))
         else
           step == Stayed && b == a
  }

  /** What the rollback command makes of it: a drop to the target, or the original alone, exactly when nothing
      speaks against that. */
  ghost predicate Backs(a: Line, deed: Deed, step: Step, b: Line)
    requires deed.Back? && a.events != []
  {
    && (step == Stayed ==> b == a)
    && (if deed.to != ORIGINAL then
          && (step == Stayed || (step.Popped? && WentBack(Stack(a), Stack(b), deed.to, step.depth)))
          && (step.Popped? <==> exists k :: CanGoBack(a, deed.to, deed.id, deed.at, deed.artifacts, k))
        else
          && (step == Stayed || (step.Reset? && ORIGINAL in deed.artifacts
                                 && step.v == Version(ORIGINAL, Lower(deed.artifacts[ORIGINAL]))))
          && (a.tag != ORIGINAL ==>
                (step.Reset? <==> CanRestore(a, deed.id, deed.at, deed.artifacts, deed.anchor)))
          && (a.tag == ORIGINAL ==> step == Stayed))
  }

  ghost predicate Performs(scheme: Policy.Scheme, a: Line, deed: Deed, step: Step, b: Line)
  {
    && a.events != [] && b.events != [] && Stack(b) == Moved(Stack(a), step)
    && if deed.Update? then Updates(scheme, a, deed, step, b) else Backs(a, deed, step, b)
  }

  /** An upgrade activates what the policy selects, and that is never the active tag. */
  method DoUpdate(entry: Entry, scheme: Policy.Scheme, deed: Deed) returns (ghost step: Step)
    requires Policy.Lawful(scheme) && Kept(entry.Value()) && deed.Update?
    modifies entry
    ensures Kept(entry.Value()) && Performs(scheme, old(entry.Value()), deed, step, entry.Value())
  {
    hide Stack, FreeTag, ValidInput, NewId, Distinct, LowerCase, ValidLine, Policy.Decides, Policy.Lawful;
    var decision := Policy.Select(scheme, deed.policy, entry.tag, deed.releases);
    step := Stayed;
    HasEvents(entry.Value());
    if decision.Activate? {
      ghost var before := entry.Value();
      var ok := entry.RecordUpgrade(deed.id, decision.candidate, deed.sha, deed.at);
      if ok {
        UpdatedIsKept(before, deed, decision.candidate);
        step := Pushed(Version(decision.candidate, Lower(deed.sha)));
        HasEvents(entry.Value());
      }
    }
  }

  lemma UpdatedIsKept(a: Line, deed: Deed, tag: string)
    requires Kept(a) && deed.Update? && tag != a.tag
    requires var b := Appended(a, UpgradeEvent(a, deed.id, tag, deed.sha, deed.at));
             ValidLine(b) && Stack(b) == [Version(tag, Lower(deed.sha))] + Stack(a)
    ensures Kept(Appended(a, UpgradeEvent(a, deed.id, tag, deed.sha, deed.at)))
  {
    TopIsActive(a);
    LowerTwice(deed.sha);
    AppendGrows(a, UpgradeEvent(a, deed.id, tag, deed.sha, deed.at));
    PushKeepsDistinct(Stack(a), Version(tag, Lower(deed.sha)));
  }

  method DoBack(entry: Entry, ghost scheme: Policy.Scheme, deed: Deed) returns (ghost step: Step)
    requires Kept(entry.Value()) && deed.Back?
    modifies entry
    ensures Kept(entry.Value()) && Performs(scheme, old(entry.Value()), deed, step, entry.Value())
  {
    hide Stack, CanGoBack, CanRestore, Distinct, LowerCase, ValidLine;
    ghost var a := entry.Value();
    HasEvents(a);
    var outcome;
    ghost var k;
    outcome, k := Rollback(entry, deed.to, deed.id, deed.at, deed.artifacts, deed.anchor);
    step := if outcome != Done then Stayed
            else if deed.to != ORIGINAL then Popped(k)
            else Reset(Version(ORIGINAL, Lower(deed.artifacts[ORIGINAL])));
    if outcome == Done {
      HasEvents(entry.Value());
      BackIsKept(a, entry.Value(), deed, k);
    }
  }

  lemma BackIsKept(a: Line, b: Line, deed: Deed, k: nat)
    requires Kept(a) && deed.Back? && ValidLine(b) && Grew(a, b)
    requires deed.to != ORIGINAL ==> WentBack(Stack(a), Stack(b), deed.to, k)
    requires deed.to == ORIGINAL ==> |Stack(b)| == 1
    ensures Kept(b)
  {
    if deed.to != ORIGINAL {
      DropKeepsDistinct(Stack(a), k);
    }
  }

  /** Each line leads to the next by its deed and its step. */
  ghost predicate Lived(scheme: Policy.Scheme, lines: seq<Line>, deeds: seq<Deed>, steps: seq<Step>)
    requires |steps| <= |deeds| && |lines| == |steps| + 1
  {
    forall n :: 0 <= n < |steps| ==> Performs(scheme, lines[n], deeds[n], steps[n], lines[n + 1])
  }

  /** The life of a tool: adopted, then upgraded and rolled back at will. Every deed does what its command
      does at that moment, the stack is the replay of the steps, and no two neighbours of it share a tag. */
  method Live(entry: Entry, id: string, at: Timestamp, scheme: Policy.Scheme, deeds: seq<Deed>)
    returns (adopted: bool, ghost lines: seq<Line>, ghost steps: seq<Step>)
    requires Policy.Lawful(scheme) && entry.activeId == "" && entry.events == []
    modifies entry
    ensures adopted <==> ValidInput(id, old(entry.tag), old(entry.sha), at)
    ensures !adopted ==> entry.Value() == old(entry.Value())
    ensures adopted ==>
              && Kept(entry.Value()) && |steps| == |deeds| && |lines| == |deeds| + 1
              && Stack(lines[0]) == [Version(old(entry.tag), Lower(old(entry.sha)))]
              && lines[|deeds|] == entry.Value() && Lived(scheme, lines, deeds, steps)
              && Stack(entry.Value()) == Replay(Stack(lines[0]), steps)
  {
    lines, steps := [], [];
    adopted := entry.RecordAdopt(id, at);
    if !adopted {
      return;
    }
    LowerTwice(old(entry.sha));
    AdoptedIsKept(entry.Value());
    lines, steps := LiveOn(entry, scheme, deeds);
  }

  method LiveOn(entry: Entry, scheme: Policy.Scheme, deeds: seq<Deed>)
    returns (ghost lines: seq<Line>, ghost steps: seq<Step>)
    requires Policy.Lawful(scheme) && Kept(entry.Value())
    modifies entry
    ensures Kept(entry.Value()) && |steps| == |deeds| && |lines| == |deeds| + 1
    ensures lines[0] == old(entry.Value()) && lines[|deeds|] == entry.Value() && Lived(scheme, lines, deeds, steps)
    ensures Stack(entry.Value()) == Replay(Stack(lines[0]), steps)
  {
    hide Kept, Policy.Lawful, Performs, Stack, Replay;
    lines, steps := [entry.Value()], [];
    NoDeeds(entry.Value());
    for i := 0 to |deeds|
      invariant Kept(entry.Value()) && |steps| == i && |lines| == i + 1
      invariant lines[0] == old(entry.Value()) && lines[i] == entry.Value() && Lived(scheme, lines, deeds, steps)
      invariant Stack(entry.Value()) == Replay(Stack(lines[0]), steps)
    {
      ghost var step;
      if deeds[i].Update? {
        step := DoUpdate(entry, scheme, deeds[i]);
      } else {
        step := DoBack(entry, scheme, deeds[i]);
      }
      LivedMore(scheme, lines, deeds, steps, step, entry.Value());
      Undo.OneMore(Stack(lines[0]), steps, step);
      lines, steps := lines + [entry.Value()], steps + [step];
    }
  }

  lemma NoDeeds(l: Line)
    ensures Stack(l) == Replay(Stack(l), [])
  {}

  lemma LivedMore(scheme: Policy.Scheme, lines: seq<Line>, deeds: seq<Deed>, steps: seq<Step>, step: Step, l: Line)
    requires |steps| < |deeds| && |lines| == |steps| + 1 && Lived(scheme, lines, deeds, steps)
    requires Performs(scheme, lines[|steps|], deeds[|steps|], step, l)
    ensures Lived(scheme, lines + [l], deeds, steps + [step]) && Stack(l) == Moved(Stack(lines[|steps|]), step)
  {
    hide Updates, Backs, Stack, Moved;
  }

  lemma AdoptedIsKept(l: Line)
    requires ValidLine(l) && |l.events| == 1 && Lower(l.events[0].sha) == l.events[0].sha && |Stack(l)| == 1
    ensures Kept(l)
  {}

  /** At any time of its life, the default rollback visits every version below the active one, in order, and
      ends at the bottom. */
  method DrainTool(entry: Entry, ids: seq<string>, at: Timestamp, artifacts: Artifacts)
    returns (visited: seq<Version>, last: Outcome)
    requires Kept(entry.Value()) && at.Rfc3339?
    requires forall i :: 0 < i < |Stack(entry.Value())| ==> Held(artifacts, Stack(entry.Value())[i])
    requires NewIds(entry.Value(), ids, 0) && |ids| >= |Stack(entry.Value())|
    modifies entry
    ensures var stack := old(Stack(entry.Value()));
            visited == stack[1..] && Stack(entry.Value()) == stack[|stack| - 1..] && last == Failed
  {
    StepsReachTheBottom(Stack(entry.Value()));
    visited, last := RollbackAll(entry, ids, at, artifacts);
  }

  /** Only a repeated activation recorded past the commands makes neighbours with one tag: recording the
      active version once more is accepted, and the default rollback does nothing from then on. */
  method Repeat(entry: Entry, id: string, at: Timestamp) returns (ok: bool)
    requires ValidLine(entry.Value()) && ValidEventId(id) && NewId(entry.Value(), id) && at.Rfc3339?
    modifies entry
    ensures ok && ValidLine(entry.Value()) && Stuck(Stack(entry.Value())) && Steps(Stack(entry.Value())) == 0
  {
    var l := entry.Value();
    var active := l.events[|l.events| - 1];
    ActiveMayRepeat(l, id, at);
    TopIsActive(l);
    ok := entry.RecordUpgrade(id, active.tag, active.sha, at);
  }

  lemma ActiveMayRepeat(l: Line, id: string, at: Timestamp)
    requires ValidLine(l) && ValidEventId(id) && at.Rfc3339?
    ensures var active := l.events[|l.events| - 1];
            ValidInput(id, active.tag, active.sha, at) && FreeTag(l, active.tag, active.sha)
  {
    var active := l.events[|l.events| - 1];
    assert active in l.events && ValidEvent(active);
    forall e | e in l.events && e.tag == active.tag ensures EqualFold(e.sha, active.sha) {
      assert Agree(e, active);
    }
  }
}
