/** Which rollback targets stay available over whole runs of upgrades, rollbacks and prunes. */
module Retention {
  import opened Options
  import opened Names
  import opened Versions
  import opened Undo
  import Lineage

  /** A version of the lineage and its artifact in the store. */
  predicate Available(places: Places, v: Lineage.Version)
  {
    Inspect(places, v.tag) == Some(v.sha)
  }

  /** The first `count` rollback targets, or all of them, are available. */
  ghost predicate Reachable(places: Places, stack: seq<Lineage.Version>, count: nat)
  {
    forall i :: 0 < i < |stack| && i <= count ==> Available(places, stack[i])
  }

  /** Digests on the stack are in lower case. */
  predicate Recorded(stack: seq<Lineage.Version>)
  {
    forall v :: v in stack ==> ValidDigest(v.sha) && Lower(v.sha) == v.sha && v.tag != ""
  }

  function Refs(stack: seq<Lineage.Version>): seq<Ref>
  {
    seq(|stack|, i requires 0 <= i < |stack| => Ref(stack[i].tag, stack[i].sha))
  }

  /** How many rollback targets one step leaves of `g`. */
  function Left(depth: nat, g: nat, step: Step): nat
  {
    match step
    case Pushed(_) => Least(depth, g + 1)
    case Popped(k) => if k < g then g - k else 0
    case Reset(_) => 0
    case Stayed => g
  }

  /** How many rollback targets are sure to be available after these steps. */
  function Guarantee(depth: nat, steps: seq<Step>): nat
  {
    if steps == [] then 0 else Left(depth, Guarantee(depth, steps[..|steps| - 1]), steps[|steps| - 1])
  }

  function Least(a: nat, b: nat): nat { if a < b then a else b }

  /** Storing a version loses none. */
  lemma PutKeeps(a: Places, b: Places, tag: string)
    requires forall other :: other != tag && other in a ==> other in b && b[other] == a[other]
    requires tag in a && a[tag] != Folder([]) ==> b == a
    ensures forall v :: Available(a, v) ==> Available(b, v)
  {}

  lemma ReachableKept(a: Places, b: Places, stack: seq<Lineage.Version>, count: nat)
    requires Reachable(a, stack, count) && forall v :: Available(a, v) ==> Available(b, v)
    ensures Reachable(b, stack, count)
  {}

  lemma ReachableLess(places: Places, stack: seq<Lineage.Version>, count: nat, less: nat)
    requires Reachable(places, stack, count) && less <= count
    ensures Reachable(places, stack, less)
  {}

  /** The retained ancestors of a prune are the targets up to the retention depth. */
  lemma RetainedTag(stack: seq<Lineage.Version>, request: Request, i: nat)
    requires stack != [] && request.retain >= 0 && request.ancestors == Refs(stack[1..])
    requires 0 < i < |stack| && i <= request.retain
    ensures stack[i].tag in Tags(Retained(request))
  {
    var refs := Retained(request);
    assert refs[i - 1] == Ref(stack[i].tag, stack[i].sha);
    assert refs[i - 1].tag in Tags(refs);
  }

  /** Pruning keeps the targets up to the retention depth, whatever happens. */
  lemma PruneKeeps(a: Places, b: Places, stack: seq<Lineage.Version>, request: Request, count: nat)
    requires stack != [] && request.retain >= 0 && request.ancestors == Refs(stack[1..])
    requires forall tag :: tag in Needed(a, request) && tag in a ==> tag in b && b[tag] == a[tag]
    requires Reachable(a, stack, count)
    ensures Reachable(b, stack, Least(request.retain, count))
  {
    forall i | 0 < i < |stack| && i <= Least(request.retain, count) ensures Available(b, stack[i]) {
      RetainedTag(stack, request, i);
      assert Available(a, stack[i]);
    }
  }

  lemma PushReachable(places: Places, stack: seq<Lineage.Version>, v: Lineage.Version, count: nat)
    requires stack != [] && Reachable(places, stack, count) && Available(places, stack[0])
    ensures Reachable(places, [v] + stack, count + 1)
  {
    forall i | 0 < i < |stack| + 1 && i <= count + 1 ensures Available(places, ([v] + stack)[i]) {
      assert ([v] + stack)[i] == stack[i - 1];
    }
  }

  lemma PopReachable(places: Places, stack: seq<Lineage.Version>, k: nat, count: nat)
    requires k < |stack| && k <= count && Reachable(places, stack, count)
    ensures Reachable(places, stack[k..], count - k)
  {}

  /** A tag keeps its digest over the whole history. */
  predicate Binding(bound: map<string, string>, tag: string, digest: Sha)
  {
    tag in bound ==> bound[tag] == digest
  }

  /** Nothing in the store or in the history speaks against the new version, nor against storing the
      current one. */
  predicate Storing(places: Places, stack: seq<Lineage.Version>, bound: map<string, string>,
                    tag: string, file: string, digest: Sha, currentFile: string)
  {
    && stack != [] && Recorded(stack)
    && Storable(places, tag, file, digest) && tag != stack[0].tag && Binding(bound, tag, digest)
    && (stack[0].tag == ORIGINAL || Storable(places, stack[0].tag, currentFile, stack[0].sha))
  }

  /** Spelled out: the version has a valid tag, and is not there, empty, or there with the same content. */
  ghost predicate Writable(places: Places, tag: string, file: string, digest: Sha)
  {
    ValidVersion(tag)
    && (tag in places && places[tag] != Folder([Binary(file, digest)]) ==> places[tag] == Folder([]))
  }

  /** Only a tag that is bound otherwise, another content in the store, or the active tag speaks against an upgrade. */
  lemma WritableIsStoring(places: Places, stack: seq<Lineage.Version>, bound: map<string, string>,
                          tag: string, file: string, digest: Sha, currentFile: string)
    requires stack != [] && Recorded(stack) && tag != stack[0].tag && (tag in bound ==> bound[tag] == digest)
    requires Writable(places, tag, file, digest)
    requires assert stack[0] in stack; stack[0].tag != ORIGINAL ==> Writable(places, stack[0].tag, currentFile, stack[0].sha)
    ensures Storing(places, stack, bound, tag, file, digest, currentFile)
  {
    hide ValidVersion;
  }

  /** The store with both the new version and, unless the original is live, the current one. */
  function Stocked(places: Places, stack: seq<Lineage.Version>, tag: string, file: string, digest: Sha,
                   currentFile: string): Places
    requires stack != [] && Recorded(stack)
  {
    assert stack[0] in stack;
    var first := places[tag := Folder([Binary(file, digest)])];
    if stack[0].tag == ORIGINAL then first else first[stack[0].tag := Folder([Binary(currentFile, stack[0].sha)])]
  }

  /** Everything that must survive a prune is in place. */
  predicate Prunable(places: Places, stack: seq<Lineage.Version>, depth: nat, pinned: string)
  {
    && stack != [] && Orderly(places) && Inspect(places, ORIGINAL).Some? && (pinned != "" ==> ValidVersion(pinned))
    && forall i :: 0 <= i < |stack| && i <= depth ==> Available(places, stack[i])
  }

  /** What a prune needs, spelled out: the active version, the original, the pin, and the targets up to the depth. */
  lemma NeededSpelledOut(places: Places, stack: seq<Lineage.Version>, depth: nat, pinned: string, request: Request, tag: string)
    requires stack != [] && request == Request(Ref(stack[0].tag, stack[0].sha), pinned, Refs(stack[1..]), depth)
    requires tag in places
    ensures tag in Needed(places, request) <==>
            tag in {stack[0].tag, ORIGINAL, pinned}
            || exists i :: 0 < i < |stack| && i <= depth && stack[i].tag == tag
  {
    var refs := Retained(request);
    if tag in Tags(refs) {
      var j :| 0 <= j < |refs| && refs[j].tag == tag;
      assert stack[j + 1].tag == tag;
    }
    if i :| 0 < i < |stack| && i <= depth && stack[i].tag == tag {
      RetainedTag(stack, request, i);
    }
  }

  lemma PrunableIsPlannable(places: Places, stack: seq<Lineage.Version>, depth: nat, pinned: string, request: Request)
    requires stack != [] && Recorded(stack)
    requires request == Request(Ref(stack[0].tag, stack[0].sha), pinned, Refs(stack[1..]), depth)
    ensures Plannable(places, request) <==> Prunable(places, stack, depth, pinned)
  {
    hide Orderly, Inspect, ValidVersion;
    assert stack[0] in stack;
    var refs := Retained(request);
    forall i | 0 <= i < |refs| ensures refs[i] in refs && (Stored(places, refs[i]) <==> Available(places, stack[i + 1])) {
      assert stack[i + 1] in stack;
    }
    forall i | 0 < i < |stack| && i <= depth ensures Stored(places, refs[i - 1]) <==> Available(places, stack[i]) {}
  }

  /** The original backup is there, is what was adopted, and does not contradict the history. */
  predicate Restoring(places: Places, bound: map<string, string>, anchor: string)
  {
    var original := Inspect(places, ORIGINAL);
    original.Some? && (anchor != "" ==> original.value == anchor) && Binding(bound, ORIGINAL, original.value)
  }

  /** A tool at rest: its undo stack, the digest that every tag of its history is bound to, and the store
      that holds its versions. The bottom of a fresh stack is what was adopted, of which the store only has
      the original backup. */
  class Tool {
    const store: ToolStore
    const depth: nat
    const pinned: string
    /** The digest of what was adopted, if it was recorded. */
    const anchor: string
    var stack: seq<Lineage.Version>
    var bound: map<string, string>

    ghost predicate Valid()
      reads this, store
    {
      && stack != [] && Recorded(stack)
      && (forall v :: v in stack ==> v.tag in bound && bound[v.tag] == v.sha)
      && (stack[0].tag == ORIGINAL ==> Available(store.places, stack[0]))
    }

    constructor (store: ToolStore, depth: nat, pinned: string, adopted: Lineage.Version)
      requires Recorded([adopted]) && adopted.tag != ORIGINAL
      ensures this.store == store && this.depth == depth && this.pinned == pinned && stack == [adopted]
      ensures Valid() && anchor == adopted.sha
    {
      this.store, this.depth, this.pinned, this.stack := store, depth, pinned, [adopted];
      this.anchor, this.bound := adopted.sha, map[adopted.tag := adopted.sha];
    }

    predicate Binds(tag: string, digest: Sha)
      reads this
    {
      Binding(bound, tag, digest)
    }

    predicate CanStore(places: Places, tag: string, file: string, digest: Sha, currentFile: string)
      reads this
    {
      Storing(places, stack, bound, tag, file, digest, currentFile)
    }

    /** Make sure that the store has both the new version and, unless the original is live, the
        current one. */
    method StoreBoth(tag: string, file: string, digest: Sha, currentFile: string) returns (ok: bool)
      requires Valid()
      modifies store
      ensures Valid()
      ensures forall v :: Available(old(store.places), v) ==> Available(store.places, v)
      ensures store.places.Keys <= old(store.places).Keys + {tag, stack[0].tag}
      ensures ok ==> ValidVersion(tag) && Available(store.places, stack[0])
                     && store.places == Stocked(old(store.places), stack, tag, file, digest, currentFile)
                     && (Binds(tag, digest) ==> Available(store.places, Lineage.Version(tag, digest)))
      ensures store.reliable && CanStore(old(store.places), tag, file, digest, currentFile) ==> ok
    {
      ok := store.Put(tag, file, digest);
      PutKeeps(old(store.places), store.places, tag);
      if !ok {
        return;
      }
      ghost var stored := store.places;
      if stack[0].tag != ORIGINAL {
        assert stack[0] in stack;
        ok := store.Put(stack[0].tag, currentFile, stack[0].sha);
        PutKeeps(stored, store.places, stack[0].tag);
      }
    }

    /** Store the versions, activate the new one, then prune. The transaction may fail, and pruning
        is skipped unless the journal was cleaned up. `count` targets were available before. */
    method Upgrade(tag: string, file: string, digest: Sha, currentFile: string, commits: bool, clean: bool,
                   ghost count: nat)
      returns (ok: bool)
      requires Valid() && Reachable(store.places, stack, count)
      modifies this`stack, this`bound, store
      ensures Valid()
      ensures stack == if ok then [Lineage.Version(tag, digest)] + old(stack) else old(stack)
      ensures bound == if ok then old(bound)[tag := digest] else old(bound)
      ensures Reachable(store.places, stack, if ok then Least(depth, count + 1) else count)
      ensures ok ==> commits && old(Binds(tag, digest))
      ensures !ok ==> forall v :: Available(old(store.places), v) ==> Available(store.places, v)
      ensures store.reliable && commits && old(CanStore(store.places, tag, file, digest, currentFile)) ==> ok
      // The new version is in the store, and nothing else has come but the one it replaces.
      ensures store.places.Keys <= old(store.places).Keys + {tag, old(stack)[0].tag}
      ensures ok && tag != old(stack)[0].tag ==> tag in store.places && store.places[tag] == Folder([Binary(file, digest)])
      // Unless the journal was cleaned up, nothing goes.
      ensures ok && !clean ==> store.places == Stocked(old(store.places), old(stack), tag, file, digest, currentFile)
      // Of what was stored nothing goes that is needed, and without faults everything else does.
      ensures ok && clean ==>
                var stocked := Stocked(old(store.places), old(stack), tag, file, digest, currentFile);
                && store.places.Keys <= stocked.Keys
                && (forall t :: t in stocked && t in {tag, ORIGINAL, pinned} ==>
                      t in store.places && store.places[t] == stocked[t])
                && (forall i :: 0 < i < |stack| && i <= depth && stack[i].tag in stocked ==>
                      stack[i].tag in store.places && store.places[stack[i].tag] == stocked[stack[i].tag])
                && (store.reliable && Prunable(stocked, stack, depth, pinned) ==>
                      forall t :: t in store.places && t !in {tag, ORIGINAL, pinned} ==>
                        exists i :: 0 < i < |stack| && i <= depth && stack[i].tag == t)
                && (!Prunable(stocked, stack, depth, pinned) ==> store.places == stocked)
    {
      hide Reachable, Available, Storable, ValidVersion, Inspect, Prunable;
      ok := StoreBoth(tag, file, digest, currentFile);
      ReachableKept(old(store.places), store.places, stack, count);
      if !ok || !commits || (tag in bound && bound[tag] != digest) {
        return false;
      }
      PushReachable(store.places, stack, Lineage.Version(tag, digest), count);
      stack, bound := [Lineage.Version(tag, digest)] + stack, bound[tag := digest];
      assert forall v :: v in stack ==> v in old(stack) || v == Lineage.Version(tag, digest);
      ReachableLess(store.places, stack, count + 1, Least(depth, count + 1));
      if clean {
        Prune(count + 1);
      }
    }

    /** Remove the versions that nothing needs any more. */
    method Prune(ghost count: nat)
      requires Valid() && Reachable(store.places, stack, count) && Available(store.places, stack[0])
      modifies store
      ensures Valid() && Reachable(store.places, stack, Least(depth, count))
      ensures store.places.Keys <= old(store.places).Keys
      // The active version, the original, the pin and the targets up to the depth stay as they are, and without
      // faults nothing else stays.
      ensures forall tag :: tag in old(store.places) && tag in {stack[0].tag, ORIGINAL, pinned} ==>
                tag in store.places && store.places[tag] == old(store.places)[tag]
      ensures forall i :: 0 < i < |stack| && i <= depth && stack[i].tag in old(store.places) ==>
                stack[i].tag in store.places && store.places[stack[i].tag] == old(store.places)[stack[i].tag]
      ensures store.reliable && Prunable(old(store.places), stack, depth, pinned) ==>
                forall tag :: tag in store.places && tag !in {stack[0].tag, ORIGINAL, pinned} ==>
                  exists i :: 0 < i < |stack| && i <= depth && stack[i].tag == tag
      // When something needed is missing, nothing goes.
      ensures !Prunable(old(store.places), stack, depth, pinned) ==> store.places == old(store.places)
    {
      hide Plannable, Prunable;
      ghost var places := store.places;
      var request := Request(Ref(stack[0].tag, stack[0].sha), pinned, Refs(stack[1..]), depth);
      var pruned := store.PruneHistory(request);
      PruneKeeps(places, store.places, stack, request, count);
      forall tag | tag in places
        ensures tag in Needed(places, request) <==>
                tag in {stack[0].tag, ORIGINAL, pinned}
                || exists i :: 0 < i < |stack| && i <= depth && stack[i].tag == tag
      {
        NeededSpelledOut(places, stack, depth, pinned, request, tag);
      }
      PrunableIsPlannable(places, stack, depth, pinned, request);
    }

    /** Go down to the k-th entry of the stack, if the store still has it with its recorded digest. */
    method Rollback(k: nat, commits: bool, ghost count: nat) returns (found: bool)
      requires Valid() && 0 < k < |stack| && Reachable(store.places, stack, count)
      modifies this`stack
      ensures Valid()
      ensures found <==> Available(store.places, old(stack)[k])
      ensures stack == if found && commits then old(stack)[k..] else old(stack)
      ensures Reachable(store.places, stack, if found && commits then (if k < count then count - k else 0) else count)
    {
      found := Inspect(store.places, stack[k].tag) == Some(stack[k].sha);
      if found && commits {
        if k <= count {
          PopReachable(store.places, stack, k, count);
        }
        stack := stack[k..];
      }
    }

    predicate CanRestore(places: Places)
      reads this
    {
      Restoring(places, bound, anchor)
    }

    /** Go back to the original. */
    method RestoreOriginal() returns (ok: bool)
      requires Valid()
      modifies this`stack, this`bound
      ensures Valid()
      ensures ok <==> old(CanRestore(store.places))
      ensures ok <==> var original := Inspect(store.places, ORIGINAL);
                      && original.Some? && (anchor == "" || original.value == anchor)
                      && (ORIGINAL in old(bound) ==> old(bound)[ORIGINAL] == original.value)
      ensures ok ==> stack == [Lineage.Version(ORIGINAL, Inspect(store.places, ORIGINAL).value)]
                     && bound == old(bound)[ORIGINAL := Inspect(store.places, ORIGINAL).value]
                     && (anchor == "" || stack[0].sha == anchor)
                     && (ORIGINAL in old(bound) ==> old(bound)[ORIGINAL] == stack[0].sha)
      ensures !ok ==> stack == old(stack) && bound == old(bound)
    {
      var original := Inspect(store.places, ORIGINAL);
      if original.None? || (anchor != "" && original.value != anchor) {
        return false;
      }
      ok := !(ORIGINAL in bound && bound[ORIGINAL] != original.value);
      if ok {
        stack, bound := [Lineage.Version(ORIGINAL, original.value)], bound[ORIGINAL := original.value];
      }
    }
  }

  datatype Action =
    | Upgrade(tag: string, file: string, digest: Sha, currentFile: string, commits: bool, clean: bool)
    | Rollback(k: nat, commits: bool)
    | Restore

  /** A tool at one moment. */
  datatype Scene = Scene(places: Places, stack: seq<Lineage.Version>, bound: map<string, string>)

  function Now(tool: Tool): Scene
    reads tool, tool.store
  {
    Scene(tool.store.places, tool.stack, tool.bound)
  }

  /** What does not change. */
  datatype Setting = Setting(reliable: bool, depth: nat, pinned: string, anchor: string)

  function Fixed(tool: Tool): Setting
  {
    Setting(tool.store.reliable, tool.depth, tool.pinned, tool.anchor)
  }

  /** What is left of a stocked store: without a clean-up all of it; otherwise everything needed, nothing new, and
      without faults nothing else, unless something needed is missing and all of it stays. */
  ghost predicate Trimmed(stocked: Places, b: Scene, clean: bool, fixed: Setting)
    requires b.stack != []
  {
    if !clean then b.places == stocked
    else
      && b.places.Keys <= stocked.Keys
      && (forall t :: t in stocked && t in {b.stack[0].tag, ORIGINAL, fixed.pinned} ==>
            t in b.places && b.places[t] == stocked[t])
      && (forall i :: 0 < i < |b.stack| && i <= fixed.depth && b.stack[i].tag in stocked ==>
            b.stack[i].tag in b.places && b.places[b.stack[i].tag] == stocked[b.stack[i].tag])
      && (if Prunable(stocked, b.stack, fixed.depth, fixed.pinned) then
            fixed.reliable ==>
              forall t :: t in b.places && t !in {b.stack[0].tag, ORIGINAL, fixed.pinned} ==>
                exists i :: 0 < i < |b.stack| && i <= fixed.depth && b.stack[i].tag == t
          else
            b.places == stocked)
  }

  /** What one action makes of the tool, and the reason when it stays without effect. */
  ghost predicate Leads(a: Scene, action: Action, step: Step, b: Scene, fixed: Setting)
  {
    && b.stack == Moved(a.stack, step)
    && match action
       case Upgrade(tag, file, digest, currentFile, commits, clean) =>
         && (step.Pushed? && a.stack != [] && Recorded(a.stack) ==>
               Trimmed(Stocked(a.places, a.stack, tag, file, digest, currentFile), b, clean, fixed))
         && (step == Stayed || (commits && Binding(a.bound, tag, digest) && step == Pushed(Lineage.Version(tag, digest))))
         && (fixed.reliable && commits && Storing(a.places, a.stack, a.bound, tag, file, digest, currentFile) ==> step.Pushed?)
         && b.bound == (if step.Pushed? then a.bound[tag := digest] else a.bound)
         && (step == Stayed ==> forall v :: Available(a.places, v) ==> Available(b.places, v))
         && (step.Pushed? && a.stack != [] && tag != a.stack[0].tag ==>
               tag in b.places && b.places[tag] == Folder([Binary(file, digest)]))
         && (a.stack != [] ==> b.places.Keys <= a.places.Keys + {tag, a.stack[0].tag})
       case Rollback(k, commits) =>
         && b.places == a.places && b.bound == a.bound && (step == Stayed || step == Popped(k))
         && (step.Popped? <==> 0 < k < |a.stack| && commits && Available(a.places, a.stack[k]))
       case Restore =>
         && b.places == a.places && (step == Stayed || step.Reset?)
         && (step.Reset? <==> Restoring(a.places, a.bound, fixed.anchor))
         && (step.Reset? ==>
               step.v.tag == ORIGINAL && Inspect(a.places, ORIGINAL) == Some(step.v.sha)
               // It is what was adopted, and the history does not contradict it.
               && (fixed.anchor == "" || step.v.sha == fixed.anchor)
               && (ORIGINAL in a.bound ==> a.bound[ORIGINAL] == step.v.sha)
               && b.bound == a.bound[ORIGINAL := step.v.sha])
         && (step == Stayed ==> b.bound == a.bound)
  }

  method TakeUpgrade(tool: Tool, action: Action, ghost count: nat) returns (step: Step)
    requires tool.Valid() && Reachable(tool.store.places, tool.stack, count) && action.Upgrade?
    modifies tool, tool.store
    ensures tool.Valid() && Reachable(tool.store.places, tool.stack, Left(tool.depth, count, step))
    ensures Leads(old(Now(tool)), action, step, Now(tool), Fixed(tool))
  {
    hide Stocked, Prunable, Storing, Reachable, Available, ValidVersion;
    var ok := tool.Upgrade(action.tag, action.file, action.digest, action.currentFile, action.commits, action.clean, count);
    step := if ok then Pushed(Lineage.Version(action.tag, action.digest)) else Stayed;
  }

  /** One command. `count` targets were available before. */
  method Take(tool: Tool, action: Action, ghost count: nat) returns (step: Step)
    requires tool.Valid() && Reachable(tool.store.places, tool.stack, count)
    modifies tool, tool.store
    ensures tool.Valid() && Reachable(tool.store.places, tool.stack, Left(tool.depth, count, step))
    ensures Leads(old(Now(tool)), action, step, Now(tool), Fixed(tool))
    // A target that is sure to be available is found.
    ensures action.Rollback? && 0 < action.k < |old(tool.stack)| && action.k <= count && action.commits ==>
              step == Popped(action.k)
  {
    step := Stayed;
    match action {
      case Upgrade(_, _, _, _, _, _) =>
        step := TakeUpgrade(tool, action, count);
      case Rollback(k, commits) =>
        if 0 < k < |tool.stack| {
          var found := tool.Rollback(k, commits, count);
          step := if found && commits then Popped(k) else Stayed;
        }
      case Restore =>
        var ok := tool.RestoreOriginal();
        step := if ok then Reset(tool.stack[0]) else Stayed;
    }
  }

  /** Each scene leads to the next by its action and its step. */
  ghost predicate Played(scenes: seq<Scene>, actions: seq<Action>, steps: seq<Step>, fixed: Setting)
    requires |steps| <= |actions| && |scenes| == |steps| + 1
  {
    forall n :: 0 <= n < |steps| ==> Leads(scenes[n], actions[n], steps[n], scenes[n + 1], fixed)
  }

  /** At every moment the targets that the steps so far guarantee are available. */
  ghost predicate Guaranteed(depth: nat, scenes: seq<Scene>, steps: seq<Step>)
    requires |scenes| == |steps| + 1
  {
    forall n :: 0 <= n < |scenes| ==> Reachable(scenes[n].places, scenes[n].stack, Guarantee(depth, steps[..n]))
  }

  lemma PlayedMore(scenes: seq<Scene>, actions: seq<Action>, steps: seq<Step>, step: Step, scene: Scene,
                   fixed: Setting)
    requires |steps| < |actions| && |scenes| == |steps| + 1 && Played(scenes, actions, steps, fixed)
    requires Leads(scenes[|steps|], actions[|steps|], step, scene, fixed)
    ensures Played(scenes + [scene], actions, steps + [step], fixed)
  {
    hide Leads;
  }

  lemma GuaranteedMore(scenes: seq<Scene>, steps: seq<Step>, step: Step, scene: Scene, depth: nat)
    requires |scenes| == |steps| + 1 && Guaranteed(depth, scenes, steps)
    requires Reachable(scene.places, scene.stack, Guarantee(depth, steps + [step]))
    ensures Guaranteed(depth, scenes + [scene], steps + [step])
  {
    hide Reachable, Guarantee;
    var more, all := steps + [step], scenes + [scene];
    forall n | 0 <= n < |all| ensures Reachable(all[n].places, all[n].stack, Guarantee(depth, more[..n])) {
      assert n < |scenes| ==> more[..n] == steps[..n];
      assert n == |scenes| ==> more[..n] == more;
    }
  }

  /** Any run, moment by moment: each action leads from one scene to the next, staying without effect only
      for a reason that holds there, the stack is the replay of the steps, and the targets that the steps
      guarantee are available all the time. */
  method Run(tool: Tool, actions: seq<Action>) returns (steps: seq<Step>, ghost scenes: seq<Scene>)
    requires tool.Valid() && |tool.stack| == 1
    modifies tool, tool.store
    ensures tool.Valid() && |steps| == |actions| && |scenes| == |actions| + 1
    ensures scenes[0] == old(Now(tool)) && scenes[|actions|] == Now(tool)
    ensures Played(scenes, actions, steps, Fixed(tool))
    ensures Guaranteed(tool.depth, scenes, steps) && tool.stack == Replay(old(tool.stack), steps)
  {
    hide Leads, Reachable, Left, Replay;
    steps, scenes := [], [Now(tool)];
    NoSteps(tool.stack);
    assert Reachable(tool.store.places, tool.stack, 0) by { NothingBelow(tool.store.places, tool.stack); }
    for n := 0 to |actions|
      invariant tool.Valid() && |steps| == n && |scenes| == n + 1
      invariant scenes[0] == old(Now(tool)) && scenes[n] == Now(tool)
      invariant Played(scenes, actions, steps, Fixed(tool))
      invariant Guaranteed(tool.depth, scenes, steps) && tool.stack == Replay(old(tool.stack), steps)
    {
      assert steps[..n] == steps;
      var step := Take(tool, actions[n], Guarantee(tool.depth, steps));
      LeadsOn(scenes[n], actions[n], step, Now(tool), Fixed(tool));
      PlayedMore(scenes, actions, steps, step, Now(tool), Fixed(tool));
      assert (steps + [step])[..n] == steps;
      OneMore(old(tool.stack), steps, step);
      GuaranteedMore(scenes, steps, step, Now(tool), tool.depth);
      steps, scenes := steps + [step], scenes + [Now(tool)];
    }
  }

  lemma NoSteps(stack: seq<Lineage.Version>)
    ensures Replay(stack, []) == stack
  {}

  lemma NothingBelow(places: Places, stack: seq<Lineage.Version>)
    ensures Reachable(places, stack, 0)
  {}

  lemma LeadsOn(a: Scene, action: Action, step: Step, b: Scene, fixed: Setting)
    requires Leads(a, action, step, b, fixed)
    ensures b.stack == Moved(a.stack, step)
  {}

  // ---- upgrades one after the other, then rollbacks one by one ----

  function New(action: Action): Lineage.Version
    requires action.Upgrade?
  {
    Lineage.Version(action.tag, action.digest)
  }

  /** Upgrades to versions that neither the store nor the history knows, each under the tool's own name. */
  predicate Series(upgrades: seq<Action>, places: Places, bound: map<string, string>, adopted: Lineage.Version, name: string)
  {
    && (forall n :: 0 <= n < |upgrades| ==>
          && upgrades[n].Upgrade? && upgrades[n].commits && upgrades[n].file == name == upgrades[n].currentFile
          && ValidVersion(upgrades[n].tag) && upgrades[n].tag !in places && upgrades[n].tag !in bound)
    && (forall n, m :: 0 <= n < m < |upgrades| ==> upgrades[n].tag != upgrades[m].tag)
    && ValidDigest(adopted.sha) && Lower(adopted.sha) == adopted.sha && Storable(places, adopted.tag, name, adopted.sha)
  }

  /** The series has come this far without a failure. */
  ghost predicate OnTrack(tool: Tool, upgrades: seq<Action>, n: nat, places: Places, bound: map<string, string>,
                          adopted: Lineage.Version, name: string)
    reads tool, tool.store
    requires n <= |upgrades| && tool.Valid() && Series(upgrades, places, bound, adopted, name)
  {
    && tool.stack[0] == (if n == 0 then adopted else New(upgrades[n - 1]))
    && tool.stack[0].tag != ORIGINAL && Storable(tool.store.places, tool.stack[0].tag, name, tool.stack[0].sha)
    && (forall m :: n <= m < |upgrades| ==> upgrades[m].tag !in tool.store.places && upgrades[m].tag !in tool.bound)
  }

  /** One upgrade of the series. */
  method Climb(tool: Tool, upgrades: seq<Action>, n: nat, ghost count: nat,
               ghost places: Places, ghost bound: map<string, string>, ghost adopted: Lineage.Version, ghost name: string)
    returns (ok: bool)
    requires tool.Valid() && Reachable(tool.store.places, tool.stack, count)
    requires n < |upgrades| && upgrades[n].Upgrade?
    modifies tool`stack, tool`bound, tool.store
    ensures tool.Valid()
    ensures tool.stack == if ok then [New(upgrades[n])] + old(tool.stack) else old(tool.stack)
    ensures Reachable(tool.store.places, tool.stack, if ok then Least(tool.depth, count + 1) else count)
    ensures tool.store.reliable && Series(upgrades, places, bound, adopted, name)
            && old(OnTrack(tool, upgrades, n, places, bound, adopted, name)) ==>
              ok && OnTrack(tool, upgrades, n + 1, places, bound, adopted, name)
  {
    var u := upgrades[n];
    ok := tool.Upgrade(u.tag, u.file, u.digest, u.currentFile, u.commits, u.clean, count);
  }

  /** After any number of upgrades from an adoption, rollbacks one by one walk down the stack that the
      successful ones have built, as long as they find the recorded versions; up to the retention depth they
      find all of them. Without faults, every upgrade of a series to new versions succeeds. */
  method UpgradesThenRollbacks(tool: Tool, upgrades: seq<Action>, k: nat, ghost name: string)
    returns (steps: seq<Step>, visited: seq<Lineage.Version>)
    requires tool.Valid() && |tool.stack| == 1 && tool.stack[0].tag != ORIGINAL
    requires forall action :: action in upgrades ==> action.Upgrade?
    modifies tool, tool.store
    ensures |steps| == |upgrades| && forall n :: 0 <= n < |upgrades| ==> steps[n] in {Stayed, Pushed(New(upgrades[n]))}
    ensures tool.store.reliable && old(Series(upgrades, tool.store.places, tool.bound, tool.stack[0], name)) ==>
              forall n :: 0 <= n < |upgrades| ==> steps[n].Pushed?
    ensures var built, found := Replay(old(tool.stack), steps), |visited|;
            && found <= k && found < |built| && visited == built[1..found + 1] && tool.stack == built[found..]
            && (forall v :: v in visited ==> Available(tool.store.places, v))
            && (found < k ==> found + 1 == |built| || !Available(tool.store.places, built[found + 1]))
            && (k <= Least(tool.depth, |built| - 1) ==> found == k)
  {
    steps := ClimbAll(tool, upgrades, name);
    visited := Descend(tool, k);
  }

  method ClimbAll(tool: Tool, upgrades: seq<Action>, ghost name: string) returns (steps: seq<Step>)
    requires tool.Valid() && |tool.stack| == 1 && tool.stack[0].tag != ORIGINAL
    requires forall action :: action in upgrades ==> action.Upgrade?
    modifies tool, tool.store
    ensures tool.Valid() && Reachable(tool.store.places, tool.stack, Least(tool.depth, |tool.stack| - 1))
    ensures |steps| == |upgrades| && forall n :: 0 <= n < |upgrades| ==> steps[n] in {Stayed, Pushed(New(upgrades[n]))}
    ensures tool.stack == Replay(old(tool.stack), steps)
    ensures tool.store.reliable && old(Series(upgrades, tool.store.places, tool.bound, tool.stack[0], name)) ==>
              forall n :: 0 <= n < |upgrades| ==> steps[n].Pushed?
  {
    hide Series, OnTrack, Reachable, Tool.Valid, Recorded, Replay;
    steps := [];
    NoSteps(tool.stack);
    ghost var places, bound, adopted := tool.store.places, tool.bound, tool.stack[0];
    ghost var series := tool.store.reliable && Series(upgrades, places, bound, adopted, name);
    FromTheBottom(tool, upgrades, name);
    for n := 0 to |upgrades|
      invariant tool.Valid() && tool.stack != []
      invariant Reachable(tool.store.places, tool.stack, Least(tool.depth, |tool.stack| - 1))
      invariant |steps| == n && forall m :: 0 <= m < n ==> steps[m] in {Stayed, Pushed(New(upgrades[m]))}
      invariant tool.stack == Replay(old(tool.stack), steps)
      invariant series ==> OnTrack(tool, upgrades, n, places, bound, adopted, name)
      invariant series ==> forall m :: 0 <= m < n ==> steps[m].Pushed?
    {
      var ok := Climb(tool, upgrades, n, Least(tool.depth, |tool.stack| - 1), places, bound, adopted, name);
      var step := if ok then Pushed(New(upgrades[n])) else Stayed;
      OneMore(old(tool.stack), steps, step);
      steps := steps + [step];
    }
  }

  lemma FromTheBottom(tool: Tool, upgrades: seq<Action>, name: string)
    requires tool.Valid() && |tool.stack| == 1 && tool.stack[0].tag != ORIGINAL
    ensures Reachable(tool.store.places, tool.stack, 0)
    ensures Series(upgrades, tool.store.places, tool.bound, tool.stack[0], name) ==>
              OnTrack(tool, upgrades, 0, tool.store.places, tool.bound, tool.stack[0], name)
  {}

  /** Roll back one by one, at most `k` times. */
  method Descend(tool: Tool, k: nat) returns (visited: seq<Lineage.Version>)
    requires tool.Valid() && Reachable(tool.store.places, tool.stack, Least(tool.depth, |tool.stack| - 1))
    modifies tool`stack
    ensures tool.Valid()
    ensures var built, found := old(tool.stack), |visited|;
            && found <= k && found < |built| && visited == built[1..found + 1] && tool.stack == built[found..]
            && (forall v :: v in visited ==> Available(tool.store.places, v))
            && (found < k ==> found + 1 == |built| || !Available(tool.store.places, built[found + 1]))
            && (k <= Least(tool.depth, |built| - 1) ==> found == k)
  {
    hide Reachable, Available, Recorded, Tool.Valid, Down;
    visited := [];
    ghost var built := tool.stack;
    ghost var sure := Least(tool.depth, |built| - 1);
    DownNowhere(built);
    while |visited| < k && 1 < |tool.stack|
      invariant tool.Valid() && |visited| <= k && Down(built, visited, tool.stack)
      invariant forall v :: v in visited ==> Available(tool.store.places, v)
      invariant |visited| < |built| && |tool.stack| == |built| - |visited|
      decreases k - |visited|
    {
      ghost var n := |visited|;
      DownOne(built, visited, tool.stack);
      ReachableBelow(tool.store.places, built, sure, n);
      var next := tool.stack[1];
      var hit := tool.Rollback(1, true, if n <= sure then sure - n else 0);
      if !hit {
        break;
      }
      visited := visited + [next];
    }
    DownThere(built, visited, tool.stack);
  }

  /** These versions have been visited one after the other. */
  predicate Down(built: seq<Lineage.Version>, visited: seq<Lineage.Version>, stack: seq<Lineage.Version>)
  {
    |visited| < |built| && visited == built[1..|visited| + 1] && stack == built[|visited|..]
  }

  lemma DownNowhere(built: seq<Lineage.Version>)
    ensures built != [] ==> Down(built, [], built)
  {}

  lemma DownOne(built: seq<Lineage.Version>, visited: seq<Lineage.Version>, stack: seq<Lineage.Version>)
    requires Down(built, visited, stack) && 1 < |stack|
    ensures stack == built[|visited|..] && stack[1] == built[|visited| + 1]
    ensures Down(built, visited + [stack[1]], stack[1..])
  {}

  lemma DownThere(built: seq<Lineage.Version>, visited: seq<Lineage.Version>, stack: seq<Lineage.Version>)
    requires Down(built, visited, stack)
    ensures |visited| < |built| && visited == built[1..|visited| + 1] && stack == built[|visited|..]
    ensures |stack| > 1 ==> stack[1] == built[|visited| + 1]
  {}

  lemma ReachableBelow(places: Places, built: seq<Lineage.Version>, count: nat, n: nat)
    requires n < |built| && Reachable(places, built, count)
    ensures Reachable(places, built[n..], if n <= count then count - n else 0)
  {
    if n <= count {
      PopReachable(places, built, n, count);
    }
  }
}
