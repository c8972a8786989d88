/** Building a journal: the before and after state of every participant, with payloads. */
module Capture {
  import opened Options
  import opened Files
  import opened Disks
  import opened Views
  import opened Journal
  import opened DurableFs
  import opened JournalDir

  datatype Desired =
    | WantAbsent
    | WantFile(source: Path)
    | WantBytes(data: Content, mode: Perm)
    | WantUnchanged

  datatype Spec = Spec(role: string, path: Path, after: Desired)

  const DEFAULT_MODE: Perm := 0x180 // 0600

  function Digit(n: nat): char
    requires n < 10
  {
    '0' + n as char
  }

  /** The fixed name of a payload file, two digits and a side. */
  function PayloadName(i: nat, after: bool): (name: string)
    requires i < 100
    ensures '/' !in name && name != ""
  {
    [Digit(i / 10), Digit(i % 10)] + (if after then "-after.bin" else "-before.bin")
  }

  lemma PayloadNamesDiffer(i: nat, a: bool, j: nat, b: bool)
    requires i < 100 && j < 100 && PayloadName(i, a) == PayloadName(j, b)
    ensures i == j && a == b
  {
    var n, m := PayloadName(i, a), PayloadName(j, b);
    assert n[0] == m[0] && n[1] == m[1] && |n| == |m|;
    assert |n| == (if a then 12 else 13) && |m| == (if b then 12 else 13);
    assert i == i / 10 * 10 + i % 10 && j == j / 10 * 10 + j % 10;
  }

  /** Does `state` say what the caller asked for? */
  ghost predicate Wants(d: Disk, desired: Desired, before: State, state: State)
  {
    match desired
    case WantAbsent => state.Absent?
    case WantFile(source) =>
      && Slot(d, source).Holds? && Slot(d, source).node.Regular?
      && state.RegularFile? && Fits(Slot(d, source), state)
    case WantBytes(data, mode) =>
      state.RegularFile? && state.sha == Sha(data) && state.mode == (if mode == 0 then DEFAULT_MODE else mode)
    case WantUnchanged => state == before
  }

  ghost predicate Payload(state: State, name: string)
  {
    state.RegularFile? ==> state.payload == name
  }

  /** From `a` to `b` only the payload `name` was written, into an unsealed journal. */
  ghost predicate Wrote(a: Disk, b: Disk, name: string)
  {
    && b == a.(box := a.box.(payloads := b.box.payloads))
    && (forall k :: k in a.box.payloads && k != name ==>
          k in b.box.payloads && b.box.payloads[k] == a.box.payloads[k])
  }

  /** Capturing reads anything but a directory, a link that leads nowhere, or a path below a file. */
  predicate Capturable(tree: Tree, path: Path)
  {
    path != []
    && if path !in tree then Passable(tree, Dir(path))
       else match tree[path]
            case Directory => false
            case Regular(_, _) => true
            case Symlink(target) => target.text != "" && Read(tree, path).Some?
  }

  predicate Obtainable(d: Disk, desired: Desired)
  {
    desired.WantFile? ==> Slot(d, desired.source).Holds? && Slot(d, desired.source).node.Regular?
  }

  predicate SpecFeasible(d: Disk, s: Spec)
  {
    ValidRole(s.role) && Capturable(d.tree, s.path) && Obtainable(d, s.after)
  }

  /** Nothing but a failure of the file system can keep these participants from being captured. */
  predicate Feasible(d: Disk, specs: seq<Spec>)
  {
    && 0 < |specs| <= MAX_MUTATIONS
    && (forall s :: s in specs ==> SpecFeasible(d, s))
    && (forall i, j :: 0 <= i < j < |specs| ==> specs[i].role != specs[j].role && specs[i].path != specs[j].path)
  }

  lemma FeasibleAt(a: Disk, b: Disk, specs: seq<Spec>, done: seq<Mutation>)
    requires Feasible(a, specs) && Drafted(b, specs, done) && |done| < |specs| && b.tree == a.tree
    ensures SpecFeasible(b, specs[|done|])
    ensures !exists j :: 0 <= j < |done| && (done[j].role == specs[|done|].role || done[j].path == specs[|done|].path)
  {
    assert SpecFeasible(a, specs[|done|]);
    assert forall p :: Slot(b, p) == Slot(a, p);
    forall j | 0 <= j < |done| ensures done[j].role != specs[|done|].role && done[j].path != specs[|done|].path {
      assert Captured(b, specs[j], done[j]);
    }
  }

  method WritePayload(fs: FileSystem, name: string, data: Content) returns (ok: bool)
    modifies fs
    ensures fs.alive ==> old(fs.alive)
    ensures Wrote(old(fs.disk), fs.disk, name)
    ensures ok ==> name in fs.disk.box.payloads && fs.disk.box.payloads[name] == data
    ensures old(fs.Steady()) ==> ok && fs.alive
  {
    var fails := fs.Hazard();
    if fails {
      return false;
    }
    fs.disk := fs.disk.(box := fs.disk.box.(payloads := fs.disk.box.payloads[name := data]));
    fails := fs.Hazard();
    ok := !fails;
  }

  method CapturePath(fs: FileSystem, path: Path, name: string) returns (ok: bool, state: State)
    requires '/' !in name && name != ""
    modifies fs
    ensures fs.alive ==> old(fs.alive)
    ensures Wrote(old(fs.disk), fs.disk, name)
    ensures ok ==> Matches(fs.disk.tree, path, state) && HasPayload(fs.disk, state) && Payload(state, name)
                   && ValidState(state)
    // The state is what is there: nothing, a file with its digest and mode, or a link with its text and what it leads to.
    ensures ok ==>
              if path !in old(fs.disk.tree) then state == Absent
              else match old(fs.disk.tree)[path]
                   case Directory => false
                   case Regular(data, mode) => state == RegularFile(Sha(data), mode, name)
                   case Symlink(target) => state.Link? && state.target == target && Read(old(fs.disk.tree), path) == Some(state.sha)
    ensures ok ==> Capturable(old(fs.disk.tree), path)
    ensures old(fs.Steady()) ==> fs.alive && ok == Capturable(old(fs.disk.tree), path)
  {
    state := Absent;
    var fails := fs.Hazard();
    if fails || path == [] || (path !in fs.disk.tree && !Passable(fs.disk.tree, Dir(path))) {
      return false, state;
    }
    if path !in fs.disk.tree {
      return true, state;
    }
    match fs.disk.tree[path] {
      case Directory =>
        ok := false;
      case Symlink(target) =>
        // No link has an empty text; one that leads nowhere cannot be hashed.
        var sha := Read(fs.disk.tree, path);
        ok := sha.Some? && target.text != "";
        if ok {
          state := Link(sha.value, target);
        }
      case Regular(data, mode) =>
        ok := WritePayload(fs, name, data);
        state := RegularFile(Sha(data), mode, name);
    }
  }

  method MaterializeDesired(fs: FileSystem, desired: Desired, before: State, name: string)
    returns (ok: bool, state: State)
    requires '/' !in name && name != ""
    modifies fs
    ensures fs.alive ==> old(fs.alive)
    ensures Wrote(old(fs.disk), fs.disk, name)
    ensures ok ==> Wants(fs.disk, desired, before, state)
    // A file is wanted with the data and the mode of its source.
    ensures ok && desired.WantFile? ==>
              desired.source in old(fs.disk.tree) && old(fs.disk.tree)[desired.source].Regular?
              && var node := old(fs.disk.tree)[desired.source];
                 state == RegularFile(Sha(node.data), node.mode, name)
                 && name in fs.disk.box.payloads && fs.disk.box.payloads[name] == node.data
    ensures ok && desired.WantBytes? ==>
              state == RegularFile(Sha(desired.data), if desired.mode == 0 then 0x180 else desired.mode, name)
              && name in fs.disk.box.payloads && fs.disk.box.payloads[name] == desired.data
    ensures ok && !desired.WantUnchanged? ==>
              HasPayload(fs.disk, state) && Payload(state, name) && !state.Link? && ValidState(state)
    ensures old(fs.Steady()) ==> fs.alive && ok == Obtainable(old(fs.disk), desired)
  {
    state := Absent;
    match desired {
      case WantAbsent =>
        ok := true;
      case WantFile(source) =>
        var slot := Slot(fs.disk, source);
        if !slot.Holds? || !slot.node.Regular? {
          return false, state;
        }
        ok := WritePayload(fs, name, slot.node.data);
        state := RegularFile(Sha(slot.node.data), slot.node.mode, name);
      case WantBytes(data, mode) =>
        ok := WritePayload(fs, name, data);
        state := RegularFile(Sha(data), if mode == 0 then DEFAULT_MODE else mode, name);
      case WantUnchanged =>
        ok, state := true, before;
    }
  }

  /** `m` captures what `spec` asked for, on a disk with the files of `d`. */
  ghost predicate Captured(d: Disk, spec: Spec, m: Mutation)
  {
    && m.role == spec.role && m.path == spec.path
    && Matches(d.tree, m.path, m.before) && Wants(d, spec.after, m.before, m.after)
  }

  /** The captured states of the first participants, and the payloads that back them. */
  ghost predicate Drafted(d: Disk, specs: seq<Spec>, done: seq<Mutation>)
  {
    && |done| <= |specs| <= MAX_MUTATIONS
    && (forall j :: 0 <= j < |done| ==>
          && Captured(d, specs[j], done[j])
          && ValidRole(done[j].role) && ValidState(done[j].before) && ValidState(done[j].after)
          && HasPayload(d, done[j].before) && HasPayload(d, done[j].after)
          && Payload(done[j].before, PayloadName(j, false))
          && (Payload(done[j].after, PayloadName(j, true)) || done[j].after == done[j].before)
          && (done[j].after.Link? ==> done[j].after == done[j].before))
    && (forall j, k :: 0 <= j < k < |done| ==> done[j].role != done[k].role && done[j].path != done[k].path)
  }

  /** Writing the payloads of participant `i` leaves the earlier ones alone. */
  lemma DraftKept(a: Disk, b: Disk, specs: seq<Spec>, done: seq<Mutation>, after: bool)
    requires Drafted(a, specs, done) && |done| < |specs|
    requires Wrote(a, b, PayloadName(|done|, after))
    ensures Drafted(b, specs, done)
  {
    forall j | 0 <= j < |done|
      ensures HasPayload(b, done[j].before) && HasPayload(b, done[j].after)
    {
      var name := PayloadName(|done|, after);
      if PayloadName(j, false) == name {
        PayloadNamesDiffer(j, false, |done|, after);
      }
      if PayloadName(j, true) == name {
        PayloadNamesDiffer(j, true, |done|, after);
      }
    }
    assert forall p :: Slot(b, p) == Slot(a, p);
  }

  /** From `a` to `b` only payloads were written. */
  ghost predicate OnlyPayloads(a: Disk, b: Disk)
  {
    b == a.(box := a.box.(payloads := b.box.payloads))
  }

  /** Capture the next participant. */
  method CaptureNext(fs: FileSystem, spec: Spec, done: seq<Mutation>, ghost specs: seq<Spec>)
    returns (ok: bool, m: Mutation)
    requires Drafted(fs.disk, specs, done) && |done| < |specs| && spec == specs[|done|] && ValidRole(spec.role)
    requires forall j :: 0 <= j < |done| ==> done[j].role != spec.role && done[j].path != spec.path
    modifies fs
    ensures fs.alive ==> old(fs.alive)
    ensures OnlyPayloads(old(fs.disk), fs.disk)
    ensures ok ==> Drafted(fs.disk, specs, done + [m])
    ensures old(fs.Steady()) ==> fs.alive && (SpecFeasible(old(fs.disk), spec) ==> ok)
  {
    var i := |done|;
    var before, after;
    m := Mutation("", [], Absent, Absent);
    ok, before := CapturePath(fs, spec.path, PayloadName(i, false));
    if !ok {
      return;
    }
    DraftKept(old(fs.disk), fs.disk, specs, done, false);
    ghost var b := fs.disk;
    ok, after := MaterializeDesired(fs, spec.after, before, PayloadName(i, true));
    if !ok {
      return;
    }
    DraftKept(b, fs.disk, specs, done, true);
    m := Mutation(spec.role, spec.path, before, after);
    CaptureStep(b, fs.disk, specs, done, m);
  }

  /** Capture every participant into an unsealed journal. */
  method CaptureAll(fs: FileSystem, specs: seq<Spec>) returns (ok: bool, mutations: seq<Mutation>)
    requires |specs| <= MAX_MUTATIONS
    modifies fs
    ensures fs.alive ==> old(fs.alive)
    ensures OnlyPayloads(old(fs.disk), fs.disk)
    ensures ok ==> |mutations| == |specs| && Drafted(fs.disk, specs, mutations)
    ensures old(fs.Steady()) ==> fs.alive && (Feasible(old(fs.disk), specs) ==> ok)
  {
    mutations := [];
    for i := 0 to |specs|
      invariant fs.alive ==> old(fs.alive)
      invariant OnlyPayloads(old(fs.disk), fs.disk)
      invariant |mutations| == i && Drafted(fs.disk, specs, mutations)
      invariant old(fs.Steady()) ==> fs.alive
    {
      if Feasible(old(fs.disk), specs) {
        FeasibleAt(old(fs.disk), fs.disk, specs, mutations);
      }
      if !ValidRole(specs[i].role)
         || exists j :: 0 <= j < i && (mutations[j].role == specs[i].role || mutations[j].path == specs[i].path) {
        return false, mutations;
      }
      var m;
      ok, m := CaptureNext(fs, specs[i], mutations, specs);
      if !ok {
        return;
      }
      mutations := mutations + [m];
    }
    ok := true;
  }

  lemma CaptureStep(b: Disk, c: Disk, specs: seq<Spec>, done: seq<Mutation>, m: Mutation)
    requires Drafted(c, specs, done) && |done| < |specs| && ValidRole(m.role)
    requires m.role == specs[|done|].role && m.path == specs[|done|].path
    requires forall j :: 0 <= j < |done| ==> done[j].role != m.role && done[j].path != m.path
    requires Wrote(b, c, PayloadName(|done|, true))
    requires Matches(b.tree, m.path, m.before) && HasPayload(b, m.before) && ValidState(m.before)
    requires Payload(m.before, PayloadName(|done|, false))
    requires Wants(c, specs[|done|].after, m.before, m.after)
    requires !specs[|done|].after.WantUnchanged? ==>
               HasPayload(c, m.after) && Payload(m.after, PayloadName(|done|, true)) && !m.after.Link?
               && ValidState(m.after)
    ensures Drafted(c, specs, done + [m])
  {
    assert |PayloadName(|done|, false)| != |PayloadName(|done|, true)|;
    assert HasPayload(c, m.before);
  }
}
