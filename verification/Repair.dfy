/** Repair planning: a second, separately written reading of the pending journal, and what its
    verdict is worth to recovery. */
module Repair {
  import opened Options
  import opened Files
  import opened Disks
  import Views
  import opened Journal
  import opened DurableFs
  import opened Converge
  import opened Recovery
  import opened Capture
  import opened Managed
  import opened ManifestFile

  // ---- the journal as decoded, before any check ----

  datatype Sum = Blank | NotHex | Hash(digest: Digest)

  datatype Kind = KindAbsent | KindRegular | KindSymlink | KindOther

  /** Of a link, the text is decoded; the path it leads to goes with it. */
  datatype RawState = RawState(kind: Kind, sum: Sum, mode: nat, link: Pointer, payload: string)

  /** A path that is not absolute and clean decodes to nothing. */
  datatype RawMutation = RawMutation(role: string, path: Option<Path>, before: RawState, after: RawState)

  datatype RawIntent = RawIntent(schema: int, id: string, operation: string, name: string, mutations: seq<RawMutation>)

  /** An intent file that is missing, not regular, too large or not JSON is garbled. */
  datatype IntentNode = Garbled | Parsed(raw: RawIntent)

  /** A marker that is not a small regular file is bad. */
  datatype MarkerNode = NoMarker | BadMarker | Marker(data: string)

  datatype PayloadNode = File(data: Content) | Alias(target: string, reached: Option<Content>) | Odd

  datatype PendingDir = PendingDir(name: string, intent: IntentNode, marker: MarkerNode, payloads: map<string, PayloadNode>)

  // ---- what recovery's validators accept ----

  predicate ValidRawState(s: RawState)
  {
    match s.kind
    case KindAbsent => s.sum.Blank? && s.mode == 0 && s.link.text == "" && s.payload == ""
    case KindRegular => s.sum.Hash? && s.payload != "" && '/' !in s.payload && s.mode < 512 && s.link.text == ""
    case KindSymlink => s.link.text != "" && s.sum.Hash? && s.payload == "" && s.mode == 0
    case KindOther => false
  }

  function ToState(s: RawState): State
    requires ValidRawState(s)
  {
    match s.kind
    case KindRegular => RegularFile(s.sum.digest, s.mode, s.payload)
    case KindSymlink => Link(s.sum.digest, s.link)
    case _ => Absent
  }

  predicate ValidRawMutation(m: RawMutation)
  {
    ValidRole(m.role) && m.path.Some? && ValidRawState(m.before) && ValidRawState(m.after)
  }

  predicate ValidRawIntent(raw: RawIntent)
  {
    && raw.schema == 1 && ValidId(raw.id) && raw.operation != "" && raw.name != ""
    && 0 < |raw.mutations| <= MAX_MUTATIONS
    && (forall m :: m in raw.mutations ==> ValidRawMutation(m))
    && (forall i, j :: 0 <= i < j < |raw.mutations| ==>
          raw.mutations[i].role != raw.mutations[j].role && raw.mutations[i].path != raw.mutations[j].path)
  }

  function ToMutation(m: RawMutation): Mutation
    requires ValidRawMutation(m)
  {
    Mutation(m.role, m.path.value, ToState(m.before), ToState(m.after))
  }

  function ToIntent(raw: RawIntent): Intent
    requires ValidRawIntent(raw)
  {
    Intent(raw.id, seq(|raw.mutations|, i requires 0 <= i < |raw.mutations| => ToMutation(raw.mutations[i])))
  }

  lemma DecodedIsValid(raw: RawIntent)
    requires ValidRawIntent(raw)
    ensures ValidIntent(ToIntent(raw)) && |ToIntent(raw).mutations| == |raw.mutations|
  {
    forall m | m in ToIntent(raw).mutations ensures ValidRole(m.role) && ValidState(m.before) && ValidState(m.after) {
      var i :| 0 <= i < |raw.mutations| && ToMutation(raw.mutations[i]) == m;
      assert raw.mutations[i] in raw.mutations;
    }
    forall i, j | 0 <= i < j < |raw.mutations|
      ensures ToMutation(raw.mutations[i]).role != ToMutation(raw.mutations[j]).role
      ensures ToMutation(raw.mutations[i]).path != ToMutation(raw.mutations[j]).path
    {
      var a, b := raw.mutations[i], raw.mutations[j];
      assert a in raw.mutations && b in raw.mutations && a.role != b.role && a.path != b.path;
      assert a.path == Some(a.path.value) && b.path == Some(b.path.value);
    }
  }

  /** The loop of the journal's own validator. */
  method ValidateIntent(raw: RawIntent) returns (ok: bool)
    ensures ok <==> ValidRawIntent(raw)
  {
    if raw.schema != 1 || |raw.id| != 32 || !ValidId(raw.id) || raw.operation == "" || raw.name == ""
       || |raw.mutations| == 0 || |raw.mutations| > MAX_MUTATIONS
    {
      return false;
    }
    var roles: set<string>, paths: set<Option<Path>> := {}, {};
    for i := 0 to |raw.mutations|
      invariant roles == (set j | 0 <= j < i :: raw.mutations[j].role)
      invariant paths == (set j | 0 <= j < i :: raw.mutations[j].path)
      invariant forall j :: 0 <= j < i ==> ValidRawMutation(raw.mutations[j])
      invariant forall j, k :: 0 <= j < k < i ==>
                  raw.mutations[j].role != raw.mutations[k].role && raw.mutations[j].path != raw.mutations[k].path
    {
      var m := raw.mutations[i];
      assert m in raw.mutations;
      if !ValidRole(m.role) || m.role in roles {
        return false;
      }
      roles := roles + {m.role};
      if m.path.None? || m.path in paths {
        return false;
      }
      paths := paths + {m.path};
      if !ValidRawState(m.before) || !ValidRawState(m.after) {
        return false;
      }
    }
    ok := true;
  }

  // ---- what recovery reads ----

  function PlainPayloads(payloads: map<string, PayloadNode>): map<string, Content>
  {
    map name | name in payloads && payloads[name].File? :: payloads[name].data
  }

  /** The disk as recovery sees it with this journal: links are no payloads. */
  function DiskWith(d: Disk, j: PendingDir): Disk
  {
    d.(box := Box(None, PlainPayloads(j.payloads)))
  }

  function MarkerOf(j: PendingDir): Option<string>
  {
    if j.marker.Marker? then Some(j.marker.data) else None
  }

  const PENDING_PREFIX := "pending-"

  /** Both readings agree on the journal's name, intent and marker. */
  predicate Readable(j: PendingDir)
  {
    && j.intent.Parsed? && ValidRawIntent(j.intent.raw)
    && j.name == PENDING_PREFIX + j.intent.raw.id
    && !j.marker.BadMarker? && Committed(MarkerOf(j), j.intent.raw.id).Some?
  }

  /** Recovery decodes the intent, reads the decision and classifies every participant. */
  predicate Passes(d: Disk, j: PendingDir)
  {
    Readable(j) && AllKnown(DiskWith(d, j), ToIntent(j.intent.raw))
  }

  // ---- what repair checks ----

  /** Repair's own validator of one state. */
  function StateProblem(s: RawState): (problem: bool)
    ensures problem <==> !ValidRawState(s)
  {
    if s.kind == KindAbsent then !s.sum.Blank? || s.mode != 0 || s.link.text != "" || s.payload != ""
    else if s.kind == KindRegular then
      !s.sum.Hash? || s.payload == "" || '/' in s.payload || s.mode >= 512 || s.link.text != ""
    else if s.kind == KindSymlink then s.link.text == "" || !s.sum.Hash? || s.payload != "" || s.mode != 0
    else true
  }

  /** Repair's own validator of the decoded intent. */
  method LoadAndValidateIntent(j: PendingDir) returns (ok: bool)
    ensures ok <==> j.intent.Parsed? && ValidRawIntent(j.intent.raw) && j.name == PENDING_PREFIX + j.intent.raw.id
  {
    if !j.intent.Parsed? {
      return false;
    }
    var raw := j.intent.raw;
    if raw.schema != 1 || !ValidId(raw.id) || j.name != PENDING_PREFIX + raw.id
       || raw.operation == "" || raw.name == "" || !(0 < |raw.mutations| <= MAX_MUTATIONS)
    {
      return false;
    }
    var roles: map<string, bool>, paths: map<Option<Path>, bool> := map[], map[];
    for i := 0 to |raw.mutations|
      invariant roles.Keys == (set k | 0 <= k < i :: raw.mutations[k].role)
      invariant paths.Keys == (set k | 0 <= k < i :: raw.mutations[k].path)
      invariant forall k :: 0 <= k < i ==> ValidRawMutation(raw.mutations[k])
      invariant forall k, l :: 0 <= k < l < i ==>
                  raw.mutations[k].role != raw.mutations[l].role && raw.mutations[k].path != raw.mutations[l].path
    {
      var m := raw.mutations[i];
      assert m in raw.mutations;
      if m.role == "" || '/' in m.role || '\\' in m.role || m.role in roles || m.path.None? || m.path in paths
         || StateProblem(m.before) || StateProblem(m.after)
      {
        return false;
      }
      roles, paths := roles[m.role := true], paths[m.path := true];
    }
    ok := true;
  }

  /** Repair's own comparison of a path with a state; nothing when the path cannot be read. */
  function Compare(tree: Tree, path: Path, s: RawState): (answer: Option<bool>)
    requires ValidRawState(s)
    ensures answer == Some(true) <==> Matches(tree, path, ToState(s))
  {
    if path == [] then Some(false)
    else if path !in tree then
      if Passable(tree, Dir(path)) then Some(s.kind == KindAbsent) else None
    else if s.kind == KindAbsent then Some(false)
    else if s.kind == KindRegular then
      if !tree[path].Regular? || tree[path].mode != s.mode then Some(false)
      else Some(Sha(tree[path].data) == s.sum.digest)
    else if !tree[path].Symlink? || tree[path].target != s.link then Some(false)
    else if Views.Read(tree, path).None? then None
    else Some(Views.Read(tree, path).value == s.sum.digest)
  }

  /** Repair hashes what the payload leads to. */
  predicate PayloadReads(payloads: map<string, PayloadNode>, s: RawState)
    requires ValidRawState(s)
  {
    s.kind == KindRegular ==>
      && s.payload in payloads
      && match payloads[s.payload]
         case File(data) => Sha(data) == s.sum.digest
         case Alias(_, reached) => reached.Some? && Sha(reached.value) == s.sum.digest
         case Odd => false
  }

  predicate Accepted(d: Disk, j: PendingDir, m: RawMutation)
    requires ValidRawMutation(m)
  {
    && (Matches(d.tree, m.path.value, ToState(m.before)) || Matches(d.tree, m.path.value, ToState(m.after)))
    && PayloadReads(j.payloads, m.before) && PayloadReads(j.payloads, m.after)
  }

  predicate Acceptable(d: Disk, j: PendingDir)
  {
    Readable(j) && forall m :: m in j.intent.raw.mutations ==> ValidRawMutation(m) && Accepted(d, j, m)
  }

  /** What cannot be read matches no state, so giving up on it and finding drift are the same. */
  lemma UnreadableMatchesNothing(tree: Tree, path: Path, s: RawState, t: RawState)
    requires ValidRawState(s) && ValidRawState(t) && Compare(tree, path, s).None?
    ensures !Matches(tree, path, ToState(s)) && !Matches(tree, path, ToState(t))
  {}

  /** Evaluate the pending journal without changing anything. */
  method EvaluateRecoverTransaction(d: Disk, j: PendingDir) returns (accepted: bool)
    ensures accepted <==> Acceptable(d, j)
  {
    accepted := LoadAndValidateIntent(j);
    if !accepted || j.marker.BadMarker?
       || (j.marker.Marker? && ClassifyCommitMarker(j.marker.data, j.intent.raw.id).None?)
    {
      return false;
    }
    var mutations := j.intent.raw.mutations;
    for i := 0 to |mutations|
      invariant forall k :: 0 <= k < i ==> Accepted(d, j, mutations[k])
    {
      var m := mutations[i];
      assert m in mutations;
      var path := m.path.value;
      var before, after := Compare(d.tree, path, m.before), Compare(d.tree, path, m.after);
      if before.None? || after.None? || (!before.value && !after.value)
         || !PayloadReads(j.payloads, m.before) || !PayloadReads(j.payloads, m.after)
      {
        if before.None? {
          UnreadableMatchesNothing(d.tree, path, m.before, m.after);
        } else if after.None? {
          UnreadableMatchesNothing(d.tree, path, m.after, m.before);
        }
        assert !Accepted(d, j, m);
        return false;
      }
    }
  }

  // ---- what the verdict is worth ----

  /** No payload of the journal is a link. */
  predicate PlainPayload(j: PendingDir, s: RawState)
  {
    s.kind == KindRegular && s.payload in j.payloads ==> j.payloads[s.payload].File?
  }

  predicate AllPlain(j: PendingDir)
  {
    j.intent.Parsed? ==> forall m :: m in j.intent.raw.mutations ==> PlainPayload(j, m.before) && PlainPayload(j, m.after)
  }

  lemma KnownExactly(d: Disk, j: PendingDir, m: RawMutation)
    requires ValidRawMutation(m) && Accepted(d, j, m)
    ensures Known(DiskWith(d, j), ToMutation(m)) <==> PlainPayload(j, m.before) && PlainPayload(j, m.after)
  {}

  /** An accepted journal passes recovery's decoding, commit and classification phases exactly when
      none of its payloads is a link. */
  lemma AcceptedPassesExactly(d: Disk, j: PendingDir)
    requires Acceptable(d, j)
    ensures Passes(d, j) <==> AllPlain(j)
  {
    var raw := j.intent.raw;
    forall m | m in raw.mutations
      ensures Known(DiskWith(d, j), ToMutation(m)) <==> PlainPayload(j, m.before) && PlainPayload(j, m.after)
    {
      KnownExactly(d, j, m);
    }
    var mutations := ToIntent(raw).mutations;
    if AllPlain(j) {
      forall m | m in mutations ensures Known(DiskWith(d, j), m) {
        var i :| 0 <= i < |raw.mutations| && ToMutation(raw.mutations[i]) == m;
        assert raw.mutations[i] in raw.mutations;
      }
    }
    if Passes(d, j) {
      forall m | m in raw.mutations ensures PlainPayload(j, m.before) && PlainPayload(j, m.after) {
        var i :| 0 <= i < |raw.mutations| && raw.mutations[i] == m;
        assert mutations[i] == ToMutation(m) && mutations[i] in mutations;
      }
    }
  }

  /** The disk with this journal pending, as recovery finds it. */
  function Pended(d: Disk, j: PendingDir): Disk
    requires Readable(j)
  {
    d.(stage := Pending, box := Box(Some(ToIntent(j.intent.raw)), PlainPayloads(j.payloads)), marker := MarkerOf(j))
  }

  /** On a journal that passes, recovery's own phases succeed when nothing fails. */
  method FirstPhases(fs: FileSystem, ghost d: Disk, ghost j: PendingDir) returns (ok: bool)
    requires fs.Steady() && Passes(d, j) && fs.disk == Pended(d, j)
    modifies fs`alive
    ensures ok && fs.disk == old(fs.disk)
  {
    DecodedIsValid(j.intent.raw);
    var loaded, committed;
    ok, loaded, committed := LoadPending(fs);
    forall m | m in loaded.mutations ensures Known(fs.disk, m) {
      assert Known(DiskWith(d, j), m);
    }
    ok := Classify(fs, loaded);
  }

  /** And whatever passes would have been accepted. */
  lemma PassingIsAccepted(d: Disk, j: PendingDir)
    requires Passes(d, j)
    ensures Acceptable(d, j)
  {
    var raw := j.intent.raw;
    forall m | m in raw.mutations ensures ValidRawMutation(m) && Accepted(d, j, m) {
      var i :| 0 <= i < |raw.mutations| && raw.mutations[i] == m;
      assert ToIntent(raw).mutations[i] == ToMutation(m);
      assert ToIntent(raw).mutations[i] in ToIntent(raw).mutations;
    }
  }

  /** Journals that repair accepts and recovery refuses: the right bytes, behind a link. */
  lemma LinkedPayloadIsRefused(d: Disk, path: Path, data: Content, id: string, role: string, payload: string)
    returns (j: PendingDir)
    requires path != [] && path !in d.tree && Passable(d.tree, Dir(path))
    requires ValidId(id) && ValidRole(role) && payload != "" && '/' !in payload
    ensures Acceptable(d, j) && !Passes(d, j)
  {
    var before := RawState(KindAbsent, Blank, 0, Pointer("", []), "");
    var after := RawState(KindRegular, Hash(Sha(data)), 0x180, Pointer("", []), payload);
    var m := RawMutation(role, Some(path), before, after);
    j := PendingDir(PENDING_PREFIX + id, Parsed(RawIntent(1, id, role, role, [m])), NoMarker,
                    map[payload := Alias(payload, Some(data))]);
    assert ValidRawMutation(m) && Accepted(d, j, m);
    assert m in j.intent.raw.mutations && !PlainPayload(j, m.after);
    AcceptedPassesExactly(d, j);
  }

  // ---- applying a plan ----

  /** What the fingerprint covers; the hash is taken to be injective. Of a link inside the journal
      only its target text is seen. */
  datatype PayloadSeen = PlainSeen(digest: Digest) | AliasSeen(target: string) | OddSeen

  /** Of a target, its entry is seen, and the digest of what it leads to. */
  datatype Seen = Seen(name: string, intent: IntentNode, marker: MarkerNode, payloads: map<string, PayloadSeen>,
                       targets: map<Path, (Fate, Option<Digest>)>)

  function See(node: PayloadNode): PayloadSeen
  {
    match node
    case File(data) => PlainSeen(Sha(data))
    case Alias(target, _) => AliasSeen(target)
    case Odd => OddSeen
  }

  function TargetPaths(j: PendingDir): set<Path>
  {
    if !j.intent.Parsed? then {}
    else set i | 0 <= i < |j.intent.raw.mutations| && j.intent.raw.mutations[i].path.Some? ::
           j.intent.raw.mutations[i].path.value
  }

  function Observe(d: Disk, j: PendingDir): Seen
  {
    Seen(j.name, j.intent, j.marker, map name | name in j.payloads :: See(j.payloads[name]),
         map path | path in TargetPaths(j) :: (Slot(d, path), Views.Read(d.tree, path)))
  }

  datatype Plan = Plan(identity: string, seen: Seen)

  /** Build a plan for the data root with this identity. */
  method BuildPlan(identity: string, d: Disk, j: PendingDir) returns (plan: Option<Plan>)
    ensures plan == if Acceptable(d, j) then Some(Plan(identity, Observe(d, j))) else None
  {
    var accepted := EvaluateRecoverTransaction(d, j);
    plan := if accepted then Some(Plan(identity, Observe(d, j))) else None;
  }

  /** Decide under the lock whether the plan still describes what is there. */
  method Apply(plan: Plan, identity: string, d: Disk, j: PendingDir) returns (acts: bool)
    ensures acts <==> identity == plan.identity && Acceptable(d, j) && Observe(d, j) == plan.seen
  {
    if identity != plan.identity {
      return false;
    }
    var current := BuildPlan(identity, d, j);
    acts := current == Some(plan);
  }

  lemma SameSeenPayload(a: PendingDir, b: PendingDir, s: RawState)
    requires (map name | name in a.payloads :: See(a.payloads[name])) == (map name | name in b.payloads :: See(b.payloads[name]))
    requires ValidRawState(s) && PlainPayload(a, s)
    ensures PlainPayload(b, s) && (PayloadReads(a.payloads, s) <==> PayloadReads(b.payloads, s))
  {
    var seen := map name | name in a.payloads :: See(a.payloads[name]);
    assert forall name :: name in a.payloads ==> name in seen && seen[name] == See(a.payloads[name]);
    assert forall name :: name in b.payloads ==> name in seen && seen[name] == See(b.payloads[name]);
  }

  /** What is found unchanged is the same journal, with the same decision, and every participant's entry is as it was. */
  lemma ObservedAgain(d: Disk, j: PendingDir, now: Disk, k: PendingDir)
    requires Acceptable(d, j) && Observe(now, k) == Observe(d, j)
    ensures k.name == j.name && k.intent == j.intent && k.marker == j.marker && k.payloads.Keys == j.payloads.Keys
    ensures forall name :: name in j.payloads && j.payloads[name].File? ==>
              k.payloads[name].File? && Sha(k.payloads[name].data) == Sha(j.payloads[name].data)
    ensures forall m :: m in j.intent.raw.mutations && m.path.Some? ==>
              && Slot(now, m.path.value) == Slot(d, m.path.value)
              && Views.Read(now.tree, m.path.value) == Views.Read(d.tree, m.path.value)
  {
    var seen, again := Observe(d, j), Observe(now, k);
    assert seen.payloads.Keys == j.payloads.Keys && again.payloads.Keys == k.payloads.Keys;
    forall name | name in j.payloads ensures See(k.payloads[name]) == See(j.payloads[name]) {
      assert seen.payloads[name] == again.payloads[name];
    }
    forall m | m in j.intent.raw.mutations && m.path.Some?
      ensures Slot(now, m.path.value) == Slot(d, m.path.value)
      ensures Views.Read(now.tree, m.path.value) == Views.Read(d.tree, m.path.value)
    {
      var path := m.path.value;
      assert path in TargetPaths(j) && path in TargetPaths(k);
      assert seen.targets[path] == again.targets[path];
    }
  }

  /** A plan that was made for a journal without linked payloads, and that Apply finds unchanged, is
      one that recovery's first phases still pass. */
  lemma AppliedPlanPasses(d: Disk, j: PendingDir, now: Disk, k: PendingDir)
    requires Passes(d, j) && Acceptable(now, k) && Observe(now, k) == Observe(d, j)
    ensures Passes(now, k)
  {
    PassingIsAccepted(d, j);
    AcceptedPassesExactly(d, j);
    assert k.intent == j.intent;
    forall m | m in k.intent.raw.mutations ensures PlainPayload(k, m.before) && PlainPayload(k, m.after) {
      assert ValidRawMutation(m);
      SameSeenPayload(j, k, m.before);
      SameSeenPayload(j, k, m.after);
    }
    AcceptedPassesExactly(now, k);
  }

  // ---- restoring the manifest from its backup ----

  /** The other action: the manifest is missing or unreadable, the backup is valid, and the live files
      are what the backup says. */
  predicate Restorable(d: Disk, manifest: Path, records: seq<Record>)
    requires manifest != []
  {
    && d.stage == NoJournal
    && PlainOrGone(d.tree, manifest) && (manifest in d.tree ==> Decoded(d.tree[manifest].data).None?)
    && Bak(manifest) in d.tree && d.tree[Bak(manifest)].Regular?
    && Decoded(d.tree[Bak(manifest)].data) == Some(records)
    && (forall r :: r in records ==> Views.Read(d.tree, r.path) == Some(r.sha))
  }

  /** Decide whether the backup can be restored. */
  method EvaluateRestoreManifestBackup(d: Disk, manifest: Path) returns (records: Option<seq<Record>>)
    requires manifest != []
    ensures forall r :: Restorable(d, manifest, r) <==> records == Some(r)
  {
    var backup := Bak(manifest);
    if d.stage != NoJournal || !PlainOrGone(d.tree, manifest)
       || (manifest in d.tree && Decoded(d.tree[manifest].data).Some?)
       || backup !in d.tree || !d.tree[backup].Regular? || Decoded(d.tree[backup].data).None?
    {
      return None;
    }
    var entries := Decoded(d.tree[backup].data).value;
    for i := 0 to |entries|
      invariant forall k :: 0 <= k < i ==> Views.Read(d.tree, entries[k].path) == Some(entries[k].sha)
    {
      if Views.Read(d.tree, entries[i].path) != Some(entries[i].sha) {
        assert entries[i] in entries;
        return None;
      }
    }
    records := Some(entries);
  }

  /** Spelled out for the backup that is there. */
  ghost predicate Recoverable(d: Disk, manifest: Path)
    requires manifest != []
  {
    && d.stage == NoJournal
    && (manifest in d.tree ==> d.tree[manifest].Regular? && Decoded(d.tree[manifest].data) == None)
    && Bak(manifest) in d.tree && d.tree[Bak(manifest)].Regular? && Decoded(d.tree[Bak(manifest)].data).Some?
    && (forall r :: r in Decoded(d.tree[Bak(manifest)].data).value ==> Views.Read(d.tree, r.path) == Some(r.sha))
  }

  lemma RecoverableIsRestorable(d: Disk, manifest: Path)
    requires manifest != [] && Recoverable(d, manifest)
    ensures exists r :: Restorable(d, manifest, r)
  {
    assert Restorable(d, manifest, Decoded(d.tree[Bak(manifest)].data).value);
  }

  method RestoreManifestBackup(fs: FileSystem, manifest: Path) returns (ok: bool, ghost records: seq<Record>)
    requires fs.Valid() && manifest != []
    modifies fs
    ensures fs.alive ==> old(fs.alive)
    ensures !(exists r :: Restorable(old(fs.disk), manifest, r)) ==> !ok && fs.disk == old(fs.disk)
    ensures OnlyAt(old(fs.disk), fs.disk, manifest)
    ensures ok ==> Restorable(old(fs.disk), manifest, records)
    ensures ok ==> Describes(Slot(fs.disk, manifest), records) && Durable(fs.disk, manifest)
    // No transaction was open, and there was no manifest that could be read.
    ensures ok ==> old(fs.disk.stage) == NoJournal
                   && (manifest in old(fs.disk.tree) ==> old(fs.disk.tree)[manifest].Regular?
                                                         && Decoded(old(fs.disk.tree)[manifest].data) == None)
    // The backup has been copied as it is, schema version included.
    ensures ok ==> manifest in fs.disk.tree && Bak(manifest) in old(fs.disk.tree) && old(fs.disk.tree)[Bak(manifest)].Regular?
                   && fs.disk.tree[manifest] == Regular(old(fs.disk.tree)[Bak(manifest)].data, 0x180)
    // Every live file that is not read through the manifest agrees with it.
    ensures ok ==> AgreeBeside(old(fs.disk.tree), fs.disk.tree, manifest, records)
    // Without faults, whatever can be restored is: only an open transaction, a readable manifest, anything but a file in
    // its place, a backup that cannot be read or a live file that disagrees is refused.
    ensures old(fs.Steady()) && Recoverable(old(fs.disk), manifest) ==> ok
    ensures old(fs.Steady()) ==> ok == exists r :: Restorable(old(fs.disk), manifest, r)
  {
    hide Recoverable;
    records := [];
    if Recoverable(fs.disk, manifest) {
      RecoverableIsRestorable(fs.disk, manifest);
    }
    Untouched(fs.disk, manifest);
    var found := EvaluateRestoreManifestBackup(fs.disk, manifest);
    if found.None? {
      return false, records;
    }
    records := found.value;
    RestorableHas(fs.disk, manifest, records);
    var data := fs.disk.tree[Bak(manifest)].data;
    ok := AtomicWriteFile(fs, manifest, data, DEFAULT_MODE);
    if ok {
      RestoreKeepsReads(old(fs.disk.tree), fs.disk.tree, manifest, records);
    }
  }

  lemma RestorableHas(d: Disk, manifest: Path, records: seq<Record>)
    requires manifest != [] && Coherent(d.tree) && Restorable(d, manifest, records)
    ensures IsDir(d.tree, Dir(manifest)) && !IsDir(d.tree, manifest)
    ensures Bak(manifest) in d.tree && d.tree[Bak(manifest)].Regular? && Lists(d.tree[Bak(manifest)].data, records)
  {
    BackupIsBeside(manifest);
  }

  predicate AgreeBeside(a: Tree, b: Tree, manifest: Path, records: seq<Record>)
  {
    forall r :: r in records && manifest !in Views.Trail(Views.Seen(a), r.path, Views.MAX_LINKS) ==>
      Views.Read(b, r.path) == Some(r.sha)
  }

  lemma RestoreKeepsReads(a: Tree, b: Tree, manifest: Path, records: seq<Record>)
    requires forall p :: p != manifest && p in a ==> p in b && b[p] == a[p]
    requires forall r :: r in records ==> Views.Read(a, r.path) == Some(r.sha)
    ensures AgreeBeside(a, b, manifest, records)
  {
    forall r | r in records && manifest !in Views.Trail(Views.Seen(a), r.path, Views.MAX_LINKS)
      ensures Views.Read(b, r.path) == Some(r.sha)
    {
      Views.UntouchedReads(Views.Seen(a), Views.Seen(b), {manifest}, r.path, Views.MAX_LINKS);
    }
  }
}
