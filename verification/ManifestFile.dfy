/** The manifest file: the in-memory list of records, its encoding and its durable save. */
module ManifestFile {
  import opened Options
  import opened Files
  import opened Disks
  import opened Journal
  import opened DurableFs
  import opened Converge
  import opened Managed
  import opened Capture

  // ---- the list of records ----

  /** The position of the first record with this name, or the length. */
  function Find(records: seq<Record>, name: string): (i: nat)
    ensures i <= |records|
    ensures i < |records| ==> records[i].name == name
    ensures forall j :: 0 <= j < i ==> records[j].name != name
  {
    if records == [] || records[0].name == name then 0 else 1 + Find(records[1..], name)
  }

  function Putting(records: seq<Record>, entry: Record): seq<Record>
  {
    var i := Find(records, entry.name);
    if i < |records| then records[i := entry] else records + [entry]
  }

  function Removing(records: seq<Record>, name: string): seq<Record>
  {
    var i := Find(records, name);
    if i < |records| then records[..i] + records[i + 1..] else records
  }

  lemma FoundAt(records: seq<Record>, name: string, i: nat)
    requires i <= |records| && (i < |records| ==> records[i].name == name)
    requires forall j :: 0 <= j < i ==> records[j].name != name
    ensures Find(records, name) == i
  {}

  /** Taking an entry back after a failed save restores the list: the previous record goes back
      in place, and a new one is removed. */
  lemma PutIsUndone(records: seq<Record>, entry: Record)
    ensures Find(records, entry.name) < |records| ==>
              Putting(Putting(records, entry), records[Find(records, entry.name)]) == records
    ensures Find(records, entry.name) == |records| ==>
              Removing(Putting(records, entry), entry.name) == records
  {
    FoundAt(Putting(records, entry), entry.name, Find(records, entry.name));
  }

  /** Names and paths identify entries. */
  predicate Valid(records: seq<Record>)
  {
    && (forall r :: r in records ==> r.name != "" && r.path != [])
    && (forall i, j :: 0 <= i < j < |records| ==>
          records[i].name != records[j].name && records[i].path != records[j].path)
  }

  /** Normalising, then validating: the one document that both encoders write. */
  function Encoded(schema: int, records: seq<Record>): Option<Content>
  {
    if Normalized(schema).Some? && Valid(records) then Some(Document(Normalized(schema).value, records)) else None
  }

  /** What loading a document gives. */
  function Decoded(data: Content): Option<seq<Record>>
  {
    if data.Document? && Normalized(data.schema).Some? && Valid(data.records) then Some(data.records) else None
  }

  /** What is written is read back, and writing what was read changes nothing but an old schema version. */
  lemma EncodedIsDecoded(schema: int, records: seq<Record>, data: Content)
    ensures Encoded(schema, records).Some? ==> Decoded(Encoded(schema, records).value) == Some(records)
    ensures Decoded(data).Some? ==>
              Encoded(data.schema, Decoded(data).value) == Some(data.(schema := CURRENT_SCHEMA))
    ensures Encoded(schema, records) == Some(data) ==> Encoded(data.schema, data.records) == Some(data)
  {}

  // ---- writing the file ----

  /** From `a` to `b` nothing changes except `p`, `q` and directories above them, and no directory goes. */
  ghost predicate OnlyAtBoth(a: Disk, b: Disk, p: Path, q: Path)
  {
    && SameJournal(a, b) && Coherent(b.tree) && FilesKept(a, b, {p, q}) && KeepsTree(a, b)
    && (forall x :: !(x <= p) && !(x <= q) ==> Undisturbed(a, b, x))
  }

  /** Only `path` may have changed, a crash leaves what it could leave before or the whole new file, and
      after a success exactly the new file, for good in its directory. */
  ghost predicate Replaced(a: Disk, b: Disk, path: Path, file: Node, ok: bool)
  {
    && OnlyAt(a, b, path) && KeepsTree(a, b) && Fates(b, path) <= Fates(a, path) + {Holds(file)}
    && (ok ==> b.tree == a.tree[path := file] && !IsDir(a.tree, path) && Durable(b, path)
               && b.limbo == Forget(a.limbo, {Dir(path)}))
  }

  /** Write a complete synced temporary file, then rename it over `path`. */
  method AtomicWriteFile(fs: FileSystem, path: Path, data: Content, mode: Perm) returns (ok: bool)
    requires fs.Valid() && path != []
    modifies fs
    ensures fs.alive ==> old(fs.alive)
    ensures Replaced(old(fs.disk), fs.disk, path, Regular(data, mode), ok)
    ensures old(fs.Steady()) ==>
              fs.alive && ok == (IsDir(old(fs.disk.tree), Dir(path)) && !IsDir(old(fs.disk.tree), path))
  {
    var temp := Temp(Regular(data, mode), false);
    var fails := fs.Hazard();
    Untouched(fs.disk, path);
    if fails {
      return false;
    }
    ok, temp := fs.SyncTemp(temp);
    if ok {
      ok := Place(fs, path, temp, false);
    }
  }

  /** A plain file or nothing. */
  predicate PlainOrGone(tree: Tree, path: Path)
  {
    path in tree ==> tree[path].Regular?
  }

  /** The tree after a save: what was there is kept as a backup. */
  function Saved(tree: Tree, path: Path, data: Content): Tree
    requires path != []
  {
    var kept := if path in tree && tree[path].Regular? then tree[Bak(path) := Regular(tree[path].data, DEFAULT_MODE)] else tree;
    kept[path := Regular(data, DEFAULT_MODE)]
  }

  /** Nothing is in the way of saving a manifest here, and what is there is a manifest. */
  predicate Writable(tree: Tree, path: Path)
    requires path != []
  {
    && IsDir(tree, Dir(path)) && PlainOrGone(tree, Bak(path)) && PlainOrGone(tree, path)
    && (path in tree ==> Decoded(tree[path].data).Some?)
  }

  lemma BackupIsBeside(path: Path)
    requires path != []
    ensures Bak(path) != [] && Dir(Bak(path)) == Dir(path) && Apart(path, Bak(path))
  {
    assert Bak(path)[|path| - 1] != path[|path| - 1];
  }

  lemma BothTransitive(a: Disk, b: Disk, c: Disk, p: Path, q: Path)
    requires OnlyAt(a, b, q) && KeepsTree(a, b) && OnlyAt(b, c, p) && KeepsTree(b, c)
    ensures OnlyAtBoth(a, c, p, q)
    ensures !(p <= q) && !(q <= p) ==> Undisturbed(a, b, p) && Undisturbed(b, c, q)
  {
    KeepsTreeTransitive(a, b, c);
    forall x | IsFile(a.tree, x) && x !in {p, q} ensures FileKept(a, c, x) {
      assert FileKept(a, b, x);
      assert FileKept(b, c, x);
    }
    forall x | !(x <= p) && !(x <= q) ensures Undisturbed(a, c, x) {
      assert Undisturbed(a, b, x) && Undisturbed(b, c, x);
    }
  }

  /** What was at `path`, if anything, is a manifest and has been copied to the backup. */
  ghost predicate Preserved(a: Disk, b: Disk, path: Path)
    requires path != []
  {
    && PlainOrGone(a.tree, Bak(path)) && PlainOrGone(a.tree, path)
    && if path in a.tree then
         Decoded(a.tree[path].data).Some? && Replaced(a, b, Bak(path), Regular(a.tree[path].data, DEFAULT_MODE), true)
       else b == a
  }

  /** Keep what is at `path` under the backup name; nothing there is nothing to keep. */
  method KeepPrevious(fs: FileSystem, path: Path) returns (ok: bool)
    requires fs.Valid() && path != []
    modifies fs
    ensures fs.alive ==> old(fs.alive)
    ensures OnlyAt(old(fs.disk), fs.disk, Bak(path)) && KeepsTree(old(fs.disk), fs.disk)
    ensures ok ==> Preserved(old(fs.disk), fs.disk, path)
    ensures old(fs.Steady()) && Writable(old(fs.disk.tree), path) ==> ok && fs.alive
  {
    BackupIsBeside(path);
    Untouched(fs.disk, Bak(path));
    if !PlainOrGone(fs.disk.tree, Bak(path)) || !PlainOrGone(fs.disk.tree, path) {
      return false;
    }
    if path !in fs.disk.tree {
      return true;
    }
    if Decoded(fs.disk.tree[path].data).None? {
      return false;
    }
    ok := AtomicWriteFile(fs, Bak(path), fs.disk.tree[path].data, DEFAULT_MODE);
  }

  /** The two writes of a save. */
  lemma SavedInTwo(a: Disk, b: Disk, c: Disk, path: Path, data: Content)
    requires path != [] && Preserved(a, b, path) && Replaced(b, c, path, Regular(data, DEFAULT_MODE), true)
    ensures c.tree == Saved(a.tree, path, data) && c.limbo == Forget(a.limbo, {Dir(path)})
    ensures path in a.tree ==> Durable(c, Bak(path))
  {
    BackupIsBeside(path);
    ForgetTwice(a.limbo, {Dir(path)}, {Dir(path)});
    assert Undisturbed(b, c, Bak(path));
    assert Slot(c, Bak(path)) in Fates(c, Bak(path));
  }

  lemma StillWritable(a: Disk, b: Disk, path: Path)
    requires path != [] && Writable(a.tree, path) && Preserved(a, b, path) && Coherent(a.tree)
    ensures IsDir(b.tree, Dir(path)) && !IsDir(b.tree, path)
  {
    BackupIsBeside(path);
  }

  class Manifest {
    var schema: int
    var records: seq<Record>

    constructor (schema: int, records: seq<Record>)
      ensures this.schema == schema && this.records == records
    {
      this.schema := schema;
      this.records := records;
    }

    method Get(name: string) returns (entry: Option<Record>)
      ensures entry == if Find(records, name) < |records| then Some(records[Find(records, name)]) else None
    {
      for i := 0 to |records|
        invariant forall j :: 0 <= j < i ==> records[j].name != name
      {
        if records[i].name == name {
          FoundAt(records, name, i);
          return Some(records[i]);
        }
      }
      FoundAt(records, name, |records|);
      entry := None;
    }

    method Clone() returns (copy: Manifest)
      ensures fresh(copy) && copy.schema == schema && copy.records == records
    {
      copy := new Manifest(schema, records);
    }

    /** Insert or replace in place. */
    method Put(entry: Record)
      modifies this`records
      ensures records == Putting(old(records), entry)
      // The new record takes the place of the first of its name, or comes last.
      ensures forall i :: 0 <= i < |old(records)| && old(records)[i].name == entry.name
                          && (forall j :: 0 <= j < i ==> old(records)[j].name != entry.name) ==>
                            records == old(records)[i := entry]
      ensures (forall r :: r in old(records) ==> r.name != entry.name) ==> records == old(records) + [entry]
    {
      var i := 0;
      while i < |records| && records[i].name != entry.name
        invariant 0 <= i <= |records|
        invariant unchanged(this)
        invariant forall j :: 0 <= j < i ==> records[j].name != entry.name
      {
        i := i + 1;
      }
      FoundAt(records, entry.name, i);
      records := if i < |records| then records[i := entry] else records + [entry];
    }

    method Remove(name: string) returns (removed: bool)
      modifies this`records
      ensures records == Removing(old(records), name)
      // The first record of the name is taken out.
      ensures removed <==> exists r :: r in old(records) && r.name == name
      ensures !removed ==> records == old(records)
      ensures forall i :: 0 <= i < |old(records)| && old(records)[i].name == name
                          && (forall j :: 0 <= j < i ==> old(records)[j].name != name) ==>
                            records == old(records)[..i] + old(records)[i + 1..]
    {
      for i := 0 to |records|
        invariant unchanged(this)
        invariant forall j :: 0 <= j < i ==> records[j].name != name
      {
        if records[i].name == name {
          FoundAt(records, name, i);
          records := records[..i] + records[i + 1..];
          return true;
        }
      }
      FoundAt(records, name, |records|);
      removed := false;
    }

    /** Bring the schema version up to date. */
    method Normalize() returns (ok: bool)
      modifies this`schema
      ensures ok <==> Normalized(old(schema)).Some?
      ensures schema == if ok then CURRENT_SCHEMA else old(schema)
    {
      ok := 0 <= schema <= CURRENT_SCHEMA;
      if ok {
        schema := CURRENT_SCHEMA;
      }
    }

    /** Check the schema version, and names and paths with the two sets the loop fills. */
    method Validate() returns (ok: bool)
      ensures ok <==> schema == CURRENT_SCHEMA && Valid(records)
    {
      if schema != CURRENT_SCHEMA {
        return false;
      }
      var names: set<string>, paths: set<Path> := {}, {};
      for i := 0 to |records|
        invariant names == set j | 0 <= j < i :: records[j].name
        invariant paths == set j | 0 <= j < i :: records[j].path
        invariant Valid(records[..i])
      {
        assert records[..i + 1] == records[..i] + [records[i]];
        if records[i].name == "" || records[i].path == [] || records[i].name in names || records[i].path in paths {
          return false;
        }
        names, paths := names + {records[i].name}, paths + {records[i].path};
      }
      assert records[..|records|] == records;
      ok := true;
    }

    /** The bytes the journal captures as the manifest's after state. */
    method EncodeManifest() returns (data: Option<Content>)
      ensures data == Encoded(schema, records)
    {
      var toWrite := Clone();
      var ok := toWrite.Normalize();
      if !ok {
        return None;
      }
      ok := toWrite.Validate();
      if !ok {
        return None;
      }
      data := Some(Document(toWrite.schema, toWrite.records));
    }

    /** Keep the previous manifest as a backup, then replace it, each through a complete synced
        temporary file. */
    method Save(fs: FileSystem, path: Path) returns (ok: bool)
      requires fs.Valid() && path != []
      modifies fs
      ensures fs.alive ==> old(fs.alive)
      ensures OnlyAtBoth(old(fs.disk), fs.disk, path, Bak(path))
      ensures match Encoded(schema, records)
              case None => !ok && fs.disk == old(fs.disk)
              case Some(data) =>
                && Fates(fs.disk, path) <= Fates(old(fs.disk), path) + {Holds(Regular(data, DEFAULT_MODE))}
                && (ok ==> fs.disk.tree == Saved(old(fs.disk.tree), path, data))
      // The file is a document of the current version with mode 0600, and what was there is under the backup name.
      ensures ok ==> path in fs.disk.tree && fs.disk.tree[path] == Regular(Document(2, records), 0x180)
      ensures ok && path in old(fs.disk.tree) ==>
                && var backup := path[..|path| - 1] + [path[|path| - 1] + ".bak"];
                   old(fs.disk.tree)[path].Regular? && backup in fs.disk.tree
                   && fs.disk.tree[backup] == Regular(old(fs.disk.tree)[path].data, 0x180)
      // Everything is final in its directory.
      ensures ok ==> PlainOrGone(old(fs.disk.tree), path) && PlainOrGone(old(fs.disk.tree), Bak(path))
                     && Durable(fs.disk, path) && fs.disk.limbo == Forget(old(fs.disk.limbo), {Dir(path)})
      ensures ok && path in old(fs.disk.tree) ==>
                Decoded(old(fs.disk.tree)[path].data).Some? && Durable(fs.disk, Bak(path))
      ensures old(fs.Steady()) && Writable(old(fs.disk.tree), path) ==> fs.alive && ok == Encoded(schema, records).Some?
    {
      BackupIsBeside(path);
      Untouched(fs.disk, path);
      assert OnlyAtBoth(fs.disk, fs.disk, path, Bak(path));
      var encoded := EncodeManifest();
      if encoded.None? {
        return false;
      }
      ok := SaveEncoded(fs, path, encoded.value);
    }

    method SaveEncoded(fs: FileSystem, path: Path, data: Content) returns (ok: bool)
      requires fs.Valid() && path != []
      modifies fs
      ensures fs.alive ==> old(fs.alive)
      ensures OnlyAtBoth(old(fs.disk), fs.disk, path, Bak(path))
      ensures Fates(fs.disk, path) <= Fates(old(fs.disk), path) + {Holds(Regular(data, DEFAULT_MODE))}
      ensures ok ==> fs.disk.tree == Saved(old(fs.disk.tree), path, data)
                     && PlainOrGone(old(fs.disk.tree), path) && PlainOrGone(old(fs.disk.tree), Bak(path))
                     && Durable(fs.disk, path) && fs.disk.limbo == Forget(old(fs.disk.limbo), {Dir(path)})
      ensures ok && path in old(fs.disk.tree) ==>
                Decoded(old(fs.disk.tree)[path].data).Some? && Durable(fs.disk, Bak(path))
      ensures old(fs.Steady()) && Writable(old(fs.disk.tree), path) ==> ok && fs.alive
    {
      BackupIsBeside(path);
      ok := KeepPrevious(fs, path);
      ghost var kept := fs.disk;
      Untouched(kept, path);
      if ok {
        if Writable(old(fs.disk.tree), path) {
          StillWritable(old(fs.disk), kept, path);
        }
        ok := AtomicWriteFile(fs, path, data, DEFAULT_MODE);
        if ok {
          SavedInTwo(old(fs.disk), kept, fs.disk, path, data);
        }
      }
      BothTransitive(old(fs.disk), kept, fs.disk, path, Bak(path));
    }
  }
}
