/** Paths, file contents and the nodes of a directory tree, with content digests
    taken to be injective. */
module Files {
  import opened Options

  /** An absolute, clean path as its list of components; the root is the empty list. */
  type Path = seq<string>

  /** The directory that holds a path; the root is its own directory, as in `filepath.Dir`. */
  function Dir(path: Path): (dir: Path)
    ensures path != [] ==> dir < path && |dir| == |path| - 1
  {
    if path == [] then [] else path[..|path| - 1]
  }

  /** What a regular file holds: arbitrary bytes, or the JSON encoding of a manifest of some schema
      version. The encoding is injective because it is a constructor. */
  datatype Content = Binary(bytes: string) | Document(schema: int, records: seq<Record>)

  /** The newest schema version; older ones are migrated when they are read. */
  const CURRENT_SCHEMA := 2

  /** The schema version after normalisation, or nothing when it is not supported. */
  function Normalized(schema: int): Option<int>
  {
    if 0 <= schema <= CURRENT_SCHEMA then Some(CURRENT_SCHEMA) else None
  }

  /** A manifest as this version writes it. */
  function Current(records: seq<Record>): Content { Document(CURRENT_SCHEMA, records) }

  /** A manifest of any supported version that lists these records. */
  predicate Lists(content: Content, records: seq<Record>)
  {
    content.Document? && Normalized(content.schema).Some? && content.records == records
  }

  /** The part of a manifest entry that speaks about the disk. */
  datatype Record = Record(name: string, path: Path, sha: Digest)

  /** A content digest; no two contents share one. */
  datatype Digest = Digest(content: Content)

  function Sha(content: Content): Digest { Digest(content) }

  /** The nine permission bits. */
  type Perm = mode: nat | mode < 512

  /** The text of a symbolic link, and the path it leads to from where the link is. */
  datatype Pointer = Pointer(text: string, to: Path)

  datatype Node =
    | Directory
    | Regular(data: Content, mode: Perm)
    | Symlink(target: Pointer)

  type Tree = map<Path, Node>

  predicate IsDir(tree: Tree, path: Path)
  {
    path == [] || (path in tree && tree[path].Directory?)
  }

  /** Nothing but directories stands on the way down to `dir`. */
  predicate Passable(tree: Tree, dir: Path)
  {
    forall p :: p in tree && p <= dir ==> tree[p].Directory?
  }

  /** The tree with every directory down to `dir`. */
  function WithDirs(tree: Tree, dir: Path): Tree
    decreases |dir|
  {
    if IsDir(tree, dir) then tree else WithDirs(tree, Dir(dir))[dir := Directory]
  }

  predicate HasChild(tree: Tree, dir: Path)
  {
    exists p :: p in tree && p != [] && Dir(p) == dir
  }

  /** Every node of a coherent tree sits in a directory. */
  predicate Coherent(tree: Tree)
  {
    forall p :: p in tree ==> p != [] && IsDir(tree, Dir(p))
  }

  /** `Dir` of every proper prefix of a node's path is a directory, not only its own. */
  lemma {:induction false} AncestorsAreDirectories(tree: Tree, path: Path, above: Path)
    requires Coherent(tree) && path in tree && above < path
    ensures IsDir(tree, above)
    decreases |path|
  {
    if above != Dir(path) {
      assert above < Dir(path);
      AncestorsAreDirectories(tree, Dir(path), above);
    }
  }

  /** So a directory with something below it has a child. */
  lemma {:induction false} AncestorsHaveChildren(tree: Tree, path: Path, above: Path)
    requires Coherent(tree) && path in tree && above < path
    ensures HasChild(tree, above)
    decreases |path|
  {
    assert IsDir(tree, Dir(path));
    if above != Dir(path) {
      assert above < Dir(path);
      AncestorsHaveChildren(tree, Dir(path), above);
    }
  }

  /** Removing a childless entry leaves every other node in its directory. */
  lemma RemovalKeepsCoherent(tree: Tree, path: Path)
    requires Coherent(tree) && !HasChild(tree, path)
    ensures Coherent(tree - {path})
  {
    forall p | p in tree - {path} ensures p != [] && IsDir(tree - {path}, Dir(p)) {
      assert IsDir(tree, Dir(p));
    }
  }

  /** So does giving a new node to a path below a directory, unless it replaces a directory. */
  lemma AdditionKeepsCoherent(tree: Tree, path: Path, node: Node)
    requires Coherent(tree) && path != [] && IsDir(tree, Dir(path)) && !IsDir(tree, path)
    ensures Coherent(tree[path := node])
  {
    forall p | p in tree[path := node] ensures p != [] && IsDir(tree[path := node], Dir(p)) {
      assert p == path || IsDir(tree, Dir(p));
    }
  }

  lemma FilesAreChildless(tree: Tree, path: Path)
    requires Coherent(tree) && path in tree && !tree[path].Directory?
    ensures !HasChild(tree, path)
  {}
}
