/** What reading a path leads to when symbolic links are followed through the tree. A view says
    for every file what it is; one view is what a reader sees now, another what he will see for
    good. */
module Views {
  import opened Options
  import opened Files
  import opened Disks

  datatype Entry = Plain(sha: Digest) | Leads(to: Path)

  type View = map<Path, Entry>

  /** So many links are followed before reading fails. */
  const MAX_LINKS: nat := 40

  function EntryOf(node: Node): Entry
    requires !node.Directory?
  {
    match node
    case Regular(data, _) => Plain(Sha(data))
    case Symlink(target) => Leads(target.to)
  }

  /** What a reader sees now. */
  function Seen(tree: Tree): View
  {
    map p | p in tree && p != [] && !tree[p].Directory? :: EntryOf(tree[p])
  }

  /** What a reader will see after any crash. */
  ghost function ForGood(d: Disk): View
  {
    map p | p in d.tree && p != [] && !d.tree[p].Directory? && Lasting(d, p) :: EntryOf(d.tree[p])
  }

  /** The digest of what a path leads to. */
  function Follow(view: View, path: Path, links: nat): Option<Digest>
    decreases links
  {
    if path !in view then None
    else
      match view[path]
      case Plain(sha) => Some(sha)
      case Leads(to) => if links == 0 then None else Follow(view, to, links - 1)
  }

  function Read(tree: Tree, path: Path): Option<Digest>
  {
    Follow(Seen(tree), path, MAX_LINKS)
  }

  /** The paths that following links from `path` comes to, the last of which ends it. */
  function Trail(view: View, path: Path, links: nat): (trail: set<Path>)
    ensures path in trail
    decreases links
  {
    {path} + if path in view && view[path].Leads? && links > 0 then Trail(view, view[path].to, links - 1) else {}
  }

  predicate Extends(a: View, b: View)
  {
    forall p :: p in a ==> p in b && b[p] == a[p]
  }

  /** What can be read in a view can be read in a larger one, in the same way. */
  lemma {:induction false} ExtendedReads(a: View, b: View, path: Path, links: nat)
    requires Extends(a, b) && Follow(a, path, links).Some?
    ensures Follow(b, path, links) == Follow(a, path, links) && Trail(b, path, links) == Trail(a, path, links)
    decreases links
  {
    if a[path].Leads? {
      ExtendedReads(a, b, a[path].to, links - 1);
    }
  }

  /** Reading without these paths succeeds exactly when it succeeds with them and does not come to
      any; then it comes to the same. */
  lemma {:induction false} ReadsWithout(view: View, paths: set<Path>, path: Path, links: nat)
    ensures Follow(view - paths, path, links).Some? <==>
            Follow(view, path, links).Some? && Trail(view, path, links) !! paths
    ensures Follow(view - paths, path, links).Some? ==>
              Follow(view - paths, path, links) == Follow(view, path, links)
              && Trail(view - paths, path, links) == Trail(view, path, links)
    decreases links
  {
    if path in view && path !in paths && view[path].Leads? && links > 0 {
      ReadsWithout(view, paths, view[path].to, links - 1);
    }
  }

  /** More links than needed make no difference. */
  lemma {:induction false} MoreLinks(view: View, path: Path, links: nat, more: nat)
    requires Follow(view, path, links).Some? && links <= more
    ensures Follow(view, path, more) == Follow(view, path, links) && Trail(view, path, more) == Trail(view, path, links)
    decreases links
  {
    if view[path].Leads? {
      MoreLinks(view, view[path].to, links - 1, more - 1);
    }
  }

  /** From any path on the trail the same is read. */
  lemma {:induction false} MetOnTheWay(view: View, path: Path, links: nat, met: Path) returns (left: nat)
    requires Follow(view, path, links).Some? && met in Trail(view, path, links)
    ensures left <= links && Follow(view, met, left) == Follow(view, path, links)
    decreases links
  {
    left := links;
    if met != path {
      left := MetOnTheWay(view, view[path].to, links - 1, met);
    }
  }

  /** Reading never comes back to where it has been. */
  lemma {:induction false} NoReturn(view: View, path: Path, links: nat)
    requires path in view && view[path].Leads? && Follow(view, path, links).Some?
    ensures links > 0 && path !in Trail(view, view[path].to, links - 1)
    decreases links
  {
    if path in Trail(view, view[path].to, links - 1) {
      var left := MetOnTheWay(view, view[path].to, links - 1, path);
      NoReturn(view, path, left);
      MoreLinks(view, view[path].to, left - 1, links - 1);
    }
  }

  /** What is read stays when nothing on the trail is touched. */
  lemma UntouchedReads(a: View, b: View, touched: set<Path>, path: Path, links: nat)
    requires Extends(a - touched, b) && Follow(a, path, links).Some? && Trail(a, path, links) !! touched
    ensures Follow(b, path, links) == Follow(a, path, links) && Trail(b, path, links) == Trail(a, path, links)
  {
    ReadsWithout(a, touched, path, links);
    ExtendedReads(a - touched, b, path, links);
  }

  /** When everything else stays and a path on the trail has become a plain file, reading ends there. */
  lemma {:induction false} ReadsAt(a: View, b: View, met: Path, path: Path, links: nat)
    requires Extends(a - {met}, b) && met in b && b[met].Plain?
    requires Follow(a, path, links).Some? && met in Trail(a, path, links)
    ensures Follow(b, path, links) == Some(b[met].sha)
    decreases links
  {
    if path != met {
      ReadsAt(a, b, met, a[path].to, links - 1);
    }
  }

  /** What is there for good is what a reader sees. */
  lemma ForGoodIsSeen(d: Disk)
    ensures Extends(ForGood(d), Seen(d.tree))
  {}

  lemma CrashKeepsSlot(d: Disk, d': Disk, path: Path)
    requires Crashed(d, d') && Lasting(d, path)
    ensures Slot(d', path) == Slot(d, path) && Lasting(d', path)
  {
    CrashSettles(d, d');
    assert Possible(d, path, Slot(d', path));
  }

  /** A crash changes nothing that is there for good. */
  lemma CrashKeepsForGood(d: Disk, d': Disk)
    requires Crashed(d, d')
    ensures Extends(ForGood(d), ForGood(d'))
  {
    forall p | p in ForGood(d) ensures p in ForGood(d') && ForGood(d')[p] == ForGood(d)[p] {
      CrashKeepsSlot(d, d', p);
    }
  }
}
