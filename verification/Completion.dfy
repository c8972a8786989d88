/** When a fault-free recovery succeeds, told from the disk on which it starts. */
module Completion {
  import opened Options
  import opened Files
  import opened Disks
  import opened Views
  import opened Journal
  import opened DurableFs
  import opened EmptyParents
  import opened Converge
  import opened Recovery

  // ---- links ----

  /** What a captured link leads to is there, aside from the participants. */
  predicate LinkDetached(tree: Tree, intent: Intent, state: State)
  {
    state.Link? ==> Follow(Seen(tree) - Movers(intent), state.target.to, MAX_LINKS - 1) == Some(state.sha)
  }

  predicate Detached(tree: Tree, intent: Intent)
  {
    forall m :: m in intent.mutations ==> LinkDetached(tree, intent, m.before) && LinkDetached(tree, intent, m.after)
  }

  // ---- which directories are there when the turn of a participant comes ----

  /** The turn of this participant removes what is at its path. */
  predicate Leaves(tree: Tree, intent: Intent, after: bool, i: nat)
    requires i < |intent.mutations|
  {
    var m := intent.mutations[i];
    !Guard(m) && Target(m, after).Absent? && m.path in tree
  }

  /** After its turn there is a file at the path of this participant. */
  predicate Arrives(intent: Intent, after: bool, i: nat)
    requires i < |intent.mutations|
  {
    var m := intent.mutations[i];
    !Guard(m) && !Target(m, after).Absent?
  }

  /** The first `n` turns do not touch this entry: it is a directory that is never pruned, or nothing at or
      below it is removed. */
  predicate Stays(tree: Tree, places: Places, intent: Intent, after: bool, n: nat, x: Path)
    requires n <= |intent.mutations| && x in tree
  {
    || (tree[x].Directory? && Kept(places, x))
    || forall i :: 0 <= i < n && Leaves(tree, intent, after, i) ==> !(x <= intent.mutations[i].path)
  }

  /** After the first `n` turns this is a directory: something has been installed below it, or it was one and
      something in it stays. */
  predicate Stands(tree: Tree, places: Places, intent: Intent, after: bool, n: nat, dir: Path)
    requires n <= |intent.mutations|
  {
    || dir == []
    || (exists i :: 0 <= i < n && Arrives(intent, after, i) && dir < intent.mutations[i].path)
    || (IsDir(tree, dir) && exists x :: x in tree && dir <= x && Stays(tree, places, intent, after, n, x))
  }

  /** The participant is gone already, and it only remains to make that final. */
  predicate AlreadyAbsent(tree: Tree, m: Mutation, after: bool)
  {
    !Guard(m) && Target(m, after).Absent? && m.path !in tree
  }

  /** Every participant that is gone already still has its directory when its turn comes. */
  predicate Anchored(tree: Tree, places: Places, intent: Intent, after: bool)
  {
    forall n :: 0 <= n < |intent.mutations| && AlreadyAbsent(tree, intent.mutations[n], after) ==>
      Stands(tree, places, intent, after, n, Dir(intent.mutations[n].path))
  }

  // ---- the tree after some turns ----

  /** The first `n` turns have made `b` out of `a`. */
  ghost predicate AtTurn(a: Tree, b: Tree, places: Places, intent: Intent, after: bool, n: nat)
    requires n <= |intent.mutations|
  {
    && Coherent(b)
    && (forall i :: 0 <= i < n ==> Fits(Visible(b, intent.mutations[i].path), Target(intent.mutations[i], after)))
    && (forall i :: n <= i < |intent.mutations| ==>
          Visible(b, intent.mutations[i].path) == Visible(a, intent.mutations[i].path))
    && OtherFiles(a, b, intent)
    && (forall dir :: IsDir(b, dir) <==> Stands(a, places, intent, after, n, dir))
  }

  /** The files that are no participants. */
  ghost predicate OtherFiles(a: Tree, b: Tree, intent: Intent)
  {
    forall p :: p !in Movers(intent) ==>
      (IsFile(b, p) <==> IsFile(a, p)) && (IsFile(a, p) ==> b[p] == a[p])
  }

  lemma OtherTwice(a: Tree, b: Tree, c: Tree, intent: Intent)
    requires OtherFiles(a, b, intent) && OtherFiles(b, c, intent)
    ensures OtherFiles(a, c, intent)
  {}

  lemma OtherSeen(a: Tree, b: Tree, intent: Intent)
    requires OtherFiles(a, b, intent)
    ensures Extends(Seen(a) - Movers(intent), Seen(b))
  {
    forall p | p in Seen(a) - Movers(intent) ensures p in Seen(b) && Seen(b)[p] == Seen(a)[p] {
      assert IsFile(a, p);
    }
  }

  /** What a participant is can be told from its entry. */
  lemma MatchesEntry(a: Tree, b: Tree, intent: Intent, path: Path, state: State)
    requires OtherFiles(a, b, intent) && LinkDetached(a, intent, state) && path != []
    ensures Matches(b, path, state) <==>
            Fits(Visible(b, path), state) && (state.Absent? ==> Passable(b, Dir(path)))
  {
    if state.Link? && Fits(Visible(b, path), state) {
      OtherSeen(a, b, intent);
      ExtendedReads(Seen(a) - Movers(intent), Seen(b), state.target.to, MAX_LINKS - 1);
      assert Seen(b)[path] == Leads(state.target.to);
    }
  }

  // ---- coherence ----

  lemma {:induction false} PruneIsCoherent(places: Places, tree: Tree, dir: Path)
    requires Coherent(tree)
    ensures Coherent(Prune(places, tree, dir))
    decreases |dir|
  {
    if !Kept(places, dir) {
      if dir !in tree {
        PruneIsCoherent(places, tree, Dir(dir));
      } else if tree[dir].Directory? && !HasChild(tree, dir) {
        RemovalKeepsCoherent(tree, dir);
        PruneIsCoherent(places, tree - {dir}, Dir(dir));
      }
    }
  }

  // ---- one turn ----

  /** A turn that removes nothing makes at most the directories above what it installs. */
  lemma StandsMore(a: Tree, places: Places, intent: Intent, after: bool, n: nat, dir: Path)
    requires n < |intent.mutations| && !Leaves(a, intent, after, n)
    ensures Stands(a, places, intent, after, n + 1, dir) <==>
            Stands(a, places, intent, after, n, dir) || (Arrives(intent, after, n) && dir < intent.mutations[n].path)
  {
    hide Leaves, Arrives;
    assert forall x :: x in a ==> (Stays(a, places, intent, after, n, x) <==> Stays(a, places, intent, after, n + 1, x));
  }

  /** Nothing is moved. */
  lemma SameStep(a: Tree, b: Tree, places: Places, intent: Intent, after: bool, n: nat)
    requires n < |intent.mutations| && AtTurn(a, b, places, intent, after, n)
    requires Fits(Visible(a, intent.mutations[n].path), Target(intent.mutations[n], after))
    ensures AtTurn(a, b, places, intent, after, n + 1)
  {
    hide Stands;
    var path := intent.mutations[n].path;
    forall dir ensures IsDir(b, dir) <==> Stands(a, places, intent, after, n + 1, dir) {
      StandsMore(a, places, intent, after, n, dir);
      if Arrives(intent, after, n) && dir < path {
        assert path in b;
        AncestorsAreDirectories(b, path, dir);
      }
    }
  }

  /** No two participants nest. */
  lemma FlatPaths(intent: Intent, i: nat, j: nat)
    requires Flat(intent) && i < |intent.mutations| && j < |intent.mutations| && i != j
    ensures !(intent.mutations[i].path <= intent.mutations[j].path)
  {}

  /** A file is put in place, and the directories above it are made. */
  lemma PutStep(a: Tree, b: Tree, c: Tree, places: Places, intent: Intent, after: bool, n: nat, node: Node)
    requires Flat(intent) && n < |intent.mutations| && AtTurn(a, b, places, intent, after, n)
    requires var path := intent.mutations[n].path;
             && Arrives(intent, after, n) && !IsDir(b, path) && Passable(b, Dir(path)) && !node.Directory?
             && Fits(Holds(node), Target(intent.mutations[n], after)) && c == WithDirs(b, Dir(path))[path := node]
    ensures AtTurn(a, c, places, intent, after, n + 1)
  {
    hide Stands, Coherent, Passable, WithDirs;
    var path := intent.mutations[n].path;
    PutFiles(b, c, intent, n, node);
    OtherTwice(a, b, c, intent);
    forall i | 0 <= i < |intent.mutations| && i != n
      ensures Visible(c, intent.mutations[i].path) == Visible(b, intent.mutations[i].path)
    {
      PutElsewhere(b, c, intent, n, i, node);
    }
    forall dir ensures IsDir(c, dir) <==> Stands(a, places, intent, after, n + 1, dir) {
      PutDirs(a, b, c, places, intent, after, n, node, dir);
    }
  }

  lemma PutFiles(b: Tree, c: Tree, intent: Intent, n: nat, node: Node)
    requires n < |intent.mutations| && Coherent(b) && !Guard(intent.mutations[n])
    requires var path := intent.mutations[n].path;
             path != [] && !IsDir(b, path) && Passable(b, Dir(path)) && c == WithDirs(b, Dir(path))[path := node]
    ensures Coherent(c) && OtherFiles(b, c, intent)
  {
    var path := intent.mutations[n].path;
    WithDirsIsCoherent(b, Dir(path));
    WithDirsAdds(b, Dir(path));
    AdditionKeepsCoherent(WithDirs(b, Dir(path)), path, node);
    assert path in Movers(intent);
  }

  lemma PutElsewhere(b: Tree, c: Tree, intent: Intent, n: nat, i: nat, node: Node)
    requires Flat(intent) && n < |intent.mutations| && i < |intent.mutations| && i != n
    requires var path := intent.mutations[n].path;
             path != [] && Passable(b, Dir(path)) && c == WithDirs(b, Dir(path))[path := node]
    ensures Visible(c, intent.mutations[i].path) == Visible(b, intent.mutations[i].path)
  {
    WithDirsAdds(b, Dir(intent.mutations[n].path));
    FlatPaths(intent, i, n);
  }

  lemma PutDirs(a: Tree, b: Tree, c: Tree, places: Places, intent: Intent, after: bool, n: nat, node: Node, dir: Path)
    requires n < |intent.mutations| && (IsDir(b, dir) <==> Stands(a, places, intent, after, n, dir))
    requires var path := intent.mutations[n].path;
             && Arrives(intent, after, n) && path != [] && !IsDir(b, path) && Passable(b, Dir(path)) && !node.Directory?
             && c == WithDirs(b, Dir(path))[path := node] && Coherent(c)
    ensures IsDir(c, dir) <==> Stands(a, places, intent, after, n + 1, dir)
  {
    hide Stands, Passable;
    var path := intent.mutations[n].path;
    WithDirsAdds(b, Dir(path));
    StandsMore(a, places, intent, after, n, dir);
    if dir < path {
      AncestorsAreDirectories(c, path, dir);
    }
  }

  // ---- a turn that removes ----

  /** What has been removed, and the directories that were pruned with it. */
  ghost predicate Gone(b: Tree, c: Tree, places: Places, path: Path, floor: Path)
  {
    && path != [] && floor <= Dir(path) && c == b - {path} - Chain(floor, Dir(path))
    && (Kept(places, floor) || HasChild(c, floor))
    && (forall p :: p in b && Within(floor, p, Dir(path)) ==> b[p].Directory? && !Kept(places, p))
  }

  lemma PrunedIsGone(b: Tree, places: Places, path: Path) returns (floor: Path)
    requires Coherent(b) && IsFile(b, path)
    ensures Coherent(Prune(places, b - {path}, Dir(path)))
    ensures Gone(b, Prune(places, b - {path}, Dir(path)), places, path, floor)
  {
    FilesAreChildless(b, path);
    RemovalKeepsCoherent(b, path);
    PruneIsCoherent(places, b - {path}, Dir(path));
    floor := PruneRemovesOneChain(places, b - {path}, Dir(path));
    if floor != [] {
      AncestorsAreDirectories(b, path, floor);
    }
  }

  lemma GoneFiles(b: Tree, c: Tree, places: Places, intent: Intent, n: nat, floor: Path)
    requires n < |intent.mutations| && !Guard(intent.mutations[n]) && Gone(b, c, places, intent.mutations[n].path, floor)
    ensures OtherFiles(b, c, intent) && intent.mutations[n].path !in c
  {
    assert intent.mutations[n].path in Movers(intent);
  }

  lemma GoneElsewhere(b: Tree, c: Tree, places: Places, intent: Intent, n: nat, i: nat, floor: Path)
    requires Flat(intent) && n < |intent.mutations| && i < |intent.mutations| && i != n
    requires Gone(b, c, places, intent.mutations[n].path, floor)
    ensures Visible(c, intent.mutations[i].path) == Visible(b, intent.mutations[i].path)
  {
    FlatPaths(intent, i, n);
  }

  /** The paths of the participants after a turn. */
  ghost predicate PathsAt(a: Tree, c: Tree, intent: Intent, after: bool, n: nat)
    requires n <= |intent.mutations|
  {
    && (forall i :: 0 <= i < n ==> Fits(Visible(c, intent.mutations[i].path), Target(intent.mutations[i], after)))
    && (forall i :: n <= i < |intent.mutations| ==>
          Visible(c, intent.mutations[i].path) == Visible(a, intent.mutations[i].path))
    && OtherFiles(a, c, intent)
  }

  lemma MoverIndex(intent: Intent, p: Path) returns (i: nat)
    requires p in Movers(intent)
    ensures i < |intent.mutations| && intent.mutations[i].path == p && !Guard(intent.mutations[i])
  {
    var m :| m in intent.mutations && !Guard(m) && m.path == p;
    i :| 0 <= i < |intent.mutations| && intent.mutations[i] == m;
  }

  /** A file that stays is still there. */
  lemma FileStays(a: Tree, c: Tree, places: Places, intent: Intent, after: bool, n: nat, x: Path)
    requires n <= |intent.mutations| && PathsAt(a, c, intent, after, n)
    requires IsFile(a, x) && Stays(a, places, intent, after, n, x)
    ensures x in c
  {
    if x in Movers(intent) {
      var i := MoverIndex(intent, x);
      assert i < n ==> !Leaves(a, intent, after, i);
    }
  }

  lemma StaysStands(a: Tree, places: Places, intent: Intent, after: bool, n: nat, x: Path, dir: Path)
    requires Coherent(a) && n <= |intent.mutations| && x in a && dir < x && Stays(a, places, intent, after, n, x)
    ensures Stands(a, places, intent, after, n, dir)
  {
    hide Stays;
    AncestorsAreDirectories(a, x, dir);
  }

  lemma MoverStays(a: Tree, places: Places, intent: Intent, after: bool, n: nat, i: nat)
    requires Flat(intent) && n <= i < |intent.mutations| && intent.mutations[i].path in a
    ensures Stays(a, places, intent, after, n, intent.mutations[i].path)
  {
    forall k | 0 <= k < n ensures !(intent.mutations[i].path <= intent.mutations[k].path) {
      FlatPaths(intent, i, k);
    }
  }

  lemma OtherStays(a: Tree, places: Places, intent: Intent, after: bool, n: nat, x: Path)
    requires Coherent(a) && n <= |intent.mutations| && IsFile(a, x) && x !in Movers(intent)
    ensures Stays(a, places, intent, after, n, x)
  {
    forall k | 0 <= k < n && Leaves(a, intent, after, k) ensures !(x <= intent.mutations[k].path) {
      var path := intent.mutations[k].path;
      MoverIsIn(intent, k);
      AtOrAbove(x, path);
      if x < path {
        AncestorsAreDirectories(a, path, x);
      }
    }
  }

  lemma AtOrAbove(x: Path, path: Path)
    ensures x <= path <==> x == path || x < path
    ensures path != [] ==> (x < path <==> x <= Dir(path))
  {
    if x <= path && |x| == |path| {
      assert x == path[..|x|] == path;
    }
  }

  lemma MoverIsIn(intent: Intent, k: nat)
    requires k < |intent.mutations| && !Guard(intent.mutations[k])
    ensures intent.mutations[k].path in Movers(intent)
  {
    assert intent.mutations[k] in intent.mutations;
  }

  /** A file that is there has been installed, or stays. */
  lemma FileRemains(a: Tree, c: Tree, places: Places, intent: Intent, after: bool, n: nat, x: Path, dir: Path)
    requires Flat(intent) && Coherent(a) && n <= |intent.mutations| && PathsAt(a, c, intent, after, n)
    requires IsFile(c, x) && dir < x
    ensures Stands(a, places, intent, after, n, dir)
  {
    hide Stays, Kept, Coherent, Flat;
    if x in Movers(intent) {
      var i := MoverIndex(intent, x);
      if i < n {
        assert Arrives(intent, after, i);
      } else {
        MoverStays(a, places, intent, after, n, i);
        StaysStands(a, places, intent, after, n, x, dir);
      }
    } else {
      OtherStays(a, places, intent, after, n, x);
      StaysStands(a, places, intent, after, n, x, dir);
    }
  }

  lemma StandsAbove(a: Tree, places: Places, intent: Intent, after: bool, n: nat, dir: Path, below: Path)
    requires Coherent(a) && n <= |intent.mutations| && Stands(a, places, intent, after, n, below) && dir <= below
    ensures Stands(a, places, intent, after, n, dir)
  {
    hide Stays, Arrives;
    if dir != below && dir != [] && below in a {
      AncestorsAreDirectories(a, below, dir);
    }
  }

  /** What does not lie above the removed file stands as before. */
  lemma StandsAside(a: Tree, places: Places, intent: Intent, after: bool, n: nat, dir: Path)
    requires n < |intent.mutations| && Stands(a, places, intent, after, n, dir)
    requires !(dir <= intent.mutations[n].path)
    ensures Stands(a, places, intent, after, n + 1, dir)
  {
    hide Kept, Leaves, Arrives;
    assert forall x :: x in a && dir <= x && Stays(a, places, intent, after, n, x) ==>
             Stays(a, places, intent, after, n + 1, x);
  }

  /** What still stands is a directory. */
  lemma StandingIsThere(a: Tree, b: Tree, c: Tree, places: Places, intent: Intent, after: bool, n: nat, floor: Path, dir: Path)
    requires Flat(intent) && Coherent(a) && Coherent(c) && n < |intent.mutations|
    requires AtTurn(a, b, places, intent, after, n) && PathsAt(a, c, intent, after, n + 1)
    requires Leaves(a, intent, after, n) && IsFile(a, intent.mutations[n].path)
    requires Gone(b, c, places, intent.mutations[n].path, floor)
    requires Stands(a, places, intent, after, n + 1, dir)
    ensures IsDir(c, dir)
  {
    if i :| 0 <= i < n + 1 && Arrives(intent, after, i) && dir < intent.mutations[i].path {
      assert intent.mutations[i].path in c;
      AncestorsAreDirectories(c, intent.mutations[i].path, dir);
    } else if dir != [] {
      var x :| x in a && dir <= x && Stays(a, places, intent, after, n + 1, x);
      StayingIsThere(a, b, c, places, intent, after, n, floor, x);
      if dir != x {
        AncestorsAreDirectories(c, x, dir);
      }
    }
  }

  lemma StayingIsThere(a: Tree, b: Tree, c: Tree, places: Places, intent: Intent, after: bool, n: nat, floor: Path, x: Path)
    requires Flat(intent) && Coherent(a) && Coherent(c) && n < |intent.mutations|
    requires AtTurn(a, b, places, intent, after, n) && PathsAt(a, c, intent, after, n + 1)
    requires Leaves(a, intent, after, n) && IsFile(a, intent.mutations[n].path)
    requires Gone(b, c, places, intent.mutations[n].path, floor)
    requires x in a && Stays(a, places, intent, after, n + 1, x)
    ensures x in c && (a[x].Directory? ==> IsDir(c, x))
  {
    hide Stays, Gone, Kept, PathsAt, AtTurn, Stands, Coherent, Flat;
    NotRoot(a, x);
    if a[x].Directory? {
      StaysThrough(a, places, intent, after, n, x);
      StandsThen(a, b, places, intent, after, n, x);
      LeaverIsFile(a, b, places, intent, after, n);
      DirStays(b, c, places, intent.mutations[n].path, floor, x);
    } else {
      FileStays(a, c, places, intent, after, n + 1, x);
    }
  }

  lemma StandsThen(a: Tree, b: Tree, places: Places, intent: Intent, after: bool, n: nat, x: Path)
    requires n <= |intent.mutations| && AtTurn(a, b, places, intent, after, n)
    ensures IsDir(b, x) <==> Stands(a, places, intent, after, n, x)
  {}

  /** What is to be removed is a file. */
  lemma LeaverIsFile(a: Tree, b: Tree, places: Places, intent: Intent, after: bool, n: nat)
    requires n < |intent.mutations| && AtTurn(a, b, places, intent, after, n) && Leaves(a, intent, after, n)
    requires IsFile(a, intent.mutations[n].path)
    ensures IsFile(b, intent.mutations[n].path)
  {
    assert Visible(b, intent.mutations[n].path) == Visible(a, intent.mutations[n].path);
  }

  lemma NotRoot(tree: Tree, x: Path)
    requires Coherent(tree) && x in tree
    ensures x != []
  {}

  lemma StaysThrough(a: Tree, places: Places, intent: Intent, after: bool, n: nat, x: Path)
    requires n < |intent.mutations| && Leaves(a, intent, after, n)
    requires x in a && a[x].Directory? && Stays(a, places, intent, after, n + 1, x)
    ensures Stands(a, places, intent, after, n, x) && (Kept(places, x) || !(x <= intent.mutations[n].path))
  {
    hide Kept;
    assert Stays(a, places, intent, after, n, x);
  }

  lemma DirStays(b: Tree, c: Tree, places: Places, path: Path, floor: Path, x: Path)
    requires Gone(b, c, places, path, floor) && x in b && b[x].Directory? && (Kept(places, x) || !(x <= path))
    requires path in b && !b[path].Directory?
    ensures IsDir(c, x)
  {
    hide Kept;
    assert !Within(floor, x, Dir(path));
  }

  /** What is a directory still stands. */
  lemma ThereIsStanding(a: Tree, b: Tree, c: Tree, places: Places, intent: Intent, after: bool, n: nat, floor: Path, dir: Path)
    requires Flat(intent) && Coherent(a) && Coherent(c) && n < |intent.mutations|
    requires AtTurn(a, b, places, intent, after, n) && PathsAt(a, c, intent, after, n + 1)
    requires Leaves(a, intent, after, n) && IsFile(a, intent.mutations[n].path)
    requires Gone(b, c, places, intent.mutations[n].path, floor) && IsDir(c, dir)
    ensures Stands(a, places, intent, after, n + 1, dir)
  {
    hide Stays, Kept, PathsAt, AtTurn, Stands, Coherent, Flat;
    var path := intent.mutations[n].path;
    LeaverIsFile(a, b, places, intent, after, n);
    StandsThen(a, b, places, intent, after, n, dir);
    AtTurnIsCoherent(a, b, places, intent, after, n);
    if !(dir <= path) {
      StandsAside(a, places, intent, after, n, dir);
    } else {
      NotPruned(b, c, places, path, floor, dir);
      FloorStands(a, b, c, places, intent, after, n, floor);
      StandsAbove(a, places, intent, after, n + 1, dir, floor);
    }
  }

  lemma AtTurnIsCoherent(a: Tree, b: Tree, places: Places, intent: Intent, after: bool, n: nat)
    requires n <= |intent.mutations| && AtTurn(a, b, places, intent, after, n)
    ensures Coherent(b)
  {}

  /** What is left above the removed file lies at or above the floor. */
  lemma NotPruned(b: Tree, c: Tree, places: Places, path: Path, floor: Path, dir: Path)
    requires Gone(b, c, places, path, floor) && IsDir(c, dir) && dir <= path && IsFile(b, path)
    ensures dir <= floor && (dir != [] ==> IsDir(b, dir))
  {
    hide Kept;
    if dir != [] {
      assert dir != path && dir <= Dir(path);
      PrefixesAreOrdered(dir, floor, Dir(path));
    }
  }

  /** The floor of the pruning stands: it is kept, or something is left in it. */
  lemma FloorStands(a: Tree, b: Tree, c: Tree, places: Places, intent: Intent, after: bool, n: nat, floor: Path)
    requires Flat(intent) && Coherent(a) && Coherent(b) && Coherent(c) && n < |intent.mutations|
    requires AtTurn(a, b, places, intent, after, n) && PathsAt(a, c, intent, after, n + 1)
    requires Leaves(a, intent, after, n) && IsFile(b, intent.mutations[n].path)
    requires Gone(b, c, places, intent.mutations[n].path, floor)
    ensures Stands(a, places, intent, after, n + 1, floor)
  {
    hide Stays, PathsAt, AtTurn, Stands, Coherent, Flat, Kept, IsDir;
    var path := intent.mutations[n].path;
    AncestorsAreDirectories(b, path, floor);
    StandsThen(a, b, places, intent, after, n, floor);
    if Kept(places, floor) {
      KeptStands(a, places, intent, after, n, floor);
    } else {
      var child := ChildOf(c, floor);
      ChildIsAside(b, c, places, path, floor, child);
      if IsFile(c, child) {
        FileRemains(a, c, places, intent, after, n + 1, child, floor);
      } else {
        StandsThen(a, b, places, intent, after, n, child);
        StandsAside(a, places, intent, after, n, child);
        StandsAbove(a, places, intent, after, n + 1, floor, child);
      }
    }
  }

  lemma ChildOf(tree: Tree, dir: Path) returns (child: Path)
    requires HasChild(tree, dir)
    ensures child in tree && child != [] && Dir(child) == dir
  {
    child :| child in tree && child != [] && Dir(child) == dir;
  }

  lemma ChildIsAside(b: Tree, c: Tree, places: Places, path: Path, floor: Path, child: Path)
    requires Gone(b, c, places, path, floor) && child in c && child != [] && Dir(child) == floor
    ensures !(child <= path) && floor < child && (!IsFile(c, child) ==> IsDir(b, child))
  {
    hide Kept;
    AtOrAbove(child, path);
  }

  lemma KeptStands(a: Tree, places: Places, intent: Intent, after: bool, n: nat, floor: Path)
    requires Coherent(a) && n < |intent.mutations| && Stands(a, places, intent, after, n, floor) && Kept(places, floor)
    ensures Stands(a, places, intent, after, n + 1, floor)
  {
    hide Kept, Leaves, Arrives;
    if floor in a && a[floor].Directory? {
      assert Stays(a, places, intent, after, n + 1, floor);
    }
  }

  /** A file is removed, and the directories it leaves empty are pruned. */
  lemma GoneStep(a: Tree, b: Tree, places: Places, intent: Intent, after: bool, n: nat)
    requires Flat(intent) && Coherent(a) && n < |intent.mutations| && AtTurn(a, b, places, intent, after, n)
    requires Leaves(a, intent, after, n) && IsFile(a, intent.mutations[n].path)
    ensures AtTurn(a, Prune(places, b - {intent.mutations[n].path}, Dir(intent.mutations[n].path)), places, intent, after, n + 1)
  {
    hide Stands, Gone, Kept, Prune, Coherent, Flat;
    var path := intent.mutations[n].path;
    var c := Prune(places, b - {path}, Dir(path));
    LeaverIsFile(a, b, places, intent, after, n);
    var floor := PrunedIsGone(b, places, path);
    GoneFiles(b, c, places, intent, n, floor);
    OtherTwice(a, b, c, intent);
    forall i | 0 <= i < |intent.mutations| && i != n
      ensures Visible(c, intent.mutations[i].path) == Visible(b, intent.mutations[i].path)
    {
      GoneElsewhere(b, c, places, intent, n, i, floor);
    }
    assert PathsAt(a, c, intent, after, n + 1);
    forall dir ensures IsDir(c, dir) <==> Stands(a, places, intent, after, n + 1, dir) {
      if IsDir(c, dir) {
        ThereIsStanding(a, b, c, places, intent, after, n, floor, dir);
      }
      if Stands(a, places, intent, after, n + 1, dir) {
        StandingIsThere(a, b, c, places, intent, after, n, floor, dir);
      }
    }
  }

  // ---- the whole run ----

  lemma StartTurn(a: Tree, places: Places, intent: Intent, after: bool)
    requires Coherent(a)
    ensures AtTurn(a, a, places, intent, after, 0)
  {
    hide Kept;
    forall dir ensures IsDir(a, dir) <==> Stands(a, places, intent, after, 0, dir) {
      if dir in a {
        assert Stays(a, places, intent, after, 0, dir);
      }
    }
  }

  /** A known participant that is absent is not below a file, and one that is there is not either. */
  lemma KnownPassable(d: Disk, m: Mutation)
    requires Coherent(d.tree) && Known(d, m)
    ensures m.path != [] && Passable(d.tree, Dir(m.path)) && !IsDir(d.tree, m.path)
  {
    if m.path in d.tree {
      forall p | p in d.tree && p <= Dir(m.path) ensures d.tree[p].Directory? {
        AncestorsAreDirectories(d.tree, m.path, p);
      }
    }
  }

  lemma PassableThen(a: Tree, b: Tree, intent: Intent, k: nat)
    requires Flat(intent) && k < |intent.mutations| && OtherFiles(a, b, intent)
    requires intent.mutations[k].path != [] && Passable(a, Dir(intent.mutations[k].path)) && [] !in b
    ensures Passable(b, Dir(intent.mutations[k].path))
  {
    var path := intent.mutations[k].path;
    forall p | p in b && p <= Dir(path) ensures b[p].Directory? {
      if IsFile(b, p) && p in Movers(intent) {
        var i := MoverIndex(intent, p);
        FlatPaths(intent, i, k);
      }
    }
  }

  /** In which states a participant is when its turn comes. */
  lemma StatesThen(d: Disk, b: Tree, places: Places, intent: Intent, after: bool, n: nat, m: Mutation)
    requires Flat(intent) && Coherent(d.tree) && Detached(d.tree, intent) && AllKnown(d, intent)
    requires n < |intent.mutations| && m == intent.mutations[n] && AtTurn(d.tree, b, places, intent, after, n)
    ensures m.path != [] && !IsDir(b, m.path) && Passable(b, Dir(m.path))
    ensures Visible(b, m.path) == Visible(d.tree, m.path)
    ensures forall s :: s in {m.before, m.after} ==> (Matches(b, m.path, s) <==> Fits(Visible(d.tree, m.path), s))
    ensures Fits(Visible(d.tree, m.path), m.before) || Fits(Visible(d.tree, m.path), m.after)
  {
    hide Stands, Fits, Matches, LinkDetached, Passable, Known;
    assert m in intent.mutations;
    KnownPassable(d, m);
    NoRoot(b);
    PassableThen(d.tree, b, intent, n);
    MatchesEntry(d.tree, b, intent, m.path, m.before);
    MatchesEntry(d.tree, b, intent, m.path, m.after);
    KnownFits(d, m);
    FittingIsNoDir(b, m.path, m.before);
    FittingIsNoDir(b, m.path, m.after);
  }

  lemma NoRoot(tree: Tree)
    requires Coherent(tree)
    ensures [] !in tree
  {}

  lemma KnownFits(d: Disk, m: Mutation)
    requires Known(d, m)
    ensures Fits(Visible(d.tree, m.path), m.before) || Fits(Visible(d.tree, m.path), m.after)
  {}

  lemma FittingIsNoDir(tree: Tree, path: Path, s: State)
    ensures path != [] && Fits(Visible(tree, path), s) ==> !IsDir(tree, path)
  {}

  lemma GuardFits(fate: Fate, m: Mutation)
    ensures Guard(m) ==> (Fits(fate, m.before) <==> Fits(fate, m.after))
    ensures !Fits(fate, m.before) && Fits(fate, m.after) ==> !Alike(m.after, m.before)
  {}

  /** The turn fails exactly when a participant that is gone already has lost its directory. */
  lemma NextTurn(d: Disk, b: Tree, places: Places, intent: Intent, after: bool, n: nat, m: Mutation)
    requires Flat(intent) && Coherent(d.tree) && Detached(d.tree, intent) && AllKnown(d, intent)
    requires n < |intent.mutations| && m == intent.mutations[n] && AtTurn(d.tree, b, places, intent, after, n)
    ensures var next := Turn(places, d.box, b, m, Target(m, after));
            && (next.Some? <==>
                  (AlreadyAbsent(d.tree, m, after) ==> Stands(d.tree, places, intent, after, n, Dir(m.path))))
            && (next.Some? ==> AtTurn(d.tree, next.value, places, intent, after, n + 1))
  {
    hide Stands, AtTurn, Matches, Passable, Moved;
    var s := Target(m, after);
    assert m in intent.mutations && s in {m.before, m.after};
    StatesThen(d, b, places, intent, after, n, m);
    if Fits(Visible(d.tree, m.path), s) {
      SameStep(d.tree, b, places, intent, after, n);
      StandsThen(d.tree, b, places, intent, after, n, Dir(m.path));
      DirOfFile(d.tree, b, places, intent, after, n, m);
    } else {
      GuardFits(Visible(d.tree, m.path), m);
      assert Matches(b, m.path, Other(m, s));
      MoveTurn(d, b, places, intent, after, n, m);
    }
  }

  lemma DirOfFile(a: Tree, b: Tree, places: Places, intent: Intent, after: bool, n: nat, m: Mutation)
    requires n <= |intent.mutations| && AtTurn(a, b, places, intent, after, n) && Visible(b, m.path) == Visible(a, m.path)
    ensures m.path in a ==> IsDir(b, Dir(m.path))
  {}

  /** Moving to the target succeeds. */
  lemma MoveTurn(d: Disk, b: Tree, places: Places, intent: Intent, after: bool, n: nat, m: Mutation)
    requires Flat(intent) && Coherent(d.tree) && Detached(d.tree, intent) && AllKnown(d, intent)
    requires n < |intent.mutations| && m == intent.mutations[n] && AtTurn(d.tree, b, places, intent, after, n)
    requires !Guard(m) && !Fits(Visible(d.tree, m.path), Target(m, after))
    ensures Backed(d.box, Target(m, after)) && !AlreadyAbsent(d.tree, m, after)
    ensures var moved := Moved(places, d.box, b, m.path, Target(m, after));
            Matches(moved, m.path, Target(m, after)) && AtTurn(d.tree, moved, places, intent, after, n + 1)
  {
    hide Stands, AtTurn, Follow, Passable, Prune, WithDirs;
    var s := Target(m, after);
    assert m in intent.mutations;
    StatesThen(d, b, places, intent, after, n, m);
    var moved := Moved(places, d.box, b, m.path, s);
    if s.Absent? {
      GoneStep(d.tree, b, places, intent, after, n);
    } else {
      PutStep(d.tree, b, moved, places, intent, after, n, GoalNode(d.box, s));
    }
    ThereAtTheEnd(d, moved, places, intent, after, n + 1, n, m);
  }

  /** The first turns succeed exactly when no participant that was gone has lost its directory. */
  lemma {:induction false} ReplayExactly(d: Disk, places: Places, intent: Intent, after: bool, n: nat)
    requires Flat(intent) && Coherent(d.tree) && Detached(d.tree, intent) && AllKnown(d, intent)
    requires n <= |intent.mutations|
    ensures var c := Replay(places, d.box, d.tree, intent, after, n);
            && (c.Some? <==> AnchoredTo(d.tree, places, intent, after, n))
            && (c.Some? ==> AtTurn(d.tree, c.value.tree, places, intent, after, n))
  {
    hide AtTurn, Stands, AllKnown, Detached, Turn, Coherent, AlreadyAbsent;
    if n == 0 {
      StartTurn(d.tree, places, intent, after);
    } else {
      ReplayExactly(d, places, intent, after, n - 1);
      var c := Replay(places, d.box, d.tree, intent, after, n - 1);
      if c.Some? {
        NextTurn(d, c.value.tree, places, intent, after, n - 1, intent.mutations[n - 1]);
      }
    }
  }

  predicate AnchoredTo(tree: Tree, places: Places, intent: Intent, after: bool, n: nat)
    requires n <= |intent.mutations|
  {
    forall i :: 0 <= i < n && AlreadyAbsent(tree, intent.mutations[i], after) ==>
      Stands(tree, places, intent, after, i, Dir(intent.mutations[i].path))
  }

  /** Without faults, recovery to one side succeeds if and only if every participant is known, and those that
      are gone already still have their directories when their turn comes. */
  lemma CompletesExactly(d: Disk, places: Places, intent: Intent, after: bool)
    requires Flat(intent) && Coherent(d.tree) && Detached(d.tree, intent)
    ensures Completes(d, places, intent, after) <==> AllKnown(d, intent) && Anchored(d.tree, places, intent, after)
  {
    hide AtTurn, Stands, AllKnown, Detached, Coherent, AlreadyAbsent, Replay;
    if AllKnown(d, intent) {
      var n := |intent.mutations|;
      ReplayExactly(d, places, intent, after, n);
      var c := Replay(places, d.box, d.tree, intent, after, n);
      if c.Some? {
        forall m | m in intent.mutations ensures Matches(c.value.tree, m.path, Target(m, after)) {
          var i :| 0 <= i < n && intent.mutations[i] == m;
          ThereAtTheEnd(d, c.value.tree, places, intent, after, n, i, m);
        }
      }
    }
  }

  /** A participant whose turn is over is at its target. */
  lemma ThereAtTheEnd(d: Disk, c: Tree, places: Places, intent: Intent, after: bool, n: nat, i: nat, m: Mutation)
    requires Flat(intent) && Coherent(d.tree) && Detached(d.tree, intent) && AllKnown(d, intent)
    requires i < n <= |intent.mutations| && m == intent.mutations[i] && AtTurn(d.tree, c, places, intent, after, n)
    ensures Matches(c, m.path, Target(m, after))
  {
    hide Stands, Fits, Follow;
    assert m in intent.mutations;
    KnownPassable(d, m);
    NoRoot(c);
    PassableThen(d.tree, c, intent, i);
    MatchesEntry(d.tree, c, intent, m.path, Target(m, after));
  }

  /** In particular when the directory of every participant that is gone already is there, and is kept or holds
      nothing that is removed before its turn. */
  lemma AnchoredSimply(tree: Tree, places: Places, intent: Intent, after: bool)
    requires forall n :: 0 <= n < |intent.mutations| && AlreadyAbsent(tree, intent.mutations[n], after) ==>
               var dir := Dir(intent.mutations[n].path);
               && IsDir(tree, dir)
               && (Kept(places, dir)
                   || forall i :: 0 <= i < n && Leaves(tree, intent, after, i) ==> !(dir <= intent.mutations[i].path))
    ensures Anchored(tree, places, intent, after)
  {
    hide Kept, Leaves;
    forall n | 0 <= n < |intent.mutations| && AlreadyAbsent(tree, intent.mutations[n], after)
      ensures Stands(tree, places, intent, after, n, Dir(intent.mutations[n].path))
    {
      var dir := Dir(intent.mutations[n].path);
      if dir != [] {
        assert Stays(tree, places, intent, after, n, dir);
      }
    }
  }

  /** Which directories a finished recovery leaves. */
  lemma FinishedDirs(a: Disk, b: Disk, places: Places, intent: Intent, after: bool, dir: Path)
    requires Flat(intent) && Coherent(a.tree) && Detached(a.tree, intent) && AllKnown(a, intent)
    requires Finished(a, b, places, intent, after)
    ensures IsDir(b.tree, dir) <==> Stands(a.tree, places, intent, after, |intent.mutations|, dir)
  {
    hide Stands, AllKnown, Detached, AtTurn;
    ReplayExactly(a, places, intent, after, |intent.mutations|);
    StandsThen(a.tree, b.tree, places, intent, after, |intent.mutations|, dir);
  }

  /** Recovery of a pending transaction, without faults: success and its result are known before it starts. */
  method RecoverExactly(fs: FileSystem, places: Places, ghost intent: Intent) returns (ok: bool)
    requires fs.Steady() && Safe(fs.disk, intent) && fs.disk.stage == Pending && Detached(fs.disk.tree, intent)
    modifies fs
    ensures var side := Decided(old(fs.disk), intent, true);
            && (ok <==> AllKnown(old(fs.disk), intent) && Anchored(old(fs.disk.tree), places, intent, side))
            && (ok ==> Finished(old(fs.disk), fs.disk, places, intent, side) && Stages(fs.disk) == {NoJournal})
            && (ok ==> forall dir :: IsDir(fs.disk.tree, dir) <==>
                         Stands(old(fs.disk.tree), places, intent, side, |intent.mutations|, dir))
  {
    hide Stands, AllKnown, Detached, Anchored, Finished, Completes;
    ghost var a := fs.disk;
    ghost var side := Decided(a, intent, true);
    CompletesExactly(a, places, intent, side);
    ok := Recover(fs, places, intent);
    if ok {
      forall dir
        ensures IsDir(fs.disk.tree, dir) <==> Stands(a.tree, places, intent, side, |intent.mutations|, dir)
      {
        FinishedDirs(a, fs.disk, places, intent, side, dir);
      }
    }
  }
}
