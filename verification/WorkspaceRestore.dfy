/**
 Workspace snapshots and their rollback (aicoder/change_journal.py, rollback with remove_except_backup;
 aicoder/workspace_backup.py, snapshot_workspace) over a directory tree whose paths are lists of names.
 */
module WorkspaceRestore {
  import opened Wrappers
  import opened DirectoryTree
  import opened FileModes
  import opened ArchiveExtraction

  /** Whether removing `p` except for the store removes `q`: the store and the directories above it stay. */
  predicate Removed(p: Path, store: Path, q: Path) {
    p <= q && !(q <= store) && !(p <= store && store <= q)
  }

  function Without(t: Tree, p: Path, store: Path): (r: Tree) {
    map q | q in t && !Removed(p, store, q) :: t[q]
  }

  /**
   Whether clearing a workspace removes `q`: everything strictly below the root but the store and what is above it.
   */
  predicate Cleared(root: Path, store: Path, q: Path) {
    root <= q && q != root && Removed(q[..|root| + 1], store, q)
  }

  function Children(t: Tree, p: Path): (r: set<Path>) {
    set q | q in t && |q| == |p| + 1 && p <= q
  }

  lemma ChildOnTheWay(p: Path, q: Path)
    requires p <= q && q != p
    ensures |q| > |p| && p <= q[..|p| + 1] <= q
  {
  }

  class Workspace {
    var tree: Tree

    constructor (tree: Tree)
      ensures this.tree == tree
    {
      this.tree := tree;
    }

    /** `remove_except_backup`. */
    method RemoveExceptBackup(p: Path, store: Path)
      requires WellFormed(tree) && p in tree && store in tree
      modifies this
      ensures tree == Without(old(tree), p, store)
      decreases |store| - |p|, 0
    {
      if p == store {
        NothingRemovedAtTheStore(tree, store);
        return;
      }
      if !(p <= store) {
        tree := map q | q in tree && !(p <= q) :: tree[q];
        WholeSubtreeRemoved(old(tree), p, store);
        return;
      }
      RemoveChildren(p, store);
      AllChildrenRemoved(old(tree), p, store);
    }

    /** The loop over the entries of a directory, for the directories above the store and for the workspace root. */
    method RemoveChildren(p: Path, store: Path)
      requires WellFormed(tree) && store in tree
      modifies this
      ensures tree == WithoutAll(old(tree), Children(old(tree), p), store)
      decreases |store| - |p| - 1, 1
    {
      hide Removed, Without, WithoutAll, WellFormed, Children;
      ghost var before := tree;
      var pending := Children(tree, p);
      ghost var done: set<Path> := {};
      WithoutNothing(tree, store);
      while pending != {}
        invariant pending !! done && pending + done == Children(before, p)
        invariant tree == WithoutAll(before, done, store)
        decreases pending
      {
        var nested :| nested in pending;
        StillThere(before, p, done, nested, store);
        RemoveExceptBackup(nested, store);
        WithoutOneMore(before, done, nested, store);
        pending, done := pending - {nested}, done + {nested};
      }
    }

    /**
     The workspace_snapshot rollback: clear the workspace, then extract the archive. An archive that cannot be read, or
     names an unsafe path, is noticed only after the workspace was cleared; a member that cannot be extracted stops the
     extraction half way.
     */
    method RestoreSnapshot(root: Path, store: Path, archive: Option<seq<Member>>) returns (ok: bool)
      requires WellFormed(tree) && store in tree
      modifies this
      ensures var cleared := ClearedTree(old(tree), root, store);
              (ok, tree) == if archive.Some? then Extract(cleared, root, archive.value) else (false, cleared)
    {
      hide ExtractOne, Blocked;
      RemoveChildren(root, store);
      AllChildrenCleared(old(tree), root, store);
      if archive.None? { return false; }
      ghost var cleared := tree;
      var ms := archive.value;
      while ms != []
        invariant Extract(cleared, root, archive.value) == Extract(tree, root, ms)
        decreases |ms|
      {
        var p := root + ms[0].path;
        if Blocked(tree, p, ms[0].entry) { return false; }
        tree := ExtractOne(tree, p, ms[0].entry);
        ms := ms[1..];
      }
      return true;
    }
  }

  /** The tree after several removals. */
  function WithoutAll(t: Tree, ps: set<Path>, store: Path): Tree {
    map q | q in t && forall p | p in ps :: !Removed(p, store, q) :: t[q]
  }

  lemma WithoutNothing(t: Tree, store: Path)
    ensures WithoutAll(t, {}, store) == t
  {
  }

  lemma WithoutOneMore(t: Tree, ps: set<Path>, p: Path, store: Path)
    ensures Without(WithoutAll(t, ps, store), p, store) == WithoutAll(t, ps + {p}, store)
  {
  }

  lemma NothingRemovedAtTheStore(t: Tree, store: Path)
    ensures Without(t, store, store) == t
  {
  }

  lemma WholeSubtreeRemoved(t: Tree, p: Path, store: Path)
    requires !(p <= store)
    ensures Without(t, p, store) == map q | q in t && !(p <= q) :: t[q]
  {
  }

  /** Removals keep the tree well formed, the store where it is, and children not yet removed in place. */
  lemma StillThere(t: Tree, p: Path, done: set<Path>, c: Path, store: Path)
    requires WellFormed(t) && store in t && done <= Children(t, p) && c in Children(t, p) - done
    ensures |c| == |p| + 1
    ensures var now := WithoutAll(t, done, store);
            WellFormed(now) && c in now && store in now
  {
    var now := WithoutAll(t, done, store);
    forall q | q in now && q != []
      ensures q[..|q| - 1] in now
    {
      forall r | r in done
        ensures !Removed(r, store, q[..|q| - 1])
      {
        ParentIsKept(r, store, q);
      }
    }
    forall r | r in done
      ensures !Removed(r, store, c)
    {
      SameDepth(r, c);
    }
  }

  lemma SameDepth(a: Path, b: Path)
    requires |a| == |b| && a != b
    ensures !(a <= b)
  {
  }

  lemma ParentIsKept(p: Path, store: Path, q: Path)
    requires q != [] && !Removed(p, store, q)
    ensures !Removed(p, store, q[..|q| - 1])
  {
  }

  /** The tree left when every child of the root was removed. */
  function ClearedTree(t: Tree, root: Path, store: Path): Tree {
    map q | q in t && !Cleared(root, store, q) :: t[q]
  }

  /** Below the root every entry lies in the subtree of exactly one child. */
  lemma ChildHolds(t: Tree, root: Path, q: Path)
    requires WellFormed(t) && q in t && root <= q && q != root
    ensures q[..|root| + 1] in Children(t, root)
    decreases |q|
  {
    if |q| == |root| + 1 {
      assert q[..|root| + 1] == q;
    } else {
      ChildHolds(t, root, q[..|q| - 1]);
      assert q[..|q| - 1][..|root| + 1] == q[..|root| + 1];
    }
  }

  lemma AllChildrenCleared(t: Tree, root: Path, store: Path)
    requires WellFormed(t)
    ensures WithoutAll(t, Children(t, root), store) == ClearedTree(t, root, store)
  {
    forall q | q in t
      ensures Cleared(root, store, q) <==> exists p | p in Children(t, root) :: Removed(p, store, q)
    {
      if Cleared(root, store, q) {
        ChildHolds(t, root, q);
      }
      forall p | p in Children(t, root) && Removed(p, store, q)
        ensures Cleared(root, store, q)
      {
        assert q[..|root| + 1] == p;
      }
    }
  }

  /** Clearing a directory above the store is removing it except for the store. */
  lemma AllChildrenRemoved(t: Tree, p: Path, store: Path)
    requires WellFormed(t) && p <= store && p != store
    ensures WithoutAll(t, Children(t, p), store) == Without(t, p, store)
  {
    AllChildrenCleared(t, p, store);
    forall q | q in t
      ensures Cleared(p, store, q) <==> Removed(p, store, q)
    {
      if p <= q && q != p {
        var c := q[..|p| + 1];
        assert c <= q;
        if store <= q { assert store[..|c|] == c; }
      }
    }
  }

  // ---- what a rollback restores ----

  /** The workspace is not itself part of the store. */
  predicate StoreApart(root: Path, store: Path) {
    !(store <= root)
  }

  /**
   Clearing removes exactly the region in scope: the store, the directories above it and everything outside the
   root stay as they are.
   */
  lemma ClearingSparesTheStore(t: Tree, root: Path, store: Path, q: Path)
    requires StoreApart(root, store) && q in t
    ensures q in ClearedTree(t, root, store) <==> !InScope(root, store, q)
    ensures q in ClearedTree(t, root, store) ==> ClearedTree(t, root, store)[q] == t[q]
  {
    if root <= q && q != root {
      var c := q[..|root| + 1];
      ChildOnTheWay(root, q);
      if store <= q {
        OnOnePath(root, store, q);
        OnOnePath(c, store, q);
      }
    }
  }

  /** A cleared workspace is a proper tree, ready to extract any archive into. */
  lemma ClearedIsFurnished(t: Tree, before: Tree, root: Path, store: Path)
    requires Furnished(t, root, store) && StoreApart(root, store)
    ensures Furnished(ClearedTree(t, root, store), root, store)
    ensures CameFrom(ClearedTree(t, root, store), before, root, store)
  {
    hide Cleared, ClearedTree;
    var cleared := ClearedTree(t, root, store);
    OnlyKept(t, root, store);
    ClearingSparesTheStore(t, root, store, root);
    ClearingSparesTheStore(t, root, store, store);
    forall q | q in cleared && q != []
      ensures q[..|q| - 1] in cleared && cleared[q[..|q| - 1]].Dir?
    {
      ClearingSparesTheStore(t, root, store, q);
      ClearingSparesTheStore(t, root, store, q[..|q| - 1]);
      if InScope(root, store, q[..|q| - 1]) { BelowScopeIsInScope(root, store, q[..|q| - 1], q); }
    }
    forall q | q in cleared
      ensures !InScope(root, store, q)
    {
      ClearingSparesTheStore(t, root, store, q);
    }
  }

  lemma OnlyKept(t: Tree, root: Path, store: Path)
    ensures forall q | q in ClearedTree(t, root, store) :: q in t
  {
  }

  lemma BelowScopeIsInScope(root: Path, store: Path, d: Path, q: Path)
    requires d <= q && InScope(root, store, d)
    ensures InScope(root, store, q)
  {
    if store <= q { OnOnePath(store, d, q); }
  }

  // ---- what a snapshot holds ----

  /** The archive records exactly the selected entries below the root and outside the store, in any order. */
  ghost predicate IsSnapshot(ms: seq<Member>, t: Tree, root: Path, store: Path, selected: set<Path>) {
    && (forall k | 0 <= k < |ms| :: Records(t, root, store, ms[k]) && root + ms[k].path in selected)
    && (forall q | q in t && q in selected && root <= q && q != root && !(store <= q) ::
          exists k :: 0 <= k < |ms| && root + ms[k].path == q)
  }

  /** `snapshot_workspace`: record the listed entries one by one, leaving out the store. */
  method TakeSnapshot(t: Tree, root: Path, store: Path, listed: seq<Path>) returns (ms: seq<Member>)
    requires forall k | 0 <= k < |listed| :: listed[k] in t && root <= listed[k] && listed[k] != root
    ensures IsSnapshot(ms, t, root, store, set k | 0 <= k < |listed| :: listed[k])
  {
    ms := [];
    for i := 0 to |listed|
      invariant forall k | 0 <= k < |ms| :: Records(t, root, store, ms[k]) && root + ms[k].path in listed[..i]
      invariant forall j | 0 <= j < i && !(store <= listed[j]) :: exists k :: 0 <= k < |ms| && root + ms[k].path == listed[j]
    {
      var child := listed[i];
      if !(store <= child) {
        var m := Member(child[|root|..], t[child]);
        assert root + m.path == child;
        ghost var before := ms;
        ms := ms + [m];
        assert ms[|before|] == m && forall k | 0 <= k < |before| :: ms[k] == before[k];
      }
    }
  }

  /** Neither a member nor a directory implied by one lies in the store. */
  lemma ArchivesLeaveOutTheStore(ms: seq<Member>, t: Tree, root: Path, store: Path, selected: set<Path>, q: Path)
    requires IsSnapshot(ms, t, root, store, selected) && Implied(root, ms, q)
    ensures !(store <= q)
  {
  }

  /**
   After a rollback, whatever stood there, the region in scope holds exactly the members and the directories above them,
   each as it was recorded but for the mode the filter gives it; everything else is untouched and the tree is proper.
   */
  lemma RestoredRegionEqualsTheArchive(now: Tree, before: Tree, root: Path, store: Path, ms: seq<Member>,
                                       selected: set<Path>, q: Path)
    requires Furnished(now, root, store) && Furnished(before, root, store) && StoreApart(root, store)
    requires IsSnapshot(ms, before, root, store, selected)
    ensures var (ok, after) := Extract(ClearedTree(now, root, store), root, ms);
            && ok && WellFormed(after)
            && if InScope(root, store, q)
               then (q in after <==> Implied(root, ms, q)) && (q in after ==> q in before && after[q] == Stored(before[q]))
               else (q in after <==> q in now) && (q in after ==> after[q] == now[q])
  {
    hide ClearedTree, WellFormed, Stored, Implied, Extract, Records;
    var cleared := ClearedTree(now, root, store);
    ClearedIsFurnished(now, before, root, store);
    ExtractedAt(cleared, before, root, store, ms, q);
    OnlyKept(now, root, store);
    if q in now { ClearingSparesTheStore(now, root, store, q); }
  }

  /**
   A file comes back when it was selected and the filter keeps its mode, a directory when anything at or below it was
   selected.
   */
  predicate ComesBack(t: Tree, selected: set<Path>, q: Path)
    requires q in t
  {
    match t[q]
    case File(_, mode) => q in selected && PlainMode(mode)
    case Dir => exists p :: p in selected && p in t && q <= p
  }

  /** Nothing in scope is lost or changed by a snapshot of the selected entries. */
  predicate Complete(t: Tree, root: Path, store: Path, selected: set<Path>) {
    forall q | q in t && InScope(root, store, q) :: ComesBack(t, selected, q)
  }

  /** The region in scope is as it was before. */
  ghost predicate RegionIsBack(before: Tree, after: Tree, root: Path, store: Path) {
    forall q | InScope(root, store, q) :: (q in after <==> q in before) && (q in after ==> after[q] == before[q])
  }

  lemma ImpliedMeansSelected(ms: seq<Member>, t: Tree, root: Path, store: Path, selected: set<Path>, q: Path)
    requires IsSnapshot(ms, t, root, store, selected) && InScope(root, store, q)
    ensures Implied(root, ms, q) <==> exists p :: p in selected && p in t && q <= p
  {
    if k :| 0 <= k < |ms| && q <= root + ms[k].path {
      assert root + ms[k].path in selected;
    }
    if p :| p in selected && p in t && q <= p {
      BelowScopeIsInScope(root, store, q, p);
      var k :| 0 <= k < |ms| && root + ms[k].path == p;
    }
  }

  lemma NothingBelowAFile(t: Tree, q: Path, p: Path)
    requires WellFormed(t) && q in t && t[q].File? && p in t && q <= p
    ensures q == p
  {
    AboveIsInTheTree(t, p, q);
  }

  lemma BackExactlyWhen(ms: seq<Member>, t: Tree, root: Path, store: Path, selected: set<Path>, q: Path)
    requires WellFormed(t) && IsSnapshot(ms, t, root, store, selected) && InScope(root, store, q) && q in t
    ensures Implied(root, ms, q) && Stored(t[q]) == t[q] <==> ComesBack(t, selected, q)
  {
    hide FilteredMode, PlainMode, IsSnapshot, WellFormed, Implied, InScope;
    ImpliedMeansSelected(ms, t, root, store, selected, q);
    if t[q].File? {
      FilterKeepsExactlyPlainModes(t[q].mode);
      forall p | p in selected && p in t && q <= p
        ensures q == p
      {
        NothingBelowAFile(t, q, p);
      }
    }
  }

  /**
   Whatever happened to the workspace since, rolling back gives the region in scope its old contents exactly when every
   file in it was selected and has a mode the filter keeps, and every directory is at or above something selected.
   */
  lemma RollbackIsExactExactlyWhenComplete(before: Tree, now: Tree, root: Path, store: Path, ms: seq<Member>,
                                           selected: set<Path>)
    requires Furnished(now, root, store) && Furnished(before, root, store) && StoreApart(root, store)
    requires IsSnapshot(ms, before, root, store, selected)
    ensures RegionIsBack(before, Extract(ClearedTree(now, root, store), root, ms).1, root, store)
            <==> Complete(before, root, store, selected)
  {
    hide ClearedTree, WellFormed, Stored, Implied, Extract, InScope, IsSnapshot, ComesBack;
    var after := Extract(ClearedTree(now, root, store), root, ms).1;
    forall q | InScope(root, store, q)
      ensures q in after <==> Implied(root, ms, q)
      ensures q in after ==> q in before && after[q] == Stored(before[q])
      ensures q in before ==>
        (Implied(root, ms, q) && Stored(before[q]) == before[q] <==> ComesBack(before, selected, q))
    {
      RestoredRegionEqualsTheArchive(now, before, root, store, ms, selected, q);
      if q in before { BackExactlyWhen(ms, before, root, store, selected, q); }
    }
  }

  /**
   Even a complete selection, rolled back right away, changes a file of mode 0664 to 0644, and one of mode 0444 as well.
   */
  lemma GroupWritableFilesComeBackChanged(t: Tree, root: Path, store: Path, ms: seq<Member>, selected: set<Path>,
                                          q: Path)
    requires Furnished(t, root, store) && StoreApart(root, store) && IsSnapshot(ms, t, root, store, selected)
    requires q in t && q in selected && InScope(root, store, q) && t[q].File?
    requires t[q].mode == 0x1B4 || t[q].mode == 0x124
    ensures var after := Extract(ClearedTree(t, root, store), root, ms).1;
            q in after && after[q] == File(t[q].content, 0x1A4) && after[q] != t[q]
  {
    hide ClearedTree, WellFormed, Implied, Extract, InScope, IsSnapshot;
    RestoredRegionEqualsTheArchive(t, t, root, store, ms, selected, q);
    ImpliedMeansSelected(ms, t, root, store, selected, q);
    assert q <= q;
  }

  /**
   The snapshot of a Git root selects the files Git lists and local configuration, none of which lies in the
   repository's own `.git` directory: rolling back, even right away, removes that directory.
   */
  lemma GitRootLosesItsRepository(t: Tree, root: Path, store: Path, ms: seq<Member>, selected: set<Path>)
    requires Furnished(t, root, store) && StoreApart(root, store) && IsSnapshot(ms, t, root, store, selected)
    requires root + [".git"] in t && !(root + [".git"] <= store)
    requires forall q | q in selected :: !(root + [".git"] <= q)
    ensures root + [".git"] !in Extract(ClearedTree(t, root, store), root, ms).1
  {
    hide ClearedTree, WellFormed, Implied, Extract, IsSnapshot, Stored;
    var q := root + [".git"];
    if store <= q {
      OnOnePath(root, store, q);
      OnOnePath(q, store, q);
    }
    assert q <= q;
    RestoredRegionEqualsTheArchive(t, t, root, store, ms, selected, q);
    ImpliedMeansSelected(ms, t, root, store, selected, q);
  }
}
