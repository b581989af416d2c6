/**
 Extraction of a workspace archive (aicoder/change_journal.py:286-293): member by member, through the data filter of
 Python's tarfile module, which changes file modes, and with the missing directories above each member.
 */
module ArchiveExtraction {
  import opened DirectoryTree
  import opened FileModes

  /** An archive member: its path below the workspace and what was recorded there. */
  datatype Member = Member(path: Path, entry: Entry)

  const WRITABLE_BY_NONE_BUT_OWNER: Mode := 0x1ED
  const EXECUTE_BITS: Mode := 0x49
  const OWNER_EXECUTE: Mode := 0x40
  const OWNER_READ_WRITE: Mode := 0x180

  /**
   The data filter: no special bits, no write for others, no execute unless the owner has it, owner reads and writes.
   */
  function FilteredMode(mode: Mode): Mode {
    var limited := mode & WRITABLE_BY_NONE_BUT_OWNER;
    (if limited & OWNER_EXECUTE == 0 then limited & !EXECUTE_BITS else limited) | OWNER_READ_WRITE
  }

  /** A mode that grants the owner reading and writing, others no writing, and sets no special bit. */
  predicate PlainMode(mode: Mode) {
    && mode & OWNER_READ_WRITE == OWNER_READ_WRITE
    && mode & !WRITABLE_BY_NONE_BUT_OWNER == 0
    && (mode & OWNER_EXECUTE == 0 ==> mode & EXECUTE_BITS == 0)
  }

  /** The filter keeps exactly the plain modes. */
  lemma FilterKeepsExactlyPlainModes(mode: Mode)
    ensures FilteredMode(mode) == mode <==> PlainMode(mode)
    ensures PlainMode(FilteredMode(mode))
  {
  }

  function Stored(e: Entry): Entry {
    match e
    case Dir => Dir
    case File(content, mode) => File(content, FilteredMode(mode))
  }

  function Parent(p: Path): Path {
    if p == [] then [] else p[..|p| - 1]
  }

  /** A member cannot be extracted over an entry of the other kind or below a file. */
  predicate Blocked(t: Tree, p: Path, e: Entry) {
    Obstructed(t, Parent(p)) || (p in t && t[p].Dir? != e.Dir?)
  }

  function ExtractOne(t: Tree, p: Path, e: Entry): Tree {
    if p in t && e.Dir? then t else WithDirectories(t, Parent(p))[p := Stored(e)]
  }

  /** Extract the members in order, up to the first one that cannot be extracted. */
  function Extract(t: Tree, root: Path, ms: seq<Member>): (bool, Tree)
    decreases |ms|
  {
    if ms == [] then (true, t)
    else if Blocked(t, root + ms[0].path, ms[0].entry) then (false, t)
    else Extract(ExtractOne(t, root + ms[0].path, ms[0].entry), root, ms[1..])
  }

  /** The path is a member of the archive or lies above one. */
  predicate Implied(root: Path, ms: seq<Member>, q: Path) {
    exists k :: 0 <= k < |ms| && q <= root + ms[k].path
  }

  lemma ParentIsAbove(p: Path, q: Path)
    requires p != []
    ensures q <= Parent(p) <==> q <= p && q != p
  {
  }

  lemma OneAt(t: Tree, p: Path, e: Entry, q: Path)
    requires WellFormed(t) && !Blocked(t, p, e) && p != []
    ensures var after := ExtractOne(t, p, e);
            && (q in after <==> q in t || q <= p)
            && (q in after ==> after[q] == if q == p then Stored(e) else if q in t then t[q] else Dir)
  {
    if p in t && e.Dir? {
      if q <= p { AboveIsInTheTree(t, p, q); }
    } else {
      ParentIsAbove(p, q);
      CreatedAt(t, Parent(p), q);
    }
  }

  /** Extraction leaves a proper tree. */
  lemma OneKeepsATree(t: Tree, p: Path, e: Entry)
    requires WellFormed(t) && !Blocked(t, p, e) && p != []
    ensures WellFormed(ExtractOne(t, p, e))
  {
    if !(p in t && e.Dir?) {
      var d := Parent(p);
      var made := WithDirectories(t, d);
      DirectoriesKeepATree(t, d);
      CreatedAt(t, d, d);
      CreatedAt(t, d, p);
      assert d[..|d|] == d;
      if p !in t {
        forall q | q in made && q != []
          ensures q[..|q| - 1] != p
        {
          CreatedAt(t, d, q);
        }
      }
      EntryKeepsATree(made, p, Stored(e));
    }
  }

  lemma EntryKeepsATree(t: Tree, p: Path, e: Entry)
    requires WellFormed(t) && p != [] && p[..|p| - 1] in t && t[p[..|p| - 1]].Dir?
    requires e.Dir? || forall q | q in t && q != [] :: q[..|q| - 1] != p
    ensures WellFormed(t[p := e])
  {
  }

  // ---- archives of a tree ----

  /** `q` belongs to the restored region: below the root, outside the store, and not a directory above the store. */
  predicate InScope(root: Path, store: Path, q: Path) {
    root <= q && q != root && !(store <= q) && !(q <= store)
  }

  /** The member records an entry of a tree below the root and outside the store. */
  predicate Records(before: Tree, root: Path, store: Path, m: Member) {
    m.path != [] && root + m.path in before && before[root + m.path] == m.entry && !(store <= root + m.path)
  }

  /** What stands in scope came out of an archive of `before`. */
  ghost predicate CameFrom(t: Tree, before: Tree, root: Path, store: Path) {
    forall q | q in t && InScope(root, store, q) :: q in before && t[q] == Stored(before[q])
  }

  /** A proper tree with the workspace and the store in place. */
  predicate Furnished(t: Tree, root: Path, store: Path) {
    WellFormed(t) && store in t && root in t && t[root].Dir?
  }

  lemma AboveTheStoreIsADirectory(t: Tree, root: Path, store: Path, q: Path)
    requires Furnished(t, root, store) && (q <= root || (q <= store && q != store))
    ensures q in t && t[q].Dir?
  {
    if q <= root { AboveIsInTheTree(t, root, q); } else { AboveIsInTheTree(t, store, q); }
  }

  /** Over a region that came from the same tree a member is never blocked. */
  lemma NeverBlocked(t: Tree, before: Tree, root: Path, store: Path, m: Member)
    requires Furnished(t, root, store) && Furnished(before, root, store) && CameFrom(t, before, root, store)
    requires Records(before, root, store, m)
    ensures !Blocked(t, root + m.path, m.entry)
  {
    hide WellFormed;
    var p := root + m.path;
    forall k | 0 <= k < |p| && p[..k] in t
      ensures t[p[..k]].Dir?
    {
      OnTheWay(t, before, root, store, p, p[..k]);
    }
    var d := Parent(p);
    assert forall k | 0 <= k <= |d| :: d[..k] == p[..k];
    if p in t && !InScope(root, store, p) {
      AboveTheStoreIsADirectory(t, root, store, p);
      AboveTheStoreIsADirectory(before, root, store, p);
    }
  }

  lemma OnTheWay(t: Tree, before: Tree, root: Path, store: Path, p: Path, q: Path)
    requires Furnished(t, root, store) && Furnished(before, root, store) && CameFrom(t, before, root, store)
    requires p in before && root <= p && !(store <= p) && q <= p && q != p && q in t
    ensures t[q].Dir?
  {
    OnOnePath(root, q, p);
    if store <= q { OnOnePath(store, q, p); }
    if InScope(root, store, q) {
      AboveIsInTheTree(before, p, q);
    } else {
      AboveTheStoreIsADirectory(t, root, store, q);
    }
  }

  /** Extracting one more member of the same archive. */
  lemma OneMore(t: Tree, before: Tree, root: Path, store: Path, m: Member)
    requires Furnished(t, root, store) && Furnished(before, root, store) && CameFrom(t, before, root, store)
    requires Records(before, root, store, m)
    ensures !Blocked(t, root + m.path, m.entry)
    ensures var after := ExtractOne(t, root + m.path, m.entry);
            Furnished(after, root, store) && CameFrom(after, before, root, store)
  {
    hide WellFormed, Blocked, ExtractOne, Obstructed;
    var p := root + m.path;
    NeverBlocked(t, before, root, store, m);
    OneKeepsATree(t, p, m.entry);
    OneAt(t, p, m.entry, store);
    OneAt(t, p, m.entry, root);
    var after := ExtractOne(t, p, m.entry);
    forall q | q in after && InScope(root, store, q)
      ensures q in before && after[q] == Stored(before[q])
    {
      OneAt(t, p, m.entry, q);
      if q <= p { AboveIsInTheTree(before, p, q); }
    }
  }

  /** Outside the region in scope extraction changes nothing. */
  lemma OneElsewhere(t: Tree, before: Tree, root: Path, store: Path, m: Member, q: Path)
    requires Furnished(t, root, store) && Furnished(before, root, store) && CameFrom(t, before, root, store)
    requires Records(before, root, store, m) && !InScope(root, store, q)
    ensures var after := ExtractOne(t, root + m.path, m.entry);
            (q in after <==> q in t) && (q in t ==> after[q] == t[q])
  {
    hide WellFormed, Blocked, ExtractOne, Obstructed;
    var p := root + m.path;
    NeverBlocked(t, before, root, store, m);
    OneAt(t, p, m.entry, q);
    if q <= p {
      OnOnePath(root, q, p);
      if store <= q { OnOnePath(store, q, p); }
      AboveTheStoreIsADirectory(t, root, store, q);
      if q == p { AboveTheStoreIsADirectory(before, root, store, q); }
    }
  }

  lemma ImpliedByFirst(root: Path, ms: seq<Member>, q: Path)
    requires ms != []
    ensures Implied(root, ms, q) <==> q <= root + ms[0].path || Implied(root, ms[1..], q)
  {
    if k :| 0 <= k < |ms| && q <= root + ms[k].path {
      if k > 0 { assert ms[1..][k - 1] == ms[k]; }
    }
    if k :| 0 <= k < |ms| - 1 && q <= root + ms[1..][k].path {
      assert ms[k + 1] == ms[1..][k];
    }
  }

  /**
   Members recorded from one tree, in any order, extract completely and leave a proper tree: in scope the members and
   the directories above them, with the filtered modes, beside what was there; elsewhere nothing changes.
   */
  lemma {:induction false} ExtractedAt(t: Tree, before: Tree, root: Path, store: Path, ms: seq<Member>, q: Path)
    requires Furnished(t, root, store) && Furnished(before, root, store) && CameFrom(t, before, root, store)
    requires forall k | 0 <= k < |ms| :: Records(before, root, store, ms[k])
    ensures var (ok, after) := Extract(t, root, ms);
            && ok && WellFormed(after)
            && if InScope(root, store, q)
               then (q in after <==> q in t || Implied(root, ms, q)) && (q in after ==> q in before && after[q] == Stored(before[q]))
               else (q in after <==> q in t) && (q in t ==> after[q] == t[q])
    decreases |ms|
  {
    hide WellFormed, Blocked, ExtractOne, Obstructed, Records, Implied, Stored;
    if ms == [] {
      NothingImplied(root, q);
    } else {
      var p := root + ms[0].path;
      var next := ExtractOne(t, p, ms[0].entry);
      OneMore(t, before, root, store, ms[0]);
      ExtractedAt(next, before, root, store, ms[1..], q);
      ImpliedByFirst(root, ms, q);
      if InScope(root, store, q) {
        RecordedIsBelow(before, root, store, ms[0]);
        OneAt(t, p, ms[0].entry, q);
      } else {
        OneElsewhere(t, before, root, store, ms[0], q);
      }
    }
  }

  lemma RecordedIsBelow(before: Tree, root: Path, store: Path, m: Member)
    requires Records(before, root, store, m)
    ensures root + m.path != []
  {
  }

  lemma NothingImplied(root: Path, q: Path)
    ensures !Implied(root, [], q)
  {
  }
}
