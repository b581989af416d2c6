/** Directory trees whose paths are lists of names, shared by the models of snapshots and of created directories. */
module DirectoryTree {
  import opened FileModes

  type Path = seq<string>

  datatype Entry = File(content: string, mode: Mode) | Dir

  type Tree = map<Path, Entry>

  /** Every entry lies in a directory of the tree. */
  predicate WellFormed(t: Tree) {
    forall q | q in t && q != [] :: q[..|q| - 1] in t && t[q[..|q| - 1]].Dir?
  }

  /** A file stands at the path or on the way to it. */
  predicate Obstructed(t: Tree, p: Path) {
    exists k :: 0 <= k <= |p| && p[..k] in t && t[p[..k]].File?
  }

  /** `mkdir(parents=True)`: the directory and every missing one above it. */
  function WithDirectories(t: Tree, p: Path): (r: Tree) {
    t + map q | q in (set k | 0 <= k <= |p| :: p[..k]) && q !in t :: Dir
  }

  lemma AboveIsPrefix(p: Path, q: Path)
    ensures q in (set k | 0 <= k <= |p| :: p[..k]) <==> q <= p
  {
    if q <= p { assert q == p[..|q|]; }
  }

  lemma CreatedAt(t: Tree, p: Path, q: Path)
    ensures q in WithDirectories(t, p) <==> q in t || q <= p
    ensures q in t ==> WithDirectories(t, p)[q] == t[q]
    ensures q !in t && q <= p ==> WithDirectories(t, p)[q] == Dir
  {
    AboveIsPrefix(p, q);
  }

  /** Created directories leave a proper tree. */
  lemma DirectoriesKeepATree(t: Tree, p: Path)
    requires WellFormed(t) && !Obstructed(t, p)
    ensures WellFormed(WithDirectories(t, p))
  {
    var after := WithDirectories(t, p);
    forall q | q in after && q != []
      ensures q[..|q| - 1] in after && after[q[..|q| - 1]].Dir?
    {
      var d := q[..|q| - 1];
      CreatedAt(t, p, q);
      CreatedAt(t, p, d);
      if q !in t {
        assert q == p[..|q|] && d == p[..|d|];
      }
    }
  }

  /** In a proper tree every path above an entry is an entry, and a directory. */
  lemma AboveIsInTheTree(t: Tree, d: Path, q: Path)
    requires WellFormed(t) && d in t && q <= d
    ensures q in t && (q != d ==> t[q].Dir?)
    decreases |d|
  {
    if q != d {
      AboveIsInTheTree(t, d[..|d| - 1], q);
    }
  }

  /** Two paths above the same entry lie above each other. */
  lemma OnOnePath(a: Path, b: Path, q: Path)
    requires a <= q && b <= q
    ensures if |a| <= |b| then a <= b else b <= a
  {
  }
}
