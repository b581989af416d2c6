/**
 Journaled directory creation and its rollback (aicoder/executor.py, run_directory_create; aicoder/change_journal.py,
 prepare_directory_create and the remove_created_dir rollback) over the directory tree of the workspace.
 */
module CreatedDirectories {
  import opened Wrappers
  import opened DirectoryTree
  import ChangeJournal

  /** Blocked when the absence of the target cannot be recorded in the backup store. */
  datatype CreateReply = Blocked | Created | AlreadyThere | CreateFailed

  datatype RollbackRefusal = NotFound | NotApproved | Irreversible | AlreadyRolledBack | DirectoryMissing | NotEmpty

  datatype RollbackStatus = Available | Completed | Failed

  /** `target` is None when something stood at the path before: such a change is irreversible. */
  datatype DirectoryRecord = DirectoryRecord(target: Option<Path>, isError: bool, status: RollbackStatus)

  predicate IsEmptyDirectory(t: Tree, p: Path) {
    p in t && t[p].Dir? && forall q | q in t && q != [] :: q[..|q| - 1] != p
  }

  class DirectoryJournal {
    var tree: Tree
    var records: seq<DirectoryRecord>

    constructor (tree: Tree)
      ensures this.tree == tree && records == []
    {
      this.tree, records := tree, [];
    }

    /**
     The gate around directory_create: note the absence of the target, create it, record the outcome. A target that is
     already there needs no note.
     */
    method RunDirectoryCreate(p: Path, disk: ChangeJournal.Disk) returns (reply: CreateReply)
      modifies this
      ensures reply == AlreadyThere <==> p in old(tree) && old(tree)[p].Dir?
      ensures reply == Blocked <==> p !in old(tree) && !disk.canBackup
      ensures reply == Created <==> p !in old(tree) && disk.canBackup && !Obstructed(old(tree), p)
      ensures tree == if reply == Created then WithDirectories(old(tree), p) else old(tree)
      ensures var record := DirectoryRecord(if p in old(tree) then None else Some(p), reply == CreateFailed, Available);
              records == if disk.canRecord && reply != Blocked then old(records) + [record] else old(records)
    {
      if p !in tree && !disk.canBackup { return Blocked; }
      var target := if p in tree then None else Some(p);
      if p in tree {
        reply := if tree[p].Dir? then AlreadyThere else CreateFailed;
      } else if Obstructed(tree, p) {
        reply := CreateFailed;
      } else {
        tree := WithDirectories(tree, p);
        reply := Created;
      }
      if disk.canRecord { records := records + [DirectoryRecord(target, reply == CreateFailed, Available)]; }
    }

    /** `rollback` of such a record: remove the directory if nothing was put into it. */
    method Rollback(id: nat, approved: bool) returns (refused: Option<RollbackRefusal>)
      modifies this
      ensures refused.None? <==>
              && id < |old(records)| && approved && old(records)[id].target.Some? && old(records)[id].status != Completed
              && IsEmptyDirectory(old(tree), old(records)[id].target.value)
      ensures tree == if refused.None? then old(tree) - {old(records)[id].target.value} else old(tree)
      ensures refused.None? ==> records == old(records)[id := old(records)[id].(status := Completed)]
      ensures refused == Some(DirectoryMissing) || refused == Some(NotEmpty) ==>
                id < |old(records)| && records == old(records)[id := old(records)[id].(status := Failed)]
      ensures refused.Some? && refused != Some(DirectoryMissing) && refused != Some(NotEmpty) ==>
        records == old(records)
    {
      if id >= |records| { return Some(NotFound); }
      if !approved { return Some(NotApproved); }
      if records[id].target.None? { return Some(Irreversible); }
      if records[id].status == Completed { return Some(AlreadyRolledBack); }
      var p := records[id].target.value;
      refused := None;
      if p !in tree || !tree[p].Dir? {
        refused := Some(DirectoryMissing);
      } else if exists q :: q in tree && q != [] && q[..|q| - 1] == p {
        refused := Some(NotEmpty);
      } else {
        tree := tree - {p};
      }
      records := records[id := records[id].(status := if refused.None? then Completed else Failed)];
    }
  }

  /** A created directory leaves a tree, and is empty in it. */
  lemma CreatingKeepsATree(t: Tree, p: Path)
    requires WellFormed(t) && p !in t && !Obstructed(t, p)
    ensures WellFormed(WithDirectories(t, p)) && IsEmptyDirectory(WithDirectories(t, p), p)
  {
    var after := WithDirectories(t, p);
    DirectoriesKeepATree(t, p);
    forall q | q in after && q != []
      ensures q[..|q| - 1] != p
    {
      CreatedAt(t, p, q);
    }
    CreatedAt(t, p, p);
  }

  /** Removing an empty directory leaves a tree. */
  lemma RemovingKeepsATree(t: Tree, p: Path)
    requires WellFormed(t) && IsEmptyDirectory(t, p)
    ensures WellFormed(t - {p})
  {
  }

  /**
   Rolling a fresh creation back gives the old tree exactly when the directory above existed before: missing
   directories created on the way are left behind.
   */
  lemma RollbackIsExactExactlyWhenTheParentExisted(t: Tree, p: Path)
    requires WellFormed(t) && p !in t && p != [] && !Obstructed(t, p)
    ensures WithDirectories(t, p) - {p} == t <==> p[..|p| - 1] in t
  {
    var d := p[..|p| - 1];
    var back := WithDirectories(t, p) - {p};
    CreatedAt(t, p, d);
    if d in t {
      forall q
        ensures q in back <==> q in t
        ensures q in t ==> back[q] == t[q]
      {
        CreatedAt(t, p, q);
        if q <= p && q != p {
          assert q <= d;
          AboveIsInTheTree(t, d, q);
        }
      }
    }
  }

  /** A rollback right after the creation loses no other entry, and leaves over only directories above the target. */
  lemma LeftoversAreAbove(t: Tree, p: Path, q: Path)
    requires WellFormed(t) && p !in t && !Obstructed(t, p)
    ensures var back := WithDirectories(t, p) - {p};
            && (q in t ==> q in back && back[q] == t[q])
            && (q in back && q !in t ==> q <= p && q != p && back[q] == Dir)
  {
    CreatedAt(t, p, q);
  }

  /**
   The record of a failed creation still names its target: whatever the tree has become, rolling it back removes the
   target exactly if an empty directory stands there now, no matter who made it.
   */
  method RollBackFailedCreation(journal: DirectoryJournal, p: Path,
                                later: Tree) returns (refused: Option<RollbackRefusal>)
    requires p !in journal.tree && Obstructed(journal.tree, p)
    modifies journal
    ensures refused.None? <==> IsEmptyDirectory(later, p)
    ensures journal.tree == if IsEmptyDirectory(later, p) then later - {p} else later
  {
    var id := |journal.records|;
    var reply := journal.RunDirectoryCreate(p, ChangeJournal.WORKING);
    journal.tree := later;
    refused := journal.Rollback(id, true);
  }
}
