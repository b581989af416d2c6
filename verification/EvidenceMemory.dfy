/**
 File evidence (aicoder/evidence_memory.py, ProjectEvidenceStore): a hot map over a durable table shared by all
 workspaces, and the recall of unchanged reads in the run loop (aicoder/agent_runtime.py). A digest is modelled by
 the content it identifies.
 */
module EvidenceMemory {
  import opened Wrappers

  type Path = string

  datatype FileState = FileState(content: string, mtime: int)

  type Disk = map<Path, FileState>

  datatype FileKey = FileKey(path: Path, startLine: int, endLine: int)

  datatype FileEvidence = FileEvidence(hash: string, size: nat, mtime: int, updatedAt: int)

  datatype InspectError = NotARegularFile | DatabaseFailed

  datatype Inspection = Inspection(record: FileEvidence, same: bool)

  type Hot = map<FileKey, FileEvidence>

  function KeyOf(path: Path, startLine: int, endLine: int): FileKey {
    FileKey(path, if startLine < 1 then 1 else startLine, if endLine < 0 then 0 else endLine)
  }

  predicate StatMatches(e: FileEvidence, f: FileState) {
    e.size == |f.content| && e.mtime == f.mtime
  }

  /** The assumption of the fast path for one key: the same size and time stamp mean the same content. */
  predicate StatsTell(disk: Disk, hot: Hot, key: FileKey) {
    key in hot && key.path in disk && StatMatches(hot[key], disk[key.path]) ==> hot[key].hash == disk[key.path].content
  }

  /** The table, one row for a workspace and a key. */
  class Table {
    var rows: map<(string, FileKey), FileEvidence>

    constructor (rows: map<(string, FileKey), FileEvidence>)
      ensures this.rows == rows
    {
      this.rows := rows;
    }

    /** Insert or update a row; a failing database changes nothing. */
    method Upsert(workspace: string, key: FileKey, item: FileEvidence, works: bool) returns (ok: bool)
      modifies this
      ensures ok == works && rows == if ok then old(rows)[(workspace, key) := item] else old(rows)
    {
      if works { rows := rows[(workspace, key) := item]; }
      return works;
    }
  }

  /** The rows of one workspace. */
  function OwnRows(rows: map<(string, FileKey), FileEvidence>, workspace: string): Hot {
    map k | k in (set r | r in rows :: r.1) && (workspace, k) in rows :: rows[(workspace, k)]
  }

  /** The hot map holds rows of the workspace, at most `limit` of them, the most recent ones, and all if they fit. */
  ghost predicate IsWarm(hot: Hot, own: Hot, limit: nat) {
    && |hot| <= limit
    && hot.Keys <= own.Keys
    && (forall k | k in hot :: own[k] == hot[k])
    && (forall k, j | k in hot && j in own && j !in hot :: own[j].updatedAt <= hot[k].updatedAt)
    && (|hot| < limit ==> hot.Keys == own.Keys)
  }

  /** The entry updated last among some keys. */
  lemma {:induction false} NewestExists(own: Hot, keys: set<FileKey>)
    requires keys != {} && keys <= own.Keys
    ensures exists k :: k in keys && forall j | j in keys :: own[j].updatedAt <= own[k].updatedAt
  {
    var k :| k in keys;
    var others := keys - {k};
    if others == {} {
      assert keys == {k};
    } else {
      NewestExists(own, others);
      var m :| m in others && forall j | j in others :: own[j].updatedAt <= own[m].updatedAt;
      var best := if own[k].updatedAt <= own[m].updatedAt then m else k;
      assert best in keys && forall j | j in keys :: j == k || j in others;
    }
  }

  method TakeNewest(own: Hot, keys: set<FileKey>) returns (k: FileKey)
    requires keys != {} && keys <= own.Keys
    ensures k in keys && forall j | j in keys :: own[j].updatedAt <= own[k].updatedAt
  {
    NewestExists(own, keys);
    k :| k in keys && forall j | j in keys :: own[j].updatedAt <= own[k].updatedAt;
  }

  /** Rows taken so far, none older than one that is left. */
  ghost predicate Warming(hot: Hot, own: Hot, rest: set<FileKey>) {
    && hot.Keys <= own.Keys && rest == own.Keys - hot.Keys
    && (forall k | k in hot :: own[k] == hot[k])
    && (forall k, j | k in hot && j in rest :: own[j].updatedAt <= hot[k].updatedAt)
  }

  lemma WarmingStep(hot: Hot, own: Hot, rest: set<FileKey>, k: FileKey)
    requires Warming(hot, own, rest) && k in rest && forall j | j in rest :: own[j].updatedAt <= own[k].updatedAt
    ensures k in own && Warming(hot[k := own[k]], own, rest - {k}) && |hot[k := own[k]]| == |hot| + 1
  {
    OneMoreKey(hot, k, own[k]);
  }

  lemma WarmingEnds(hot: Hot, own: Hot, rest: set<FileKey>, limit: nat)
    requires Warming(hot, own, rest) && |hot| <= limit && (rest == {} || |hot| == limit)
    ensures IsWarm(hot, own, limit)
  {
    assert forall j | j in own && j !in hot :: j in rest;
    if rest == {} {
      assert hot.Keys == own.Keys;
    }
  }

  /** `_warm_recent_files`: take rows newest first until the limit. */
  method WarmRecentFiles(own: Hot, limit: nat) returns (hot: Hot)
    requires limit > 0
    ensures IsWarm(hot, own, limit)
  {
    hide Warming, IsWarm;
    hot := map[];
    var rest := own.Keys;
    WarmingStarts(own);
    while rest != {} && |hot| < limit
      invariant |hot| <= limit && Warming(hot, own, rest)
      decreases rest
    {
      WarmingLeaves(hot, own, rest);
      var k := TakeNewest(own, rest);
      WarmingStep(hot, own, rest, k);
      hot := hot[k := own[k]];
      rest := rest - {k};
    }
    WarmingEnds(hot, own, rest, limit);
  }

  lemma WarmingStarts(own: Hot)
    ensures Warming(map[], own, own.Keys)
  {
  }

  lemma WarmingLeaves(hot: Hot, own: Hot, rest: set<FileKey>)
    requires Warming(hot, own, rest)
    ensures rest <= own.Keys
  {
  }

  lemma OneMoreKey(hot: Hot, k: FileKey, e: FileEvidence)
    requires k !in hot
    ensures hot[k := e].Keys == hot.Keys + {k} && |hot[k := e]| == |hot| + 1
  {
    assert hot[k := e].Keys == hot.Keys + {k};
    assert |hot[k := e]| == |hot[k := e].Keys| && |hot| == |hot.Keys|;
  }

  class EvidenceStore {
    const workspace: string
    const table: Table
    var hot: Hot

    /** Every hot entry is the durable row of its key. */
    ghost predicate Coherent()
      reads this, table
    {
      forall k | k in hot :: (workspace, k) in table.rows && table.rows[(workspace, k)] == hot[k]
    }

    /** A new store is warmed with the most recent rows of its workspace. */
    constructor (workspace: string, table: Table, limit: int)
      ensures this.workspace == workspace && this.table == table && Coherent()
      ensures IsWarm(hot, OwnRows(table.rows, workspace), if limit < 1 then 1 else limit)
    {
      this.workspace := workspace;
      this.table := table;
      hot := map[];
      new;
      hot := WarmRecentFiles(OwnRows(table.rows, workspace), if limit < 1 then 1 else limit);
    }

    /**
     An inspection keeps hot map and table together: the database works, nothing is written, or the row already says
     what
     would be written.
     */
    ghost predicate Keeps(disk: Disk, key: FileKey, forceHash: bool, now: int, works: bool)
      reads this`hot, table
    {
      || works || key.path !in disk || (!forceHash && key in hot && StatMatches(hot[key], disk[key.path]))
      || ((workspace, key) in table.rows &&
          table.rows[(workspace, key)] == FileEvidence(disk[key.path].content, |disk[key.path].content|, disk[key.path].mtime, now))
    }

    /** `inspect_file`. The hot entry is set before the row is written, which fails unless the database `works`. */
    method InspectFile(disk: Disk, path: Path, startLine: int, endLine: int, forceHash: bool, now: int, works: bool)
      returns (r: Result<Inspection, InspectError>)
      modifies this`hot, table
      ensures r == Failure(NotARegularFile) <==> path !in disk
      ensures path in disk ==>
                var key := FileKey(path, if startLine < 1 then 1 else startLine, if endLine < 0 then 0 else endLine);
                r.Success? <==> works || (!forceHash && key in old(hot) && old(hot)[key].size == |disk[path].content|
                                          && old(hot)[key].mtime == disk[path].mtime)
      ensures path !in disk ==> hot == old(hot) && table.rows == old(table.rows)
      ensures path in disk ==>
                var key := FileKey(path, if startLine < 1 then 1 else startLine, if endLine < 0 then 0 else endLine);
                var file, previous := disk[path], old(hot);
                var fast := !forceHash && key in previous && previous[key].size == |file.content|
                            && previous[key].mtime == file.mtime;
                var item := FileEvidence(file.content, |file.content|, file.mtime, now);
                if fast then
                  r == Success(Inspection(previous[key], true)) && hot == previous && table.rows == old(table.rows)
                else
                  && hot == previous[key := item]
                  && (r.Success? ==> table.rows == old(table.rows)[(workspace, key) := item]
                                     && r.value == Inspection(item, key in previous && previous[key].hash == file.content))
                  && (r.Failure? ==> !works && table.rows == old(table.rows))
      ensures old(Coherent()) ==>
        (Coherent() <==> old(Keeps(disk, KeyOf(path, startLine, endLine), forceHash, now, works)))
    {
      if path !in disk { return Failure(NotARegularFile); }
      var file := disk[path];
      var key := KeyOf(path, startLine, endLine);
      if !forceHash && key in hot && hot[key].size == |file.content| && hot[key].mtime == file.mtime {
        return Success(Inspection(hot[key], true));
      }
      var same := key in hot && hot[key].hash == file.content;
      var item := FileEvidence(file.content, |file.content|, file.mtime, now);
      hot := hot[key := item];
      var saved := table.Upsert(workspace, key, item, works);
      if !saved { return Failure(DatabaseFailed); }
      return Success(Inspection(item, same));
    }
  }

  /**
   What "unchanged" tells: with a forced hash exactly that the content is the one recorded last; on the fast path the
   same, as long as size and time stamp tell contents apart.
   */
  method Recheck(store: EvidenceStore, disk: Disk, path: Path, startLine: int, endLine: int, forceHash: bool, now: int,
                 works: bool)
    returns (same: bool)
    modifies store`hot, store.table
    ensures var key := KeyOf(path, startLine, endLine);
            same && (forceHash || StatsTell(disk, old(store.hot), key)) ==>
              path in disk && key in old(store.hot) && old(store.hot)[key].hash == disk[path].content
  {
    var r := store.InspectFile(disk, path, startLine, endLine, forceHash, now, works);
    same := r.Success? && r.value.same;
  }

  datatype ReadReply = Recalled | Read(content: string) | ReadFailed

  /** The reads of one run. */
  class ReadSession {
    const store: EvidenceStore
    /** Keys whose file was read and recorded in this run. */
    var fileReads: set<FileKey>
    /** What the model was shown for each key. */
    ghost var shown: map<FileKey, string>

    constructor (store: EvidenceStore)
      ensures this.store == store && fileReads == {} && shown == map[]
    {
      this.store := store;
      fileReads := {};
      shown := map[];
    }

    /** What was recorded for a read key is what the model was shown. */
    ghost predicate InStep()
      reads this, store
    {
      forall k | k in fileReads :: k in shown && k in store.hot && store.hot[k].hash == shown[k]
    }

    /** The file holds something else than what is recorded for the key. */
    ghost predicate ChangedOnDisk(disk: Disk, key: FileKey)
      reads store
    {
      key in store.hot && key.path in disk && disk[key.path].content != store.hot[key].hash
    }

    /** The recorded content is the one on disk. */
    ghost predicate Records(disk: Disk, key: FileKey)
      reads store
    {
      key in store.hot && key.path in disk && store.hot[key].hash == disk[key.path].content
    }

    /**
     One file_read of the run loop: a key read before is rechecked with a forced hash and recalled when unchanged;
     otherwise the tool runs and a success is recorded. `readOk` tells whether the tool succeeds, the last two flags
     whether the database works.
     The recall message is true when records and readings are in step. They stay in step unless, and
     exactly when, a key read before whose file has changed is read and the tool fails: the recheck has recorded the
     change that the model was not shown.
     */
    method FileRead(disk: Disk, key: FileKey, readOk: bool, now: int, recheckWorks: bool,
                    works: bool) returns (reply: ReadReply)
      requires key == KeyOf(key.path, key.startLine, key.endLine)
      modifies this, store`hot, store.table
      ensures reply == Recalled ==> key in old(fileReads) && key.path in disk && fileReads == old(fileReads)
      ensures reply == Recalled ==> shown == old(shown)
      ensures reply == Recalled && old(InStep()) ==> shown[key] == disk[key.path].content
      ensures reply.Read? ==> readOk && key.path in disk && reply.content == disk[key.path].content
      ensures reply.Read? ==> shown == old(shown)[key := reply.content]
      ensures reply.Read? && works ==> fileReads == old(fileReads) + {key}
      ensures reply == ReadFailed ==> fileReads == old(fileReads) && shown == old(shown)
      ensures reply == ReadFailed ==> (readOk ==> key.path !in disk)
      ensures reply == Recalled <==>
               recheckWorks && key in old(fileReads) && key.path in disk && old(Records(disk, key))
      ensures reply == ReadFailed && key in old(fileReads) && key.path in disk ==>
                key in store.hot && store.hot[key].hash == disk[key.path].content
      ensures old(InStep()) && StatsTell(disk, old(store.hot), key) ==>
                (InStep() <==> !(!readOk && key in old(fileReads) && old(ChangedOnDisk(disk, key))))
    {
      if key in fileReads {
        var checked := store.InspectFile(disk, key.path, key.startLine, key.endLine, true, now, recheckWorks);
        if checked.Success? && checked.value.same { return Recalled; }
      }
      if !readOk || key.path !in disk {
        return ReadFailed;
      }
      var content := disk[key.path].content;
      shown := shown[key := content];
      var recorded := store.InspectFile(disk, key.path, key.startLine, key.endLine, false, now, works);
      if recorded.Success? { fileReads := fileReads + {key}; }
      return Read(content);
    }
  }

  // ---- witnesses ----

  const NOTES: FileKey := FileKey("notes", 1, 0)

  lemma NothingToWarm(hot: Hot, workspace: string, limit: nat)
    requires IsWarm(hot, OwnRows(map[], workspace), limit)
    ensures hot == map[]
  {
  }

  /** A store over an empty table. */
  method EmptyStore() returns (store: EvidenceStore)
    ensures fresh(store) && fresh(store.table) && store.hot == map[] && store.table.rows == map[]
  {
    hide IsWarm;
    var table := new Table(map[]);
    store := new EvidenceStore("w", table, 8);
    NothingToWarm(store.hot, "w", 8);
  }

  /** One failing database write leaves a hot entry without its row. */
  method FailingWriteBreaksCoherence() returns (store: EvidenceStore)
    ensures !store.Coherent()
  {
    store := EmptyStore();
    var _ := store.InspectFile(map["notes" := FileState("a", 0)], "notes", 1, 0, false, 1, false);
  }

  /** A disk holding one file. */
  function Holding(content: string, mtime: int): Disk {
    map[NOTES.path := FileState(content, mtime)]
  }

  /**
   A file is read, changes, and is read again while the tool fails. The third read recalls the first one, although the
   file holds something else.
   */
  method UntrueRecall() returns (session: ReadSession, reply: ReadReply, disk: Disk)
    ensures reply == Recalled && NOTES in session.shown && NOTES.path in disk
    ensures session.shown[NOTES] != disk[NOTES.path].content
  {
    var store := EmptyStore();
    session := new ReadSession(store);
    disk := Holding("a", 0);
    reply := session.FileRead(disk, NOTES, true, 1, true, true);
    assert store.hot[NOTES].hash == "a" && session.shown[NOTES] == "a";
    disk := Holding("b", 1);
    reply := session.FileRead(disk, NOTES, false, 2, true, true);
    assert store.hot[NOTES].hash == "b" && session.shown[NOTES] == "a";
    reply := session.FileRead(disk, NOTES, false, 3, true, true);
  }
}
